# OKTE day-ahead prices: the parse-and-aggregate step

The OKTE integration polls the day-ahead market results of the Slovak
market operator and republishes them as sensor values. Its one piece of
logic is `_parse` in `custom_components/okte/coordinator.py`. It takes the
raw price records of one poll and returns a fixed nine-key result:

- the current price and period;
- the forward schedule of intervals that have not yet ended, sorted by start;
- minimum, maximum and average price for today and for tomorrow.

This project models that function in Dafny and proves the rules its result
obeys.

Modules:

- `Coordinator` (Coordinator.dfy) holds the record and result datatypes and
  `Parse`. `Parse` is the source's loop: it appends to the today, tomorrow and
  schedule lists and overwrites the current price and period record by record.
  It is proved equal to `Summarize`, a declarative definition of the result.
- `ParseProperties` (ParseProperties.dfy) states what the result means in
  terms of the input records.
- `Aggregates` (Aggregates.dfy) holds `_safe_min`, `_safe_max` and `_safe_avg`.
- `Sorting` (Sorting.dfy) holds Python's `sorted(..., key=...)` on string
  keys. The order is lexicographic by character and the sort is stable.
- `Sequences` (Sequences.dfy) holds the one-pass filter-and-project
  (`FilterMap`) and the last element (`LastOf`) on which `Summarize` is built.
- `Wrappers` (Wrappers.dfy) holds `Option`.
- `Examples` (Examples.dfy) holds a worked run on concrete records.

How the source's operations are represented:

- A record carries the outcomes of its conversions:
  - `price: Option<real>` is `None` when `float(entry["price"])` raises an
    error that line 84 catches (`KeyError`, `ValueError`, `TypeError`);
  - `period: Option<int>` is `None` when `int(entry["period"])` raises an
    error that line 84 catches;
  - the raw `deliveryDay`, `deliveryStart` and `deliveryEnd` strings, with ""
    for a missing key, as `entry.get(..., "")` gives;
  - a `Stamp` for each timestamp: what `datetime.fromisoformat` makes of it.
- A `Stamp` is one of three things:
  - `Unparsable`: `fromisoformat` raised `ValueError`;
  - `Naive`: no UTC offset, so ordering it against the aware `now` raises
    `TypeError`;
  - `Aware`: an instant on a discrete timeline. The unit is left abstract; the
    model only compares instants.
- The evaluation instant and the ISO strings of today's and tomorrow's UTC
  dates are passed in as a `Moment`. The source reads them from the clock at
  coordinator.py:50-53.
- A `TypeError` from a naive stamp is caught like the other errors. It drops
  the rest of the record at the comparison that raises:
  - a naive end keeps the record out of both the schedule and the current
    selection;
  - a naive start with an aware end still lets the record into the schedule
    (line 79 runs before line 80), but never makes it current.
- The schedule is sorted by the raw start string, as line 99 does. Records
  stamped with different UTC offsets can therefore sort out of chronological
  order; the model sorts by the raw string as well.

## Model

| member | source | states |
|---|---|---|
| Coordinator.Parse | custom_components/okte/coordinator.py:48-106 | The loop over the records, with its appends and overwrites, yields exactly `Summarize` of the records: each day list, the schedule and the current fields are at every step those of the records seen so far. |
| Coordinator.ParseEntry | custom_components/okte/coordinator.py:62-84 | One pass of the `try` block. A record whose price or period does not convert changes nothing. Otherwise its price joins today's list, or else tomorrow's list when it is dated tomorrow. With both stamps present and parsed and an aware end, an end after now appends its slot, and an interval containing now (aware start) overwrites the current price and period. In every other case the state is unchanged. |
| Coordinator.Summarize | custom_components/okte/coordinator.py:96-106 | The nine-key result: the current price and the current period are always both set or both absent, and the schedule is never longer than the input. |
| Coordinator.HasPriceAndPeriod | custom_components/okte/coordinator.py:63-67 | The record gets past `float(entry["price"])` and `int(entry["period"])`: both converted values are present. |
| Coordinator.CountsToday | custom_components/okte/coordinator.py:69-70 | The price goes to today's list: the record converted and its `deliveryDay` equals today's date string. |
| Coordinator.CountsTomorrow | custom_components/okte/coordinator.py:71-72 | The price goes to tomorrow's list: the record converted and its `deliveryDay` equals tomorrow's date but not today's. Because of the `elif`, such a record never also counts for today. |
| Coordinator.HasTimestamps | custom_components/okte/coordinator.py:74-76 | Both raw stamps are non-empty and both parse, so lines 75-76 raise no `ValueError`. |
| Coordinator.InSchedule | custom_components/okte/coordinator.py:74-79 | The slot is appended: the record converted, both stamps parsed, and the end is aware and after now (`end > now`). The start may be naive. |
| Coordinator.IsCurrent | custom_components/okte/coordinator.py:74-82 | The current fields are overwritten: both stamps are present, parsed and aware, and `start <= now < end`. Every current record is also in the schedule. |
| ParseProperties.DayClassification | custom_components/okte/coordinator.py:69-72 | Together, the today and tomorrow lists hold the price of every converted record dated today or tomorrow exactly once. A record dated today never also joins tomorrow's list (the `elif`). This lemma states only the union; which list each price joins is stated by ParseProperties.DayListMembers. |
| ParseProperties.DayListMembers | custom_components/okte/coordinator.py:69-72 | Which list a price joins: a value is in today's list exactly when a converted record dated today has it as price, and in tomorrow's list exactly when a converted record dated tomorrow and not today has it. |
| ParseProperties.MalformedEntryIgnored | custom_components/okte/coordinator.py:61-67 | A record whose price or period does not convert is skipped without error. Removing it from the input leaves the whole result unchanged: no day list, no schedule entry, no current selection. |
| ParseProperties.UnscheduledEntryCountsOnlyForItsDay | custom_components/okte/coordinator.py:69-85 | Some records never reach the schedule: an empty or unparsable timestamp, a naive end, or an end at or before now (including end == now). A naive start alone does not keep a record out (line 79 runs before line 80 raises). Such a record leaves the schedule and the current fields as they would be without it, but its price still joins its day's list. |
| ParseProperties.AggregatesOf | custom_components/okte/coordinator.py:87-94 | For any day list: min, max and avg are absent exactly when no record contributes. Otherwise min (max) is the price of a contributing record and lies below (above) every contributing price. |
| ParseProperties.TodayAggregates | custom_components/okte/coordinator.py:100-102 | `today_min`/`today_max`/`today_avg` are absent exactly when no converted record is dated today. Otherwise min and max are prices of such records and bound all of them, and avg lies within rounding distance of [min, max]. |
| ParseProperties.TomorrowAggregates | custom_components/okte/coordinator.py:103-105 | The same for `tomorrow_*`, over the converted records dated tomorrow and not today. |
| ParseProperties.ScheduleContentsAndOrder | custom_components/okte/coordinator.py:74-79 | The schedule is sorted by raw start string. It holds a (period, raw start, price) slot exactly when some converted record with parsed stamps and an aware end after now produces it, as many times as such records do. Slots with equal start keep input order. |
| ParseProperties.LastCurrentRecord | custom_components/okte/coordinator.py:80-82 | The current selection is absent exactly when no record's interval [start, end) contains now. Otherwise it is the price and period of the last such record in input order. |
| ParseProperties.CurrentIsScheduled | custom_components/okte/coordinator.py:78-82 | A record whose interval contains now also has its slot in the schedule. |
| ParseProperties.CurrentIsLastMatch | custom_components/okte/coordinator.py:58-59 | `current_price` and `current_period` are set together. They are absent exactly when no record is current; otherwise they come from the last current record in input order. |
| ParseProperties.AllMalformedGivesEmptyResult | custom_components/okte/coordinator.py:96-106 | Input in which no record converts gives all nine fields absent and an empty schedule. |
| Aggregates.SafeMin | custom_components/okte/coordinator.py:87-88 | Absent exactly for the empty list; otherwise an element of the list and at most every element. |
| Aggregates.SafeMax | custom_components/okte/coordinator.py:90-91 | Absent exactly for the empty list; otherwise an element of the list and at least every element. |
| Aggregates.SafeAvg | custom_components/okte/coordinator.py:93-94 | Absent exactly for the empty list. Otherwise a four-decimal value within 1/20000 of sum / len; at an exact tie it is the neighbour whose last decimal digit is even. |
| Aggregates.Sum | custom_components/okte/coordinator.py:94 | `sum(lst)`: the exact sum of the list. Over a list whose elements lie in [lo, hi], it lies between len times lo and len times hi (Aggregates.SumBounds). |
| Aggregates.Mean | custom_components/okte/coordinator.py:94 | `sum(lst) / len(lst)` on a non-empty list, which lies between the list's min and max (Aggregates.MeanBetweenMinAndMax). |
| Aggregates.Round4 | custom_components/okte/coordinator.py:94 | `round(x, 4)` gives a value with at most four decimals, within 1/20000 of x. At an exact tie (x halfway between two four-decimal values) it is the one whose last decimal digit is even. |
| Examples.TieGoesToEven | custom_components/okte/coordinator.py:94 | `round` on exact ties: 0.03125 becomes 0.0312 and 0.03135 becomes 0.0314. |
| Aggregates.RoundHalfEven | custom_components/okte/coordinator.py:94 | The rounding step is to a nearest integer, with a tie going to the even one. |
| Aggregates.Round4Monotone | custom_components/okte/coordinator.py:94 | Rounding never leaves an interval whose ends have four decimals. |
| Aggregates.MeanBetweenMinAndMax | custom_components/okte/coordinator.py:93-94 | The unrounded mean of a non-empty list lies between its minimum and its maximum. |
| Aggregates.AvgBetweenMinAndMax | custom_components/okte/coordinator.py:87-94 | The average lies within 1/20000 of [min, max], and inside [min, max] when both have at most four decimals. |
| Sorting.SortBy | custom_components/okte/coordinator.py:99 | `sorted` returns a permutation of its input. |
| Sorting.SortBySorted | custom_components/okte/coordinator.py:99 | `sorted` returns keys in non-decreasing Python string order. |
| Sorting.SortByStable | custom_components/okte/coordinator.py:99 | `sorted` is stable: for every key, the elements with that key appear in input order. |
| Sorting.LexLe | custom_components/okte/coordinator.py:99 | Python's `<=` on `str`, the comparison `sorted` applies to the raw start keys. |
| Sorting.LexLeFirstDifference | custom_components/okte/coordinator.py:99 | The comparison is the usual string order: a <= b exactly when a is a prefix of b, or the first character where they differ is smaller in a. |
| Sorting.LexLeTotal | custom_components/okte/coordinator.py:99 | Any two start strings are comparable. |
| Sorting.LexLeTransitive | custom_components/okte/coordinator.py:99 | The string order is transitive. |
| Sorting.LexLeAntisymmetric | custom_components/okte/coordinator.py:99 | Two strings ordered both ways are equal, so equal keys are the only ties. |
| Sequences.FilterMapLast | custom_components/okte/coordinator.py:80-82 | Overwriting a variable on every match keeps the last match: the last kept value comes from an element after which nothing matches, and there is none exactly when nothing matches. |
| Examples.TwoDaysExample | custom_components/okte/coordinator.py:96-106 | Today's prices 10, 20, 30 and tomorrow's 5, 15, plus one record whose price does not convert, give today min 10, max 30, avg 20 and tomorrow min 5, max 15, avg 10. Current is absent and the schedule is empty. |

## Left out

- `OkteDamCoordinator._async_update_data` (coordinator.py:28-45): the HTTP GET, the status check and the `UpdateFailed` wrapping are network I/O.
- The update interval (`UPDATE_INTERVAL_MINUTES`) and the coordinator's polling lifecycle are framework scheduling.
- config_flow.py, `__init__.py` and sensor.py: Home Assistant setup, config UI and entity glue. The sensor values are plain lookups of the nine keys.
- Float semantics: prices are exact reals, so IEEE rounding in `float()`, `sum` and `/` is not modelled. `float()` also accepts NaN and infinities. NaN makes `min` and `max` depend on input order. An infinity makes the sum, and so the average, infinite or NaN. Neither value is a real, so neither is modelled.
- `datetime.fromisoformat`, the `"Z"` to `"+00:00"` rewrite and timezone offsets: each record carries the parse outcome as a `Stamp` rather than deriving it from the raw string.
- `datetime.now` and the date arithmetic of lines 50-53: `now`, `today` and `tomorrow` are parameters. Nothing ties the two date strings to `now`.
- How `int()` and `float()` treat particular JSON values (truncation of a float period, booleans): the record carries the converted value or `None`.
- A non-string `deliveryStart` or `deliveryEnd` raises `AttributeError` at `.replace`, which line 84 does not catch, so the whole parse aborts. This happens only when both values are truthy (line 74): a non-string start raises at line 75, and a non-string end raises at line 76 only after the start has parsed. The model's raw fields are strings, so this path is not modelled.
- An `OverflowError` from the conversions is not caught by line 84 either, and it also aborts the whole parse. `int(entry["period"])` raises it for an infinite float (JSON `1e400` or `Infinity`), and `float(entry["price"])` for an integer too large for a float. The model cannot express it: such a record is treated as one whose conversion failed, so it is skipped, and `ParseProperties.MalformedEntryIgnored` covers it. The source instead fails on the whole poll.
- A non-dict entry raises `TypeError` at `entry["price"]`. It is modelled as a record whose price does not convert.
- Debug logging of skipped records.
