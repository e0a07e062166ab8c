/**
 * The parse-and-aggregate step of the OKTE day-ahead market integration:
 * one pass over the raw price records of the API turns them into the current
 * price and period, a forward schedule sorted by start, and the minimum,
 * maximum and average price for today and for tomorrow.
 *
 * `Parse` is the loop of the source, updating its lists and variables record
 * by record; `Summarize` says declaratively what the result is, and the
 * lemmas below state the rules the result obeys.
 */
module Coordinator {
  import opened Wrappers
  import opened Sequences
  import opened Sorting
  import opened Aggregates

  /** What `datetime.fromisoformat` makes of a non-empty timestamp string. */
  datatype Stamp =
    | Unparsable        // fromisoformat raised ValueError
    | Naive             // no UTC offset: ordering it against the aware `now` raises TypeError
    | Aware(utc: int)   // an instant on a discrete timeline (the unit is left abstract)

  /**
   * One record of the API's JSON array. A missing `deliveryDay`,
   * `deliveryStart` or `deliveryEnd` reads as "", as `entry.get(..., "")` does.
   */
  datatype Entry = Entry(
    price: Option<real>,  // float(entry["price"]); None when that raises a caught error
    period: Option<int>,  // int(entry["period"]); None when that raises a caught error
    deliveryDay: string,
    startRaw: string,
    endRaw: string,
    start: Stamp,         // startRaw as parsed (read only when startRaw is non-empty)
    end: Stamp)

  /** The evaluation instant and the ISO dates of its UTC day and the next one. */
  datatype Moment = Moment(now: int, today: string, tomorrow: string)

  /** One element of the forward schedule: period, raw start string, price. */
  datatype Slot = Slot(period: int, start: string, price: real)

  /** The nine keys of the parser's result. */
  datatype Summary = Summary(
    currentPrice: Option<real>,
    currentPeriod: Option<int>,
    prices: seq<Slot>,
    todayMin: Option<real>,
    todayMax: Option<real>,
    todayAvg: Option<real>,
    tomorrowMin: Option<real>,
    tomorrowMax: Option<real>,
    tomorrowAvg: Option<real>)

  /** The record survives the `float(...)` and `int(...)` conversions. */
  predicate HasPriceAndPeriod(e: Entry)
  {
    e.price.Some? && e.period.Some?
  }

  /** The record's price goes to the today list. */
  predicate CountsToday(e: Entry, m: Moment)
  {
    HasPriceAndPeriod(e) && e.deliveryDay == m.today
  }

  /** The record's price goes to the tomorrow list (the `elif`). */
  predicate CountsTomorrow(e: Entry, m: Moment)
    ensures CountsTomorrow(e, m) ==> !CountsToday(e, m)
  {
    HasPriceAndPeriod(e) && e.deliveryDay != m.today && e.deliveryDay == m.tomorrow
  }

  /** Both timestamps are non-empty and both parse. */
  predicate HasTimestamps(e: Entry)
  {
    e.startRaw != "" && e.endRaw != "" && !e.start.Unparsable? && !e.end.Unparsable?
  }

  /** The record is appended to the schedule: its end is a UTC instant after now. */
  predicate InSchedule(e: Entry, now: int)
  {
    HasPriceAndPeriod(e) && HasTimestamps(e) && e.end.Aware? && e.end.utc > now
  }

  /** The record's half-open interval [start, end) contains now. */
  predicate IsCurrent(e: Entry, now: int)
    ensures IsCurrent(e, now) ==> InSchedule(e, now)
  {
    HasPriceAndPeriod(e) && HasTimestamps(e) && e.end.Aware? && e.start.Aware? &&
    e.start.utc <= now < e.end.utc
  }

  function TodayPrice(m: Moment): Entry -> Option<real>
  {
    e => if CountsToday(e, m) then Some(e.price.value) else None
  }

  function TomorrowPrice(m: Moment): Entry -> Option<real>
  {
    e => if CountsTomorrow(e, m) then Some(e.price.value) else None
  }

  /** The price of every record dated today or tomorrow, whichever list it joins. */
  function DatedPrice(m: Moment): Entry -> Option<real>
  {
    e => if HasPriceAndPeriod(e) && (e.deliveryDay == m.today || e.deliveryDay == m.tomorrow)
         then Some(e.price.value) else None
  }

  function SlotOf(e: Entry): Slot
    requires HasPriceAndPeriod(e)
  {
    Slot(e.period.value, e.startRaw, e.price.value)
  }

  function ScheduleSlot(now: int): Entry -> Option<Slot>
  {
    e => if InSchedule(e, now) then Some(SlotOf(e)) else None
  }

  function CurrentHit(now: int): Entry -> Option<(real, int)>
  {
    e => if IsCurrent(e, now) then Some((e.price.value, e.period.value)) else None
  }

  /** The `current_price` and `current_period` fields taken from one selected record. */
  function CurrentFields(hit: Option<(real, int)>): (Option<real>, Option<int>)
  {
    if hit.Some? then (Some(hit.value.0), Some(hit.value.1)) else (None, None)
  }

  /** The sort key of the schedule: the raw start string. */
  function StartOf(s: Slot): string
  {
    s.start
  }

  /**
   * The result of parsing `entries` at `m`: the current fields come from the
   * last record whose interval contains now, the schedule is every record
   * still running or to come sorted by raw start, the aggregates are taken
   * over the today and tomorrow lists.
   */
  function Summarize(entries: seq<Entry>, m: Moment): (r: Summary)
    ensures r.currentPrice.Some? <==> r.currentPeriod.Some?
    ensures |r.prices| <= |entries|
  {
    var current := CurrentFields(LastOf(FilterMap(entries, CurrentHit(m.now))));
    var today := FilterMap(entries, TodayPrice(m));
    var tomorrow := FilterMap(entries, TomorrowPrice(m));
    var schedule := FilterMap(entries, ScheduleSlot(m.now));
    assert |multiset(SortBy(schedule, StartOf))| == |schedule|;
    Summary(
      current.0, current.1,
      SortBy(schedule, StartOf),
      SafeMin(today), SafeMax(today), SafeAvg(today),
      SafeMin(tomorrow), SafeMax(tomorrow), SafeAvg(tomorrow))
  }

  /** What record i adds to each list the loop keeps, and how it moves the current fields. */
  lemma {:induction false} ParseStep(entries: seq<Entry>, i: nat, m: Moment)
    requires i < |entries|
    ensures FilterMap(entries[..i + 1], TodayPrice(m)) ==
      FilterMap(entries[..i], TodayPrice(m)) + (if CountsToday(entries[i], m) then [entries[i].price.value] else [])
    ensures FilterMap(entries[..i + 1], TomorrowPrice(m)) ==
      FilterMap(entries[..i], TomorrowPrice(m)) + (if CountsTomorrow(entries[i], m) then [entries[i].price.value] else [])
    ensures FilterMap(entries[..i + 1], ScheduleSlot(m.now)) ==
      FilterMap(entries[..i], ScheduleSlot(m.now)) + (if InSchedule(entries[i], m.now) then [SlotOf(entries[i])] else [])
    ensures CurrentFields(LastOf(FilterMap(entries[..i + 1], CurrentHit(m.now)))) ==
      if IsCurrent(entries[i], m.now) then (Some(entries[i].price.value), Some(entries[i].period.value))
      else CurrentFields(LastOf(FilterMap(entries[..i], CurrentHit(m.now))))
  {
    FilterMapSnoc(entries, i, TodayPrice(m));
    FilterMapSnoc(entries, i, TomorrowPrice(m));
    FilterMapSnoc(entries, i, ScheduleSlot(m.now));
    FilterMapSnoc(entries, i, CurrentHit(m.now));
    LastOfSnoc(FilterMap(entries[..i], CurrentHit(m.now)), CurrentHit(m.now)(entries[i]));
  }

  /**
   * The body of the `try` block for one record: what it appends to the three
   * lists and whether it overwrites the current price and period.
   */
  method ParseEntry(
    e: Entry, m: Moment,
    todayPrices: seq<real>, tomorrowPrices: seq<real>, schedule: seq<Slot>,
    currentPrice: Option<real>, currentPeriod: Option<int>)
    returns (
      todayPrices': seq<real>, tomorrowPrices': seq<real>, schedule': seq<Slot>,
      currentPrice': Option<real>, currentPeriod': Option<int>)
    ensures todayPrices' == todayPrices + if CountsToday(e, m) then [e.price.value] else []
    ensures tomorrowPrices' == tomorrowPrices + if CountsTomorrow(e, m) then [e.price.value] else []
    ensures schedule' == schedule + if InSchedule(e, m.now) then [SlotOf(e)] else []
    ensures (currentPrice', currentPeriod') ==
      if IsCurrent(e, m.now) then (Some(e.price.value), Some(e.period.value)) else (currentPrice, currentPeriod)
  {
    todayPrices', tomorrowPrices', schedule' := todayPrices, tomorrowPrices, schedule;
    currentPrice', currentPeriod' := currentPrice, currentPeriod;
    // A record whose price or period does not convert raises before any append.
    if e.price.Some? && e.period.Some? {
      var price, period := e.price.value, e.period.value;
      if e.deliveryDay == m.today {
        todayPrices' := todayPrices' + [price];
      } else if e.deliveryDay == m.tomorrow {
        tomorrowPrices' := tomorrowPrices' + [price];
      }
      // An unparsable timestamp raises ValueError, and comparing a naive
      // end with `now` raises TypeError: the rest of the record is skipped.
      if e.startRaw != "" && e.endRaw != "" && !e.start.Unparsable? && !e.end.Unparsable? && e.end.Aware? {
        if e.end.utc > m.now {
          schedule' := schedule' + [Slot(period, e.startRaw, price)];
        }
        // `start <= now` raises TypeError for a naive start.
        if e.start.Aware? && e.start.utc <= m.now && m.now < e.end.utc {
          currentPrice' := Some(price);
          currentPeriod' := Some(period);
        }
      }
    }
  }

  /** `_parse`: one pass over the records, then the aggregates and the sort. */
  method Parse(entries: seq<Entry>, m: Moment) returns (r: Summary)
    ensures r == Summarize(entries, m)
  {
    var todayPrices: seq<real> := [];
    var tomorrowPrices: seq<real> := [];
    var schedule: seq<Slot> := [];
    var currentPrice: Option<real> := None;
    var currentPeriod: Option<int> := None;
    for i := 0 to |entries|
      invariant todayPrices == FilterMap(entries[..i], TodayPrice(m))
      invariant tomorrowPrices == FilterMap(entries[..i], TomorrowPrice(m))
      invariant schedule == FilterMap(entries[..i], ScheduleSlot(m.now))
      invariant (currentPrice, currentPeriod) == CurrentFields(LastOf(FilterMap(entries[..i], CurrentHit(m.now))))
    {
      ParseStep(entries, i, m);
      todayPrices, tomorrowPrices, schedule, currentPrice, currentPeriod :=
        ParseEntry(entries[i], m, todayPrices, tomorrowPrices, schedule, currentPrice, currentPeriod);
    }
    assert entries[..|entries|] == entries;
    r := Summary(
      currentPrice, currentPeriod,
      SortBy(schedule, StartOf),
      SafeMin(todayPrices), SafeMax(todayPrices), SafeAvg(todayPrices),
      SafeMin(tomorrowPrices), SafeMax(tomorrowPrices), SafeAvg(tomorrowPrices));
  }
}
