/**
 * The rules the parser's result obeys, stated against the records
 * themselves: which list a price joins, what a malformed record or a record
 * without usable timestamps contributes, what the schedule holds and in
 * which order, how the current record is chosen, and what the aggregates
 * mean.
 */
module ParseProperties {
  import opened Wrappers
  import opened Sequences
  import opened Sorting
  import opened Aggregates
  import opened Coordinator

  /** The records without the one at index i. */
  function Without(entries: seq<Entry>, i: nat): (r: seq<Entry>)
    requires i < |entries|
    ensures |r| == |entries| - 1
  {
    entries[..i] + entries[i + 1..]
  }

  /**
   * Day classification: together the today and tomorrow lists hold exactly
   * the prices of the converted records dated today or tomorrow, each once,
   * so no record is counted on both days (the `elif`).
   */
  lemma {:induction false} DayClassification(entries: seq<Entry>, m: Moment)
    ensures multiset(FilterMap(entries, TodayPrice(m))) + multiset(FilterMap(entries, TomorrowPrice(m)))
         == multiset(FilterMap(entries, DatedPrice(m)))
  {
    if entries != [] {
      var e := entries[0];
      DayClassification(entries[1..], m);
      assert multiset(TodayPrice(m)(e).ToSeq()) + multiset(TomorrowPrice(m)(e).ToSeq())
          == multiset(DatedPrice(m)(e).ToSeq());
    }
  }

  /**
   * Which list a price joins: a value is in the today (tomorrow) list exactly
   * when some converted record dated today (tomorrow and not today) has it as
   * its price.
   */
  lemma {:induction false} DayListMembers(entries: seq<Entry>, m: Moment)
    ensures forall x :: x in FilterMap(entries, TodayPrice(m)) <==>
      exists i :: 0 <= i < |entries| && CountsToday(entries[i], m) && entries[i].price == Some(x)
    ensures forall x :: x in FilterMap(entries, TomorrowPrice(m)) <==>
      exists i :: 0 <= i < |entries| && CountsTomorrow(entries[i], m) && entries[i].price == Some(x)
  {
    forall x
      ensures x in FilterMap(entries, TodayPrice(m)) <==>
        exists i :: 0 <= i < |entries| && CountsToday(entries[i], m) && entries[i].price == Some(x)
    {
      FilterMapMember(entries, TodayPrice(m), x);
    }
    forall x
      ensures x in FilterMap(entries, TomorrowPrice(m)) <==>
        exists i :: 0 <= i < |entries| && CountsTomorrow(entries[i], m) && entries[i].price == Some(x)
    {
      FilterMapMember(entries, TomorrowPrice(m), x);
    }
  }

  /** A record whose price or period does not convert changes nothing in the result. */
  lemma {:induction false} MalformedEntryIgnored(entries: seq<Entry>, i: nat, m: Moment)
    requires i < |entries| && !HasPriceAndPeriod(entries[i])
    ensures Summarize(Without(entries, i), m) == Summarize(entries, m)
  {
    FilterMapRemove(entries, i, TodayPrice(m));
    FilterMapRemove(entries, i, TomorrowPrice(m));
    FilterMapRemove(entries, i, ScheduleSlot(m.now));
    FilterMapRemove(entries, i, CurrentHit(m.now));
  }

  /** The day list of `entries` is that of the rest plus the record's own contribution. */
  lemma {:induction false} DayListSplit(entries: seq<Entry>, i: nat, f: Entry -> Option<real>)
    requires i < |entries|
    ensures multiset(FilterMap(entries, f)) == multiset(FilterMap(Without(entries, i), f)) + multiset(f(entries[i]).ToSeq())
  {
    FilterMapSplit(entries, i, f);
    FilterMapConcat(entries[..i], entries[i + 1..], f);
  }

  /**
   * A record that does not reach the schedule (an empty or unparsable
   * timestamp, a naive end, or an end at or before now) changes neither the
   * schedule nor the current fields, while its price still joins its day's
   * list. A naive start alone does not keep a record out of the schedule.
   */
  lemma {:induction false} UnscheduledEntryCountsOnlyForItsDay(entries: seq<Entry>, i: nat, m: Moment)
    requires i < |entries| && !InSchedule(entries[i], m.now)
    ensures Summarize(Without(entries, i), m).prices == Summarize(entries, m).prices
    ensures Summarize(Without(entries, i), m).currentPrice == Summarize(entries, m).currentPrice
    ensures Summarize(Without(entries, i), m).currentPeriod == Summarize(entries, m).currentPeriod
    ensures CountsToday(entries[i], m) ==>
      multiset(FilterMap(entries, TodayPrice(m))) ==
      multiset(FilterMap(Without(entries, i), TodayPrice(m))) + multiset{entries[i].price.value}
    ensures CountsTomorrow(entries[i], m) ==>
      multiset(FilterMap(entries, TomorrowPrice(m))) ==
      multiset(FilterMap(Without(entries, i), TomorrowPrice(m))) + multiset{entries[i].price.value}
  {
    FilterMapRemove(entries, i, ScheduleSlot(m.now));
    FilterMapRemove(entries, i, CurrentHit(m.now));
    DayListSplit(entries, i, TodayPrice(m));
    DayListSplit(entries, i, TomorrowPrice(m));
  }

  /**
   * Min and max of one day list, stated over the records: absent exactly
   * when no record contributes, otherwise the price of a contributing record
   * and below (above) every contributing price; the average is absent
   * exactly when no record contributes.
   */
  lemma {:induction false} AggregatesOf(entries: seq<Entry>, f: Entry -> Option<real>)
    ensures SafeMin(FilterMap(entries, f)).None? <==> forall i :: 0 <= i < |entries| ==> f(entries[i]).None?
    ensures SafeMax(FilterMap(entries, f)).None? <==> forall i :: 0 <= i < |entries| ==> f(entries[i]).None?
    ensures SafeAvg(FilterMap(entries, f)).None? <==> forall i :: 0 <= i < |entries| ==> f(entries[i]).None?
    ensures SafeMin(FilterMap(entries, f)).Some? ==>
      (exists i :: 0 <= i < |entries| && f(entries[i]) == SafeMin(FilterMap(entries, f))) &&
      forall i :: 0 <= i < |entries| && f(entries[i]).Some? ==> SafeMin(FilterMap(entries, f)).value <= f(entries[i]).value
    ensures SafeMax(FilterMap(entries, f)).Some? ==>
      (exists i :: 0 <= i < |entries| && f(entries[i]) == SafeMax(FilterMap(entries, f))) &&
      forall i :: 0 <= i < |entries| && f(entries[i]).Some? ==> f(entries[i]).value <= SafeMax(FilterMap(entries, f)).value
  {
    var lst := FilterMap(entries, f);
    FilterMapEmpty(entries, f);
    if lst != [] {
      FilterMapMember(entries, f, SafeMin(lst).value);
      FilterMapMember(entries, f, SafeMax(lst).value);
      forall i | 0 <= i < |entries| && f(entries[i]).Some?
        ensures f(entries[i]).value in lst
      {
        FilterMapMember(entries, f, f(entries[i]).value);
      }
    }
  }

  /** `today_min`, `today_max`, `today_avg` in terms of the records dated today. */
  lemma {:induction false} TodayAggregates(entries: seq<Entry>, m: Moment)
    ensures var r := Summarize(entries, m);
      (r.todayMin.None? <==> forall i :: 0 <= i < |entries| ==> !CountsToday(entries[i], m)) &&
      (r.todayMax.None? <==> r.todayMin.None?) && (r.todayAvg.None? <==> r.todayMin.None?)
    ensures var r := Summarize(entries, m);
      r.todayMin.Some? ==>
        (exists i :: 0 <= i < |entries| && CountsToday(entries[i], m) && entries[i].price == r.todayMin) &&
        (exists i :: 0 <= i < |entries| && CountsToday(entries[i], m) && entries[i].price == r.todayMax) &&
        (forall i :: 0 <= i < |entries| && CountsToday(entries[i], m) ==>
           r.todayMin.value <= entries[i].price.value <= r.todayMax.value) &&
        r.todayMin.value - 0.00005 <= r.todayAvg.value <= r.todayMax.value + 0.00005
  {
    var f := TodayPrice(m);
    AggregatesOf(entries, f);
    if FilterMap(entries, f) != [] {
      AvgBetweenMinAndMax(FilterMap(entries, f));
    }
  }

  /** `tomorrow_min`, `tomorrow_max`, `tomorrow_avg` in terms of the records dated tomorrow. */
  lemma {:induction false} TomorrowAggregates(entries: seq<Entry>, m: Moment)
    ensures var r := Summarize(entries, m);
      (r.tomorrowMin.None? <==> forall i :: 0 <= i < |entries| ==> !CountsTomorrow(entries[i], m)) &&
      (r.tomorrowMax.None? <==> r.tomorrowMin.None?) && (r.tomorrowAvg.None? <==> r.tomorrowMin.None?)
    ensures var r := Summarize(entries, m);
      r.tomorrowMin.Some? ==>
        (exists i :: 0 <= i < |entries| && CountsTomorrow(entries[i], m) && entries[i].price == r.tomorrowMin) &&
        (exists i :: 0 <= i < |entries| && CountsTomorrow(entries[i], m) && entries[i].price == r.tomorrowMax) &&
        (forall i :: 0 <= i < |entries| && CountsTomorrow(entries[i], m) ==>
           r.tomorrowMin.value <= entries[i].price.value <= r.tomorrowMax.value) &&
        r.tomorrowMin.value - 0.00005 <= r.tomorrowAvg.value <= r.tomorrowMax.value + 0.00005
  {
    var f := TomorrowPrice(m);
    AggregatesOf(entries, f);
    if FilterMap(entries, f) != [] {
      AvgBetweenMinAndMax(FilterMap(entries, f));
    }
  }

  /**
   * The schedule: sorted by raw start string, holding exactly the slots of
   * the records that end after now, each as often as such records produce
   * it, and, among slots with the same start, in input order.
   */
  lemma {:induction false} ScheduleContentsAndOrder(entries: seq<Entry>, m: Moment)
    ensures SortedBy(Summarize(entries, m).prices, StartOf)
    ensures multiset(Summarize(entries, m).prices) == multiset(FilterMap(entries, ScheduleSlot(m.now)))
    ensures forall s :: s in Summarize(entries, m).prices <==>
      exists i :: 0 <= i < |entries| && InSchedule(entries[i], m.now) && SlotOf(entries[i]) == s
    ensures forall k ::
              FilterMap(Summarize(entries, m).prices, KeyIs(StartOf, k)) ==
              FilterMap(FilterMap(entries, ScheduleSlot(m.now)), KeyIs(StartOf, k))
  {
    var schedule := FilterMap(entries, ScheduleSlot(m.now));
    SortBySorted(schedule, StartOf);
    forall s ensures s in Summarize(entries, m).prices <==>
      exists i :: 0 <= i < |entries| && InSchedule(entries[i], m.now) && SlotOf(entries[i]) == s
    {
      assert s in Summarize(entries, m).prices <==> s in multiset(schedule);
      FilterMapMember(entries, ScheduleSlot(m.now), s);
    }
    forall k ensures FilterMap(Summarize(entries, m).prices, KeyIs(StartOf, k)) == FilterMap(schedule, KeyIs(StartOf, k)) {
      SortByStable(schedule, StartOf, k);
    }
  }

  /** The last record whose interval contains now, as `CurrentHit` selects it. */
  lemma {:induction false} LastCurrentRecord(entries: seq<Entry>, now: int)
    ensures LastOf(FilterMap(entries, CurrentHit(now))).None? <==>
      forall i :: 0 <= i < |entries| ==> !IsCurrent(entries[i], now)
    ensures LastOf(FilterMap(entries, CurrentHit(now))).Some? ==>
      exists i :: 0 <= i < |entries| && IsCurrent(entries[i], now) &&
        LastOf(FilterMap(entries, CurrentHit(now))) == Some((entries[i].price.value, entries[i].period.value)) &&
        forall j :: i < j < |entries| ==> !IsCurrent(entries[j], now)
  {
    var f := CurrentHit(now);
    FilterMapLast(entries, f);
    if LastOf(FilterMap(entries, f)).Some? {
      var i :| 0 <= i < |entries| && f(entries[i]) == LastOf(FilterMap(entries, f)) &&
        forall j :: i < j < |entries| ==> f(entries[j]).None?;
      assert forall j :: i < j < |entries| ==> !IsCurrent(entries[j], now) by {
        forall j | i < j < |entries| ensures !IsCurrent(entries[j], now) {
          assert f(entries[j]).None?;
        }
      }
    } else {
      forall i | 0 <= i < |entries| ensures !IsCurrent(entries[i], now) {
        assert f(entries[i]).None?;
      }
    }
  }

  /** The current record's slot is also in the schedule. */
  lemma {:induction false} CurrentIsScheduled(entries: seq<Entry>, i: nat, m: Moment)
    requires i < |entries| && IsCurrent(entries[i], m.now)
    ensures SlotOf(entries[i]) in Summarize(entries, m).prices
  {
    var schedule := FilterMap(entries, ScheduleSlot(m.now));
    FilterMapMember(entries, ScheduleSlot(m.now), SlotOf(entries[i]));
    assert ScheduleSlot(m.now)(entries[i]) == Some(SlotOf(entries[i]));
    assert SlotOf(entries[i]) in multiset(SortBy(schedule, StartOf));
  }

  /**
   * Current selection: `current_price` and `current_period` are set
   * together, are absent exactly when no record's interval contains now, and
   * otherwise come from the last such record in input order.
   */
  lemma {:induction false} CurrentIsLastMatch(entries: seq<Entry>, m: Moment)
    ensures Summarize(entries, m).currentPrice.Some? <==> Summarize(entries, m).currentPeriod.Some?
    ensures Summarize(entries, m).currentPrice.None? <==>
      forall i :: 0 <= i < |entries| ==> !IsCurrent(entries[i], m.now)
    ensures Summarize(entries, m).currentPrice.Some? ==>
      exists i :: 0 <= i < |entries| && IsCurrent(entries[i], m.now) &&
        entries[i].price == Summarize(entries, m).currentPrice &&
        entries[i].period == Summarize(entries, m).currentPeriod &&
        forall j :: i < j < |entries| ==> !IsCurrent(entries[j], m.now)
  {
    var r := Summarize(entries, m);
    var hit := LastOf(FilterMap(entries, CurrentHit(m.now)));
    assert r.currentPrice == CurrentFields(hit).0 && r.currentPeriod == CurrentFields(hit).1;
    LastCurrentRecord(entries, m.now);
    if hit.Some? {
      var i :| 0 <= i < |entries| && IsCurrent(entries[i], m.now) &&
        hit == Some((entries[i].price.value, entries[i].period.value)) &&
        forall j :: i < j < |entries| ==> !IsCurrent(entries[j], m.now);
      assert entries[i].price == r.currentPrice && entries[i].period == r.currentPeriod;
    }
  }

  /** Input in which no record converts gives all nine fields empty. */
  lemma {:induction false} AllMalformedGivesEmptyResult(entries: seq<Entry>, m: Moment)
    requires forall i :: 0 <= i < |entries| ==> !HasPriceAndPeriod(entries[i])
    ensures Summarize(entries, m) == Summary(None, None, [], None, None, None, None, None, None)
  {
    FilterMapEmpty(entries, TodayPrice(m));
    FilterMapEmpty(entries, TomorrowPrice(m));
    FilterMapEmpty(entries, ScheduleSlot(m.now));
    FilterMapEmpty(entries, CurrentHit(m.now));
  }
}
