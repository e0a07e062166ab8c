/** A concrete run of the parser on a small input. */
module Examples {
  import opened Wrappers
  import opened Sequences
  import opened Aggregates
  import opened Coordinator

  /** A record with a price, a period and a delivery day but no timestamps. */
  function Dated(price: real, period: int, day: string): Entry
  {
    Entry(Some(price), Some(period), day, "", "", Unparsable, Unparsable)
  }

  /**
   * Three prices dated today (10, 20, 30), one record whose price does not
   * convert, two prices dated tomorrow (5, 15).
   */
  function TwoDays(): seq<Entry>
  {
    [Dated(10.0, 1, "2024-01-01"), Dated(20.0, 2, "2024-01-01"), Dated(30.0, 3, "2024-01-01"),
     Entry(None, Some(4), "2024-01-01", "", "", Unparsable, Unparsable),
     Dated(5.0, 1, "2024-01-02"), Dated(15.0, 2, "2024-01-02")]
  }

  function FirstDay(): Moment
  {
    Moment(0, "2024-01-01", "2024-01-02")
  }

  /** `FilterMap` over three values, written out value by value. */
  lemma {:induction false} FilterMapThree<T, U>(a: T, b: T, c: T, f: T -> Option<U>)
    ensures FilterMap([a, b, c], f) == f(a).ToSeq() + f(b).ToSeq() + f(c).ToSeq()
  {
    FilterMapSingleton(c, f);
    FilterMapCons(b, [c], f);
    assert [b] + [c] == [b, c];
    FilterMapCons(a, [b, c], f);
    assert [a] + [b, c] == [a, b, c];
  }

  /** The record list, cut in two halves of three. */
  lemma {:induction false} TwoDaysHalves(f: Entry -> Option<real>)
    ensures FilterMap(TwoDays(), f) == FilterMap(TwoDays()[..3], f) + FilterMap(TwoDays()[3..], f)
    ensures FilterMap(TwoDays()[..3], f) == f(TwoDays()[0]).ToSeq() + f(TwoDays()[1]).ToSeq() + f(TwoDays()[2]).ToSeq()
    ensures FilterMap(TwoDays()[3..], f) == f(TwoDays()[3]).ToSeq() + f(TwoDays()[4]).ToSeq() + f(TwoDays()[5]).ToSeq()
  {
    var es := TwoDays();
    FilterMapConcat(es[..3], es[3..], f);
    assert es == es[..3] + es[3..];
    FilterMapThree(es[0], es[1], es[2], f);
    assert es[..3] == [es[0], es[1], es[2]];
    FilterMapThree(es[3], es[4], es[5], f);
    assert es[3..] == [es[3], es[4], es[5]];
  }

  lemma {:induction false} TwoDaysToday()
    ensures FilterMap(TwoDays(), TodayPrice(FirstDay())) == [10.0, 20.0, 30.0]
  {
    var es, f := TwoDays(), TodayPrice(FirstDay());
    TwoDaysHalves(f);
    assert f(es[0]) == Some(10.0) && f(es[1]) == Some(20.0) && f(es[2]) == Some(30.0);
    assert f(es[3]) == None && f(es[4]) == None && f(es[5]) == None;
  }

  lemma {:induction false} TwoDaysTomorrow()
    ensures FilterMap(TwoDays(), TomorrowPrice(FirstDay())) == [5.0, 15.0]
  {
    var es, f := TwoDays(), TomorrowPrice(FirstDay());
    TwoDaysHalves(f);
    assert FirstDay().today[9] != FirstDay().tomorrow[9];
    assert f(es[0]) == None && f(es[1]) == None && f(es[2]) == None;
    assert f(es[3]) == None && f(es[4]) == Some(5.0) && f(es[5]) == Some(15.0);
  }

  /** No record has timestamps, so neither the schedule nor the current selection gets one. */
  lemma {:induction false} TwoDaysUntimed()
    ensures FilterMap(TwoDays(), ScheduleSlot(FirstDay().now)) == []
    ensures FilterMap(TwoDays(), CurrentHit(FirstDay().now)) == []
  {
    var es := TwoDays();
    forall i | 0 <= i < |es| ensures es[i].startRaw == "" {
    }
    FilterMapEmpty(es, ScheduleSlot(FirstDay().now));
    FilterMapEmpty(es, CurrentHit(FirstDay().now));
  }

  lemma {:induction false} TwoDaysAggregates()
    ensures SafeMin([10.0, 20.0, 30.0]) == Some(10.0) && SafeMax([10.0, 20.0, 30.0]) == Some(30.0)
    ensures SafeAvg([10.0, 20.0, 30.0]) == Some(20.0)
    ensures SafeMin([5.0, 15.0]) == Some(5.0) && SafeMax([5.0, 15.0]) == Some(15.0)
    ensures SafeAvg([5.0, 15.0]) == Some(10.0)
  {
    assert [10.0, 20.0, 30.0][1..] == [20.0, 30.0] && [20.0, 30.0][1..] == [30.0];
    assert Sum([10.0, 20.0, 30.0]) == 60.0;
    assert [5.0, 15.0][1..] == [15.0];
    assert Sum([5.0, 15.0]) == 20.0;
    assert RoundHalfEven(200000.0) == 200000;
    assert RoundHalfEven(100000.0) == 100000;
  }

  /** An exact tie on the fourth decimal goes to the even neighbour, as `round` does. */
  lemma TieGoesToEven()
    ensures Round4(0.03125) == 0.0312
    ensures Round4(0.03135) == 0.0314
  {
    assert RoundHalfEven(312.5) == 312;
    assert RoundHalfEven(313.5) == 314;
  }

  /**
   * The run on `TwoDays`: min, max and average per day, no current price and
   * an empty schedule, since no record has timestamps.
   */
  lemma {:induction false} TwoDaysExample()
    ensures Summarize(TwoDays(), FirstDay())
      == Summary(None, None, [], Some(10.0), Some(30.0), Some(20.0), Some(5.0), Some(15.0), Some(10.0))
  {
    TwoDaysToday();
    TwoDaysTomorrow();
    TwoDaysUntimed();
    TwoDaysAggregates();
  }
}
