/**
 * Filtering and projecting a sequence in one pass, and taking its last element:
 * the two shapes in which the parser's loop builds its lists and picks its
 * "current" record.
 */
module Sequences {
  import opened Wrappers

  /** Keeps f(x) for every x where f gives a value, in the order of s. */
  function FilterMap<T, U>(s: seq<T>, f: T -> Option<U>): (r: seq<U>)
    ensures |r| <= |s|
  {
    if s == [] then [] else f(s[0]).ToSeq() + FilterMap(s[1..], f)
  }

  /** The last element, or None for the empty sequence. */
  function LastOf<T>(s: seq<T>): (r: Option<T>)
    ensures r.None? <==> s == []
    ensures r.Some? ==> r.value in s
  {
    if s == [] then None else Some(s[|s| - 1])
  }

  /** Appending zero or one element to s. */
  lemma {:induction false} LastOfSnoc<T>(s: seq<T>, o: Option<T>)
    ensures LastOf(s + o.ToSeq()) == if o.Some? then o else LastOf(s)
  {
    if o.None? {
      assert s + o.ToSeq() == s;
    }
  }

  lemma {:induction false} FilterMapConcat<T, U>(a: seq<T>, b: seq<T>, f: T -> Option<U>)
    ensures FilterMap(a + b, f) == FilterMap(a, f) + FilterMap(b, f)
  {
    if a == [] {
      assert a + b == b;
    } else {
      assert (a + b)[1..] == a[1..] + b;
      FilterMapConcat(a[1..], b, f);
    }
  }

  lemma {:induction false} FilterMapSingleton<T, U>(x: T, f: T -> Option<U>)
    ensures FilterMap([x], f) == f(x).ToSeq()
  {
    assert [x][1..] == [];
  }

  lemma {:induction false} FilterMapCons<T, U>(x: T, s: seq<T>, f: T -> Option<U>)
    ensures FilterMap([x] + s, f) == f(x).ToSeq() + FilterMap(s, f)
  {
    assert ([x] + s)[1..] == s;
  }

  /** One more step of a left-to-right loop over s. */
  lemma {:induction false} FilterMapSnoc<T, U>(s: seq<T>, i: nat, f: T -> Option<U>)
    requires i < |s|
    ensures FilterMap(s[..i + 1], f) == FilterMap(s[..i], f) + f(s[i]).ToSeq()
  {
    assert s[..i + 1] == s[..i] + [s[i]];
    FilterMapConcat(s[..i], [s[i]], f);
    FilterMapSingleton(s[i], f);
  }

  /** Splitting s around s[i]. */
  lemma {:induction false} FilterMapSplit<T, U>(s: seq<T>, i: nat, f: T -> Option<U>)
    requires i < |s|
    ensures FilterMap(s, f) == FilterMap(s[..i], f) + (f(s[i]).ToSeq() + FilterMap(s[i + 1..], f))
  {
    var a, b := s[..i], s[i + 1..];
    assert s == a + ([s[i]] + b);
    FilterMapConcat(a, [s[i]] + b, f);
    FilterMapConcat([s[i]], b, f);
    FilterMapSingleton(s[i], f);
  }

  /** Dropping an element that f rejects changes nothing. */
  lemma {:induction false} FilterMapRemove<T, U>(s: seq<T>, i: nat, f: T -> Option<U>)
    requires i < |s| && f(s[i]).None?
    ensures FilterMap(s[..i] + s[i + 1..], f) == FilterMap(s, f)
  {
    FilterMapSplit(s, i, f);
    FilterMapConcat(s[..i], s[i + 1..], f);
    assert f(s[i]).ToSeq() + FilterMap(s[i + 1..], f) == FilterMap(s[i + 1..], f);
  }

  /** A value is kept exactly when some element maps to it. */
  lemma {:induction false} FilterMapMember<T, U>(s: seq<T>, f: T -> Option<U>, y: U)
    ensures y in FilterMap(s, f) <==> exists i :: 0 <= i < |s| && f(s[i]) == Some(y)
  {
    if s != [] {
      FilterMapMember(s[1..], f, y);
      if y in FilterMap(s[1..], f) {
        var j :| 0 <= j < |s[1..]| && f(s[1..][j]) == Some(y);
        assert f(s[j + 1]) == Some(y);
      }
      if exists i :: 0 <= i < |s| && f(s[i]) == Some(y) {
        var i :| 0 <= i < |s| && f(s[i]) == Some(y);
        if i > 0 {
          assert f(s[1..][i - 1]) == Some(y);
        }
      }
    }
  }

  /** The result is empty exactly when f rejects every element. */
  lemma {:induction false} FilterMapEmpty<T, U>(s: seq<T>, f: T -> Option<U>)
    ensures FilterMap(s, f) == [] <==> forall i :: 0 <= i < |s| ==> f(s[i]).None?
  {
    if s != [] {
      FilterMapEmpty(s[1..], f);
      if forall i :: 0 <= i < |s| ==> f(s[i]).None? {
        assert forall i :: 0 <= i < |s[1..]| ==> f(s[1..][i]).None? by {
          forall i | 0 <= i < |s[1..]| ensures f(s[1..][i]).None? {
            assert s[1..][i] == s[i + 1];
          }
        }
      }
      if FilterMap(s, f) == [] {
        forall i | 0 <= i < |s| ensures f(s[i]).None? {
          if i > 0 {
            assert s[i] == s[1..][i - 1];
          }
        }
      }
    }
  }

  /**
   * The last kept value comes from the last element that f accepts: it is
   * None exactly when f accepts nothing, and otherwise f(s[i]) is that value
   * for an i after which f accepts nothing.
   */
  lemma {:induction false} FilterMapLast<T, U>(s: seq<T>, f: T -> Option<U>)
    ensures LastOf(FilterMap(s, f)).None? <==> forall i :: 0 <= i < |s| ==> f(s[i]).None?
    ensures LastOf(FilterMap(s, f)).Some? ==>
      exists i :: 0 <= i < |s| && f(s[i]) == LastOf(FilterMap(s, f)) &&
        forall j :: i < j < |s| ==> f(s[j]).None?
  {
    FilterMapEmpty(s, f);
    if FilterMap(s, f) != [] {
      var i := LastAccepted(s, f);
    }
  }

  /** The index of the element that the last kept value comes from. */
  lemma {:induction false} LastAccepted<T, U>(s: seq<T>, f: T -> Option<U>) returns (i: nat)
    requires FilterMap(s, f) != []
    ensures i < |s| && f(s[i]) == LastOf(FilterMap(s, f))
    ensures forall j :: i < j < |s| ==> f(s[j]).None?
  {
    var n := |s| - 1;
    var init := s[..n];
    FilterMapSnoc(s, n, f);
    assert s[..n + 1] == s;
    LastOfSnoc(FilterMap(init, f), f(s[n]));
    if f(s[n]).Some? {
      i := n;
    } else {
      assert FilterMap(s, f) == FilterMap(init, f) + [];
      i := LastAccepted(init, f);
      assert s[i] == init[i];
      forall j | i < j < |s| ensures f(s[j]).None? {
        if j < n {
          assert s[j] == init[j];
        }
      }
    }
  }
}
