/**
 * Python's `sorted(xs, key=...)` for string keys: strings are ordered
 * lexicographically by character ("" comes first, a proper prefix comes
 * before its extensions) and the sort is stable, so elements with equal keys
 * keep their input order.
 */
module Sorting {
  import opened Wrappers
  import opened Sequences

  /** Python's `a <= b` on str. */
  predicate LexLe(a: string, b: string)
  {
    a == [] || (b != [] && (a[0] < b[0] || (a[0] == b[0] && LexLe(a[1..], b[1..]))))
  }

  /** a is b or an initial part of b. */
  ghost predicate IsPrefix(a: string, b: string)
  {
    |a| <= |b| && a == b[..|a|]
  }

  /** a and b agree before index i, and at i a has the smaller character. */
  ghost predicate SmallerAt(a: string, b: string, i: nat)
  {
    i < |a| && i < |b| && a[..i] == b[..i] && a[i] < b[i]
  }

  /**
   * `LexLe` is the usual string order: a <= b exactly when a is a prefix of
   * b or the first character in which they differ is smaller in a.
   */
  lemma {:induction false} LexLeFirstDifference(a: string, b: string)
    ensures LexLe(a, b) <==> IsPrefix(a, b) || exists i: nat :: SmallerAt(a, b, i)
  {
    if a != [] && b != [] {
      var a', b' := a[1..], b[1..];
      LexLeFirstDifference(a', b');
      if a[0] == b[0] {
        assert IsPrefix(a, b) <==> IsPrefix(a', b') by {
          if IsPrefix(a', b') {
            assert a == [a[0]] + a' && b[..|a|] == [b[0]] + b'[..|a'|];
          }
          if IsPrefix(a, b) {
            assert a' == a[..|a|][1..] && b'[..|a'|] == b[..|a|][1..];
          }
        }
        forall i: nat | SmallerAt(a', b', i) ensures SmallerAt(a, b, i + 1) {
          assert a[..i + 1] == [a[0]] + a'[..i] && b[..i + 1] == [b[0]] + b'[..i];
        }
        forall i: nat | SmallerAt(a, b, i) ensures i > 0 && SmallerAt(a', b', i - 1) {
          assert a'[..i - 1] == a[..i][1..] && b'[..i - 1] == b[..i][1..];
        }
      } else {
        assert !IsPrefix(a, b);
        assert forall i: nat :: SmallerAt(a, b, i) ==> i == 0;
        if a[0] < b[0] {
          assert SmallerAt(a, b, 0);
        }
      }
    } else if a != [] {
      assert !IsPrefix(a, b);
    } else {
      assert IsPrefix(a, b);
    }
  }

  lemma {:induction false} LexLeReflexive(a: string)
    ensures LexLe(a, a)
  {
    if a != [] {
      LexLeReflexive(a[1..]);
    }
  }

  lemma {:induction false} LexLeTotal(a: string, b: string)
    ensures LexLe(a, b) || LexLe(b, a)
  {
    if a != [] && b != [] && a[0] == b[0] {
      LexLeTotal(a[1..], b[1..]);
    }
  }

  lemma {:induction false} LexLeTransitive(a: string, b: string, c: string)
    requires LexLe(a, b) && LexLe(b, c)
    ensures LexLe(a, c)
  {
    if a != [] && a[0] == b[0] && b[0] == c[0] {
      LexLeTransitive(a[1..], b[1..], c[1..]);
    }
  }

  lemma {:induction false} LexLeAntisymmetric(a: string, b: string)
    requires LexLe(a, b) && LexLe(b, a)
    ensures a == b
  {
    if a != [] {
      LexLeAntisymmetric(a[1..], b[1..]);
      assert a == [a[0]] + a[1..] && b == [b[0]] + b[1..];
    }
  }

  /** Keys never decrease from left to right. */
  ghost predicate SortedBy<T>(s: seq<T>, key: T -> string)
  {
    forall i, j :: 0 <= i < j < |s| ==> LexLe(key(s[i]), key(s[j]))
  }

  /** Selects the elements whose key is k (used to state stability). */
  function KeyIs<T>(key: T -> string, k: string): T -> Option<T>
  {
    x => if key(x) == k then Some(x) else None
  }

  /** Inserts x before the first element whose key is not smaller than x's. */
  function InsertBy<T>(x: T, s: seq<T>, key: T -> string): (r: seq<T>)
    ensures multiset(r) == multiset(s) + multiset{x}
  {
    if s == [] then [x]
    else if LexLe(key(x), key(s[0])) then [x] + s
    else
      assert s == [s[0]] + s[1..];
      [s[0]] + InsertBy(x, s[1..], key)
  }

  lemma {:induction false} InsertBySorted<T>(x: T, s: seq<T>, key: T -> string)
    requires SortedBy(s, key)
    ensures SortedBy(InsertBy(x, s, key), key)
  {
    if s != [] {
      if LexLe(key(x), key(s[0])) {
        forall j | 0 <= j < |s| ensures LexLe(key(x), key(s[j])) {
          if j > 0 {
            LexLeTransitive(key(x), key(s[0]), key(s[j]));
          }
        }
      } else {
        var rest := InsertBy(x, s[1..], key);
        InsertBySorted(x, s[1..], key);
        LexLeTotal(key(x), key(s[0]));
        forall j | 0 <= j < |rest| ensures LexLe(key(s[0]), key(rest[j])) {
          assert rest[j] in multiset(rest);
          if rest[j] != x {
            assert rest[j] in multiset(s[1..]);
            var k :| 0 <= k < |s[1..]| && s[1..][k] == rest[j];
            assert s[k + 1] == rest[j];
          }
        }
      }
    }
  }

  /**
   * Inserting x keeps, for every key, the order of [x] + s: x only moves past
   * elements whose key differs from its own.
   */
  lemma {:induction false} InsertByStable<T>(x: T, s: seq<T>, key: T -> string, k: string)
    ensures FilterMap(InsertBy(x, s, key), KeyIs(key, k)) == FilterMap([x] + s, KeyIs(key, k))
  {
    if s != [] && !LexLe(key(x), key(s[0])) {
      var f := KeyIs(key, k);
      var s0, s1 := s[0], s[1..];
      LexLeReflexive(key(x));
      assert key(x) != key(s0);
      var ins := InsertBy(x, s1, key);
      assert InsertBy(x, s, key) == [s0] + ins;
      assert s == [s0] + s1;
      InsertByStable(x, s1, key, k);
      FilterMapCons(s0, ins, f);
      FilterMapCons(x, s1, f);
      FilterMapCons(s0, s1, f);
      FilterMapCons(x, s, f);
      if key(x) == k {
        assert f(s0) == None;
      } else {
        assert f(x) == None;
      }
    }
  }

  /** Python's `sorted(s, key=key)`: a stable sort by string key. */
  function SortBy<T>(s: seq<T>, key: T -> string): (r: seq<T>)
    ensures multiset(r) == multiset(s)
  {
    if s == [] then []
    else
      assert s == [s[0]] + s[1..];
      InsertBy(s[0], SortBy(s[1..], key), key)
  }

  lemma {:induction false} SortBySorted<T>(s: seq<T>, key: T -> string)
    ensures SortedBy(SortBy(s, key), key)
  {
    if s != [] {
      SortBySorted(s[1..], key);
      InsertBySorted(s[0], SortBy(s[1..], key), key);
    }
  }

  /** Stability: for every key, the elements with that key keep their input order. */
  lemma {:induction false} SortByStable<T>(s: seq<T>, key: T -> string, k: string)
    ensures FilterMap(SortBy(s, key), KeyIs(key, k)) == FilterMap(s, KeyIs(key, k))
  {
    if s != [] {
      var f := KeyIs(key, k);
      var sorted := SortBy(s[1..], key);
      assert SortBy(s, key) == InsertBy(s[0], sorted, key);
      SortByStable(s[1..], key, k);
      InsertByStable(s[0], sorted, key, k);
      FilterMapCons(s[0], sorted, f);
      FilterMapCons(s[0], s[1..], f);
      assert s == [s[0]] + s[1..];
    }
  }
}
