/**
 Ordering of wallet addresses and sorting by address.

 Participant lists are sorted by wallet address before any draw, so that every
 implementation scans them in the same order. Addresses are compared the way
 Python compares `str` values: lexicographically by code point, a proper prefix
 being smaller.
 */
module Sorting {

  /**
   Strict lexicographic order on strings, character by character, as Python
   orders `str` values; a proper prefix comes first.
   */
  predicate Less(a: string, b: string): (r: bool)
    ensures |a| < |b| && a == b[..|a|] ==> r
    decreases |a|
  {
    if |a| == 0 then |b| > 0
    else if |b| == 0 then false
    else if a[0] != b[0] then a[0] < b[0]
    else Less(a[1..], b[1..])
  }

  lemma {:induction false} LessIrreflexive(a: string)
    ensures !Less(a, a)
    decreases |a|
  {
    if |a| > 0 {
      LessIrreflexive(a[1..]);
    }
  }

  lemma {:induction false} LessAsymmetric(a: string, b: string)
    requires Less(a, b)
    ensures !Less(b, a)
    decreases |a|
  {
    if |a| > 0 && |b| > 0 && a[0] == b[0] {
      LessAsymmetric(a[1..], b[1..]);
    }
  }

  lemma {:induction false} LessTransitive(a: string, b: string, c: string)
    requires Less(a, b) && Less(b, c)
    ensures Less(a, c)
    decreases |a|
  {
    if |a| > 0 && |b| > 0 && |c| > 0 && a[0] == b[0] && b[0] == c[0] {
      LessTransitive(a[1..], b[1..], c[1..]);
    }
  }

  /** Any two different addresses are ordered one way or the other, so sorting by address is deterministic. */
  lemma {:induction false} LessTotal(a: string, b: string)
    requires a != b
    ensures Less(a, b) || Less(b, a)
    decreases |a|
  {
    if |a| > 0 && |b| > 0 && a[0] == b[0] {
      assert a == [a[0]] + a[1..] && b == [b[0]] + b[1..];
      LessTotal(a[1..], b[1..]);
    }
  }

  /** The identity key, for sorting addresses themselves. */
  function Id(w: string): string { w }

  /** `s` is strictly ascending by `key`. */
  ghost predicate SortedBy<T>(s: seq<T>, key: T -> string) {
    forall i, j :: 0 <= i < j < |s| ==> Less(key(s[i]), key(s[j]))
  }

  /** No two elements of `s` share a key. */
  ghost predicate DistinctBy<T>(s: seq<T>, key: T -> string) {
    forall i, j :: 0 <= i < j < |s| ==> key(s[i]) != key(s[j])
  }

  lemma SortedIsDistinct<T>(s: seq<T>, key: T -> string)
    requires SortedBy(s, key)
    ensures DistinctBy(s, key)
  {
    forall i, j | 0 <= i < j < |s|
      ensures key(s[i]) != key(s[j])
    {
      LessIrreflexive(key(s[i]));
    }
  }

  /**
   Two strictly sorted sequences with the same elements are equal: a sorted
   listing of a set does not depend on the order the set was enumerated in.
   */
  lemma {:induction false} SortedUnique<T>(a: seq<T>, b: seq<T>, key: T -> string)
    requires SortedBy(a, key) && SortedBy(b, key)
    requires forall x :: x in a <==> x in b
    ensures a == b
    decreases |a|
  {
    if |a| > 0 {
      assert a[0] in a;
    }
    if |b| > 0 {
      assert b[0] in b;
    }
    if |a| > 0 && |b| > 0 {
      assert a[0] in b;
      var j :| 0 <= j < |b| && b[j] == a[0];
      assert b[0] in a;
      var i :| 0 <= i < |a| && a[i] == b[0];
      if j != 0 && i != 0 {
        assert Less(key(b[0]), key(a[0]));
        assert Less(key(a[0]), key(b[0]));
        LessAsymmetric(key(a[0]), key(b[0]));
        assert false;
      }
      assert a[0] == b[0];
      forall x
        ensures x in a[1..] <==> x in b[1..]
      {
        if x in a[1..] {
          var k :| 1 <= k < |a| && a[k] == x;
          if x == b[0] {
            assert Less(key(a[0]), key(a[k]));
            LessIrreflexive(key(x));
            assert false;
          }
          assert x in b;
          assert b == [b[0]] + b[1..];
        }
        if x in b[1..] {
          var k :| 1 <= k < |b| && b[k] == x;
          if x == a[0] {
            assert Less(key(b[0]), key(b[k]));
            LessIrreflexive(key(x));
            assert false;
          }
          assert x in a;
          assert a == [a[0]] + a[1..];
        }
      }
      SortedUnique(a[1..], b[1..], key);
      assert a == [a[0]] + a[1..] && b == [b[0]] + b[1..];
    }
  }

  /**
   Stable insertion of `x`: it goes before the first element whose key is
   larger, so after every element with an equal key.
   */
  function InsertBy<T(!new)>(s: seq<T>, x: T, key: T -> string): (r: seq<T>)
    ensures |r| == |s| + 1
    ensures forall y :: y in r <==> y in s || y == x
    ensures multiset(r) == multiset(s) + multiset{x}
    decreases |s|
  {
    if |s| == 0 then [x]
    else if Less(key(x), key(s[0])) then [x] + s
    else
      assert s == [s[0]] + s[1..];
      [s[0]] + InsertBy(s[1..], x, key)
  }

  /** Stable sorting by key, as Python's `sorted` with a key function; here by insertion. */
  function SortBy<T(!new)>(s: seq<T>, key: T -> string): (r: seq<T>)
    ensures |r| == |s|
    ensures forall y :: y in r <==> y in s
    ensures multiset(r) == multiset(s)
    decreases |s|
  {
    if |s| == 0 then []
    else
      assert s == s[..|s| - 1] + [s[|s| - 1]];
      InsertBy(SortBy(s[..|s| - 1], key), s[|s| - 1], key)
  }

  lemma {:induction false} InsertBySorted<T(!new)>(s: seq<T>, x: T, key: T -> string)
    requires SortedBy(s, key)
    requires forall y :: y in s ==> key(y) != key(x)
    ensures SortedBy(InsertBy(s, x, key), key)
    decreases |s|
  {
    if |s| == 0 {
    } else if Less(key(x), key(s[0])) {
      forall j | 0 < j < |s|
        ensures Less(key(x), key(s[j]))
      {
        LessTransitive(key(x), key(s[0]), key(s[j]));
      }
    } else {
      assert s[0] in s;
      LessTotal(key(x), key(s[0]));
      InsertBySorted(s[1..], x, key);
      var r := InsertBy(s[1..], x, key);
      forall j | 0 <= j < |r|
        ensures Less(key(s[0]), key(r[j]))
      {
        assert r[j] in r;
        if r[j] != x {
          var k :| 0 <= k < |s[1..]| && s[1..][k] == r[j];
          assert s[k + 1] == r[j];
        }
      }
      assert InsertBy(s, x, key) == [s[0]] + r;
    }
  }

  /** Sorting a sequence whose keys are distinct yields a strictly ascending sequence. */
  lemma {:induction false} SortBySorted<T(!new)>(s: seq<T>, key: T -> string)
    requires DistinctBy(s, key)
    ensures SortedBy(SortBy(s, key), key)
    decreases |s|
  {
    if |s| > 0 {
      var init := s[..|s| - 1];
      var last := s[|s| - 1];
      SortBySorted(init, key);
      forall y | y in SortBy(init, key)
        ensures key(y) != key(last)
      {
        var k :| 0 <= k < |init| && init[k] == y;
        assert s[k] == y;
      }
      InsertBySorted(SortBy(init, key), last, key);
    }
  }
}
