/** The two orders the emitter sorts arrays in: `sortByLength`, which calls
    `arr.sort(function(a, b) { return a.length - b.length; })`, and the
    comparator-less `arr.sort()`, which orders strings character by character.
    Array.prototype.sort is stable from ECMAScript 2019 on, and both are
    modelled as stable insertion sorts, specified by what they promise:
    sorted, a permutation, and (for the length order, where ties are
    possible) ties kept in input order. */
module Sorting {

  // ---------------------------------------------------------------------
  // sortByLength

  predicate SortedByLength(s: seq<string>)
  {
    forall i, j | 0 <= i < j < |s| :: |s[i]| <= |s[j]|
  }

  /** The elements of length `n`, in their order in `s`. */
  function OfLength(s: seq<string>, n: nat): seq<string>
  {
    if s == [] then []
    else if |s[0]| == n then [s[0]] + OfLength(s[1..], n)
    else OfLength(s[1..], n)
  }

  /** Puts `x` before the first element at least as long as it. */
  function InsertByLength(x: string, s: seq<string>): (r: seq<string>)
    ensures multiset(r) == multiset(s) + multiset{x}
  {
    if s == [] then [x]
    else if |x| <= |s[0]| then [x] + s
    else
      assert s == [s[0]] + s[1..];
      [s[0]] + InsertByLength(x, s[1..])
  }

  lemma {:induction false} InsertByLengthSorted(x: string, s: seq<string>)
    requires SortedByLength(s)
    ensures SortedByLength(InsertByLength(x, s))
  {
    if s != [] && |x| > |s[0]| {
      var tail := s[1..];
      var rest := InsertByLength(x, tail);
      InsertByLengthSorted(x, tail);
      if tail != [] && |x| > |tail[0]| {
        assert rest[0] == tail[0] == s[1];
      } else {
        assert rest[0] == x;
      }
      ConsSorted(s[0], rest);
    }
  }

  /** An element no longer than the head of a sorted sequence can go in front. */
  lemma ConsSorted(a: string, rest: seq<string>)
    requires SortedByLength(rest) && (rest != [] ==> |a| <= |rest[0]|)
    ensures SortedByLength([a] + rest)
  {
    var r := [a] + rest;
    forall i, j | 0 <= i < j < |r|
      ensures |r[i]| <= |r[j]|
    {
      assert r[j] == rest[j - 1];
      if i > 0 {
        assert r[i] == rest[i - 1];
      } else if j > 1 {
        assert |rest[0]| <= |rest[j - 1]|;
      }
    }
  }

  lemma {:induction false} OfLengthCons(x: string, s: seq<string>, n: nat)
    ensures OfLength([x] + s, n) == if |x| == n then [x] + OfLength(s, n) else OfLength(s, n)
  {
    assert ([x] + s)[0] == x && ([x] + s)[1..] == s;
  }

  /** Inserting keeps the elements of every length in their order: the
      inserted element is the first of its length. */
  lemma {:induction false} InsertByLengthStable(x: string, s: seq<string>, n: nat)
    ensures OfLength(InsertByLength(x, s), n) == if |x| == n then [x] + OfLength(s, n) else OfLength(s, n)
  {
    if s == [] {
      OfLengthCons(x, s, n);
    } else if |x| <= |s[0]| {
      OfLengthCons(x, s, n);
    } else {
      InsertByLengthStable(x, s[1..], n);
      OfLengthCons(s[0], InsertByLength(x, s[1..]), n);
      OfLengthCons(s[0], s[1..], n);
      assert s == [s[0]] + s[1..];
    }
  }

  function SortByLength(s: seq<string>): (r: seq<string>)
    ensures SortedByLength(r)
    ensures multiset(r) == multiset(s)
    ensures forall n: nat :: OfLength(r, n) == OfLength(s, n)
  {
    if s == [] then []
    else
      var rest := SortByLength(s[1..]);
      InsertByLengthSorted(s[0], rest);
      assert s == [s[0]] + s[1..];
      assert forall n: nat :: OfLength(InsertByLength(s[0], rest), n) == OfLength(s, n) by {
        forall n: nat
          ensures OfLength(InsertByLength(s[0], rest), n) == OfLength(s, n)
        {
          InsertByLengthStable(s[0], rest, n);
          OfLengthCons(s[0], s[1..], n);
        }
      }
      InsertByLength(s[0], rest)
  }

  // ---------------------------------------------------------------------
  // The default sort: strings compared character by character.

  /** `a <= b` in the order `arr.sort()` uses for strings. */
  predicate CharOrderLeq(a: string, b: string)
  {
    if a == [] then true
    else if b == [] then false
    else if a[0] != b[0] then a[0] < b[0]
    else CharOrderLeq(a[1..], b[1..])
  }

  lemma {:induction false} CharOrderTotal(a: string, b: string)
    ensures CharOrderLeq(a, b) || CharOrderLeq(b, a)
  {
    if a != [] && b != [] && a[0] == b[0] {
      CharOrderTotal(a[1..], b[1..]);
    }
  }

  lemma {:induction false} CharOrderTransitive(a: string, b: string, c: string)
    requires CharOrderLeq(a, b) && CharOrderLeq(b, c)
    ensures CharOrderLeq(a, c)
  {
    if a != [] && b != [] && c != [] && a[0] == b[0] && b[0] == c[0] {
      CharOrderTransitive(a[1..], b[1..], c[1..]);
    }
  }

  predicate SortedByChars(s: seq<string>)
  {
    forall i | 0 <= i < |s| - 1 :: CharOrderLeq(s[i], s[i + 1])
  }

  function InsertByChars(x: string, s: seq<string>): (r: seq<string>)
    ensures |r| == |s| + 1
    ensures r[0] == x || (s != [] && r[0] == s[0])
    ensures multiset(r) == multiset(s) + multiset{x}
    ensures SortedByChars(s) ==> SortedByChars(r)
  {
    if s == [] then [x]
    else if CharOrderLeq(x, s[0]) then
      ConsSortedByChars(x, s);
      [x] + s
    else
      CharOrderTotal(x, s[0]);
      var rest := InsertByChars(x, s[1..]);
      assert s == [s[0]] + s[1..];
      SortedByCharsTail(s);
      ConsSortedByChars(s[0], rest);
      [s[0]] + rest
  }

  lemma SortedByCharsTail(s: seq<string>)
    requires s != []
    ensures SortedByChars(s) ==> SortedByChars(s[1..]) && (|s| > 1 ==> CharOrderLeq(s[0], s[1]))
  {
    if SortedByChars(s) {
      forall i | 0 <= i < |s| - 2
        ensures CharOrderLeq(s[1..][i], s[1..][i + 1])
      {
        assert s[1..][i] == s[i + 1] && s[1..][i + 1] == s[i + 2];
      }
    }
  }

  /** A string ordered before the head of a sorted list can go in front. */
  lemma ConsSortedByChars(a: string, rest: seq<string>)
    ensures SortedByChars(rest) && (rest != [] ==> CharOrderLeq(a, rest[0])) ==> SortedByChars([a] + rest)
  {
    var r := [a] + rest;
    if SortedByChars(rest) && (rest != [] ==> CharOrderLeq(a, rest[0])) {
      forall i | 0 <= i < |r| - 1
        ensures CharOrderLeq(r[i], r[i + 1])
      {
        if i > 0 {
          assert r[i] == rest[i - 1] && r[i + 1] == rest[i];
        }
      }
    }
  }

  /** `arr.sort()` on an array of strings. */
  function SortByChars(s: seq<string>): (r: seq<string>)
    ensures SortedByChars(r)
    ensures multiset(r) == multiset(s)
  {
    if s == [] then []
    else
      assert s == [s[0]] + s[1..];
      InsertByChars(s[0], SortByChars(s[1..]))
  }

  /** A list sorted neighbour by neighbour is sorted pairwise. */
  lemma {:induction false} SortedByCharsPairwise(s: seq<string>, i: nat, j: nat)
    requires SortedByChars(s) && i <= j < |s|
    ensures CharOrderLeq(s[i], s[j])
    decreases j - i
  {
    if i == j {
      CharOrderReflexive(s[i]);
    } else {
      SortedByCharsPairwise(s, i + 1, j);
      CharOrderTransitive(s[i], s[i + 1], s[j]);
    }
  }

  lemma {:induction false} CharOrderReflexive(a: string)
    ensures CharOrderLeq(a, a)
  {
    if a != [] {
      CharOrderReflexive(a[1..]);
    }
  }
}
