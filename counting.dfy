/**
 * Counting facts behind the equal-share allocator: occurrence counts in a
 * sequence, and sums and tallies of a counter map taken over an enumeration
 * of the wanted plants.
 */
module Counting {

  import opened FarmTypes

  /** Number of occurrences of `x` in `s`. */
  function Count<T(==)>(s: seq<T>, x: T): (n: nat)
    ensures n <= |s|
  {
    if s == [] then 0 else Count(s[..|s| - 1], x) + (if s[|s| - 1] == x then 1 else 0)
  }

  lemma CountAppend<T>(s: seq<T>, y: T, x: T)
    ensures Count(s + [y], x) == Count(s, x) + (if y == x then 1 else 0)
  {
    assert (s + [y])[..|s|] == s;
  }

  /** Counting a prefix one element longer. */
  lemma CountPrefixStep<T>(s: seq<T>, i: nat, x: T)
    requires i < |s|
    ensures Count(s[..i + 1], x) == Count(s[..i], x) + (if s[i] == x then 1 else 0)
  {
    assert s[..i + 1] == s[..i] + [s[i]];
    CountAppend(s[..i], s[i], x);
  }

  /** A prefix has no more occurrences than the whole sequence. */
  lemma {:induction false} CountPrefixLe<T>(s: seq<T>, i: nat, x: T)
    requires i <= |s|
    ensures Count(s[..i], x) <= Count(s, x)
    decreases |s|
  {
    if i < |s| {
      var t := s[..|s| - 1];
      assert t[..i] == s[..i];
      CountPrefixLe(t, i, x);
    } else {
      assert s[..i] == s;
    }
  }

  /** Replacing one element moves one occurrence. */
  lemma {:induction false} CountUpdate<T>(s: seq<T>, k: nat, y: T, x: T)
    requires k < |s|
    ensures Count(s[k := y], x) == Count(s, x) - (if s[k] == x then 1 else 0) + (if y == x then 1 else 0)
    decreases |s|
  {
    var n := |s| - 1;
    if k == n {
      assert s[k := y][..n] == s[..n];
    } else {
      assert s[k := y][..n] == s[..n][k := y];
      CountUpdate(s[..n], k, y, x);
    }
  }

  /** Occurrences of `Some(x)` in a sequence holding `Some(v[k])` everywhere. */
  lemma {:induction false} CountSome(s: seq<Option<int>>, v: seq<int>, x: int)
    requires |s| == |v|
    requires forall k :: 0 <= k < |s| ==> s[k] == Some(v[k])
    ensures Count(s, Some(x)) == Count(v, x)
    decreases |s|
  {
    if s != [] {
      CountSome(s[..|s| - 1], v[..|v| - 1], x);
    }
  }

  /** A value of a counter map, 0 when absent (what `std::map::operator[]` reads). */
  function Get(m: map<int, int>, k: int): int {
    if k in m then m[k] else 0
  }

  predicate Distinct(s: seq<int>) {
    forall i, j :: 0 <= i < j < |s| ==> s[i] != s[j]
  }

  /** `ord` lists each element of `xs` exactly once. */
  ghost predicate Enumerates(ord: seq<int>, xs: set<int>) {
    Distinct(ord) && forall x :: x in ord <==> x in xs
  }

  /** Sum of the counters of the keys listed in `ord`. */
  function SumOver(m: map<int, int>, ord: seq<int>): int {
    if ord == [] then 0 else Get(m, ord[0]) + SumOver(m, ord[1..])
  }

  /** How many keys listed in `ord` have counter `v`. */
  function NumAt(m: map<int, int>, ord: seq<int>, v: int): nat {
    if ord == [] then 0 else (if Get(m, ord[0]) == v then 1 else 0) + NumAt(m, ord[1..], v)
  }

  /** An empty counter map sums to 0 and has no key at a non-zero value. */
  lemma {:induction false} NothingCounted(ord: seq<int>, v: int)
    requires v != 0
    ensures SumOver(map[], ord) == 0 && NumAt(map[], ord, v) == 0
  {
    if ord != [] {
      NothingCounted(ord[1..], v);
    }
  }

  lemma {:induction false} SumOverFrame(m: map<int, int>, ord: seq<int>, x: int, v: int, w: int)
    requires x !in ord
    ensures SumOver(m[x := v], ord) == SumOver(m, ord)
    ensures NumAt(m[x := v], ord, w) == NumAt(m, ord, w)
  {
    if ord != [] {
      SumOverFrame(m, ord[1..], x, v, w);
    }
  }

  /** Setting the counter of a listed key changes the sum and the tally by that key alone. */
  lemma {:induction false} SumOverUpdate(m: map<int, int>, ord: seq<int>, x: int, v: int, w: int)
    requires Distinct(ord) && x in ord
    ensures SumOver(m[x := v], ord) == SumOver(m, ord) - Get(m, x) + v
    ensures NumAt(m[x := v], ord, w) ==
            NumAt(m, ord, w) - (if Get(m, x) == w then 1 else 0) + (if v == w then 1 else 0)
  {
    if ord[0] == x {
      assert x !in ord[1..];
      SumOverFrame(m, ord[1..], x, v, w);
    } else {
      SumOverUpdate(m, ord[1..], x, v, w);
    }
  }

  /**
   * When no counter exceeds `lo + 1`, the sum is at most `lo` per key plus one
   * per key at `lo + 1`, and reaches that bound only if no counter is below `lo`.
   */
  lemma {:induction false} SumUpper(m: map<int, int>, ord: seq<int>, lo: int)
    requires forall x :: x in ord ==> Get(m, x) <= lo + 1
    ensures SumOver(m, ord) <= |ord| * lo + NumAt(m, ord, lo + 1)
    ensures SumOver(m, ord) == |ord| * lo + NumAt(m, ord, lo + 1) ==>
            forall x :: x in ord ==> Get(m, x) >= lo
  {
    if ord != [] {
      SumUpper(m, ord[1..], lo);
      assert |ord| * lo == (|ord| - 1) * lo + lo;
    }
  }

  /** When no counter is below `lo`, the sum is at least `lo` per key plus one per key at `lo + 1`. */
  lemma {:induction false} SumLower(m: map<int, int>, ord: seq<int>, lo: int)
    requires forall x :: x in ord ==> Get(m, x) >= lo
    ensures SumOver(m, ord) >= |ord| * lo + NumAt(m, ord, lo + 1)
  {
    if ord != [] {
      SumLower(m, ord[1..], lo);
      assert |ord| * lo == (|ord| - 1) * lo + lo;
    }
  }

  lemma {:induction false} NumAtAll(m: map<int, int>, ord: seq<int>, v: int)
    requires forall x :: x in ord ==> Get(m, x) == v
    ensures NumAt(m, ord, v) == |ord|
  {
    if ord != [] {
      NumAtAll(m, ord[1..], v);
    }
  }

  /**
   * If every key at `v` in `m1` is at `v` in `m2` as well, and `x0` is at `v`
   * only in `m2`, then `m2` has strictly more keys at `v`.
   */
  lemma {:induction false} NumAtLess(m1: map<int, int>, m2: map<int, int>, ord: seq<int>, v: int, x0: int)
    requires Distinct(ord) && x0 in ord
    requires forall x :: x in ord && Get(m1, x) == v ==> Get(m2, x) == v
    requires Get(m1, x0) != v && Get(m2, x0) == v
    ensures NumAt(m1, ord, v) < NumAt(m2, ord, v)
  {
    if ord[0] == x0 {
      NumAtLe(m1, m2, ord[1..], v);
    } else {
      NumAtLess(m1, m2, ord[1..], v, x0);
    }
  }

  lemma {:induction false} NumAtLe(m1: map<int, int>, m2: map<int, int>, ord: seq<int>, v: int)
    requires forall x :: x in ord && Get(m1, x) == v ==> Get(m2, x) == v
    ensures NumAt(m1, ord, v) <= NumAt(m2, ord, v)
  {
    if ord != [] {
      NumAtLe(m1, m2, ord[1..], v);
    }
  }

  /** The tally over an enumeration is the size of the set of keys it counts. */
  lemma {:induction false} NumAtCard(m: map<int, int>, ord: seq<int>, v: int)
    requires Distinct(ord)
    ensures |set x | x in ord && Get(m, x) == v| == NumAt(m, ord, v)
  {
    if ord != [] {
      var rest := ord[1..];
      NumAtCard(m, rest, v);
      var whole := set x | x in ord && Get(m, x) == v;
      var tail := set x | x in rest && Get(m, x) == v;
      assert ord[0] !in rest;
      var head := if Get(m, ord[0]) == v then {ord[0]} else {};
      forall x
        ensures x in whole <==> x in tail + head
      {
        assert x in ord <==> x == ord[0] || x in rest;
      }
      assert whole == tail + head;
    }
  }

  /** A sequence without repetition has as many elements as its set. */
  lemma {:induction false} DistinctCard(ord: seq<int>)
    requires Distinct(ord)
    ensures |set x | x in ord| == |ord|
  {
    if ord != [] {
      var rest := ord[1..];
      DistinctCard(rest);
      assert ord[0] !in rest;
      assert (set x | x in ord) == (set x | x in rest) + {ord[0]};
    }
  }

  /** A non-empty set of integers has an element. */
  lemma NonEmpty(s: set<int>)
    requires s != {}
    ensures exists x :: x in s
  {
    if forall z :: z !in s {
      assert false;
    }
  }
}
