/**
 * The stable sorts that fcfs and priorityNonPreemptive apply to their input. Sorting is
 * modelled on indices: the order of the sorted array is a permutation of `0 .. n-1`.
 */
module Ordering {
  import opened Processes

  /** The comparators handed to `Array.prototype.sort`. */
  datatype SortKey =
    | ByArrival              // (a, b) => a.arrivalTime - b.arrivalTime
    | ByArrivalThenPriority  // (a, b) => a.arrivalTime - b.arrivalTime || a.priority - b.priority

  /**
   * Process `i` ends up before process `j`: the comparator says so, or it calls them equal and
   * the sort, being stable, keeps their input order.
   */
  predicate Before(ps: seq<Process>, key: SortKey, i: nat, j: nat)
    requires i < |ps| && j < |ps|
  {
    var a, b := ps[i], ps[j];
    || a.arrivalTime < b.arrivalTime
    || (&& a.arrivalTime == b.arrivalTime
        && if key == ByArrivalThenPriority && a.priority != b.priority then a.priority < b.priority else i < j)
  }

  predicate InRange(order: seq<nat>, n: nat) {
    forall k :: 0 <= k < |order| ==> order[k] < n
  }

  /** `order` lists each of `0 .. n-1` exactly once. */
  ghost predicate IsPermutation(order: seq<nat>, n: nat) {
    multiset(order) == multiset(Range(0, n))
  }

  /** Every earlier entry of `order` comes before every later one. */
  ghost predicate Ordered(ps: seq<Process>, key: SortKey, order: seq<nat>)
    requires InRange(order, |ps|)
  {
    forall j, k :: 0 <= j < k < |order| ==> Before(ps, key, order[j], order[k])
  }

  /** A permutation lists the indices in range, each once. */
  lemma PermutationFacts(order: seq<nat>, n: nat)
    requires IsPermutation(order, n)
    ensures |order| == n && InRange(order, n)
    ensures forall i :: 0 <= i < n ==> i in order
    ensures forall j, k :: 0 <= j < k < |order| ==> order[j] != order[k]
  {
    RangeMultiset(0, n);
    assert |order| == |multiset(order)| == |multiset(Range(0, n))| == n;
    forall k | 0 <= k < |order| ensures order[k] < n {
      assert order[k] in multiset(order);
    }
    forall i | 0 <= i < n ensures i in order {
      assert i in multiset(Range(0, n));
    }
    forall j, k | 0 <= j < k < |order| ensures order[j] != order[k] {
      var x := order[j];
      assert multiset(order)[x] == 1;
      assert order == order[..k] + order[k..];
      assert x in multiset(order[..k]) && order[k] in multiset(order[k..]);
    }
  }

  /** Insertion of one index into an ordered list of indices. */
  function Insert(ps: seq<Process>, key: SortKey, x: nat, s: seq<nat>): (r: seq<nat>)
    requires x < |ps| && InRange(s, |ps|)
    ensures |r| == |s| + 1 && InRange(r, |ps|)
  {
    if s == [] then [x]
    else if Before(ps, key, x, s[0]) then [x] + s
    else [s[0]] + Insert(ps, key, x, s[1..])
  }

  /** Insertion adds `x` and keeps every entry of `s`, and nothing else. */
  lemma {:induction false} InsertMembers(ps: seq<Process>, key: SortKey, x: nat, s: seq<nat>)
    requires x < |ps| && InRange(s, |ps|)
    ensures forall v :: v in Insert(ps, key, x, s) <==> v == x || v in s
  {
    if s != [] && !Before(ps, key, x, s[0]) {
      InsertMembers(ps, key, x, s[1..]);
      assert s == [s[0]] + s[1..];
    }
  }

  /** Insertion adds exactly one occurrence of `x`. */
  lemma {:induction false} InsertMultiset(ps: seq<Process>, key: SortKey, x: nat, s: seq<nat>)
    requires x < |ps| && InRange(s, |ps|)
    ensures multiset(Insert(ps, key, x, s)) == multiset(s) + multiset{x}
  {
    if s != [] && !Before(ps, key, x, s[0]) {
      InsertMultiset(ps, key, x, s[1..]);
      assert s == [s[0]] + s[1..];
    }
  }

  /** Dropping the first entry keeps a list ordered. */
  lemma OrderedTail(ps: seq<Process>, key: SortKey, s: seq<nat>)
    requires InRange(s, |ps|) && s != [] && Ordered(ps, key, s)
    ensures InRange(s[1..], |ps|) && Ordered(ps, key, s[1..])
  {
    forall j, k | 0 <= j < k < |s[1..]| ensures Before(ps, key, s[1..][j], s[1..][k]) {
      assert s[1..][j] == s[j + 1] && s[1..][k] == s[k + 1];
    }
  }

  /**
   * An entry that comes before every entry of `s` and before `x` comes before every entry of
   * `x` inserted into `s`.
   */
  lemma BeforeInsert(ps: seq<Process>, key: SortKey, y: nat, x: nat, s: seq<nat>)
    requires x < |ps| && y < |ps| && InRange(s, |ps|)
    requires Before(ps, key, y, x) && forall k :: 0 <= k < |s| ==> Before(ps, key, y, s[k])
    ensures forall k :: 0 <= k < |Insert(ps, key, x, s)| ==> Before(ps, key, y, Insert(ps, key, x, s)[k])
  {
    var t := Insert(ps, key, x, s);
    InsertMembers(ps, key, x, s);
    forall k | 0 <= k < |t| ensures Before(ps, key, y, t[k]) {
      assert t[k] in t;
      if t[k] != x {
        var m :| 0 <= m < |s| && s[m] == t[k];
      }
    }
  }

  lemma {:induction false} InsertOrdered(ps: seq<Process>, key: SortKey, x: nat, s: seq<nat>)
    requires x < |ps| && InRange(s, |ps|) && x !in s && Ordered(ps, key, s)
    ensures Ordered(ps, key, Insert(ps, key, x, s))
  {
    if s != [] && !Before(ps, key, x, s[0]) {
      var t := Insert(ps, key, x, s[1..]);
      assert x !in s[1..];
      OrderedTail(ps, key, s);
      InsertOrdered(ps, key, x, s[1..]);
      assert Before(ps, key, s[0], x) by {
        assert x != s[0];
      }
      BeforeInsert(ps, key, s[0], x, s[1..]);
      var r := [s[0]] + t;
      forall j, k | 0 <= j < k < |r| ensures Before(ps, key, r[j], r[k]) {
        if j > 0 {
          assert r[j] == t[j - 1] && r[k] == t[k - 1];
        } else {
          assert r[k] == t[k - 1];
        }
      }
    }
  }

  /** The indices `0 .. m-1`, stably sorted. */
  function SortPrefix(ps: seq<Process>, key: SortKey, m: nat): (r: seq<nat>)
    requires m <= |ps|
    ensures |r| == m && InRange(r, |ps|)
  {
    if m == 0 then [] else Insert(ps, key, m - 1, SortPrefix(ps, key, m - 1))
  }

  /** What `processes.sort(comparator)` leaves in the array, as indices into the input. */
  function SortIndices(ps: seq<Process>, key: SortKey): seq<nat> {
    SortPrefix(ps, key, |ps|)
  }

  /** The sorted prefix holds exactly the indices below `m`. */
  lemma {:induction false} SortPrefixMembers(ps: seq<Process>, key: SortKey, m: nat)
    requires m <= |ps|
    ensures forall v: nat :: v in SortPrefix(ps, key, m) <==> v < m
  {
    if m > 0 {
      var s := SortPrefix(ps, key, m - 1);
      SortPrefixMembers(ps, key, m - 1);
      InsertMembers(ps, key, m - 1, s);
      assert SortPrefix(ps, key, m) == Insert(ps, key, m - 1, s);
    }
  }

  /** The sorted prefix holds each index below `m` exactly once. */
  lemma {:induction false} SortPrefixMultiset(ps: seq<Process>, key: SortKey, m: nat)
    requires m <= |ps|
    ensures multiset(SortPrefix(ps, key, m)) == multiset(Range(0, m))
  {
    if m > 0 {
      var x: nat := m - 1;
      var s := SortPrefix(ps, key, x);
      SortPrefixMultiset(ps, key, x);
      InsertMultiset(ps, key, x, s);
      assert Range(0, m) == Range(0, x) + [x];
      calc {
        multiset(SortPrefix(ps, key, m));
        multiset(Insert(ps, key, x, s));
        multiset(s) + multiset{x};
        multiset(Range(0, x)) + multiset{x};
        multiset(Range(0, x) + [x]);
      }
    }
  }

  lemma {:induction false} SortPrefixOrdered(ps: seq<Process>, key: SortKey, m: nat)
    requires m <= |ps|
    ensures Ordered(ps, key, SortPrefix(ps, key, m))
  {
    if m > 0 {
      var s := SortPrefix(ps, key, m - 1);
      SortPrefixOrdered(ps, key, m - 1);
      SortPrefixMembers(ps, key, m - 1);
      InsertOrdered(ps, key, m - 1, s);
    }
  }

  /**
   * The sort is a stable sort: its result is a permutation of the input in which every
   * process comes before the later ones under the comparator, equal ones in input order.
   */
  lemma SortIndicesCorrect(ps: seq<Process>, key: SortKey)
    ensures IsPermutation(SortIndices(ps, key), |ps|)
    ensures InRange(SortIndices(ps, key), |ps|) && Ordered(ps, key, SortIndices(ps, key))
  {
    SortPrefixMultiset(ps, key, |ps|);
    SortPrefixOrdered(ps, key, |ps|);
  }

  /**
   * `processes.sort(comparator)`: the order in which the sorted array lists the input, a
   * permutation in which each process comes before the later ones under the comparator, and
   * processes the comparator calls equal keep their input order.
   */
  method StableSort(ps: seq<Process>, key: SortKey) returns (order: seq<nat>)
    ensures IsPermutation(order, |ps|) && InRange(order, |ps|) && Ordered(ps, key, order)
    ensures |order| == |ps|
    ensures forall j, k :: 0 <= j < k < |order| ==> order[j] != order[k]
    ensures forall i :: 0 <= i < |ps| ==> i in order
  {
    order := SortIndices(ps, key);
    SortIndicesCorrect(ps, key);
    PermutationFacts(order, |ps|);
  }
}
