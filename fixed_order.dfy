/**
 * Non-preemptive execution in a fixed order, the loop shared by fcfs and
 * priorityNonPreemptive: the processes of the sorted array run one after the other, each as
 * soon as it has arrived and the previous one has finished.
 */
module FixedOrder {
  import opened Processes
  import opened Metrics
  import opened Ordering

  /** The clock when position `k` of `order` is reached: 0, or the previous completion time. */
  function FreeAt(ps: seq<Process>, order: seq<nat>, starts: seq<int>, k: nat): int
    requires InRange(order, |ps|) && k <= |order| && k <= |starts|
  {
    if k == 0 then 0 else starts[k - 1] + ps[order[k - 1]].burstTime
  }

  /**
   * The first `k` positions of `order` have run: each started at the later of its arrival and
   * the previous completion, and completed a burst later; the clock is at the last completion.
   */
  ghost predicate RunSoFar(ps: seq<Process>, order: seq<nat>, k: nat, time: int, starts: seq<int>, completion: seq<int>) {
    && |order| == |ps| && InRange(order, |ps|) && k <= |ps|
    && |starts| == k && |completion| == |ps|
    && (forall j :: 0 <= j < k ==> RanAt(ps, order, starts, completion, j))
    && time == FreeAt(ps, order, starts, k)
  }

  /** Position `j` started at the later of its arrival and the previous completion, and ran its burst. */
  ghost predicate RanAt(ps: seq<Process>, order: seq<nat>, starts: seq<int>, completion: seq<int>, j: nat)
    requires InRange(order, |ps|) && j < |order| && j < |starts| && |completion| == |ps|
  {
    && starts[j] == Max(FreeAt(ps, order, starts, j), ps[order[j]].arrivalTime)
    && completion[order[j]] == starts[j] + ps[order[j]].burstTime
  }

  /** The whole of `order` has run. */
  ghost predicate FixedOrderRun(ps: seq<Process>, order: seq<nat>, starts: seq<int>, completion: seq<int>) {
    && |order| == |ps| && InRange(order, |ps|) && |starts| == |ps|
    && RunSoFar(ps, order, |ps|, FreeAt(ps, order, starts, |ps|), starts, completion)
  }

  /**
   * The totals after the first `k` positions of `order`: exactly those processes are marked
   * done, none of them waited a negative time, and `tt`, `tw` are their sums.
   */
  ghost predicate TotalsSoFar(ps: seq<Process>, order: seq<nat>, k: nat, completion: seq<int>, fin: seq<bool>, tt: int, tw: int) {
    && |order| == |ps| && InRange(order, |ps|) && |completion| == |ps| && |fin| == |ps|
    && (forall j :: 0 <= j < |ps| ==> (fin[order[j]] <==> j < k))
    && (forall i :: 0 <= i < |ps| && fin[i] ==> Waiting(ps[i], completion[i]) >= 0)
    && tt == TurnaroundSum(ps, completion, fin, |ps|)
    && tw == WaitingSum(ps, completion, fin, |ps|)
  }

  /** Running position `k`: it starts at `s`, the later of the clock and its arrival. */
  lemma RunAdvance(ps: seq<Process>, order: seq<nat>, k: nat, time: int, starts: seq<int>, completion: seq<int>, s: int)
    requires RunSoFar(ps, order, k, time, starts, completion) && k < |ps| && IsPermutation(order, |ps|)
    requires s == Max(time, ps[order[k]].arrivalTime)
    ensures RunSoFar(ps, order, k + 1, s + ps[order[k]].burstTime, starts + [s], completion[order[k] := s + ps[order[k]].burstTime])
  {
    var p := ps[order[k]];
    var starts', completion' := starts + [s], completion[order[k] := s + p.burstTime];
    PermutationFacts(order, |ps|);
    forall j | 0 <= j <= k
      ensures FreeAt(ps, order, starts', j) == FreeAt(ps, order, starts, if j < k then j else k)
      ensures RanAt(ps, order, starts', completion', j)
    {
      if j < k {
        assert RanAt(ps, order, starts, completion, j);
        assert order[j] != order[k];
      }
    }
  }

  /**
   * Completing position `k`, started at `s` (no earlier than its arrival) and completed at
   * `c = s + burst`, adds its turnaround `c - arrival` and its waiting time `s - arrival` to
   * the totals. The waiting time `c - arrival - burst` is never negative, so the fcfs form of
   * the update, which clamps it at zero, adds the same.
   */
  lemma TotalsAdvance(ps: seq<Process>, order: seq<nat>, k: nat, completion: seq<int>, fin: seq<bool>, tt: int, tw: int, s: int, c: int)
    requires TotalsSoFar(ps, order, k, completion, fin, tt, tw) && k < |ps| && IsPermutation(order, |ps|)
    requires s >= ps[order[k]].arrivalTime && c == s + ps[order[k]].burstTime
    ensures TotalsSoFar(ps, order, k + 1, completion[order[k] := c], fin[order[k] := true],
                        tt + (c - ps[order[k]].arrivalTime), tw + (s - ps[order[k]].arrivalTime))
    ensures TotalsSoFar(ps, order, k + 1, completion[order[k] := c], fin[order[k] := true],
                        tt + (c - ps[order[k]].arrivalTime),
                        tw + (if c - ps[order[k]].arrivalTime - ps[order[k]].burstTime >= 0
                              then c - ps[order[k]].arrivalTime - ps[order[k]].burstTime else 0))
  {
    var i := order[k];
    PermutationFacts(order, |ps|);
    assert !fin[i];
    RecordCompletion(ps, completion, fin, i, c, |ps|);
    forall j | 0 <= j < |ps| ensures fin[i := true][order[j]] <==> j < k + 1 {
      if j != k {
        assert order[j] != order[k];
      }
    }
  }

  /** When every position has run, every process is accounted for in the totals. */
  lemma TotalsComplete(ps: seq<Process>, order: seq<nat>, completion: seq<int>, fin: seq<bool>, tt: int, tw: int)
    requires TotalsSoFar(ps, order, |ps|, completion, fin, tt, tw) && IsPermutation(order, |ps|)
    ensures Accounted(ps, completion, tt, tw)
  {
    PermutationFacts(order, |ps|);
    forall i | 0 <= i < |ps| ensures fin[i] {
      assert i in order;
      var j :| 0 <= j < |order| && order[j] == i;
    }
    assert fin == AllDone(|ps|);
  }
}
