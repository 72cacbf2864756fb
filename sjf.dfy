/**
 * Non-preemptive shortest job first: whenever the processor is free, run to completion the
 * arrived, unfinished process of smallest burst (ties to the lowest index); when none has
 * arrived, let the clock tick once and look again.
 */
module Sjf {
  import opened Processes
  import opened Metrics
  import opened Ordering
  import opened FixedOrder
  import opened Selection

  /** The completion flags of a dispatch log: exactly the processes listed in `order` are done. */
  function Marked(order: seq<nat>, n: nat): (r: seq<bool>)
    ensures |r| == n && forall i :: 0 <= i < n ==> (r[i] <==> i in order)
  {
    seq(n, i => i in order)
  }

  /** Dispatching one more process sets its flag and no other. */
  lemma MarkedSnoc(order: seq<nat>, x: nat, n: nat)
    requires x < n
    ensures Marked(order + [x], n) == Marked(order, n)[x := true]
  {
    forall i | 0 <= i < n ensures Marked(order + [x], n)[i] == Marked(order, n)[x := true][i] {
      assert i in order + [x] <==> i in order || i == x;
    }
  }

  /** The chart of a dispatch log: `P{id}` for each dispatch, in order. */
  function RunLabels(ps: seq<Process>, order: seq<nat>): (r: seq<Entry>)
    requires InRange(order, |ps|)
    ensures |r| == |order| && forall k :: 0 <= k < |order| ==> r[k] == Run(ps[order[k]].id)
  {
    seq(|order|, k requires 0 <= k < |order| => Run(ps[order[k]].id))
  }

  /** One more dispatch pushes one more label. */
  lemma RunLabelsSnoc(ps: seq<Process>, order: seq<nat>, x: nat)
    requires InRange(order, |ps|) && x < |ps|
    ensures InRange(order + [x], |ps|)
    ensures RunLabels(ps, order + [x]) == RunLabels(ps, order) + [Run(ps[x].id)]
  {
  }

  /**
   * Dispatch `k` of the log follows the sjf rule: the processor became free at
   * `FreeAt(k)`, nothing was eligible from then until `starts[k]` (the clock only ticked),
   * and at `starts[k]` the scan chose `order[k]` among the processes not dispatched before.
   */
  ghost predicate Dispatched(ps: seq<Process>, order: seq<nat>, starts: seq<int>, k: nat)
    requires InRange(order, |ps|) && k < |order| && k < |starts|
  {
    var done := Marked(order[..k], |ps|);
    && FreeAt(ps, order, starts, k) <= starts[k]
    && (forall t :: FreeAt(ps, order, starts, k) <= t < starts[k] ==> IsChoice(ps, Bursts(ps), done, t, -1))
    && IsChoice(ps, Bursts(ps), done, starts[k], order[k])
  }

  /** The first `m` dispatches follow the rule, and each ran its whole burst from its start. */
  ghost predicate SjfSoFar(ps: seq<Process>, order: seq<nat>, starts: seq<int>, completion: seq<int>, m: nat) {
    && |order| == m && |starts| == m && InRange(order, |ps|) && |completion| == |ps|
    && forall k :: 0 <= k < m ==> DispatchedRun(ps, order, starts, completion, k)
  }

  /** Dispatch `k` follows the rule and ran its whole burst from its start. */
  ghost predicate DispatchedRun(ps: seq<Process>, order: seq<nat>, starts: seq<int>, completion: seq<int>, k: nat)
    requires InRange(order, |ps|) && k < |order| && k < |starts| && |completion| == |ps|
  {
    && Dispatched(ps, order, starts, k)
    && completion[order[k]] == starts[k] + ps[order[k]].burstTime
  }

  /**
   * The state between two scans: the log of the dispatches so far follows the rule, the clock
   * has only ticked over idle instants since the processor became free, and `tt`, `tw` sum
   * the turnaround and waiting times of the dispatched processes.
   */
  ghost predicate SjfState(ps: seq<Process>, order: seq<nat>, starts: seq<int>, completion: seq<int>, time: int, tt: int, tw: int) {
    && SjfSoFar(ps, order, starts, completion, |order|)
    && FreeAt(ps, order, starts, |order|) <= time
    && (forall t :: FreeAt(ps, order, starts, |order|) <= t < time ==> IsChoice(ps, Bursts(ps), Marked(order, |ps|), t, -1))
    && tt == TurnaroundSum(ps, completion, Marked(order, |ps|), |ps|)
    && tw == WaitingSum(ps, completion, Marked(order, |ps|), |ps|)
  }

  /** A scan that finds nothing lets the clock tick once more over an idle instant. */
  lemma IdleAdvance(ps: seq<Process>, order: seq<nat>, starts: seq<int>, completion: seq<int>, time: int, tt: int, tw: int)
    requires SjfState(ps, order, starts, completion, time, tt, tw)
    requires IsChoice(ps, Bursts(ps), Marked(order, |ps|), time, -1)
    ensures SjfState(ps, order, starts, completion, time + 1, tt, tw)
  {
  }

  /**
   * The scan chose `x` at `s`: the log grows by that dispatch, which completes at `c`, the
   * clock moves to `c`, and the totals grow by its turnaround `c - arrival` and its waiting
   * time `c - arrival - burst`; every earlier dispatch stays as it was.
   */
  lemma DispatchAdvance(ps: seq<Process>, order: seq<nat>, starts: seq<int>, completion: seq<int>, tt: int, tw: int, s: int, x: nat, c: int)
    requires SjfState(ps, order, starts, completion, s, tt, tw)
    requires IsChoice(ps, Bursts(ps), Marked(order, |ps|), s, x) && c == s + ps[x].burstTime
    ensures SjfState(ps, order + [x], starts + [s], completion[x := c], c,
                     tt + (c - ps[x].arrivalTime), tw + (c - ps[x].arrivalTime - ps[x].burstTime))
  {
    var m := |order|;
    var order', starts', completion' := order + [x], starts + [s], completion[x := c];
    assert x !in order;
    forall k | 0 <= k < m ensures DispatchedRun(ps, order', starts', completion', k) {
      assert DispatchedRun(ps, order, starts, completion, k);
      assert order'[..k] == order[..k];
      assert FreeAt(ps, order', starts', k) == FreeAt(ps, order, starts, k);
      assert order[k] in order;
    }
    assert order'[..m] == order;
    assert FreeAt(ps, order', starts', m) == FreeAt(ps, order, starts, m);
    assert DispatchedRun(ps, order', starts', completion', m);
    MarkedSnoc(order, x, |ps|);
    RecordCompletion(ps, completion, Marked(order, |ps|), x, c, |ps|);
  }

  /** The scan never picks a dispatched process again: every process runs at most once. */
  lemma DispatchedOnce(ps: seq<Process>, order: seq<nat>, starts: seq<int>, completion: seq<int>, m: nat)
    requires SjfSoFar(ps, order, starts, completion, m)
    ensures forall j, k :: 0 <= j < k < m ==> order[j] != order[k]
  {
    forall j, k | 0 <= j < k < m ensures order[j] != order[k] {
      assert DispatchedRun(ps, order, starts, completion, k);
      assert order[..k][j] == order[j];
    }
  }

  /**
   * Once every process has been dispatched, the totals are those of the log: each process
   * completed a burst after a start at which it had arrived, so none waited a negative time.
   */
  lemma SjfAccounted(ps: seq<Process>, order: seq<nat>, starts: seq<int>, completion: seq<int>, tt: int, tw: int)
    requires SjfSoFar(ps, order, starts, completion, |order|)
    requires forall i :: 0 <= i < |ps| ==> i in order
    requires tt == TurnaroundSum(ps, completion, Marked(order, |ps|), |ps|)
    requires tw == WaitingSum(ps, completion, Marked(order, |ps|), |ps|)
    ensures Accounted(ps, completion, tt, tw)
  {
    assert Marked(order, |ps|) == AllDone(|ps|);
    forall k | 0 <= k < |order| ensures Waiting(ps[order[k]], completion[order[k]]) >= 0 {
      assert DispatchedRun(ps, order, starts, completion, k);
    }
    forall i | 0 <= i < |ps| ensures Waiting(ps[i], completion[i]) >= 0 {
      assert i in order;
      var k :| 0 <= k < |order| && order[k] == i;
    }
  }

  /**
   * sjf: the processes run one at a time to completion, in the order the sjf rule dictates
   * (`Dispatched` for every entry of the log); every process runs exactly once; the chart
   * holds `P{id}` for each dispatch in order, with no gap labels; the totals are those of that
   * execution.
   */
  method Sjf(ps: seq<Process>)
    returns (chart: seq<Entry>, tt: int, tw: int, ghost order: seq<nat>, ghost starts: seq<int>, ghost completion: seq<int>)
    ensures SjfSoFar(ps, order, starts, completion, |ps|)
    ensures forall i :: 0 <= i < |ps| ==> i in order
    ensures forall j, k :: 0 <= j < k < |ps| ==> order[j] != order[k]
    ensures chart == RunLabels(ps, order)
    ensures Accounted(ps, completion, tt, tw)
    ensures |chart| == |ps|
    ensures tw == tt - TotalBurst(ps) && tw >= 0
  {
    var n := |ps|;
    var time := 0;
    chart, tt, tw := [], 0, 0;
    var completedProcesses := 0;
    var isCompleted := new bool[n](_ => false);
    order, starts := [], [];
    completion := seq(n, _ => 0);
    NoneDoneSums(ps, completion, n);
    assert Marked([], n) == NoneDone(n);
    CountTrueNone(isCompleted[..]);
    while completedProcesses < n
      invariant isCompleted.Length == n
      invariant SjfState(ps, order, starts, completion, time, tt, tw)
      invariant isCompleted[..] == Marked(order, n) && completedProcesses == CountTrue(isCompleted[..])
      invariant completedProcesses == |order| && chart == RunLabels(ps, order)
      decreases n - completedProcesses, LatestArrival(ps) - time
    {
      var idx := SelectMin(ps, Bursts(ps), isCompleted[..], time);
      if idx != -1 {
        ghost var order0, starts0, completion0, tt0, tw0, done0 := order, starts, completion, tt, tw, isCompleted[..];
        ghost var start := time;
        chart := chart + [Run(ps[idx].id)];
        time := time + ps[idx].burstTime;
        var turnaroundTime := time - ps[idx].arrivalTime;
        var waitingTime := turnaroundTime - ps[idx].burstTime;
        tt := tt + turnaroundTime;
        tw := tw + waitingTime;
        isCompleted[idx] := true;
        completedProcesses := completedProcesses + 1;
        order, starts, completion := order + [idx], starts + [start], completion[idx := time];
        DispatchAdvance(ps, order0, starts0, completion0, tt0, tw0, start, idx, time);
        RunLabelsSnoc(ps, order0, idx);
        MarkedSnoc(order0, idx, n);
        assert isCompleted[..] == done0[idx := true];
        CountTrueSet(done0, idx);
      } else {
        IdleBeforeLatestArrival(ps, Bursts(ps), isCompleted[..], time);
        IdleAdvance(ps, order, starts, completion, time, tt, tw);
        time := time + 1;
      }
    }
    CountTrueFull(isCompleted[..]);
    DispatchedOnce(ps, order, starts, completion, n);
    SjfAccounted(ps, order, starts, completion, tt, tw);
    TotalsIdentity(ps, completion, tt, tw);
  }
}
