/**
 * Non-preemptive priority: stable sort by arrival and then by priority value, then run each
 * process to completion in that fixed order. Its chart labels carry the turnaround time of
 * the process, not its burst, and it never emits a gap label.
 */
module PriorityNonPreemptive {
  import opened Processes
  import opened Metrics
  import opened Ordering
  import opened FixedOrder

  /** The label `P{id}({turnaround})` of each of the first `k` positions, started at `starts`. */
  ghost predicate TurnaroundLabels(ps: seq<Process>, order: seq<nat>, starts: seq<int>, k: nat, chart: seq<Entry>)
    requires InRange(order, |ps|) && k <= |order| && k <= |starts|
  {
    && |chart| == k
    && forall j :: 0 <= j < k ==>
         chart[j] == RunFor(ps[order[j]].id, starts[j] + ps[order[j]].burstTime - ps[order[j]].arrivalTime)
  }

  /** Position `k`, started at `s`, adds the label of its turnaround. */
  lemma LabelsAdvance(ps: seq<Process>, order: seq<nat>, starts: seq<int>, k: nat, chart: seq<Entry>, s: int)
    requires InRange(order, |ps|) && k < |order| && |starts| == k
    requires TurnaroundLabels(ps, order, starts, k, chart)
    ensures TurnaroundLabels(ps, order, starts + [s], k + 1,
                             chart + [RunFor(ps[order[k]].id, s + ps[order[k]].burstTime - ps[order[k]].arrivalTime)])
  {
  }

  /**
   * Once every position has run, the label of each position is `P{id}` with the turnaround
   * time of that process.
   */
  lemma LabelsAreTurnarounds(ps: seq<Process>, order: seq<nat>, starts: seq<int>, completion: seq<int>, chart: seq<Entry>)
    requires FixedOrderRun(ps, order, starts, completion)
    requires TurnaroundLabels(ps, order, starts, |ps|, chart)
    ensures |chart| == |ps|
    ensures forall j :: 0 <= j < |ps| ==> chart[j] == RunFor(ps[order[j]].id, Turnaround(ps[order[j]], completion[order[j]]))
  {
    forall j | 0 <= j < |ps|
      ensures chart[j] == RunFor(ps[order[j]].id, Turnaround(ps[order[j]], completion[order[j]]))
    {
      assert RanAt(ps, order, starts, completion, j);
    }
  }

  /** The state after the first `k` positions: their runs, their totals and their labels. */
  ghost predicate NpState(ps: seq<Process>, order: seq<nat>, k: nat, time: int, starts: seq<int>, completion: seq<int>,
                          fin: seq<bool>, tt: int, tw: int, chart: seq<Entry>) {
    && RunSoFar(ps, order, k, time, starts, completion)
    && TotalsSoFar(ps, order, k, completion, fin, tt, tw)
    && TurnaroundLabels(ps, order, starts, k, chart)
  }

  /**
   * Position `k` holds process `i` (record `p`): it starts at `s`, the later of the clock and
   * its arrival, and completes at `c`; its label carries its turnaround `c - arrival`, and its
   * waiting time is `s - arrival`.
   */
  lemma NpStep(ps: seq<Process>, order: seq<nat>, k: nat, time: int, starts: seq<int>, completion: seq<int>,
               fin: seq<bool>, tt: int, tw: int, chart: seq<Entry>, i: nat, p: Process, s: int, c: int)
    requires IsPermutation(order, |ps|) && k < |ps|
    requires NpState(ps, order, k, time, starts, completion, fin, tt, tw, chart)
    requires i == order[k] && p == ps[i] && s == Max(time, p.arrivalTime) && c == s + p.burstTime
    ensures NpState(ps, order, k + 1, c, starts + [s], completion[i := c], fin[i := true],
                    tt + (c - p.arrivalTime), tw + (s - p.arrivalTime), chart + [RunFor(p.id, c - p.arrivalTime)])
  {
    RunAdvance(ps, order, k, time, starts, completion, s);
    TotalsAdvance(ps, order, k, completion, fin, tt, tw, s, c);
    LabelsAdvance(ps, order, starts, k, chart, s);
  }

  /**
   * The loop of priorityNonPreemptive over the sorted processes: each starts at the later of
   * the clock and its arrival, and its waiting time is its start minus its arrival, never
   * negative. The final `Math.max` never moves the clock.
   */
  method RunInOrder(ps: seq<Process>, order: seq<nat>)
    returns (chart: seq<Entry>, tt: int, tw: int, ghost starts: seq<int>, ghost completion: seq<int>)
    requires IsPermutation(order, |ps|) && InRange(order, |ps|) && |order| == |ps|
    ensures FixedOrderRun(ps, order, starts, completion)
    ensures TurnaroundLabels(ps, order, starts, |ps|, chart)
    ensures Accounted(ps, completion, tt, tw)
    ensures |chart| == |ps|
    ensures tw == tt - TotalBurst(ps) && tw >= 0
  {
    var n := |ps|;
    var time := 0;
    chart, tt, tw := [], 0, 0;
    starts := [];
    completion := seq(n, _ => 0);
    ghost var fin := NoneDone(n);
    NoneDoneSums(ps, completion, n);
    for k := 0 to n
      invariant NpState(ps, order, k, time, starts, completion, fin, tt, tw, chart)
    {
      ghost var time0, chart0, starts0, completion0, fin0, tt0, tw0 := time, chart, starts, completion, fin, tt, tw;
      var i := order[k];
      var p := ps[i];
      if time < p.arrivalTime {
        time := p.arrivalTime;
      }
      ghost var start := time;
      var waitingTime := time - p.arrivalTime;
      time := time + p.burstTime;
      var turnaroundTime := time - p.arrivalTime;
      chart := chart + [RunFor(p.id, turnaroundTime)];
      tt := tt + turnaroundTime;
      tw := tw + waitingTime;
      ghost var finish := time;
      time := Max(time, p.arrivalTime + p.burstTime);
      starts := starts + [start];
      completion := completion[i := finish];
      fin := fin[i := true];
      NpStep(ps, order, k, time0, starts0, completion0, fin0, tt0, tw0, chart0, i, p, start, finish);
      assert time == finish;
    }
    TotalsComplete(ps, order, completion, fin, tt, tw);
    TotalsIdentity(ps, completion, tt, tw);
  }

  /**
   * priorityNonPreemptive: the processes run in the stable order by arrival and then by
   * priority value, each as soon as it has arrived and the previous one has finished; each
   * label carries the turnaround time of its process, and the totals are those of that
   * execution.
   */
  method PriorityNonPreemptive(ps: seq<Process>)
    returns (chart: seq<Entry>, tt: int, tw: int, ghost order: seq<nat>, ghost starts: seq<int>, ghost completion: seq<int>)
    ensures IsPermutation(order, |ps|) && InRange(order, |ps|) && Ordered(ps, ByArrivalThenPriority, order)
    ensures FixedOrderRun(ps, order, starts, completion)
    ensures |chart| == |ps|
    ensures forall j :: 0 <= j < |ps| ==> chart[j] == RunFor(ps[order[j]].id, Turnaround(ps[order[j]], completion[order[j]]))
    ensures Accounted(ps, completion, tt, tw)
    ensures tw == tt - TotalBurst(ps) && tw >= 0
  {
    var sorted := StableSort(ps, ByArrivalThenPriority);
    order := sorted;
    chart, tt, tw, starts, completion := RunInOrder(ps, sorted);
    LabelsAreTurnarounds(ps, order, starts, completion, chart);
  }
}
