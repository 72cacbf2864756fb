/** First-come-first-served: stable sort by arrival, then run each process to completion. */
module Fcfs {
  import opened Processes
  import opened Metrics
  import opened Ordering
  import opened FixedOrder
  import opened Gantt

  /**
   * The fcfs chart of the first `k` positions of `order`: an `idle({gap})` label whenever the
   * clock is behind the next arrival, then `P{id}({burst})`.
   */
  ghost function FcfsChart(ps: seq<Process>, order: seq<nat>, starts: seq<int>, k: nat): seq<Entry>
    requires InRange(order, |ps|) && k <= |order| && k <= |starts|
  {
    if k == 0 then []
    else
      var free := FreeAt(ps, order, starts, k - 1);
      var p := ps[order[k - 1]];
      FcfsChart(ps, order, starts, k - 1)
        + (if free < p.arrivalTime then [IdleFor(p.arrivalTime - free)] else [])
        + [RunFor(p.id, p.burstTime)]
  }

  /** Recording a later start time does not change the chart of the earlier positions. */
  lemma {:induction false} FcfsChartExtend(ps: seq<Process>, order: seq<nat>, starts: seq<int>, s: int, k: nat)
    requires InRange(order, |ps|) && k <= |order| && k <= |starts|
    ensures FcfsChart(ps, order, starts + [s], k) == FcfsChart(ps, order, starts, k)
  {
    if k > 0 {
      FcfsChartExtend(ps, order, starts, s, k - 1);
    }
  }

  /**
   * One position of the fixed order, started at `s`: a gap label is added only when the clock
   * is behind its arrival (giving `chart1`), then its own label.
   */
  lemma FcfsStep(ps: seq<Process>, order: seq<nat>, starts: seq<int>, k: nat, chart: seq<Entry>, free: int, chart1: seq<Entry>, s: int)
    requires InRange(order, |ps|) && k < |order| && |starts| == k
    requires chart == FcfsChart(ps, order, starts, k) && free == FreeAt(ps, order, starts, k)
    requires s == Max(free, ps[order[k]].arrivalTime)
    requires free < ps[order[k]].arrivalTime ==> chart1 == chart + [IdleFor(ps[order[k]].arrivalTime - free)]
    requires free >= ps[order[k]].arrivalTime ==> chart1 == chart
    ensures FcfsChart(ps, order, starts + [s], k + 1) == chart1 + [RunFor(ps[order[k]].id, ps[order[k]].burstTime)]
  {
    FcfsChartExtend(ps, order, starts, s, k);
    assert FreeAt(ps, order, starts + [s], k) == FreeAt(ps, order, starts, k);
  }

  /** The labels of one position account for the time from the clock to its completion. */
  lemma FcfsStepElapsed(p: Process, free: int, chart: seq<Entry>, chart1: seq<Entry>)
    requires free < p.arrivalTime ==> chart1 == chart + [IdleFor(p.arrivalTime - free)]
    requires free >= p.arrivalTime ==> chart1 == chart
    requires Elapsed(chart) == free
    ensures Elapsed(chart1 + [RunFor(p.id, p.burstTime)]) == Max(free, p.arrivalTime) + p.burstTime
  {
    ElapsedPush(chart1, RunFor(p.id, p.burstTime));
    if free < p.arrivalTime {
      ElapsedPush(chart, IdleFor(p.arrivalTime - free));
    }
  }

  /** The chart of the first `k` positions, whose labels add up to the clock. */
  ghost predicate ChartSoFar(ps: seq<Process>, order: seq<nat>, starts: seq<int>, k: nat, time: int, chart: seq<Entry>)
    requires InRange(order, |ps|) && k <= |order| && k <= |starts|
  {
    chart == FcfsChart(ps, order, starts, k) && Elapsed(chart) == time
  }

  /**
   * Position `k` holds process `p`: the clock `time`, at which the processor became free,
   * moves to its start `s`, adding a gap label only when it was behind (giving `chart1`); its
   * own label follows, and the labels add up to its completion.
   */
  lemma ChartAdvance(ps: seq<Process>, order: seq<nat>, starts: seq<int>, k: nat, time: int, chart: seq<Entry>,
                     chart1: seq<Entry>, p: Process, s: int)
    requires InRange(order, |ps|) && k < |order| && |starts| == k && time == FreeAt(ps, order, starts, k)
    requires ChartSoFar(ps, order, starts, k, time, chart)
    requires p == ps[order[k]] && s == Max(time, p.arrivalTime)
    requires time < p.arrivalTime ==> chart1 == chart + [IdleFor(p.arrivalTime - time)]
    requires time >= p.arrivalTime ==> chart1 == chart
    ensures ChartSoFar(ps, order, starts + [s], k + 1, s + p.burstTime, chart1 + [RunFor(p.id, p.burstTime)])
  {
    FcfsStep(ps, order, starts, k, chart, time, chart1, s);
    FcfsStepElapsed(p, time, chart, chart1);
  }

  /**
   * The loop of fcfs over the sorted processes: the processes run one after the other in
   * `order`; the chart carries a gap label exactly where the clock was behind, and its labels
   * add up to the final clock. The clamp on the waiting time never fires: the returned total
   * is the plain sum.
   */
  method RunInOrder(ps: seq<Process>, order: seq<nat>)
    returns (chart: seq<Entry>, tt: int, tw: int, ghost starts: seq<int>, ghost completion: seq<int>)
    requires IsPermutation(order, |ps|) && InRange(order, |ps|) && |order| == |ps|
    ensures FixedOrderRun(ps, order, starts, completion)
    ensures chart == FcfsChart(ps, order, starts, |ps|)
    ensures Elapsed(chart) == FreeAt(ps, order, starts, |ps|)
    ensures Accounted(ps, completion, tt, tw)
    ensures tw == tt - TotalBurst(ps) && tw >= 0
  {
    var n := |ps|;
    var time := 0;
    chart, tt, tw := [], 0, 0;
    starts := [];
    completion := seq(n, _ => 0);
    ghost var fin := NoneDone(n);
    NoneDoneSums(ps, completion, n);
    for k := 0 to n
      invariant RunSoFar(ps, order, k, time, starts, completion)
      invariant ChartSoFar(ps, order, starts, k, time, chart)
      invariant TotalsSoFar(ps, order, k, completion, fin, tt, tw)
    {
      ghost var time0, chart0, starts0, completion0, fin0, tt0, tw0 := time, chart, starts, completion, fin, tt, tw;
      var i := order[k];
      var p := ps[i];
      if time < p.arrivalTime {
        chart := chart + [IdleFor(p.arrivalTime - time)];
        time := p.arrivalTime;
      }
      ghost var start, chart1 := time, chart;
      chart := chart + [RunFor(p.id, p.burstTime)];
      starts := starts + [time];
      time := time + p.burstTime;
      var waitingTime := time - p.arrivalTime - p.burstTime;
      tt := tt + (time - p.arrivalTime);
      tw := tw + (if waitingTime >= 0 then waitingTime else 0);
      completion := completion[i := time];
      fin := fin[i := true];
      ChartAdvance(ps, order, starts0, k, time0, chart0, chart1, p, start);
      RunAdvance(ps, order, k, time0, starts0, completion0, start);
      TotalsAdvance(ps, order, k, completion0, fin0, tt0, tw0, start, time);
    }
    TotalsComplete(ps, order, completion, fin, tt, tw);
    TotalsIdentity(ps, completion, tt, tw);
  }

  /**
   * fcfs: the processes run in stable arrival order, each as soon as it has arrived and the
   * previous one has finished, and the totals are those of that execution.
   */
  method Fcfs(ps: seq<Process>)
    returns (chart: seq<Entry>, tt: int, tw: int, ghost order: seq<nat>, ghost starts: seq<int>, ghost completion: seq<int>)
    ensures IsPermutation(order, |ps|) && InRange(order, |ps|) && Ordered(ps, ByArrival, order)
    ensures FixedOrderRun(ps, order, starts, completion)
    ensures chart == FcfsChart(ps, order, starts, |ps|)
    ensures Elapsed(chart) == FreeAt(ps, order, starts, |ps|)
    ensures Accounted(ps, completion, tt, tw)
    ensures tw == tt - TotalBurst(ps) && tw >= 0
  {
    var sorted := StableSort(ps, ByArrival);
    order := sorted;
    chart, tt, tw, starts, completion := RunInOrder(ps, sorted);
  }
}
