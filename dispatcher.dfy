/** The dispatcher: run the strategy the algorithm name selects and average its totals. */
module Dispatcher {
  import opened Processes
  import opened Metrics
  import Gantt
  import Fcfs
  import Sjf
  import Preemptive
  import RoundRobin
  import PriorityNonPreemptive

  /** The algorithm names the dispatcher recognises. */
  predicate Known(algorithm: string) {
    algorithm in {"fcfs", "sjf", "srtf", "roundRobin", "priorityNP", "priorityP"}
  }

  /**
   * scheduleProcesses: a recognised name runs its strategy, whose averages are over all the
   * processes, with an average waiting time that is the average turnaround less the average
   * burst and never negative; one-label-per-process strategies give one label per process and
   * the preemptive ones never repeat a label back to back. Any other name gives an empty chart
   * and zero averages.
   */
  method ScheduleProcesses(ps: seq<Process>, algorithm: string, quantum: int) returns (o: Outcome)
    requires algorithm in {"srtf", "roundRobin", "priorityP"} ==> PositiveBursts(ps)
    requires algorithm == "roundRobin" ==> quantum >= 1
    ensures Known(algorithm) ==>
              && o.avgTurnaround.count == |ps| && o.avgWaiting.count == |ps|
              && o.avgWaiting.total == o.avgTurnaround.total - TotalBurst(ps)
              && o.avgWaiting.total >= 0
    ensures algorithm in {"sjf", "priorityNP"} ==> |o.chart| == |ps|
    ensures algorithm in {"srtf", "priorityP"} ==> Gantt.NoRepeatedRun(o.chart)
    ensures !Known(algorithm) ==> o == Outcome([], Ratio(0, 1), Ratio(0, 1))
  {
    var chart: seq<Entry>, tt: int, tw: int;
    ghost var order: seq<nat>, starts: seq<int>, completion: seq<int>;
    ghost var ticks: seq<int>, slices: seq<RoundRobin.Slice>, pend: seq<RoundRobin.Pending>;
    match algorithm {
      case "fcfs" =>
        chart, tt, tw, order, starts, completion := Fcfs.Fcfs(ps);
      case "sjf" =>
        chart, tt, tw, order, starts, completion := Sjf.Sjf(ps);
      case "srtf" =>
        chart, tt, tw, ticks, completion := Preemptive.Srtf(ps);
      case "roundRobin" =>
        chart, tt, tw, slices, completion, pend := RoundRobin.RoundRobin(ps, quantum);
      case "priorityNP" =>
        chart, tt, tw, order, starts, completion := PriorityNonPreemptive.PriorityNonPreemptive(ps);
      case "priorityP" =>
        chart, tt, tw, ticks, completion := Preemptive.PriorityPreemptive(ps);
      case _ =>
        return Outcome([], Ratio(0, 1), Ratio(0, 1));
    }
    TotalsIdentity(ps, completion, tt, tw);
    o := Outcome(chart, Ratio(tt, |ps|), Ratio(tw, |ps|));
  }
}
