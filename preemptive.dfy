/**
 * The two preemptive strategies, srtf and priorityPreemptive. Both re-run the scan at every
 * time unit, run the chosen process for one unit (or push `idle` when nothing has arrived),
 * and finish a process when its remaining time reaches zero. They differ only in the key the
 * scan minimises: the remaining time for srtf, the priority value for priorityPreemptive.
 */
module Preemptive {
  import opened Processes
  import opened Metrics
  import opened Selection
  import opened Gantt

  /** The key of the scan. */
  datatype Policy =
    | ShortestRemaining  // srtf: `remainingBurstTime[i] < minRemainingTime`
    | HighestPriority    // priorityPreemptive: `processes[i].priority < highestPriority`

  /** The keys the scan compares, given the remaining times. */
  function Keys(ps: seq<Process>, policy: Policy, rem: seq<int>): (r: seq<int>)
    requires |rem| == |ps|
    ensures |r| == |ps|
  {
    match policy
    case ShortestRemaining => rem
    case HighestPriority => Priorities(ps)
  }

  /**
   * The remaining times after the decisions `ticks`: each process's burst, less the number of
   * ticks it ran.
   */
  function Remaining(ps: seq<Process>, ticks: seq<int>): (r: seq<int>)
    ensures |r| == |ps| && forall i :: 0 <= i < |ps| ==> r[i] == ps[i].burstTime - multiset(ticks)[i]
  {
    seq(|ps|, i requires 0 <= i < |ps| => ps[i].burstTime - multiset(ticks)[i])
  }

  /** A tick that runs `c` takes one unit off its remaining time and no other. */
  lemma RemainingSnoc(ps: seq<Process>, ticks: seq<int>, c: int)
    requires -1 <= c < |ps|
    ensures c == -1 ==> Remaining(ps, ticks + [c]) == Remaining(ps, ticks)
    ensures c != -1 ==> Remaining(ps, ticks + [c]) == Remaining(ps, ticks)[c := Remaining(ps, ticks)[c] - 1]
  {
    assert multiset(ticks + [c]) == multiset(ticks) + multiset{c};
  }

  /**
   * Tick `t` followed the scan: its decision is the choice of the selection rule at time `t`,
   * over the remaining times and completion flags the earlier ticks left.
   */
  ghost predicate FollowsRule(ps: seq<Process>, policy: Policy, ticks: seq<int>, t: nat)
    requires t < |ticks|
  {
    var rem := Remaining(ps, ticks[..t]);
    IsChoice(ps, Keys(ps, policy, rem), Finished(rem), t, ticks[t])
  }

  /** The run does not end on an idle tick: the loop stops as soon as the last process completes. */
  predicate EndsBusy(ticks: seq<int>) {
    ticks == [] || ticks[|ticks| - 1] != -1
  }

  /** Every tick of the run followed the scan. */
  ghost predicate PreemptiveRun(ps: seq<Process>, policy: Policy, ticks: seq<int>) {
    && ValidTicks(ps, ticks)
    && forall t :: 0 <= t < |ticks| ==> FollowsRule(ps, policy, ticks, t)
  }

  /** Process `i` completed at time `c`: its last tick was tick `c - 1`. */
  ghost predicate CompletedAt(ticks: seq<int>, i: int, c: int) {
    && 1 <= c <= |ticks|
    && ticks[c - 1] == i
    && forall t :: c <= t < |ticks| ==> ticks[t] != i
  }

  /**
   * No remaining time is negative, and no process has run more ticks than have passed since
   * its arrival.
   */
  ghost predicate Progress(ps: seq<Process>, ticks: seq<int>) {
    forall i :: 0 <= i < |ps| ==>
      && Remaining(ps, ticks)[i] >= 0
      && multiset(ticks)[i] <= Max(0, |ticks| - ps[i].arrivalTime)
  }

  /**
   * Every process whose remaining time is zero completed at its recorded time, and waited no
   * negative time.
   */
  ghost predicate Completions(ps: seq<Process>, ticks: seq<int>, completion: seq<int>) {
    && |completion| == |ps|
    && forall i :: 0 <= i < |ps| && Remaining(ps, ticks)[i] == 0 ==>
         CompletedAt(ticks, i, completion[i]) && Waiting(ps[i], completion[i]) >= 0
  }

  /** A decision that follows the scan extends a run that follows it. */
  lemma RuleSnoc(ps: seq<Process>, policy: Policy, ticks: seq<int>, c: int)
    requires PreemptiveRun(ps, policy, ticks)
    requires IsChoice(ps, Keys(ps, policy, Remaining(ps, ticks)), Finished(Remaining(ps, ticks)), |ticks|, c)
    ensures PreemptiveRun(ps, policy, ticks + [c])
  {
    var ticks' := ticks + [c];
    forall t | 0 <= t < |ticks'| ensures FollowsRule(ps, policy, ticks', t) {
      if t < |ticks| {
        assert ticks'[..t] == ticks[..t];
        assert FollowsRule(ps, policy, ticks, t);
      } else {
        assert ticks'[..t] == ticks;
      }
    }
  }

  /**
   * The completion flags after one more tick: only the tick that runs the last unit of a
   * process sets a flag, and only that process's.
   */
  lemma FinishedSnoc(ps: seq<Process>, ticks: seq<int>, c: int)
    requires -1 <= c < |ps| && (c != -1 ==> Remaining(ps, ticks)[c] >= 1)
    ensures c == -1 || Remaining(ps, ticks)[c] > 1 ==>
              Finished(Remaining(ps, ticks + [c])) == Finished(Remaining(ps, ticks))
    ensures c != -1 && Remaining(ps, ticks)[c] == 1 ==>
              Finished(Remaining(ps, ticks + [c])) == Finished(Remaining(ps, ticks))[c := true]
  {
    RemainingSnoc(ps, ticks, c);
  }

  /**
   * A tick that follows the scan keeps the remaining times non-negative (only an unfinished
   * process runs) and runs only a process that has arrived.
   */
  lemma ProgressStep(ps: seq<Process>, policy: Policy, ticks: seq<int>, c: int)
    requires Progress(ps, ticks)
    requires IsChoice(ps, Keys(ps, policy, Remaining(ps, ticks)), Finished(Remaining(ps, ticks)), |ticks|, c)
    ensures Progress(ps, ticks + [c])
  {
    RemainingSnoc(ps, ticks, c);
    assert multiset(ticks + [c]) == multiset(ticks) + multiset{c};
  }

  /** An idle tick, or a tick that does not finish the process it runs, completes nothing. */
  lemma CompletionsStep(ps: seq<Process>, policy: Policy, ticks: seq<int>, completion: seq<int>, c: int)
    requires Completions(ps, ticks, completion)
    requires IsChoice(ps, Keys(ps, policy, Remaining(ps, ticks)), Finished(Remaining(ps, ticks)), |ticks|, c)
    requires c == -1 || Remaining(ps, ticks)[c] > 1
    ensures Completions(ps, ticks + [c], completion)
  {
    RemainingSnoc(ps, ticks, c);
    var ticks' := ticks + [c];
    forall i | 0 <= i < |ps| && Remaining(ps, ticks')[i] == 0 ensures CompletedAt(ticks', i, completion[i]) {
      assert CompletedAt(ticks, i, completion[i]);
    }
  }

  /**
   * The tick that runs the last unit of `c` completes it at the new clock `tc`; its waiting
   * time is not negative because it ran its whole burst after its arrival.
   */
  lemma CompletionsFinish(ps: seq<Process>, policy: Policy, ticks: seq<int>, completion: seq<int>, c: int, tc: int)
    requires Completions(ps, ticks, completion) && Progress(ps, ticks)
    requires IsChoice(ps, Keys(ps, policy, Remaining(ps, ticks)), Finished(Remaining(ps, ticks)), |ticks|, c)
    requires c != -1 && Remaining(ps, ticks)[c] == 1 && tc == |ticks| + 1
    ensures Completions(ps, ticks + [c], completion[c := tc])
  {
    RemainingSnoc(ps, ticks, c);
    var ticks', completion' := ticks + [c], completion[c := tc];
    forall i | 0 <= i < |ps| && Remaining(ps, ticks')[i] == 0
      ensures CompletedAt(ticks', i, completion'[i]) && Waiting(ps[i], completion'[i]) >= 0
    {
      if i != c {
        assert CompletedAt(ticks, i, completion[i]);
      }
    }
  }

  /**
   * The state between two scans, after the decisions `ticks` (the clock is `|ticks|`):
   * `rem` and `done` are the remaining times and completion flags those decisions leave,
   * every tick followed the scan, and `tt`, `tw` sum the turnaround and waiting times of the
   * completed processes.
   */
  ghost predicate TickState(ps: seq<Process>, policy: Policy, ticks: seq<int>, completion: seq<int>,
                            rem: seq<int>, done: seq<bool>, tt: int, tw: int) {
    && rem == Remaining(ps, ticks)
    && done == Finished(rem)
    && PreemptiveRun(ps, policy, ticks)
    && Progress(ps, ticks)
    && Completions(ps, ticks, completion)
    && tt == TurnaroundSum(ps, completion, done, |ps|)
    && tw == WaitingSum(ps, completion, done, |ps|)
  }

  /** An idle tick: nothing has arrived, so nothing changes but the clock. */
  lemma IdleStep(ps: seq<Process>, policy: Policy, ticks: seq<int>, completion: seq<int>,
                 rem: seq<int>, done: seq<bool>, tt: int, tw: int)
    requires TickState(ps, policy, ticks, completion, rem, done, tt, tw)
    requires IsChoice(ps, Keys(ps, policy, rem), done, |ticks|, -1)
    ensures TickState(ps, policy, ticks + [-1], completion, rem, done, tt, tw)
  {
    RemainingSnoc(ps, ticks, -1);
    RuleSnoc(ps, policy, ticks, -1);
    ProgressStep(ps, policy, ticks, -1);
    CompletionsStep(ps, policy, ticks, completion, -1);
  }

  /**
   * A tick that runs the chosen process `c` without finishing it takes one unit off its
   * remaining time, and so off their sum.
   */
  lemma RunStep(ps: seq<Process>, policy: Policy, ticks: seq<int>, completion: seq<int>,
                rem: seq<int>, done: seq<bool>, tt: int, tw: int, c: int)
    requires TickState(ps, policy, ticks, completion, rem, done, tt, tw)
    requires IsChoice(ps, Keys(ps, policy, rem), done, |ticks|, c)
    requires c != -1 && rem[c] - 1 != 0
    ensures TickState(ps, policy, ticks + [c], completion, rem[c := rem[c] - 1], done, tt, tw)
    ensures 0 <= Sum(rem[c := rem[c] - 1]) < Sum(rem)
  {
    RemainingSnoc(ps, ticks, c);
    FinishedSnoc(ps, ticks, c);
    RuleSnoc(ps, policy, ticks, c);
    ProgressStep(ps, policy, ticks, c);
    CompletionsStep(ps, policy, ticks, completion, c);
    SumUpdate(rem, c, rem[c] - 1);
    SumNonNegative(rem[c := rem[c] - 1]);
  }

  /**
   * The tick that runs the last unit of `c`: it completes at the new clock `tc`, and the
   * totals grow by its turnaround `ta` and its waiting time `wa`.
   */
  lemma FinishStep(ps: seq<Process>, policy: Policy, ticks: seq<int>, completion: seq<int>,
                   rem: seq<int>, done: seq<bool>, tt: int, tw: int, c: int, tc: int, ta: int, wa: int)
    requires TickState(ps, policy, ticks, completion, rem, done, tt, tw)
    requires IsChoice(ps, Keys(ps, policy, rem), done, |ticks|, c)
    requires c != -1 && rem[c] - 1 == 0
    requires tc == |ticks| + 1 && ta == tc - ps[c].arrivalTime && wa == ta - ps[c].burstTime
    ensures TickState(ps, policy, ticks + [c], completion[c := tc], rem[c := rem[c] - 1], done[c := true], tt + ta, tw + wa)
    ensures 0 <= Sum(rem[c := rem[c] - 1]) < Sum(rem)
    ensures CountTrue(done[c := true]) == CountTrue(done) + 1
  {
    RemainingSnoc(ps, ticks, c);
    FinishedSnoc(ps, ticks, c);
    RuleSnoc(ps, policy, ticks, c);
    ProgressStep(ps, policy, ticks, c);
    CompletionsFinish(ps, policy, ticks, completion, c, tc);
    RecordCompletion(ps, completion, done, c, tc, |ps|);
    SumUpdate(rem, c, rem[c] - 1);
    SumNonNegative(rem[c := rem[c] - 1]);
    CountTrueSet(done, c);
  }

  /** Before the first tick: every process has its whole burst left and none is completed. */
  lemma TickStart(ps: seq<Process>, policy: Policy)
    requires PositiveBursts(ps)
    ensures TickState(ps, policy, [], seq(|ps|, _ => 0), Bursts(ps), seq(|ps|, _ => false), 0, 0)
    ensures CountTrue(seq(|ps|, _ => false)) == 0
  {
    var n := |ps|;
    assert Bursts(ps) == Remaining(ps, []);
    assert seq(n, _ => false) == Finished(Remaining(ps, [])) == NoneDone(n);
    NoneDoneSums(ps, seq(n, _ => 0), n);
    CountTrueNone(seq(n, _ => false));
  }

  /**
   * The chart push of one tick: the label of a process only when the last entry is not
   * already that label, `idle` always.
   */
  lemma ChartStep(ps: seq<Process>, ticks: seq<int>, chart: seq<Entry>, chart1: seq<Entry>, c: int)
    requires ValidTicks(ps, ticks) && -1 <= c < |ps| && chart == Coalesce(ps, ticks)
    requires c == -1 ==> chart1 == chart + [Idle]
    requires c != -1 && (|chart| == 0 || chart[|chart| - 1] != Run(ps[c].id)) ==> chart1 == chart + [Run(ps[c].id)]
    requires c != -1 && !(|chart| == 0 || chart[|chart| - 1] != Run(ps[c].id)) ==> chart1 == chart
    ensures ValidTicks(ps, ticks + [c]) && chart1 == Coalesce(ps, ticks + [c])
  {
    CoalesceSnoc(ps, ticks, c);
  }

  /**
   * When the count of completed processes reaches `n`, every process has run its whole burst,
   * each completed at its recorded time, and the totals cover them all.
   */
  lemma TicksComplete(ps: seq<Process>, policy: Policy, ticks: seq<int>, completion: seq<int>,
                      rem: seq<int>, done: seq<bool>, tt: int, tw: int)
    requires TickState(ps, policy, ticks, completion, rem, done, tt, tw) && CountTrue(done) == |ps|
    ensures forall i :: 0 <= i < |ps| ==> Remaining(ps, ticks)[i] == 0
    ensures |completion| == |ps| && forall i :: 0 <= i < |ps| ==> CompletedAt(ticks, i, completion[i])
    ensures Accounted(ps, completion, tt, tw)
  {
    CountTrueFull(done);
    assert done == AllDone(|ps|);
  }

  /**
   * The loop shared by srtf and priorityPreemptive. Every tick follows the scan under
   * `policy`; at the end every process has run its whole burst and completed at its recorded
   * time; the chart is the tick decisions with consecutive runs of one process merged; the
   * totals are those of that execution.
   */
  method RunTicks(ps: seq<Process>, policy: Policy)
    returns (chart: seq<Entry>, tt: int, tw: int, ghost ticks: seq<int>, ghost completion: seq<int>)
    requires PositiveBursts(ps)
    ensures PreemptiveRun(ps, policy, ticks)
    ensures forall i :: 0 <= i < |ps| ==> Remaining(ps, ticks)[i] == 0
    ensures |completion| == |ps| && forall i :: 0 <= i < |ps| ==> CompletedAt(ticks, i, completion[i])
    ensures chart == Coalesce(ps, ticks)
    ensures EndsBusy(ticks)
    ensures Accounted(ps, completion, tt, tw)
    ensures tw == tt - TotalBurst(ps) && tw >= 0
  {
    var n := |ps|;
    var time := 0;
    chart, tt, tw := [], 0, 0;
    var remainingBurstTime := Bursts(ps);
    var isCompleted := seq(n, _ => false);
    var completedProcesses := 0;
    ticks, completion := [], seq(n, _ => 0);
    TickStart(ps, policy);
    while completedProcesses < n
      invariant time == |ticks| && completedProcesses == CountTrue(isCompleted)
      invariant TickState(ps, policy, ticks, completion, remainingBurstTime, isCompleted, tt, tw)
      invariant chart == Coalesce(ps, ticks)
      invariant completedProcesses == n ==> EndsBusy(ticks)
      decreases Sum(remainingBurstTime), LatestArrival(ps) - time
    {
      var idx := SelectMin(ps, Keys(ps, policy, remainingBurstTime), isCompleted, time);
      ghost var ticks0, completion0, chart0, tt0, tw0 := ticks, completion, chart, tt, tw;
      ghost var rem0, done0 := remainingBurstTime, isCompleted;
      if idx != -1 {
        if |chart| == 0 || chart[|chart| - 1] != Run(ps[idx].id) {
          chart := chart + [Run(ps[idx].id)];
        }
        remainingBurstTime := remainingBurstTime[idx := remainingBurstTime[idx] - 1];
        time := time + 1;
        ticks := ticks + [idx];
        if remainingBurstTime[idx] == 0 {
          assert EndsBusy(ticks);
          isCompleted := isCompleted[idx := true];
          completedProcesses := completedProcesses + 1;
          var turnaroundTime := time - ps[idx].arrivalTime;
          var waitingTime := turnaroundTime - ps[idx].burstTime;
          tt := tt + turnaroundTime;
          tw := tw + waitingTime;
          completion := completion[idx := time];
          FinishStep(ps, policy, ticks0, completion0, rem0, done0, tt0, tw0, idx, time, turnaroundTime, waitingTime);
        } else {
          RunStep(ps, policy, ticks0, completion0, rem0, done0, tt0, tw0, idx);
        }
      } else {
        IdleBeforeLatestArrival(ps, Keys(ps, policy, rem0), done0, time);
        chart := chart + [Idle];
        time := time + 1;
        ticks := ticks + [-1];
        IdleStep(ps, policy, ticks0, completion0, rem0, done0, tt0, tw0);
      }
      ChartStep(ps, ticks0, chart0, chart, idx);
    }
    TicksComplete(ps, policy, ticks, completion, remainingBurstTime, isCompleted, tt, tw);
    TotalsIdentity(ps, completion, tt, tw);
  }

  /**
   * srtf: at every time unit the arrived, unfinished process with the least remaining time
   * runs (ties to the lowest index); each runs its whole burst; the chart never names the same
   * process twice in a row; the totals are those of that execution.
   */
  method Srtf(ps: seq<Process>)
    returns (chart: seq<Entry>, tt: int, tw: int, ghost ticks: seq<int>, ghost completion: seq<int>)
    requires PositiveBursts(ps)
    ensures PreemptiveRun(ps, ShortestRemaining, ticks)
    ensures forall i :: 0 <= i < |ps| ==> Remaining(ps, ticks)[i] == 0
    ensures |completion| == |ps| && forall i :: 0 <= i < |ps| ==> CompletedAt(ticks, i, completion[i])
    ensures chart == Coalesce(ps, ticks) && NoRepeatedRun(chart)
    ensures EndsBusy(ticks)
    ensures Accounted(ps, completion, tt, tw)
    ensures tw == tt - TotalBurst(ps) && tw >= 0
  {
    chart, tt, tw, ticks, completion := RunTicks(ps, ShortestRemaining);
    CoalesceShape(ps, ticks);
  }

  /**
   * priorityPreemptive: at every time unit the arrived, unfinished process with the smallest
   * priority value runs (ties to the lowest index); each runs its whole burst; the chart never
   * names the same process twice in a row; the totals are those of that execution.
   */
  method PriorityPreemptive(ps: seq<Process>)
    returns (chart: seq<Entry>, tt: int, tw: int, ghost ticks: seq<int>, ghost completion: seq<int>)
    requires PositiveBursts(ps)
    ensures PreemptiveRun(ps, HighestPriority, ticks)
    ensures forall i :: 0 <= i < |ps| ==> Remaining(ps, ticks)[i] == 0
    ensures |completion| == |ps| && forall i :: 0 <= i < |ps| ==> CompletedAt(ticks, i, completion[i])
    ensures chart == Coalesce(ps, ticks) && NoRepeatedRun(chart)
    ensures EndsBusy(ticks)
    ensures Accounted(ps, completion, tt, tw)
    ensures tw == tt - TotalBurst(ps) && tw >= 0
  {
    chart, tt, tw, ticks, completion := RunTicks(ps, HighestPriority);
    CoalesceShape(ps, ticks);
  }
}
