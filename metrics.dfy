/**
 * Turnaround and waiting time (completion - arrival, and that minus the burst), and the running
 * totals every strategy accumulates into `totalTurnaroundTime` and `totalWaitingTime`.
 */
module Metrics {
  import opened Processes

  function Turnaround(p: Process, completion: int): int {
    completion - p.arrivalTime
  }

  function Waiting(p: Process, completion: int): int {
    Turnaround(p, completion) - p.burstTime
  }

  /** Turnaround summed over the processes below `k` whose flag in `fin` is set. */
  function TurnaroundSum(ps: seq<Process>, completion: seq<int>, fin: seq<bool>, k: nat): int
    requires |completion| == |ps| && |fin| == |ps| && k <= |ps|
  {
    if k == 0 then 0
    else TurnaroundSum(ps, completion, fin, k - 1) + (if fin[k - 1] then Turnaround(ps[k - 1], completion[k - 1]) else 0)
  }

  /** Waiting time summed over the processes below `k` whose flag in `fin` is set. */
  function WaitingSum(ps: seq<Process>, completion: seq<int>, fin: seq<bool>, k: nat): int
    requires |completion| == |ps| && |fin| == |ps| && k <= |ps|
  {
    if k == 0 then 0
    else WaitingSum(ps, completion, fin, k - 1) + (if fin[k - 1] then Waiting(ps[k - 1], completion[k - 1]) else 0)
  }

  /** Burst time summed over the processes below `k` whose flag in `fin` is set. */
  function BurstSum(ps: seq<Process>, fin: seq<bool>, k: nat): int
    requires |fin| == |ps| && k <= |ps|
  {
    if k == 0 then 0 else BurstSum(ps, fin, k - 1) + (if fin[k - 1] then ps[k - 1].burstTime else 0)
  }

  /** Every flag set: all processes completed. */
  function AllDone(n: nat): (r: seq<bool>)
    ensures |r| == n && forall i :: 0 <= i < n ==> r[i]
  {
    seq(n, _ => true)
  }

  /** No flag set: no process completed yet. */
  function NoneDone(n: nat): (r: seq<bool>)
    ensures |r| == n && forall i :: 0 <= i < n ==> !r[i]
  {
    seq(n, _ => false)
  }

  /** Before any completion both totals are zero. */
  lemma {:induction false} NoneDoneSums(ps: seq<Process>, completion: seq<int>, k: nat)
    requires |completion| == |ps| && k <= |ps|
    ensures TurnaroundSum(ps, completion, NoneDone(|ps|), k) == 0
    ensures WaitingSum(ps, completion, NoneDone(|ps|), k) == 0
  {
    if k > 0 {
      NoneDoneSums(ps, completion, k - 1);
    }
  }

  /** The sum of all burst times. */
  function TotalBurst(ps: seq<Process>): int {
    BurstSum(ps, AllDone(|ps|), |ps|)
  }

  /**
   * The totals a strategy returns, for the completion times it produced: `tt` is the total
   * turnaround, `tw` the total waiting time, and no process waited a negative time.
   */
  ghost predicate Accounted(ps: seq<Process>, completion: seq<int>, tt: int, tw: int) {
    && |completion| == |ps|
    && tt == TurnaroundSum(ps, completion, AllDone(|ps|), |ps|)
    && tw == WaitingSum(ps, completion, AllDone(|ps|), |ps|)
    && forall i :: 0 <= i < |ps| ==> Waiting(ps[i], completion[i]) >= 0
  }

  /**
   * Completing process `i` at time `c` adds its turnaround and its waiting time to the totals,
   * and leaves every other term alone.
   */
  lemma {:induction false} RecordCompletion(ps: seq<Process>, completion: seq<int>, fin: seq<bool>, i: nat, c: int, k: nat)
    requires |completion| == |ps| && |fin| == |ps| && i < |ps| && !fin[i] && k <= |ps|
    ensures TurnaroundSum(ps, completion[i := c], fin[i := true], k)
         == TurnaroundSum(ps, completion, fin, k) + (if i < k then Turnaround(ps[i], c) else 0)
    ensures WaitingSum(ps, completion[i := c], fin[i := true], k)
         == WaitingSum(ps, completion, fin, k) + (if i < k then Waiting(ps[i], c) else 0)
  {
    if k > 0 {
      RecordCompletion(ps, completion, fin, i, c, k - 1);
    }
  }

  /** Summed over any set of processes, waiting = turnaround - burst. */
  lemma {:induction false} WaitingIdentity(ps: seq<Process>, completion: seq<int>, fin: seq<bool>, k: nat)
    requires |completion| == |ps| && |fin| == |ps| && k <= |ps|
    ensures WaitingSum(ps, completion, fin, k) == TurnaroundSum(ps, completion, fin, k) - BurstSum(ps, fin, k)
  {
    if k > 0 {
      WaitingIdentity(ps, completion, fin, k - 1);
    }
  }

  lemma {:induction false} WaitingSumNonNegative(ps: seq<Process>, completion: seq<int>, fin: seq<bool>, k: nat)
    requires |completion| == |ps| && |fin| == |ps| && k <= |ps|
    requires forall i :: 0 <= i < k && fin[i] ==> Waiting(ps[i], completion[i]) >= 0
    ensures WaitingSum(ps, completion, fin, k) >= 0
  {
    if k > 0 {
      WaitingSumNonNegative(ps, completion, fin, k - 1);
    }
  }

  /**
   * The relation between the two averages: total waiting = total turnaround - total burst,
   * and the total waiting time is never negative.
   */
  lemma TotalsIdentity(ps: seq<Process>, completion: seq<int>, tt: int, tw: int)
    requires Accounted(ps, completion, tt, tw)
    ensures tw == tt - TotalBurst(ps)
    ensures tw >= 0
  {
    WaitingIdentity(ps, completion, AllDone(|ps|), |ps|);
    WaitingSumNonNegative(ps, completion, AllDone(|ps|), |ps|);
  }
}
