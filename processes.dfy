/** Processes, Gantt chart labels, and the helpers every scheduling strategy shares. */
module Processes {

  /** The record each strategy receives: `{id, arrivalTime, burstTime, priority}`. */
  datatype Process = Process(id: int, arrivalTime: int, burstTime: int, priority: int)

  /** One Gantt chart label, carrying the same information as the strings the strategies push. */
  datatype Entry =
    | Run(id: int)                  // `P{id}`
    | RunFor(id: int, amount: int)  // `P{id}({amount})`
    | Idle                          // `idle`
    | IdleFor(gap: int)             // `idle({gap})`

  /** An average as the division the source performs, `total / count`, kept exact. */
  datatype Average = Ratio(total: int, count: nat)

  /** What the dispatcher hands back: the chart and the average turnaround and waiting times. */
  datatype Outcome = Outcome(chart: seq<Entry>, avgTurnaround: Average, avgWaiting: Average)

  /** Every burst is at least one time unit. */
  predicate PositiveBursts(ps: seq<Process>) {
    forall i :: 0 <= i < |ps| ==> ps[i].burstTime >= 1
  }

  /** `Math.max` on integers. */
  function Max(a: int, b: int): int { if a < b then b else a }

  /** `Math.min` on integers. */
  function Min(a: int, b: int): int { if b < a then b else a }

  /** `processes.map(p => p.burstTime)`. */
  function Bursts(ps: seq<Process>): (r: seq<int>)
    ensures |r| == |ps| && forall i :: 0 <= i < |ps| ==> r[i] == ps[i].burstTime
  {
    seq(|ps|, i requires 0 <= i < |ps| => ps[i].burstTime)
  }

  /** The priority of every process, in input order. */
  function Priorities(ps: seq<Process>): (r: seq<int>)
    ensures |r| == |ps| && forall i :: 0 <= i < |ps| ==> r[i] == ps[i].priority
  {
    seq(|ps|, i requires 0 <= i < |ps| => ps[i].priority)
  }

  /** The completion flags that go with a vector of remaining times: done exactly at zero. */
  function Finished(rem: seq<int>): (r: seq<bool>)
    ensures |r| == |rem| && forall i :: 0 <= i < |rem| ==> (r[i] <==> rem[i] == 0)
  {
    seq(|rem|, i requires 0 <= i < |rem| => rem[i] == 0)
  }

  /** The indices `a, a + 1, ..., b - 1`, in increasing order. */
  function Range(a: nat, b: nat): (r: seq<nat>)
    ensures |r| == if a <= b then b - a else 0
    ensures forall k :: 0 <= k < |r| ==> r[k] == a + k
    decreases b
  {
    if b <= a then [] else Range(a, b - 1) + [b - 1]
  }

  /** Each index of `[a, b)` occurs once in `Range(a, b)`, and nothing else occurs. */
  lemma {:induction false} RangeMultiset(a: nat, b: nat)
    ensures forall x :: multiset(Range(a, b))[x] == if a <= x < b then 1 else 0
    decreases b
  {
    if b > a {
      RangeMultiset(a, b - 1);
      assert Range(a, b) == Range(a, b - 1) + [b - 1];
    }
  }

  /** The sum of a sequence of integers. */
  function Sum(s: seq<int>): int {
    if s == [] then 0 else s[0] + Sum(s[1..])
  }

  lemma {:induction false} SumNonNegative(s: seq<int>)
    requires forall k :: 0 <= k < |s| ==> s[k] >= 0
    ensures Sum(s) >= 0
  {
    if s != [] {
      SumNonNegative(s[1..]);
    }
  }

  /** Overwriting one element changes the sum by the difference. */
  lemma {:induction false} SumUpdate(s: seq<int>, i: nat, v: int)
    requires i < |s|
    ensures Sum(s[i := v]) == Sum(s) - s[i] + v
  {
    if i == 0 {
      assert s[i := v][1..] == s[1..];
    } else {
      assert s[i := v][1..] == s[1..][i - 1 := v];
      SumUpdate(s[1..], i - 1, v);
    }
  }

  /** The number of `true` entries, i.e. `completedProcesses` for a vector of completion flags. */
  function CountTrue(s: seq<bool>): (r: nat)
    ensures r <= |s|
  {
    if s == [] then 0 else (if s[0] then 1 else 0) + CountTrue(s[1..])
  }

  lemma {:induction false} CountTrueSet(s: seq<bool>, i: nat)
    requires i < |s| && !s[i]
    ensures CountTrue(s[i := true]) == CountTrue(s) + 1
  {
    if i == 0 {
      assert s[i := true][1..] == s[1..];
    } else {
      assert s[i := true][1..] == s[1..][i - 1 := true];
      CountTrueSet(s[1..], i - 1);
    }
  }

  /** The count reaches the length exactly when every flag is set. */
  lemma {:induction false} CountTrueFull(s: seq<bool>)
    ensures CountTrue(s) == |s| <==> forall k :: 0 <= k < |s| ==> s[k]
  {
    if s != [] {
      CountTrueFull(s[1..]);
      if CountTrue(s) == |s| {
        forall k | 0 <= k < |s| ensures s[k] {
          if k > 0 { assert s[k] == s[1..][k - 1]; }
        }
      }
      if forall k :: 0 <= k < |s| ==> s[k] {
        assert forall k :: 0 <= k < |s[1..]| ==> s[1..][k] == s[k + 1];
      }
    }
  }

  /** No flag set: the count is zero. */
  lemma {:induction false} CountTrueNone(s: seq<bool>)
    requires forall k :: 0 <= k < |s| ==> !s[k]
    ensures CountTrue(s) == 0
  {
    if s != [] {
      assert forall k :: 0 <= k < |s[1..]| ==> s[1..][k] == s[k + 1];
      CountTrueNone(s[1..]);
    }
  }

  /** The largest arrival time, or 0 for no process: an upper bound on every idle stretch. */
  function LatestArrival(ps: seq<Process>): (r: int)
    ensures forall i :: 0 <= i < |ps| ==> ps[i].arrivalTime <= r
  {
    if ps == [] then 0 else Max(ps[0].arrivalTime, LatestArrival(ps[1..]))
  }

  /** Process `i` has arrived by `time` and is not completed. */
  ghost predicate Eligible(ps: seq<Process>, done: seq<bool>, time: int, i: int)
    requires |done| == |ps|
  {
    0 <= i < |ps| && ps[i].arrivalTime <= time && !done[i]
  }

  /**
   * The selection rule of the scans in sjf, srtf and priorityPreemptive: `c` is -1 when no
   * process is eligible, and otherwise an eligible process of least key whose key is strictly
   * below that of every eligible process with a smaller index (ties go to the lowest index).
   */
  ghost predicate IsChoice(ps: seq<Process>, keys: seq<int>, done: seq<bool>, time: int, c: int)
    requires |keys| == |ps| && |done| == |ps|
  {
    if c == -1 then
      forall i :: 0 <= i < |ps| ==> !Eligible(ps, done, time, i)
    else
      && Eligible(ps, done, time, c)
      && (forall j :: 0 <= j < |ps| && Eligible(ps, done, time, j) ==> keys[c] <= keys[j])
      && (forall j :: 0 <= j < c && Eligible(ps, done, time, j) ==> keys[c] < keys[j])
  }
}
