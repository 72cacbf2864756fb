/**
 * The linear scan that sjf, srtf and priorityPreemptive run before every decision: keep the
 * eligible process whose key is strictly below the best seen so far, starting from Infinity.
 */
module Selection {
  import opened Processes

  /**
   * The scan over `keys` (burst times for sjf, remaining times for srtf, priorities for
   * priorityPreemptive). `idx == -1` plays the part of `minKey == Infinity`: the first eligible
   * process is always taken, and later ones only when strictly smaller.
   */
  method SelectMin(ps: seq<Process>, keys: seq<int>, done: seq<bool>, time: int) returns (idx: int)
    requires |keys| == |ps| && |done| == |ps|
    ensures IsChoice(ps, keys, done, time, idx)
  {
    idx := -1;
    var best := 0;
    for i := 0 to |ps|
      invariant idx == -1 ==> forall j :: 0 <= j < i ==> !Eligible(ps, done, time, j)
      invariant idx != -1 ==> 0 <= idx < i && Eligible(ps, done, time, idx) && best == keys[idx]
      invariant idx != -1 ==> forall j :: 0 <= j < i && Eligible(ps, done, time, j) ==> best <= keys[j]
      invariant idx != -1 ==> forall j :: 0 <= j < idx && Eligible(ps, done, time, j) ==> best < keys[j]
    {
      if ps[i].arrivalTime <= time && !done[i] && (idx == -1 || keys[i] < best) {
        best := keys[i];
        idx := i;
      }
    }
  }

  /** The selection rule leaves no freedom: at most one process satisfies it. */
  lemma ChoiceUnique(ps: seq<Process>, keys: seq<int>, done: seq<bool>, time: int, c: int, d: int)
    requires |keys| == |ps| && |done| == |ps|
    requires IsChoice(ps, keys, done, time, c) && IsChoice(ps, keys, done, time, d)
    ensures c == d
  {
  }

  /**
   * When the scan finds nothing while some process is unfinished, that process has not arrived
   * yet: the clock is below the latest arrival, so the idle ticks cannot go on forever.
   */
  lemma IdleBeforeLatestArrival(ps: seq<Process>, keys: seq<int>, done: seq<bool>, time: int)
    requires |keys| == |ps| && |done| == |ps|
    requires IsChoice(ps, keys, done, time, -1) && CountTrue(done) < |ps|
    ensures time < LatestArrival(ps)
  {
    CountTrueFull(done);
    var i :| 0 <= i < |done| && !done[i];
    assert !Eligible(ps, done, time, i);
  }
}
