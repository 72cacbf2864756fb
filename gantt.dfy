/**
 * The Gantt chart of srtf and priorityPreemptive as a fold over the per-tick decisions, and the
 * time the labels of fcfs account for.
 */
module Gantt {
  import opened Processes

  /** The decision of one tick: -1 for an idle tick, otherwise the index of the process that ran. */
  ghost predicate ValidTicks(ps: seq<Process>, ticks: seq<int>) {
    forall t :: 0 <= t < |ticks| ==> -1 <= ticks[t] < |ps|
  }

  /** The label of one tick: `idle`, or `P{id}` of the process that ran. */
  function TickLabel(ps: seq<Process>, c: int): Entry
    requires -1 <= c < |ps|
  {
    if c == -1 then Idle else Run(ps[c].id)
  }

  /** One push: a process label only when it differs from the last entry, `idle` always. */
  function Push(chart: seq<Entry>, e: Entry): seq<Entry> {
    if e.Run? && chart != [] && chart[|chart| - 1] == e then chart else chart + [e]
  }

  /** The chart built tick by tick from the decisions `ticks`. */
  ghost function Coalesce(ps: seq<Process>, ticks: seq<int>): seq<Entry>
    requires ValidTicks(ps, ticks)
  {
    if ticks == [] then []
    else Push(Coalesce(ps, ticks[..|ticks| - 1]), TickLabel(ps, ticks[|ticks| - 1]))
  }

  lemma CoalesceSnoc(ps: seq<Process>, ticks: seq<int>, c: int)
    requires ValidTicks(ps, ticks) && -1 <= c < |ps|
    ensures ValidTicks(ps, ticks + [c])
    ensures Coalesce(ps, ticks + [c]) == Push(Coalesce(ps, ticks), TickLabel(ps, c))
  {
    assert (ticks + [c])[..|ticks|] == ticks;
  }

  /** No two adjacent entries name the same process. */
  ghost predicate NoRepeatedRun(chart: seq<Entry>) {
    forall k :: 0 <= k < |chart| - 1 ==> !(chart[k].Run? && chart[k] == chart[k + 1])
  }

  /** How many ticks were idle. */
  function IdleTicks(ticks: seq<int>): nat {
    if ticks == [] then 0 else IdleTicks(ticks[..|ticks| - 1]) + (if ticks[|ticks| - 1] == -1 then 1 else 0)
  }

  /** How many `idle` labels the chart holds. */
  function IdleLabels(chart: seq<Entry>): nat {
    if chart == [] then 0 else IdleLabels(chart[..|chart| - 1]) + (if chart[|chart| - 1] == Idle then 1 else 0)
  }

  /**
   * Coalescing merges only runs of the same process: no two adjacent entries repeat a process,
   * every idle tick keeps its own `idle` label, the chart is never longer than the run of
   * ticks, and its last entry is the label of the last tick.
   */
  lemma {:induction false} CoalesceShape(ps: seq<Process>, ticks: seq<int>)
    requires ValidTicks(ps, ticks)
    ensures NoRepeatedRun(Coalesce(ps, ticks))
    ensures IdleLabels(Coalesce(ps, ticks)) == IdleTicks(ticks)
    ensures |Coalesce(ps, ticks)| <= |ticks|
    ensures ticks != [] ==> Coalesce(ps, ticks) != [] && Coalesce(ps, ticks)[|Coalesce(ps, ticks)| - 1] == TickLabel(ps, ticks[|ticks| - 1])
  {
    if ticks != [] {
      var prefix := ticks[..|ticks| - 1];
      var chart := Coalesce(ps, prefix);
      var e := TickLabel(ps, ticks[|ticks| - 1]);
      CoalesceShape(ps, prefix);
      if e.Run? && chart != [] && chart[|chart| - 1] == e {
        assert Coalesce(ps, ticks) == chart;
      } else {
        var r := chart + [e];
        assert Coalesce(ps, ticks) == r;
        assert r[..|r| - 1] == chart;
        forall k | 0 <= k < |r| - 1 ensures !(r[k].Run? && r[k] == r[k + 1]) {
          if k < |chart| - 1 {
            assert r[k] == chart[k] && r[k + 1] == chart[k + 1];
          }
        }
      }
    }
  }

  /** The time an fcfs label accounts for: the burst of `P{id}({burst})`, the gap of `idle({gap})`. */
  function LabelTime(e: Entry): int {
    match e
    case RunFor(_, amount) => amount
    case IdleFor(gap) => gap
    case _ => 0
  }

  /** The time all labels of a chart account for. */
  function Elapsed(chart: seq<Entry>): int {
    if chart == [] then 0 else Elapsed(chart[..|chart| - 1]) + LabelTime(chart[|chart| - 1])
  }

  /** One more label adds the time it accounts for. */
  lemma ElapsedPush(chart: seq<Entry>, e: Entry)
    ensures Elapsed(chart + [e]) == Elapsed(chart) + LabelTime(e)
  {
    assert (chart + [e])[..|chart|] == chart;
  }
}
