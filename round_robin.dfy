/**
 * Round robin: a FIFO queue of admitted processes; the head runs for `min(quantum,
 * remaining)` units, and if it is not finished, the processes that arrived meanwhile are
 * admitted before it is put back at the tail. Admission walks the input in index order with
 * the cursor `arrivalIndex` and stops at the first process that has not arrived yet; the input
 * is not sorted first.
 */
module RoundRobin {
  import opened Processes
  import opened Metrics

  /** One dispatch: process `idx` ran from `start` for `amount` time units. */
  datatype Slice = Slice(idx: nat, start: int, amount: int)

  /** The time units process `i` has been given by the slices. */
  function Ran(slices: seq<Slice>, i: nat): int {
    if slices == [] then 0
    else Ran(slices[..|slices| - 1], i) + (if slices[|slices| - 1].idx == i then slices[|slices| - 1].amount else 0)
  }

  /** The remaining times after the slices: each burst less the time the process was given. */
  function SliceRemaining(ps: seq<Process>, slices: seq<Slice>): (r: seq<int>)
    ensures |r| == |ps| && forall i :: 0 <= i < |ps| ==> r[i] == ps[i].burstTime - Ran(slices, i)
  {
    seq(|ps|, i requires 0 <= i < |ps| => ps[i].burstTime - Ran(slices, i))
  }

  /** The end of the last slice of process `i` (0 when it has none). */
  function LastEnd(slices: seq<Slice>, i: nat): int {
    if slices == [] then 0
    else if slices[|slices| - 1].idx == i then slices[|slices| - 1].start + slices[|slices| - 1].amount
    else LastEnd(slices[..|slices| - 1], i)
  }

  /** One more slice gives time to its own process only. */
  lemma SliceSnoc(ps: seq<Process>, slices: seq<Slice>, s: Slice)
    requires s.idx < |ps|
    ensures forall i: nat :: Ran(slices + [s], i) == Ran(slices, i) + (if s.idx == i then s.amount else 0)
    ensures forall i: nat :: LastEnd(slices + [s], i) == if s.idx == i then s.start + s.amount else LastEnd(slices, i)
    ensures SliceRemaining(ps, slices + [s]) == SliceRemaining(ps, slices)[s.idx := SliceRemaining(ps, slices)[s.idx] - s.amount]
  {
    assert (slices + [s])[..|slices|] == slices;
  }

  /**
   * Slice `k` obeys the round-robin rule: it ran an unfinished process, for the quantum or
   * what remained of it if less, no earlier than its arrival and not before the previous
   * slice ended.
   */
  ghost predicate ValidSlice(ps: seq<Process>, quantum: int, slices: seq<Slice>, k: nat)
    requires k < |slices|
  {
    var s := slices[k];
    var rem := SliceRemaining(ps, slices[..k]);
    && s.idx < |ps|
    && rem[s.idx] > 0
    && s.amount == Min(quantum, rem[s.idx])
    && ps[s.idx].arrivalTime <= s.start
    && (k > 0 ==> slices[k - 1].start + slices[k - 1].amount <= s.start)
  }

  /** Every slice of the run obeys the rule. */
  ghost predicate RoundRobinRun(ps: seq<Process>, quantum: int, slices: seq<Slice>) {
    forall k :: 0 <= k < |slices| ==> ValidSlice(ps, quantum, slices, k)
  }

  /** The chart of a run: `P{id}` for each slice, in order, never merged. */
  function SliceLabels(ps: seq<Process>, slices: seq<Slice>): (r: seq<Entry>)
    requires forall k :: 0 <= k < |slices| ==> slices[k].idx < |ps|
    ensures |r| == |slices| && forall k :: 0 <= k < |slices| ==> r[k] == Run(ps[slices[k].idx].id)
  {
    seq(|slices|, k requires 0 <= k < |slices| => Run(ps[slices[k].idx].id))
  }

  /**
   * Where admission stops: the first index from `c` on whose process has not arrived by
   * `time`, or the end of the list. Admission is in index order, so a process that has
   * arrived waits behind an earlier one that has not.
   */
  function AdmitEnd(ps: seq<Process>, c: nat, time: int): (r: nat)
    requires c <= |ps|
    ensures c <= r <= |ps|
    ensures forall i :: c <= i < r ==> ps[i].arrivalTime <= time
    ensures r < |ps| ==> time < ps[r].arrivalTime
    decreases |ps| - c
  {
    if c < |ps| && ps[c].arrivalTime <= time then AdmitEnd(ps, c + 1, time) else c
  }

  /**
   * The state of roundRobin just after a slice (or at the start): the ready queue, the
   * arrival cursor, the clock and the remaining times.
   */
  datatype Pending = Pending(queue: seq<nat>, cursor: nat, time: int, rem: seq<int>)

  /**
   * When the next slice starts: at once if a process is queued; otherwise the clock ticks
   * idle until the process at the cursor arrives.
   */
  function DispatchTime(ps: seq<Process>, p: Pending): (t: int)
    requires p.cursor <= |ps|
    ensures p.time <= t
    ensures p.queue != [] || p.cursor == |ps| ==> t == p.time
  {
    if p.queue == [] && p.cursor < |ps| then Max(p.time, ps[p.cursor].arrivalTime) else p.time
  }

  /** The queue the next slice is taken from: the waiting processes, then the new arrivals. */
  function HeadQueue(ps: seq<Process>, p: Pending): (q: seq<nat>)
    requires p.cursor <= |ps|
  {
    p.queue + Range(p.cursor, AdmitEnd(ps, p.cursor, DispatchTime(ps, p)))
  }

  /** A next slice exists: some process is ready at the dispatch time. */
  predicate CanDispatch(ps: seq<Process>, p: Pending) {
    p.cursor <= |ps| && |p.rem| == |ps| && HeadQueue(ps, p) != [] && HeadQueue(ps, p)[0] < |ps|
  }

  /** The next slice: the head of the queue runs from the dispatch time for the quantum or what remains. */
  function SliceOf(ps: seq<Process>, quantum: int, p: Pending): (s: Slice)
    requires CanDispatch(ps, p)
    ensures s.idx == HeadQueue(ps, p)[0] && s.start == DispatchTime(ps, p)
    ensures s.amount == Min(quantum, p.rem[s.idx])
  {
    var x := HeadQueue(ps, p)[0];
    Slice(x, DispatchTime(ps, p), Min(quantum, p.rem[x]))
  }

  /**
   * The state after the next slice: a head that finished leaves the queue; otherwise the
   * processes that arrived by the end of the slice are admitted first and the head goes back
   * behind them.
   */
  function Next(ps: seq<Process>, quantum: int, p: Pending): (p': Pending)
    requires CanDispatch(ps, p)
    ensures p'.time == DispatchTime(ps, p) + SliceOf(ps, quantum, p).amount
  {
    var q := HeadQueue(ps, p);
    var c := AdmitEnd(ps, p.cursor, DispatchTime(ps, p));
    var s := SliceOf(ps, quantum, p);
    var rem' := p.rem[s.idx := p.rem[s.idx] - s.amount];
    var t' := s.start + s.amount;
    if rem'[s.idx] == 0 then Pending(q[1..], c, t', rem')
    else
      var c' := AdmitEnd(ps, c, t');
      Pending(q[1..] + Range(c, c') + [s.idx], c', t', rem')
  }

  /** Slice `k` of a trace is the one its state `pend[k]` dispatches, and leads to `pend[k + 1]`. */
  ghost predicate Dispatches(ps: seq<Process>, quantum: int, slices: seq<Slice>, pend: seq<Pending>, k: nat)
    requires k < |slices| && |pend| == |slices| + 1
  {
    CanDispatch(ps, pend[k]) && slices[k] == SliceOf(ps, quantum, pend[k]) && pend[k + 1] == Next(ps, quantum, pend[k])
  }

  /**
   * The round-robin schedule: from the empty queue at time 0, every slice is the one the
   * FIFO discipline dispatches next.
   */
  ghost predicate Schedule(ps: seq<Process>, quantum: int, slices: seq<Slice>, pend: seq<Pending>) {
    && |pend| == |slices| + 1
    && pend[0] == Pending([], 0, 0, Bursts(ps))
    && forall k :: 0 <= k < |slices| ==> Dispatches(ps, quantum, slices, pend, k)
  }

  /**
   * Once every process has been admitted, round robin is a plain rotation: the head runs for
   * the quantum or what remains of it at once, and goes back to the tail unless it finished.
   */
  lemma Rotation(ps: seq<Process>, quantum: int, p: Pending)
    requires p.cursor == |ps| && |p.rem| == |ps| && p.queue != [] && p.queue[0] < |ps|
    ensures CanDispatch(ps, p)
    ensures var x := p.queue[0]; var a := Min(quantum, p.rem[x]); var rem' := p.rem[x := p.rem[x] - a];
            && SliceOf(ps, quantum, p) == Slice(x, p.time, a)
            && Next(ps, quantum, p) == Pending(if rem'[x] == 0 then p.queue[1..] else p.queue[1..] + [x], |ps|, p.time + a, rem')
  {
    assert AdmitEnd(ps, |ps|, p.time) == |ps|;
    assert HeadQueue(ps, p) == p.queue;
    var x := p.queue[0];
    var t' := p.time + Min(quantum, p.rem[x]);
    assert AdmitEnd(ps, |ps|, t') == |ps|;
  }

  /** The two processes of the example below. */
  const Pair := [Process(1, 0, 2, 0), Process(2, 0, 2, 0)]

  /** The first slice of the example: both processes are admitted at time 0 and P1 runs. */
  lemma PairOpens()
    ensures CanDispatch(Pair, Pending([], 0, 0, [2, 2]))
    ensures SliceOf(Pair, 1, Pending([], 0, 0, [2, 2])) == Slice(0, 0, 1)
    ensures Next(Pair, 1, Pending([], 0, 0, [2, 2])) == Pending([1, 0], 2, 1, [1, 2])
  {
    var p := Pending([], 0, 0, [2, 2]);
    assert DispatchTime(Pair, p) == 0;
    assert AdmitEnd(Pair, 0, 0) == 2 by {
      assert AdmitEnd(Pair, 2, 0) == 2;
    }
    assert HeadQueue(Pair, p) == [0, 1];
    assert AdmitEnd(Pair, 2, 1) == 2;
    assert [0, 1][1..] + Range(2, 2) + [0] == [1, 0];
  }

  /**
   * Two processes that arrive together with a burst of 2, quantum 1: they take turns, P1, P2,
   * P1, P2, and no other sequence of slices is a round-robin schedule of that input.
   */
  lemma TakeTurns(slices: seq<Slice>, pend: seq<Pending>)
    requires Schedule(Pair, 1, slices, pend) && Drained(Pair, pend[|pend| - 1])
    ensures slices == [Slice(0, 0, 1), Slice(1, 1, 1), Slice(0, 2, 1), Slice(1, 3, 1)]
  {
    var turns := [Slice(0, 0, 1), Slice(1, 1, 1), Slice(0, 2, 1), Slice(1, 3, 1)];
    var states := [Pending([], 0, 0, [2, 2]), Pending([1, 0], 2, 1, [1, 2]), Pending([0, 1], 2, 2, [1, 1]),
                   Pending([1], 2, 3, [0, 1]), Pending([], 2, 4, [0, 0])];
    assert Bursts(Pair) == [2, 2];
    PairOpens();
    Rotation(Pair, 1, states[1]);
    Rotation(Pair, 1, states[2]);
    Rotation(Pair, 1, states[3]);
    assert Dispatches(Pair, 1, turns, states, 0);
    assert Dispatches(Pair, 1, turns, states, 1);
    assert Dispatches(Pair, 1, turns, states, 2);
    assert Dispatches(Pair, 1, turns, states, 3);
    ScheduleUnique(Pair, 1, slices, pend, turns, states);
  }

  /** A schedule extends by the slice its last state dispatches. */
  lemma {:induction false} ScheduleSnoc(ps: seq<Process>, quantum: int, slices: seq<Slice>, pend: seq<Pending>)
    requires Schedule(ps, quantum, slices, pend) && CanDispatch(ps, pend[|pend| - 1])
    ensures var p := pend[|pend| - 1];
            Schedule(ps, quantum, slices + [SliceOf(ps, quantum, p)], pend + [Next(ps, quantum, p)])
  {
    var p := pend[|pend| - 1];
    var slices', pend' := slices + [SliceOf(ps, quantum, p)], pend + [Next(ps, quantum, p)];
    forall k | 0 <= k < |slices'| ensures Dispatches(ps, quantum, slices', pend', k) {
      if k < |slices| {
        assert Dispatches(ps, quantum, slices, pend, k);
      }
    }
  }

  /** Nothing is queued and every process has been admitted. */
  predicate Drained(ps: seq<Process>, p: Pending) {
    p.queue == [] && p.cursor == |ps|
  }

  /** A drained state dispatches nothing. */
  lemma DrainedStops(ps: seq<Process>, p: Pending)
    requires Drained(ps, p)
    ensures !CanDispatch(ps, p)
  {
    assert AdmitEnd(ps, p.cursor, DispatchTime(ps, p)) == |ps|;
    assert HeadQueue(ps, p) == [];
  }

  /** Two schedules of the same input agree on their first `k` slices and states. */
  lemma {:induction false} ScheduleAgree(ps: seq<Process>, quantum: int, slices1: seq<Slice>, pend1: seq<Pending>,
                                         slices2: seq<Slice>, pend2: seq<Pending>, k: nat)
    requires Schedule(ps, quantum, slices1, pend1) && Schedule(ps, quantum, slices2, pend2)
    requires k <= |slices1| && k <= |slices2|
    ensures pend1[k] == pend2[k] && slices1[..k] == slices2[..k]
  {
    if k > 0 {
      ScheduleAgree(ps, quantum, slices1, pend1, slices2, pend2, k - 1);
      assert Dispatches(ps, quantum, slices1, pend1, k - 1);
      assert Dispatches(ps, quantum, slices2, pend2, k - 1);
      assert slices1[..k] == slices1[..k - 1] + [slices1[k - 1]];
      assert slices2[..k] == slices2[..k - 1] + [slices2[k - 1]];
    }
  }

  /** The schedule that runs until drained is unique: round robin leaves no choice. */
  lemma {:induction false} ScheduleUnique(ps: seq<Process>, quantum: int, slices1: seq<Slice>, pend1: seq<Pending>,
                       slices2: seq<Slice>, pend2: seq<Pending>)
    requires Schedule(ps, quantum, slices1, pend1) && Drained(ps, pend1[|pend1| - 1])
    requires Schedule(ps, quantum, slices2, pend2) && Drained(ps, pend2[|pend2| - 1])
    ensures slices1 == slices2 && pend1 == pend2
  {
    if |slices1| < |slices2| {
      ScheduleAgree(ps, quantum, slices1, pend1, slices2, pend2, |slices1|);
      assert Dispatches(ps, quantum, slices2, pend2, |slices1|);
      DrainedStops(ps, pend1[|slices1|]);
    } else if |slices2| < |slices1| {
      ScheduleAgree(ps, quantum, slices1, pend1, slices2, pend2, |slices2|);
      assert Dispatches(ps, quantum, slices1, pend1, |slices2|);
      DrainedStops(ps, pend2[|slices2|]);
    } else {
      ScheduleAgree(ps, quantum, slices1, pend1, slices2, pend2, |slices1|);
      forall k | 0 <= k < |pend1| ensures pend1[k] == pend2[k] {
        ScheduleAgree(ps, quantum, slices1, pend1, slices2, pend2, k);
      }
      assert slices1 == slices1[..|slices1|];
      assert slices2 == slices2[..|slices2|];
    }
  }

  /**
   * The admission loop (it appears twice in roundRobin): the processes from the cursor on are
   * appended to the queue in index order while they have arrived by `time`; the cursor stops
   * at the end or at the first process that has not arrived.
   */
  method AdmitArrivals(ps: seq<Process>, queue: seq<nat>, arrivalIndex: nat, time: int)
    returns (queue': seq<nat>, arrivalIndex': nat)
    requires arrivalIndex <= |ps|
    ensures arrivalIndex <= arrivalIndex' <= |ps|
    ensures queue' == queue + Range(arrivalIndex, arrivalIndex')
    ensures forall i :: arrivalIndex <= i < arrivalIndex' ==> ps[i].arrivalTime <= time
    ensures arrivalIndex' < |ps| ==> time < ps[arrivalIndex'].arrivalTime
    ensures arrivalIndex' == AdmitEnd(ps, arrivalIndex, time)
  {
    queue', arrivalIndex' := queue, arrivalIndex;
    while arrivalIndex' < |ps| && ps[arrivalIndex'].arrivalTime <= time
      invariant arrivalIndex <= arrivalIndex' <= |ps|
      invariant AdmitEnd(ps, arrivalIndex', time) == AdmitEnd(ps, arrivalIndex, time)
      invariant queue' == queue + Range(arrivalIndex, arrivalIndex')
      invariant forall i :: arrivalIndex <= i < arrivalIndex' ==> ps[i].arrivalTime <= time
    {
      queue' := queue' + [arrivalIndex'];
      arrivalIndex' := arrivalIndex' + 1;
    }
  }

  /**
   * The queue discipline: the queue holds, once each, exactly the admitted processes that are
   * not finished; every admitted process arrived by `time`; the processes past the cursor
   * have not run.
   */
  ghost predicate QueueState(ps: seq<Process>, queue: seq<nat>, arrivalIndex: nat, rem: seq<int>, time: int)
    requires |rem| == |ps|
  {
    && arrivalIndex <= |ps|
    && (forall k :: 0 <= k < |queue| ==> queue[k] < arrivalIndex && rem[queue[k]] > 0)
    && (forall j, k :: 0 <= j < k < |queue| ==> queue[j] != queue[k])
    && (forall i :: 0 <= i < arrivalIndex && rem[i] > 0 ==> i in queue)
    && (forall i :: 0 <= i < arrivalIndex ==> ps[i].arrivalTime <= time)
    && (forall i :: arrivalIndex <= i < |ps| ==> rem[i] == ps[i].burstTime)
  }

  /** Admission keeps the queue discipline: the new processes are fresh and have arrived. */
  lemma AdmitKeeps(ps: seq<Process>, queue: seq<nat>, arrivalIndex: nat, rem: seq<int>, time: int, arrivalIndex': nat)
    requires PositiveBursts(ps) && |rem| == |ps|
    requires QueueState(ps, queue, arrivalIndex, rem, time)
    requires arrivalIndex <= arrivalIndex' <= |ps|
    requires forall i :: arrivalIndex <= i < arrivalIndex' ==> ps[i].arrivalTime <= time
    ensures QueueState(ps, queue + Range(arrivalIndex, arrivalIndex'), arrivalIndex', rem, time)
  {
    var q := queue + Range(arrivalIndex, arrivalIndex');
    forall j, k | 0 <= j < k < |q| ensures q[j] != q[k] {
      if j < |queue| && k >= |queue| {
        assert q[k] == arrivalIndex + (k - |queue|);
      }
    }
    forall i | 0 <= i < arrivalIndex' && rem[i] > 0 ensures i in q {
      if i >= arrivalIndex {
        assert q[|queue| + (i - arrivalIndex)] == i;
      }
    }
  }

  /** The clock moves forward: every admitted process has still arrived. */
  lemma QueueLater(ps: seq<Process>, queue: seq<nat>, arrivalIndex: nat, rem: seq<int>, time: int, time': int)
    requires |rem| == |ps| && QueueState(ps, queue, arrivalIndex, rem, time) && time <= time'
    ensures QueueState(ps, queue, arrivalIndex, rem, time')
  {
  }

  /**
   * Taking the head `x` off the queue: the rest keeps the discipline once `x` is counted as
   * finished, since each process is queued at most once.
   */
  lemma QueuePop(ps: seq<Process>, queue: seq<nat>, arrivalIndex: nat, rem: seq<int>, time: int, time': int)
    requires |rem| == |ps| && QueueState(ps, queue, arrivalIndex, rem, time) && queue != [] && time <= time'
    ensures QueueState(ps, queue[1..], arrivalIndex, rem[queue[0] := 0], time')
  {
    var x := queue[0];
    var rem' := rem[x := 0];
    forall k | 0 <= k < |queue[1..]| ensures queue[1..][k] != x {
      assert queue[1..][k] == queue[k + 1];
    }
    forall i | 0 <= i < arrivalIndex && rem'[i] > 0 ensures i in queue[1..] {
      assert i in queue;
      var k :| 0 <= k < |queue| && queue[k] == i;
      assert queue[1..][k - 1] == i;
    }
  }

  /** A head that the slice finished leaves the queue for good. */
  lemma QueueFinish(ps: seq<Process>, queue: seq<nat>, arrivalIndex: nat, rem: seq<int>, time: int, a: int, time': int)
    requires |rem| == |ps| && QueueState(ps, queue, arrivalIndex, rem, time) && queue != []
    requires rem[queue[0]] - a == 0 && time <= time'
    ensures QueueState(ps, queue[1..], arrivalIndex, rem[queue[0] := rem[queue[0]] - a], time')
  {
    QueuePop(ps, queue, arrivalIndex, rem, time, time');
    assert rem[queue[0] := rem[queue[0]] - a] == rem[queue[0] := 0];
  }

  /**
   * A head `x` that the slice left unfinished goes back at the tail, behind everything
   * already queued, including the processes admitted at the end of its slice.
   */
  lemma QueuePush(ps: seq<Process>, queue: seq<nat>, arrivalIndex: nat, rem: seq<int>, time: int, x: nat, a: int)
    requires |rem| == |ps| && x < arrivalIndex <= |ps| && QueueState(ps, queue, arrivalIndex, rem[x := 0], time)
    requires rem[x] - a > 0
    ensures QueueState(ps, queue + [x], arrivalIndex, rem[x := rem[x] - a], time)
  {
    var rem0, rem' := rem[x := 0], rem[x := rem[x] - a];
    forall k | 0 <= k < |queue| ensures queue[k] != x {
      assert rem0[queue[k]] > 0;
    }
    forall i | 0 <= i < arrivalIndex && rem'[i] > 0 ensures i in queue + [x] {
      if i != x {
        assert rem0[i] > 0;
      }
    }
  }

  /**
   * An unfinished head goes back at the tail, after the processes admitted at the end of its
   * slice: the queue discipline holds again at the new clock.
   */
  lemma QueueRequeue(ps: seq<Process>, queue: seq<nat>, arrivalIndex: nat, rem: seq<int>, time: int,
                     a: int, time': int, arrivalIndex': nat)
    requires PositiveBursts(ps) && |rem| == |ps| && QueueState(ps, queue, arrivalIndex, rem, time) && queue != []
    requires rem[queue[0]] - a > 0 && time <= time'
    requires arrivalIndex <= arrivalIndex' <= |ps|
    requires forall i :: arrivalIndex <= i < arrivalIndex' ==> ps[i].arrivalTime <= time'
    ensures QueueState(ps, queue[1..] + Range(arrivalIndex, arrivalIndex') + [queue[0]], arrivalIndex',
                       rem[queue[0] := rem[queue[0]] - a], time')
  {
    QueuePop(ps, queue, arrivalIndex, rem, time, time');
    AdmitKeeps(ps, queue[1..], arrivalIndex, rem[queue[0] := 0], time', arrivalIndex');
    QueuePush(ps, queue[1..] + Range(arrivalIndex, arrivalIndex'), arrivalIndex', rem, time', queue[0], a);
  }

  /**
   * The slices `slices` with the clock at `time`: `rem` is what the slices leave, every slice
   * obeyed the rule and ended by `time`, and no process was given more time than has passed
   * since its arrival.
   */
  ghost predicate RunCore(ps: seq<Process>, quantum: int, slices: seq<Slice>, rem: seq<int>, time: int) {
    && rem == SliceRemaining(ps, slices)
    && (forall k :: 0 <= k < |slices| ==> slices[k].idx < |ps|)
    && RoundRobinRun(ps, quantum, slices)
    && (|slices| > 0 ==> slices[|slices| - 1].start + slices[|slices| - 1].amount <= time)
    && (forall i :: 0 <= i < |ps| ==> rem[i] >= 0 && Ran(slices, i) <= Max(0, time - ps[i].arrivalTime))
  }

  /**
   * The state of the run after the slices `slices`, with the clock at `time`: the slices so far
   * (`RunCore`), each finished process completed at the end of its last slice after waiting no
   * negative time, and `tt`, `tw` sum the turnaround and waiting times of the finished
   * processes.
   */
  ghost predicate RunState(ps: seq<Process>, quantum: int, slices: seq<Slice>, completion: seq<int>,
                           rem: seq<int>, time: int, tt: int, tw: int) {
    && RunCore(ps, quantum, slices, rem, time)
    && |completion| == |ps|
    && (forall i :: 0 <= i < |ps| && rem[i] == 0 ==>
          completion[i] == LastEnd(slices, i) && Waiting(ps[i], completion[i]) >= 0)
    && tt == TurnaroundSum(ps, completion, Finished(rem), |ps|)
    && tw == WaitingSum(ps, completion, Finished(rem), |ps|)
  }

  /** A slice appended to a run that obeys the rule, and itself obeying it, keeps it so. */
  lemma RunSnoc(ps: seq<Process>, quantum: int, slices: seq<Slice>, s: Slice)
    requires RoundRobinRun(ps, quantum, slices)
    requires s.idx < |ps| && SliceRemaining(ps, slices)[s.idx] > 0
    requires s.amount == Min(quantum, SliceRemaining(ps, slices)[s.idx]) && ps[s.idx].arrivalTime <= s.start
    requires |slices| > 0 ==> slices[|slices| - 1].start + slices[|slices| - 1].amount <= s.start
    ensures RoundRobinRun(ps, quantum, slices + [s])
  {
    var slices' := slices + [s];
    forall k | 0 <= k < |slices'| ensures ValidSlice(ps, quantum, slices', k) {
      if k < |slices| {
        assert slices'[..k] == slices[..k];
        assert ValidSlice(ps, quantum, slices, k);
      } else {
        assert slices'[..k] == slices;
      }
    }
  }

  /**
   * The slice of the head `x`, from `start` for `a = min(quantum, rem[x])` units: the run
   * grows by it, its remaining time drops by `a` (never below zero), and so does their sum.
   */
  lemma SliceStep(ps: seq<Process>, quantum: int, slices: seq<Slice>, completion: seq<int>,
                  rem: seq<int>, start: int, tt: int, tw: int, x: nat, a: int)
    requires quantum >= 1 && RunState(ps, quantum, slices, completion, rem, start, tt, tw)
    requires x < |ps| && rem[x] > 0 && ps[x].arrivalTime <= start && a == Min(quantum, rem[x])
    ensures RunCore(ps, quantum, slices + [Slice(x, start, a)], rem[x := rem[x] - a], start + a)
    ensures 0 <= rem[x] - a && 0 <= Sum(rem[x := rem[x] - a]) == Sum(rem) - a
  {
    SliceSnoc(ps, slices, Slice(x, start, a));
    RunSnoc(ps, quantum, slices, Slice(x, start, a));
    SliceWithinArrival(ps, slices, rem, start, x, a);
    SumUpdate(rem, x, rem[x] - a);
    SumNonNegative(rem[x := rem[x] - a]);
  }

  /**
   * A slice of at most the remaining time of an arrived process keeps every remaining time
   * at least 0, and gives no process more time than has passed since its arrival.
   */
  lemma SliceWithinArrival(ps: seq<Process>, slices: seq<Slice>, rem: seq<int>, start: int, x: nat, a: int)
    requires |rem| == |ps| && x < |ps| && ps[x].arrivalTime <= start && 0 <= a <= rem[x]
    requires forall i :: 0 <= i < |ps| ==> rem[i] >= 0 && Ran(slices, i) <= Max(0, start - ps[i].arrivalTime)
    ensures forall i :: 0 <= i < |ps| ==>
              rem[x := rem[x] - a][i] >= 0 && Ran(slices + [Slice(x, start, a)], i) <= Max(0, start + a - ps[i].arrivalTime)
  {
    SliceSnoc(ps, slices, Slice(x, start, a));
  }

  /** A slice that leaves the head unfinished: nothing completes. */
  lemma ContinueStep(ps: seq<Process>, quantum: int, slices: seq<Slice>, completion: seq<int>,
                     rem: seq<int>, start: int, tt: int, tw: int, x: nat, a: int)
    requires quantum >= 1 && RunState(ps, quantum, slices, completion, rem, start, tt, tw)
    requires x < |ps| && rem[x] > 0 && ps[x].arrivalTime <= start && a == Min(quantum, rem[x])
    requires rem[x] - a != 0
    ensures RunState(ps, quantum, slices + [Slice(x, start, a)], completion, rem[x := rem[x] - a], start + a, tt, tw)
    ensures Finished(rem[x := rem[x] - a]) == Finished(rem) && 0 <= Sum(rem[x := rem[x] - a]) == Sum(rem) - a
  {
    SliceStep(ps, quantum, slices, completion, rem, start, tt, tw, x, a);
    SliceSnoc(ps, slices, Slice(x, start, a));
    assert Finished(rem[x := rem[x] - a]) == Finished(rem);
  }

  /**
   * A slice that finishes the head `x`: it completes at `tc`, the end of this slice, and the
   * totals grow by its turnaround `ta` and its waiting time `wa`.
   */
  lemma FinishStep(ps: seq<Process>, quantum: int, slices: seq<Slice>, completion: seq<int>,
                   rem: seq<int>, start: int, tt: int, tw: int, x: nat, a: int, tc: int, ta: int, wa: int)
    requires quantum >= 1 && RunState(ps, quantum, slices, completion, rem, start, tt, tw)
    requires x < |ps| && rem[x] > 0 && ps[x].arrivalTime <= start && a == Min(quantum, rem[x])
    requires rem[x] - a == 0
    requires tc == start + a && ta == tc - ps[x].arrivalTime && wa == ta - ps[x].burstTime
    ensures RunState(ps, quantum, slices + [Slice(x, start, a)], completion[x := tc], rem[x := rem[x] - a], tc, tt + ta, tw + wa)
    ensures CountTrue(Finished(rem[x := rem[x] - a])) == CountTrue(Finished(rem)) + 1
    ensures 0 <= Sum(rem[x := rem[x] - a]) == Sum(rem) - a
  {
    SliceStep(ps, quantum, slices, completion, rem, start, tt, tw, x, a);
    CompletionKept(ps, slices, completion, rem, start, x, a);
    var fin := Finished(rem);
    assert Finished(rem[x := rem[x] - a]) == fin[x := true];
    RecordCompletion(ps, completion, fin, x, tc, |ps|);
    CountTrueSet(fin, x);
  }

  /**
   * The slice that finishes `x` records its end as `x`'s completion; that completion is the end
   * of `x`'s last slice and leaves a waiting time of at least 0, and the finished processes
   * before it keep theirs.
   */
  lemma CompletionKept(ps: seq<Process>, slices: seq<Slice>, completion: seq<int>, rem: seq<int>, start: int, x: nat, a: int)
    requires |rem| == |ps| && |completion| == |ps| && x < |ps| && rem[x] > 0 && rem[x] == a
    requires rem == SliceRemaining(ps, slices) && Ran(slices, x) <= Max(0, start - ps[x].arrivalTime)
    requires ps[x].arrivalTime <= start
    requires forall i :: 0 <= i < |ps| && rem[i] == 0 ==>
               completion[i] == LastEnd(slices, i) && Waiting(ps[i], completion[i]) >= 0
    ensures forall i :: 0 <= i < |ps| && rem[x := 0][i] == 0 ==>
              completion[x := start + a][i] == LastEnd(slices + [Slice(x, start, a)], i)
              && Waiting(ps[i], completion[x := start + a][i]) >= 0
  {
    SliceSnoc(ps, slices, Slice(x, start, a));
  }

  /** An empty queue: the clock ticks once, nothing else changes. */
  lemma IdleStep(ps: seq<Process>, quantum: int, slices: seq<Slice>, completion: seq<int>,
                 rem: seq<int>, time: int, tt: int, tw: int)
    requires RunState(ps, quantum, slices, completion, rem, time, tt, tw)
    ensures RunState(ps, quantum, slices, completion, rem, time + 1, tt, tw)
    ensures 0 <= Sum(rem)
  {
    SumNonNegative(rem);
  }

  /**
   * An empty queue while some process is unfinished: that process is past the cursor, which
   * stopped at a process that has not arrived, so the clock is below the latest arrival.
   */
  lemma IdleBeforeLatestArrival(ps: seq<Process>, arrivalIndex: nat, rem: seq<int>, time: int)
    requires |rem| == |ps| && QueueState(ps, [], arrivalIndex, rem, time)
    requires forall i :: 0 <= i < |ps| ==> rem[i] >= 0
    requires CountTrue(Finished(rem)) < |ps|
    requires arrivalIndex < |ps| ==> time < ps[arrivalIndex].arrivalTime
    ensures time < LatestArrival(ps)
  {
    CountTrueFull(Finished(rem));
    var i :| 0 <= i < |ps| && !Finished(rem)[i];
    assert i !in [];
  }

  /**
   * When every process is finished, each was given exactly its burst, completed at the end of
   * its last slice, and the totals cover them all.
   */
  lemma RunComplete(ps: seq<Process>, quantum: int, slices: seq<Slice>, completion: seq<int>,
                    rem: seq<int>, time: int, tt: int, tw: int)
    requires RunState(ps, quantum, slices, completion, rem, time, tt, tw) && CountTrue(Finished(rem)) == |ps|
    ensures forall i :: 0 <= i < |ps| ==> Ran(slices, i) == ps[i].burstTime
    ensures |completion| == |ps| && forall i :: 0 <= i < |ps| ==> completion[i] == LastEnd(slices, i)
    ensures Accounted(ps, completion, tt, tw)
  {
    CountTrueFull(Finished(rem));
    assert Finished(rem) == AllDone(|ps|);
  }

  /** Before the first dispatch: nothing has run, nothing is admitted. */
  lemma RunStart(ps: seq<Process>, quantum: int, completion: seq<int>)
    requires PositiveBursts(ps) && |completion| == |ps|
    ensures RunState(ps, quantum, [], completion, Bursts(ps), 0, 0, 0)
    ensures QueueState(ps, [], 0, Bursts(ps), 0)
    ensures CountTrue(Finished(Bursts(ps))) == 0
  {
    var n := |ps|;
    assert Bursts(ps) == SliceRemaining(ps, []);
    assert Finished(Bursts(ps)) == NoneDone(n);
    NoneDoneSums(ps, completion, n);
    CountTrueNone(Finished(Bursts(ps)));
  }

  /** One more slice pushes one more label. */
  lemma LabelsSnoc(ps: seq<Process>, slices: seq<Slice>, s: Slice)
    requires (forall k :: 0 <= k < |slices| ==> slices[k].idx < |ps|) && s.idx < |ps|
    ensures SliceLabels(ps, slices + [s]) == SliceLabels(ps, slices) + [Run(ps[s.idx].id)]
  {
  }

  /**
   * The whole state between two iterations of roundRobin's loop: the run so far, the queue
   * discipline, the count of finished processes and the chart of the slices.
   */
  ghost predicate LoopState(ps: seq<Process>, quantum: int, slices: seq<Slice>, completion: seq<int>, rem: seq<int>,
                            time: int, tt: int, tw: int, queue: seq<nat>, arrivalIndex: nat, completed: int, chart: seq<Entry>,
                            work: int) {
    && RunState(ps, quantum, slices, completion, rem, time, tt, tw)
    && work == Sum(rem) && 0 <= work
    && QueueState(ps, queue, arrivalIndex, rem, time)
    && completed == CountTrue(Finished(rem))
    && chart == SliceLabels(ps, slices)
  }

  /** Before the loop: nothing has run, nothing is admitted, the chart is empty. */
  lemma LoopStart(ps: seq<Process>, quantum: int, completion: seq<int>)
    requires PositiveBursts(ps) && |completion| == |ps|
    ensures LoopState(ps, quantum, [], completion, Bursts(ps), 0, 0, 0, [], 0, 0, [], Sum(Bursts(ps)))
  {
    RunStart(ps, quantum, completion);
    SumNonNegative(Bursts(ps));
  }

  /** Admitting the arrivals at the top of an iteration keeps the state. */
  lemma LoopAdmit(ps: seq<Process>, quantum: int, slices: seq<Slice>, completion: seq<int>, rem: seq<int>,
                  time: int, tt: int, tw: int, queue: seq<nat>, arrivalIndex: nat, completed: int, chart: seq<Entry>,
                  work: int, arrivalIndex': nat)
    requires PositiveBursts(ps)
    requires LoopState(ps, quantum, slices, completion, rem, time, tt, tw, queue, arrivalIndex, completed, chart, work)
    requires arrivalIndex <= arrivalIndex' <= |ps|
    requires forall i :: arrivalIndex <= i < arrivalIndex' ==> ps[i].arrivalTime <= time
    ensures LoopState(ps, quantum, slices, completion, rem, time, tt, tw,
                      queue + Range(arrivalIndex, arrivalIndex'), arrivalIndex', completed, chart, work)
  {
    AdmitKeeps(ps, queue, arrivalIndex, rem, time, arrivalIndex');
  }

  /**
   * A slice of the head `x` that finishes it: `x` leaves the queue, completes at the end of the
   * slice, one more process is finished, and the sum of the remaining times drops.
   */
  lemma LoopFinish(ps: seq<Process>, quantum: int, slices: seq<Slice>, completion: seq<int>, rem: seq<int>,
                   time: int, tt: int, tw: int, queue: seq<nat>, arrivalIndex: nat, completed: int, chart: seq<Entry>,
                   x: nat, a: int, tc: int, ta: int, wa: int,
                   slices': seq<Slice>, completion': seq<int>, rem': seq<int>, queue': seq<nat>, chart': seq<Entry>,
                   work: int, work': int)
    requires quantum >= 1
    requires LoopState(ps, quantum, slices, completion, rem, time, tt, tw, queue, arrivalIndex, completed, chart, work)
    requires queue != [] && x == queue[0] && a == Min(quantum, rem[x]) && rem[x] - a == 0
    requires tc == time + a && ta == tc - ps[x].arrivalTime && wa == ta - ps[x].burstTime
    requires slices' == slices + [Slice(x, time, a)] && completion' == completion[x := tc]
    requires rem' == rem[x := rem[x] - a] && queue' == queue[1..] && chart' == chart + [Run(ps[x].id)]
    requires work' == work - a
    ensures LoopState(ps, quantum, slices', completion', rem', tc, tt + ta, tw + wa, queue', arrivalIndex, completed + 1, chart', work')
    ensures work' < work
  {
    FinishStep(ps, quantum, slices, completion, rem, time, tt, tw, x, a, tc, ta, wa);
    QueueFinish(ps, queue, arrivalIndex, rem, time, a, tc);
    LabelsSnoc(ps, slices, Slice(x, time, a));
  }

  /**
   * A slice of the head `x` that leaves it unfinished: the processes that arrived by the end of
   * the slice are admitted, then `x` goes back at the tail; the sum of the remaining times
   * drops.
   */
  lemma LoopRequeue(ps: seq<Process>, quantum: int, slices: seq<Slice>, completion: seq<int>, rem: seq<int>,
                    time: int, tt: int, tw: int, queue: seq<nat>, arrivalIndex: nat, completed: int, chart: seq<Entry>,
                    x: nat, a: int, time': int, arrivalIndex': nat,
                    slices': seq<Slice>, rem': seq<int>, queue': seq<nat>, chart': seq<Entry>,
                    work: int, work': int)
    requires quantum >= 1 && PositiveBursts(ps)
    requires LoopState(ps, quantum, slices, completion, rem, time, tt, tw, queue, arrivalIndex, completed, chart, work)
    requires queue != [] && x == queue[0] && a == Min(quantum, rem[x]) && rem[x] - a != 0
    requires arrivalIndex <= arrivalIndex' <= |ps|
    requires time' == time + a && forall i :: arrivalIndex <= i < arrivalIndex' ==> ps[i].arrivalTime <= time'
    requires slices' == slices + [Slice(x, time, a)] && rem' == rem[x := rem[x] - a]
    requires queue' == queue[1..] + Range(arrivalIndex, arrivalIndex') + [x] && chart' == chart + [Run(ps[x].id)]
    requires work' == work - a
    ensures LoopState(ps, quantum, slices', completion, rem', time', tt, tw, queue', arrivalIndex', completed, chart', work')
    ensures work' < work
  {
    ContinueStep(ps, quantum, slices, completion, rem, time, tt, tw, x, a);
    QueueRequeue(ps, queue, arrivalIndex, rem, time, a, time', arrivalIndex');
    LabelsSnoc(ps, slices, Slice(x, time, a));
  }

  /**
   * An empty queue while a process is unfinished and the cursor has stopped at a process that
   * has not arrived: the clock ticks once, and it was below the latest arrival.
   */
  lemma LoopIdle(ps: seq<Process>, quantum: int, slices: seq<Slice>, completion: seq<int>, rem: seq<int>,
                 time: int, tt: int, tw: int, queue: seq<nat>, arrivalIndex: nat, completed: int, chart: seq<Entry>,
                 work: int)
    requires LoopState(ps, quantum, slices, completion, rem, time, tt, tw, queue, arrivalIndex, completed, chart, work)
    requires queue == [] && completed < |ps| && (arrivalIndex < |ps| ==> time < ps[arrivalIndex].arrivalTime)
    ensures LoopState(ps, quantum, slices, completion, rem, time + 1, tt, tw, queue, arrivalIndex, completed, chart, work)
    ensures time < LatestArrival(ps)
  {
    IdleBeforeLatestArrival(ps, arrivalIndex, rem, time);
    IdleStep(ps, quantum, slices, completion, rem, time, tt, tw);
    QueueLater(ps, [], arrivalIndex, rem, time, time + 1);
  }

  /**
   * The loop's variables at the top of an iteration sit at the last state of the trace: same
   * queue, cursor and remaining times, and a clock that has not passed the dispatch time.
   */
  ghost predicate AtPending(ps: seq<Process>, p: Pending, queue: seq<nat>, arrivalIndex: nat, time: int, rem: seq<int>) {
    && p.queue == queue && p.cursor == arrivalIndex && p.rem == rem
    && arrivalIndex <= |ps| && |rem| == |ps|
    && p.time <= time
    && (queue != [] ==> time == p.time)
    && (queue == [] && arrivalIndex < |ps| ==> time <= Max(p.time, ps[arrivalIndex].arrivalTime))
  }

  /** The slices so far follow the round-robin schedule, which has reached the loop's state. */
  ghost predicate TraceState(ps: seq<Process>, quantum: int, slices: seq<Slice>, pend: seq<Pending>,
                             queue: seq<nat>, arrivalIndex: nat, time: int, rem: seq<int>) {
    Schedule(ps, quantum, slices, pend) && AtPending(ps, pend[|pend| - 1], queue, arrivalIndex, time, rem)
  }

  /** Before the loop the trace holds the initial state only. */
  lemma TraceStart(ps: seq<Process>, quantum: int)
    ensures TraceState(ps, quantum, [], [Pending([], 0, 0, Bursts(ps))], [], 0, 0, Bursts(ps))
  {
  }

  /** An idle tick: nothing was admitted, so the process at the cursor arrives later still. */
  lemma {:induction false} TraceIdle(ps: seq<Process>, quantum: int, slices: seq<Slice>, pend: seq<Pending>,
                  arrivalIndex: nat, time: int, rem: seq<int>)
    requires TraceState(ps, quantum, slices, pend, [], arrivalIndex, time, rem)
    requires AdmitEnd(ps, arrivalIndex, time) == arrivalIndex
    ensures TraceState(ps, quantum, slices, pend, [], arrivalIndex, time + 1, rem)
  {
  }

  /**
   * One slice of roundRobin's loop, in terms of the state before it: the head `x` of the queue
   * runs from `time0` for the quantum or what remains of it; if that finishes it, it leaves the
   * queue; otherwise the processes that arrived by the end of the slice are admitted, in index
   * order, and `x` goes back behind them.
   */
  ghost predicate HeadRan(ps: seq<Process>, quantum: int, queue0: seq<nat>, arrivalIndex0: nat, time0: int,
                          rem0: seq<int>, slices0: seq<Slice>,
                          queue: seq<nat>, arrivalIndex: nat, time: int, rem: seq<int>, slices: seq<Slice>) {
    && queue0 != [] && queue0[0] < |ps| && |rem0| == |ps| && arrivalIndex0 <= |ps|
    && var x := queue0[0]; var a := Min(quantum, rem0[x]);
    && time == time0 + a && rem == rem0[x := rem0[x] - a] && slices == slices0 + [Slice(x, time0, a)]
    && (rem[x] == 0 ==> queue == queue0[1..] && arrivalIndex == arrivalIndex0)
    && (rem[x] != 0 ==>
          arrivalIndex == AdmitEnd(ps, arrivalIndex0, time) && queue == queue0[1..] + Range(arrivalIndex0, arrivalIndex) + [x])
  }

  /**
   * The loop dispatches when the schedule does: if the admission at `time` found a process,
   * `time` is the dispatch time of the trace's last state and the queue is its head queue.
   */
  lemma DispatchNow(ps: seq<Process>, p: Pending, queue0: seq<nat>, arrivalIndex0: nat, time0: int, rem0: seq<int>,
                    arrivalIndex1: nat)
    requires AtPending(ps, p, queue0, arrivalIndex0, time0, rem0)
    requires arrivalIndex1 == AdmitEnd(ps, arrivalIndex0, time0) && queue0 + Range(arrivalIndex0, arrivalIndex1) != []
    ensures DispatchTime(ps, p) == time0 && HeadQueue(ps, p) == queue0 + Range(arrivalIndex0, arrivalIndex1)
  {
    if queue0 == [] {
      assert arrivalIndex0 < arrivalIndex1;
    }
  }

  /**
   * A dispatch: after admitting at `time0`, the loop runs the head of the queue; that slice and
   * the state it leaves are the ones the schedule dictates, so the trace grows by one.
   */
  lemma {:induction false} TraceDispatch(ps: seq<Process>, quantum: int, slices: seq<Slice>, pend: seq<Pending>,
                                         queue0: seq<nat>, arrivalIndex0: nat, time0: int, rem0: seq<int>, arrivalIndex1: nat,
                                         slices': seq<Slice>, queue': seq<nat>, arrivalIndex': nat, time': int, rem': seq<int>)
    requires TraceState(ps, quantum, slices, pend, queue0, arrivalIndex0, time0, rem0)
    requires arrivalIndex1 == AdmitEnd(ps, arrivalIndex0, time0)
    requires HeadRan(ps, quantum, queue0 + Range(arrivalIndex0, arrivalIndex1), arrivalIndex1, time0, rem0, slices,
                     queue', arrivalIndex', time', rem', slices')
    ensures TraceState(ps, quantum, slices', pend + [Pending(queue', arrivalIndex', time', rem')],
                       queue', arrivalIndex', time', rem')
  {
    var p := pend[|pend| - 1];
    DispatchNow(ps, p, queue0, arrivalIndex0, time0, rem0, arrivalIndex1);
    var x := HeadQueue(ps, p)[0];
    assert SliceOf(ps, quantum, p) == Slice(x, time0, Min(quantum, rem0[x]));
    assert Next(ps, quantum, p) == Pending(queue', arrivalIndex', time', rem');
    ScheduleSnoc(ps, quantum, slices, pend);
  }

  /**
   * When every process is finished the last state of the trace is drained: finished processes
   * are not queued and every process past the cursor still has its whole burst to run.
   */
  lemma {:induction false} TraceEnds(ps: seq<Process>, quantum: int, slices: seq<Slice>, pend: seq<Pending>, completion: seq<int>,
                  rem: seq<int>, time: int, tt: int, tw: int, queue: seq<nat>, arrivalIndex: nat, chart: seq<Entry>,
                  work: int)
    requires PositiveBursts(ps)
    requires LoopState(ps, quantum, slices, completion, rem, time, tt, tw, queue, arrivalIndex, |ps|, chart, work)
    requires TraceState(ps, quantum, slices, pend, queue, arrivalIndex, time, rem)
    ensures Drained(ps, pend[|pend| - 1])
  {
    assert QueueState(ps, queue, arrivalIndex, rem, time);
    // The head of the queue and the process at the cursor, named while they may still exist.
    ghost var head := if queue == [] then 0 else rem[queue[0]];
    ghost var next := if arrivalIndex == |ps| then 0 else rem[arrivalIndex];
    CountTrueFull(Finished(rem));
    assert Finished(rem) == AllDone(|ps|);
  }

  /**
   * The branch of roundRobin's loop for a non-empty queue: the head runs for the quantum or
   * what remains of it; when that finishes it, its times are recorded, otherwise the processes
   * that arrived meanwhile are admitted and it goes back at the tail. The loop state is kept,
   * and the sum of the remaining times drops.
   */
  method RunHead(ps: seq<Process>, quantum: int, queue0: seq<nat>, arrivalIndex0: nat, time0: int,
                 remaining0: seq<int>, completed0: int, chart0: seq<Entry>, tt0: int, tw0: int,
                 ghost slices0: seq<Slice>, ghost completion0: seq<int>, ghost work0: int,
                 ghost pend0: seq<Pending>, ghost queueBefore: seq<nat>, ghost arrivalBefore: nat)
    returns (queue: seq<nat>, arrivalIndex: nat, time: int, remainingBurstTime: seq<int>, completedProcesses: int,
             chart: seq<Entry>, tt: int, tw: int, ghost slices: seq<Slice>, ghost completion: seq<int>, ghost work: int,
             ghost pend: seq<Pending>)
    requires quantum >= 1 && PositiveBursts(ps) && queue0 != []
    requires LoopState(ps, quantum, slices0, completion0, remaining0, time0, tt0, tw0, queue0, arrivalIndex0, completed0, chart0, work0)
    requires TraceState(ps, quantum, slices0, pend0, queueBefore, arrivalBefore, time0, remaining0)
    requires arrivalIndex0 == AdmitEnd(ps, arrivalBefore, time0) && queue0 == queueBefore + Range(arrivalBefore, arrivalIndex0)
    ensures TraceState(ps, quantum, slices, pend, queue, arrivalIndex, time, remainingBurstTime)
    ensures pend == pend0 + [Pending(queue, arrivalIndex, time, remainingBurstTime)]
    ensures LoopState(ps, quantum, slices, completion, remainingBurstTime, time, tt, tw, queue, arrivalIndex, completedProcesses, chart, work)
    ensures work < work0
    ensures HeadRan(ps, quantum, queue0, arrivalIndex0, time0, remaining0, slices0,
                    queue, arrivalIndex, time, remainingBurstTime, slices)
    ensures var x := queue0[0];
            && chart == chart0 + [Run(ps[x].id)]
            && (remainingBurstTime[x] == 0 ==>
                  completedProcesses == completed0 + 1 && tt == tt0 + Turnaround(ps[x], time) && tw == tw0 + Waiting(ps[x], time))
            && (remainingBurstTime[x] != 0 ==> completedProcesses == completed0 && tt == tt0 && tw == tw0)
  {
    queue, arrivalIndex, time, remainingBurstTime, completedProcesses := queue0, arrivalIndex0, time0, remaining0, completed0;
    chart, tt, tw, slices, completion := chart0, tt0, tw0, slices0, completion0;
    var idx := queue[0];
    queue := queue[1..];
    chart := chart + [Run(ps[idx].id)];
    var executionTime := Min(quantum, remainingBurstTime[idx]);
    time := time + executionTime;
    remainingBurstTime := remainingBurstTime[idx := remainingBurstTime[idx] - executionTime];
    slices := slices + [Slice(idx, time0, executionTime)];
    work := work0 - executionTime;
    if remainingBurstTime[idx] == 0 {
      completedProcesses := completedProcesses + 1;
      var turnaroundTime := time - ps[idx].arrivalTime;
      var waitingTime := turnaroundTime - ps[idx].burstTime;
      tt := tt + turnaroundTime;
      tw := tw + waitingTime;
      completion := completion[idx := time];
      LoopFinish(ps, quantum, slices0, completion0, remaining0, time0, tt0, tw0, queue0, arrivalIndex0, completed0, chart0,
                 idx, executionTime, time, turnaroundTime, waitingTime,
                 slices, completion, remainingBurstTime, queue, chart, work0, work);
    } else {
      queue, arrivalIndex := AdmitArrivals(ps, queue, arrivalIndex, time);
      queue := queue + [idx];
      LoopRequeue(ps, quantum, slices0, completion0, remaining0, time0, tt0, tw0, queue0, arrivalIndex0, completed0, chart0,
                  idx, executionTime, time, arrivalIndex, slices, remainingBurstTime, queue, chart, work0, work);
    }
    TraceDispatch(ps, quantum, slices0, pend0, queueBefore, arrivalBefore, time0, remaining0, arrivalIndex0,
                  slices, queue, arrivalIndex, time, remainingBurstTime);
    pend := pend0 + [Pending(queue, arrivalIndex, time, remainingBurstTime)];
  }

  /**
   * One pass of roundRobin's loop: the arrivals are admitted, then the head of the queue runs
   * a slice or, with the queue empty, the clock ticks once. Both the loop state and the trace
   * are kept; either the sum of the remaining times drops, or the clock ticks once and was
   * below the latest arrival.
   */
  method Iteration(ps: seq<Process>, quantum: int, queue0: seq<nat>, arrivalIndex0: nat, time0: int,
                   remaining0: seq<int>, completed0: int, chart0: seq<Entry>, tt0: int, tw0: int,
                   ghost slices0: seq<Slice>, ghost completion0: seq<int>, ghost work0: int, ghost pend0: seq<Pending>)
    returns (queue: seq<nat>, arrivalIndex: nat, time: int, remainingBurstTime: seq<int>, completedProcesses: int,
             chart: seq<Entry>, tt: int, tw: int, ghost slices: seq<Slice>, ghost completion: seq<int>, ghost work: int,
             ghost pend: seq<Pending>)
    requires quantum >= 1 && PositiveBursts(ps) && completed0 < |ps|
    requires LoopState(ps, quantum, slices0, completion0, remaining0, time0, tt0, tw0, queue0, arrivalIndex0, completed0, chart0, work0)
    requires TraceState(ps, quantum, slices0, pend0, queue0, arrivalIndex0, time0, remaining0)
    ensures LoopState(ps, quantum, slices, completion, remainingBurstTime, time, tt, tw, queue, arrivalIndex, completedProcesses, chart, work)
    ensures TraceState(ps, quantum, slices, pend, queue, arrivalIndex, time, remainingBurstTime)
    ensures work < work0 || (work == work0 && time == time0 + 1 && time0 < LatestArrival(ps))
  {
    queue, arrivalIndex := AdmitArrivals(ps, queue0, arrivalIndex0, time0);
    LoopAdmit(ps, quantum, slices0, completion0, remaining0, time0, tt0, tw0, queue0, arrivalIndex0,
              completed0, chart0, work0, arrivalIndex);
    if |queue| > 0 {
      queue, arrivalIndex, time, remainingBurstTime, completedProcesses, chart, tt, tw, slices, completion, work, pend :=
        RunHead(ps, quantum, queue, arrivalIndex, time0, remaining0, completed0, chart0, tt0, tw0, slices0, completion0, work0,
                pend0, queue0, arrivalIndex0);
    } else {
      remainingBurstTime, completedProcesses, chart, tt, tw := remaining0, completed0, chart0, tt0, tw0;
      slices, completion, work, pend := slices0, completion0, work0, pend0;
      LoopIdle(ps, quantum, slices, completion, remainingBurstTime, time0, tt, tw, queue, arrivalIndex, completedProcesses, chart, work);
      TraceIdle(ps, quantum, slices, pend, arrivalIndex, time0, remainingBurstTime);
      time := time0 + 1;
    }
  }

  /**
   * roundRobin: every dispatch obeys the round-robin rule (the quantum or what remains, after
   * arrival, without overlap); every process is given exactly its burst and completes at the
   * end of its last slice; the chart holds one `P{id}` per dispatch; the totals are those of
   * that execution.
   */
  method RoundRobin(ps: seq<Process>, quantum: int)
    returns (chart: seq<Entry>, tt: int, tw: int, ghost slices: seq<Slice>, ghost completion: seq<int>,
             ghost pend: seq<Pending>)
    requires PositiveBursts(ps) && quantum >= 1
    ensures Schedule(ps, quantum, slices, pend) && Drained(ps, pend[|pend| - 1])
    ensures RoundRobinRun(ps, quantum, slices) && forall k :: 0 <= k < |slices| ==> slices[k].idx < |ps|
    ensures forall i :: 0 <= i < |ps| ==> Ran(slices, i) == ps[i].burstTime
    ensures |completion| == |ps| && forall i :: 0 <= i < |ps| ==> completion[i] == LastEnd(slices, i)
    ensures chart == SliceLabels(ps, slices)
    ensures Accounted(ps, completion, tt, tw)
    ensures tw == tt - TotalBurst(ps) && tw >= 0
  {
    var n := |ps|;
    var time := 0;
    chart, tt, tw := [], 0, 0;
    var remainingBurstTime := Bursts(ps);
    var completedProcesses := 0;
    var queue: seq<nat> := [];
    var arrivalIndex := 0;
    slices, completion := [], seq(n, _ => 0);
    ghost var work := Sum(remainingBurstTime);
    pend := [Pending([], 0, 0, Bursts(ps))];
    LoopStart(ps, quantum, completion);
    TraceStart(ps, quantum);
    while completedProcesses < n
      invariant LoopState(ps, quantum, slices, completion, remainingBurstTime, time, tt, tw,
                          queue, arrivalIndex, completedProcesses, chart, work)
      invariant TraceState(ps, quantum, slices, pend, queue, arrivalIndex, time, remainingBurstTime)
      decreases work, LatestArrival(ps) - time
    {
      queue, arrivalIndex, time, remainingBurstTime, completedProcesses, chart, tt, tw, slices, completion, work, pend :=
        Iteration(ps, quantum, queue, arrivalIndex, time, remainingBurstTime, completedProcesses, chart, tt, tw,
                  slices, completion, work, pend);
    }
    TraceEnds(ps, quantum, slices, pend, completion, remainingBurstTime, time, tt, tw, queue, arrivalIndex, chart, work);
    RunComplete(ps, quantum, slices, completion, remainingBurstTime, time, tt, tw);
    TotalsIdentity(ps, completion, tt, tw);
  }
}
