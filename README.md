# CPU scheduling simulator — verified model of the scheduling engine

This project models the scheduling engine of a browser-based CPU scheduling simulator
(`scripts.js`). The simulator receives processes `{id, arrivalTime, burstTime, priority}`, an
algorithm name and a time quantum. `scheduleProcesses` dispatches to one of six strategies:

- fcfs;
- sjf (non-preemptive shortest job first);
- srtf (shortest remaining time first);
- round robin;
- non-preemptive priority;
- preemptive priority.

Each strategy returns a Gantt chart (a list of labels) and the average turnaround and waiting
times.

The model keeps each strategy in the form of its source:

- a method whose loop is the source loop, with the same variables, branches and updates;
- integer totals, and each average as the exact ratio `total / n`;
- a ghost record of what happened, returned beside the results:
  - the sorted order, start and completion times for the fixed-order strategies;
  - the dispatch log for sjf;
  - one decision per time unit for srtf and preemptive priority;
  - the list of slices for round robin, with the queue, cursor, clock and remaining times
    after each slice.

Each strategy's contract connects its results to that record and states the scheduling rule it
obeys. The contract says that:

- every process runs its whole burst;
- each completes at its recorded time;
- the chart is the labels of that record;
- the totals are the sums of `completion - arrival` and `completion - arrival - burst`;
- no waiting time is negative.

Round robin also has a reference definition, `RoundRobin.Schedule`, built from `Next`, the
state after one slice:

- the next slice runs the head of the FIFO queue once the arrivals up to the dispatch time are
  admitted in index order;
- a head that finished leaves the queue; otherwise the processes that arrived by the end of the
  slice are admitted first, and it goes back behind them;
- with an empty queue, the clock jumps to the arrival of the process at the cursor. The loop
  ticks there one unit at a time.

`RoundRobin.ScheduleUnique` shows that this leaves no choice. The method's slices are exactly
that schedule.

Modules and files:

- `processes.dfy` (Processes): the process record, the chart labels, the dispatcher's result,
  and shared helpers (sums, counts, and the selection rule of the linear scans).
- `metrics.dfy` (Metrics): turnaround and waiting time, and their totals.
- `selection.dfy` (Selection): the scan `for (i ...) if (arrived && !done && key < best)`
  shared by sjf, srtf and preemptive priority.
- `ordering.dfy` (Ordering): the stable `Array.prototype.sort` with the two comparators, as an
  insertion sort on indices.
- `gantt.dfy` (Gantt): the push-unless-same-label chart of the preemptive strategies, and the
  time the fcfs labels account for.
- `fixed_order.dfy` (FixedOrder): running processes to completion in a fixed order, which fcfs
  and non-preemptive priority share.
- `fcfs.dfy`, `sjf.dfy`, `preemptive.dfy` (srtf and preemptive priority), `round_robin.dfy`,
  `priority_np.dfy`: one module per strategy.
- `dispatcher.dfy` (Dispatcher): `scheduleProcesses`.

## Model

| member | source | states |
|---|---|---|
| Dispatcher.ScheduleProcesses | scripts.js:68-95 | For each of the six names the averages divide by the number of processes, and total waiting = total turnaround − total burst ≥ 0. sjf and priorityNP charts have one label per process. srtf and priorityP charts never repeat a process label back to back. Any other name gives an empty chart and zero averages. |
| Fcfs.Fcfs | scripts.js:106-130 | The processes run in stable arrival order: a permutation sorted by arrival, with ties kept in input order. Each starts at the later of its arrival and the previous completion. The chart is `idle(gap)` exactly where the clock was behind, then `P{id}({burst})`, and its labels add up to the last completion. The totals are those of that run. |
| Fcfs.RunInOrder | scripts.js:108-123 | The forEach loop over a fixed order yields exactly that run, that chart and those totals. The clamp on the waiting time never fires. |
| Fcfs.ChartAdvance | scripts.js:114-119 | One iteration extends the chart by an optional gap label and the run label. The labels still add up to the clock, now at the completion. |
| Fcfs.FcfsStep | scripts.js:114-118 | The labels one position adds to the chart: a gap only when the clock is behind its arrival. |
| Fcfs.FcfsStepElapsed | scripts.js:114-119 | The labels of one position account for the time from the clock to its completion, `max(time, arrival) + burst`. |
| Fcfs.FcfsChartExtend | scripts.js:113-118 | Recording a later start does not change the chart of the earlier positions. |
| FixedOrder.RunAdvance | scripts.js:113-119 | Running the next position of the order starts it at the later of the clock and its arrival and completes it a burst later. Every earlier position keeps its start and completion. |
| FixedOrder.TotalsAdvance | scripts.js:120-122 | Completing the next position adds its turnaround and its waiting time (start − arrival) to the totals and marks it done. The clamped form `max(0, time − arrival − burst)` adds the same. |
| FixedOrder.TotalsComplete | scripts.js:125-128 | Once every position of a permutation has run, the totals cover every process and no waiting time is negative. |
| Sjf.Sjf | scripts.js:133-174 | Every dispatch follows the sjf rule. While the processor is idle nothing was eligible. The chosen process is the arrived, unfinished one of least burst, with ties going to the lowest index. Every process runs exactly once, to completion, from its start. The chart is `P{id}` per dispatch in order. The totals are those of that run. |
| Sjf.DispatchAdvance | scripts.js:153-163 | A dispatch chosen by the scan extends the log. Earlier dispatches keep their meaning, and the totals grow by its turnaround and waiting time. |
| Sjf.IdleAdvance | scripts.js:164-166 | A scan that finds nothing lets the clock tick over one more idle instant. |
| Sjf.DispatchedOnce | scripts.js:147 | The scan never picks a completed process again, so no process is dispatched twice. |
| Sjf.SjfAccounted | scripts.js:156-160 | Each process waited no negative time, and the totals are those of the log. |
| Sjf.MarkedSnoc | scripts.js:162 | Marking the dispatched process completed sets its flag and no other. |
| Sjf.RunLabelsSnoc | scripts.js:154 | One dispatch pushes exactly one `P{id}` label. |
| Selection.SelectMin | scripts.js:143-151 | The scan returns −1 exactly when no process is eligible. Otherwise it returns an eligible process of least key, strictly below every eligible process with a smaller index. |
| Selection.ChoiceUnique | scripts.js:146-151 | The selection rule is deterministic: at most one index satisfies it. |
| Selection.IdleBeforeLatestArrival | scripts.js:164-166 | An idle tick with a process unfinished happens only before the latest arrival, so idling stops. |
| Preemptive.Srtf | scripts.js:176-224 | Every time unit runs the arrived, unfinished process of least remaining time (ties to the lowest index), or is idle when there is none. The run stops at the tick that completes the last process, so it never ends on an idle tick. Every process runs its whole burst and completes at its recorded tick. The chart merges consecutive units of one process and never repeats a process label back to back. The totals are those of that run. |
| Preemptive.PriorityPreemptive | scripts.js:308-356 | The same as srtf, with the smallest priority value as the key. |
| Preemptive.RunTicks | scripts.js:186-217 | The shared tick loop yields a run that follows the scan at every tick, completes every process at its last tick, does not end on an idle tick, and whose chart is the coalesced decisions. |
| Preemptive.RemainingSnoc | scripts.js:201 | A tick that runs a process takes one unit off its remaining time and off no other. |
| Preemptive.RuleSnoc | scripts.js:186-195 | A decision taken by the scan extends a run in which every tick followed the scan. |
| Preemptive.FinishedSnoc | scripts.js:204-206 | Only the tick that runs the last unit of a process marks it completed. |
| Preemptive.ProgressStep | scripts.js:190-202 | Remaining times never go negative, and no process runs more units than have passed since its arrival. |
| Preemptive.CompletionsStep | scripts.js:197-202 | A tick that does not finish its process completes nothing. |
| Preemptive.CompletionsFinish | scripts.js:204-211 | The finishing tick records the completion at the new clock, with a waiting time that is not negative. |
| Preemptive.IdleStep | scripts.js:213-216 | An idle tick changes nothing but the clock. |
| Preemptive.RunStep | scripts.js:197-203 | A tick that runs without finishing keeps the state and lowers the sum of remaining times. |
| Preemptive.FinishStep | scripts.js:204-212 | The finishing tick adds turnaround and waiting time to the totals, counts one more completed process and lowers the sum of remaining times. |
| Preemptive.TickStart | scripts.js:177-184 | Before the first tick: whole bursts remain, nothing is completed, the totals are zero. |
| Preemptive.ChartStep | scripts.js:198-200 | The chart push of one tick: `P{id}` only when the last label differs, `idle` always. |
| Preemptive.TicksComplete | scripts.js:186 | When the completed count reaches n, every process has run its whole burst and the totals cover all of them. |
| Gantt.CoalesceShape | scripts.js:198-200 | The pushed chart never names one process twice in a row. It has one `idle` per idle tick, is no longer than the run, and ends with the last tick's label. |
| Gantt.CoalesceSnoc | scripts.js:198-200 | One more tick pushes its label under the push-unless-same rule. |
| Gantt.ElapsedPush | scripts.js:115-118 | One more fcfs label adds the time it accounts for. |
| RoundRobin.RoundRobin | scripts.js:226-275 | The slices are exactly the round-robin schedule: each runs the head of the FIFO queue as `Next` dictates, and the run ends with the queue empty and every process admitted. Every slice runs an admitted, unfinished process for the quantum or what remains of it, if less. No slice runs before the process's arrival or before the previous slice ended. Every process gets exactly its burst and completes at the end of its last slice. The chart is one `P{id}` per slice. The totals are those of that run. |
| RoundRobin.Iteration | scripts.js:237-268 | One pass of the loop keeps the loop state and extends the trace by the slice the schedule dictates (or idles). Either the remaining work drops, or the clock ticks once below the latest arrival. |
| RoundRobin.RunHead | scripts.js:243-264 | Stated in terms of its inputs: the head runs from the current time for `min(quantum, remaining)`, and its label is pushed. A finished head leaves the queue, the cursor stays, and its turnaround and waiting time are added. Otherwise the arrivals up to the new time are admitted in index order and the head goes back behind them, with the totals unchanged. The loop state and the trace are kept. |
| RoundRobin.AdmitArrivals | scripts.js:238-241 | The admission loop appends the cursor's processes in index order while they have arrived. It stops at the end or at the first process that has not arrived, which is `AdmitEnd`. |
| RoundRobin.AdmitEnd | scripts.js:238-241 | The admission end: every process from the cursor up to it has arrived, and the one it stops at has not. |
| RoundRobin.DispatchTime | scripts.js:243-267 | The next slice starts at once when a process is queued or all are admitted. Otherwise the clock idles up to the cursor's arrival, never backwards. |
| RoundRobin.SliceOf | scripts.js:244-249 | The next slice runs the head of the queue (after admission) from the dispatch time, for `min(quantum, remaining)`. |
| RoundRobin.Next | scripts.js:243-264 | The state after the next slice has its clock at the end of that slice. |
| RoundRobin.DrainedStops | scripts.js:237-243 | With nothing queued and every process admitted, no slice can follow. |
| RoundRobin.ScheduleAgree | scripts.js:237-268 | Two round-robin schedules of one input agree slice by slice on their common prefix. |
| RoundRobin.ScheduleUnique | scripts.js:237-268 | The schedule run until drained is unique: round robin leaves no choice. |
| RoundRobin.ScheduleSnoc | scripts.js:243-264 | A schedule extends by the slice its last state dispatches. |
| RoundRobin.Rotation | scripts.js:243-264 | Once every process is admitted, each slice runs the head at once and the head goes back to the tail unless it finished. |
| RoundRobin.PairOpens | scripts.js:238-264 | For two processes arriving at 0 with burst 2 and quantum 1, both are admitted at 0, P1 runs first and then goes behind P2. |
| RoundRobin.TakeTurns | scripts.js:226-275 | For that input the only schedule is P1, P2, P1, P2 at times 0, 1, 2, 3. |
| RoundRobin.DispatchNow | scripts.js:238-244 | When admission at the loop's clock finds a process, that clock is the schedule's dispatch time and the queue is its head queue. |
| RoundRobin.TraceStart | scripts.js:227-235 | Before the loop, the trace is the initial state: empty queue, cursor 0, clock 0, full bursts. |
| RoundRobin.TraceIdle | scripts.js:265-267 | An idle tick keeps the loop at the trace's last state, no later than its dispatch time. |
| RoundRobin.TraceDispatch | scripts.js:243-264 | The slice the loop runs, and the state it leaves, are the schedule's next slice and state. |
| RoundRobin.TraceEnds | scripts.js:237 | When every process is finished, the trace ends drained. |
| RoundRobin.AdmitKeeps | scripts.js:238-241 | Admission keeps the queue discipline: each admitted, unfinished process is queued exactly once. |
| RoundRobin.QueuePop | scripts.js:244 | Taking the head keeps the discipline for the rest of the queue. |
| RoundRobin.QueueFinish | scripts.js:251-252 | A finished head leaves the queue for good. |
| RoundRobin.QueuePush | scripts.js:263 | An unfinished head goes back at the tail, once. |
| RoundRobin.QueueRequeue | scripts.js:258-264 | The processes that arrived during the slice are queued ahead of the unfinished head. |
| RoundRobin.QueueLater | scripts.js:248 | Moving the clock forward keeps every admitted process arrived. |
| RoundRobin.SliceSnoc | scripts.js:247-249 | A slice gives time to its own process only, and its remaining time drops by the slice. |
| RoundRobin.RunSnoc | scripts.js:246-249 | A slice of an unfinished, arrived process for `min(quantum, remaining)` after the previous slice extends a valid run. |
| RoundRobin.SliceStep | scripts.js:247-249 | The head's slice extends the run, its remaining time stays ≥ 0, and the sum of remaining times drops by the slice. |
| RoundRobin.SliceWithinArrival | scripts.js:247-249 | A slice of at most the remaining time of an arrived process keeps every remaining time ≥ 0 and gives no process more time than has passed since its arrival. |
| RoundRobin.CompletionKept | scripts.js:251-253 | The finishing slice records its end as the completion, which is the end of the process's last slice with a waiting time ≥ 0; earlier completions are kept. |
| RoundRobin.ContinueStep | scripts.js:258-264 | A slice that does not finish the head completes nothing. |
| RoundRobin.FinishStep | scripts.js:251-257 | The finishing slice records completion at its end and adds turnaround and waiting time to the totals. |
| RoundRobin.IdleStep | scripts.js:265-267 | An empty queue only advances the clock. |
| RoundRobin.IdleBeforeLatestArrival | scripts.js:265-267 | With the queue empty and a process unfinished, the clock is below the latest arrival, so idling stops. |
| RoundRobin.RunComplete | scripts.js:237 | When all are finished, each process got exactly its burst and the totals cover all of them. |
| RoundRobin.RunStart | scripts.js:227-235 | Initially nothing has run, nothing is admitted and nothing is finished. |
| RoundRobin.LabelsSnoc | scripts.js:246 | Each slice pushes exactly one `P{id}` label, with no merging. |
| RoundRobin.LoopStart | scripts.js:227-235 | The loop state holds before the first iteration. |
| RoundRobin.LoopAdmit | scripts.js:238-241 | Admission at the top of an iteration keeps the loop state. |
| RoundRobin.LoopFinish | scripts.js:251-257 | The finishing branch keeps the loop state, counts one more completed process and lowers the remaining work. |
| RoundRobin.LoopRequeue | scripts.js:258-264 | The requeue branch keeps the loop state and lowers the remaining work. |
| RoundRobin.LoopIdle | scripts.js:265-267 | The idle branch keeps the loop state and happens only before the latest arrival. |
| PriorityNonPreemptive.PriorityNonPreemptive | scripts.js:277-305 | The processes run in the stable order by arrival, then by priority value. Each starts at the later of its arrival and the previous completion. Each label is `P{id}({turnaround})` of its process. The totals are those of that run. |
| PriorityNonPreemptive.RunInOrder | scripts.js:279-298 | The forEach loop yields the fixed-order run. Its waiting time `time − arrival` is never negative, and the `Math.max` adjustment never moves the clock. |
| PriorityNonPreemptive.NpStep | scripts.js:284-297 | One iteration extends the run, the totals and the labels. |
| PriorityNonPreemptive.LabelsAdvance | scripts.js:290-291 | The label of a position carries its completion minus its arrival. |
| PriorityNonPreemptive.LabelsAreTurnarounds | scripts.js:290-291 | Each label carries exactly the turnaround time of its process. |
| Ordering.StableSort | scripts.js:107 | The sort yields a permutation of the indices in which every earlier process compares before every later one. Equal keys keep their input order. |
| Ordering.SortIndicesCorrect | scripts.js:278 | Insertion sort on indices gives a sorted permutation, for either comparator. |
| Ordering.InsertOrdered | scripts.js:107 | Inserting into a sorted list keeps it sorted. |
| Ordering.InsertMultiset | scripts.js:107 | Inserting adds exactly one element. |
| Ordering.PermutationFacts | scripts.js:113 | A permutation lists every index once. |
| Metrics.TotalsIdentity | scripts.js:157 | Total waiting = total turnaround − total burst, and the total waiting time is never negative. |
| Metrics.RecordCompletion | scripts.js:159-160 | Completing one process adds its turnaround and waiting time and changes no other term. |
| Metrics.WaitingIdentity | scripts.js:157 | Over any set of processes, waiting = turnaround − burst. |
| Metrics.NoneDoneSums | scripts.js:136-137 | Before any completion both totals are zero. |
| Processes.SumUpdate | scripts.js:249 | Lowering one remaining time lowers the sum by the same amount. |
| Processes.CountTrueSet | scripts.js:163 | Marking one more process completed raises `completedProcesses` by one. |
| Processes.CountTrueFull | scripts.js:142 | The loop condition `completedProcesses < n` fails exactly when every flag is set. |

## Left out

- The DOM layer (form handling, `getProcesses`, `displayResults`, `toFixed(2)`) and the
  `processes.length === 0` guard of the submit handler. The dispatcher is modelled on any
  list, including the empty one.
- Floating point: each average is the exact ratio `total / n` (`Average.Ratio`), not the
  JavaScript double. NaN from `parseInt` and the `Infinity` start value of the scans are not
  modelled; an empty selection is `-1`.
- Labels are a datatype (`Run`, `RunFor`, `Idle`, `IdleFor`) instead of strings. Comparing
  labels stands in for comparing the strings `P{id}`.
- The in-place mutation of the caller's array by `processes.sort` is not modelled: the sort
  yields an index order, and the input sequence is unchanged.
- The local arrays `remainingBurstTime` and `isCompleted` of srtf and priorityPreemptive are
  sequences. Aliasing is impossible there: they are fresh local arrays.
- RoundRobin.RunHead and RoundRobin.Iteration are the non-empty-queue branch and one pass of
  the loop, each taken out as a method of its own.
- Preemptive.Srtf, Preemptive.PriorityPreemptive, Preemptive.RunTicks: require every burst
  to be at least 1. With a zero burst the source never terminates: the unfinished process keeps
  being picked and its remaining time drops below zero without reaching 0.
- RoundRobin.RoundRobin: requires every burst to be at least 1 and `quantum >= 1`.
  - A zero quantum never terminates in the source.
  - A process with a zero burst would complete in a zero-length slice; that case is not
    covered.
- Idle time units are not steps of `RoundRobin.Schedule`. The next slice's start jumps to the
  arrival that ends the idling, where the loop ticks one unit at a time.
- RoundRobin.RoundRobin: the input is not sorted, as in the source. Admission stops at the
  first process that has not arrived, even if a later index arrived earlier.
- Dispatcher.ScheduleProcesses: passes the preconditions above on to srtf, roundRobin and
  priorityP. It states the averages and chart shape of each strategy, not the whole contract
  of each strategy, which the strategy's own member states.
