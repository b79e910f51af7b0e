# NoblePort supervisor: a verified model

This project models the audit-first invocation protocol of the NoblePort supervisor in
Dafny and proves what it keeps under every interleaving of invocations and kill requests,
on one thread or many, and under every fault: each awaited call may return, raise or be
cancelled, and one that does not return may have had its effect all the same. Two
self-contained cores go with it: the latency percentiles and the placeholder rewriting.

`dafny verify dfyconfig.toml` checks everything.

## How it is laid out

| files | what they hold |
|---|---|
| Base, Store | values, the five shared stores, and one operation per awaited call, with the primary-key and unique constraints |
| Machine | an invocation and a kill request as program counters; `Do` is one step of the whole system, `Exec` runs a schedule |
| AuditFirst, KillFlag, KillRequests, StepsAfterKill, ThreadStatus, Aftermath | the audit gate, the kill flag, what an accepted kill has done, and the status a run leaves |
| EventTrace, Accounting, Language | the language of a run's events, exact in both directions, and its metrics row |
| Endings | the outcome and the exception of a run, told from what happened at its awaits |
| Completion | what ends the loop, in terms of the dictionary |
| Counting, Announcements | the checkpoints a run stores, among those of every other run, and what its events say of them |
| History, Segment, Serial, Forks, Transparency, DefaultStep | the checkpoint history, when it is one line and when it forks, resuming, and the default step |
| Rows | where the values in calls, checkpoints and metrics rows come from |
| Isolation | threads do not interfere |
| Database, EventLoop, Supervisor, Guarantees | the code in the form in which it is written (classes, loops, handlers), and what the theorems say of it |
| Percentiles, Summary, Placeholders | percentiles, the latency summary, `?` to `$1, $2, ...` |

A schedule is any sequence of actions: start an invocation, start a kill request, advance
a process by one awaited call. A crashed process is one that is never advanced again.
What the environment decides (how a call ends, which id is drawn, what the step function
sees besides its argument) is part of the action. `Config.step` takes a second argument
for that last point, so the step function need not be deterministic except where a
theorem says so. The started calls of the step function and, with each checkpoint, the call
that made it are recorded beside the tables, so that theorems can speak about them.

The methods of `Supervisor`, `ThreadState` and `PostgresCheckpointer` are the source's
functions with their branches, loop and handlers. At each await other coroutines run and the
environment picks the fate of the call. Each method is proved to be a run of the step
machine (`EventLoop.Valid`), so `Guarantees` can carry every invariant of the schedules
over to the objects in the heap.

## Where the code and its description differ

The model follows the code.

- The metrics row is written in the `finally` block, before the `end` event, although the
  docstring of `invoke` lists it last (app/agent/runtime.py:111-120, 223-240).
- A run that exceeds `max_steps` publishes no terminal event and sets no status: its
  thread stays `running` (app/agent/runtime.py:200-203, 234).
- A fault inside an exception handler replaces the exception that reaches the caller but not
  the recorded outcome: a run recorded as `error` can raise a cancellation
  (app/agent/runtime.py:205-232).
- A set kill flag can be lost: `_upsert` reads and then writes (app/agent/state.py:25-56).
  `KillFlag.KillStickyIff` gives the exact condition, `KillFlag.KillCanBeLost` a schedule
  from the empty database.
- A fault between the audit row and the try block leaves neither a metrics row nor an
  error event, and possibly the status `running` (app/agent/runtime.py:141-149).
- `request_kill` writes no audit row (app/agent/state.py:65-98).
- The placeholder rewriting keeps the meaning of a text only where no `?` and no `$` is
  directly followed by a digit (`Placeholders.ReadsAsMeantIff`).

## Model

| member | source | states |
|---|---|---|
| AuditFirst.AuditAlways | app/agent/runtime.py:126-149 | in every reachable world each event, started step, metrics row and checkpoint has the audit row of its own run, and each status other than a kill request one of its thread; a run past the gate has its own |
| AuditFirst.AuditPrecedes | app/agent/runtime.py:126-240 | in time: whatever an action adds or changes was covered by a row already in the audit log, and the other tables only grow |
| AuditFirst.RefusedRunDoesNothing | app/db/audit.py:46-60 | a run whose audit insert does not return changes at most the audit log, then or ever |
| AuditFirst.RequestIdsUnique | app/db/schema.py:15-22 | the primary key makes the request ids of runs past the gate distinct |
| KillFlag.KillStickyIff | app/agent/state.py:21-56 | a set flag stays set under every schedule if and only if no upsert on the thread holds a pending UPDATE that read false |
| KillFlag.LockedForever | app/agent/state.py:44-56 | the invariant behind it: flag set and no stale write pending, kept by every schedule |
| KillFlag.KillLands | app/agent/state.py:65-98 | when the write of a kill request lands the row says so; it is permanent exactly when no stale write was pending, always for an unseen thread |
| KillFlag.KillCanBeLost | app/agent/state.py:44-56 | a schedule from the empty database in which the kill returns to its caller and is then erased |
| KillFlag.UpdatesHaveRowAlways | app/agent/state.py:25-56 | a pending UPDATE always has its row |
| KillRequests.AcceptedKillIsWritten | app/agent/state.py:65-98 | a kill that was accepted left the row `kill_requested` with the flag set by an await of its own, whether or not the thread had a row; it reports the status its first read found, none exactly where there was no row |
| KillRequests.FailedKillFailed | app/agent/state.py:65-98 | a kill that raised had an await that did not return |
| StepsAfterKill.StepsAfterKillBounded | app/agent/runtime.py:162-180 | once the flag cannot be lost, the step calls that start are at most the runs then between a false check and their call; every other run makes none |
| StepsAfterKill.BoundIsReached | app/agent/runtime.py:162-180 | the bound is tight: some schedule lets each of those runs make its call |
| ThreadStatus.ReturnedStatus | app/agent/runtime.py:142-240 | an undisturbed run that returns leaves `completed` after ok, `killed` after killed, `running` when out of steps, and the flag it found |
| ThreadStatus.RunKeepsFlag | app/agent/state.py:45-49 | at every point of an undisturbed run, faults included, the flag is the one it found |
| Aftermath.StatusGoesWithEvent | app/agent/runtime.py:205-240 | an undisturbed run leaves `error` once its error event is out, `cancelled` once its cancelled event is, `completed` once its end event is, with the flag it found; also where it raised after a single failed await |
| Accounting.EventLanguage | app/agent/runtime.py:145-240 | under every schedule the events of a request are start, pairs, a dangling step or a killed, one last event, with at most `max_steps` iterations begun; end only after a pair and after ok was recorded |
| Language.EveryWordHappens | app/agent/runtime.py:145-240 | for each word of the language within the bound a schedule in which a run publishes it, killed and then failed or cancelled included |
| Language.ExactLanguage | app/agent/runtime.py:145-240 | a run with bound n can have published a word if and only if it is one of the language with at most n iterations begun |
| Accounting.MetricsTellTheEnd | app/agent/runtime.py:151-232 | every metrics row is the only one of its request and fits what the events of the run show |
| Endings.OutcomeIsEarned | app/agent/runtime.py:151-222 | the outcome is `error` if and only if the first await of the try block that did not return raised, `cancelled` if and only if it was cancelled, also inside the kill branch and whatever the handlers do; `killed` if and only if nothing failed and a flag check read true; `ok` if and only if neither and a complete state was reached |
| Endings.MetricsTellTheCause | app/agent/runtime.py:223-232 | every metrics row carries the outcome that its run earned in this sense |
| Endings.ExceptionIsTheLast | app/agent/runtime.py:205-247 | a finished run raises the kind of its last failing await, a fault in a handler or in the finally block included, and returns if and only if none failed |
| Endings.StoryAlways | app/agent/runtime.py:122-247 | the invariant behind these: at every point of every schedule the program counter agrees with what happened at the awaits of the run |
| Completion.StepEndDecides | app/agent/runtime.py:197-203 | after a returned step.end a state without `completed`, or with null, false, 0, "", [] or {} there, leads to the next flag check, or out of steps at the bound; any other value ends the run ok with that state |
| Completion.FlagDecides | app/agent/runtime.py:162-172 | a flag check goes to the kill branch exactly if the row has the flag set |
| Accounting.MetricsOncePerRun | app/agent/runtime.py:223-247 | one metrics row for each run that recorded, none for one stopped before the try block, at most one where the insert did not return; ok only with a complete state |
| Accounting.AccountsAlways | app/agent/runtime.py:126-240 | the invariant behind these: marks and metrics go with the program counter of every run, and belong to audited runs |
| Counting.ReturnedRunCounts | app/agent/runtime.py:162-203 | under every schedule a returned run has published exactly as many pairs as it stored checkpoints, however many runs share its thread |
| Counting.EveryRunCounts | app/agent/runtime.py:162-203 | any run has stored a checkpoint for each pair, at most one more where an iteration was cut short, and they are the results of its calls 0, 1, 2, ..., each made on and hanging on the one before, none after a complete state |
| Announcements.EventsTellTheSteps | app/agent/runtime.py:174-240 | under every schedule the i-th step.start of a run carries the step number its i-th call was given, the i-th step.end that of the i-th checkpoint and its id, the end event that of the last; a returned state is that of the last checkpoint |
| History.HistoryAlways | app/agent/checkpointing.py:46-86 | the history is a forest: unique ids, each parent an earlier row of the thread; each row is the result of the started call recorded with it, and each call is explained |
| History.Provenance | app/agent/runtime.py:156-185 | each checkpoint's state is the step function folded along its parent path; every row on it was made by its recorded call on just the argument of the fold, with `input` and `thread_id` of its run's audit row put in exactly at the root and where the row before is another run's |
| History.AnnouncedAlways | app/agent/runtime.py:182-195 | every step.end names a checkpoint that is stored, with its step number |
| Rows.FirstCallSays | app/agent/runtime.py:155-160 | key by key, a run's first call gets the input of its audit row, its thread id, and otherwise no messages and step 0 or the reloaded state of another run's checkpoint |
| Rows.EventsCarry | app/agent/runtime.py:145-240 | only step.start, step.end and end events carry a step number, and just the step.end events a checkpoint id |
| Rows.StoredAreEncodable | app/agent/checkpointing.py:54-68 | only states that can be encoded are stored |
| Rows.UnencodableIsError | app/agent/checkpointing.py:54-68 | putting one that cannot stores nothing and, unless cancelled there, ends the run as an error |
| Rows.MetricsAreRecorded | app/db/metrics.py:18-34 | every metrics row was recorded by one step of its run, with the elapsed time and the outcome it had then, under an id of its own |
| Segment.LatestIsLast | app/agent/checkpointing.py:70-93 | `get_latest` is the last element of `list_all` |
| Segment.StepKeepsProgress | app/agent/runtime.py:155-203 | what a run adds is a chain in step with its loop variables, at most `max_steps` long, none but the last complete |
| Serial.SerialHistoryIsALine | app/agent/checkpointing.py:70-107 | without overlapping runs the history of a thread is one line, whatever fails and whatever other threads do |
| Forks.LineIffUpToDate | app/agent/checkpointing.py:46-107 | for every schedule the history of a thread is one line if and only if each run that stored a row had seen the latest one: no other run stored one since its load or its own last row |
| Forks.PutKeepsLineIff | app/agent/checkpointing.py:46-68 | a put keeps a line exactly if its parent is the last row |
| Forks.ForkHappens | app/agent/runtime.py:156-185 | a schedule from the empty database in which two overlapping invocations fork the history |
| Forks.OverlapForks | app/agent/runtime.py:156-185 | any two runs that loaded the same checkpoint and both store theirs fork it |
| Transparency.QuietProgress | app/agent/runtime.py:155-203 | that progress holds for a run on a thread where no other run moves, under any interference from elsewhere |
| Transparency.StopsOnce | app/agent/runtime.py:162-203 | a deterministic step function has one place to stop for each bound |
| Transparency.ResumeEqualsContinue | app/agent/runtime.py:155-203 | a run stopped anywhere after k checkpoints and a resumed run with bound b end like one run with bound k + b: same outcome, state and checkpointed states |
| DefaultStep.SupervisorStep | app/agent/runtime.py:43-57 | copying and editing the dictionary computes the step function of the theorems: step counted on, `completed` true, the user's text unless empty and the supervisor's `ack:` appended to the messages, every other key kept |
| DefaultStep.StepSays | app/agent/runtime.py:43-57 | the same of the step function, and when it raises |
| DefaultStep.DefaultTranscript | app/agent/runtime.py:43-57 | at depth d a checkpoint has step d and, entry by entry, the exchanges of d inputs, each that of the audit row of the run that made the row there: 2d messages if and only if none of these inputs is empty |
| Isolation.ThreadsDoNotInterfere | app/agent/runtime.py:122-247 | each thread's view of any interleaving is the world in which it ran alone |
| Isolation.SerialEquivalent | app/agent/runtime.py:122-247 | any schedule is equivalent, for every thread, to running one thread after the other |
| Databases.Database.Execute | app/db/connection.py:78-88 | one statement: how it ends and the tables after it, failed statements included |
| Databases.NullEventBus.Publish | app/redis_bus/events.py:46-49 | the trace grows by the event exactly when the publish takes effect |
| Databases.NullEventBus.Published | app/redis_bus/events.py:57-59 | the trace in publication order |
| EventLoops.EventLoop.Await | app/db/connection.py:78-116 | an awaited call is one step of the machine |
| Supervisors.ThreadState.Upsert | app/agent/state.py:21-56 | read then insert or update, with interference between, is the machine's upsert |
| Supervisors.ThreadState.SetThreadStatus | app/agent/state.py:59-62 | an upsert that gives no flag |
| Supervisors.ThreadState.RequestKill | app/agent/state.py:65-98 | an accepted kill has written the row and set the flag, on a new thread too, and reports the status it found; one that raises had a failed await |
| Supervisors.ThreadState.IsKillRequested | app/agent/state.py:101-108 | the flag as it is at the instant of the read, false without a row |
| Supervisors.PostgresCheckpointer.Put | app/agent/checkpointing.py:46-68 | the row is appended under a drawn id with the given parent |
| Supervisors.PostgresCheckpointer.GetLatest | app/agent/checkpointing.py:70-86 | the latest row of the thread at the instant of the read, reloaded from JSON |
| Supervisors.PostgresCheckpointer.ListAll | app/agent/checkpointing.py:88-107 | all rows of the thread in order, reloaded |
| Supervisors.Supervisor.InsertAudit | app/db/audit.py:25-70 | a failed insert raises AuditError, a cancelled one passes on, and both end the run at the gate |
| Supervisors.Supervisor.RecordInvokeLatency | app/db/metrics.py:18-34 | the metrics row carries the outcome of the try block and the elapsed time |
| Supervisors.Supervisor.CallStepFn | app/agent/runtime.py:180-180 | the call starts before anything else can happen, and returns or raises after anything may have |
| Supervisors.Supervisor.RunStep | app/agent/runtime.py:174-199 | one iteration from step.start to step.end and the completion test |
| Supervisors.Supervisor.TryBlock | app/agent/runtime.py:154-203 | the loop leaves the outcome and the state the finally block will find, or raises |
| Supervisors.Supervisor.Handle | app/agent/runtime.py:205-222 | a fault inside a handler does not change the recorded outcome |
| Supervisors.Supervisor.Finish | app/agent/runtime.py:223-247 | the finally block and the end of an ok run |
| Supervisors.Supervisor.Invoke | app/agent/runtime.py:102-247 | the call runs on the thread the caller named, on a drawn one where none or an empty name was given; whatever happens at its awaits, it is a complete run of the machine and the caller gets its result or the exception that ended it |
| Guarantees.StoresAreSafe | app/agent/runtime.py:102-247 | all invariants of the schedules hold of the objects in the heap |
| Guarantees.ReplyIsOnRecord | app/agent/runtime.py:234-247 | a returned result agrees with the audit log, the metrics table and the published events; ok comes with a true value under `completed` |
| Guarantees.ReplyIsEarned | app/agent/runtime.py:205-247 | the reply follows from the awaits of the call: a result with the outcome earned if none failed, AuditError only for a failed audit insert, otherwise the kind of the last failure |
| Percentiles.PercentileMonotone | app/db/metrics.py:37-48 | monotone in pct over [0, 100], across intervals |
| Percentiles.PercentileBounds | app/db/metrics.py:37-48 | between minimum and maximum, which it is at 0 and 100 |
| Percentiles.PercentileFew | app/db/metrics.py:39-42 | 0 without samples, the sample where there is one |
| Percentiles.PercentileAtSample | app/db/metrics.py:43-48 | passes through every sample |
| Percentiles.PercentileLinear | app/db/metrics.py:43-48 | linear between neighbouring samples |
| Percentiles.PercentilePointwise | app/db/metrics.py:43-48 | monotone in sorted samples, place by place |
| Percentiles.PercentileAffine | app/db/metrics.py:43-48 | commutes with a change of scale |
| Percentiles.PercentileReflection | app/db/metrics.py:43-48 | negating and reversing the samples negates the percentile at 100 - pct |
| Percentiles.Round3Facts | app/db/metrics.py:65-68 | a rounded figure is the nearest whole number of thousandths, the even one of two; rounding keeps order |
| Summary.GroupByName | app/db/metrics.py:56-58 | one non-empty list per name that occurs, with that name's values in row order |
| Summary.GateLatencySummary | app/db/metrics.py:51-70 | every name with rows, and the figures of exactly its rows |
| Summary.GroupIsItsRows | app/db/metrics.py:56-58 | a group holds each value as often as it was recorded under the name |
| Summary.SummaryOrderFree | app/db/metrics.py:53-70 | permuting the rows changes no figure |
| Summary.CountsAddUp | app/db/metrics.py:57-64 | the counts add up to the number of rows |
| Summary.SummaryOrdered | app/db/metrics.py:63-69 | min <= p50 <= p95 <= max after rounding |
| Summary.FiguresSay | app/db/metrics.py:61-69 | the figures of a name are the count, percentiles 50 and 95, first and last of its values in order, rounded, and no value is outside minimum and maximum |
| Summary.SortedRises | app/db/metrics.py:61-62 | raising values, in any order, raises every entry of the sorted list |
| Summary.SummaryRises | app/db/metrics.py:53-70 | if every row is at least as slow, every figure of every name is at least as large |
| Placeholders.ConvertParams | app/db/connection.py:61-76 | the loop computes the rewriting for Postgres and leaves SQLite text alone |
| Placeholders.ReadsAsMeantIff | app/db/connection.py:66-75 | a reader taking the longest digit run after `$` sees parameters 1, 2, ... in place of the `?` if and only if no `?` and no `$` is directly followed by a digit |
| Placeholders.SameBinding | app/db/connection.py:66-75 | binding by number in the result is binding by position in the source |
| Placeholders.DecodeIff | app/db/connection.py:66-75 | an ordinal-aware decoder undoes the rewriting if and only if no `$` of the source carries the ordinal of the next placeholder |
| Placeholders.ConvertIsInjective | app/db/connection.py:66-75 | on sources without `$` nothing is lost |
| Placeholders.DollarCollides | app/db/connection.py:66-75 | with `$` two sources can become the same text |
| Placeholders.ConvertLength | app/db/connection.py:66-75 | the output is longer by the decimal widths of 1..k |

## Left out

- DefaultStep.Step: an `input` that is not text, a `step` given as a numeral string and a `messages` value that is a dictionary are taken to raise; `invoke` always sets `input` to text and the default step only ever writes a number and a list.
- Percentiles.Percentile: floating-point rounding is not modelled, the figures are exact reals; `pct` is within [0, 100] as its docstring asks.
- Isolation.ThreadsDoNotInterfere: asks that request ids and metrics row ids of different threads differ; they are random UUIDs in the source, and their tables have one key space. Checkpoint ids may coincide.
- Transparency.ResumeEqualsContinue: compares states and outcome, not checkpoint ids and parents, which are drawn afresh.
- JSON text: a checkpoint row keeps the state it was made from, reading it back applies `Config.reload`, and `Config.encodable` says whether encoding succeeds; stringification of foreign objects is not modelled.
- Columns nothing reads back: `last_event`, `updated_at`, `created_at`, `message`, the request metadata, and the texts in event payloads (input, reason, error).
- Timestamps, clocks and random ids: latency values and drawn ids are chosen by the environment.
- Postgres sequences: `seq` is the order in which inserts take effect; numbers handed out before a commit are not modelled.
- SQL text, drivers, pools, connections and migration (app/db/connection.py:34-58, 135-141): an operation stands for its statement.
- `execute_many`, `list_audit`, `get_thread_status`: reads and bulk writes the protocol does not use.
- KeyboardInterrupt and SystemExit: they pass both handlers and leave the loop with the outcome as it was.
- A step function that returns something other than a dictionary.
- `RedisEventBus`, `ping`, singletons, reset helpers and the PostgresSaver detection (app/agent/checkpointing.py:110-126): transport and wiring.
- app/api, app/tools/sandbox.py, app/config.py, scripts and reports: thin wrappers, subprocess plumbing, environment parsing and formatting, which would only add easy members.
