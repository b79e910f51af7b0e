/** What the events of a run say about its steps: each step.start announces a call, each step.end a
    stored checkpoint, and the end event the last one. */
module Announcements {
  import opened Base
  import opened Store
  import opened Machine
  import opened AuditFirst
  import opened EventTrace
  import opened Accounting
  import opened Completion
  import opened Counting

  /** The events of one kind that carry a request id. */
  function Of(events: seq<Event>, request: Id, kind: Kind): seq<Event> {
    if events == [] then []
    else
      var front := Of(events[..|events| - 1], request, kind);
      if Last(events).request == request && Last(events).kind == kind then front + [Last(events)] else front
  }

  /** The calls of the step function that a request started. */
  function By(calls: seq<Call>, request: Id): seq<Call> {
    if calls == [] then []
    else
      var front := By(calls[..|calls| - 1], request);
      if Last(calls).request == request then front + [Last(calls)] else front
  }

  /** What one run did and said. */
  datatype Log = Log(calls: seq<Call>, made: seq<Checkpoint>, starts: seq<Event>, ends: seq<Event>, finals: seq<Event>)

  function LogOf(s: Store, request: Id): Log {
    Log(By(s.calls, request), Made(s.checkpoints, request), Of(s.events, request, EvStepStart), Of(s.events, request, EvStepEnd),
        Of(s.events, request, EvEnd))
  }

  const SILENT: Log := Log([], [], [], [], [])

  /** The step number of a state. */
  function StepIn(st: State): Value {
    if "step" in st then st["step"] else Null
  }

  /** The i-th step.start carries the step number of the argument of the i-th call, the i-th checkpoint
      is the result of that call, the i-th step.end names that checkpoint and carries the step number
      of its state, and an end event carries the step number of the last one. */
  ghost predicate Agree(log: Log) {
    && |log.ends| <= |log.made| <= |log.calls| <= |log.starts| <= |log.calls| + 1
    && (forall i :: 0 <= i < |log.calls| ==> log.starts[i].step == StepIn(log.calls[i].arg))
    && (forall i :: 0 <= i < |log.made| ==> log.made[i].origin == log.calls[i])
    && (forall i :: 0 <= i < |log.ends| ==>
          log.ends[i].step == StepIn(log.made[i].state) && log.ends[i].checkpoint == Some(log.made[i].id))
    && (forall i :: 0 <= i < |log.finals| ==> log.made != [] && log.finals[i].step == StepIn(Last(log.made).state))
  }

  /** All iterations are done. */
  predicate Even(log: Log, n: nat) {
    |log.starts| == n && |log.calls| == n && |log.made| == n && |log.ends| == n && log.finals == []
  }

  predicate Announced(log: Log, l: Loop) {
    |log.starts| == l.done + 1 && |log.calls| == l.done && |log.made| == l.done && |log.ends| == l.done && log.finals == []
    && log.starts[l.done].step == StepIn(l.state)
  }

  predicate Called(log: Log, c: Call, n: nat) {
    |log.starts| == n + 1 && |log.calls| == n + 1 && |log.made| == n && |log.ends| == n && log.finals == []
    && log.calls[n] == c
  }

  predicate Stored(log: Log, l: Loop) {
    |log.starts| == l.done + 1 && |log.calls| == l.done + 1 && |log.made| == l.done + 1 && |log.ends| == l.done && log.finals == []
    && Continues(l, log.made)
  }

  /** The state that the loop leaves is that of the last checkpoint the run made, if it made any. */
  predicate LeavesLast(log: Log, x: Exit) {
    && (x.raised.None? && log.made != [] ==> x.state == Last(log.made).state)
    && (x.outcome == OutOk ==> log.made != [])
  }

  predicate LogAt(req: Request, pc: Pc, log: Log) {
    match pc
    case MarkRunning(_) => log == SILENT
    case PubStart => log == SILENT
    case Load => log == SILENT
    case CheckKill(l) => Even(log, l.done)
    case PubKilled(l) => Even(log, l.done)
    case MarkKilled(l, _) => Even(log, l.done)
    case PubStepStart(l) => Even(log, l.done)
    case CallStep(l) => Announced(log, l)
    case InStep(l) => Called(log, CallOf(req, l), l.done)
    case Put(l, _) => Called(log, CallOf(req, l), l.done)
    case PubStepEnd(l) => Stored(log, l)
    case MarkFailed(_, _) => log.finals == []
    case PubFailed(_) => log.finals == []
    case Record(x) => LeavesLast(log, x) && log.finals == []
    case MarkCompleted(x, _) => LeavesLast(log, x) && log.finals == [] && x.raised.None? && x.outcome == OutOk
    case PubEnd(x) => LeavesLast(log, x) && log.finals == [] && x.raised.None? && x.outcome == OutOk
    case Finished(Unrecorded(x, _)) => LeavesLast(log, x)
    case Finished(Unfinished(x, _)) => LeavesLast(log, x)
    case Finished(Returned(x)) => LeavesLast(log, x)
    case _ => true
  }

  ghost predicate Logged(req: Request, pc: Pc, log: Log) {
    LogAt(req, pc, log) && Agree(log)
  }

  /** The log after an operation of the run. */
  function LogAfter(log: Log, op: Op, lands: bool): Log {
    if !lands then log
    else
      match op
      case StartStep(c) => log.(calls := log.calls + [c])
      case InsertCheckpoint(c) => log.(made := log.made + [c])
      case Publish(e) =>
        if e.kind == EvStepStart then log.(starts := log.starts + [e])
        else if e.kind == EvStepEnd then log.(ends := log.ends + [e])
        else if e.kind == EvEnd then log.(finals := log.finals + [e])
        else log
      case _ => log
  }

  // ---------------------------------------------------------------- one step of the run

  /** The counters at which the run adds to its log. */
  predicate Speaks(pc: Pc) {
    pc.PubStepStart? || pc.CallStep? || pc.Put? || pc.PubStepEnd? || pc.PubEnd?
  }

  lemma QuietStep(cfg: Config, s: Store, req: Request, pc: Pc, mv: Move, log: Log, m: Mark)
    requires !Speaks(pc) && !pc.Audit? && Logged(req, pc, log) && MadeAt(pc, m, log.made)
    ensures LogAt(req, Proceed(cfg, s, Run(req, pc), mv).pc, log)
    ensures LogAfter(log, RunOp(req, pc, mv), Lands(cfg, s, RunOp(req, pc, mv), mv)) == log
  {
    hide Agree, Override;
  }

  lemma StartLogged(cfg: Config, s: Store, req: Request, pc: Pc, mv: Move, log: Log, m: Mark, lands: bool)
    requires pc.PubStepStart? && Logged(req, pc, log) && MadeAt(pc, m, log.made)
    requires Settle(cfg, s, RunOp(req, pc, mv), mv) == Done ==> lands
    ensures Logged(req, Proceed(cfg, s, Run(req, pc), mv).pc, LogAfter(log, RunOp(req, pc, mv), lands))
  {
  }

  lemma CallLogged(cfg: Config, s: Store, req: Request, pc: Pc, mv: Move, log: Log)
    requires pc.CallStep? && Logged(req, pc, log)
    ensures Logged(req, Proceed(cfg, s, Run(req, pc), mv).pc, LogAfter(log, RunOp(req, pc, mv), true))
  {
  }

  lemma PutLogged(cfg: Config, s: Store, req: Request, pc: Pc, mv: Move, log: Log, lands: bool)
    requires pc.Put? && Logged(req, pc, log)
    requires Settle(cfg, s, RunOp(req, pc, mv), mv) == Done ==> lands
    ensures Logged(req, Proceed(cfg, s, Run(req, pc), mv).pc, LogAfter(log, RunOp(req, pc, mv), lands))
  {
    var made := log.made + [RunOp(req, pc, mv).checkpoint];
    assert Last(made) == RunOp(req, pc, mv).checkpoint;
  }

  lemma EndLogged(cfg: Config, s: Store, req: Request, pc: Pc, mv: Move, log: Log, lands: bool)
    requires pc.PubStepEnd? && Logged(req, pc, log)
    requires Settle(cfg, s, RunOp(req, pc, mv), mv) == Done ==> lands
    ensures Logged(req, Proceed(cfg, s, Run(req, pc), mv).pc, LogAfter(log, RunOp(req, pc, mv), lands))
  {
    hide IsComplete;
    assert log.made[pc.l.done] == Last(log.made);
  }

  lemma FinalLogged(cfg: Config, s: Store, req: Request, pc: Pc, mv: Move, log: Log, lands: bool)
    requires pc.PubEnd? && Logged(req, pc, log)
    ensures Logged(req, Proceed(cfg, s, Run(req, pc), mv).pc, LogAfter(log, RunOp(req, pc, mv), lands))
  {
  }

  lemma StepLogged(cfg: Config, s: Store, req: Request, pc: Pc, mv: Move, log: Log, m: Mark)
    requires !pc.Audit? && Logged(req, pc, log) && MadeAt(pc, m, log.made)
    ensures
      var op := RunOp(req, pc, mv);
      Logged(req, Proceed(cfg, s, Run(req, pc), mv).pc, LogAfter(log, op, Lands(cfg, s, op, mv)))
  {
    hide LogAt, Agree, MadeAt, LogAfter, Proceed, RunOp, Rejects;
    var op := RunOp(req, pc, mv);
    var lands := Lands(cfg, s, op, mv);
    DoneLands(cfg, s, op, mv);
    if pc.PubStepStart? {
      StartLogged(cfg, s, req, pc, mv, log, m, lands);
    } else if pc.CallStep? {
      CallIsStart(req, pc, mv);
      CallLogged(cfg, s, req, pc, mv, log);
    } else if pc.Put? {
      PutLogged(cfg, s, req, pc, mv, log, lands);
    } else if pc.PubStepEnd? {
      EndLogged(cfg, s, req, pc, mv, log, lands);
    } else if pc.PubEnd? {
      FinalLogged(cfg, s, req, pc, mv, log, lands);
    } else {
      QuietStep(cfg, s, req, pc, mv, log, m);
    }
  }

  lemma CallIsStart(req: Request, pc: Pc, mv: Move)
    requires pc.CallStep?
    ensures RunOp(req, pc, mv).StartStep?
  {
  }

  lemma DoneLands(cfg: Config, s: Store, op: Op, mv: Move)
    ensures Settle(cfg, s, op, mv) == Done || op.StartStep? ==> Lands(cfg, s, op, mv)
  {
  }

  // ---------------------------------------------------------------- every run in the world

  lemma OfAppend(events: seq<Event>, e: Event, request: Id, kind: Kind)
    ensures Of(events + [e], request, kind)
         == if e.request == request && e.kind == kind then Of(events, request, kind) + [e] else Of(events, request, kind)
  {
    assert (events + [e])[..|events|] == events;
  }

  lemma ByAppend(calls: seq<Call>, c: Call, request: Id)
    ensures By(calls + [c], request) == if c.request == request then By(calls, request) + [c] else By(calls, request)
  {
    assert (calls + [c])[..|calls|] == calls;
  }

  lemma {:induction false} OfNone(events: seq<Event>, request: Id, kind: Kind)
    requires forall e :: e in events ==> e.request != request
    ensures Of(events, request, kind) == []
  {
    if events != [] {
      OfNone(events[..|events| - 1], request, kind);
    }
  }

  lemma {:induction false} ByNone(calls: seq<Call>, request: Id)
    requires forall c :: c in calls ==> c.request != request
    ensures By(calls, request) == []
  {
    if calls != [] {
      ByNone(calls[..|calls| - 1], request);
    }
  }

  /** The request an operation speaks or stores for. */
  function RequestOf(op: Op): Option<Id> {
    match op
    case StartStep(c) => Some(c.request)
    case InsertCheckpoint(c) => Some(c.origin.request)
    case Publish(e) => Some(e.request)
    case _ => None
  }

  lemma PerformLog(cfg: Config, s: Store, op: Op, mv: Move, request: Id)
    ensures
      LogOf(Perform(cfg, s, op, mv), request)
        == if RequestOf(op) == Some(request) then LogAfter(LogOf(s, request), op, Lands(cfg, s, op, mv)) else LogOf(s, request)
  {
    match op
    case StartStep(c) => ByAppend(s.calls, c, request);
    case InsertCheckpoint(c) => MadeAppend(s.checkpoints, c, request);
    case Publish(e) =>
      OfAppend(s.events, e, request, EvStepStart);
      OfAppend(s.events, e, request, EvStepEnd);
      OfAppend(s.events, e, request, EvEnd);
    case _ =>
  }

  lemma SpeaksForItself(p: Proc, mv: Move)
    ensures RequestOf(OpOf(p, mv)).Some? ==> Passed(p) && RequestOf(OpOf(p, mv)) == Some(p.req.id)
  {
  }

  lemma UnauditedLog(s: Store, request: Id)
    requires TablesCovered(s) && !AuditHas(s.audit, request)
    ensures LogOf(s, request) == SILENT
  {
    forall id, t | Covered(s.audit, id, t) ensures id != request {
      var r :| r in s.audit && r.id == id && r.thread == t;
      var i :| 0 <= i < |s.audit| && s.audit[i] == r;
    }
    UnauditedMadeNothing(s, request);
    ByNone(s.calls, request);
    OfNone(s.events, request, EvStepStart);
    OfNone(s.events, request, EvStepEnd);
    OfNone(s.events, request, EvEnd);
  }

  ghost predicate RunLogged(s: Store, p: Proc) {
    Passed(p) ==> Logged(p.req, p.pc, LogOf(s, p.req.id))
  }

  ghost predicate AllLogged(w: World) {
    forall pid :: pid in w.procs ==> RunLogged(w.store, w.procs[pid])
  }

  lemma GateLogged(cfg: Config, s: Store, p: Proc, mv: Move)
    requires TablesCovered(s) && p.Run? && p.pc.Audit?
    ensures RunLogged(Perform(cfg, s, OpOf(p, mv), mv), Proceed(cfg, s, p, mv))
  {
    hide LogOf, TablesCovered;
    PerformLog(cfg, s, OpOf(p, mv), mv, p.req.id);
    if Settle(cfg, s, OpOf(p, mv), mv) == Done {
      UnauditedLog(s, p.req.id);
    }
  }

  lemma OwnLogged(cfg: Config, s: Store, p: Proc, mv: Move)
    requires TablesCovered(s) && RunCounts(s, p) && RunLogged(s, p)
    ensures RunLogged(Perform(cfg, s, OpOf(p, mv), mv), Proceed(cfg, s, p, mv))
  {
    hide Logged, MadeAt, Within, Consecutive, Rejects, Apply, RunFault, RunNext, TablesCovered, RunOp, KillOp, LogAfter;
    if p.Run? && p.pc.Audit? {
      GateLogged(cfg, s, p, mv);
    } else if Passed(p) {
      PerformLog(cfg, s, OpOf(p, mv), mv, p.req.id);
      SpeaksForItself(p, mv);
      NothingSaid(LogOf(s, p.req.id), OpOf(p, mv));
      StepLogged(cfg, s, p.req, p.pc, mv, LogOf(s, p.req.id), MarkOf(s.events, p.req.id));
    } else {
      UnpassedStays(cfg, s, p, mv);
    }
  }

  lemma NothingSaid(log: Log, op: Op)
    ensures RequestOf(op) == None ==> forall lands :: LogAfter(log, op, lands) == log
  {
  }

  lemma DoKeepsLogs(cfg: Config, w: World, a: Action)
    requires AuditInv(w) && IdInv(w) && AllCount(w) && AllLogged(w)
    ensures AllLogged(Do(cfg, w, a))
  {
    hide Logged, Counts, TablesCovered, DistinctIds, OpOf, Proceed, Perform, LogOf;
    var w' := Do(cfg, w, a);
    if a.Advance? && a.pid in w.procs {
      var p := w.procs[a.pid];
      OwnLogged(cfg, w.store, p, a.move);
      SpeaksForItself(p, a.move);
      forall j | j in w'.procs && j != a.pid ensures RunLogged(w'.store, w'.procs[j]) {
        if Passed(w.procs[j]) {
          PerformLog(cfg, w.store, OpOf(p, a.move), a.move, w.procs[j].req.id);
        }
      }
    }
  }

  // ---------------------------------------------------------------- main results

  lemma {:induction false} LogsAlways(cfg: Config, acts: seq<Action>)
    ensures AllLogged(Exec(cfg, START, acts))
  {
    if acts != [] {
      var front := acts[..|acts| - 1];
      LogsAlways(cfg, front);
      CountsAlways(cfg, front);
      AuditAlways(cfg, front);
      RequestIdsUnique(cfg, front);
      DoKeepsLogs(cfg, Exec(cfg, START, front), Last(acts));
    }
  }

  /** Under every schedule, what a run has published about its steps agrees with the calls it
      started and the checkpoints it stored; and the state it returns is that of its last checkpoint. */
  lemma EventsTellTheSteps(cfg: Config, acts: seq<Action>, pid: Pid)
    requires
      var w := Exec(cfg, START, acts);
      pid in w.procs && Passed(w.procs[pid])
    ensures
      var w := Exec(cfg, START, acts);
      var p, log := w.procs[pid], LogOf(w.store, w.procs[pid].req.id);
      && Agree(log)
      && (p.pc.Finished? && p.pc.ending.Returned? && log.made != [] ==> p.pc.ending.exit.state == Last(log.made).state)
  {
    hide Exec, LogOf, Agree, Proceed;
    LogsAlways(cfg, acts);
    CountsAlways(cfg, acts);
    AccountsAlways(cfg, acts);
    var w := Exec(cfg, START, acts);
    assert RunLogged(w.store, w.procs[pid]) && RunAccounts(w.store, w.procs[pid]);
  }
}
