/** The code of the supervisor, the thread state functions and the checkpointer, in the
    form in which they are written. Every method below keeps the event loop valid: whatever
    it does, at whatever fault and under whatever interference, is a run of the step machine,
    so what is proved of the machine's schedules holds of this code. */
module Supervisors {
  import opened Base
  import opened Store
  import opened Machine
  import opened AuditFirst
  import opened Completion
  import opened KillRequests
  import opened Databases
  import opened EventLoops

  /** The exception that leaves a call. */
  datatype Exception = AuditError | OtherError | CancelledError

  datatype Reply =
    | Return(thread: Id, request: Id, outcome: Outcome, state: State)
    | Raise(exception: Exception)

  datatype KillReply = KillAccepted(thread: Id, previous: Option<Status>) | KillRaised

  function ExceptionOf(f: Fault): Exception {
    if f == FaultCancel then CancelledError else OtherError
  }

  /** The exception that a run which ended so raises. */
  function RaisedBy(ending: Ending): Option<Exception> {
    match ending
    case Refused(f) => Some(if f == FaultError then AuditError else CancelledError)
    case Aborted(f) => Some(ExceptionOf(f))
    case Unrecorded(_, f) => Some(ExceptionOf(f))
    case Escaped(x) => if x.raised.Some? then Some(ExceptionOf(x.raised.value)) else None
    case Unfinished(_, f) => Some(ExceptionOf(f))
    case Returned(_) => None
  }

  /** The caller gets a result exactly where the machine's run returned, and the same one; and
      where it did not, the exception that ended it. */
  predicate Reports(reply: Reply, req: Request, ending: Ending) {
    match reply
    case Return(t, id, outcome, state) =>
      ending == Returned(Exit(outcome, state, None)) && t == req.thread && id == req.id
    case Raise(e) => RaisedBy(ending) == Some(e)
  }

  /** Where an upsert leads when its write returned. */
  function AfterUpsert(p: Proc): Proc {
    match p
    case Run(req, MarkRunning(_)) => Run(req, PubStart)
    case Run(req, MarkKilled(l, _)) => Run(req, Record(Exit(OutKilled, l.state, None)))
    case Run(req, MarkFailed(f, _)) => Run(req, PubFailed(f))
    case Run(req, MarkCompleted(x, _)) => Run(req, PubEnd(x))
    case Killer(t, KillUpsert(prev, _)) => Killer(t, KillDone(prev))
    case _ => p
  }

  function AfterFault(p: Proc, fate: Fate): Proc {
    match p
    case Run(req, pc) => Run(req, RunFault(pc, ToFault(fate)))
    case Killer(t, kpc) => Killer(t, KillFault(kpc))
  }

  /** The process is about to start this upsert. */
  predicate AtUpsert(p: Proc, t: Id, status: Status, kill: Option<bool>) {
    match p
    case Run(req, MarkRunning(Look)) => t == req.thread && status == Running && kill == None
    case Run(req, MarkKilled(_, Look)) => t == req.thread && status == Killed && kill == None
    case Run(req, MarkFailed(f, Look)) => t == req.thread && status == FaultStatus(f) && kill == None
    case Run(req, MarkCompleted(_, Look)) => t == req.thread && status == Completed && kill == None
    case Killer(u, KillUpsert(_, Look)) => t == u && status == KillRequested && kill == Some(true)
    case _ => false
  }

  // ---------------------------------------------------------------- thread state

  class ThreadState {
    const loop: EventLoop

    constructor (loop: EventLoop)
      ensures this.loop == loop
    {
      this.loop := loop;
    }

    /** `fetch_one` on the thread's row. `at` is the state of the stores at that instant. */
    method FetchRow(pid: Pid, t: Id) returns (fate: Fate, row: Option<ThreadRow>, ghost m: Move, ghost at: Store)
      requires loop.Valid() && pid in loop.procs && forall m :: OpOf(loop.procs[pid], m) == ReadThread(t)
      modifies loop, loop.db, loop.bus
      ensures loop.Valid() && old(loop.trace) <= loop.trace && pid in loop.procs
      ensures fate == Settle(loop.cfg, at, ReadThread(t), m)
      ensures loop.procs[pid] == Proceed(loop.cfg, at, old(loop.procs)[pid], m)
      ensures row == if t in at.threads then Some(at.threads[t]) else None
    {
      var move := loop.Suspend(pid);
      m, at := move, loop.Now();
      row := if t in loop.db.threads then Some(loop.db.threads[t]) else None;
      fate := loop.Await(pid, ReadThread(t), move);
    }

    /** One statement whose outcome does not depend on the tables read so far. */
    method Execute(pid: Pid, op: Op) returns (fate: Fate, ghost m: Move, ghost at: Store)
      requires loop.Valid() && pid in loop.procs && forall m :: OpOf(loop.procs[pid], m) == op
      modifies loop, loop.db, loop.bus
      ensures loop.Valid() && old(loop.trace) <= loop.trace && pid in loop.procs
      ensures fate == Settle(loop.cfg, at, op, m)
      ensures loop.procs[pid] == Proceed(loop.cfg, at, old(loop.procs)[pid], m)
    {
      var move := loop.Suspend(pid);
      m, at := move, loop.Now();
      fate := loop.Await(pid, op, move);
    }

    /** Read the row, then insert or update it: two awaits, with anything in between. */
    method Upsert(pid: Pid, t: Id, status: Status, kill: Option<bool>) returns (fate: Fate)
      requires loop.Valid() && pid in loop.procs && AtUpsert(loop.procs[pid], t, status, kill)
      modifies loop, loop.db, loop.bus
      ensures loop.Valid() && old(loop.trace) <= loop.trace && pid in loop.procs
      ensures loop.procs[pid] == if fate == Done then AfterUpsert(old(loop.procs)[pid]) else AfterFault(old(loop.procs)[pid], fate)
    {
      hide EventLoop.Valid, Apply, Exec;
      var existing;
      ghost var m, at;
      fate, existing, m, at := FetchRow(pid, t);
      if fate != Done {
        return;
      }
      if existing.None? {
        fate, m, at := Execute(pid, InsertThread(t, ThreadRow(status, kill.GetOr(false))));
      } else {
        var flag := if kill.None? then existing.value.kill else kill.value;
        fate, m, at := Execute(pid, UpdateThread(t, ThreadRow(status, flag)));
      }
    }

    method SetThreadStatus(pid: Pid, t: Id, status: Status) returns (fate: Fate)
      requires loop.Valid() && pid in loop.procs && AtUpsert(loop.procs[pid], t, status, None)
      modifies loop, loop.db, loop.bus
      ensures loop.Valid() && old(loop.trace) <= loop.trace && pid in loop.procs
      ensures loop.procs[pid] == if fate == Done then AfterUpsert(old(loop.procs)[pid]) else AfterFault(old(loop.procs)[pid], fate)
    {
      fate := Upsert(pid, t, status, None);
    }

    /** Both branches of `request_kill` write the same row; they differ in the status reported. */
    method RequestKill(pid: Pid, t: Id) returns (reply: KillReply)
      requires loop.Valid() && pid !in loop.procs
      modifies loop, loop.db, loop.bus
      ensures loop.Valid() && old(loop.trace) + [Kill(pid, t)] <= loop.trace && pid in loop.procs
      ensures match reply
              case KillAccepted(u, previous) =>
                && u == t && loop.procs[pid] == Killer(t, KillDone(previous)) && Wrote(loop.cfg, loop.trace, pid, t)
                && KillStoryOf(loop.cfg, loop.trace, pid) == KillStory(Some(previous), true, false)
              case KillRaised =>
                loop.procs[pid] == Killer(t, KillFailed) && KillStoryOf(loop.cfg, loop.trace, pid).failed
    {
      loop.Spawn(Kill(pid, t));
      var fate, existing, m, at := FetchRow(pid, t);
      if fate != Done {
        FailedKillFailed(loop.cfg, loop.trace, pid, t);
        return KillRaised;
      }
      if existing.None? {
        fate := Upsert(pid, t, KillRequested, Some(true));
        reply := if fate == Done then KillAccepted(t, None) else KillRaised;
      } else {
        fate := Upsert(pid, t, KillRequested, Some(true));
        reply := if fate == Done then KillAccepted(t, Some(existing.value.status)) else KillRaised;
      }
      if fate == Done {
        AcceptedKillIsWritten(loop.cfg, loop.trace, pid, t, reply.previous);
      } else {
        FailedKillFailed(loop.cfg, loop.trace, pid, t);
      }
    }

    method IsKillRequested(pid: Pid, t: Id) returns (fate: Fate, flag: bool, ghost m: Move, ghost at: Store)
      requires loop.Valid() && pid in loop.procs && forall m :: OpOf(loop.procs[pid], m) == ReadThread(t)
      modifies loop, loop.db, loop.bus
      ensures loop.Valid() && old(loop.trace) <= loop.trace && pid in loop.procs
      ensures fate == Settle(loop.cfg, at, ReadThread(t), m)
      ensures loop.procs[pid] == Proceed(loop.cfg, at, old(loop.procs)[pid], m)
      ensures flag == (t in at.threads && at.threads[t].kill)
    {
      var row;
      fate, row, m, at := FetchRow(pid, t);
      flag := if row.None? then false else row.value.kill;
    }
  }

  // ---------------------------------------------------------------- checkpoints

  class PostgresCheckpointer {
    const loop: EventLoop

    constructor (loop: EventLoop)
      ensures this.loop == loop
    {
      this.loop := loop;
    }

    /** Append a row under a freshly drawn id. */
    method Put(pid: Pid, t: Id, state: State, parent: Option<Id>) returns (fate: Fate, id: Id)
      requires loop.Valid() && pid in loop.procs && loop.procs[pid].Run? && loop.procs[pid].pc.Put?
      requires loop.procs[pid].req.thread == t && loop.procs[pid].pc.next == state && loop.procs[pid].pc.l.parent == parent
      modifies loop, loop.db, loop.bus
      ensures loop.Valid() && old(loop.trace) <= loop.trace && pid in loop.procs
      ensures loop.procs[pid] == if fate == Done
        then Run(old(loop.procs)[pid].req, PubStepEnd(Loop(state, Some(id), old(loop.procs)[pid].pc.l.done)))
        else AfterFault(old(loop.procs)[pid], fate)
    {
      var origin := CallOf(loop.procs[pid].req, loop.procs[pid].pc.l);
      var m := loop.Suspend(pid);
      id := m.id;
      fate := loop.Await(pid, InsertCheckpoint(Checkpoint(t, id, parent, state, origin)), m);
    }

    /** The latest row, with its state read back from JSON. */
    method GetLatest(pid: Pid, t: Id) returns (fate: Fate, latest: Option<Checkpoint>, ghost m: Move, ghost at: Store)
      requires loop.Valid() && pid in loop.procs && forall m :: OpOf(loop.procs[pid], m) == ReadLatest(t)
      modifies loop, loop.db, loop.bus
      ensures loop.Valid() && old(loop.trace) <= loop.trace && pid in loop.procs
      ensures fate == Settle(loop.cfg, at, ReadLatest(t), m)
      ensures loop.procs[pid] == Proceed(loop.cfg, at, old(loop.procs)[pid], m)
      ensures latest == match Latest(at.checkpoints, t)
                        case None => None
                        case Some(c) => Some(c.(state := loop.cfg.reload(c.state)))
    {
      var move := loop.Suspend(pid);
      m, at := move, loop.Now();
      var row := Latest(loop.db.checkpoints, t);
      latest := if row.None? then None else Some(row.value.(state := loop.cfg.reload(row.value.state)));
      fate := loop.Await(pid, ReadLatest(t), move);
    }

    /** All rows of a thread in order, each with its state read back from JSON. */
    method ListAll(t: Id) returns (out: seq<Checkpoint>)
      ensures |out| == |RowsOf(loop.db.checkpoints, t)|
      ensures forall i :: 0 <= i < |out| ==>
        var r := RowsOf(loop.db.checkpoints, t)[i]; out[i] == r.(state := loop.cfg.reload(r.state))
    {
      var rows := RowsOf(loop.db.checkpoints, t);
      out := [];
      for i := 0 to |rows|
        invariant |out| == i
        invariant forall j :: 0 <= j < i ==> out[j] == rows[j].(state := loop.cfg.reload(rows[j].state))
      {
        out := out + [rows[i].(state := loop.cfg.reload(rows[i].state))];
      }
    }
  }

  // ---------------------------------------------------------------- the supervisor

  class Supervisor {
    const loop: EventLoop
    const state: ThreadState
    const checkpointer: PostgresCheckpointer
    var maxSteps: int

    constructor (loop: EventLoop, maxSteps: int)
      ensures this.loop == loop && state.loop == loop && checkpointer.loop == loop && this.maxSteps == maxSteps
    {
      this.loop := loop;
      this.maxSteps := maxSteps;
      state := new ThreadState(loop);
      checkpointer := new PostgresCheckpointer(loop);
    }

    ghost predicate Ready(pid: Pid)
      reads this, loop, loop.db, loop.bus
    {
      && state.loop == loop && checkpointer.loop == loop
      && loop.Valid() && pid in loop.procs
    }

    /** A coroutine of this supervisor at this point of `invoke`. */
    ghost predicate Stands(pid: Pid, req: Request, pc: Pc)
      reads this, loop, loop.db, loop.bus
    {
      Ready(pid) && loop.procs[pid] == Run(req, pc)
    }

    /** `_publish`. */
    method Publish(pid: Pid, req: Request, kind: Kind, step: Value, checkpoint: Option<Id>, ghost pc: Pc, ghost next: Pc) returns (fate: Fate)
      requires Stands(pid, req, pc)
      requires forall m :: RunOp(req, pc, m) == Op.Publish(EventOf(req, kind, step, checkpoint))
      requires forall s, m :: RunNext(loop.cfg, s, req, pc, m) == next
      modifies loop, loop.db, loop.bus
      ensures old(loop.trace) <= loop.trace
      ensures Stands(pid, req, if fate == Done then next else RunFault(pc, ToFault(fate)))
    {
      var m := loop.Suspend(pid);
      fate := loop.Await(pid, Op.Publish(Event(kind, req.thread, req.id, step, checkpoint)), m);
    }

    /** `insert_audit`: any failure of the insert that is not a cancellation becomes an AuditError. */
    method InsertAudit(pid: Pid, req: Request) returns (failure: Option<Exception>)
      requires Stands(pid, req, Audit)
      modifies loop, loop.db, loop.bus
      ensures old(loop.trace) <= loop.trace
      ensures Stands(pid, req,
        if failure == None then MarkRunning(Look)
        else Finished(Refused(if failure.value == AuditError then FaultError else FaultCancel)))
      ensures failure != Some(OtherError)
    {
      var m := loop.Suspend(pid);
      var fate := loop.Await(pid, Op.InsertAudit(AuditRow(req.id, req.thread, req.input)), m);
      failure := match fate case Done => None case Raised => Some(AuditError) case Interrupted => Some(CancelledError);
    }

    /** `record_invoke_latency`. */
    method RecordInvokeLatency(pid: Pid, req: Request, x: Exit) returns (fate: Fate, elapsed: real)
      requires Stands(pid, req, Record(x))
      modifies loop, loop.db, loop.bus
      ensures old(loop.trace) <= loop.trace
      ensures fate != Done ==> Stands(pid, req, Finished(Unrecorded(x, ToFault(fate))))
      ensures fate == Done ==> exists id :: Metric(id, req.thread, req.id, x.outcome, elapsed) in loop.db.metrics
      ensures fate == Done ==> Stands(pid, req,
        if x.raised.Some? then Finished(Escaped(x))
        else if x.outcome == OutOk then MarkCompleted(x, Look)
        else Finished(Returned(x)))
    {
      var m := loop.Suspend(pid);
      elapsed := m.ms;
      fate := loop.Await(pid, InsertMetric(Metric(m.id, req.thread, req.id, x.outcome, elapsed)), m);
      if fate == Done {
        assert Metric(m.id, req.thread, req.id, x.outcome, elapsed) in loop.Now().metrics;
      }
    }

    /** `await self.step_fn(state)`: the call starts at once; what it returns, or that it
        raises, comes after anything else may have happened. */
    method CallStepFn(pid: Pid, req: Request, l: Loop) returns (fate: Fate, next: State)
      requires Stands(pid, req, CallStep(l))
      modifies loop, loop.db, loop.bus
      ensures old(loop.trace) <= loop.trace
      ensures Stands(pid, req, if fate == Done then Put(l, next) else MarkFailed(ToFault(fate), Look))
    {
      var m := loop.Suspend(pid);
      fate := loop.Await(pid, StartStep(CallOf(req, l)), m);
      m := loop.Suspend(pid);
      next := loop.cfg.step(l.state, m.oracle).GetOr(l.state);
      fate := loop.Await(pid, AwaitStep(CallOf(req, l), m.oracle), m);
    }

    /** Resume from the latest checkpoint, if any. */
    method LoadState(pid: Pid, req: Request) returns (raised: Fate, st: State, parent: Option<Id>)
      requires Stands(pid, req, Load)
      modifies loop, loop.db, loop.bus
      ensures old(loop.trace) <= loop.trace
      ensures Stands(pid, req, if raised == Done then LoopHead(req, Loop(st, parent, 0)) else MarkFailed(ToFault(raised), Look))
    {
      var latest;
      ghost var m, at;
      raised, latest, m, at := checkpointer.GetLatest(pid, req.thread);
      st := if latest.Some? then latest.value.state else FRESH;
      st := st["input" := Str(req.input)];
      st := st["thread_id" := Str(req.thread)];
      parent := if latest.Some? then Some(latest.value.id) else None;
    }

    /** The flag check at the head of an iteration. */
    method CheckFlag(pid: Pid, req: Request, l: Loop) returns (raised: Fate, killed: bool)
      requires Stands(pid, req, CheckKill(l))
      modifies loop, loop.db, loop.bus
      ensures old(loop.trace) <= loop.trace
      ensures Stands(pid, req,
        if raised != Done then MarkFailed(ToFault(raised), Look) else if killed then PubKilled(l) else PubStepStart(l))
    {
      ghost var m, at;
      raised, killed, m, at := state.IsKillRequested(pid, req.thread);
    }

    /** The kill branch of the loop. */
    method StopKilled(pid: Pid, req: Request, l: Loop) returns (raised: Fate)
      requires Stands(pid, req, PubKilled(l))
      modifies loop, loop.db, loop.bus
      ensures old(loop.trace) <= loop.trace
      ensures Stands(pid, req, if raised == Done then Record(Exit(OutKilled, l.state, None)) else MarkFailed(ToFault(raised), Look))
    {
      raised := Publish(pid, req, EvKilled, Null, None, PubKilled(l), MarkKilled(l, Look));
      if raised == Done {
        raised := state.SetThreadStatus(pid, req.thread, Killed);
      }
    }

    /** One iteration after the flag check: announce, step, checkpoint, announce. */
    method RunStep(pid: Pid, req: Request, l: Loop) returns (raised: Fate, st: State, parent: Option<Id>)
      requires Stands(pid, req, PubStepStart(l))
      modifies loop, loop.db, loop.bus
      ensures old(loop.trace) <= loop.trace
      ensures Stands(pid, req,
        if raised != Done then MarkFailed(ToFault(raised), Look)
        else if !NotCompleted(st) then Record(Exit(OutOk, st, None))
        else if l.done + 1 < req.bound then CheckKill(Loop(st, parent, l.done + 1))
        else Record(Exit(OutMaxSteps, st, None)))
    {
      hide EventLoop.Valid, Exec, NotCompleted, IsComplete;
      st, parent := l.state, l.parent;
      raised := Publish(pid, req, EvStepStart, Get(st, "step"), None, PubStepStart(l), CallStep(l));
      if raised != Done {
        return;
      }
      raised, st := CallStepFn(pid, req, l);
      if raised != Done {
        return;
      }
      var id;
      raised, id := checkpointer.Put(pid, req.thread, st, parent);
      if raised != Done {
        return;
      }
      parent := Some(id);
      raised := FinishStep(pid, req, Loop(st, parent, l.done));
      CompleteIff(st);
    }

    method FinishStep(pid: Pid, req: Request, l: Loop) returns (fate: Fate)
      requires Stands(pid, req, PubStepEnd(l))
      modifies loop, loop.db, loop.bus
      ensures old(loop.trace) <= loop.trace
      ensures Stands(pid, req,
        if fate != Done then MarkFailed(ToFault(fate), Look)
        else if IsComplete(l.state) then Record(Exit(OutOk, l.state, None))
        else LoopHead(req, Loop(l.state, l.parent, l.done + 1)))
    {
      var next := if IsComplete(l.state) then Record(Exit(OutOk, l.state, None)) else LoopHead(req, Loop(l.state, l.parent, l.done + 1));
      fate := Publish(pid, req, EvStepEnd, Get(l.state, "step"), l.parent, PubStepEnd(l), next);
    }

    /** The try block: it either leaves `outcome` and `result_state` as the finally block
        will find them, or raises. */
    method TryBlock(pid: Pid, req: Request) returns (raised: Fate, outcome: Outcome, resultState: State)
      requires Stands(pid, req, Load) && req.bound == maxSteps
      modifies loop, loop.db, loop.bus
      ensures old(loop.trace) <= loop.trace
      ensures Stands(pid, req,
        if raised == Done then Record(Exit(outcome, resultState, None)) else MarkFailed(ToFault(raised), Look))
      ensures outcome != OutError && outcome != OutCancelled
    {
      hide Exec, Resume, EventLoop.Valid;
      outcome, resultState := OutOk, map[];
      var st, parent;
      raised, st, parent := LoadState(pid, req);
      var i := 0;
      while raised == Done && i < maxSteps
        invariant 0 <= i && req.bound == maxSteps && outcome == OutOk
        invariant old(loop.trace) <= loop.trace
        invariant Stands(pid, req,
          if raised == Done then LoopHead(req, Loop(st, parent, i)) else MarkFailed(ToFault(raised), Look))
        decreases maxSteps - i
      {
        var killed;
        var l := Loop(st, parent, i);
        raised, killed := CheckFlag(pid, req, l);
        if raised != Done {
          return;
        }
        if killed {
          outcome, resultState := OutKilled, st;
          raised := StopKilled(pid, req, l);
          return;
        }
        raised, st, parent := RunStep(pid, req, l);
        CompleteIff(st);
        if raised == Done && IsComplete(st) {
          resultState := st;
          return;
        }
        i := i + 1;
      }
      if raised == Done {
        outcome, resultState := OutMaxSteps, st;
      }
    }

    /** An except handler. A fault inside it replaces the exception, not the outcome. */
    method Handle(pid: Pid, req: Request, f: Fault) returns (x: Exit)
      requires Stands(pid, req, MarkFailed(f, Look))
      modifies loop, loop.db, loop.bus
      ensures old(loop.trace) <= loop.trace
      ensures Stands(pid, req, Record(x))
      ensures x.outcome == (if f == FaultError then OutError else OutCancelled) && x.raised.Some?
    {
      var raised := state.SetThreadStatus(pid, req.thread, FaultStatus(f));
      if raised == Done {
        raised := Publish(pid, req, FaultKind(f), Null, None, PubFailed(f), Record(Exit(FaultOutcome(f), map[], Some(f))));
      }
      return Exit(FaultOutcome(f), map[], Some(if raised == Done then f else ToFault(raised)));
    }

    /** `invoke`. The drawn ids are parameters of the environment; `pid` names the coroutine. */
    method Invoke(pid: Pid, threadId: Option<Id>, input: string, drawnThread: Id, requestId: Id) returns (reply: Reply)
      requires state.loop == loop && checkpointer.loop == loop && loop.Valid() && pid !in loop.procs
      modifies loop, loop.db, loop.bus
      ensures loop.Valid() && pid in loop.procs && loop.procs[pid].Run? && loop.procs[pid].pc.Finished?
      ensures
        var req := loop.procs[pid].req;
        && req.id == requestId && req.input == input && req.bound == maxSteps
        && old(loop.trace) + [Machine.Invoke(pid, req)] <= loop.trace
        && Reports(reply, req, loop.procs[pid].pc.ending)
      ensures
        var t := loop.procs[pid].req.thread;
        && (threadId == None || threadId == Some("") ==> t == drawnThread)
        && (threadId != None && threadId != Some("") ==> threadId == Some(t))
        && (reply.Return? ==> reply.thread == t && reply.request == requestId)
        && (!loop.procs[pid].pc.ending.Refused? ==> AuditRow(requestId, t, input) in loop.db.audit)
    {
      var tid := if threadId.None? || threadId.value == "" then drawnThread else threadId.value;
      var req := Request(requestId, tid, input, maxSteps);
      loop.Spawn(Machine.Invoke(pid, req));
      var exception := Prologue(pid, req);
      if exception.Some? {
        AuditAlways(loop.cfg, loop.trace);
        return Raise(exception.value);
      }
      var x := TryExcept(pid, req);
      reply := Finish(pid, req, x);
      AuditAlways(loop.cfg, loop.trace);
    }

    /** Audit row, thread status, start event: everything before the try block. */
    method Prologue(pid: Pid, req: Request) returns (exception: Option<Exception>)
      requires Stands(pid, req, Audit)
      modifies loop, loop.db, loop.bus
      ensures old(loop.trace) <= loop.trace
      ensures exception == None ==> Stands(pid, req, Load)
      ensures exception != None ==>
        && Ready(pid) && loop.procs[pid].Run? && loop.procs[pid].req == req
        && loop.procs[pid].pc.Finished? && RaisedBy(loop.procs[pid].pc.ending) == exception
    {
      exception := InsertAudit(pid, req);
      if exception.Some? {
        return;
      }
      var fate := state.SetThreadStatus(pid, req.thread, Running);
      if fate == Done {
        fate := Publish(pid, req, EvStart, Null, None, PubStart, Load);
      }
      exception := if fate == Done then None else Some(ExceptionOf(ToFault(fate)));
    }

    /** The try block with its two handlers. */
    method TryExcept(pid: Pid, req: Request) returns (x: Exit)
      requires Stands(pid, req, Load) && req.bound == maxSteps
      modifies loop, loop.db, loop.bus
      ensures old(loop.trace) <= loop.trace
      ensures Stands(pid, req, Record(x))
      ensures x.raised.Some? <==> x.outcome == OutError || x.outcome == OutCancelled
    {
      var raised, outcome, resultState := TryBlock(pid, req);
      if raised == Done {
        return Exit(outcome, resultState, None);
      }
      x := Handle(pid, req, ToFault(raised));
    }

    /** The finally block and what follows it. */
    method Finish(pid: Pid, req: Request, x: Exit) returns (reply: Reply)
      requires Stands(pid, req, Record(x))
      modifies loop, loop.db, loop.bus
      ensures old(loop.trace) <= loop.trace
      ensures Ready(pid) && loop.procs[pid].Run? && loop.procs[pid].req == req
      ensures loop.procs[pid].pc.Finished? && Reports(reply, req, loop.procs[pid].pc.ending)
    {
      hide EventLoop.Valid, Exec;
      var fate, elapsed := RecordInvokeLatency(pid, req, x);
      if fate != Done {
        return Raise(ExceptionOf(ToFault(fate)));
      }
      if x.raised.Some? {
        return Raise(ExceptionOf(x.raised.value));
      }
      if x.outcome == OutOk {
        fate := state.SetThreadStatus(pid, req.thread, Completed);
        if fate == Done {
          fate := Publish(pid, req, EvEnd, Get(x.state, "step"), None, PubEnd(x), Finished(Returned(x)));
        }
        if fate != Done {
          return Raise(ExceptionOf(ToFault(fate)));
        }
      }
      return Return(req.thread, req.id, x.outcome, x.state);
    }
  }
}
