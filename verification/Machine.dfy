/** The invocation protocol and the kill request as a step machine. A process is
    a program counter that carries the local variables still needed; each step
    performs the operation the program counter stands at. Processes interleave
    freely between steps. */
module Machine {
  import opened Base
  import opened Store

  datatype Request = Request(id: Id, thread: Id, input: string, bound: int)

  /** Progress of an upsert: about to read, or about to write having read the
      stored kill flag (None when there was no row). */
  datatype Phase = Look | Write(seen: Option<bool>)

  /** Loop variables: the state, the parent checkpoint, finished iterations. */
  datatype Loop = Loop(state: State, parent: Option<Id>, done: nat)

  datatype Fault = FaultError | FaultCancel

  /** `outcome` and `result_state` as the try block leaves them, and the exception that is
      on its way out. */
  datatype Exit = Exit(outcome: Outcome, state: State, raised: Option<Fault>)

  datatype Ending =
    | Refused(fault: Fault)                  // the audit insert did not return
    | Aborted(fault: Fault)                  // a fault after the audit row, before the try block
    | Unrecorded(exit: Exit, fault: Fault)   // the metrics insert in the finally block did not return
    | Escaped(exit: Exit)                    // the exception on its way out left the finally block
    | Unfinished(exit: Exit, fault: Fault)   // a fault while marking an ok run completed
    | Returned(exit: Exit)

  datatype Pc =
    | Audit
    | MarkRunning(phase: Phase)
    | PubStart
    | Load
    | CheckKill(l: Loop)
    | PubKilled(l: Loop)
    | MarkKilled(l: Loop, phase: Phase)
    | PubStepStart(l: Loop)
    | CallStep(l: Loop)
    | InStep(l: Loop)
    | Put(l: Loop, next: State)
    | PubStepEnd(l: Loop)
    | MarkFailed(fault: Fault, phase: Phase)
    | PubFailed(fault: Fault)
    | Record(exit: Exit)
    | MarkCompleted(exit: Exit, phase: Phase)
    | PubEnd(exit: Exit)
    | Finished(ending: Ending)

  datatype KillPc =
    | KillLook
    | KillUpsert(previous: Option<Status>, phase: Phase)
    | KillDone(previous: Option<Status>)
    | KillFailed

  datatype Proc = Run(req: Request, pc: Pc) | Killer(thread: Id, kpc: KillPc)

  function ThreadOf(p: Proc): Id {
    match p
    case Run(req, _) => req.thread
    case Killer(t, _) => t
  }

  // ---------------------------------------------------------------- operations of a process

  /** A kill flag that is given is written; otherwise the one read is kept. */
  function UpsertOp(thread: Id, status: Status, kill: Option<bool>, phase: Phase): Op {
    match phase
    case Look => ReadThread(thread)
    case Write(None) => InsertThread(thread, ThreadRow(status, kill.GetOr(false)))
    case Write(Some(seen)) => UpdateThread(thread, ThreadRow(status, kill.GetOr(seen)))
  }

  function EventOf(req: Request, kind: Kind, step: Value, checkpoint: Option<Id>): Event {
    Event(kind, req.thread, req.id, step, checkpoint)
  }

  function CallOf(req: Request, l: Loop): Call {
    Call(req.id, req.thread, l.done, l.parent, l.state)
  }

  function FaultStatus(f: Fault): Status {
    match f case FaultError => Failed case FaultCancel => Cancelled
  }

  function FaultKind(f: Fault): Kind {
    match f case FaultError => EvError case FaultCancel => EvCancelled
  }

  function FaultOutcome(f: Fault): Outcome {
    match f case FaultError => OutError case FaultCancel => OutCancelled
  }

  /** The awaited call a run stands at. */
  function RunOp(req: Request, pc: Pc, m: Move): Op {
    match pc
    case Audit => InsertAudit(AuditRow(req.id, req.thread, req.input))
    case MarkRunning(ph) => UpsertOp(req.thread, Running, None, ph)
    case PubStart => Publish(EventOf(req, EvStart, Null, None))
    case Load => ReadLatest(req.thread)
    case CheckKill(_) => ReadThread(req.thread)
    case PubKilled(_) => Publish(EventOf(req, EvKilled, Null, None))
    case MarkKilled(_, ph) => UpsertOp(req.thread, Killed, None, ph)
    case PubStepStart(l) => Publish(EventOf(req, EvStepStart, Get(l.state, "step"), None))
    case CallStep(l) => StartStep(CallOf(req, l))
    case InStep(l) => AwaitStep(CallOf(req, l), m.oracle)
    case Put(l, next) => InsertCheckpoint(Checkpoint(req.thread, m.id, l.parent, next, CallOf(req, l)))
    case PubStepEnd(l) => Publish(EventOf(req, EvStepEnd, Get(l.state, "step"), l.parent))
    case MarkFailed(f, ph) => UpsertOp(req.thread, FaultStatus(f), None, ph)
    case PubFailed(f) => Publish(EventOf(req, FaultKind(f), Null, None))
    case Record(x) => InsertMetric(Metric(m.id, req.thread, req.id, x.outcome, m.ms))
    case MarkCompleted(_, ph) => UpsertOp(req.thread, Completed, None, ph)
    case PubEnd(x) => Publish(EventOf(req, EvEnd, Get(x.state, "step"), None))
    case Finished(_) => Idle
  }

  function KillOp(thread: Id, kpc: KillPc): Op {
    match kpc
    case KillLook => ReadThread(thread)
    case KillUpsert(_, ph) => UpsertOp(thread, KillRequested, Some(true), ph)
    case _ => Idle
  }

  function OpOf(p: Proc, m: Move): Op {
    match p
    case Run(req, pc) => RunOp(req, pc, m)
    case Killer(t, kpc) => KillOp(t, kpc)
  }

  // ---------------------------------------------------------------- control

  /** What the upsert's read returns. */
  function Seen(s: Store, thread: Id): Phase {
    Write(if thread in s.threads then Some(s.threads[thread].kill) else None)
  }

  /** The head of `for _ in range(max_steps)`. */
  function LoopHead(req: Request, l: Loop): Pc {
    if l.done < req.bound then CheckKill(l) else Record(Exit(OutMaxSteps, l.state, None))
  }

  /** The loop variables when a run resumes from `latest`. */
  function Resume(cfg: Config, req: Request, latest: Option<Checkpoint>): Loop {
    match latest
    case None => Loop(Override(FRESH, req.input, req.thread), None, 0)
    case Some(c) => Loop(Override(cfg.reload(c.state), req.input, req.thread), Some(c.id), 0)
  }

  /** Where a run stands after the call it stands at returned. */
  function RunNext(cfg: Config, s: Store, req: Request, pc: Pc, m: Move): Pc {
    match pc
    case Audit => MarkRunning(Look)
    case MarkRunning(Look) => MarkRunning(Seen(s, req.thread))
    case MarkRunning(_) => PubStart
    case PubStart => Load
    case Load => LoopHead(req, Resume(cfg, req, Latest(s.checkpoints, req.thread)))
    case CheckKill(l) => if FlagOf(s, req.thread) then PubKilled(l) else PubStepStart(l)
    case PubKilled(l) => MarkKilled(l, Look)
    case MarkKilled(l, Look) => MarkKilled(l, Seen(s, req.thread))
    case MarkKilled(l, _) => Record(Exit(OutKilled, l.state, None))
    case PubStepStart(l) => CallStep(l)
    case CallStep(l) => InStep(l)
    case InStep(l) => Put(l, cfg.step(l.state, m.oracle).GetOr(l.state))
    case Put(l, next) => PubStepEnd(Loop(next, Some(m.id), l.done))
    case PubStepEnd(l) =>
      if IsComplete(l.state) then Record(Exit(OutOk, l.state, None))
      else LoopHead(req, Loop(l.state, l.parent, l.done + 1))
    case MarkFailed(f, Look) => MarkFailed(f, Seen(s, req.thread))
    case MarkFailed(f, _) => PubFailed(f)
    case PubFailed(f) => Record(Exit(FaultOutcome(f), map[], Some(f)))
    case Record(x) =>
      if x.raised.Some? then Finished(Escaped(x))
      else if x.outcome == OutOk then MarkCompleted(x, Look)
      else Finished(Returned(x))
    case MarkCompleted(x, Look) => MarkCompleted(x, Seen(s, req.thread))
    case MarkCompleted(x, _) => PubEnd(x)
    case PubEnd(x) => Finished(Returned(x))
    case Finished(_) => pc
  }

  /** Where a run stands after the call it stands at raised or was cancelled:
      before the try block it ends, inside it a handler takes over, inside a handler the
      finally block does, with the new exception in place of the old, and after that it ends. */
  function RunFault(pc: Pc, f: Fault): Pc {
    match pc
    case Audit => Finished(Refused(f))
    case MarkRunning(_) | PubStart => Finished(Aborted(f))
    case MarkFailed(g, _) => Record(Exit(FaultOutcome(g), map[], Some(f)))
    case PubFailed(g) => Record(Exit(FaultOutcome(g), map[], Some(f)))
    case Record(x) => Finished(Unrecorded(x, f))
    case MarkCompleted(x, _) => Finished(Unfinished(x, f))
    case PubEnd(x) => Finished(Unfinished(x, f))
    case Finished(_) => pc
    case _ => MarkFailed(f, Look)
  }

  function KillNext(s: Store, thread: Id, kpc: KillPc): KillPc {
    match kpc
    case KillLook => KillUpsert(if thread in s.threads then Some(s.threads[thread].status) else None, Look)
    case KillUpsert(prev, Look) => KillUpsert(prev, Seen(s, thread))
    case KillUpsert(prev, _) => KillDone(prev)
    case _ => kpc
  }

  function KillFault(kpc: KillPc): KillPc {
    if kpc.KillDone? then kpc else KillFailed
  }

  function ToFault(fate: Fate): Fault {
    if fate == Interrupted then FaultCancel else FaultError
  }

  function Proceed(cfg: Config, s: Store, p: Proc, m: Move): Proc {
    var fate := Settle(cfg, s, OpOf(p, m), m);
    match p
    case Run(req, pc) => Run(req, if fate == Done then RunNext(cfg, s, req, pc, m) else RunFault(pc, ToFault(fate)))
    case Killer(t, kpc) => Killer(t, if fate == Done then KillNext(s, t, kpc) else KillFault(kpc))
  }

  // ---------------------------------------------------------------- worlds and schedules

  type Pid = nat

  datatype World = World(store: Store, procs: map<Pid, Proc>)

  datatype Action =
    | Invoke(pid: Pid, req: Request)
    | Kill(pid: Pid, thread: Id)
    | Advance(pid: Pid, move: Move)

  /** One step of the whole system. An action that is not possible changes nothing. */
  function Do(cfg: Config, w: World, a: Action): World {
    match a
    case Invoke(pid, req) => if pid in w.procs then w else w.(procs := w.procs[pid := Run(req, Audit)])
    case Kill(pid, t) => if pid in w.procs then w else w.(procs := w.procs[pid := Killer(t, KillLook)])
    case Advance(pid, m) =>
      if pid !in w.procs then w
      else
        var p := w.procs[pid];
        World(Perform(cfg, w.store, OpOf(p, m), m), w.procs[pid := Proceed(cfg, w.store, p, m)])
  }

  /** The world after a schedule. Every interleaving, fault and crash is a
      schedule: a crashed process is one that is never advanced again. */
  function Exec(cfg: Config, w: World, acts: seq<Action>): World {
    if acts == [] then w
    else Do(cfg, Exec(cfg, w, acts[..|acts| - 1]), Last(acts))
  }

  const START: World := World(EMPTY, map[])

  /** An awaited call that returns. */
  const OK: Move := Move(Done, true, "m", 0, 0.0)

  lemma ExecAgainNone(cfg: Config, w: World, pid: Pid)
    ensures Exec(cfg, w, Again(pid, 0)) == w
  {
  }

  /** What one action does to the world when the call a run stands at returns. */
  lemma Returns(cfg: Config, w: World, pid: Pid, req: Request, pc: Pc, m: Move)
    requires pid in w.procs && w.procs[pid] == Run(req, pc) && m.fate == Done
    requires !Rejects(cfg, w.store, RunOp(req, pc, m))
    ensures Do(cfg, w, Advance(pid, m))
         == World(Apply(w.store, RunOp(req, pc, m)), w.procs[pid := Run(req, RunNext(cfg, w.store, req, pc, m))])
  {
  }

  /** The process is advanced `n` times, each time to a call that returns. */
  function Again(pid: Pid, n: nat): seq<Action> {
    if n == 0 then [] else Again(pid, n - 1) + [Advance(pid, OK)]
  }

  lemma ExecAgain(cfg: Config, w: World, pid: Pid, n: nat)
    requires n > 0
    ensures Exec(cfg, w, Again(pid, n)) == Do(cfg, Exec(cfg, w, Again(pid, n - 1)), Advance(pid, OK))
  {
    assert Again(pid, n)[..|Again(pid, n)| - 1] == Again(pid, n - 1);
  }

  lemma ExecOne(cfg: Config, w: World, acts: seq<Action>, a: Action)
    ensures Exec(cfg, w, acts + [a]) == Do(cfg, Exec(cfg, w, acts), a)
  {
    assert (acts + [a])[..|acts|] == acts;
  }

  lemma {:induction false} ExecAppend(cfg: Config, w: World, xs: seq<Action>, ys: seq<Action>)
    ensures Exec(cfg, w, xs + ys) == Exec(cfg, Exec(cfg, w, xs), ys)
    decreases |ys|
  {
    if ys == [] {
      assert xs + ys == xs;
    } else {
      var front := ys[..|ys| - 1];
      ExecAppend(cfg, w, xs, front);
      assert (xs + ys)[..|xs + ys| - 1] == xs + front;
    }
  }
}
