/** The status and the kill flag that a run leaves on its thread's row. */
module ThreadStatus {
  import opened Base
  import opened Store
  import opened Machine
  import Isolation

  function RowOf(s: Store, t: Id): Option<ThreadRow> {
    if t in s.threads then Some(s.threads[t]) else None
  }

  function Flag(row: Option<ThreadRow>): bool {
    row.Some? && row.value.kill
  }

  /** What the run that ended so leaves as the status. A run out of steps sets none. */
  function FinalStatus(outcome: Outcome): Status {
    match outcome
    case OutOk => Completed
    case OutKilled => Killed
    case OutMaxSteps => Running
    case OutError => Failed
    case OutCancelled => Cancelled
  }

  predicate Reads(row: Option<ThreadRow>, status: Status, kill: bool) {
    row == Some(ThreadRow(status, kill))
  }

  /** The upsert has not read the row yet, or read this flag. */
  predicate Sees(ph: Phase, seen: Option<bool>) {
    ph.Look? || ph.seen == seen
  }

  /** Before its own final write: the status a run that ended so has left so far. A handler
      that failed may not have got to write. */
  predicate LeftSoFar(row: Option<ThreadRow>, outcome: Outcome, kill: bool) {
    match outcome
    case OutOk => Reads(row, Running, kill)
    case OutMaxSteps => Reads(row, Running, kill)
    case OutKilled => Reads(row, Killed, kill)
    case _ => Reads(row, Running, kill) || Reads(row, Killed, kill) || Reads(row, FinalStatus(outcome), kill)
  }

  /** The row of the thread at each point of a run that found `found`. */
  predicate StatusAt(pc: Pc, row: Option<ThreadRow>, found: Option<ThreadRow>) {
    var kill := Flag(found);
    match pc
    case Audit => row == found
    case MarkRunning(ph) => row == found && Sees(ph, if found.Some? then Some(kill) else None)
    case MarkKilled(_, ph) => Reads(row, Running, kill) && Sees(ph, Some(kill))
    case MarkFailed(_, ph) => (Reads(row, Running, kill) || Reads(row, Killed, kill)) && Sees(ph, Some(kill))
    case PubFailed(f) => Reads(row, FaultStatus(f), kill)
    case Record(x) => LeftSoFar(row, x.outcome, kill) && (x.raised.Some? <==> x.outcome == OutError || x.outcome == OutCancelled)
    case MarkCompleted(x, ph) => x.outcome == OutOk && Reads(row, Running, kill) && Sees(ph, Some(kill))
    case PubEnd(x) => x.outcome == OutOk && Reads(row, Completed, kill)
    case Finished(e) =>
      match e {
        case Refused(_) => row == found
        case Aborted(_) => row == found || Reads(row, Running, kill)
        case Unrecorded(x, _) => LeftSoFar(row, x.outcome, kill)
        case Escaped(x) => LeftSoFar(row, x.outcome, kill)
        case Unfinished(_, _) => Reads(row, Running, kill) || Reads(row, Completed, kill)
        case Returned(x) => x.outcome != OutError && x.outcome != OutCancelled && Reads(row, FinalStatus(x.outcome), kill)
      }
    case _ => Reads(row, Running, kill)
  }

  /** What an upsert's write makes of the row of its thread. */
  function RowAfter(row: Option<ThreadRow>, op: Op, lands: bool): Option<ThreadRow> {
    match op
    case InsertThread(_, r) => if lands then Some(r) else row
    case UpdateThread(_, r) => if lands && row.Some? then Some(r) else row
    case _ => row
  }

  lemma PerformRow(cfg: Config, s: Store, p: Proc, m: Move)
    ensures
      var t, op := ThreadOf(p), OpOf(p, m);
      RowOf(Perform(cfg, s, op, m), t) == RowAfter(RowOf(s, t), op, Lands(cfg, s, op, m))
  {
  }

  lemma DoneStatus(cfg: Config, s: Store, req: Request, pc: Pc, m: Move, found: Option<ThreadRow>)
    requires StatusAt(pc, RowOf(s, req.thread), found)
    ensures StatusAt(RunNext(cfg, s, req, pc, m), RowAfter(RowOf(s, req.thread), RunOp(req, pc, m), true), found)
  {
  }

  lemma FaultStatusAt(req: Request, pc: Pc, m: Move, f: Fault, row: Option<ThreadRow>, lands: bool, found: Option<ThreadRow>)
    requires StatusAt(pc, row, found)
    ensures StatusAt(RunFault(pc, f), RowAfter(row, RunOp(req, pc, m), lands), found)
  {
  }

  lemma OwnStatus(cfg: Config, s: Store, p: Proc, m: Move, found: Option<ThreadRow>)
    requires p.Run? && StatusAt(p.pc, RowOf(s, p.req.thread), found)
    ensures StatusAt(Proceed(cfg, s, p, m).pc, RowOf(Perform(cfg, s, OpOf(p, m), m), p.req.thread), found)
  {
    hide StatusAt, RunNext, RunFault, RunOp, Rejects, Apply;
    var op := OpOf(p, m);
    PerformRow(cfg, s, p, m);
    if Settle(cfg, s, op, m) == Done {
      DoneStatus(cfg, s, p.req, p.pc, m, found);
    } else {
      FaultStatusAt(p.req, p.pc, m, ToFault(Settle(cfg, s, op, m)), RowOf(s, p.req.thread), Lands(cfg, s, op, m), found);
    }
  }

  lemma OtherThreadKeepsRow(cfg: Config, s: Store, p: Proc, m: Move, t: Id)
    requires ThreadOf(p) != t
    ensures RowOf(Perform(cfg, s, OpOf(p, m), m), t) == RowOf(s, t)
  {
  }

  /** No other process of the thread moves, be it a run or a kill request. */
  ghost predicate Alone(cfg: Config, w: World, acts: seq<Action>, t: Id, pid: Pid) {
    acts != [] ==>
      var front, a := acts[..|acts| - 1], Last(acts);
      var v := Exec(cfg, w, front);
      Alone(cfg, w, front, t, pid)
      && (a.Advance? && a.pid != pid && a.pid in v.procs ==> ThreadOf(v.procs[a.pid]) != t)
  }

  ghost predicate Left(w: World, pid: Pid, req: Request, found: Option<ThreadRow>) {
    pid in w.procs && w.procs[pid].Run? && w.procs[pid].req == req
    && StatusAt(w.procs[pid].pc, RowOf(w.store, req.thread), found)
  }

  lemma DoLeaves(cfg: Config, w: World, a: Action, pid: Pid, req: Request, found: Option<ThreadRow>)
    requires Left(w, pid, req, found)
    requires a.Advance? && a.pid != pid && a.pid in w.procs ==> ThreadOf(w.procs[a.pid]) != req.thread
    ensures Left(Do(cfg, w, a), pid, req, found)
  {
    hide StatusAt, Perform, Proceed, OpOf;
    if a.Advance? && a.pid in w.procs {
      var p := w.procs[a.pid];
      if a.pid == pid {
        Isolation.ProceedKeepsThread(cfg, w.store, p, a.move);
        OwnStatus(cfg, w.store, p, a.move, found);
      } else {
        OtherThreadKeepsRow(cfg, w.store, p, a.move, req.thread);
      }
    }
  }

  lemma {:induction false} LeftAlways(cfg: Config, w: World, acts: seq<Action>, pid: Pid, req: Request)
    requires pid in w.procs && w.procs[pid] == Run(req, Audit) && Alone(cfg, w, acts, req.thread, pid)
    ensures Left(Exec(cfg, w, acts), pid, req, RowOf(w.store, req.thread))
  {
    if acts != [] {
      LeftAlways(cfg, w, acts[..|acts| - 1], pid, req);
      DoLeaves(cfg, Exec(cfg, w, acts[..|acts| - 1]), Last(acts), pid, req, RowOf(w.store, req.thread));
    }
  }

  /** A run that no other process of its thread disturbs keeps the kill flag it found, and if
      it returns, leaves the status of its outcome: completed, killed, or, where it ran out
      of steps, still running. */
  lemma ReturnedStatus(cfg: Config, w: World, acts: seq<Action>, pid: Pid, req: Request, x: Exit)
    requires pid in w.procs && w.procs[pid] == Run(req, Audit) && Alone(cfg, w, acts, req.thread, pid)
    requires
      var w' := Exec(cfg, w, acts);
      pid in w'.procs && w'.procs[pid] == Run(req, Finished(Returned(x)))
    ensures x.outcome == OutOk || x.outcome == OutKilled || x.outcome == OutMaxSteps
    ensures
      var t, threads := req.thread, Exec(cfg, w, acts).store.threads;
      && t in threads
      && threads[t].status == (if x.outcome == OutOk then Completed else if x.outcome == OutKilled then Killed else Running)
      && threads[t].kill == (t in w.store.threads && w.store.threads[t].kill)
  {
    LeftAlways(cfg, w, acts, pid, req);
  }

  /** At every point, faults or not, the flag is the one the run found. */
  lemma RunKeepsFlag(cfg: Config, w: World, acts: seq<Action>, pid: Pid, req: Request)
    requires pid in w.procs && w.procs[pid] == Run(req, Audit) && Alone(cfg, w, acts, req.thread, pid)
    ensures
      var t, found, threads := req.thread, w.store.threads, Exec(cfg, w, acts).store.threads;
      (t in threads && threads[t].kill) == (t in found && found[t].kill)
  {
    hide Exec, Alone;
    LeftAlways(cfg, w, acts, pid, req);
  }
}
