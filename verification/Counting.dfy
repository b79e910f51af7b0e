/** The checkpoints a run stores, among those of every other run: one for each step.start/step.end
    pair it publishes, each made from the one before it. */
module Counting {
  import opened Base
  import opened Store
  import opened Machine
  import opened AuditFirst
  import opened EventTrace
  import opened Accounting
  import opened Completion

  /** The rows a run stored, in order. */
  function Made(rows: seq<Checkpoint>, request: Id): seq<Checkpoint> {
    if rows == [] then []
    else
      var front := Made(rows[..|rows| - 1], request);
      if Last(rows).origin.request == request then front + [Last(rows)] else front
  }

  lemma MadeAppend(rows: seq<Checkpoint>, c: Checkpoint, request: Id)
    ensures Made(rows + [c], request) == if c.origin.request == request then Made(rows, request) + [c] else Made(rows, request)
  {
    assert (rows + [c])[..|rows|] == rows;
  }

  lemma {:induction false} MadeAreThese(rows: seq<Checkpoint>, request: Id, c: Checkpoint)
    ensures c in Made(rows, request) <==> c in rows && c.origin.request == request
  {
    if rows != [] {
      var front := rows[..|rows| - 1];
      MadeAreThese(front, request, c);
      assert rows == front + [Last(rows)];
    }
  }

  lemma {:induction false} MadeNothing(rows: seq<Checkpoint>, request: Id)
    requires forall r :: r in rows ==> r.origin.request != request
    ensures Made(rows, request) == []
  {
    if rows != [] {
      MadeNothing(rows[..|rows| - 1], request);
    }
  }

  /** The pairs a mark counts. */
  function PairsIn(m: Mark): nat {
    match m
    case Nothing => 0
    case Between(k) => k
    case Dangling(k) => k
    case Stopped(k) => k
    case Closed(k, _, _) => k
    case Wrong => 0
  }

  /** The last iteration was cut short after its step.start: its checkpoint may be there. */
  predicate Cut(m: Mark) {
    m.Dangling? || (m.Closed? && m.cut)
  }

  predicate Within(m: Mark, made: seq<Checkpoint>) {
    PairsIn(m) <= |made| <= PairsIn(m) + if Cut(m) then 1 else 0
  }

  /** The rows are the results of the run's calls 0, 1, 2, ..., each called on what the call
      before it returned, each hanging on the row before it, and none made after a complete state. */
  ghost predicate Consecutive(made: seq<Checkpoint>) {
    forall i :: 0 <= i < |made| ==> InPlace(made, i)
  }

  predicate InPlace(made: seq<Checkpoint>, i: int)
    requires 0 <= i < |made|
  {
    && made[i].origin.nth == i && made[i].parent == made[i].origin.parent
    && (i > 0 ==> made[i].parent == Some(made[i - 1].id) && made[i].origin.arg == made[i - 1].state && NotCompleted(made[i - 1].state))
  }

  /** The loop variables continue from the last row made. */
  predicate Continues(l: Loop, made: seq<Checkpoint>) {
    made != [] ==> l.parent == Some(Last(made).id) && l.state == Last(made).state
  }

  /** The loop goes on: the last state made is not complete. */
  predicate GoesOn(l: Loop, made: seq<Checkpoint>) {
    |made| == l.done && Continues(l, made) && (made != [] ==> NotCompleted(Last(made).state))
  }

  predicate MadeAt(pc: Pc, m: Mark, made: seq<Checkpoint>) {
    match pc
    case MarkRunning(_) => made == []
    case PubStart => made == []
    case Load => made == []
    case CheckKill(l) => GoesOn(l, made)
    case PubKilled(l) => GoesOn(l, made)
    case MarkKilled(l, _) => GoesOn(l, made)
    case PubStepStart(l) => GoesOn(l, made)
    case CallStep(l) => GoesOn(l, made)
    case InStep(l) => GoesOn(l, made)
    case Put(l, _) => GoesOn(l, made)
    case PubStepEnd(l) => |made| == l.done + 1 && Continues(l, made)
    case Record(x) => x.raised.None? ==> |made| == PairsIn(m)
    case MarkCompleted(x, _) => |made| == PairsIn(m)
    case PubEnd(x) => |made| == PairsIn(m)
    case Finished(Unrecorded(x, _)) => x.raised.None? ==> |made| == PairsIn(m)
    case Finished(Unfinished(_, _)) => |made| == PairsIn(m)
    case Finished(Returned(_)) => |made| == PairsIn(m)
    case _ => true
  }

  ghost predicate Counts(pc: Pc, m: Mark, made: seq<Checkpoint>) {
    MadeAt(pc, m, made) && Within(m, made) && Consecutive(made)
  }

  function MadeAfter(made: seq<Checkpoint>, op: Op, lands: bool): seq<Checkpoint> {
    if op.InsertCheckpoint? && lands then made + [op.checkpoint] else made
  }

  // ---------------------------------------------------------------- one step of the run

  lemma DoneCounts(cfg: Config, s: Store, req: Request, pc: Pc, mv: Move, m: Mark, outs: seq<Outcome>, made: seq<Checkpoint>)
    requires Accounts(req, pc, m, outs) && Counts(pc, m, made) && !pc.Put? && !pc.Audit?
    ensures Counts(RunNext(cfg, s, req, pc, mv), MarkAfter(m, RunOp(req, pc, mv), true), made)
  {
    hide Consecutive, Override, IsComplete, NotCompleted;
    if pc.PubStepEnd? {
      CompleteIff(pc.l.state);
    }
  }

  lemma FaultCounts(req: Request, pc: Pc, mv: Move, f: Fault, m: Mark, outs: seq<Outcome>, made: seq<Checkpoint>, lands: bool)
    requires Accounts(req, pc, m, outs) && Counts(pc, m, made) && !pc.Put? && !pc.Audit? && !pc.CallStep?
    ensures Counts(RunFault(pc, f), MarkAfter(m, RunOp(req, pc, mv), lands), made)
  {
    hide Consecutive, Continues, IsComplete, NotCompleted;
  }

  lemma LongerConsecutive(made: seq<Checkpoint>, c: Checkpoint, l: Loop)
    requires Consecutive(made) && GoesOn(l, made)
    requires c.origin.nth == l.done && c.parent == c.origin.parent == l.parent && c.origin.arg == l.state
    ensures Consecutive(made + [c])
  {
    hide NotCompleted;
    var longer := made + [c];
    forall i | 0 <= i < |longer| ensures InPlace(longer, i) {
      if i < |made| {
        assert InPlace(made, i);
        assert longer[i] == made[i] && (i > 0 ==> longer[i - 1] == made[i - 1]);
      }
    }
  }

  lemma PutCounts(cfg: Config, s: Store, req: Request, pc: Pc, mv: Move, m: Mark, outs: seq<Outcome>, made: seq<Checkpoint>, f: Fault)
    requires pc.Put? && Accounts(req, pc, m, outs) && Counts(pc, m, made)
    ensures Counts(RunNext(cfg, s, req, pc, mv), m, made + [RunOp(req, pc, mv).checkpoint])
    ensures Counts(RunFault(pc, f), m, made + [RunOp(req, pc, mv).checkpoint])
    ensures Counts(RunFault(pc, f), m, made)
  {
    var c := RunOp(req, pc, mv).checkpoint;
    var longer := made + [c];
    LongerConsecutive(made, c, pc.l);
    assert Last(longer) == c;
  }

  lemma StepCounts(cfg: Config, s: Store, req: Request, pc: Pc, mv: Move, m: Mark, outs: seq<Outcome>, made: seq<Checkpoint>)
    requires Accounts(req, pc, m, outs) && Counts(pc, m, made) && !pc.Audit?
    ensures
      var p := Run(req, pc);
      var op := OpOf(p, mv);
      var lands := Lands(cfg, s, op, mv);
      Counts(Proceed(cfg, s, p, mv).pc, MarkAfter(m, op, lands), MadeAfter(made, op, lands))
  {
    hide Accounts, Counts, RunNext, RunFault;
    var op := RunOp(req, pc, mv);
    var fate := Settle(cfg, s, op, mv);
    if pc.Put? {
      PutCounts(cfg, s, req, pc, mv, m, outs, made, ToFault(fate));
    } else if fate == Done {
      DoneCounts(cfg, s, req, pc, mv, m, outs, made);
    } else {
      FaultCounts(req, pc, mv, ToFault(fate), m, outs, made, Lands(cfg, s, op, mv));
    }
  }

  // ---------------------------------------------------------------- every run in the world

  ghost predicate RunCounts(s: Store, p: Proc) {
    Passed(p) ==> Counts(p.pc, MarkOf(s.events, p.req.id), Made(s.checkpoints, p.req.id))
  }

  ghost predicate AllCount(w: World) {
    forall pid :: pid in w.procs ==> RunCounts(w.store, w.procs[pid])
  }

  /** Only the run's own inserts add to what it made. */
  lemma PerformMade(cfg: Config, s: Store, op: Op, mv: Move, request: Id)
    ensures
      Made(Perform(cfg, s, op, mv).checkpoints, request)
        == (if op.InsertCheckpoint? && op.checkpoint.origin.request == request
            then MadeAfter(Made(s.checkpoints, request), op, Lands(cfg, s, op, mv)) else Made(s.checkpoints, request))
  {
    if op.InsertCheckpoint? {
      MadeAppend(s.checkpoints, op.checkpoint, request);
    }
  }

  lemma RowIsOwn(p: Proc, mv: Move)
    ensures OpOf(p, mv).InsertCheckpoint? ==> Passed(p) && OpOf(p, mv).checkpoint.origin.request == p.req.id
  {
  }

  /** Before its audit row exists a request has made nothing. */
  lemma UnauditedMadeNothing(s: Store, request: Id)
    requires TablesCovered(s) && !AuditHas(s.audit, request)
    ensures Made(s.checkpoints, request) == []
  {
    forall id, t | Covered(s.audit, id, t) ensures id != request {
      var r :| r in s.audit && r.id == id && r.thread == t;
      var i :| 0 <= i < |s.audit| && s.audit[i] == r;
    }
    MadeNothing(s.checkpoints, request);
  }

  lemma AuditCounts(cfg: Config, s: Store, p: Proc, mv: Move)
    requires TablesCovered(s) && p.Run? && p.pc.Audit?
    ensures RunCounts(Perform(cfg, s, OpOf(p, mv), mv), Proceed(cfg, s, p, mv))
  {
    hide Consecutive;
    PerformAccounts(cfg, s, OpOf(p, mv), mv, p.req.id);
    if Settle(cfg, s, OpOf(p, mv), mv) == Done {
      UnauditedIsSilent(s, p.req.id);
      UnauditedMadeNothing(s, p.req.id);
      NothingCounts(MarkRunning(Look));
    }
  }

  lemma NothingCounts(pc: Pc)
    requires pc.MarkRunning?
    ensures Counts(pc, Nothing, [])
  {
  }

  lemma OwnRunCounts(cfg: Config, s: Store, p: Proc, mv: Move)
    requires TablesCovered(s) && RunAccounts(s, p) && RunCounts(s, p)
    ensures RunCounts(Perform(cfg, s, OpOf(p, mv), mv), Proceed(cfg, s, p, mv))
  {
    hide Accounts, Counts, Rejects, Apply, RunFault, RunNext, TablesCovered;
    if p.Run? && p.pc.Audit? {
      AuditCounts(cfg, s, p, mv);
    } else if Passed(p) {
      PerformAccounts(cfg, s, OpOf(p, mv), mv, p.req.id);
      PerformMade(cfg, s, OpOf(p, mv), mv, p.req.id);
      OpIsOwn(p, mv);
      RowIsOwn(p, mv);
      StepCounts(cfg, s, p.req, p.pc, mv, MarkOf(s.events, p.req.id), OutcomesOf(s.metrics, p.req.id), Made(s.checkpoints, p.req.id));
    } else {
      UnpassedStays(cfg, s, p, mv);
    }
  }

  lemma DoKeepsCounts(cfg: Config, w: World, a: Action)
    requires AuditInv(w) && IdInv(w) && AllAccount(w) && AllCount(w)
    ensures AllCount(Do(cfg, w, a))
  {
    hide Accounts, Counts, TablesCovered, DistinctIds, OpOf, Proceed, Perform;
    var w' := Do(cfg, w, a);
    if a.Advance? && a.pid in w.procs {
      var p := w.procs[a.pid];
      OwnRunCounts(cfg, w.store, p, a.move);
      OpIsOwn(p, a.move);
      RowIsOwn(p, a.move);
      forall j | j in w'.procs && j != a.pid ensures RunCounts(w'.store, w'.procs[j]) {
        if Passed(w.procs[j]) {
          PerformAccounts(cfg, w.store, OpOf(p, a.move), a.move, w.procs[j].req.id);
          PerformMade(cfg, w.store, OpOf(p, a.move), a.move, w.procs[j].req.id);
        }
      }
    }
  }

  // ---------------------------------------------------------------- main results

  lemma {:induction false} CountsAlways(cfg: Config, acts: seq<Action>)
    ensures AllCount(Exec(cfg, START, acts))
  {
    if acts != [] {
      var front := acts[..|acts| - 1];
      CountsAlways(cfg, front);
      AccountsAlways(cfg, front);
      AuditAlways(cfg, front);
      RequestIdsUnique(cfg, front);
      DoKeepsCounts(cfg, Exec(cfg, START, front), Last(acts));
    }
  }

  /** At every point of every schedule, however many runs share the thread: a run has stored a
      checkpoint for each pair it published, and at most one more, which only an iteration cut
      short can have left; and they are the results of its consecutive calls. */
  lemma EveryRunCounts(cfg: Config, acts: seq<Action>, pid: Pid)
    requires
      var w := Exec(cfg, START, acts);
      pid in w.procs && Passed(w.procs[pid])
    ensures
      var w := Exec(cfg, START, acts);
      var id := w.procs[pid].req.id;
      Within(MarkOf(w.store.events, id), Made(w.store.checkpoints, id)) && Consecutive(Made(w.store.checkpoints, id))
  {
    CountsAlways(cfg, acts);
    assert RunCounts(Exec(cfg, START, acts).store, Exec(cfg, START, acts).procs[pid]);
  }

  /** A run that no fault befell has published exactly as many step.start/step.end pairs as it
      stored checkpoints. */
  lemma ReturnedRunCounts(cfg: Config, acts: seq<Action>, pid: Pid, x: Exit)
    requires
      var w := Exec(cfg, START, acts);
      pid in w.procs && w.procs[pid].Run? && w.procs[pid].pc == Finished(Returned(x))
    ensures
      var w := Exec(cfg, START, acts);
      var id := w.procs[pid].req.id;
      PairsIn(MarkOf(w.store.events, id)) == |Made(w.store.checkpoints, id)|
  {
    CountsAlways(cfg, acts);
    assert RunCounts(Exec(cfg, START, acts).store, Exec(cfg, START, acts).procs[pid]);
  }
}
