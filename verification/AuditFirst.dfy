/** Audit-first: under every interleaving and every fault, whatever a run does is
    preceded by its audit row. */
module AuditFirst {
  import opened Base
  import opened Store
  import opened Machine

  ghost predicate Covered(audit: seq<AuditRow>, id: Id, thread: Id) {
    exists r :: r in audit && r.id == id && r.thread == thread
  }

  ghost predicate ThreadCovered(audit: seq<AuditRow>, thread: Id) {
    exists r :: r in audit && r.thread == thread
  }

  predicate IsRefused(pc: Pc) {
    pc.Finished? && pc.ending.Refused?
  }

  /** The audit insert of this run returned. */
  predicate Passed(p: Proc) {
    p.Run? && !p.pc.Audit? && !IsRefused(p.pc)
  }

  ghost predicate HasRow(s: Store, p: Proc) {
    Passed(p) ==> AuditRow(p.req.id, p.req.thread, p.req.input) in s.audit
  }

  ghost predicate TablesCovered(s: Store) {
    && (forall e :: e in s.events ==> Covered(s.audit, e.request, e.thread))
    && (forall c :: c in s.calls ==> Covered(s.audit, c.request, c.thread))
    && (forall r :: r in s.metrics ==> Covered(s.audit, r.request, r.thread))
    && (forall c :: c in s.checkpoints ==> Covered(s.audit, c.origin.request, c.thread))
    && (forall t :: t in s.threads && s.threads[t].status != KillRequested ==> ThreadCovered(s.audit, t))
  }

  ghost predicate AuditInv(w: World) {
    && TablesCovered(w.store)
    && (forall pid :: pid in w.procs ==> HasRow(w.store, w.procs[pid]))
  }

  /** The operation is covered by an audit row that is already there. */
  ghost predicate OpCovered(s: Store, op: Op) {
    match op
    case Publish(e) => Covered(s.audit, e.request, e.thread)
    case StartStep(c) => Covered(s.audit, c.request, c.thread)
    case InsertMetric(r) => Covered(s.audit, r.request, r.thread)
    case InsertCheckpoint(c) => Covered(s.audit, c.origin.request, c.thread)
    case InsertThread(t, row) => row.status == KillRequested || ThreadCovered(s.audit, t)
    case UpdateThread(t, row) => row.status == KillRequested || ThreadCovered(s.audit, t)
    case _ => true
  }

  lemma OpIsCovered(s: Store, p: Proc, m: Move)
    requires HasRow(s, p)
    ensures OpCovered(s, OpOf(p, m))
  {
    if Passed(p) {
      var row := AuditRow(p.req.id, p.req.thread, p.req.input);
      assert row in s.audit && row.id == p.req.id && row.thread == p.req.thread;
      assert Covered(s.audit, p.req.id, p.req.thread);
      assert ThreadCovered(s.audit, p.req.thread);
    }
  }

  lemma PerformKeepsTables(cfg: Config, s: Store, op: Op, m: Move)
    requires TablesCovered(s) && OpCovered(s, op)
    ensures TablesCovered(Perform(cfg, s, op, m))
  {
    var s' := Perform(cfg, s, op, m);
    assert forall r :: r in s.audit ==> r in s'.audit;
    assert forall id, t :: Covered(s.audit, id, t) ==> Covered(s'.audit, id, t);
    assert forall t :: ThreadCovered(s.audit, t) ==> ThreadCovered(s'.audit, t);
  }

  lemma ProceedKeepsRow(cfg: Config, s: Store, p: Proc, m: Move)
    requires HasRow(s, p)
    ensures HasRow(Perform(cfg, s, OpOf(p, m), m), Proceed(cfg, s, p, m))
  {
    var s' := Perform(cfg, s, OpOf(p, m), m);
    assert forall r :: r in s.audit ==> r in s'.audit;
    if p.Run? && p.pc.Audit? && Settle(cfg, s, OpOf(p, m), m) == Done {
      assert s'.audit == s.audit + [AuditRow(p.req.id, p.req.thread, p.req.input)];
    }
  }

  lemma DoKeepsAudit(cfg: Config, w: World, a: Action)
    requires AuditInv(w)
    ensures AuditInv(Do(cfg, w, a))
  {
    if a.Advance? && a.pid in w.procs {
      var p := w.procs[a.pid];
      OpIsCovered(w.store, p, a.move);
      PerformKeepsTables(cfg, w.store, OpOf(p, a.move), a.move);
      ProceedKeepsRow(cfg, w.store, p, a.move);
      var s' := Perform(cfg, w.store, OpOf(p, a.move), a.move);
      assert forall r :: r in w.store.audit ==> r in s'.audit;
    }
  }

  /** In every reachable world, each event, started step, metric and checkpoint, and
      each thread status other than a kill request, has its audit row. */
  lemma {:induction false} AuditAlways(cfg: Config, acts: seq<Action>)
    ensures AuditInv(Exec(cfg, START, acts))
  {
    if acts != [] {
      AuditAlways(cfg, acts[..|acts| - 1]);
      DoKeepsAudit(cfg, Exec(cfg, START, acts[..|acts| - 1]), Last(acts));
    }
  }

  /** The order in time: whatever an action adds or changes is covered by a row that
      was in the audit log before that action. Tables other than the thread states
      only grow at the end. */
  lemma AuditPrecedes(cfg: Config, acts: seq<Action>, a: Action)
    ensures
      var s, s' := Exec(cfg, START, acts).store, Exec(cfg, START, acts + [a]).store;
      && s.audit <= s'.audit && s.events <= s'.events && s.calls <= s'.calls
      && s.metrics <= s'.metrics && s.checkpoints <= s'.checkpoints
      && (forall i :: |s.events| <= i < |s'.events| ==> Covered(s.audit, s'.events[i].request, s'.events[i].thread))
      && (forall i :: |s.calls| <= i < |s'.calls| ==> Covered(s.audit, s'.calls[i].request, s'.calls[i].thread))
      && (forall i :: |s.metrics| <= i < |s'.metrics| ==> Covered(s.audit, s'.metrics[i].request, s'.metrics[i].thread))
      && (forall i :: |s.checkpoints| <= i < |s'.checkpoints| ==> Covered(s.audit, s'.checkpoints[i].origin.request, s'.checkpoints[i].thread))
      && (forall t | t in s'.threads && !(t in s.threads && s.threads[t] == s'.threads[t]) ::
            s'.threads[t].status == KillRequested || ThreadCovered(s.audit, t))
  {
    AuditAlways(cfg, acts);
    var w := Exec(cfg, START, acts);
    assert (acts + [a])[..|acts|] == acts;
    assert Exec(cfg, START, acts + [a]) == Do(cfg, w, a);
    if a.Advance? && a.pid in w.procs {
      OpIsCovered(w.store, w.procs[a.pid], a.move);
    }
  }

  // ---------------------------------------------------------------- the gate

  lemma {:induction false} FinishedIsFinal(cfg: Config, w: World, acts: seq<Action>, pid: Pid)
    requires pid in w.procs && w.procs[pid].Run? && w.procs[pid].pc.Finished?
    ensures pid in Exec(cfg, w, acts).procs && Exec(cfg, w, acts).procs[pid] == w.procs[pid]
  {
    if acts != [] {
      FinishedIsFinal(cfg, w, acts[..|acts| - 1], pid);
    }
  }

  /** If the audit insert of a run does not return, the run has changed nothing but
      possibly the audit log, and whatever happens later it never changes anything. */
  lemma RefusedRunDoesNothing(cfg: Config, w: World, pid: Pid, m: Move, acts: seq<Action>, m': Move)
    requires pid in w.procs && w.procs[pid].Run? && w.procs[pid].pc.Audit?
    requires Settle(cfg, w.store, OpOf(w.procs[pid], m), m) != Done
    ensures
      var refused := Do(cfg, w, Advance(pid, m));
      && refused.store.(audit := w.store.audit) == w.store
      && Do(cfg, Exec(cfg, refused, acts), Advance(pid, m')) == Exec(cfg, refused, acts)
  {
    var refused := Do(cfg, w, Advance(pid, m));
    FinishedIsFinal(cfg, refused, acts, pid);
    FinishedDoesNothing(cfg, Exec(cfg, refused, acts), pid, m');
  }

  lemma FinishedDoesNothing(cfg: Config, w: World, pid: Pid, m: Move)
    requires pid in w.procs && w.procs[pid].Run? && w.procs[pid].pc.Finished?
    ensures Do(cfg, w, Advance(pid, m)) == w
  {
    assert w.procs[pid := w.procs[pid]] == w.procs;
  }

  // ---------------------------------------------------------------- request ids

  ghost predicate DistinctIds(audit: seq<AuditRow>) {
    forall i, j :: 0 <= i < j < |audit| ==> audit[i].id != audit[j].id
  }

  ghost predicate DistinctRuns(procs: map<Pid, Proc>) {
    forall i, j | i in procs && j in procs && i != j && Passed(procs[i]) && Passed(procs[j]) ::
      procs[i].req.id != procs[j].req.id
  }

  ghost predicate IdInv(w: World) {
    DistinctIds(w.store.audit) && DistinctRuns(w.procs)
  }

  lemma DoKeepsIds(cfg: Config, w: World, a: Action)
    requires AuditInv(w) && IdInv(w)
    ensures IdInv(Do(cfg, w, a))
  {
    if a.Advance? && a.pid in w.procs {
      AuditIdsDistinct(cfg, w.store, w.procs[a.pid], a.move);
      GateIsFresh(cfg, w.store, w.procs[a.pid], a.move);
      hide OpOf, Proceed, Perform, TablesCovered;
      var p := w.procs[a.pid];
      if !Passed(p) && p.Run? && !AuditHas(w.store.audit, p.req.id) {
        OthersDiffer(w, p.req.id);
      }
    }
  }

  lemma AuditIdsDistinct(cfg: Config, s: Store, p: Proc, m: Move)
    requires DistinctIds(s.audit)
    ensures DistinctIds(Perform(cfg, s, OpOf(p, m), m).audit)
  {
    var op := OpOf(p, m);
    if op.InsertAudit? && Lands(cfg, s, op, m) {
      assert forall i :: 0 <= i < |s.audit| ==> s.audit[i].id != op.audit.id;
    }
  }

  /** A run passes the gate under an id the audit log did not have; its request never changes. */
  lemma GateIsFresh(cfg: Config, s: Store, p: Proc, m: Move)
    ensures
      var p' := Proceed(cfg, s, p, m);
      && (Passed(p') ==> p.Run? && p'.req == p.req)
      && (Passed(p') && !Passed(p) ==> !AuditHas(s.audit, p.req.id))
  {
  }

  lemma OthersDiffer(w: World, id: Id)
    requires AuditInv(w) && !AuditHas(w.store.audit, id)
    ensures forall j :: j in w.procs && Passed(w.procs[j]) ==> w.procs[j].req.id != id
  {
    forall j | j in w.procs && Passed(w.procs[j]) ensures w.procs[j].req.id != id {
      var q := w.procs[j].req;
      assert HasRow(w.store, w.procs[j]);
      assert AuditRow(q.id, q.thread, q.input) in w.store.audit;
    }
  }

  /** The primary key of the audit log makes request ids unique: two runs whose
      audit insert returned never share one. */
  lemma {:induction false} RequestIdsUnique(cfg: Config, acts: seq<Action>)
    ensures IdInv(Exec(cfg, START, acts))
  {
    if acts != [] {
      RequestIdsUnique(cfg, acts[..|acts| - 1]);
      AuditAlways(cfg, acts[..|acts| - 1]);
      DoKeepsIds(cfg, Exec(cfg, START, acts[..|acts| - 1]), Last(acts));
    }
  }
}
