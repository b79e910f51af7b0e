/** The cooperative kill flag. An upsert is a read followed by a separate write, so
    a flag that was set can be lost; these theorems say exactly when. */
module KillFlag {
  import opened Base
  import opened Store
  import opened Machine

  /** The phase of the upsert a run is in. */
  function PhaseOf(pc: Pc): Option<Phase> {
    match pc
    case MarkRunning(ph) => Some(ph)
    case MarkKilled(_, ph) => Some(ph)
    case MarkFailed(_, ph) => Some(ph)
    case MarkCompleted(_, ph) => Some(ph)
    case _ => None
  }

  /** The process is about to UPDATE the row of `t` with a flag it read as false. */
  predicate Stale(p: Proc, t: Id) {
    p.Run? && p.req.thread == t && PhaseOf(p.pc) == Some(Write(Some(false)))
  }

  ghost predicate NoneStale(w: World, t: Id) {
    forall pid :: pid in w.procs ==> !Stale(w.procs[pid], t)
  }

  /** The flag is set and no pending write can clear it. */
  ghost predicate Locked(w: World, t: Id) {
    FlagOf(w.store, t) && NoneStale(w, t)
  }

  lemma PerformKeepsFlag(cfg: Config, s: Store, p: Proc, m: Move, t: Id)
    requires FlagOf(s, t) && !Stale(p, t)
    ensures FlagOf(Perform(cfg, s, OpOf(p, m), m), t)
  {
  }

  /** Who reads a set flag will not write a false one. */
  lemma ProceedKeepsFresh(cfg: Config, s: Store, p: Proc, m: Move, t: Id)
    requires FlagOf(s, t) && !Stale(p, t)
    ensures !Stale(Proceed(cfg, s, p, m), t)
  {
  }

  lemma FireKeepsFlag(cfg: Config, s: Store, p: Proc, m: Move, t: Id)
    requires FlagOf(s, t) && !Stale(p, t)
    ensures FlagOf(Perform(cfg, s, OpOf(p, m), m), t)
    ensures !Stale(Proceed(cfg, s, p, m), t)
  {
    hide OpOf, Perform, Proceed;
    PerformKeepsFlag(cfg, s, p, m, t);
    ProceedKeepsFresh(cfg, s, p, m, t);
  }

  lemma DoKeepsLocked(cfg: Config, w: World, a: Action, t: Id)
    requires Locked(w, t)
    ensures Locked(Do(cfg, w, a), t)
  {
    if a.Advance? && a.pid in w.procs {
      FireKeepsFlag(cfg, w.store, w.procs[a.pid], a.move, t);
    }
  }

  lemma {:induction false} LockedForever(cfg: Config, w: World, acts: seq<Action>, t: Id)
    requires Locked(w, t)
    ensures Locked(Exec(cfg, w, acts), t)
  {
    if acts != [] {
      LockedForever(cfg, w, acts[..|acts| - 1], t);
      DoKeepsLocked(cfg, Exec(cfg, w, acts[..|acts| - 1]), Last(acts), t);
    }
  }

  /** A pending UPDATE that read false clears the flag when it goes through. */
  lemma StaleWriteClears(cfg: Config, w: World, pid: Pid, t: Id, m: Move)
    requires t in w.store.threads && pid in w.procs && Stale(w.procs[pid], t) && m.fate == Done
    ensures !FlagOf(Exec(cfg, w, [Advance(pid, m)]).store, t)
  {
    assert [Advance(pid, m)][..0] == [];
    assert Exec(cfg, w, [Advance(pid, m)]) == Do(cfg, w, Advance(pid, m));
  }

  /** The exact boundary: a set flag stays set under every schedule if and only if no
      upsert on the thread holds a pending UPDATE that has already read false. */
  lemma KillStickyIff(cfg: Config, w: World, t: Id)
    requires FlagOf(w.store, t)
    ensures (forall acts :: FlagOf(Exec(cfg, w, acts).store, t)) <==> NoneStale(w, t)
  {
    if NoneStale(w, t) {
      forall acts ensures FlagOf(Exec(cfg, w, acts).store, t) {
        LockedForever(cfg, w, acts, t);
      }
    } else {
      var pid :| pid in w.procs && Stale(w.procs[pid], t);
      var m := Move(Done, true, "", 0, 0.0);
      StaleWriteClears(cfg, w, pid, t, m);
    }
  }

  // ---------------------------------------------------------------- the write of a kill request

  predicate KillWriting(p: Proc, t: Id) {
    p.Killer? && p.thread == t && p.kpc.KillUpsert? && p.kpc.phase.Write?
  }

  /** The process is about to UPDATE the row of its thread. */
  predicate Updating(p: Proc) {
    match p
    case Run(_, pc) => PhaseOf(pc).Some? && PhaseOf(pc).value.Write? && PhaseOf(pc).value.seen.Some?
    case Killer(_, kpc) => kpc.KillUpsert? && kpc.phase.Write? && kpc.phase.seen.Some?
  }

  /** A pending UPDATE has seen the row, and rows are never deleted. */
  ghost predicate UpdatesHaveRow(w: World) {
    forall pid :: pid in w.procs && Updating(w.procs[pid]) ==> ThreadOf(w.procs[pid]) in w.store.threads
  }

  lemma FireKeepsUpdates(cfg: Config, s: Store, p: Proc, m: Move)
    requires Updating(p) ==> ThreadOf(p) in s.threads
    ensures Updating(Proceed(cfg, s, p, m)) ==> ThreadOf(p) in Perform(cfg, s, OpOf(p, m), m).threads
    ensures forall t :: t in s.threads ==> t in Perform(cfg, s, OpOf(p, m), m).threads
  {
  }

  lemma {:induction false} UpdatesHaveRowAlways(cfg: Config, acts: seq<Action>)
    ensures UpdatesHaveRow(Exec(cfg, START, acts))
  {
    if acts != [] {
      UpdatesHaveRowAlways(cfg, acts[..|acts| - 1]);
      var w, a := Exec(cfg, START, acts[..|acts| - 1]), Last(acts);
      if a.Advance? && a.pid in w.procs {
        FireKeepsUpdates(cfg, w.store, w.procs[a.pid], a.move);
      }
    }
  }

  /** When the write of `request_kill` lands, the row says so and the flag is set; it is then permanent
      exactly when no UPDATE that read false was pending at that moment. If the thread
      had no row, none can be pending, so a kill of an unseen thread is never lost. */
  lemma KillLands(cfg: Config, acts: seq<Action>, pid: Pid, t: Id, m: Move)
    requires
      var w := Exec(cfg, START, acts);
      pid in w.procs && KillWriting(w.procs[pid], t) && Lands(cfg, w.store, OpOf(w.procs[pid], m), m)
    ensures
      var w := Exec(cfg, START, acts);
      var w' := Do(cfg, w, Advance(pid, m));
      && t in w'.store.threads && w'.store.threads[t] == ThreadRow(KillRequested, true)
      && ((forall more :: FlagOf(Exec(cfg, w', more).store, t)) <==> NoneStale(w, t))
      && (t !in w.store.threads ==> NoneStale(w, t))
  {
    var w := Exec(cfg, START, acts);
    var w' := Do(cfg, w, Advance(pid, m));
    UpdatesHaveRowAlways(cfg, acts);
    assert FlagOf(w'.store, t);
    KillStickyIff(cfg, w', t);
    assert forall i :: i in w.procs ==> Stale(w'.procs[i], t) == Stale(w.procs[i], t);
  }

  // ---------------------------------------------------------------- a lost kill

  /** A second run reads the flag as false; the kill request of process 2 completes
      and returns; then the run writes back what it read. */
  const BEFORE_KILL: seq<Action> := [
    Invoke(0, Request("r0", "t", "x", 1)), Advance(0, OK), Advance(0, OK), Advance(0, OK),
    Invoke(1, Request("r1", "t", "x", 1)), Advance(1, OK), Advance(1, OK)]

  const KILL: seq<Action> := [Kill(2, "t"), Advance(2, OK), Advance(2, OK), Advance(2, OK)]

  lemma BeforeKill(cfg: Config)
    ensures
      var w := Exec(cfg, START, BEFORE_KILL);
      && w.store.threads == map["t" := ThreadRow(Running, false)]
      && w.procs.Keys == {0, 1}
      && w.procs[1] == Run(Request("r1", "t", "x", 1), MarkRunning(Write(Some(false))))
  {
    var r0, r1 := Request("r0", "t", "x", 1), Request("r1", "t", "x", 1);
    var w1 := Exec(cfg, START, BEFORE_KILL[..4]);
    assert w1.store == EMPTY.(audit := [AuditRow("r0", "t", "x")], threads := map["t" := ThreadRow(Running, false)])
      && w1.procs == map[0 := Run(r0, PubStart)] by {
      var a0 := Exec(cfg, START, BEFORE_KILL[..0]);
      assert BEFORE_KILL[..1][..0] == BEFORE_KILL[..0];
      var a1 := Exec(cfg, START, BEFORE_KILL[..1]);
      assert a1 == World(EMPTY, map[0 := Run(r0, Audit)]);
      assert BEFORE_KILL[..2][..1] == BEFORE_KILL[..1];
      var a2 := Exec(cfg, START, BEFORE_KILL[..2]);
      assert a2 == World(EMPTY.(audit := [AuditRow("r0", "t", "x")]), map[0 := Run(r0, MarkRunning(Look))]);
      assert BEFORE_KILL[..3][..2] == BEFORE_KILL[..2];
      var a3 := Exec(cfg, START, BEFORE_KILL[..3]);
      assert a3 == World(a2.store, map[0 := Run(r0, MarkRunning(Write(None)))]);
      assert BEFORE_KILL[..4][..3] == BEFORE_KILL[..3];
    }
    assert BEFORE_KILL[..5][..4] == BEFORE_KILL[..4];
    var w2 := Exec(cfg, START, BEFORE_KILL[..5]);
    assert w2.procs == map[0 := Run(r0, PubStart), 1 := Run(r1, Audit)];
    assert BEFORE_KILL[..6][..5] == BEFORE_KILL[..5];
    var w3 := Exec(cfg, START, BEFORE_KILL[..6]);
    assert "r0" != "r1";
    assert !AuditHas(w2.store.audit, "r1");
    assert w3.procs[1] == Run(r1, MarkRunning(Look));
    assert BEFORE_KILL[..6] == BEFORE_KILL[..|BEFORE_KILL| - 1];
  }

  lemma KillReturns(cfg: Config, w: World)
    requires w.store.threads == map["t" := ThreadRow(Running, false)] && 2 !in w.procs
    ensures
      var w' := Exec(cfg, w, KILL);
      && w'.procs == w.procs[2 := Killer("t", KillDone(Some(Running)))]
      && w'.store.threads == map["t" := ThreadRow(KillRequested, true)]
  {
    hide Exec;
    assert [] + [KILL[0]] == [KILL[0]] && KILL == [KILL[0]] + [KILL[1]] + [KILL[2]] + [KILL[3]];
    ExecOne(cfg, w, [], KILL[0]);
    ExecOne(cfg, w, [KILL[0]], KILL[1]);
    ExecOne(cfg, w, [KILL[0]] + [KILL[1]], KILL[2]);
    ExecOne(cfg, w, [KILL[0]] + [KILL[1]] + [KILL[2]], KILL[3]);
    NoActions(cfg, w);
    assert Exec(cfg, w, [KILL[0]]).procs[2] == Killer("t", KillLook);
    assert Exec(cfg, w, [KILL[0]] + [KILL[1]]).procs[2] == Killer("t", KillUpsert(Some(Running), Look));
  }

  lemma NoActions(cfg: Config, w: World)
    ensures Exec(cfg, w, []) == w
  {
  }

  /** The kill request lands and returns to its caller, and yet the flag is gone after
      one more step of a run that was already under way. */
  lemma KillCanBeLost(cfg: Config)
    ensures
      var killed := Exec(cfg, START, BEFORE_KILL + KILL);
      && 2 in killed.procs && killed.procs[2] == Killer("t", KillDone(Some(Running)))
      && FlagOf(killed.store, "t")
      && !FlagOf(Exec(cfg, START, BEFORE_KILL + KILL + [Advance(1, OK)]).store, "t")
  {
    hide Exec;
    BeforeKill(cfg);
    KillReturns(cfg, Exec(cfg, START, BEFORE_KILL));
    ExecAppend(cfg, START, BEFORE_KILL, KILL);
    ExecAppend(cfg, START, BEFORE_KILL + KILL, [Advance(1, OK)]);
    StaleWriteClears(cfg, Exec(cfg, START, BEFORE_KILL + KILL), 1, "t", OK);
  }
}
