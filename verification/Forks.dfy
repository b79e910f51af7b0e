/** When exactly the checkpoint history of a thread is one line, and that overlapping runs do
    fork it. */
module Forks {
  import opened Base
  import opened Store
  import opened Machine
  import opened History
  import opened Segment
  import opened Serial
  import Isolation

  // ---------------------------------------------------------------- the exact condition

  /** The action stores a checkpoint on the thread. */
  predicate Stores(cfg: Config, w: World, a: Action, t: Id) {
    a.Advance? && RunOn(w, a.pid, t) && w.procs[a.pid].pc.Put? && Lands(cfg, w.store, OpOf(w.procs[a.pid], a.move), a.move)
  }

  /** The rows change only where an action stores one. */
  lemma OnlyStoresAddRows(cfg: Config, w: World, a: Action, t: Id)
    requires !Stores(cfg, w, a, t)
    ensures RowsOf(Do(cfg, w, a).store.checkpoints, t) == RowsOf(w.store.checkpoints, t)
  {
    if a.Advance? && RunOn(w, a.pid, t) {
      var p := w.procs[a.pid];
      assert Perform(cfg, w.store, OpOf(p, a.move), a.move).checkpoints == w.store.checkpoints;
    } else {
      RowsStay(cfg, w, t, a);
    }
  }

  /** A line stays a line exactly if the row that is added hangs on its tip. */
  lemma PutKeepsLineIff(cfg: Config, w: World, a: Action, t: Id)
    requires Line(RowsOf(w.store.checkpoints, t)) && Stores(cfg, w, a, t)
    ensures Line(RowsOf(Do(cfg, w, a).store.checkpoints, t))
       <==> w.procs[a.pid].pc.l.parent == Tip(RowsOf(w.store.checkpoints, t))
  {
    var rows, rows' := RowsOf(w.store.checkpoints, t), RowsOf(Do(cfg, w, a).store.checkpoints, t);
    PutAddsRow(cfg, w, a.pid, a.move, t);
    if w.procs[a.pid].pc.l.parent == Tip(rows) {
      LineAppend(rows, Last(rows'));
    }
    assert rows'[|rows|].parent == w.procs[a.pid].pc.l.parent;
    assert rows != [] ==> rows'[|rows| - 1] == Last(rows);
  }

  /** How many rows the thread had when the run last read or wrote the tip of its history: at its
      load, or when it stored its own last row. */
  function SeenRows(cfg: Config, acts: seq<Action>, pid: Pid, t: Id): nat {
    if acts == [] then 0
    else
      var front, a := acts[..|acts| - 1], Last(acts);
      var w := Exec(cfg, START, front);
      if a.pid == pid && (Stores(cfg, w, a, t) || (a.Advance? && RunOn(w, pid, t) && w.procs[pid].pc.Load?))
      then |RowsOf(Do(cfg, w, a).store.checkpoints, t)|
      else SeenRows(cfg, front, pid, t)
  }

  /** Whenever a run stores a row, no other run has stored one since it last read or wrote the tip. */
  ghost predicate UpToDate(cfg: Config, acts: seq<Action>, t: Id) {
    acts != [] ==>
      var front, a := acts[..|acts| - 1], Last(acts);
      var w := Exec(cfg, START, front);
      && UpToDate(cfg, front, t)
      && (Stores(cfg, w, a, t) ==> SeenRows(cfg, front, a.pid, t) == |RowsOf(w.store.checkpoints, t)|)
  }

  /** The parent of the next row is the tip that was seen. */
  predicate HangsOn(pc: Pc, tip: Option<Id>) {
    match pc
    case CheckKill(l) => l.parent == tip
    case PubStepStart(l) => l.parent == tip
    case CallStep(l) => l.parent == tip
    case InStep(l) => l.parent == tip
    case Put(l, _) => l.parent == tip
    case PubStepEnd(l) => l.parent == tip
    case _ => true
  }

  lemma StepHangsOn(cfg: Config, s: Store, req: Request, pc: Pc, m: Move, tip: Option<Id>)
    requires HangsOn(pc, tip) && !pc.Load? && !pc.Put?
    ensures HangsOn(Proceed(cfg, s, Run(req, pc), m).pc, tip)
  {
  }

  lemma LoadHangsOn(cfg: Config, s: Store, req: Request, m: Move)
    ensures HangsOn(Proceed(cfg, s, Run(req, Load), m).pc, Tip(RowsOf(s.checkpoints, req.thread)))
  {
    LatestIsLast(s.checkpoints, req.thread);
  }

  lemma PutHangsOn(cfg: Config, s: Store, req: Request, pc: Pc, m: Move, tip: Option<Id>)
    requires pc.Put? && (Lands(cfg, s, OpOf(Run(req, pc), m), m) ==> tip == Some(m.id))
    ensures HangsOn(Proceed(cfg, s, Run(req, pc), m).pc, tip)
  {
  }

  ghost predicate SeenTip(cfg: Config, acts: seq<Action>, pid: Pid, t: Id) {
    var w, seen := Exec(cfg, START, acts), SeenRows(cfg, acts, pid, t);
    var rows := RowsOf(w.store.checkpoints, t);
    seen <= |rows| && (RunOn(w, pid, t) ==> HangsOn(w.procs[pid].pc, Tip(rows[..seen])))
  }

  lemma OwnSeenTip(cfg: Config, acts: seq<Action>, a: Action, t: Id)
    requires SeenTip(cfg, acts, a.pid, t) && a.Advance? && RunOn(Exec(cfg, START, acts), a.pid, t)
    ensures
      var w := Exec(cfg, START, acts);
      var rows' := RowsOf(Do(cfg, w, a).store.checkpoints, t);
      var sync := Stores(cfg, w, a, t) || w.procs[a.pid].pc.Load?;
      var seen := if sync then |rows'| else SeenRows(cfg, acts, a.pid, t);
      seen <= |rows'| && HangsOn(Do(cfg, w, a).procs[a.pid].pc, Tip(rows'[..seen]))
  {
    hide HangsOn, Exec, SeenRows, Resume;
    var w := Exec(cfg, START, acts);
    var p := w.procs[a.pid];
    var rows, rows' := RowsOf(w.store.checkpoints, t), RowsOf(Do(cfg, w, a).store.checkpoints, t);
    assert rows'[..|rows'|] == rows';
    if Stores(cfg, w, a, t) {
      PutAddsRow(cfg, w, a.pid, a.move, t);
      PutHangsOn(cfg, w.store, p.req, p.pc, a.move, Tip(rows'));
    } else {
      OnlyStoresAddRows(cfg, w, a, t);
      if p.pc.Load? {
        LoadHangsOn(cfg, w.store, p.req, a.move);
      } else if p.pc.Put? {
        PutHangsOn(cfg, w.store, p.req, p.pc, a.move, Tip(rows[..SeenRows(cfg, acts, a.pid, t)]));
      } else {
        StepHangsOn(cfg, w.store, p.req, p.pc, a.move, Tip(rows[..SeenRows(cfg, acts, a.pid, t)]));
      }
    }
  }

  /** What is not an own step of the run. */
  lemma OtherSeenTip(cfg: Config, w: World, a: Action, pid: Pid, t: Id, seen: nat)
    requires !(a.Advance? && a.pid == pid && RunOn(w, pid, t))
    requires seen <= |RowsOf(w.store.checkpoints, t)|
    requires RunOn(w, pid, t) ==> HangsOn(w.procs[pid].pc, Tip(RowsOf(w.store.checkpoints, t)[..seen]))
    ensures
      var w' := Do(cfg, w, a);
      var rows' := RowsOf(w'.store.checkpoints, t);
      seen <= |rows'| && (RunOn(w', pid, t) ==> HangsOn(w'.procs[pid].pc, Tip(rows'[..seen])))
  {
    var rows, rows' := RowsOf(w.store.checkpoints, t), RowsOf(Do(cfg, w, a).store.checkpoints, t);
    if Stores(cfg, w, a, t) {
      PutAddsRow(cfg, w, a.pid, a.move, t);
    } else {
      OnlyStoresAddRows(cfg, w, a, t);
    }
    assert rows'[..seen] == rows[..seen];
    if a.Advance? && a.pid == pid && pid in w.procs {
      Isolation.ProceedKeepsThread(cfg, w.store, w.procs[pid], a.move);
    }
  }

  lemma {:induction false} SeenTipAlways(cfg: Config, acts: seq<Action>, pid: Pid, t: Id)
    ensures SeenTip(cfg, acts, pid, t)
  {
    hide HangsOn, Do;
    if acts == [] {
      assert Exec(cfg, START, acts) == START;
    } else {
      var front, a := acts[..|acts| - 1], Last(acts);
      SeenTipAlways(cfg, front, pid, t);
      var w := Exec(cfg, START, front);
      if a.Advance? && a.pid == pid && RunOn(w, pid, t) {
        OwnSeenTip(cfg, front, a, t);
      } else {
        OtherSeenTip(cfg, w, a, pid, t, SeenRows(cfg, front, pid, t));
      }
    }
  }

  ghost predicate IdsDiffer(rows: seq<Checkpoint>) {
    forall i, j :: 0 <= i < j < |rows| ==> rows[i].id != rows[j].id
  }

  lemma {:induction false} RowIdsDiffer(rows: seq<Checkpoint>, t: Id)
    requires UniqueIds(rows)
    ensures IdsDiffer(RowsOf(rows, t))
  {
    if rows != [] {
      var front, last := rows[..|rows| - 1], Last(rows);
      RowIdsDiffer(front, t);
      if last.thread == t {
        forall r | r in RowsOf(front, t) ensures r.id != last.id {
          RowsAreStored(front, t, r);
          var i :| 0 <= i < |front| && front[i].thread == t && front[i].id == r.id;
          assert rows[i].thread == rows[|rows| - 1].thread;
        }
      }
    }
  }

  /** A run stores a row on the tip exactly if the tip is the one it saw. */
  lemma OnTipIff(cfg: Config, acts: seq<Action>, a: Action, t: Id)
    requires Stores(cfg, Exec(cfg, START, acts), a, t)
    ensures
      var w := Exec(cfg, START, acts);
      var rows := RowsOf(w.store.checkpoints, t);
      w.procs[a.pid].pc.l.parent == Tip(rows) <==> SeenRows(cfg, acts, a.pid, t) == |rows|
  {
    hide Exec, SeenRows, Forest, TablesExplained, RunExplained, RowsOf;
    var w := Exec(cfg, START, acts);
    var rows, seen := RowsOf(w.store.checkpoints, t), SeenRows(cfg, acts, a.pid, t);
    SeenTipAlways(cfg, acts, a.pid, t);
    IdsDifferAlways(cfg, acts, t);
    assert w.procs[a.pid].pc.l.parent == Tip(rows[..seen]);
    TipDiffers(rows, seen);
  }

  lemma IdsDifferAlways(cfg: Config, acts: seq<Action>, t: Id)
    ensures IdsDiffer(RowsOf(Exec(cfg, START, acts).store.checkpoints, t))
  {
    HistoryAlways(cfg, acts);
    RowIdsDiffer(Exec(cfg, START, acts).store.checkpoints, t);
  }

  /** Rows that were added move the tip. */
  lemma TipDiffers(rows: seq<Checkpoint>, seen: nat)
    requires seen <= |rows| && IdsDiffer(rows)
    ensures Tip(rows[..seen]) == Tip(rows) <==> seen == |rows|
  {
    if seen == |rows| {
      assert rows[..seen] == rows;
    } else if seen > 0 {
      assert rows[seen - 1].id != rows[|rows| - 1].id;
    }
  }

  /** Exactly when the history of a thread is one line, for every schedule: if and only if every run,
      each time it stored a checkpoint, had read or written the latest one of the thread. */
  lemma {:induction false} LineIffUpToDate(cfg: Config, acts: seq<Action>, t: Id)
    ensures Line(RowsOf(Exec(cfg, START, acts).store.checkpoints, t)) <==> UpToDate(cfg, acts, t)
  {
    hide Line, Stores, Do;
    if acts == [] {
      NoLine();
    } else {
      var front, a := acts[..|acts| - 1], Last(acts);
      var w := Exec(cfg, START, front);
      LineIffUpToDate(cfg, front, t);
      if Stores(cfg, w, a, t) {
        OnTipIff(cfg, front, a, t);
        LineGrew(cfg, w, a, t);
        if Line(RowsOf(w.store.checkpoints, t)) {
          PutKeepsLineIff(cfg, w, a, t);
        }
      } else {
        OnlyStoresAddRows(cfg, w, a, t);
      }
    }
  }

  lemma NoLine()
    ensures Line([])
  {
  }

  lemma LineGrew(cfg: Config, w: World, a: Action, t: Id)
    requires Stores(cfg, w, a, t)
    ensures Line(RowsOf(Do(cfg, w, a).store.checkpoints, t)) ==> Line(RowsOf(w.store.checkpoints, t))
  {
    var rows, rows' := RowsOf(w.store.checkpoints, t), RowsOf(Do(cfg, w, a).store.checkpoints, t);
    PutAddsRow(cfg, w, a.pid, a.move, t);
    assert forall i :: 0 <= i < |rows| ==> rows[i] == rows'[i];
  }

  // ---------------------------------------------------------------- a fork

  /** A run on a thread without rows and without a set flag gets to the point of storing its first row. */
  lemma RunToPut(cfg: Config, w: World, pid: Pid, req: Request, next: State)
    requires pid in w.procs && w.procs[pid] == Run(req, Audit) && req.bound > 0
    requires !AuditHas(w.store.audit, req.id) && !FlagOf(w.store, req.thread) && Latest(w.store.checkpoints, req.thread) == None
    requires cfg.step(Override(FRESH, req.input, req.thread), 0) == Some(next)
    ensures
      var w' := Exec(cfg, w, Again(pid, 9));
      && w'.procs == w.procs[pid := Run(req, Put(Loop(Override(FRESH, req.input, req.thread), None, 0), next))]
      && w'.store.audit == w.store.audit + [AuditRow(req.id, req.thread, req.input)]
      && w'.store.checkpoints == w.store.checkpoints && !FlagOf(w'.store, req.thread)
  {
    hide Exec, Override, Do, RunOp, RunNext;
    RunToLoad(cfg, w, pid, req);
    var l := Loop(Override(FRESH, req.input, req.thread), None, 0);
    LoadFirst(cfg, Exec(cfg, w, Again(pid, 4)), pid, req);
    ExecAgain(cfg, w, pid, 5);
    StepToPut(cfg, w, pid, req, l, next, 5);
  }

  lemma LoadFirst(cfg: Config, w: World, pid: Pid, req: Request)
    requires pid in w.procs && w.procs[pid] == Run(req, Load) && req.bound > 0
    requires Latest(w.store.checkpoints, req.thread) == None
    ensures Do(cfg, w, Advance(pid, OK))
         == w.(procs := w.procs[pid := Run(req, CheckKill(Loop(Override(FRESH, req.input, req.thread), None, 0)))])
  {
    hide Override;
    Returns(cfg, w, pid, req, Load, OK);
  }

  lemma StepToPut(cfg: Config, w: World, pid: Pid, req: Request, l: Loop, next: State, n: nat)
    requires
      var w0 := Exec(cfg, w, Again(pid, n));
      pid in w0.procs && w0.procs[pid] == Run(req, CheckKill(l)) && !FlagOf(w0.store, req.thread)
    requires cfg.step(l.state, 0) == Some(next)
    ensures
      var w0, w' := Exec(cfg, w, Again(pid, n)), Exec(cfg, w, Again(pid, n + 4));
      && w'.procs == w0.procs[pid := Run(req, Put(l, next))]
      && w'.store.audit == w0.store.audit && w'.store.checkpoints == w0.store.checkpoints && w'.store.threads == w0.store.threads
  {
    hide Exec, Do, Again;
    ExecAgain(cfg, w, pid, n + 1);
    Returns(cfg, Exec(cfg, w, Again(pid, n)), pid, req, CheckKill(l), OK);
    ExecAgain(cfg, w, pid, n + 2);
    Returns(cfg, Exec(cfg, w, Again(pid, n + 1)), pid, req, PubStepStart(l), OK);
    ExecAgain(cfg, w, pid, n + 3);
    Returns(cfg, Exec(cfg, w, Again(pid, n + 2)), pid, req, CallStep(l), OK);
    ExecAgain(cfg, w, pid, n + 4);
    Returns(cfg, Exec(cfg, w, Again(pid, n + 3)), pid, req, InStep(l), OK);
  }

  lemma RunToLoad(cfg: Config, w: World, pid: Pid, req: Request)
    requires pid in w.procs && w.procs[pid] == Run(req, Audit)
    requires !AuditHas(w.store.audit, req.id) && !FlagOf(w.store, req.thread)
    ensures
      var w' := Exec(cfg, w, Again(pid, 4));
      && w'.procs == w.procs[pid := Run(req, Load)]
      && w'.store.audit == w.store.audit + [AuditRow(req.id, req.thread, req.input)]
      && w'.store.checkpoints == w.store.checkpoints && !FlagOf(w'.store, req.thread)
  {
    hide Exec, Do, Again;
    ExecAgainNone(cfg, w, pid);
    ExecAgain(cfg, w, pid, 1);
    Returns(cfg, w, pid, req, Audit, OK);
    ExecAgain(cfg, w, pid, 2);
    Returns(cfg, Exec(cfg, w, Again(pid, 1)), pid, req, MarkRunning(Look), OK);
    ExecAgain(cfg, w, pid, 3);
    var w2 := Exec(cfg, w, Again(pid, 2));
    Returns(cfg, w2, pid, req, w2.procs[pid].pc, OK);
    ExecAgain(cfg, w, pid, 4);
    Returns(cfg, Exec(cfg, w, Again(pid, 3)), pid, req, PubStart, OK);
  }

  /** Two invocations on one thread, both before their first row; then both store it. */
  const FORK: seq<Action> :=
    [Invoke(0, Request("r0", "t", "x", 1))] + Again(0, 9) + [Invoke(1, Request("r1", "t", "x", 1))] + Again(1, 9)
    + [Advance(0, OK)] + [Advance(1, OK.(id := "n"))]

  lemma Begin(cfg: Config, w: World, pid: Pid, req: Request)
    requires pid !in w.procs
    ensures Exec(cfg, w, [Invoke(pid, req)]) == w.(procs := w.procs[pid := Run(req, Audit)])
  {
    assert [Invoke(pid, req)][..0] == [];
  }

  /** Overlapping runs do fork the history, from the empty database, under every step function that can
      make a first state at all. */
  lemma ForkHappens(cfg: Config, next: State)
    requires cfg.step(Override(FRESH, "x", "t"), 0) == Some(next) && cfg.encodable(next)
    ensures
      var rows := RowsOf(Exec(cfg, START, FORK).store.checkpoints, "t");
      && |rows| == 2 && rows[0].parent == None && rows[1].parent == None && !Line(rows)
  {
    hide Exec, Override, Again;
    var r0, r1 := Request("r0", "t", "x", 1), Request("r1", "t", "x", 1);
    var l := Loop(Override(FRESH, "x", "t"), None, 0);
    var a1, a2, a3, a4 := [Invoke(0, r0)], Again(0, 9), [Invoke(1, r1)], Again(1, 9);
    var w1 := Exec(cfg, START, a1);
    Begin(cfg, START, 0, r0);
    var w2 := Exec(cfg, w1, a2);
    RunToPut(cfg, w1, 0, r0, next);
    var w3 := Exec(cfg, w2, a3);
    Begin(cfg, w2, 1, r1);
    assert r0.id[1] != r1.id[1];
    var w4 := Exec(cfg, w3, a4);
    RunToPut(cfg, w3, 1, r1, next);
    ExecAppend(cfg, START, a1, a2);
    ExecAppend(cfg, START, a1 + a2, a3);
    ExecAppend(cfg, START, a1 + a2 + a3, a4);
    assert w4 == Exec(cfg, START, a1 + a2 + a3 + a4);
    TwoPuts(cfg, a1 + a2 + a3 + a4, r0, r1, l, next);
  }

  lemma TwoPuts(cfg: Config, acts: seq<Action>, r0: Request, r1: Request, l: Loop, next: State)
    requires r0.thread == "t" && r1.thread == "t" && l.parent == None && cfg.encodable(next)
    requires
      var w := Exec(cfg, START, acts);
      w.store.checkpoints == [] && w.procs == map[0 := Run(r0, Put(l, next)), 1 := Run(r1, Put(l, next))]
    ensures
      var rows := RowsOf(Exec(cfg, START, acts + [Advance(0, OK)] + [Advance(1, OK.(id := "n"))]).store.checkpoints, "t");
      |rows| == 2 && rows[0].parent == None && rows[1].parent == None && !Line(rows)
  {
    hide Exec, Proceed;
    var w := Exec(cfg, START, acts);
    var a, b := Advance(0, OK), Advance(1, OK.(id := "n"));
    ExecOne(cfg, START, acts, a);
    ExecOne(cfg, START, acts + [a], b);
    var w1 := Do(cfg, w, a);
    Returns(cfg, w, 0, r0, Put(l, next), OK);
    PutAddsRow(cfg, w, 0, OK, "t");
    assert RowsOf(w.store.checkpoints, "t") == [];
    assert w1.store.checkpoints == [Checkpoint("t", "m", None, next, CallOf(r0, l))];
    assert !CheckpointHas(w1.store.checkpoints, "t", "n");
    PutAddsRow(cfg, w1, 1, b.move, "t");
  }

  /** Two runs that loaded the same checkpoint and both
      store theirs fork the history of their thread. */
  lemma OverlapForks(cfg: Config, w: World, t: Id, i: Pid, m: Move, j: Pid, n: Move)
    requires i != j && RunOn(w, i, t) && RunOn(w, j, t) && w.procs[i].pc.Put? && w.procs[j].pc.Put?
    requires w.procs[i].pc.l.parent == w.procs[j].pc.l.parent
    requires Lands(cfg, w.store, OpOf(w.procs[i], m), m)
    requires
      var w1 := Do(cfg, w, Advance(i, m));
      Lands(cfg, w1.store, OpOf(w1.procs[j], n), n)
    ensures !Line(RowsOf(Do(cfg, Do(cfg, w, Advance(i, m)), Advance(j, n)).store.checkpoints, t))
  {
    var w1 := Do(cfg, w, Advance(i, m));
    PutAddsRow(cfg, w, i, m, t);
    PutAddsRow(cfg, w1, j, n, t);
    var rows := RowsOf(w.store.checkpoints, t);
    var all := RowsOf(Do(cfg, w1, Advance(j, n)).store.checkpoints, t);
    var k := |rows|;
    assert all[k].id == m.id && all[k].parent == all[k + 1].parent;
    if k > 0 {
      if rows[k - 1].id == m.id {
        RowsAreStored(w.store.checkpoints, t, rows[k - 1]);
      }
      assert all[k - 1] == rows[k - 1];
    }
  }
}
