/** Threads on which runs do not overlap: the history is one line. */
module Serial {
  import opened Base
  import opened Store
  import opened Machine
  import opened History
  import opened Segment

  /** Each row's parent is exactly the row before it. */
  ghost predicate Line(rows: seq<Checkpoint>) {
    && (rows != [] ==> rows[0].parent == None)
    && (forall n :: 0 < n < |rows| ==> rows[n].parent == Some(rows[n - 1].id))
  }

  predicate RunOn(w: World, pid: Pid, t: Id) {
    pid in w.procs && w.procs[pid].Run? && w.procs[pid].req.thread == t
  }

  /** The runs on `t` that a schedule advances, in the order in which it advances them. */
  function Trail(cfg: Config, acts: seq<Action>, t: Id): seq<Pid> {
    if acts == [] then []
    else
      var front := acts[..|acts| - 1];
      var a := Last(acts);
      Trail(cfg, front, t) + if a.Advance? && RunOn(Exec(cfg, START, front), a.pid, t) then [a.pid] else []
  }

  /** Once another run on the thread has moved, a run never moves again: it has
      returned, raised, been cancelled or crashed. */
  ghost predicate NoOverlap(trail: seq<Pid>) {
    forall i, k, j :: 0 <= i < k < j < |trail| && trail[i] == trail[j] ==> trail[k] == trail[i]
  }

  lemma CheckpointsOnOwnThread(p: Proc, m: Move)
    ensures OpOf(p, m).InsertCheckpoint? ==> p.Run? && OpOf(p, m).checkpoint.thread == p.req.thread
  {
  }

  lemma OpKeepsRows(cfg: Config, s: Store, op: Op, m: Move, t: Id)
    requires op.InsertCheckpoint? ==> op.checkpoint.thread != t
    ensures RowsOf(Perform(cfg, s, op, m).checkpoints, t) == RowsOf(s.checkpoints, t)
  {
    if op.InsertCheckpoint? {
      RowsAppend(s.checkpoints, op.checkpoint, t);
    }
  }

  lemma OthersKeepRows(cfg: Config, s: Store, p: Proc, m: Move, t: Id)
    requires !(p.Run? && p.req.thread == t)
    ensures RowsOf(Perform(cfg, s, OpOf(p, m), m).checkpoints, t) == RowsOf(s.checkpoints, t)
  {
    CheckpointsOnOwnThread(p, m);
    OpKeepsRows(cfg, s, OpOf(p, m), m, t);
  }

  lemma {:induction false} UnmovedIsAtAudit(cfg: Config, acts: seq<Action>, pid: Pid, t: Id)
    requires RunOn(Exec(cfg, START, acts), pid, t) && pid !in Trail(cfg, acts, t)
    ensures Exec(cfg, START, acts).procs[pid].pc.Audit?
  {
    if acts != [] {
      var front := acts[..|acts| - 1];
      var w := Exec(cfg, START, front);
      if RunOn(w, pid, t) {
        UnmovedIsAtAudit(cfg, front, pid, t);
        assert forall q :: q in Trail(cfg, front, t) ==> q in Trail(cfg, acts, t);
      }
    }
  }

  lemma LineAppend(line: seq<Checkpoint>, c: Checkpoint)
    requires Line(line) && c.parent == Tip(line)
    ensures Line(line + [c])
  {
    var longer := line + [c];
    forall n | 0 < n < |longer| ensures longer[n].parent == Some(longer[n - 1].id) {
      if n < |line| {
        assert line[n].parent == Some(line[n - 1].id);
      }
    }
  }

  lemma ChainExtendsLine(cfg: Config, seed: State, found: seq<Checkpoint>, added: seq<Checkpoint>)
    requires Line(found) && Chained(cfg, seed, Tip(found), added)
    ensures Line(found + added)
  {
    if added == [] {
      assert found + added == found;
    } else {
      var front := Front(added);
      ChainExtendsLine(cfg, seed, found, front);
      var line := found + front;
      LineAppend(line, Last(added));
      assert found + added == line + [Last(added)];
    }
  }

  /** The rows `found` form a line, and the last run that moved has added its own to them. */
  ghost predicate Standing(cfg: Config, w: World, t: Id, pid: Pid, found: seq<Checkpoint>) {
    && RunOn(w, pid, t) && Line(found)
    && Progress(cfg, found, RowsOf(w.store.checkpoints, t), w.procs[pid].req, w.procs[pid].pc)
  }

  lemma StandingIsLine(cfg: Config, w: World, t: Id, pid: Pid, found: seq<Checkpoint>)
    requires Standing(cfg, w, t, pid, found)
    ensures Line(RowsOf(w.store.checkpoints, t))
  {
    var rows := RowsOf(w.store.checkpoints, t);
    ChainExtendsLine(cfg, SeedOf(cfg, w.procs[pid].req, found), found, rows[|found|..]);
    assert found + rows[|found|..] == rows;
  }

  lemma NewcomerIsNew(trail: seq<Pid>, pid: Pid)
    requires NoOverlap(trail + [pid]) && (trail == [] || Last(trail) != pid)
    ensures pid !in trail
  {
    var full := trail + [pid];
    assert forall i :: 0 <= i < |trail| ==> full[i] == trail[i];
    assert forall i :: 0 <= i < |trail| - 1 && full[i] == full[|trail|] ==> full[|trail| - 1] == full[i];
  }

  /** The run that moved last moves again. */
  lemma StandingStep(cfg: Config, w: World, t: Id, pid: Pid, m: Move, found: seq<Checkpoint>)
    requires Standing(cfg, w, t, pid, found)
    ensures Standing(cfg, Do(cfg, w, Advance(pid, m)), t, pid, found)
  {
    hide ProgressAt, Adds;
    StepKeepsProgress(cfg, w.store, found, w.procs[pid].req, w.procs[pid].pc, m);
  }

  /** A run that moves for the first time takes over. */
  lemma StandingBegins(cfg: Config, w: World, t: Id, pid: Pid, m: Move)
    requires RunOn(w, pid, t) && w.procs[pid].pc.Audit? && Line(RowsOf(w.store.checkpoints, t))
    ensures Standing(cfg, Do(cfg, w, Advance(pid, m)), t, pid, RowsOf(w.store.checkpoints, t))
  {
    StandingStep(cfg, w, t, pid, m, RowsOf(w.store.checkpoints, t));
  }

  /** Anything else that happens. */
  lemma StandingStays(cfg: Config, w: World, t: Id, pid: Pid, a: Action, found: seq<Checkpoint>)
    requires Standing(cfg, w, t, pid, found) && !(a.Advance? && RunOn(w, a.pid, t))
    ensures Standing(cfg, Do(cfg, w, a), t, pid, found)
  {
    hide ProgressAt, Adds;
    if a.Advance? && a.pid in w.procs {
      OthersKeepRows(cfg, w.store, w.procs[a.pid], a.move, t);
    }
  }

  lemma RowsStay(cfg: Config, w: World, t: Id, a: Action)
    requires !(a.Advance? && RunOn(w, a.pid, t))
    ensures RowsOf(Do(cfg, w, a).store.checkpoints, t) == RowsOf(w.store.checkpoints, t)
  {
    if a.Advance? && a.pid in w.procs {
      OthersKeepRows(cfg, w.store, w.procs[a.pid], a.move, t);
    }
  }

  lemma {:induction false} StandingAlways(cfg: Config, acts: seq<Action>, t: Id) returns (found: seq<Checkpoint>)
    requires NoOverlap(Trail(cfg, acts, t))
    ensures
      var w, trail := Exec(cfg, START, acts), Trail(cfg, acts, t);
      if trail == [] then RowsOf(w.store.checkpoints, t) == [] else Standing(cfg, w, t, Last(trail), found)
  {
    hide Standing, Do;
    found := [];
    if acts != [] {
      var front, a := acts[..|acts| - 1], Last(acts);
      var w, trail := Exec(cfg, START, front), Trail(cfg, front, t);
      assert trail <= Trail(cfg, acts, t);
      found := StandingAlways(cfg, front, t);
      if a.Advance? && RunOn(w, a.pid, t) {
        assert Trail(cfg, acts, t) == trail + [a.pid];
        if trail != [] && Last(trail) == a.pid {
          StandingStep(cfg, w, t, a.pid, a.move, found);
        } else {
          NewcomerIsNew(trail, a.pid);
          UnmovedIsAtAudit(cfg, front, a.pid, t);
          if trail != [] {
            StandingIsLine(cfg, w, t, Last(trail), found);
          }
          StandingBegins(cfg, w, t, a.pid, a.move);
          found := RowsOf(w.store.checkpoints, t);
        }
      } else {
        assert Trail(cfg, acts, t) == trail;
        RowsStay(cfg, w, t, a);
        if trail != [] {
          StandingStays(cfg, w, t, Last(trail), a, found);
        }
      }
    }
  }

  /** When runs on a thread do not overlap, whatever other threads and kill requests do and
      wherever runs fail or stop, `list_all` is one line: the parent of each row is the row
      before it, and `get_latest` is its last element. */
  lemma SerialHistoryIsALine(cfg: Config, acts: seq<Action>, t: Id)
    requires NoOverlap(Trail(cfg, acts, t))
    ensures
      var rows := Exec(cfg, START, acts).store.checkpoints;
      && Line(RowsOf(rows, t))
      && Latest(rows, t) == (if RowsOf(rows, t) == [] then None else Some(Last(RowsOf(rows, t))))
  {
    var w, trail := Exec(cfg, START, acts), Trail(cfg, acts, t);
    LatestIsLast(w.store.checkpoints, t);
    var found := StandingAlways(cfg, acts, t);
    if trail != [] {
      StandingIsLine(cfg, w, t, Last(trail), found);
    }
  }

  lemma PutAddsRow(cfg: Config, w: World, pid: Pid, m: Move, t: Id)
    requires RunOn(w, pid, t) && w.procs[pid].pc.Put? && Lands(cfg, w.store, OpOf(w.procs[pid], m), m)
    ensures
      var pc := w.procs[pid].pc;
      && RowsOf(Do(cfg, w, Advance(pid, m)).store.checkpoints, t)
         == RowsOf(w.store.checkpoints, t) + [Checkpoint(t, m.id, pc.l.parent, pc.next, CallOf(w.procs[pid].req, pc.l))]
      && !CheckpointHas(w.store.checkpoints, t, m.id)
  {
    var pc := w.procs[pid].pc;
    RowsAppend(w.store.checkpoints, Checkpoint(t, m.id, pc.l.parent, pc.next, CallOf(w.procs[pid].req, pc.l)), t);
  }

  lemma {:induction false} RowsAreStored(rows: seq<Checkpoint>, t: Id, r: Checkpoint)
    requires r in RowsOf(rows, t)
    ensures CheckpointHas(rows, t, r.id)
  {
    var front := rows[..|rows| - 1];
    if Last(rows).thread == t && Last(rows) == r {
      assert rows[|rows| - 1].thread == t;
    } else {
      RowsAreStored(front, t, r);
      var i :| 0 <= i < |front| && front[i].thread == t && front[i].id == r.id;
      assert rows[i] == front[i];
    }
  }
}
