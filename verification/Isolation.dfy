/** Threads do not interfere: what a thread sees of any schedule is what it would see alone. */
module Isolation {
  import opened Base
  import opened Store
  import opened Machine

  // ---------------------------------------------------------------- one thread's view

  function Only<T>(xs: seq<T>, keep: T -> bool): seq<T> {
    if xs == [] then []
    else
      var front := Only(xs[..|xs| - 1], keep);
      if keep(Last(xs)) then front + [Last(xs)] else front
  }

  function AuditOf(rows: seq<AuditRow>, t: Id): seq<AuditRow> {
    Only(rows, (r: AuditRow) => r.thread == t)
  }

  function MetricsOf(rows: seq<Metric>, t: Id): seq<Metric> {
    Only(rows, (r: Metric) => r.thread == t)
  }

  function EventsOf(events: seq<Event>, t: Id): seq<Event> {
    Only(events, (e: Event) => e.thread == t)
  }

  function CallsOf(calls: seq<Call>, t: Id): seq<Call> {
    Only(calls, (c: Call) => c.thread == t)
  }

  function ViewStore(s: Store, t: Id): Store {
    Store(
      AuditOf(s.audit, t),
      map u | u in s.threads && u == t :: s.threads[u],
      RowsOf(s.checkpoints, t),
      MetricsOf(s.metrics, t),
      EventsOf(s.events, t),
      CallsOf(s.calls, t))
  }

  /** Everything in the world that belongs to one thread. */
  function View(w: World, t: Id): World {
    World(ViewStore(w.store, t), map pid | pid in w.procs && ThreadOf(w.procs[pid]) == t :: w.procs[pid])
  }

  /** The thread whose rows an operation reads or writes. */
  function OpThread(op: Op): Option<Id> {
    match op
    case InsertAudit(r) => Some(r.thread)
    case ReadThread(t) => Some(t)
    case InsertThread(t, _) => Some(t)
    case UpdateThread(t, _) => Some(t)
    case ReadLatest(t) => Some(t)
    case InsertCheckpoint(c) => Some(c.thread)
    case InsertMetric(r) => Some(r.thread)
    case Publish(e) => Some(e.thread)
    case StartStep(c) => Some(c.thread)
    case AwaitStep(c, _) => Some(c.thread)
    case Idle => None
  }

  lemma OpOnOwnThread(p: Proc, m: Move)
    ensures OpThread(OpOf(p, m)) == None || OpThread(OpOf(p, m)) == Some(ThreadOf(p))
  {
  }

  lemma OnlyAppend<T>(xs: seq<T>, x: T, keep: T -> bool)
    ensures Only(xs + [x], keep) == if keep(x) then Only(xs, keep) + [x] else Only(xs, keep)
  {
    assert (xs + [x])[..|xs|] == xs;
  }

  // ---------------------------------------------------------------- operations and views

  lemma ApplyElsewhere(s: Store, op: Op, t: Id)
    requires OpThread(op) != Some(t)
    ensures ViewStore(Apply(s, op), t) == ViewStore(s, t)
  {
    match op
    case InsertAudit(r) => OnlyAppend(s.audit, r, (r: AuditRow) => r.thread == t);
    case InsertCheckpoint(c) => RowsAppend(s.checkpoints, c, t);
    case InsertMetric(r) => OnlyAppend(s.metrics, r, (r: Metric) => r.thread == t);
    case Publish(e) => OnlyAppend(s.events, e, (e: Event) => e.thread == t);
    case StartStep(c) => OnlyAppend(s.calls, c, (c: Call) => c.thread == t);
    case _ =>
  }

  lemma ApplyHere(s: Store, op: Op, t: Id)
    requires OpThread(op) == Some(t)
    ensures ViewStore(Apply(s, op), t) == Apply(ViewStore(s, t), op)
  {
    match op
    case InsertAudit(r) => OnlyAppend(s.audit, r, (r: AuditRow) => r.thread == t);
    case InsertCheckpoint(c) => RowsAppend(s.checkpoints, c, t);
    case InsertMetric(r) => OnlyAppend(s.metrics, r, (r: Metric) => r.thread == t);
    case Publish(e) => OnlyAppend(s.events, e, (e: Event) => e.thread == t);
    case StartStep(c) => OnlyAppend(s.calls, c, (c: Call) => c.thread == t);
    case _ =>
  }

  // ---------------------------------------------------------------- ids of different threads

  /** Every request id and metrics row id is drawn on one thread only: `home` says which. */
  ghost predicate Homed(s: Store, home: Id -> Id) {
    && (forall i :: 0 <= i < |s.audit| ==> home(s.audit[i].id) == s.audit[i].thread)
    && (forall i :: 0 <= i < |s.metrics| ==> home(s.metrics[i].id) == s.metrics[i].thread)
  }

  lemma {:induction false} OnlyKeeps<T>(xs: seq<T>, keep: T -> bool, x: T)
    ensures x in Only(xs, keep) <==> x in xs && keep(x)
  {
    if xs != [] {
      var front := xs[..|xs| - 1];
      OnlyKeeps(front, keep, x);
      assert xs == front + [Last(xs)];
    }
  }

  lemma AuditHasHere(rows: seq<AuditRow>, id: Id, t: Id, home: Id -> Id)
    requires home(id) == t && forall i :: 0 <= i < |rows| ==> home(rows[i].id) == rows[i].thread
    ensures AuditHas(AuditOf(rows, t), id) == AuditHas(rows, id)
  {
    var keep := (r: AuditRow) => r.thread == t;
    var view := Only(rows, keep);
    assert view == AuditOf(rows, t);
    if AuditHas(view, id) {
      var i :| 0 <= i < |view| && view[i].id == id;
      OnlyKeeps(rows, keep, view[i]);
    }
    if AuditHas(rows, id) {
      var i :| 0 <= i < |rows| && rows[i].id == id;
      OnlyKeeps(rows, keep, rows[i]);
      var j :| 0 <= j < |view| && view[j] == rows[i];
    }
  }

  lemma MetricHasHere(rows: seq<Metric>, id: Id, t: Id, home: Id -> Id)
    requires home(id) == t && forall i :: 0 <= i < |rows| ==> home(rows[i].id) == rows[i].thread
    ensures MetricHas(MetricsOf(rows, t), id) == MetricHas(rows, id)
  {
    var keep := (r: Metric) => r.thread == t;
    var view := Only(rows, keep);
    assert view == MetricsOf(rows, t);
    if MetricHas(view, id) {
      var i :| 0 <= i < |view| && view[i].id == id;
      OnlyKeeps(rows, keep, view[i]);
    }
    if MetricHas(rows, id) {
      var i :| 0 <= i < |rows| && rows[i].id == id;
      OnlyKeeps(rows, keep, rows[i]);
      var j :| 0 <= j < |view| && view[j] == rows[i];
    }
  }

  lemma {:induction false} CheckpointHasHere(rows: seq<Checkpoint>, id: Id, t: Id)
    ensures CheckpointHas(RowsOf(rows, t), t, id) == CheckpointHas(rows, t, id)
  {
    if rows != [] {
      var front, last := rows[..|rows| - 1], Last(rows);
      CheckpointHasHere(front, id, t);
      assert rows == front + [last];
      CheckpointHasAppend(front, last, t, id);
      CheckpointHasAppend(RowsOf(front, t), last, t, id);
    }
  }

  lemma CheckpointHasAppend(rows: seq<Checkpoint>, c: Checkpoint, t: Id, id: Id)
    ensures CheckpointHas(rows + [c], t, id) <==> CheckpointHas(rows, t, id) || (c.thread == t && c.id == id)
  {
    var longer := rows + [c];
    if CheckpointHas(rows, t, id) {
      var i :| 0 <= i < |rows| && rows[i].thread == t && rows[i].id == id;
      assert longer[i].thread == t && longer[i].id == id;
    }
    assert longer[|rows|] == c;
  }

  lemma {:induction false} LatestHere(rows: seq<Checkpoint>, t: Id)
    ensures Latest(RowsOf(rows, t), t) == Latest(rows, t)
  {
    if rows != [] {
      LatestHere(rows[..|rows| - 1], t);
    }
  }

  /** The ids this operation inserts were drawn on its own thread. */
  predicate OpHomed(op: Op, home: Id -> Id) {
    match op
    case InsertAudit(r) => home(r.id) == r.thread
    case InsertMetric(r) => home(r.id) == r.thread
    case _ => true
  }

  lemma RejectsHere(cfg: Config, s: Store, op: Op, t: Id, home: Id -> Id)
    requires OpThread(op) == Some(t) && Homed(s, home) && OpHomed(op, home)
    ensures Rejects(cfg, ViewStore(s, t), op) == Rejects(cfg, s, op)
  {
    match op
    case InsertAudit(r) => AuditHasHere(s.audit, r.id, t, home);
    case InsertCheckpoint(c) => CheckpointHasHere(s.checkpoints, c.id, t);
    case InsertMetric(r) => MetricHasHere(s.metrics, r.id, t, home);
    case _ =>
  }

  // ---------------------------------------------------------------- one action

  lemma PerformHere(cfg: Config, s: Store, p: Proc, m: Move, home: Id -> Id)
    requires Homed(s, home) && OpHomed(OpOf(p, m), home)
    ensures
      var t, op := ThreadOf(p), OpOf(p, m);
      && ViewStore(Perform(cfg, s, op, m), t) == Perform(cfg, ViewStore(s, t), op, m)
      && Settle(cfg, ViewStore(s, t), op, m) == Settle(cfg, s, op, m)
  {
    var t, op := ThreadOf(p), OpOf(p, m);
    OpOnOwnThread(p, m);
    if op != Idle {
      RejectsHere(cfg, s, op, t, home);
      ApplyHere(s, op, t);
    }
  }

  lemma NextHere(cfg: Config, s: Store, req: Request, pc: Pc, m: Move)
    ensures RunNext(cfg, ViewStore(s, req.thread), req, pc, m) == RunNext(cfg, s, req, pc, m)
  {
    LatestHere(s.checkpoints, req.thread);
  }

  lemma KillNextHere(s: Store, t: Id, kpc: KillPc)
    ensures KillNext(ViewStore(s, t), t, kpc) == KillNext(s, t, kpc)
  {
  }

  lemma ProceedHere(cfg: Config, s: Store, p: Proc, m: Move, home: Id -> Id)
    requires Homed(s, home) && OpHomed(OpOf(p, m), home)
    ensures Proceed(cfg, ViewStore(s, ThreadOf(p)), p, m) == Proceed(cfg, s, p, m)
  {
    hide Homed, OpHomed, RunOp, RunNext, RunFault, Rejects, Perform, Settle, ViewStore;
    PerformHere(cfg, s, p, m, home);
    match p
    case Run(req, pc) => NextHere(cfg, s, req, pc, m);
    case Killer(t, kpc) => KillNextHere(s, t, kpc);
  }

  lemma PerformElsewhere(cfg: Config, s: Store, p: Proc, m: Move, t: Id)
    requires ThreadOf(p) != t
    ensures ViewStore(Perform(cfg, s, OpOf(p, m), m), t) == ViewStore(s, t)
  {
    OpOnOwnThread(p, m);
    if Lands(cfg, s, OpOf(p, m), m) {
      ApplyElsewhere(s, OpOf(p, m), t);
    }
  }

  lemma ProceedKeepsThread(cfg: Config, s: Store, p: Proc, m: Move)
    ensures ThreadOf(Proceed(cfg, s, p, m)) == ThreadOf(p)
    ensures p.Run? ==> Proceed(cfg, s, p, m).Run? && Proceed(cfg, s, p, m).req == p.req
  {
  }

  /** Each process id is used on one thread, and each request id, and each id drawn for a metrics
      row, on one thread. Checkpoint ids may be what they like: they are unique per thread only. */
  predicate Separated(w: World, a: Action, home: Id -> Id, owner: Pid -> Id) {
    match a
    case Invoke(pid, req) => owner(pid) == req.thread && home(req.id) == req.thread
    case Kill(pid, t) => owner(pid) == t
    case Advance(pid, m) => pid in w.procs && Records(w.procs[pid]) ==> home(m.id) == owner(pid)
  }

  /** The process is about to insert its metrics row. */
  predicate Records(p: Proc) {
    p.Run? && p.pc.Record?
  }

  ghost predicate AllSeparated(cfg: Config, acts: seq<Action>, home: Id -> Id, owner: Pid -> Id) {
    acts != [] ==>
      var front := acts[..|acts| - 1];
      AllSeparated(cfg, front, home, owner) && Separated(Exec(cfg, START, front), Last(acts), home, owner)
  }

  ghost predicate WorldSeparated(w: World, home: Id -> Id, owner: Pid -> Id) {
    && Homed(w.store, home)
    && (forall pid :: pid in w.procs ==> owner(pid) == ThreadOf(w.procs[pid]))
    && (forall pid :: pid in w.procs && w.procs[pid].Run? ==> home(w.procs[pid].req.id) == w.procs[pid].req.thread)
  }

  lemma OpIsHomed(p: Proc, m: Move, home: Id -> Id)
    requires (Records(p) ==> home(m.id) == ThreadOf(p)) && (p.Run? ==> home(p.req.id) == p.req.thread)
    ensures OpHomed(OpOf(p, m), home)
  {
  }

  lemma DoKeepsSeparated(cfg: Config, w: World, a: Action, home: Id -> Id, owner: Pid -> Id)
    requires WorldSeparated(w, home, owner) && Separated(w, a, home, owner)
    ensures WorldSeparated(Do(cfg, w, a), home, owner)
  {
    if a.Advance? && a.pid in w.procs {
      var p := w.procs[a.pid];
      OpIsHomed(p, a.move, home);
      ProceedKeepsThread(cfg, w.store, p, a.move);
    }
  }

  /** An action of the thread commutes with taking its view. */
  lemma DoHere(cfg: Config, w: World, a: Action, t: Id, home: Id -> Id, owner: Pid -> Id)
    requires WorldSeparated(w, home, owner) && Separated(w, a, home, owner) && owner(a.pid) == t
    ensures View(Do(cfg, w, a), t) == Do(cfg, View(w, t), a)
  {
    hide ViewStore, Perform, Proceed, OpOf, OpHomed, Homed;
    if a.Advance? && a.pid in w.procs {
      var p := w.procs[a.pid];
      OpIsHomed(p, a.move, home);
      PerformHere(cfg, w.store, p, a.move, home);
      ProceedHere(cfg, w.store, p, a.move, home);
      ProceedKeepsThread(cfg, w.store, p, a.move);
    }
  }

  /** An action of another thread leaves the view alone. */
  lemma DoElsewhere(cfg: Config, w: World, a: Action, t: Id, home: Id -> Id, owner: Pid -> Id)
    requires WorldSeparated(w, home, owner) && Separated(w, a, home, owner) && owner(a.pid) != t
    ensures View(Do(cfg, w, a), t) == View(w, t)
  {
    hide ViewStore, Perform, Proceed, OpOf, Homed;
    if a.Advance? && a.pid in w.procs {
      var p := w.procs[a.pid];
      PerformElsewhere(cfg, w.store, p, a.move, t);
      ProceedKeepsThread(cfg, w.store, p, a.move);
    }
  }

  // ---------------------------------------------------------------- main results

  /** The actions of the processes of one thread. */
  function ActsOf(acts: seq<Action>, owner: Pid -> Id, t: Id): seq<Action> {
    if acts == [] then []
    else
      var front := ActsOf(acts[..|acts| - 1], owner, t);
      if owner(Last(acts).pid) == t then front + [Last(acts)] else front
  }

  /** For any interleaving, the view of each thread is the world in which that thread ran alone. */
  lemma {:induction false} ThreadsDoNotInterfere(cfg: Config, acts: seq<Action>, t: Id, home: Id -> Id, owner: Pid -> Id)
    requires AllSeparated(cfg, acts, home, owner)
    ensures View(Exec(cfg, START, acts), t) == Exec(cfg, START, ActsOf(acts, owner, t))
    ensures WorldSeparated(Exec(cfg, START, acts), home, owner)
  {
    if acts != [] {
      var front, a := acts[..|acts| - 1], Last(acts);
      ThreadsDoNotInterfere(cfg, front, t, home, owner);
      var w := Exec(cfg, START, front);
      DoKeepsSeparated(cfg, w, a, home, owner);
      var own := ActsOf(front, owner, t);
      if owner(a.pid) == t {
        DoHere(cfg, w, a, t, home, owner);
        assert (own + [a])[..|own|] == own;
      } else {
        DoElsewhere(cfg, w, a, t, home, owner);
      }
    }
  }

  /** The same actions, one thread after the other. */
  function OneByOne(acts: seq<Action>, owner: Pid -> Id, threads: seq<Id>): seq<Action> {
    if threads == [] then []
    else OneByOne(acts, owner, threads[..|threads| - 1]) + ActsOf(acts, owner, Last(threads))
  }

  lemma {:induction false} ActsOfConcat(xs: seq<Action>, ys: seq<Action>, owner: Pid -> Id, t: Id)
    ensures ActsOf(xs + ys, owner, t) == ActsOf(xs, owner, t) + ActsOf(ys, owner, t)
  {
    if ys == [] {
      assert xs + ys == xs;
    } else {
      ActsOfConcat(xs, ys[..|ys| - 1], owner, t);
      assert (xs + ys)[..|xs + ys| - 1] == xs + ys[..|ys| - 1];
    }
  }

  lemma {:induction false} ActsOfActsOf(acts: seq<Action>, owner: Pid -> Id, t: Id, u: Id)
    ensures ActsOf(ActsOf(acts, owner, u), owner, t) == if t == u then ActsOf(acts, owner, t) else []
  {
    if acts != [] {
      var front := acts[..|acts| - 1];
      ActsOfActsOf(front, owner, t, u);
      var own := ActsOf(front, owner, u);
      assert (own + [Last(acts)])[..|own|] == own;
    }
  }

  lemma ActsOfNone(owner: Pid -> Id, t: Id)
    ensures ActsOf([], owner, t) == []
  {
  }

  predicate NoRepeats(threads: seq<Id>) {
    forall i, j :: 0 <= i < j < |threads| ==> threads[i] != threads[j]
  }

  lemma {:induction false} OneByOneActs(acts: seq<Action>, owner: Pid -> Id, threads: seq<Id>, t: Id)
    requires NoRepeats(threads)
    ensures ActsOf(OneByOne(acts, owner, threads), owner, t) == if t in threads then ActsOf(acts, owner, t) else []
  {
    hide ActsOf;
    if threads != [] {
      var front, last := threads[..|threads| - 1], Last(threads);
      OneByOneActs(acts, owner, front, t);
      ActsOfConcat(OneByOne(acts, owner, front), ActsOf(acts, owner, last), owner, t);
      ActsOfActsOf(acts, owner, t, last);
      assert threads == front + [last];
      assert last !in front;
    } else {
      ActsOfNone(owner, t);
    }
  }

  lemma SeparatedInView(w: World, a: Action, home: Id -> Id, owner: Pid -> Id)
    requires WorldSeparated(w, home, owner)
    ensures Separated(View(w, owner(a.pid)), a, home, owner) <==> Separated(w, a, home, owner)
  {
  }

  lemma LonelyAction(cfg: Config, own: seq<Action>, a: Action, home: Id -> Id, owner: Pid -> Id)
    ensures AllSeparated(cfg, own + [a], home, owner)
       <==> AllSeparated(cfg, own, home, owner) && Separated(Exec(cfg, START, own), a, home, owner)
  {
    assert (own + [a])[..|own|] == own;
  }

  /** What a thread draws, it draws when it runs alone as well. */
  lemma {:induction false} SeparatedAlone(cfg: Config, acts: seq<Action>, t: Id, home: Id -> Id, owner: Pid -> Id)
    requires AllSeparated(cfg, acts, home, owner)
    ensures AllSeparated(cfg, ActsOf(acts, owner, t), home, owner)
  {
    hide Separated, View, WorldSeparated;
    if acts != [] {
      var front, a := acts[..|acts| - 1], Last(acts);
      SeparatedAlone(cfg, front, t, home, owner);
      if owner(a.pid) == t {
        ThreadsDoNotInterfere(cfg, front, t, home, owner);
        SeparatedInView(Exec(cfg, START, front), a, home, owner);
        LonelyAction(cfg, ActsOf(front, owner, t), a, home, owner);
      }
    }
  }

  /** And what every thread draws alone is what they draw together. */
  lemma {:induction false} SeparatedTogether(cfg: Config, acts: seq<Action>, home: Id -> Id, owner: Pid -> Id)
    requires forall t :: AllSeparated(cfg, ActsOf(acts, owner, t), home, owner)
    ensures AllSeparated(cfg, acts, home, owner)
  {
    hide Separated, View, WorldSeparated;
    if acts != [] {
      var front, a := acts[..|acts| - 1], Last(acts);
      var t := owner(a.pid);
      forall u ensures AllSeparated(cfg, ActsOf(front, owner, u), home, owner) {
        assert AllSeparated(cfg, ActsOf(acts, owner, u), home, owner);
        LonelyAction(cfg, ActsOf(front, owner, u), a, home, owner);
      }
      SeparatedTogether(cfg, front, home, owner);
      ThreadsDoNotInterfere(cfg, front, t, home, owner);
      SeparatedInView(Exec(cfg, START, front), a, home, owner);
      assert AllSeparated(cfg, ActsOf(acts, owner, t), home, owner);
      LonelyAction(cfg, ActsOf(front, owner, t), a, home, owner);
    }
  }

  lemma OneByOneSeparated(cfg: Config, acts: seq<Action>, threads: seq<Id>, home: Id -> Id, owner: Pid -> Id)
    requires AllSeparated(cfg, acts, home, owner) && NoRepeats(threads)
    ensures AllSeparated(cfg, OneByOne(acts, owner, threads), home, owner)
  {
    forall t ensures AllSeparated(cfg, ActsOf(OneByOne(acts, owner, threads), owner, t), home, owner) {
      OneByOneActs(acts, owner, threads, t);
      SeparatedAlone(cfg, acts, t, home, owner);
    }
    SeparatedTogether(cfg, OneByOne(acts, owner, threads), home, owner);
  }

  /** Any schedule is equivalent to the serial one that runs one thread after the other. */
  lemma SerialEquivalent(cfg: Config, acts: seq<Action>, threads: seq<Id>, t: Id, home: Id -> Id, owner: Pid -> Id)
    requires AllSeparated(cfg, acts, home, owner)
    requires NoRepeats(threads) && t in threads
    ensures View(Exec(cfg, START, acts), t) == View(Exec(cfg, START, OneByOne(acts, owner, threads)), t)
  {
    OneByOneActs(acts, owner, threads, t);
    OneByOneSeparated(cfg, acts, threads, home, owner);
    ThreadsDoNotInterfere(cfg, acts, t, home, owner);
    ThreadsDoNotInterfere(cfg, OneByOne(acts, owner, threads), t, home, owner);
  }
}
