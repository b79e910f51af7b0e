/** The event loop: coroutines that hand over control at every await. Between two awaits of a
    coroutine any other coroutine may run, any call may fail, and the tables change accordingly. */
module EventLoops {
  import opened Base
  import opened Store
  import opened Machine
  import opened Databases

  /** Actions of coroutines other than `pid`. */
  function Without(acts: seq<Action>, pid: Pid): (rest: seq<Action>)
    ensures forall a :: a in rest ==> a.pid != pid
    ensures (forall a :: a in acts ==> a.pid != pid) ==> rest == acts
  {
    if acts == [] then []
    else
      var front := Without(acts[..|acts| - 1], pid);
      if Last(acts).pid == pid then front else front + [Last(acts)]
  }

  lemma {:induction false} OthersLeaveIt(cfg: Config, w: World, acts: seq<Action>, pid: Pid)
    requires pid in w.procs && forall a :: a in acts ==> a.pid != pid
    ensures pid in Exec(cfg, w, acts).procs && Exec(cfg, w, acts).procs[pid] == w.procs[pid]
  {
    if acts != [] {
      OthersLeaveIt(cfg, w, acts[..|acts| - 1], pid);
      assert Last(acts) in acts;
    }
  }

  lemma PublishPerforms(cfg: Config, s: Store, e: Event, m: Move)
    ensures Settle(cfg, s, Publish(e), m) == m.fate
    ensures Perform(cfg, s, Publish(e), m) == s.(events := s.events + if m.fate == Done || m.landed then [e] else [])
  {
  }

  lemma StartPerforms(cfg: Config, s: Store, c: Call, m: Move)
    ensures Settle(cfg, s, StartStep(c), m) == Done
    ensures Perform(cfg, s, StartStep(c), m) == s.(calls := s.calls + [c])
  {
  }

  /** A statement neither reads nor writes the bus and the record of calls. */
  lemma StatementPerforms(cfg: Config, s: Store, op: Op, m: Move)
    requires !op.Publish? && !op.StartStep?
    ensures
      var tables := s.(events := [], calls := []);
      && Settle(cfg, s, op, m) == Settle(cfg, tables, op, m)
      && Perform(cfg, s, op, m) == Perform(cfg, tables, op, m).(events := s.events, calls := s.calls)
      && Perform(cfg, tables, op, m).events == [] && Perform(cfg, tables, op, m).calls == []
  {
  }

  class EventLoop {
    const cfg: Config
    const db: Database
    const bus: NullEventBus
    var procs: map<Pid, Proc>
    var calls: seq<Call>
    ghost var trace: seq<Action>

    constructor (cfg: Config)
      ensures Valid() && fresh(db) && fresh(bus) && trace == [] && this.cfg == cfg
    {
      this.cfg := cfg;
      db := new Database();
      bus := new NullEventBus();
      procs, calls, trace := map[], [], [];
    }

    /** The five stores as they are now. */
    function Now(): Store
      reads this, db, bus
    {
      Store(db.audit, db.threads, db.checkpoints, db.metrics, bus.events, calls)
    }

    /** The heap is the state the step machine reaches by the trace. */
    ghost predicate Valid()
      reads this, db, bus
    {
      World(Now(), procs) == Exec(cfg, START, trace)
    }

    /** A new coroutine begins. */
    method Spawn(a: Action)
      requires Valid() && !a.Advance? && a.pid !in procs
      modifies this
      ensures Valid() && trace == old(trace) + [a]
      ensures procs == old(procs)[a.pid := if a.Invoke? then Run(a.req, Audit) else Killer(a.thread, KillLook)]
    {
      ExecOne(cfg, START, trace, a);
      match a {
        case Invoke(pid, req) => procs := procs[pid := Run(req, Audit)];
        case Kill(pid, t) => procs := procs[pid := Killer(t, KillLook)];
      }
      trace := trace + [a];
    }

    /** The coroutine reaches an await: others run, and the environment settles how the call will go. */
    method Suspend(pid: Pid) returns (m: Move)
      requires Valid() && pid in procs
      modifies this, db, bus
      ensures Valid() && pid in procs && procs[pid] == old(procs)[pid]
      ensures old(trace) <= trace
    {
      m := *;
      var acts: seq<Action> := *;
      acts := Without(acts, pid);
      var w := Exec(cfg, World(Now(), procs), acts);
      OthersLeaveIt(cfg, World(Now(), procs), acts, pid);
      ExecAppend(cfg, START, trace, acts);
      db.audit, db.threads, db.checkpoints, db.metrics :=
        w.store.audit, w.store.threads, w.store.checkpoints, w.store.metrics;
      bus.events := w.store.events;
      calls := w.store.calls;
      procs := w.procs;
      trace := trace + acts;
    }

    /** The awaited call is made and control comes back to the coroutine. */
    method Await(pid: Pid, op: Op, m: Move) returns (fate: Fate)
      requires Valid() && pid in procs && op == OpOf(procs[pid], m)
      modifies this, db, bus
      ensures Valid() && trace == old(trace) + [Advance(pid, m)]
      ensures fate == Settle(cfg, old(Now()), op, m)
      ensures Now() == Perform(cfg, old(Now()), op, m)
      ensures procs == old(procs)[pid := Proceed(cfg, old(Now()), old(procs)[pid], m)]
    {
      hide Perform, Settle, Proceed, OpOf, Exec;
      ghost var s := Now();
      ExecOne(cfg, START, trace, Advance(pid, m));
      var next := Proceed(cfg, Now(), procs[pid], m);
      match op {
        case Publish(e) =>
          PublishPerforms(cfg, s, e, m);
          fate := bus.Publish(e, m);
        case StartStep(c) =>
          StartPerforms(cfg, s, c, m);
          calls := calls + [c];
          fate := Done;
        case _ =>
          StatementPerforms(cfg, s, op, m);
          fate := db.Execute(cfg, op, m);
      }
      procs := procs[pid := next];
      trace := trace + [Advance(pid, m)];
    }
  }
}
