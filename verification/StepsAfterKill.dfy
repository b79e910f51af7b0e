/** What a kill flag that cannot be lost does to the runs on its thread. */
module StepsAfterKill {
  import opened Base
  import opened Store
  import opened Machine
  import opened KillFlag

  /** The run has read the flag as false and has not called the step function yet. */
  predicate Armed(p: Proc, t: Id) {
    p.Run? && p.req.thread == t && (p.pc.PubStepStart? || p.pc.CallStep?)
  }

  function ArmedRuns(w: World, t: Id): set<Pid> {
    set pid | pid in w.procs && Armed(w.procs[pid], t)
  }

  /** How many calls of the step function have started on the thread. */
  function CallsOn(calls: seq<Call>, t: Id): nat {
    if calls == [] then 0
    else CallsOn(calls[..|calls| - 1], t) + if Last(calls).thread == t then 1 else 0
  }

  lemma ArmsDisarm(cfg: Config, s: Store, p: Proc, m: Move, t: Id)
    requires FlagOf(s, t)
    ensures Armed(Proceed(cfg, s, p, m), t) ==> Armed(p, t)
    ensures OpOf(p, m).StartStep? && OpOf(p, m).call.thread == t ==> Armed(p, t) && !Armed(Proceed(cfg, s, p, m), t)
  {
  }

  lemma CallsAppend(calls: seq<Call>, c: Call, t: Id)
    ensures CallsOn(calls + [c], t) == CallsOn(calls, t) + if c.thread == t then 1 else 0
  {
    assert (calls + [c])[..|calls|] == calls;
  }

  lemma OpCalls(cfg: Config, s: Store, op: Op, m: Move, t: Id)
    ensures CallsOn(Perform(cfg, s, op, m).calls, t) == CallsOn(s.calls, t) + if op.StartStep? && op.call.thread == t then 1 else 0
  {
    if op.StartStep? {
      CallsAppend(s.calls, op.call, t);
    }
  }

  lemma FireSpendsArm(cfg: Config, s: Store, p: Proc, m: Move, t: Id)
    requires FlagOf(s, t)
    ensures
      var s', p' := Perform(cfg, s, OpOf(p, m), m), Proceed(cfg, s, p, m);
      && (Armed(p', t) ==> Armed(p, t))
      && CallsOn(s'.calls, t) <= CallsOn(s.calls, t) + 1
      && (CallsOn(s'.calls, t) != CallsOn(s.calls, t) ==> Armed(p, t) && !Armed(p', t))
  {
    hide OpOf, Proceed, Perform, Armed;
    ArmsDisarm(cfg, s, p, m, t);
    OpCalls(cfg, s, OpOf(p, m), m, t);
  }

  lemma SubsetSize(a: set<Pid>, b: set<Pid>)
    requires a <= b
    ensures |a| <= |b|
  {
    if a != {} {
      var x :| x in a;
      SubsetSize(a - {x}, b - {x});
    }
  }

  lemma DoSpendsArms(cfg: Config, w: World, a: Action, t: Id)
    requires FlagOf(w.store, t)
    ensures
      var w' := Do(cfg, w, a);
      && ArmedRuns(w', t) <= ArmedRuns(w, t)
      && CallsOn(w'.store.calls, t) + |ArmedRuns(w', t)| <= CallsOn(w.store.calls, t) + |ArmedRuns(w, t)|
  {
    var w' := Do(cfg, w, a);
    if a.Advance? && a.pid in w.procs {
      FireSpendsArm(cfg, w.store, w.procs[a.pid], a.move, t);
      assert ArmedRuns(w', t) <= ArmedRuns(w, t);
      if CallsOn(w'.store.calls, t) != CallsOn(w.store.calls, t) {
        assert a.pid in ArmedRuns(w, t);
        SubsetSize(ArmedRuns(w', t), ArmedRuns(w, t) - {a.pid});
      }
    } else {
      assert ArmedRuns(w', t) <= ArmedRuns(w, t);
    }
    SubsetSize(ArmedRuns(w', t), ArmedRuns(w, t));
  }

  /** From the moment the flag is set for good, the calls of the step function that
      start on the thread are at most as many as the runs that were then between a
      false flag check and their call; any other run, in particular any that starts
      later, never reaches a call. */
  lemma {:induction false} StepsAfterKillBounded(cfg: Config, w: World, acts: seq<Action>, t: Id)
    requires Locked(w, t)
    ensures
      var w' := Exec(cfg, w, acts);
      && CallsOn(w'.store.calls, t) <= CallsOn(w.store.calls, t) + |ArmedRuns(w, t)| - |ArmedRuns(w', t)|
      && (forall pid | pid in w'.procs && !(pid in w.procs && Armed(w.procs[pid], t)) :: !Armed(w'.procs[pid], t))
  {
    if acts != [] {
      var front := acts[..|acts| - 1];
      StepsAfterKillBounded(cfg, w, front, t);
      LockedForever(cfg, w, front, t);
      var v, v' := Exec(cfg, w, front), Exec(cfg, w, acts);
      DoSpendsArms(cfg, v, Last(acts), t);
      forall pid | pid in v'.procs && !(pid in w.procs && Armed(w.procs[pid], t)) ensures !Armed(v'.procs[pid], t) {
        assert pid !in ArmedRuns(v, t);
        assert pid !in ArmedRuns(v', t);
      }
    }
  }

  /** An armed run reaches its call, whatever the flag says by then. */
  lemma ArmedRunSteps(cfg: Config, w: World, pid: Pid, t: Id) returns (acts: seq<Action>)
    requires pid in ArmedRuns(w, t)
    ensures
      var w' := Exec(cfg, w, acts);
      && CallsOn(w'.store.calls, t) == CallsOn(w.store.calls, t) + 1
      && ArmedRuns(w', t) == ArmedRuns(w, t) - {pid}
  {
    var a := Advance(pid, OK);
    var w1 := Do(cfg, w, a);
    if w.procs[pid].pc.CallStep? {
      acts := [a];
      assert acts[..0] == [];
      assert Exec(cfg, w, acts) == w1;
      StartStepCounts(cfg, w, pid, t);
    } else {
      acts := [a, a];
      assert acts[..1] == [a] && [a][..0] == [];
      assert Exec(cfg, w, [a]) == w1;
      assert Exec(cfg, w, acts) == Do(cfg, w1, a);
      assert ArmedRuns(w1, t) == ArmedRuns(w, t);
      StartStepCounts(cfg, w1, pid, t);
    }
  }

  lemma StartStepCounts(cfg: Config, w: World, pid: Pid, t: Id)
    requires pid in ArmedRuns(w, t) && w.procs[pid].pc.CallStep?
    ensures
      var w' := Do(cfg, w, Advance(pid, OK));
      && CallsOn(w'.store.calls, t) == CallsOn(w.store.calls, t) + 1
      && ArmedRuns(w', t) == ArmedRuns(w, t) - {pid}
  {
    CallsAppend(w.store.calls, OpOf(w.procs[pid], OK).call, t);
  }

  /** The bound is reached: from any world some schedule lets every armed run make its call. */
  lemma {:induction false} BoundIsReached(cfg: Config, w: World, t: Id) returns (acts: seq<Action>)
    ensures CallsOn(Exec(cfg, w, acts).store.calls, t) == CallsOn(w.store.calls, t) + |ArmedRuns(w, t)|
    decreases |ArmedRuns(w, t)|
  {
    if ArmedRuns(w, t) == {} {
      acts := [];
    } else {
      var pid :| pid in ArmedRuns(w, t);
      var first := ArmedRunSteps(cfg, w, pid, t);
      var rest := BoundIsReached(cfg, Exec(cfg, w, first), t);
      ExecAppend(cfg, w, first, rest);
      acts := first + rest;
    }
  }
}
