/** Resuming equals continuing: cutting a run in two changes neither the final state nor
    the checkpointed states. */
module Transparency {
  import opened Base
  import opened Store
  import opened Machine
  import opened EventTrace
  import opened Accounting
  import opened History
  import opened Segment
  import opened Serial

  // ---------------------------------------------------------------- one run's share of a schedule

  /** No run on `t` other than `pid` moves. Other threads, kill requests and new
      invocations are free to. */
  ghost predicate Quiet(cfg: Config, w: World, acts: seq<Action>, t: Id, pid: Pid) {
    acts != [] ==>
      var front, a := acts[..|acts| - 1], Last(acts);
      Quiet(cfg, w, front, t, pid)
      && (a.Advance? && a.pid != pid ==> !RunOn(Exec(cfg, w, front), a.pid, t))
  }

  lemma {:induction false} QuietProgress(cfg: Config, w: World, acts: seq<Action>, t: Id, pid: Pid)
    requires RunOn(w, pid, t) && w.procs[pid].pc.Audit? && Quiet(cfg, w, acts, t, pid)
    ensures
      var w' := Exec(cfg, w, acts);
      && RunOn(w', pid, t) && w'.procs[pid].req == w.procs[pid].req
      && Progress(cfg, RowsOf(w.store.checkpoints, t), RowsOf(w'.store.checkpoints, t), w.procs[pid].req, w'.procs[pid].pc)
  {
    if acts != [] {
      var front, a := acts[..|acts| - 1], Last(acts);
      QuietProgress(cfg, w, front, t, pid);
      var v := Exec(cfg, w, front);
      if a.Advance? && a.pid in v.procs {
        var p := v.procs[a.pid];
        if a.pid == pid {
          StepKeepsProgress(cfg, v.store, RowsOf(w.store.checkpoints, t), p.req, p.pc, a.move);
        } else {
          OthersKeepRows(cfg, v.store, p, a.move, t);
        }
      }
    }
  }

  // ---------------------------------------------------------------- orbits

  function LastOr(seed: State, states: seq<State>): State {
    if states == [] then seed else Last(states)
  }

  /** Each state comes from the one before it by one step. */
  ghost predicate Orbit(cfg: Config, seed: State, states: seq<State>) {
    states != [] ==>
      var front := Front(states);
      Orbit(cfg, seed, front) && Produces(cfg, LastOr(seed, front), Last(states))
  }

  /** The states of some rows. */
  function StatesOf(rows: seq<Checkpoint>): seq<State> {
    if rows == [] then [] else StatesOf(rows[..|rows| - 1]) + [Last(rows).state]
  }

  /** What the step returns depends on its argument alone. */
  ghost predicate Deterministic(cfg: Config) {
    forall s, o, o' :: cfg.step(s, o) == cfg.step(s, o')
  }

  /** The step leaves `input` and `thread_id` alone. */
  ghost predicate LeavesInput(cfg: Config) {
    forall s, o | cfg.step(s, o).Some? && "input" in s && "thread_id" in s ::
      var r := cfg.step(s, o).value;
      "input" in r && "thread_id" in r && r["input"] == s["input"] && r["thread_id"] == s["thread_id"]
  }

  /** The states the step returns survive the JSON round trip. */
  ghost predicate SurvivesJson(cfg: Config) {
    forall s, o :: cfg.step(s, o).Some? ==> cfg.reload(cfg.step(s, o).value) == cfg.step(s, o).value
  }

  lemma {:induction false} StatesLength(rows: seq<Checkpoint>)
    ensures |StatesOf(rows)| == |rows|
    ensures forall i :: 0 <= i < |rows| ==> StatesOf(rows)[i] == rows[i].state
  {
    if rows != [] {
      StatesLength(rows[..|rows| - 1]);
    }
  }

  lemma {:induction false} StatesConcat(xs: seq<Checkpoint>, ys: seq<Checkpoint>)
    ensures StatesOf(xs + ys) == StatesOf(xs) + StatesOf(ys)
  {
    if ys == [] {
      assert xs + ys == xs;
    } else {
      StatesConcat(xs, ys[..|ys| - 1]);
      assert (xs + ys)[..|xs + ys| - 1] == xs + ys[..|ys| - 1];
    }
  }

  lemma {:induction false} ChainIsOrbit(cfg: Config, seed: State, parent: Option<Id>, added: seq<Checkpoint>)
    requires Chained(cfg, seed, parent, added)
    ensures Orbit(cfg, seed, StatesOf(added))
  {
    if added != [] {
      ChainIsOrbit(cfg, seed, parent, Front(added));
      StatesLength(added);
      StatesLength(Front(added));
      assert Front(StatesOf(added)) == StatesOf(Front(added));
    }
  }

  /** Two orbits of a deterministic step from one seed agree as far as both go. */
  lemma {:induction false} OrbitsAgree(cfg: Config, seed: State, xs: seq<State>, ys: seq<State>)
    requires Deterministic(cfg) && Orbit(cfg, seed, xs) && Orbit(cfg, seed, ys) && |xs| <= |ys|
    ensures xs == ys[..|xs|]
    decreases |ys|
  {
    if |xs| < |ys| {
      OrbitsAgree(cfg, seed, xs, Front(ys));
    } else if xs != [] {
      OrbitsAgree(cfg, seed, Front(xs), Front(ys));
      assert Front(xs) == Front(ys);
      var arg := if Front(xs) == [] then seed else Last(Front(xs));
      var o :| cfg.step(arg, o) == Some(Last(xs));
      var o' :| cfg.step(arg, o') == Some(Last(ys));
      assert cfg.step(arg, o) == cfg.step(arg, o');
      assert xs == Front(xs) + [Last(xs)] && ys == Front(ys) + [Last(ys)];
    }
  }

  lemma OrbitAppend(cfg: Config, seed: State, states: seq<State>, st: State)
    requires Orbit(cfg, seed, states) && Produces(cfg, LastOr(seed, states), st)
    ensures Orbit(cfg, seed, states + [st])
  {
    hide Produces;
    assert Front(states + [st]) == states;
  }

  lemma {:induction false} OrbitsJoin(cfg: Config, seed: State, xs: seq<State>, ys: seq<State>)
    requires Orbit(cfg, seed, xs) && Orbit(cfg, LastOr(seed, xs), ys)
    ensures Orbit(cfg, seed, xs + ys)
  {
    hide Produces;
    if ys == [] {
      assert xs + ys == xs;
    } else {
      var front := Front(ys);
      OrbitsJoin(cfg, seed, xs, front);
      LastOfJoin(seed, xs, front);
      OrbitAppend(cfg, seed, xs + front, Last(ys));
      assert xs + ys == xs + front + [Last(ys)];
    }
  }

  lemma LastOfJoin(seed: State, xs: seq<State>, ys: seq<State>)
    ensures LastOr(seed, xs + ys) == LastOr(LastOr(seed, xs), ys)
  {
    if ys == [] {
      assert xs + ys == xs;
    }
  }

  /** All states of an orbit keep the input the seed was overridden with. */
  lemma {:induction false} OrbitKeepsInput(cfg: Config, seed: State, input: string, t: Id, states: seq<State>)
    requires LeavesInput(cfg) && SurvivesJson(cfg) && states != []
    requires "input" in seed && "thread_id" in seed && seed["input"] == Str(input) && seed["thread_id"] == Str(t)
    requires Orbit(cfg, seed, states)
    ensures
      var st := Last(states);
      && "input" in st && "thread_id" in st && st["input"] == Str(input) && st["thread_id"] == Str(t)
      && cfg.reload(st) == st
  {
    var front := Front(states);
    if front != [] {
      OrbitKeepsInput(cfg, seed, input, t, front);
    }
    var arg := if front == [] then seed else Last(front);
    var o :| cfg.step(arg, o) == Some(Last(states));
    assert cfg.step(arg, o).Some?;
  }

  /** A run that resumes with the same input from what an earlier run left starts from
      exactly the state in which the earlier run stopped. */
  lemma ResumeSeed(cfg: Config, req: Request, next: Request, found: seq<Checkpoint>, added: seq<Checkpoint>)
    requires LeavesInput(cfg) && SurvivesJson(cfg)
    requires req.input == next.input && req.thread == next.thread
    requires Chained(cfg, SeedOf(cfg, req, found), Tip(found), added)
    ensures SeedOf(cfg, next, found + added) == StateAfter(SeedOf(cfg, req, found), added)
  {
    var seed := SeedOf(cfg, req, found);
    if added == [] {
      assert found + added == found;
    } else {
      ChainIsOrbit(cfg, seed, Tip(found), added);
      StatesLength(added);
      OrbitKeepsInput(cfg, seed, req.input, req.thread, StatesOf(added));
      assert Last(found + added) == Last(added);
      var st := Last(added).state;
      assert Override(cfg.reload(st), next.input, next.thread) == st;
    }
  }

  // ---------------------------------------------------------------- where a run stops

  /** The run returned, and neither a kill flag nor a fault stopped it. */
  predicate RanOut(e: Ending) {
    e.Returned? && (e.exit.outcome == OutOk || e.exit.outcome == OutMaxSteps)
  }

  predicate AllIncomplete(states: seq<State>) {
    forall i :: 0 <= i < |states| ==> !IsComplete(states[i])
  }

  /** The states a run reaches before it is complete or out of steps. */
  predicate StopsRight(states: seq<State>, bound: nat, outcome: Outcome) {
    && |states| <= bound
    && AllIncomplete(Front(states))
    && (if outcome == OutOk then states != [] && IsComplete(Last(states)) else |states| == bound && AllIncomplete(states))
  }

  lemma StatesIncomplete(added: seq<Checkpoint>)
    ensures Incomplete(added) ==> AllIncomplete(StatesOf(added))
    ensures Incomplete(Front(added)) ==> AllIncomplete(Front(StatesOf(added)))
  {
    StatesLength(added);
    assert forall i :: 0 <= i < |Front(added)| ==> Front(added)[i] == added[i];
    assert forall i :: 0 <= i < |Front(added)| ==> Front(StatesOf(added))[i] == StatesOf(added)[i];
  }

  lemma StopsFromLoop(seed: State, added: seq<Checkpoint>, req: Request, e: Ending)
    requires RanOut(e) && LoopEnded(seed, added, req, e.exit)
    requires |added| <= Bound(req) && Incomplete(Front(added))
    ensures StopsRight(StatesOf(added), Bound(req), e.exit.outcome)
    ensures e.exit.state == LastOr(seed, StatesOf(added))
  {
    hide Incomplete, AllIncomplete, IsComplete;
    StatesLength(added);
    StatesIncomplete(added);
    assert added != [] ==> Last(StatesOf(added)) == Last(added).state;
  }

  lemma OneStopNotShorter(xs: seq<State>, ys: seq<State>, bound: nat, out: Outcome, out': Outcome)
    requires |xs| <= |ys| && xs == ys[..|xs|]
    requires StopsRight(xs, bound, out) && StopsRight(ys, bound, out')
    ensures |xs| == |ys|
  {
    if xs != [] {
      assert xs[|xs| - 1] == ys[|xs| - 1];
      assert forall i :: 0 <= i < |ys| - 1 ==> Front(ys)[i] == ys[i];
    }
  }

  /** An orbit stops in only one place. */
  lemma StopsOnce(cfg: Config, seed: State, xs: seq<State>, ys: seq<State>, bound: nat, out: Outcome, out': Outcome)
    requires Deterministic(cfg) && Orbit(cfg, seed, xs) && Orbit(cfg, seed, ys)
    requires StopsRight(xs, bound, out) && StopsRight(ys, bound, out')
    ensures xs == ys && (out == OutOk <==> out' == OutOk)
  {
    if |xs| <= |ys| {
      OrbitsAgree(cfg, seed, xs, ys);
      OneStopNotShorter(xs, ys, bound, out, out');
    } else {
      OrbitsAgree(cfg, seed, ys, xs);
      OneStopNotShorter(ys, xs, bound, out', out);
    }
    assert xs == ys;
    assert xs != [] ==> Last(xs) == xs[|xs| - 1];
  }

  lemma StopsJoin(xs: seq<State>, ys: seq<State>, b: nat, outcome: Outcome)
    requires AllIncomplete(xs) && StopsRight(ys, b, outcome)
    ensures StopsRight(xs + ys, |xs| + b, outcome)
  {
    if ys == [] {
      assert xs + ys == xs;
    } else {
      assert Front(xs + ys) == xs + Front(ys);
      assert Last(xs + ys) == Last(ys);
    }
  }

  // ---------------------------------------------------------------- main result

  function RowsIn(w: World, t: Id): seq<Checkpoint> {
    RowsOf(w.store.checkpoints, t)
  }

  /** The rows of the thread that are in `w'` and were not in `w`. */
  function AddedRows(w: World, w': World, t: Id): seq<Checkpoint> {
    if |RowsIn(w, t)| <= |RowsIn(w', t)| then RowsIn(w', t)[|RowsIn(w, t)|..] else []
  }

  /** The request has been made but its run has not begun in `w`, and the schedule moves no
      other run on the thread. */
  ghost predicate RunsQuietly(cfg: Config, w: World, acts: seq<Action>, pid: Pid, req: Request) {
    pid in w.procs && w.procs[pid] == Run(req, Audit) && Quiet(cfg, w, acts, req.thread, pid)
  }

  predicate EndsWith(w: World, pid: Pid, e: Ending) {
    pid in w.procs && w.procs[pid].Run? && w.procs[pid].pc == Finished(e)
  }

  /** Take a deterministic step function that leaves `input` and `thread_id` alone and whose
      states survive JSON. A run with bound k + b that runs out (it is not stopped from
      outside), and on the other hand a run stopped anywhere after k checkpoints, none
      complete (by its bound, a fault, a kill, a cancellation or a crash), followed by a run
      with the same input and bound b that runs out, end with the same outcome and state and
      leave the same checkpointed states. */
  lemma ResumeEqualsContinue(cfg: Config, k: nat, b: nat,
                             w: World, acts: seq<Action>, pid: Pid, req: Request, e: Ending,
                             v: World, acts1: seq<Action>, pid1: Pid, req1: Request,
                             acts2: seq<Action>, pid2: Pid, req2: Request, e2: Ending)
    requires Deterministic(cfg) && LeavesInput(cfg) && SurvivesJson(cfg)
    requires req.input == req1.input == req2.input && req.thread == req1.thread == req2.thread
    requires req.bound == k + b && req2.bound == b
    requires StatesOf(RowsIn(w, req.thread)) == StatesOf(RowsIn(v, req.thread))
    requires RunsQuietly(cfg, w, acts, pid, req)
    requires RunsQuietly(cfg, v, acts1, pid1, req1)
    requires RunsQuietly(cfg, Exec(cfg, v, acts1), acts2, pid2, req2)
    requires EndsWith(Exec(cfg, w, acts), pid, e) && RanOut(e)
    requires EndsWith(Exec(cfg, Exec(cfg, v, acts1), acts2), pid2, e2) && RanOut(e2)
    requires |AddedRows(v, Exec(cfg, v, acts1), req.thread)| == k
    requires Incomplete(AddedRows(v, Exec(cfg, v, acts1), req.thread))
    ensures e == e2
    ensures StatesOf(RowsIn(Exec(cfg, w, acts), req.thread))
         == StatesOf(RowsIn(Exec(cfg, Exec(cfg, v, acts1), acts2), req.thread))
  {
    var t := req.thread;
    var mid := Exec(cfg, v, acts1);
    var one, two := Exec(cfg, w, acts), Exec(cfg, mid, acts2);
    var found, found1 := RowsIn(w, t), RowsIn(v, t);
    RunAdds(cfg, w, acts, pid, req);
    RunAdds(cfg, v, acts1, pid1, req1);
    RunAdds(cfg, mid, acts2, pid2, req2);
    var a, a1, a2 := AddedRows(w, one, t), AddedRows(v, mid, t), AddedRows(mid, two, t);
    RanOutEnds(cfg, w, acts, pid, req, e);
    RanOutEnds(cfg, mid, acts2, pid2, req2, e2);
    SegmentsMeet(cfg, found, found1, a, a1, a2, k, b, req, req1, req2, e, e2);
    StatesMeet(found, found1, a, a1, a2);
  }

  lemma StatesMeet(found: seq<Checkpoint>, found1: seq<Checkpoint>, a: seq<Checkpoint>, a1: seq<Checkpoint>, a2: seq<Checkpoint>)
    requires StatesOf(found) == StatesOf(found1) && StatesOf(a) == StatesOf(a1) + StatesOf(a2)
    ensures StatesOf(found + a) == StatesOf(found1 + a1 + a2)
  {
    StatesConcat(found, a);
    StatesConcat(found1, a1);
    StatesConcat(found1 + a1, a2);
    Regroup(StatesOf(found), StatesOf(a1), StatesOf(a2));
  }

  lemma Regroup(xs: seq<State>, ys: seq<State>, zs: seq<State>)
    ensures xs + ys + zs == xs + (ys + zs)
  {
  }

  lemma RunAdds(cfg: Config, w: World, acts: seq<Action>, pid: Pid, req: Request)
    requires RunsQuietly(cfg, w, acts, pid, req)
    ensures
      var w' := Exec(cfg, w, acts);
      && RowsIn(w', req.thread) == RowsIn(w, req.thread) + AddedRows(w, w', req.thread)
      && Adds(cfg, req, RowsIn(w, req.thread), AddedRows(w, w', req.thread))
  {
    hide ProgressAt, Adds, Quiet, RowsOf;
    QuietProgress(cfg, w, acts, req.thread, pid);
  }

  lemma RanOutEnds(cfg: Config, w: World, acts: seq<Action>, pid: Pid, req: Request, e: Ending)
    requires RunsQuietly(cfg, w, acts, pid, req) && EndsWith(Exec(cfg, w, acts), pid, e) && e.Returned?
    ensures
      var found := RowsIn(w, req.thread);
      LoopEnded(SeedOf(cfg, req, found), AddedRows(w, Exec(cfg, w, acts), req.thread), req, e.exit)
  {
    var found := RowsIn(w, req.thread);
    QuietProgress(cfg, w, acts, req.thread, pid);
    ReturnedProgress(cfg, SeedOf(cfg, req, found), Tip(found), AddedRows(w, Exec(cfg, w, acts), req.thread), req, e);
  }

  lemma SegmentsMeet(cfg: Config, found: seq<Checkpoint>, found1: seq<Checkpoint>, a: seq<Checkpoint>, a1: seq<Checkpoint>, a2: seq<Checkpoint>,
                     k: nat, b: nat, req: Request, req1: Request, req2: Request, e: Ending, e2: Ending)
    requires Deterministic(cfg) && LeavesInput(cfg) && SurvivesJson(cfg)
    requires req.input == req1.input == req2.input && req.thread == req1.thread == req2.thread
    requires req.bound == k + b && req2.bound == b && RanOut(e) && RanOut(e2)
    requires Adds(cfg, req, found, a) && LoopEnded(SeedOf(cfg, req, found), a, req, e.exit)
    requires StatesOf(found) == StatesOf(found1)
    requires Adds(cfg, req1, found1, a1) && |a1| == k && Incomplete(a1)
    requires Adds(cfg, req2, found1 + a1, a2) && LoopEnded(SeedOf(cfg, req2, found1 + a1), a2, req2, e2.exit)
    ensures e == e2 && StatesOf(a) == StatesOf(a1) + StatesOf(a2)
  {
    hide Adds, LoopEnded, Deterministic, LeavesInput, SurvivesJson, Orbit, Chained, Incomplete, SeedOf, StatesOf, StopsRight;
    var seed, seed2 := SeedOf(cfg, req, found), SeedOf(cfg, req2, found1 + a1);
    SameSeed(cfg, req, req1, found, found1);
    AddsChain(cfg, req1, found1, a1);
    ResumeSeed(cfg, req1, req2, found1, a1);
    RunIsOrbit(cfg, req, found, a, e);
    RunIsOrbit(cfg, req2, found1 + a1, a2, e2);
    ChainIsOrbit(cfg, seed, Tip(found1), a1);
    OrbitsMeet(cfg, seed, StatesOf(a), a1, StatesOf(a2), k, b, e.exit.outcome, e2.exit.outcome);
    FinalStates(seed, StatesOf(a), a1, a2);
  }

  lemma AddsChain(cfg: Config, req: Request, found: seq<Checkpoint>, added: seq<Checkpoint>)
    requires Adds(cfg, req, found, added)
    ensures Chained(cfg, SeedOf(cfg, req, found), Tip(found), added)
  {
  }

  /** A run that ran out leaves an orbit that stops where it should, and returns its last state. */
  lemma RunIsOrbit(cfg: Config, req: Request, found: seq<Checkpoint>, added: seq<Checkpoint>, e: Ending)
    requires RanOut(e) && Adds(cfg, req, found, added) && LoopEnded(SeedOf(cfg, req, found), added, req, e.exit)
    ensures Orbit(cfg, SeedOf(cfg, req, found), StatesOf(added)) && StopsRight(StatesOf(added), Bound(req), e.exit.outcome)
    ensures e.exit.state == LastOr(SeedOf(cfg, req, found), StatesOf(added)) && e.exit.raised == None
  {
    hide Chained, SeedOf, StatesOf, StopsRight, Incomplete;
    var seed := SeedOf(cfg, req, found);
    ChainIsOrbit(cfg, seed, Tip(found), added);
    StopsFromLoop(seed, added, req, e);
  }

  lemma SameSeed(cfg: Config, req: Request, req1: Request, found: seq<Checkpoint>, found1: seq<Checkpoint>)
    requires req.input == req1.input && req.thread == req1.thread && StatesOf(found) == StatesOf(found1)
    ensures SeedOf(cfg, req, found) == SeedOf(cfg, req1, found1)
  {
    StatesLength(found);
    StatesLength(found1);
    if found != [] {
      assert Last(found).state == StatesOf(found)[|found| - 1] == StatesOf(found1)[|found1| - 1] == Last(found1).state;
    }
  }

  lemma FinalStates(seed: State, xs: seq<State>, a1: seq<Checkpoint>, a2: seq<Checkpoint>)
    requires xs == StatesOf(a1) + StatesOf(a2)
    ensures LastOr(seed, xs) == LastOr(StateAfter(seed, a1), StatesOf(a2))
  {
    StatesLength(a1);
    StatesLength(a2);
    if a2 == [] {
      assert xs == StatesOf(a1);
    } else {
      assert Last(xs) == Last(StatesOf(a2));
    }
  }

  lemma OrbitsMeet(cfg: Config, seed: State, xs: seq<State>, a1: seq<Checkpoint>, ys: seq<State>,
                   k: nat, b: nat, out: Outcome, out': Outcome)
    requires Deterministic(cfg) && |a1| == k && Incomplete(a1)
    requires Orbit(cfg, seed, xs) && StopsRight(xs, k + b, out)
    requires Orbit(cfg, seed, StatesOf(a1)) && Orbit(cfg, StateAfter(seed, a1), ys) && StopsRight(ys, b, out')
    ensures xs == StatesOf(a1) + ys && (out == OutOk <==> out' == OutOk)
  {
    StatesLength(a1);
    OrbitsJoin(cfg, seed, StatesOf(a1), ys);
    StopsJoin(StatesOf(a1), ys, b, out');
    StopsOnce(cfg, seed, xs, StatesOf(a1) + ys, k + b, out, out');
  }
}
