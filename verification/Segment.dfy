/** What one run adds to the checkpoint rows of its thread while no other run on that
    thread moves: a chain that continues the rows it found. */
module Segment {
  import opened Base
  import opened Store
  import opened Machine
  import opened EventTrace
  import opened Accounting
  import opened History

  // ---------------------------------------------------------------- rows of a thread

  /** `get_latest` returns the last element of `list_all`. */
  lemma {:induction false} LatestIsLast(rows: seq<Checkpoint>, t: Id)
    ensures Latest(rows, t) == if RowsOf(rows, t) == [] then None else Some(Last(RowsOf(rows, t)))
  {
    if rows != [] {
      LatestIsLast(rows[..|rows| - 1], t);
    }
  }

  /** The id a chain that starts after `rows` hangs on. */
  function Tip(rows: seq<Checkpoint>): Option<Id> {
    if rows == [] then None else Some(Last(rows).id)
  }

  function StateAfter(seed: State, added: seq<Checkpoint>): State {
    if added == [] then seed else Last(added).state
  }

  function TipAfter(parent: Option<Id>, added: seq<Checkpoint>): Option<Id> {
    if added == [] then parent else Some(Last(added).id)
  }

  function Front<T>(xs: seq<T>): seq<T> {
    if xs == [] then [] else xs[..|xs| - 1]
  }

  /** Each row's parent is the row before it, and its state comes from that row's state by one step. */
  ghost predicate Chained(cfg: Config, seed: State, parent: Option<Id>, added: seq<Checkpoint>) {
    added != [] ==>
      var front := Front(added);
      && Chained(cfg, seed, parent, front)
      && Last(added).parent == TipAfter(parent, front)
      && Produces(cfg, StateAfter(seed, front), Last(added).state)
  }

  predicate Incomplete(added: seq<Checkpoint>) {
    forall i :: 0 <= i < |added| ==> !IsComplete(added[i].state)
  }

  /** The state a run starts from when it finds these rows. */
  function SeedOf(cfg: Config, req: Request, found: seq<Checkpoint>): State {
    Resume(cfg, req, if found == [] then None else Some(Last(found))).state
  }

  // ---------------------------------------------------------------- progress of one run

  ghost predicate InLoop(cfg: Config, seed: State, parent: Option<Id>, added: seq<Checkpoint>, req: Request, l: Loop) {
    && |added| == l.done < Bound(req)
    && l.state == StateAfter(seed, added)
    && l.parent == TipAfter(parent, added)
    && Incomplete(added)
  }

  /** How the loop ended, as the rows the run added show it. */
  ghost predicate LoopEnded(seed: State, added: seq<Checkpoint>, req: Request, x: Exit) {
    Plain(x.outcome) ==>
      && x.raised == None && x.state == StateAfter(seed, added)
      && match x.outcome
         case OutOk => added != [] && IsComplete(x.state)
         case OutMaxSteps => Incomplete(added) && |added| == Bound(req)
         case _ => Incomplete(added)
  }

  ghost predicate ProgressAt(cfg: Config, seed: State, parent: Option<Id>, added: seq<Checkpoint>, req: Request, pc: Pc) {
    match pc
    case Audit => added == []
    case MarkRunning(_) => added == []
    case PubStart => added == []
    case Load => added == []
    case CheckKill(l) => InLoop(cfg, seed, parent, added, req, l)
    case PubKilled(l) => InLoop(cfg, seed, parent, added, req, l)
    case MarkKilled(l, _) => InLoop(cfg, seed, parent, added, req, l)
    case PubStepStart(l) => InLoop(cfg, seed, parent, added, req, l)
    case CallStep(l) => InLoop(cfg, seed, parent, added, req, l)
    case InStep(l) => InLoop(cfg, seed, parent, added, req, l)
    case Put(l, next) => InLoop(cfg, seed, parent, added, req, l) && Produces(cfg, l.state, next)
    case PubStepEnd(l) =>
      added != [] && InLoop(cfg, seed, parent, Front(added), req, Loop(StateAfter(seed, Front(added)), TipAfter(parent, Front(added)), l.done))
      && l.state == Last(added).state && l.parent == Some(Last(added).id)
    case Record(x) => LoopEnded(seed, added, req, x)
    case MarkCompleted(x, _) => LoopEnded(seed, added, req, x)
    case PubEnd(x) => LoopEnded(seed, added, req, x)
    case Finished(Refused(_)) => added == []
    case Finished(Aborted(_)) => added == []
    case Finished(e) => LoopEnded(seed, added, req, e.exit)
    case _ => true
  }

  /** What one run adds to the rows it found: at most one row per allowed iteration,
      chained, none but the last complete. */
  ghost predicate Adds(cfg: Config, req: Request, found: seq<Checkpoint>, added: seq<Checkpoint>) {
    && |added| <= Bound(req)
    && Chained(cfg, SeedOf(cfg, req, found), Tip(found), added)
    && Incomplete(Front(added))
  }

  /** The rows a run added so far, in step with where the run is. */
  ghost predicate Progress(cfg: Config, found: seq<Checkpoint>, rows: seq<Checkpoint>, req: Request, pc: Pc) {
    && found <= rows
    && Adds(cfg, req, found, rows[|found|..])
    && ProgressAt(cfg, SeedOf(cfg, req, found), Tip(found), rows[|found|..], req, pc)
  }

  lemma ReturnedProgress(cfg: Config, seed: State, parent: Option<Id>, added: seq<Checkpoint>, req: Request, e: Ending)
    requires ProgressAt(cfg, seed, parent, added, req, Finished(e)) && e.Returned?
    ensures LoopEnded(seed, added, req, e.exit)
  {
  }

  lemma DoneProgress(cfg: Config, s: Store, seed: State, parent: Option<Id>, added: seq<Checkpoint>, req: Request, pc: Pc, m: Move)
    requires ProgressAt(cfg, seed, parent, added, req, pc) && !pc.Load? && !pc.Put?
    requires |added| <= Bound(req) && Incomplete(Front(added))
    requires pc.InStep? ==> cfg.step(pc.l.state, m.oracle).Some?
    ensures ProgressAt(cfg, seed, parent, added, req, RunNext(cfg, s, req, pc, m))
  {
    if pc.PubStepEnd? && !IsComplete(pc.l.state) {
      assert forall i :: 0 <= i < |added| - 1 ==> added[i] == Front(added)[i];
    }
  }

  lemma FaultProgress(cfg: Config, seed: State, parent: Option<Id>, added: seq<Checkpoint>, req: Request, pc: Pc, f: Fault)
    requires ProgressAt(cfg, seed, parent, added, req, pc)
    ensures ProgressAt(cfg, seed, parent, added, req, RunFault(pc, f))
  {
  }

  /** A step that appends no checkpoint, other than the one that loads the latest. */
  lemma ControlProgress(cfg: Config, s: Store, seed: State, parent: Option<Id>, added: seq<Checkpoint>, req: Request, pc: Pc, m: Move)
    requires ProgressAt(cfg, seed, parent, added, req, pc) && !pc.Load?
    requires |added| <= Bound(req) && Incomplete(Front(added))
    requires pc.Put? ==> !Lands(cfg, s, OpOf(Run(req, pc), m), m)
    ensures ProgressAt(cfg, seed, parent, added, req, Proceed(cfg, s, Run(req, pc), m).pc)
  {
    hide ProgressAt, RunNext, RunFault;
    var fate := Settle(cfg, s, RunOp(req, pc, m), m);
    if fate == Done {
      DoneProgress(cfg, s, seed, parent, added, req, pc, m);
    } else {
      FaultProgress(cfg, seed, parent, added, req, pc, ToFault(fate));
    }
  }

  lemma NothingBeforeLoad(cfg: Config, seed: State, parent: Option<Id>, added: seq<Checkpoint>, req: Request)
    requires ProgressAt(cfg, seed, parent, added, req, Load)
    ensures added == []
  {
  }

  lemma LoadProgress(cfg: Config, s: Store, req: Request, m: Move)
    ensures
      var found := RowsOf(s.checkpoints, req.thread);
      ProgressAt(cfg, SeedOf(cfg, req, found), Tip(found), [], req, Proceed(cfg, s, Run(req, Load), m).pc)
  {
    LatestIsLast(s.checkpoints, req.thread);
  }

  lemma NoPutNoRow(cfg: Config, s: Store, req: Request, pc: Pc, m: Move)
    requires pc.Put? ==> !Lands(cfg, s, OpOf(Run(req, pc), m), m)
    ensures Perform(cfg, s, OpOf(Run(req, pc), m), m).checkpoints == s.checkpoints
  {
  }

  /** A run's own step keeps its progress. */
  lemma StepKeepsProgress(cfg: Config, s: Store, found: seq<Checkpoint>, req: Request, pc: Pc, m: Move)
    requires Progress(cfg, found, RowsOf(s.checkpoints, req.thread), req, pc)
    ensures
      var p := Run(req, pc);
      Progress(cfg, found, RowsOf(Perform(cfg, s, OpOf(p, m), m).checkpoints, req.thread), req, Proceed(cfg, s, p, m).pc)
  {
    hide ProgressAt, Proceed, Chained, Perform, Lands, Rejects;
    var rows := RowsOf(s.checkpoints, req.thread);
    var added := rows[|found|..];
    if pc.Put? && Lands(cfg, s, OpOf(Run(req, pc), m), m) {
      PutProgress(cfg, s, found, req, pc, m);
    } else {
      NoPutNoRow(cfg, s, req, pc, m);
      if pc.Load? {
        NothingBeforeLoad(cfg, SeedOf(cfg, req, found), Tip(found), added, req);
        assert rows == found;
        LoadProgress(cfg, s, req, m);
      } else {
        ControlProgress(cfg, s, SeedOf(cfg, req, found), Tip(found), added, req, pc, m);
      }
    }
  }

  lemma PutProgress(cfg: Config, s: Store, found: seq<Checkpoint>, req: Request, pc: Pc, m: Move)
    requires pc.Put? && Progress(cfg, found, RowsOf(s.checkpoints, req.thread), req, pc)
    requires Lands(cfg, s, OpOf(Run(req, pc), m), m)
    ensures
      var p := Run(req, pc);
      Progress(cfg, found, RowsOf(Perform(cfg, s, OpOf(p, m), m).checkpoints, req.thread), req, Proceed(cfg, s, p, m).pc)
  {
    hide ProgressAt, Chained, Produces, InLoop, Incomplete, RowsOf;
    var rows := RowsOf(s.checkpoints, req.thread);
    var seed, parent, l := SeedOf(cfg, req, found), Tip(found), pc.l;
    var c := Checkpoint(req.thread, m.id, l.parent, pc.next, CallOf(req, l));
    var added := rows[|found|..];
    RowsAppend(s.checkpoints, c, req.thread);
    assert (rows + [c])[|found|..] == added + [c];
    PutAt(cfg, seed, parent, added, req, pc);
    AppendAdds(cfg, req, found, added, c);
    PutDone(cfg, seed, parent, added, req, l, c);
    PutFault(cfg, seed, parent, added + [c], req, FaultError);
    PutFault(cfg, seed, parent, added + [c], req, FaultCancel);
  }

  lemma PutAt(cfg: Config, seed: State, parent: Option<Id>, added: seq<Checkpoint>, req: Request, pc: Pc)
    requires pc.Put? && ProgressAt(cfg, seed, parent, added, req, pc)
    ensures InLoop(cfg, seed, parent, added, req, pc.l) && Produces(cfg, pc.l.state, pc.next)
    ensures Incomplete(added) && |added| < Bound(req)
    ensures pc.l.state == StateAfter(seed, added) && pc.l.parent == TipAfter(parent, added)
  {
  }

  lemma PutDone(cfg: Config, seed: State, parent: Option<Id>, added: seq<Checkpoint>, req: Request, l: Loop, c: Checkpoint)
    requires InLoop(cfg, seed, parent, added, req, l)
    ensures ProgressAt(cfg, seed, parent, added + [c], req, PubStepEnd(Loop(c.state, Some(c.id), l.done)))
  {
    assert Front(added + [c]) == added;
  }

  lemma PutFault(cfg: Config, seed: State, parent: Option<Id>, added: seq<Checkpoint>, req: Request, f: Fault)
    ensures ProgressAt(cfg, seed, parent, added, req, MarkFailed(f, Look))
  {
  }

  lemma AppendAdds(cfg: Config, req: Request, found: seq<Checkpoint>, added: seq<Checkpoint>, c: Checkpoint)
    requires Adds(cfg, req, found, added) && Incomplete(added) && |added| < Bound(req)
    requires c.parent == TipAfter(Tip(found), added)
    requires Produces(cfg, StateAfter(SeedOf(cfg, req, found), added), c.state)
    ensures Adds(cfg, req, found, added + [c])
  {
    assert Front(added + [c]) == added;
  }
}
