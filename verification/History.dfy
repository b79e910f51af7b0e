/** The checkpoint history under any number of concurrent, failing and resuming runs:
    it is a forest, and every checkpoint is explained by the path to its root. */
module History {
  import opened Base
  import opened Store
  import opened Machine
  import opened AuditFirst
  import opened Accounting
  import opened Counting

  /** The step function, called on `arg`, can return `result`. */
  ghost predicate Produces(cfg: Config, arg: State, result: State) {
    exists o :: cfg.step(arg, o) == Some(result)
  }

  ghost predicate Stored(rows: seq<Checkpoint>, thread: Id, id: Id, state: State) {
    exists r :: r in rows && r.thread == thread && r.id == id && r.state == state
  }

  /** The checkpoint is the result of the call recorded with it. */
  ghost predicate MadeByOrigin(cfg: Config, row: Checkpoint) {
    row.thread == row.origin.thread && row.parent == row.origin.parent && Produces(cfg, row.origin.arg, row.state)
  }

  /** The row that a call continues from. */
  predicate Follows(c: Call, r: Checkpoint) {
    r.thread == c.thread && c.parent == Some(r.id)
  }

  /** The state a resuming run starts from: a row of another run, reloaded, or the fresh state. */
  ghost predicate ResumesFrom(cfg: Config, rows: seq<Checkpoint>, c: Call, base: State) {
    if c.parent.None? then base == FRESH
    else exists r :: r in rows && Follows(c, r) && r.origin.request != c.request && base == cfg.reload(r.state)
  }

  ghost predicate ResumedCall(cfg: Config, s: Store, c: Call) {
    exists input, base :: AuditRow(c.request, c.thread, input) in s.audit
      && ResumesFrom(cfg, s.checkpoints, c, base)
      && c.arg == Override(base, input, c.thread)
  }

  ghost predicate ContinuedCall(s: Store, c: Call) {
    exists r :: r in s.checkpoints && Follows(c, r) && r.state == c.arg
      && r.origin.request == c.request && r.origin.nth == c.nth - 1
  }

  /** Where the argument of a call comes from. The first call of a run gets the stored
      state it resumes from, with `input` and `thread_id` overridden by those of its audit
      row; each later call gets exactly what the previous call of the same run returned. */
  ghost predicate Explained(cfg: Config, s: Store, c: Call) {
    if c.nth == 0 then ResumedCall(cfg, s, c) else ContinuedCall(s, c)
  }

  ghost predicate TablesExplained(cfg: Config, s: Store) {
    && (forall c :: c in s.calls ==> Explained(cfg, s, c))
    && (forall r :: r in s.checkpoints ==> r.origin in s.calls && MadeByOrigin(cfg, r))
  }

  /** The call a run is about to start, has started, or will start next is explained. */
  ghost predicate RunExplained(cfg: Config, s: Store, p: Proc) {
    p.Run? ==>
      match p.pc
      case CheckKill(l) => Explained(cfg, s, CallOf(p.req, l))
      case PubStepStart(l) => Explained(cfg, s, CallOf(p.req, l))
      case CallStep(l) => Explained(cfg, s, CallOf(p.req, l))
      case InStep(l) => CallOf(p.req, l) in s.calls
      case Put(l, next) => CallOf(p.req, l) in s.calls && Produces(cfg, l.state, next)
      case PubStepEnd(l) => Explained(cfg, s, CallOf(p.req, Loop(l.state, l.parent, l.done + 1)))
      case _ => true
  }

  // ---------------------------------------------------------------- the forest

  ghost predicate UniqueIds(rows: seq<Checkpoint>) {
    forall i, j :: 0 <= i < j < |rows| && rows[i].thread == rows[j].thread ==> rows[i].id != rows[j].id
  }

  /** The index of the row with this id on this thread. */
  ghost predicate At(rows: seq<Checkpoint>, i: int, thread: Id, id: Id) {
    0 <= i < |rows| && rows[i].thread == thread && rows[i].id == id
  }

  /** Each parent is an earlier checkpoint of the same thread. */
  ghost predicate ParentsEarlier(rows: seq<Checkpoint>) {
    forall j :: 0 <= j < |rows| && rows[j].parent.Some? ==>
      exists i :: i < j && At(rows, i, rows[j].thread, rows[j].parent.value)
  }

  ghost predicate Forest(rows: seq<Checkpoint>) {
    UniqueIds(rows) && ParentsEarlier(rows)
  }

  ghost predicate HistoryInv(cfg: Config, w: World) {
    && TablesExplained(cfg, w.store)
    && Forest(w.store.checkpoints)
    && (forall pid :: pid in w.procs ==> RunExplained(cfg, w.store, w.procs[pid]))
  }

  // ---------------------------------------------------------------- growth keeps explanations

  ghost predicate Grows(s: Store, s': Store) {
    s.audit <= s'.audit && s.checkpoints <= s'.checkpoints && s.calls <= s'.calls
  }

  lemma GrowthKeepsExplained(cfg: Config, s: Store, s': Store, c: Call)
    requires Grows(s, s') && Explained(cfg, s, c)
    ensures Explained(cfg, s', c)
  {
    assert forall r :: r in s.audit ==> r in s'.audit;
    assert forall r :: r in s.checkpoints ==> r in s'.checkpoints;
    assert forall r :: r in s.calls ==> r in s'.calls;
    if c.nth == 0 {
      var input, base :| AuditRow(c.request, c.thread, input) in s.audit
        && ResumesFrom(cfg, s.checkpoints, c, base) && c.arg == Override(base, input, c.thread);
      assert ResumesFrom(cfg, s'.checkpoints, c, base);
    }
  }

  lemma PerformGrows(cfg: Config, s: Store, op: Op, m: Move)
    ensures Grows(s, Perform(cfg, s, op, m))
  {
  }

  lemma GrowthKeepsRun(cfg: Config, s: Store, s': Store, p: Proc)
    requires Grows(s, s') && RunExplained(cfg, s, p)
    ensures RunExplained(cfg, s', p)
  {
    if p.Run? {
      match p.pc
      case CheckKill(l) => GrowthKeepsExplained(cfg, s, s', CallOf(p.req, l));
      case PubStepStart(l) => GrowthKeepsExplained(cfg, s, s', CallOf(p.req, l));
      case CallStep(l) => GrowthKeepsExplained(cfg, s, s', CallOf(p.req, l));
      case PubStepEnd(l) => GrowthKeepsExplained(cfg, s, s', CallOf(p.req, Loop(l.state, l.parent, l.done + 1)));
      case _ =>
    }
  }

  lemma {:induction false} LatestIsStored(rows: seq<Checkpoint>, t: Id)
    requires Latest(rows, t).Some?
    ensures Latest(rows, t).value in rows && Latest(rows, t).value.thread == t
  {
    if Last(rows).thread != t {
      LatestIsStored(rows[..|rows| - 1], t);
    }
  }

  // ---------------------------------------------------------------- one process step

  /** A resuming run starts from the latest checkpoint of its thread. */
  lemma ResumeExplained(cfg: Config, s: Store, req: Request)
    requires AuditRow(req.id, req.thread, req.input) in s.audit && Made(s.checkpoints, req.id) == []
    ensures Explained(cfg, s, CallOf(req, Resume(cfg, req, Latest(s.checkpoints, req.thread))))
  {
    var latest := Latest(s.checkpoints, req.thread);
    var c := CallOf(req, Resume(cfg, req, latest));
    var base := if latest.Some? then cfg.reload(latest.value.state) else FRESH;
    if latest.Some? {
      LatestIsStored(s.checkpoints, req.thread);
      MadeAreThese(s.checkpoints, req.id, latest.value);
      assert Follows(c, latest.value);
    }
    assert ResumesFrom(cfg, s.checkpoints, c, base);
  }

  /** After a checkpoint is written, the next call will continue from it. */
  lemma PutExplained(cfg: Config, s: Store, req: Request, l: Loop, next: State, id: Id)
    requires Checkpoint(req.thread, id, l.parent, next, CallOf(req, l)) in s.checkpoints
    ensures Explained(cfg, s, CallOf(req, Loop(next, Some(id), l.done + 1)))
  {
    assert Follows(CallOf(req, Loop(next, Some(id), l.done + 1)), Checkpoint(req.thread, id, l.parent, next, CallOf(req, l)));
  }

  lemma ProceedExplained(cfg: Config, s: Store, p: Proc, m: Move)
    requires HasRow(s, p) && RunCounts(s, p) && RunExplained(cfg, s, p)
    ensures RunExplained(cfg, Perform(cfg, s, OpOf(p, m), m), Proceed(cfg, s, p, m))
  {
    hide RunExplained, RunFault, Explained, Override, Resume, Apply, Rejects, Counts;
    var op := OpOf(p, m);
    var s' := Perform(cfg, s, op, m);
    PerformGrows(cfg, s, op, m);
    if p.Run? && Settle(cfg, s, op, m) == Done {
      DoneExplained(cfg, s, p.req, p.pc, m, s');
    } else {
      FaultExplained(cfg, s, p, m);
    }
  }

  lemma FaultExplained(cfg: Config, s: Store, p: Proc, m: Move)
    requires p.Killer? || Settle(cfg, s, OpOf(p, m), m) != Done
    ensures RunExplained(cfg, Perform(cfg, s, OpOf(p, m), m), Proceed(cfg, s, p, m))
  {
  }

  lemma DoneExplained(cfg: Config, s: Store, req: Request, pc: Pc, m: Move, s': Store)
    requires HasRow(s, Run(req, pc)) && RunCounts(s, Run(req, pc)) && RunExplained(cfg, s, Run(req, pc))
    requires Settle(cfg, s, RunOp(req, pc, m), m) == Done && s' == Perform(cfg, s, RunOp(req, pc, m), m) && Grows(s, s')
    ensures RunExplained(cfg, s', Run(req, RunNext(cfg, s, req, pc, m)))
  {
    if pc.Load? {
      LoadExplained(cfg, s, req, m);
    } else if pc.Put? {
      hide RunExplained, Counts, HasRow, Grows;
      PutDoneExplained(cfg, s, req, pc, m, s');
    } else {
      hide RunExplained, Counts, HasRow, RunNext;
      GrowthKeepsRun(cfg, s, s', Run(req, pc));
      NextExplained(cfg, s, s', req, pc, m);
    }
  }

  lemma LoadExplained(cfg: Config, s: Store, req: Request, m: Move)
    requires HasRow(s, Run(req, Load)) && RunCounts(s, Run(req, Load))
    ensures RunExplained(cfg, s, Run(req, RunNext(cfg, s, req, Load, m)))
  {
    hide Explained, Override, Within, Consecutive;
    ResumeExplained(cfg, s, req);
  }

  lemma PutDoneExplained(cfg: Config, s: Store, req: Request, pc: Pc, m: Move, s': Store)
    requires pc.Put? && RunExplained(cfg, s, Run(req, pc))
    requires Settle(cfg, s, RunOp(req, pc, m), m) == Done && s' == Perform(cfg, s, RunOp(req, pc, m), m)
    ensures RunExplained(cfg, s', Run(req, RunNext(cfg, s, req, pc, m)))
  {
    hide Explained;
    var c := Checkpoint(req.thread, m.id, pc.l.parent, pc.next, CallOf(req, pc.l));
    assert s'.checkpoints == s.checkpoints + [c];
    PutExplained(cfg, s', req, pc.l, pc.next, m.id);
  }

  /** Where nothing is loaded or stored, what was explained is what comes next. */
  lemma NextExplained(cfg: Config, s: Store, s': Store, req: Request, pc: Pc, m: Move)
    requires !pc.Load? && !pc.Put? && RunExplained(cfg, s', Run(req, pc))
    requires pc.CallStep? ==> CallOf(req, pc.l) in s'.calls
    requires pc.InStep? ==> cfg.step(pc.l.state, m.oracle).Some?
    ensures RunExplained(cfg, s', Run(req, RunNext(cfg, s, req, pc, m)))
  {
    hide Explained;
  }

  /** Only started calls and results of started calls are appended. */
  lemma PerformExplained(cfg: Config, s: Store, p: Proc, m: Move)
    requires TablesExplained(cfg, s) && RunExplained(cfg, s, p)
    ensures TablesExplained(cfg, Perform(cfg, s, OpOf(p, m), m))
  {
    var op := OpOf(p, m);
    var s' := Perform(cfg, s, op, m);
    PerformGrows(cfg, s, op, m);
    forall c | c in s'.calls ensures Explained(cfg, s', c) {
      if c !in s.calls {
        assert c == op.call;
      }
      GrowthKeepsExplained(cfg, s, s', c);
    }
    forall r | r in s'.checkpoints ensures r.origin in s'.calls && MadeByOrigin(cfg, r) {
      if r !in s.checkpoints {
        assert r == op.checkpoint;
      }
    }
  }

  lemma ExplainedParent(cfg: Config, s: Store, c: Call)
    requires Explained(cfg, s, c) && c.parent.Some?
    ensures exists i :: At(s.checkpoints, i, c.thread, c.parent.value)
  {
    var r: Checkpoint;
    if c.nth == 0 {
      var input, base :| AuditRow(c.request, c.thread, input) in s.audit
        && ResumesFrom(cfg, s.checkpoints, c, base) && c.arg == Override(base, input, c.thread);
      r :| r in s.checkpoints && Follows(c, r);
    } else {
      r :| r in s.checkpoints && Follows(c, r);
    }
    var i :| 0 <= i < |s.checkpoints| && s.checkpoints[i] == r;
    assert At(s.checkpoints, i, c.thread, c.parent.value);
  }

  lemma PerformForest(cfg: Config, s: Store, p: Proc, m: Move)
    requires TablesExplained(cfg, s) && RunExplained(cfg, s, p) && Forest(s.checkpoints)
    ensures Forest(Perform(cfg, s, OpOf(p, m), m).checkpoints)
  {
    var op := OpOf(p, m);
    var rows, rows' := s.checkpoints, Perform(cfg, s, op, m).checkpoints;
    if rows' != rows {
      var c := op.checkpoint;
      assert rows' == rows + [c];
      assert !CheckpointHas(rows, c.thread, c.id);
      var call := CallOf(p.req, p.pc.l);
      if c.parent.Some? {
        ExplainedParent(cfg, s, call);
      }
      forall j | 0 <= j < |rows'| && rows'[j].parent.Some?
        ensures exists i :: i < j && At(rows', i, rows'[j].thread, rows'[j].parent.value)
      {
        var i :| (j < |rows| ==> i < j) && At(rows, i, rows'[j].thread, rows'[j].parent.value);
        assert At(rows', i, rows'[j].thread, rows'[j].parent.value);
      }
    }
  }

  lemma DoKeepsHistory(cfg: Config, w: World, a: Action)
    requires AuditInv(w) && AllCount(w) && HistoryInv(cfg, w)
    ensures HistoryInv(cfg, Do(cfg, w, a))
  {
    if a.Advance? && a.pid in w.procs {
      var p := w.procs[a.pid];
      var op := OpOf(p, a.move);
      assert HasRow(w.store, p);
      ProceedExplained(cfg, w.store, p, a.move);
      PerformExplained(cfg, w.store, p, a.move);
      PerformForest(cfg, w.store, p, a.move);
      PerformGrows(cfg, w.store, op, a.move);
      forall j | j in w.procs && j != a.pid ensures RunExplained(cfg, Perform(cfg, w.store, op, a.move), w.procs[j]) {
        GrowthKeepsRun(cfg, w.store, Perform(cfg, w.store, op, a.move), w.procs[j]);
      }
    }
  }

  // ---------------------------------------------------------------- main results

  /** In every reachable world the checkpoint history is a forest, each checkpoint is the
      result of the started call that is recorded with it, and each started call is explained. */
  lemma {:induction false} HistoryAlways(cfg: Config, acts: seq<Action>)
    ensures HistoryInv(cfg, Exec(cfg, START, acts))
  {
    if acts != [] {
      var front := acts[..|acts| - 1];
      HistoryAlways(cfg, front);
      AuditAlways(cfg, front);
      CountsAlways(cfg, front);
      DoKeepsHistory(cfg, Exec(cfg, START, front), Last(acts));
    }
  }

  /** A step.end event names a checkpoint that is there, and its step number. */
  ghost predicate Announced(s: Store) {
    forall e | e in s.events && e.kind == EvStepEnd ::
      e.checkpoint.Some? && exists st :: Stored(s.checkpoints, e.thread, e.checkpoint.value, st) && Get(st, "step") == e.step
  }

  lemma PerformAnnounced(cfg: Config, s: Store, p: Proc, m: Move)
    requires RunExplained(cfg, s, p) && Announced(s)
    ensures Announced(Perform(cfg, s, OpOf(p, m), m))
  {
    var op := OpOf(p, m);
    var s' := Perform(cfg, s, op, m);
    forall e | e in s'.events && e.kind == EvStepEnd
      ensures e.checkpoint.Some? && exists st :: Stored(s'.checkpoints, e.thread, e.checkpoint.value, st) && Get(st, "step") == e.step
    {
      var st: State;
      if e in s.events {
        st :| Stored(s.checkpoints, e.thread, e.checkpoint.value, st) && Get(st, "step") == e.step;
      } else {
        assert e == op.event;
        var l := p.pc.l;
        assert ContinuedCall(s, CallOf(p.req, Loop(l.state, l.parent, l.done + 1)));
        st := l.state;
      }
      assert Stored(s'.checkpoints, e.thread, e.checkpoint.value, st);
    }
  }

  /** Every published step.end names a checkpoint that was stored before, with its step number. */
  lemma {:induction false} AnnouncedAlways(cfg: Config, acts: seq<Action>)
    ensures Announced(Exec(cfg, START, acts).store)
  {
    if acts != [] {
      var front, a := acts[..|acts| - 1], Last(acts);
      AnnouncedAlways(cfg, front);
      HistoryAlways(cfg, front);
      var w := Exec(cfg, START, front);
      if a.Advance? && a.pid in w.procs {
        PerformAnnounced(cfg, w.store, w.procs[a.pid], a.move);
      }
    }
  }

  /** From a root to row `j`: each row's parent is the row before it on the path. */
  ghost predicate IsPath(rows: seq<Checkpoint>, path: seq<nat>, j: nat) {
    && path != [] && Last(path) == j
    && (forall k :: 0 <= k < |path| ==> path[k] < |rows|)
    && (forall k :: 0 <= k < |path| ==> rows[path[k]].thread == rows[path[0]].thread)
    && rows[path[0]].parent == None
    && (forall k :: 0 <= k < |path| - 1 ==> path[k] < path[k + 1] && rows[path[k + 1]].parent == Some(rows[path[k]].id))
  }

  /** One step along a path: resumed with an input, or continued by the same run; and what
      the step function saw besides its argument. */
  datatype Link = Link(resumed: Option<string>, oracle: nat)

  /** What the step function is called on after `prev`. */
  function ArgOf(cfg: Config, t: Id, prev: Option<State>, link: Link): Option<State> {
    match link.resumed
    case Some(input) => Some(Override(match prev case None => FRESH case Some(st) => cfg.reload(st), input, t))
    case None => prev
  }

  function FoldOne(cfg: Config, t: Id, prev: Option<State>, link: Link): Option<State> {
    var arg := ArgOf(cfg, t, prev, link);
    if arg.Some? then cfg.step(arg.value, link.oracle) else None
  }

  /** The step function folded along a path. */
  function Fold(cfg: Config, t: Id, links: seq<Link>): Option<State> {
    if links == [] then None
    else if |links| == 1 then FoldOne(cfg, t, None, links[0])
    else
      var prev := Fold(cfg, t, links[..|links| - 1]);
      if prev.None? then None else FoldOne(cfg, t, prev, Last(links))
  }

  /** The link says how the call that made this row went: it was given just this argument; the
      run resumed with the input of its audit row, or went on from its own call before. */
  ghost predicate LinkMatches(cfg: Config, s: Store, prev: Option<Checkpoint>, row: Checkpoint, link: Link) {
    var c := row.origin;
    && c in s.calls && MadeByOrigin(cfg, row)
    && ArgOf(cfg, row.thread, if prev.Some? then Some(prev.value.state) else None, link) == Some(c.arg)
    && cfg.step(c.arg, link.oracle) == Some(row.state)
    && match link.resumed
       case Some(input) =>
         c.nth == 0 && AuditRow(c.request, c.thread, input) in s.audit
         && (prev.Some? ==> prev.value.origin.request != c.request)
       case None =>
         prev.Some? && prev.value.origin.request == c.request && prev.value.origin.nth + 1 == c.nth
  }

  /** The row before position `k` of a path. */
  function Before(rows: seq<Checkpoint>, path: seq<nat>, k: nat): Option<Checkpoint>
    requires k <= |path| && forall i :: 0 <= i < |path| ==> path[i] < |rows|
  {
    if k == 0 then None else Some(rows[path[k - 1]])
  }

  ghost predicate Explains(cfg: Config, s: Store, j: nat, path: seq<nat>, links: seq<Link>) {
    && IsPath(s.checkpoints, path, j)
    && |links| == |path|
    && Fold(cfg, s.checkpoints[j].thread, links) == Some(s.checkpoints[j].state)
    && (forall k :: 0 <= k < |path| ==>
          LinkMatches(cfg, s, Before(s.checkpoints, path, k), s.checkpoints[path[k]], links[k]))
  }

  /** The link of one row, given its parent row. */
  lemma OneLink(cfg: Config, s: Store, j: nat, prev: Option<Checkpoint>) returns (link: Link)
    requires TablesExplained(cfg, s) && UniqueIds(s.checkpoints) && j < |s.checkpoints|
    requires prev.Some? <==> s.checkpoints[j].parent.Some?
    requires prev.Some? ==> prev.value in s.checkpoints && Follows(s.checkpoints[j].origin, prev.value)
    ensures LinkMatches(cfg, s, prev, s.checkpoints[j], link)
  {
    var row := s.checkpoints[j];
    assert row in s.checkpoints;
    var c := row.origin;
    var o :| cfg.step(c.arg, o) == Some(row.state);
    if c.nth == 0 {
      var input, base :| AuditRow(c.request, c.thread, input) in s.audit
        && ResumesFrom(cfg, s.checkpoints, c, base) && c.arg == Override(base, input, c.thread);
      link := Link(Some(input), o);
      if prev.Some? {
        var r :| r in s.checkpoints && Follows(c, r) && r.origin.request != c.request && base == cfg.reload(r.state);
        FollowedIsUnique(s.checkpoints, c, r, prev.value);
      }
    } else {
      link := Link(None, o);
      assert ContinuedCall(s, c);
      var r :| r in s.checkpoints && Follows(c, r) && r.state == c.arg && r.origin.request == c.request && r.origin.nth == c.nth - 1;
      FollowedIsUnique(s.checkpoints, c, r, prev.value);
    }
  }

  lemma FollowedIsUnique(rows: seq<Checkpoint>, c: Call, r: Checkpoint, r': Checkpoint)
    requires UniqueIds(rows) && r in rows && r' in rows && Follows(c, r) && Follows(c, r')
    ensures r == r'
  {
    var i :| 0 <= i < |rows| && rows[i] == r;
    var i' :| 0 <= i' < |rows| && rows[i'] == r';
  }

  lemma LongerPath(rows: seq<Checkpoint>, path: seq<nat>, i: nat, j: nat)
    requires i < j < |rows| && IsPath(rows, path, i)
    requires rows[i].thread == rows[j].thread && rows[j].parent == Some(rows[i].id)
    ensures IsPath(rows, path + [j], j)
  {
    assert path[|path| - 1] == i;
  }

  lemma LongerFold(cfg: Config, s: Store, prev: Checkpoint, row: Checkpoint, links: seq<Link>, link: Link)
    requires links != [] && Fold(cfg, row.thread, links) == Some(prev.state)
    requires LinkMatches(cfg, s, Some(prev), row, link)
    ensures Fold(cfg, row.thread, links + [link]) == Some(row.state)
  {
    assert (links + [link])[..|links|] == links;
  }

  lemma ExtendPath(cfg: Config, s: Store, i: nat, j: nat, path: seq<nat>, links: seq<Link>, link: Link)
    requires i < j < |s.checkpoints| && Explains(cfg, s, i, path, links)
    requires s.checkpoints[i].thread == s.checkpoints[j].thread
    requires s.checkpoints[j].parent == Some(s.checkpoints[i].id)
    requires LinkMatches(cfg, s, Some(s.checkpoints[i]), s.checkpoints[j], link)
    ensures Explains(cfg, s, j, path + [j], links + [link])
  {
    hide LinkMatches, FoldOne, Fold;
    var rows, longer := s.checkpoints, path + [j];
    LongerPath(rows, path, i, j);
    LongerFold(cfg, s, rows[i], rows[j], links, link);
    forall k | 0 <= k < |longer| ensures LinkMatches(cfg, s, Before(rows, longer, k), rows[longer[k]], (links + [link])[k]) {
      if k < |path| {
        assert Before(rows, longer, k) == Before(rows, path, k);
      }
    }
  }

  lemma {:induction false} ExplainRow(cfg: Config, s: Store, j: nat) returns (path: seq<nat>, links: seq<Link>)
    requires TablesExplained(cfg, s) && Forest(s.checkpoints) && j < |s.checkpoints|
    ensures Explains(cfg, s, j, path, links)
    decreases j
  {
    var row := s.checkpoints[j];
    assert row in s.checkpoints;
    if row.parent.None? {
      var link := OneLink(cfg, s, j, None);
      path, links := [j], [link];
      assert links[..0] == [];
    } else {
      var i :| i < j && At(s.checkpoints, i, row.thread, row.parent.value);
      var path0, links0 := ExplainRow(cfg, s, i);
      var link := OneLink(cfg, s, j, Some(s.checkpoints[i]));
      path, links := path0 + [j], links0 + [link];
      ExtendPath(cfg, s, i, j, path0, links0, link);
    }
  }

  /** Provenance: in every reachable world, walking parents from any checkpoint ends at a
      root, and its state is the step function folded along that path. Each row on it was made by
      the call recorded with it, on just the argument the fold gives it: with `input` and `thread_id`
      overridden by those of the run's audit row exactly where a run resumed, that is, at the root and
      wherever the row before is another run's, and unchanged where it is the same run's. */
  lemma Provenance(cfg: Config, acts: seq<Action>, j: nat)
    requires j < |Exec(cfg, START, acts).store.checkpoints|
    ensures exists path, links :: Explains(cfg, Exec(cfg, START, acts).store, j, path, links)
  {
    HistoryAlways(cfg, acts);
    var path, links := ExplainRow(cfg, Exec(cfg, START, acts).store, j);
  }
}
