/** Exactly which words of event kinds a run can publish: for each word of the language within
    the bound, a schedule in which a run publishes it. */
module Language {
  import opened Base
  import opened Store
  import opened Machine
  import opened AuditFirst
  import opened EventTrace
  import opened Accounting

  /** A step function that leaves it to the environment whether the state is complete. */
  const CHOOSING: Config := Config(
    (s: State, o: nat) => Some(s["completed" := Bool(o == 1)]), (s: State) => true, (s: State) => s)

  function Req(n: int): Request {
    Request("r", "t", "x", n)
  }

  /** A fresh checkpoint id for iteration `k`. */
  function Tally(k: nat): (id: Id)
    ensures |id| == k
  {
    seq(k, i => 'i')
  }

  function Faulty(f: Fault, landed: bool): Move {
    OK.(fate := if f == FaultError then Raised else Interrupted, landed := landed)
  }

  predicate AfterRecord(pc: Pc) {
    pc.MarkCompleted? || pc.PubEnd? || pc.Finished?
  }

  /** The world after a schedule in which run 0 has got to `pc`, having published `word` and
      stored at most `k` checkpoints; `kill` is the flag of its thread. */
  ghost predicate At(acts: seq<Action>, n: int, pc: Pc, word: seq<Kind>, k: nat, kill: bool) {
    var w := Exec(CHOOSING, START, acts);
    && 0 in w.procs && w.procs[0] == Run(Req(n), pc) && (!kill ==> 1 !in w.procs)
    && KindsOf(w.store.events, "r") == word
    && (!AfterRecord(pc) ==> w.store.metrics == [])
    && "t" in w.store.threads && w.store.threads["t"].kill == kill
    && |w.store.checkpoints| <= k && (forall r :: r in w.store.checkpoints ==> |r.id| < k)
  }

  function WordAfter(word: seq<Kind>, op: Op, m: Move): seq<Kind> {
    if op.Publish? && (m.fate == Done || m.landed) then word + [op.event.kind] else word
  }

  /** The operation goes through or fails as the environment has it, and keeps the flag. */
  predicate Smooth(op: Op, m: Move, k: nat, kill: bool) {
    match op
    case InsertAudit(_) => false
    case InsertThread(_, _) => false
    case UpdateThread(_, row) => row.kill == kill
    case InsertCheckpoint(c) => |c.id| == k
    case _ => true
  }

  lemma KindsAppend(events: seq<Event>, e: Event, request: Id)
    ensures KindsOf(events + [e], request) == if e.request == request then KindsOf(events, request) + [e.kind] else KindsOf(events, request)
  {
    assert (events + [e])[..|events|] == events;
  }

  lemma NotRejected(s: Store, op: Op, m: Move, k: nat, kill: bool)
    requires Smooth(op, m, k, kill) && (forall r :: r in s.checkpoints ==> |r.id| < k)
    requires op.InsertMetric? ==> s.metrics == []
    ensures !Rejects(CHOOSING, s, op)
  {
  }

  /** One step of run 0. */
  lemma Step(acts: seq<Action>, n: int, pc: Pc, word: seq<Kind>, k: nat, kill: bool, m: Move)
    requires At(acts, n, pc, word, k, kill) && Smooth(RunOp(Req(n), pc, m), m, k, kill)
    ensures
      var s, op := Exec(CHOOSING, START, acts).store, RunOp(Req(n), pc, m);
      var pc' := if op.StartStep? || m.fate == Done then RunNext(CHOOSING, s, Req(n), pc, m) else RunFault(pc, ToFault(m.fate));
      At(acts + [Advance(0, m)], n, pc', WordAfter(word, op, m), if op.InsertCheckpoint? then k + 1 else k, kill)
  {
    hide RunNext, RunFault, Rejects;
    var w, op := Exec(CHOOSING, START, acts), RunOp(Req(n), pc, m);
    ExecOne(CHOOSING, START, acts, Advance(0, m));
    NotRejected(w.store, op, m, k, kill);
    OpOnT(n, pc, m);
    RecordOnce(w.store, n, pc, m);
    if op.Publish? {
      KindsAppend(w.store.events, op.event, "r");
    }
  }

  lemma OpOnT(n: int, pc: Pc, m: Move)
    ensures
      var op := RunOp(Req(n), pc, m);
      (op.Publish? ==> op.event.request == "r") && (op.UpdateThread? ==> op.thread == "t")
  {
  }

  lemma RecordOnce(s: Store, n: int, pc: Pc, m: Move)
    ensures
      && (AfterRecord(pc) ==> AfterRecord(RunNext(CHOOSING, s, Req(n), pc, m)) && forall f :: AfterRecord(RunFault(pc, f)))
      && (pc.Record? ==> AfterRecord(RunNext(CHOOSING, s, Req(n), pc, m)) && forall f :: AfterRecord(RunFault(pc, f)))
      && (RunOp(Req(n), pc, m).InsertMetric? ==> pc.Record?)
  {
  }

  // ---------------------------------------------------------------- stretches of a run

  /** Up to the start event. */
  lemma Begin(n: int) returns (acts: seq<Action>)
    ensures At(acts, n, Load, [EvStart], 0, false)
  {
    var w0 := START.(procs := map[0 := Run(Req(n), Audit)]);
    acts := [Invoke(0, Req(n))];
    ExecOne(CHOOSING, START, [], Invoke(0, Req(n)));
    assert [] + [Invoke(0, Req(n))] == acts;
    assert Exec(CHOOSING, START, []) == START;
    hide Exec, Do;
    ExecOne(CHOOSING, START, acts, Advance(0, OK));
    Returns(CHOOSING, w0, 0, Req(n), Audit, OK);
    acts := acts + [Advance(0, OK)];
    ExecOne(CHOOSING, START, acts, Advance(0, OK));
    Returns(CHOOSING, Exec(CHOOSING, START, acts), 0, Req(n), MarkRunning(Look), OK);
    acts := acts + [Advance(0, OK)];
    ExecOne(CHOOSING, START, acts, Advance(0, OK));
    Returns(CHOOSING, Exec(CHOOSING, START, acts), 0, Req(n), MarkRunning(Write(None)), OK);
    acts := acts + [Advance(0, OK)];
    assert At(acts, n, PubStart, [], 0, false) by {
      assert KindsOf([], "r") == [];
    }
    Step(acts, n, PubStart, [], 0, false, OK);
    acts := acts + [Advance(0, OK)];
  }

  /** The flag is read as false and the step announced. */
  lemma Announce(acts: seq<Action>, n: int, l: Loop, word: seq<Kind>, k: nat)
    requires At(acts, n, CheckKill(l), word, k, false)
    ensures At(acts + [Advance(0, OK)] + [Advance(0, OK)], n, CallStep(l), word + [EvStepStart], k, false)
  {
    Step(acts, n, CheckKill(l), word, k, false, OK);
    Step(acts + [Advance(0, OK)], n, PubStepStart(l), word, k, false, OK);
  }

  /** The step is made and its state stored; `o` says whether it is complete. */
  lemma Make(acts0: seq<Action>, n: int, l: Loop, word: seq<Kind>, k: nat, o: nat) returns (acts: seq<Action>, l': Loop)
    requires At(acts0, n, CallStep(l), word, k, false)
    ensures At(acts, n, PubStepEnd(l'), word, k + 1, false) && l'.done == l.done && (IsComplete(l'.state) <==> o == 1)
  {
    hide Exec, At;
    var next := l.state["completed" := Bool(o == 1)];
    Step(acts0, n, CallStep(l), word, k, false, OK);
    acts := acts0 + [Advance(0, OK)];
    Step(acts, n, InStep(l), word, k, false, OK.(oracle := o));
    acts := acts + [Advance(0, OK.(oracle := o))];
    Step(acts, n, Put(l, next), word, k, false, OK.(id := Tally(k)));
    acts := acts + [Advance(0, OK.(id := Tally(k)))];
    l' := Loop(next, Some(Tally(k)), l.done);
  }

  /** After k iterations, with more to come. */
  lemma {:induction false} Reach(n: int, k: nat) returns (acts: seq<Action>, l: Loop)
    requires k < n
    ensures At(acts, n, CheckKill(l), [EvStart] + Pairs(k), k, false) && l.done == k
    decreases k, 1
  {
    hide Exec, Override;
    if k == 0 {
      acts := Begin(n);
      var s := Exec(CHOOSING, START, acts).store;
      assert s.checkpoints == [];
      Step(acts, n, Load, [EvStart], 0, false, OK);
      acts := acts + [Advance(0, OK)];
      l := Loop(Override(FRESH, "x", "t"), None, 0);
      assert [EvStart] + Pairs(0) == [EvStart];
    } else {
      hide At;
      acts, l := ReachEnd(n, k, 0);
      var word := [EvStart] + Pairs(k - 1) + [EvStepStart];
      Step(acts, n, PubStepEnd(l), word, k, false, OK);
      acts := acts + [Advance(0, OK)];
      l := Loop(l.state, l.parent, k);
      assert [EvStart] + Pairs(k) == word + [EvStepEnd];
    }
  }

  /** The k-th iteration up to its step.end. */
  lemma {:induction false} ReachEnd(n: int, k: nat, o: nat) returns (acts: seq<Action>, l: Loop)
    requires 0 < k <= n
    ensures At(acts, n, PubStepEnd(l), [EvStart] + Pairs(k - 1) + [EvStepStart], k, false)
    ensures l.done == k - 1 && (IsComplete(l.state) <==> o == 1)
    decreases k, 0
  {
    hide At, IsComplete;
    acts, l := Reach(n, k - 1);
    Announce(acts, n, l, [EvStart] + Pairs(k - 1), k - 1);
    acts, l := Make(acts + [Advance(0, OK)] + [Advance(0, OK)], n, l, [EvStart] + Pairs(k - 1) + [EvStepStart], k - 1, o);
  }

  /** A kill request comes in before a flag check. */
  lemma KillComes(acts0: seq<Action>, n: int, l: Loop, word: seq<Kind>, k: nat) returns (acts: seq<Action>)
    requires At(acts0, n, CheckKill(l), word, k, false)
    ensures At(acts, n, MarkKilled(l, Look), word + [EvKilled], k, true)
  {
    acts := Requested(acts0, n, l, word, k);
    Step(acts, n, CheckKill(l), word, k, true, OK);
    acts := acts + [Advance(0, OK)];
    Step(acts, n, PubKilled(l), word, k, true, OK);
    acts := acts + [Advance(0, OK)];
  }

  lemma Requested(acts0: seq<Action>, n: int, l: Loop, word: seq<Kind>, k: nat) returns (acts: seq<Action>)
    requires At(acts0, n, CheckKill(l), word, k, false)
    ensures At(acts, n, CheckKill(l), word, k, true)
  {
    hide Exec;
    acts := acts0 + [Kill(1, "t")];
    ExecOne(CHOOSING, START, acts0, Kill(1, "t"));
    ExecOne(CHOOSING, START, acts, Advance(1, OK));
    acts := acts + [Advance(1, OK)];
    ExecOne(CHOOSING, START, acts, Advance(1, OK));
    acts := acts + [Advance(1, OK)];
    ExecOne(CHOOSING, START, acts, Advance(1, OK));
    acts := acts + [Advance(1, OK)];
  }

  lemma FlagSeen(acts: seq<Action>, n: int, pc: Pc, word: seq<Kind>, k: nat, kill: bool)
    requires At(acts, n, pc, word, k, kill)
    ensures Seen(Exec(CHOOSING, START, acts).store, "t") == Write(Some(kill))
  {
  }

  /** A handler runs to its end. */
  lemma Handler(acts0: seq<Action>, n: int, f: Fault, word: seq<Kind>, k: nat, kill: bool) returns (acts: seq<Action>, pc: Pc)
    requires At(acts0, n, MarkFailed(f, Look), word, k, kill)
    ensures At(acts, n, pc, word + [FaultKind(f)], k, kill) && pc.Record?
  {
    hide Exec, At;
    FlagSeen(acts0, n, MarkFailed(f, Look), word, k, kill);
    Step(acts0, n, MarkFailed(f, Look), word, k, kill, OK);
    acts := acts0 + [Advance(0, OK)];
    Step(acts, n, MarkFailed(f, Write(Some(kill))), word, k, kill, OK);
    acts := acts + [Advance(0, OK)];
    Step(acts, n, PubFailed(f), word, k, kill, OK);
    acts := acts + [Advance(0, OK)];
    pc := Record(Exit(FaultOutcome(f), map[], Some(f)));
  }

  /** A completed run records, marks the thread completed and publishes its end. */
  lemma Conclude(acts0: seq<Action>, n: int, x: Exit, word: seq<Kind>, k: nat) returns (acts: seq<Action>, pc: Pc)
    requires At(acts0, n, Record(x), word, k, false) && x.outcome == OutOk && x.raised == None
    ensures At(acts, n, pc, word + [EvEnd], k, false) && pc == Finished(Returned(x))
  {
    hide Exec, At;
    Step(acts0, n, Record(x), word, k, false, OK);
    acts := acts0 + [Advance(0, OK)];
    FlagSeen(acts, n, MarkCompleted(x, Look), word, k, false);
    Step(acts, n, MarkCompleted(x, Look), word, k, false, OK);
    acts := acts + [Advance(0, OK)];
    Step(acts, n, MarkCompleted(x, Write(Some(false))), word, k, false, OK);
    acts := acts + [Advance(0, OK)];
    Step(acts, n, PubEnd(x), word, k, false, OK);
    acts := acts + [Advance(0, OK)];
    pc := Finished(Returned(x));
  }

  // ---------------------------------------------------------------- main results

  /** The run has published this word so far. */
  ghost predicate Heard(cfg: Config, acts: seq<Action>, pid: Pid, n: int, word: seq<Kind>) {
    var w := Exec(cfg, START, acts);
    pid in w.procs && Passed(w.procs[pid]) && w.procs[pid].req.bound == n && KindsOf(w.store.events, w.procs[pid].req.id) == word
  }

  function FaultOf(closing: seq<Kind>): Fault {
    if closing == [EvError] then FaultError else FaultCancel
  }

  lemma Plainly(n: int, k: nat, closing: seq<Kind>) returns (acts: seq<Action>, pc: Pc)
    requires Allowed(k, false, false, closing) && k <= Bound(Req(n))
    ensures exists k', kill :: At(acts, n, pc, [EvStart] + Pairs(k) + closing, k', kill)
    ensures Passed(Run(Req(n), pc))
  {
    hide At, Exec, Pairs, Override, Resume;
    var start := [EvStart] + Pairs(k);
    if k == 0 {
      acts := Begin(n);
      pc := Load;
      NoPairs();
      if closing != [] {
        var m := Faulty(FaultOf(closing), false);
        Step(acts, n, Load, [EvStart], 0, false, m);
        acts, pc := Handler(acts + [Advance(0, m)], n, FaultOf(closing), [EvStart], 0, false);
      }
      assert start + closing == [EvStart] + closing;
      assert closing == [] ==> [EvStart] + closing == [EvStart];
    } else {
      var l;
      acts, l := ReachEnd(n, k, if closing == [EvEnd] then 1 else 0);
      var word := [EvStart] + Pairs(k - 1) + [EvStepStart];
      LastPair(k);
      var faulty := closing == [EvError] || closing == [EvCancelled];
      var m := if faulty then Faulty(FaultOf(closing), true) else OK;
      Step(acts, n, PubStepEnd(l), word, k, false, m);
      acts := acts + [Advance(0, m)];
      if faulty {
        acts, pc := Handler(acts, n, FaultOf(closing), start, k, false);
      } else if closing == [EvEnd] {
        acts, pc := Conclude(acts, n, Exit(OutOk, l.state, None), start, k);
      } else {
        pc := if IsComplete(l.state) then Record(Exit(OutOk, l.state, None)) else LoopHead(Req(n), Loop(l.state, l.parent, l.done + 1));
        assert start + closing == start;
      }
    }
  }

  lemma NoPairs()
    ensures Pairs(0) == []
  {
  }

  lemma LastPair(k: nat)
    requires k > 0
    ensures [EvStart] + Pairs(k) == [EvStart] + Pairs(k - 1) + [EvStepStart] + [EvStepEnd]
  {
  }

  lemma WhileDangling(n: int, k: nat, closing: seq<Kind>) returns (acts: seq<Action>, pc: Pc)
    requires Allowed(k, true, false, closing) && k < n
    ensures exists k', kill :: At(acts, n, pc, [EvStart] + Pairs(k) + [EvStepStart] + closing, k', kill)
    ensures Passed(Run(Req(n), pc))
  {
    hide At, Exec, Pairs;
    var l;
    acts, l := Reach(n, k);
    var word := [EvStart] + Pairs(k) + [EvStepStart];
    Announce(acts, n, l, [EvStart] + Pairs(k), k);
    acts, pc := acts + [Advance(0, OK)] + [Advance(0, OK)], CallStep(l);
    if closing != [] {
      Step(acts, n, CallStep(l), word, k, false, OK);
      acts := acts + [Advance(0, OK)];
      var m := Faulty(FaultOf(closing), false);
      Step(acts, n, InStep(l), word, k, false, m);
      acts, pc := Handler(acts + [Advance(0, m)], n, FaultOf(closing), word, k, false);
    }
    assert closing == [] ==> word + closing == word;
  }

  lemma WhenKilled(n: int, k: nat, closing: seq<Kind>) returns (acts: seq<Action>, pc: Pc)
    requires Allowed(k, false, true, closing) && k < n
    ensures exists k', kill :: At(acts, n, pc, [EvStart] + Pairs(k) + [EvKilled] + closing, k', kill)
    ensures Passed(Run(Req(n), pc))
  {
    hide At, Exec, Pairs;
    var l;
    acts, l := Reach(n, k);
    var word := [EvStart] + Pairs(k) + [EvKilled];
    acts := KillComes(acts, n, l, [EvStart] + Pairs(k), k);
    pc := MarkKilled(l, Look);
    if closing != [] {
      var m := Faulty(FaultOf(closing), false);
      Step(acts, n, MarkKilled(l, Look), word, k, true, m);
      acts, pc := Handler(acts + [Advance(0, m)], n, FaultOf(closing), word, k, true);
    }
    assert closing == [] ==> word + closing == word;
  }

  /** Every word of the language with no more iterations begun than the bound allows is published by
      some run: complete or cut short, killed, killed and then failed or cancelled. */
  lemma EveryWordHappens(n: int, k: nat, dangling: bool, killed: bool, closing: seq<Kind>) returns (acts: seq<Action>)
    requires Allowed(k, dangling, killed, closing) && Begun(k, dangling || killed) <= Bound(Req(n))
    ensures Heard(CHOOSING, acts, 0, n, Word(k, dangling, killed, closing))
  {
    hide Exec, Pairs, KindsOf;
    var pc;
    if dangling {
      acts, pc := WhileDangling(n, k, closing);
    } else if killed {
      acts, pc := WhenKilled(n, k, closing);
    } else {
      acts, pc := Plainly(n, k, closing);
    }
    var word := [EvStart] + Pairs(k) + (if dangling then [EvStepStart] else []) + (if killed then [EvKilled] else []) + closing;
    assert word == if dangling then [EvStart] + Pairs(k) + [EvStepStart] + closing
                   else if killed then [EvStart] + Pairs(k) + [EvKilled] + closing else [EvStart] + Pairs(k) + closing;
    var k', kill :| At(acts, n, pc, word, k', kill);
  }

  /** The language is exact: under some configuration and schedule a run with bound n has published just this
      non-empty word if and only if it is start, k pairs, then a dangling step.start or a killed or neither,
      then a last event or none, with at most n iterations begun. */
  lemma ExactLanguage(n: int, word: seq<Kind>)
    ensures (word != [] && exists cfg, acts, pid :: Heard(cfg, acts, pid, n, word))
       <==> exists k, d, kd, c :: Spells(word, k, d, kd, c) && Begun(k, d || kd) <= Bound(Req(n))
  {
    if word != [] && exists cfg, acts, pid :: Heard(cfg, acts, pid, n, word) {
      var cfg, acts, pid :| Heard(cfg, acts, pid, n, word);
      HeardIsSpelled(cfg, acts, pid, n, word);
    }
    if k, d, kd, c :| Spells(word, k, d, kd, c) && Begun(k, d || kd) <= Bound(Req(n)) {
      var acts := EveryWordHappens(n, k, d, kd, c);
      assert word[0] == EvStart;
    }
  }

  lemma HeardIsSpelled(cfg: Config, acts: seq<Action>, pid: Pid, n: int, word: seq<Kind>)
    requires word != [] && Heard(cfg, acts, pid, n, word)
    ensures exists k, d, kd, c :: Spells(word, k, d, kd, c) && Begun(k, d || kd) <= Bound(Req(n))
  {
    hide Exec, Spells, KindsOf;
    var w := Exec(cfg, START, acts);
    var id := w.procs[pid].req.id;
    EventLanguage(cfg, acts, id);
    RequestIdsUnique(cfg, acts);
    var p, k: nat, d, kd, c :| p in w.procs && Passed(w.procs[p]) && w.procs[p].req.id == id
      && Begun(k, d || kd) <= Bound(w.procs[p].req) && Spells(word, k, d, kd, c);
    assert p == pid;
  }
}
