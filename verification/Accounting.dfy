/** What the event bus and the metrics table say about each run: the events of a run
    form an allowed word, and its metrics row tells how its loop ended. */
module Accounting {
  import opened Base
  import opened Store
  import opened Machine
  import opened AuditFirst
  import opened EventTrace

  /** The outcomes of the metrics rows that carry a request id. */
  function OutcomesOf(rows: seq<Metric>, request: Id): seq<Outcome> {
    if rows == [] then []
    else
      var front := OutcomesOf(rows[..|rows| - 1], request);
      if Last(rows).request == request then front + [Last(rows).outcome] else front
  }

  function Bound(req: Request): nat {
    if req.bound < 0 then 0 else req.bound
  }

  /** The loop has not ended and no terminal event is out; at most `n` pairs. */
  predicate Open(m: Mark, n: nat) {
    match m
    case Between(k) => k <= n
    case Dangling(k) => k < n
    case Stopped(k) => k < n
    case _ => false
  }

  /** Iterations begun: the finished ones and the one that was cut short. */
  function Begun(k: nat, cut: bool): nat {
    if cut then k + 1 else k
  }

  /** A handler ran: whatever the loop had published, possibly closed by the handler's event. */
  predicate Handled(m: Mark, n: nat, f: Fault) {
    Open(m, n) || (m.Closed? && Begun(m.k, m.cut) <= n && m.how == FaultKind(f))
  }

  /** How the loop ended, as the event bus shows it, for each recorded outcome. */
  predicate Ended(m: Mark, outcome: Outcome, n: nat) {
    match outcome
    case OutOk => m.Between? && 1 <= m.k <= n
    case OutKilled => m.Stopped? && m.k < n
    case OutMaxSteps => m == Between(n)
    case OutError => Handled(m, n, FaultError)
    case OutCancelled => Handled(m, n, FaultCancel)
  }

  /** Closed by the end event after at least one finished iteration. */
  predicate AtEnd(m: Mark, n: nat) {
    m.Closed? && !m.cut && 1 <= m.k <= n && m.how == EvEnd
  }

  predicate Plain(outcome: Outcome) {
    outcome == OutOk || outcome == OutKilled || outcome == OutMaxSteps
  }

  /** `ok` is only said of a complete state, and an exception is on its way out exactly
      where the outcome is `error` or `cancelled`. */
  predicate Truthful(x: Exit) {
    (x.outcome == OutOk ==> IsComplete(x.state)) && (x.raised.None? <==> Plain(x.outcome))
  }

  /** The marks and metrics that go with each program counter. */
  predicate Accounts(req: Request, pc: Pc, m: Mark, outs: seq<Outcome>) {
    var n := Bound(req);
    match pc
    case Audit => true
    case MarkRunning(_) => m == Nothing && outs == []
    case PubStart => m == Nothing && outs == []
    case Load => m == Between(0) && outs == []
    case CheckKill(l) => m == Between(l.done) && l.done < n && outs == []
    case PubKilled(l) => m == Between(l.done) && l.done < n && outs == []
    case PubStepStart(l) => m == Between(l.done) && l.done < n && outs == []
    case MarkKilled(l, _) => m == Stopped(l.done) && l.done < n && outs == []
    case CallStep(l) => m == Dangling(l.done) && l.done < n && outs == []
    case InStep(l) => m == Dangling(l.done) && l.done < n && outs == []
    case Put(l, _) => m == Dangling(l.done) && l.done < n && outs == []
    case PubStepEnd(l) => m == Dangling(l.done) && l.done < n && outs == []
    case MarkFailed(_, _) => Open(m, n) && outs == []
    case PubFailed(_) => Open(m, n) && outs == []
    case Record(x) => Truthful(x) && Ended(m, x.outcome, n) && outs == []
    case MarkCompleted(x, _) => Truthful(x) && x.outcome == OutOk && Ended(m, OutOk, n) && outs == [OutOk]
    case PubEnd(x) => Truthful(x) && x.outcome == OutOk && Ended(m, OutOk, n) && outs == [OutOk]
    case Finished(e) =>
      match e
      case Refused(_) => true
      case Aborted(_) => (m == Nothing || m == Between(0)) && outs == []
      case Unrecorded(x, _) => Truthful(x) && Ended(m, x.outcome, n) && (outs == [] || outs == [x.outcome])
      case Escaped(x) => Truthful(x) && !Plain(x.outcome) && Ended(m, x.outcome, n) && outs == [x.outcome]
      case Unfinished(x, _) =>
        Truthful(x) && x.outcome == OutOk && outs == [OutOk]
        && (Ended(m, OutOk, n) || AtEnd(m, n))
      case Returned(x) =>
        Truthful(x) && Plain(x.outcome) && outs == [x.outcome]
        && (if x.outcome == OutOk then AtEnd(m, n) else Ended(m, x.outcome, n))
  }

  /** The mark and outcomes of a run after its next operation. */
  function MarkAfter(m: Mark, op: Op, lands: bool): Mark {
    if op.Publish? && lands then Read(m, op.event.kind) else m
  }

  function OutsAfter(outs: seq<Outcome>, op: Op, lands: bool): seq<Outcome> {
    if op.InsertMetric? && lands then outs + [op.metric.outcome] else outs
  }

  /** The program counters of the loop body. */
  predicate Looping(pc: Pc) {
    pc.CheckKill? || pc.PubKilled? || pc.MarkKilled? || pc.PubStepStart? || pc.CallStep? || pc.InStep? || pc.Put?
    || pc.PubStepEnd?
  }

  /** The program counters up to the loop. */
  predicate Preparing(pc: Pc) {
    pc.Audit? || pc.MarkRunning? || pc.PubStart? || pc.Load?
  }

  lemma PrepareAccounts(cfg: Config, s: Store, req: Request, pc: Pc, mv: Move, m: Mark, outs: seq<Outcome>)
    requires Preparing(pc) && Accounts(req, pc, m, outs) && (pc.Audit? ==> m == Nothing && outs == [])
    ensures
      var op := RunOp(req, pc, mv);
      Accounts(req, RunNext(cfg, s, req, pc, mv), MarkAfter(m, op, true), OutsAfter(outs, op, true))
  {
    hide Handled, AtEnd, Override;
  }

  lemma LoopAccounts(cfg: Config, s: Store, req: Request, pc: Pc, mv: Move, m: Mark, outs: seq<Outcome>)
    requires Looping(pc) && Accounts(req, pc, m, outs)
    ensures
      var op := RunOp(req, pc, mv);
      Accounts(req, RunNext(cfg, s, req, pc, mv), MarkAfter(m, op, true), OutsAfter(outs, op, true))
  {
    hide Handled, AtEnd;
  }

  lemma AfterLoopAccounts(cfg: Config, s: Store, req: Request, pc: Pc, mv: Move, m: Mark, outs: seq<Outcome>)
    requires !Preparing(pc) && !Looping(pc) && Accounts(req, pc, m, outs)
    ensures
      var op := RunOp(req, pc, mv);
      Accounts(req, RunNext(cfg, s, req, pc, mv), MarkAfter(m, op, true), OutsAfter(outs, op, true))
  {
    hide IsComplete;
  }

  lemma DoneAccounts(cfg: Config, s: Store, req: Request, pc: Pc, mv: Move, m: Mark, outs: seq<Outcome>)
    requires Accounts(req, pc, m, outs) && (pc.Audit? ==> m == Nothing && outs == [])
    ensures
      var op := RunOp(req, pc, mv);
      Accounts(req, RunNext(cfg, s, req, pc, mv), MarkAfter(m, op, true), OutsAfter(outs, op, true))
  {
    hide Accounts, RunNext, RunOp, MarkAfter, OutsAfter;
    if Preparing(pc) {
      PrepareAccounts(cfg, s, req, pc, mv, m, outs);
    } else if Looping(pc) {
      LoopAccounts(cfg, s, req, pc, mv, m, outs);
    } else {
      AfterLoopAccounts(cfg, s, req, pc, mv, m, outs);
    }
  }

  lemma FaultAccounts(req: Request, pc: Pc, mv: Move, f: Fault, m: Mark, outs: seq<Outcome>, lands: bool)
    requires Accounts(req, pc, m, outs) && !pc.CallStep?
    ensures
      var op := RunOp(req, pc, mv);
      Accounts(req, RunFault(pc, f), MarkAfter(m, op, lands), OutsAfter(outs, op, lands))
  {
  }

  lemma RunKeepsAccounts(cfg: Config, s: Store, req: Request, pc: Pc, mv: Move, m: Mark, outs: seq<Outcome>)
    requires Accounts(req, pc, m, outs)
    requires pc.Audit? ==> m == Nothing && outs == []
    ensures
      var p := Run(req, pc);
      var op := OpOf(p, mv);
      var lands := Lands(cfg, s, op, mv);
      Accounts(req, Proceed(cfg, s, p, mv).pc, MarkAfter(m, op, lands), OutsAfter(outs, op, lands))
  {
    var op := RunOp(req, pc, mv);
    if Settle(cfg, s, op, mv) == Done {
      DoneAccounts(cfg, s, req, pc, mv, m, outs);
    } else {
      FaultAccounts(req, pc, mv, ToFault(Settle(cfg, s, op, mv)), m, outs, Lands(cfg, s, op, mv));
    }
  }

  lemma OutcomesAppend(rows: seq<Metric>, r: Metric, request: Id)
    ensures OutcomesOf(rows + [r], request)
         == if r.request == request then OutcomesOf(rows, request) + [r.outcome] else OutcomesOf(rows, request)
  {
    assert (rows + [r])[..|rows|] == rows;
  }

  lemma {:induction false} NoMetricsNoOutcome(rows: seq<Metric>, request: Id)
    requires forall r :: r in rows ==> r.request != request
    ensures OutcomesOf(rows, request) == []
  {
    if rows != [] {
      NoMetricsNoOutcome(rows[..|rows| - 1], request);
    }
  }

  /** Only the run's own publishes and metrics move its mark and its outcomes. */
  lemma PerformAccounts(cfg: Config, s: Store, op: Op, mv: Move, request: Id)
    ensures
      var s' := Perform(cfg, s, op, mv);
      var lands := Lands(cfg, s, op, mv);
      && MarkOf(s'.events, request)
         == (if op.Publish? && op.event.request == request then MarkAfter(MarkOf(s.events, request), op, lands)
             else MarkOf(s.events, request))
      && OutcomesOf(s'.metrics, request)
         == (if op.InsertMetric? && op.metric.request == request then OutsAfter(OutcomesOf(s.metrics, request), op, lands)
             else OutcomesOf(s.metrics, request))
  {
    if op.Publish? {
      MarkAppend(s.events, op.event, request);
    }
    if op.InsertMetric? {
      OutcomesAppend(s.metrics, op.metric, request);
    }
  }

  ghost predicate RunAccounts(s: Store, p: Proc) {
    Passed(p) ==> Accounts(p.req, p.pc, MarkOf(s.events, p.req.id), OutcomesOf(s.metrics, p.req.id))
  }

  ghost predicate AllAccount(w: World) {
    forall pid :: pid in w.procs ==> RunAccounts(w.store, w.procs[pid])
  }

  /** Every published event and metrics row belongs to a run whose audit insert returned. */
  ghost predicate AllOwned(w: World) {
    && (forall e :: e in w.store.events ==> Owned(w, e.request))
    && (forall r :: r in w.store.metrics ==> Owned(w, r.request))
  }

  ghost predicate Owned(w: World, request: Id) {
    exists pid :: pid in w.procs && Passed(w.procs[pid]) && w.procs[pid].req.id == request
  }

  /** Before its audit row exists a request id has no events and no metrics. */
  lemma UnauditedIsSilent(s: Store, request: Id)
    requires TablesCovered(s) && !AuditHas(s.audit, request)
    ensures MarkOf(s.events, request) == Nothing && OutcomesOf(s.metrics, request) == []
  {
    forall id, t | Covered(s.audit, id, t) ensures id != request {
      var r :| r in s.audit && r.id == id && r.thread == t;
      var i :| 0 <= i < |s.audit| && s.audit[i] == r;
    }
    NoEventsNoMark(s.events, request);
    NoMetricsNoOutcome(s.metrics, request);
  }

  /** A process publishes and records only under its own request id, and only once passed. */
  lemma OpIsOwn(p: Proc, mv: Move)
    ensures var op := OpOf(p, mv);
      && (op.Publish? ==> Passed(p) && op.event.request == p.req.id)
      && (op.InsertMetric? ==> Passed(p) && op.metric.request == p.req.id)
  {
  }

  lemma OwnRunAccounts(cfg: Config, s: Store, p: Proc, mv: Move)
    requires TablesCovered(s) && RunAccounts(s, p)
    ensures RunAccounts(Perform(cfg, s, OpOf(p, mv), mv), Proceed(cfg, s, p, mv))
  {
    if p.Run? && p.pc.Audit? {
      AuditAccounts(cfg, s, p, mv);
    } else if Passed(p) {
      hide Accounts, Rejects, Apply, RunFault, RunNext;
      PerformAccounts(cfg, s, OpOf(p, mv), mv, p.req.id);
      OpIsOwn(p, mv);
      RunKeepsAccounts(cfg, s, p.req, p.pc, mv, MarkOf(s.events, p.req.id), OutcomesOf(s.metrics, p.req.id));
    } else {
      UnpassedStays(cfg, s, p, mv);
    }
  }

  lemma UnpassedStays(cfg: Config, s: Store, p: Proc, mv: Move)
    requires !Passed(p) && !(p.Run? && p.pc.Audit?)
    ensures !Passed(Proceed(cfg, s, p, mv))
  {
  }

  lemma AuditAccounts(cfg: Config, s: Store, p: Proc, mv: Move)
    requires TablesCovered(s) && p.Run? && p.pc.Audit?
    ensures RunAccounts(Perform(cfg, s, OpOf(p, mv), mv), Proceed(cfg, s, p, mv))
  {
    PerformAccounts(cfg, s, OpOf(p, mv), mv, p.req.id);
    if Settle(cfg, s, OpOf(p, mv), mv) == Done {
      UnauditedIsSilent(s, p.req.id);
    }
  }

  lemma DoKeepsAccounts(cfg: Config, w: World, a: Action)
    requires AuditInv(w) && IdInv(w) && AllAccount(w)
    ensures AllAccount(Do(cfg, w, a))
  {
    var w' := Do(cfg, w, a);
    if a.Advance? && a.pid in w.procs {
      var p := w.procs[a.pid];
      OwnRunAccounts(cfg, w.store, p, a.move);
      OpIsOwn(p, a.move);
      forall j | j in w'.procs && j != a.pid ensures RunAccounts(w'.store, w'.procs[j]) {
        if Passed(w.procs[j]) {
          PerformAccounts(cfg, w.store, OpOf(p, a.move), a.move, w.procs[j].req.id);
        }
      }
    }
  }

  lemma PassedStays(cfg: Config, s: Store, p: Proc, m: Move)
    requires Passed(p)
    ensures Passed(Proceed(cfg, s, p, m)) && Proceed(cfg, s, p, m).req == p.req
  {
  }

  lemma DoKeepsOwned(cfg: Config, w: World, a: Action)
    requires AllOwned(w)
    ensures AllOwned(Do(cfg, w, a))
  {
    hide OpOf, Proceed, Rejects;
    var w' := Do(cfg, w, a);
    forall request | Owned(w, request) ensures Owned(w', request) {
      OwnedStays(cfg, w, a, request);
    }
    if a.Advance? && a.pid in w.procs {
      OpIsOwn(w.procs[a.pid], a.move);
      if Passed(w.procs[a.pid]) {
        assert Owned(w, w.procs[a.pid].req.id);
      }
    }
  }

  lemma OwnedStays(cfg: Config, w: World, a: Action, request: Id)
    requires Owned(w, request)
    ensures Owned(Do(cfg, w, a), request)
  {
    hide OpOf, Proceed, Perform;
    var w' := Do(cfg, w, a);
    var pid :| pid in w.procs && Passed(w.procs[pid]) && w.procs[pid].req.id == request;
    if a.Advance? && a.pid == pid {
      PassedStays(cfg, w.store, w.procs[pid], a.move);
    }
    assert pid in w'.procs && Passed(w'.procs[pid]) && w'.procs[pid].req.id == request;
  }

  lemma {:induction false} AccountsAlways(cfg: Config, acts: seq<Action>)
    ensures AllAccount(Exec(cfg, START, acts)) && AllOwned(Exec(cfg, START, acts))
  {
    if acts != [] {
      var front := acts[..|acts| - 1];
      AccountsAlways(cfg, front);
      AuditAlways(cfg, front);
      RequestIdsUnique(cfg, front);
      DoKeepsAccounts(cfg, Exec(cfg, START, front), Last(acts));
      DoKeepsOwned(cfg, Exec(cfg, START, front), Last(acts));
    }
  }

  // ---------------------------------------------------------------- main results

  /** A mark that is not Wrong comes from a word of the language. */
  lemma MarkSpells(word: seq<Kind>) returns (k: nat, dangling: bool, killed: bool, closing: seq<Kind>)
    requires ReadAll(word) != Wrong && word != []
    ensures Spells(word, k, dangling, killed, closing)
    ensures ReadAll(word) == WordMark(k, dangling, killed, closing)
  {
    AcceptedIffSpelled(word);
    k, dangling, killed, closing :| Spells(word, k, dangling, killed, closing);
    WordsRead(k, dangling, killed, closing);
  }

  predicate MarkWithin(m: Mark, n: nat) {
    match m
    case Nothing => true
    case Between(k) => k <= n
    case Dangling(k) => k < n
    case Stopped(k) => k < n
    case Closed(k, cut, _) => Begun(k, cut) <= n
    case Wrong => false
  }

  lemma AccountsWithin(req: Request, pc: Pc, m: Mark, outs: seq<Outcome>)
    requires Accounts(req, pc, m, outs) && !pc.Audit? && !IsRefused(pc)
    ensures MarkWithin(m, Bound(req)) && |outs| <= 1
    ensures m.Closed? && m.how == EvEnd ==> outs == [OutOk]
  {
  }

  /** The events of every request, under every schedule, are a prefix of: start, k pairs of
      step.start and step.end, a dangling step.start or a killed, a last event; with at most as
      many iterations begun as the bound of the run. An end event is only there once `ok` has been recorded. */
  lemma EventLanguage(cfg: Config, acts: seq<Action>, request: Id)
    requires KindsOf(Exec(cfg, START, acts).store.events, request) != []
    ensures
      var w := Exec(cfg, START, acts);
      var word := KindsOf(w.store.events, request);
      exists pid, k: nat, d, kd, c :: pid in w.procs && Passed(w.procs[pid]) && w.procs[pid].req.id == request
        && Begun(k, d || kd) <= Bound(w.procs[pid].req) && Spells(word, k, d, kd, c)
        && (c == [EvEnd] ==> OutcomesOf(w.store.metrics, request) == [OutOk])
  {
    var w := Exec(cfg, START, acts);
    AccountsAlways(cfg, acts);
    if !Owned(w, request) {
      NoEventsNoMark(w.store.events, request);
      assert false;
    }
    var pid :| pid in w.procs && Passed(w.procs[pid]) && w.procs[pid].req.id == request;
    var p := w.procs[pid];
    assert RunAccounts(w.store, p);
    AccountsWithin(p.req, p.pc, MarkOf(w.store.events, request), OutcomesOf(w.store.metrics, request));
    var k, d, kd, c := MarkSpells(KindsOf(w.store.events, request));
    assert Begun(k, d || kd) <= Bound(p.req) && Spells(KindsOf(w.store.events, request), k, d, kd, c);
  }

  /** What the events of a run look like when its metrics row says `outcome`. */
  predicate TellsEnd(outcome: Outcome, n: nat, k: nat, dangling: bool, killed: bool, closing: seq<Kind>) {
    match outcome
    case OutOk => 1 <= k <= n && !dangling && !killed && (closing == [] || closing == [EvEnd])
    case OutKilled => k < n && killed && closing == []
    case OutMaxSteps => k == n && !dangling && !killed && closing == []
    case OutError => Begun(k, dangling || killed) <= n && (closing == [] || closing == [EvError])
    case OutCancelled => Begun(k, dangling || killed) <= n && (closing == [] || closing == [EvCancelled])
  }

  lemma AccountsTell(req: Request, pc: Pc, m: Mark, outs: seq<Outcome>)
    requires Accounts(req, pc, m, outs) && !pc.Audit? && !IsRefused(pc) && outs != []
    ensures |outs| == 1 && m != Nothing
    ensures ShowsEnd(m, outs[0], Bound(req))
  {
  }

  /** Ended, or closed by the end event. */
  predicate ShowsEnd(m: Mark, outcome: Outcome, n: nat) {
    Ended(m, outcome, n) || (outcome == OutOk && AtEnd(m, n))
  }

  lemma EndSpells(word: seq<Kind>, outcome: Outcome, n: nat) returns (k: nat, dangling: bool, killed: bool, closing: seq<Kind>)
    requires ShowsEnd(ReadAll(word), outcome, n) && word != [] && ReadAll(word) != Nothing
    ensures Spells(word, k, dangling, killed, closing) && TellsEnd(outcome, n, k, dangling, killed, closing)
  {
    k, dangling, killed, closing := MarkSpells(word);
  }

  /** Every metrics row is the only one of its request, and agrees with the events of the
      run on how the loop ended, wherever faults struck. */
  lemma MetricsTellTheEnd(cfg: Config, acts: seq<Action>, row: Metric)
    requires row in Exec(cfg, START, acts).store.metrics
    ensures
      var w := Exec(cfg, START, acts);
      && OutcomesOf(w.store.metrics, row.request) == [row.outcome]
      && exists pid, k: nat, d, kd, c :: pid in w.procs && Passed(w.procs[pid]) && w.procs[pid].req.id == row.request
           && Spells(KindsOf(w.store.events, row.request), k, d, kd, c)
           && TellsEnd(row.outcome, Bound(w.procs[pid].req), k, d, kd, c)
  {
    var w := Exec(cfg, START, acts);
    AccountsAlways(cfg, acts);
    assert Owned(w, row.request);
    var pid :| pid in w.procs && Passed(w.procs[pid]) && w.procs[pid].req.id == row.request;
    var p := w.procs[pid];
    assert RunAccounts(w.store, p);
    RowHasOutcome(w.store.metrics, row);
    var outs := OutcomesOf(w.store.metrics, row.request);
    var word := KindsOf(w.store.events, row.request);
    AccountsTell(p.req, p.pc, ReadAll(word), outs);
    assert outs == [row.outcome] && word != [];
    var k, d, kd, c := EndSpells(word, row.outcome, Bound(p.req));
    assert Spells(word, k, d, kd, c) && TellsEnd(row.outcome, Bound(p.req), k, d, kd, c);
  }

  lemma {:induction false} RowHasOutcome(rows: seq<Metric>, row: Metric)
    requires row in rows
    ensures row.outcome in OutcomesOf(rows, row.request)
  {
    var front := rows[..|rows| - 1];
    if Last(rows) == row {
      assert Last(OutcomesOf(rows, row.request)) == row.outcome;
    } else {
      RowHasOutcome(front, row);
    }
  }

  /** One metrics row for each run that got through the try block and recorded, none for a
      run stopped before it, and at most one where the metrics insert itself did not return. */
  lemma MetricsOncePerRun(cfg: Config, acts: seq<Action>, pid: Pid)
    requires
      var w := Exec(cfg, START, acts);
      pid in w.procs && Passed(w.procs[pid]) && w.procs[pid].pc.Finished?
    ensures
      var w := Exec(cfg, START, acts);
      var outs := OutcomesOf(w.store.metrics, w.procs[pid].req.id);
      match w.procs[pid].pc.ending
      case Refused(_) => true
      case Aborted(_) => outs == []
      case Unrecorded(x, _) => outs == [] || outs == [x.outcome]
      case Escaped(x) => outs == [x.outcome] && (x.outcome == OutError || x.outcome == OutCancelled)
      case Unfinished(x, _) => outs == [OutOk]
      case Returned(x) =>
        outs == [x.outcome] && x.outcome != OutError && x.outcome != OutCancelled
        && (x.outcome == OutOk ==> IsComplete(x.state))
  {
    AccountsAlways(cfg, acts);
    var w := Exec(cfg, START, acts);
    assert RunAccounts(w.store, w.procs[pid]);
  }
}
