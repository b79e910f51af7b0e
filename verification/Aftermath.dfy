/** The status a run leaves on its thread goes with the last event it published. */
module Aftermath {
  import opened Base
  import opened Store
  import opened Machine
  import opened AuditFirst
  import opened EventTrace
  import opened Accounting
  import opened Endings
  import opened ThreadStatus
  import Isolation

  /** Once an event has closed the run, the row of its thread says the same, with the flag it
      had; and a run that failed at one await only has been closed by its handler's event. */
  predicate Shown(pc: Pc, m: Mark, row: Option<ThreadRow>, kill: bool, failures: nat) {
    && (m.Closed? && m.how == EvError ==> row == Some(ThreadRow(Failed, kill)))
    && (m.Closed? && m.how == EvCancelled ==> row == Some(ThreadRow(Cancelled, kill)))
    && (m.Closed? && m.how == EvEnd ==> row == Some(ThreadRow(Completed, kill)))
    && (pc.Record? ==> ClosedBy(m, pc.exit, failures))
    && (pc.Finished? && pc.ending.Escaped? ==> ClosedBy(m, pc.ending.exit, failures))
  }

  predicate ClosedBy(m: Mark, x: Exit, failures: nat) {
    x.raised.Some? && failures == 1 ==>
      && m.Closed?
      && (x.outcome == OutError ==> m.how == EvError)
      && (x.outcome == OutCancelled ==> m.how == EvCancelled)
  }

  lemma DoneShown(cfg: Config, s: Store, req: Request, pc: Pc, mv: Move, m: Mark, outs: seq<Outcome>, found: Option<ThreadRow>, story: Story)
    requires !pc.Audit? && Accounts(req, pc, m, outs) && StatusAt(pc, RowOf(s, req.thread), found) && StoryAt(pc, story)
    requires Shown(pc, m, RowOf(s, req.thread), Flag(found), story.failures)
    ensures
      var op := RunOp(req, pc, mv);
      Shown(RunNext(cfg, s, req, pc, mv), MarkAfter(m, op, true), RowAfter(RowOf(s, req.thread), op, true), Flag(found), story.failures)
  {
    hide IsComplete, Override;
  }

  lemma FaultShown(req: Request, pc: Pc, mv: Move, f: Fault, lands: bool,
                   m: Mark, outs: seq<Outcome>, row: Option<ThreadRow>, found: Option<ThreadRow>, story: Story)
    requires !pc.Audit? && !pc.CallStep? && Accounts(req, pc, m, outs) && StatusAt(pc, row, found) && StoryAt(pc, story)
    requires Shown(pc, m, row, Flag(found), story.failures)
    ensures
      var op := RunOp(req, pc, mv);
      Shown(RunFault(pc, f), MarkAfter(m, op, lands), RowAfter(row, op, lands), Flag(found),
            if pc.Finished? then story.failures else story.failures + 1)
  {
    hide IsComplete;
  }

  /** The run's own step. */
  lemma StepShown(cfg: Config, s: Store, req: Request, pc: Pc, mv: Move, m: Mark, outs: seq<Outcome>, found: Option<ThreadRow>, story: Story)
    requires !pc.Audit? && Accounts(req, pc, m, outs) && StatusAt(pc, RowOf(s, req.thread), found) && StoryAt(pc, story)
    requires Shown(pc, m, RowOf(s, req.thread), Flag(found), story.failures)
    ensures
      var p := Run(req, pc);
      var op := OpOf(p, mv);
      var lands, fate := Lands(cfg, s, op, mv), Settle(cfg, s, op, mv);
      Shown(Proceed(cfg, s, p, mv).pc, MarkAfter(m, op, lands), RowOf(Perform(cfg, s, op, mv), req.thread), Flag(found),
            (if pc.Finished? then story else Retell(story, s, req, pc, fate)).failures)
  {
    hide Shown, Accounts, StatusAt, StoryAt, RunNext, RunFault, RunOp, MarkAfter, RowAfter, RowOf;
    var op := RunOp(req, pc, mv);
    var fate := Settle(cfg, s, op, mv);
    PerformRow(cfg, s, Run(req, pc), mv);
    if fate == Done {
      DoneShown(cfg, s, req, pc, mv, m, outs, found, story);
    } else {
      CallReturns(cfg, s, req, pc, mv);
      FaultShown(req, pc, mv, ToFault(fate), Lands(cfg, s, op, mv), m, outs, RowOf(s, req.thread), found, story);
    }
  }

  lemma CallReturns(cfg: Config, s: Store, req: Request, pc: Pc, mv: Move)
    ensures pc.CallStep? ==> Settle(cfg, s, RunOp(req, pc, mv), mv) == Done
  {
  }

  /** The run `pid` of the world after `acts`, which found the row `found`. */
  ghost predicate ShownIn(cfg: Config, acts: seq<Action>, pid: Pid, req: Request, found: Option<ThreadRow>) {
    var w := Exec(cfg, START, acts);
    pid in w.procs && w.procs[pid].Run? && w.procs[pid].req == req
    && (Passed(w.procs[pid]) ==>
          Shown(w.procs[pid].pc, MarkOf(w.store.events, req.id), RowOf(w.store, req.thread), Flag(found), StoryOf(cfg, acts, pid).failures))
  }

  lemma StoryAppend(cfg: Config, acts: seq<Action>, a: Action, pid: Pid)
    ensures
      var w, story := Exec(cfg, START, acts), StoryOf(cfg, acts, pid);
      StoryOf(cfg, acts + [a], pid)
        == if Awaits(w, a, pid) then
             Retell(story, w.store, w.procs[pid].req, w.procs[pid].pc, Settle(cfg, w.store, OpOf(w.procs[pid], a.move), a.move))
           else story
  {
    assert (acts + [a])[..|acts|] == acts;
  }

  lemma OwnShown(cfg: Config, acts: seq<Action>, a: Action, pid: Pid, req: Request, found: Option<ThreadRow>)
    requires ShownIn(cfg, acts, pid, req, found) && Left(Exec(cfg, START, acts), pid, req, found)
    requires a.Advance? && a.pid == pid
    ensures ShownIn(cfg, acts + [a], pid, req, found)
  {
    hide Shown, StatusAt, StoryAt, Perform, Proceed, OpOf, Accounts, RowOf, Read, OutsAfter, Retell, Settle, Exec, StoryOf, KindsOf,
      TablesCovered, Lands, HasRow, OutcomesOf;
    var w := Exec(cfg, START, acts);
    var p := w.procs[pid];
    ExecOne(cfg, START, acts, a);
    StoryAppend(cfg, acts, a, pid);
    AccountsAlways(cfg, acts);
    StoryAlways(cfg, acts, pid);
    AuditAlways(cfg, acts);
    Isolation.ProceedKeepsThread(cfg, w.store, p, a.move);
    if p.pc.Audit? {
      GateShown(cfg, w.store, p, a.move, found, StoryOf(cfg, acts + [a], pid));
    } else if Passed(p) {
      assert RunAccounts(w.store, p);
      PerformAccounts(cfg, w.store, OpOf(p, a.move), a.move, req.id);
      OpIsOwn(p, a.move);
      StepShown(cfg, w.store, req, p.pc, a.move, MarkOf(w.store.events, req.id), OutcomesOf(w.store.metrics, req.id), found, StoryOf(cfg, acts, pid));
      if p.pc.Finished? {
        FinishedStays(cfg, w.store, p, a.move);
      }
    } else {
      UnpassedStays(cfg, w.store, p, a.move);
    }
  }

  lemma FinishedStays(cfg: Config, s: Store, p: Proc, m: Move)
    requires p.Run? && p.pc.Finished?
    ensures Proceed(cfg, s, p, m) == p && Perform(cfg, s, OpOf(p, m), m) == s
  {
  }

  lemma GateShown(cfg: Config, s: Store, p: Proc, mv: Move, found: Option<ThreadRow>, story: Story)
    requires TablesCovered(s) && p.Run? && p.pc.Audit?
    ensures
      var s', p' := Perform(cfg, s, OpOf(p, mv), mv), Proceed(cfg, s, p, mv);
      Passed(p') ==> Shown(p'.pc, MarkOf(s'.events, p.req.id), RowOf(s', p.req.thread), Flag(found), story.failures)
  {
    if Settle(cfg, s, OpOf(p, mv), mv) == Done {
      UnauditedIsSilent(s, p.req.id);
      PerformAccounts(cfg, s, OpOf(p, mv), mv, p.req.id);
    }
  }

  lemma OtherShown(cfg: Config, acts: seq<Action>, a: Action, pid: Pid, req: Request, found: Option<ThreadRow>)
    requires ShownIn(cfg, acts, pid, req, found) && !(a.Advance? && a.pid == pid)
    requires a.Advance? && a.pid in Exec(cfg, START, acts).procs ==> ThreadOf(Exec(cfg, START, acts).procs[a.pid]) != req.thread
    ensures ShownIn(cfg, acts + [a], pid, req, found)
  {
    hide Shown, Perform, Proceed, OpOf, Retell, Settle, RowOf, DistinctIds;
    var w := Exec(cfg, START, acts);
    ExecOne(cfg, START, acts, a);
    assert (acts + [a])[..|acts|] == acts;
    RequestIdsUnique(cfg, acts);
    if a.Advance? && a.pid in w.procs {
      var q := w.procs[a.pid];
      OtherThreadKeepsRow(cfg, w.store, q, a.move, req.thread);
      PerformAccounts(cfg, w.store, OpOf(q, a.move), a.move, req.id);
      OpIsOwn(q, a.move);
    }
  }

  lemma {:induction false} ShownAlways(cfg: Config, pre: seq<Action>, acts: seq<Action>, pid: Pid, req: Request)
    requires
      var w := Exec(cfg, START, pre);
      pid in w.procs && w.procs[pid] == Run(req, Audit) && Alone(cfg, w, acts, req.thread, pid)
    ensures ShownIn(cfg, pre + acts, pid, req, RowOf(Exec(cfg, START, pre).store, req.thread))
  {
    hide Shown, StatusAt, Exec, RowOf;
    var w := Exec(cfg, START, pre);
    if acts == [] {
      assert pre + acts == pre;
    } else {
      var front, a := acts[..|acts| - 1], Last(acts);
      ShownAlways(cfg, pre, front, pid, req);
      ExecAppend(cfg, START, pre, front);
      assert pre + acts == pre + front + [a];
      if a.Advance? && a.pid == pid {
        LeftAlways(cfg, w, front, pid, req);
        OwnShown(cfg, pre + front, a, pid, req, RowOf(w.store, req.thread));
      } else {
        OtherShown(cfg, pre + front, a, pid, req, RowOf(w.store, req.thread));
      }
    }
  }

  // ---------------------------------------------------------------- main results

  /** A closing event is the mark of its word. */
  lemma {:induction false} ClosingIsMark(word: seq<Kind>, e: Kind)
    requires ReadAll(word) != Wrong && e in word && (e == EvError || e == EvCancelled || e == EvEnd)
    ensures ReadAll(word).Closed? && ReadAll(word).how == e
  {
    var front := word[..|word| - 1];
    if Last(word) != e {
      assert e in front;
      ClosingIsMark(front, e);
    }
  }

  /** Take a run that no other process of its thread disturbs. Once its error event is published its
      thread's row says `error`, once its cancelled event is, `cancelled`, once its end event is, `completed`,
      each with the flag the run found. If it failed at one await only, so that its handler went
      through, and raised, the row says `error` or `cancelled` by its outcome. */
  lemma StatusGoesWithEvent(cfg: Config, pre: seq<Action>, acts: seq<Action>, pid: Pid, req: Request)
    requires
      var w := Exec(cfg, START, pre);
      pid in w.procs && w.procs[pid] == Run(req, Audit) && Alone(cfg, w, acts, req.thread, pid)
    requires
      var w' := Exec(cfg, Exec(cfg, START, pre), acts);
      pid in w'.procs && Passed(w'.procs[pid])
    ensures
      var w, w' := Exec(cfg, START, pre), Exec(cfg, Exec(cfg, START, pre), acts);
      var kinds, pc, t := KindsOf(w'.store.events, req.id), w'.procs[pid].pc, req.thread;
      var flag := t in w.store.threads && w.store.threads[t].kill;
      && (EvError in kinds ==> t in w'.store.threads && w'.store.threads[t] == ThreadRow(Failed, flag))
      && (EvCancelled in kinds ==> t in w'.store.threads && w'.store.threads[t] == ThreadRow(Cancelled, flag))
      && (EvEnd in kinds ==> t in w'.store.threads && w'.store.threads[t] == ThreadRow(Completed, flag))
      && (pc.Finished? && pc.ending.Escaped? && StoryOf(cfg, pre + acts, pid).failures == 1 ==>
            && t in w'.store.threads
            && w'.store.threads[t] == ThreadRow(if pc.ending.exit.outcome == OutError then Failed else Cancelled, flag))
  {
    hide Exec, KindsOf, StatusAt, Alone;
    ShownAlways(cfg, pre, acts, pid, req);
    ExecAppend(cfg, START, pre, acts);
    var w' := Exec(cfg, START, pre + acts);
    var p := w'.procs[pid];
    AccountsAlways(cfg, pre + acts);
    assert RunAccounts(w'.store, p);
    AccountsWithin(req, p.pc, MarkOf(w'.store.events, req.id), OutcomesOf(w'.store.metrics, req.id));
    var kinds := KindsOf(w'.store.events, req.id);
    if EvError in kinds { ClosingIsMark(kinds, EvError); }
    if EvCancelled in kinds { ClosingIsMark(kinds, EvCancelled); }
    if EvEnd in kinds { ClosingIsMark(kinds, EvEnd); }
    if p.pc.Finished? && p.pc.ending.Escaped? {
      EscapedFailed(req, p.pc, MarkOf(w'.store.events, req.id), OutcomesOf(w'.store.metrics, req.id));
    }
  }

  lemma EscapedFailed(req: Request, pc: Pc, m: Mark, outs: seq<Outcome>)
    requires Accounts(req, pc, m, outs) && pc.Finished? && pc.ending.Escaped?
    ensures pc.ending.exit.raised.Some? && (pc.ending.exit.outcome == OutError || pc.ending.exit.outcome == OutCancelled)
  {
  }
}
