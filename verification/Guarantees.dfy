/** What the machine's theorems say about the running code: the stores of a valid event
    loop, and the reply of `invoke`. */
module Guarantees {
  import opened Base
  import opened Store
  import opened Machine
  import opened AuditFirst
  import opened EventTrace
  import opened Accounting
  import opened Completion
  import opened Endings
  import opened Counting
  import opened History
  import Announcements
  import opened EventLoops
  import opened Supervisors

  /** Whatever the code has done so far and whatever interfered: everything on the bus and in
      the tables is audited, request ids are unique, every run accounts for its events and
      metrics, and the checkpoint history is an explained forest. */
  lemma StoresAreSafe(loop: EventLoop)
    requires loop.Valid()
    ensures
      var w := World(loop.Now(), loop.procs);
      AuditInv(w) && IdInv(w) && AllAccount(w) && AllOwned(w) && AllCount(w) && HistoryInv(loop.cfg, w) && Announced(w.store)
  {
    AuditAlways(loop.cfg, loop.trace);
    RequestIdsUnique(loop.cfg, loop.trace);
    AccountsAlways(loop.cfg, loop.trace);
    CountsAlways(loop.cfg, loop.trace);
    HistoryAlways(loop.cfg, loop.trace);
    AnnouncedAlways(loop.cfg, loop.trace);
  }

  /** A result that `invoke` returns is on record: its request was audited, its one metrics
      row carries the outcome it reports, `ok` comes with a complete state and a published
      end event, and `killed` with a published killed event. */
  lemma ReplyIsOnRecord(loop: EventLoop, pid: Pid, req: Request, reply: Reply)
    requires loop.Valid() && pid in loop.procs && loop.procs[pid].Run? && loop.procs[pid].req == req
    requires loop.procs[pid].pc.Finished? && Reports(reply, req, loop.procs[pid].pc.ending) && reply.Return?
    ensures AuditRow(req.id, req.thread, req.input) in loop.db.audit
    ensures OutcomesOf(loop.db.metrics, req.id) == [reply.outcome]
    ensures reply.outcome == OutOk ==>
      "completed" in reply.state && !NotCompleted(reply.state) && exists k :: 1 <= k <= Bound(req) && MarkOf(loop.bus.events, req.id) == Closed(k, false, EvEnd)
    ensures reply.outcome == OutKilled ==> exists k :: 0 <= k < Bound(req) && MarkOf(loop.bus.events, req.id) == Stopped(k)
    ensures reply.outcome == OutMaxSteps ==> MarkOf(loop.bus.events, req.id) == Between(Bound(req))
  {
    StoresAreSafe(loop);
    var p := loop.procs[pid];
    CompleteIff(reply.state);
    assert HasRow(loop.Now(), p);
    assert RunAccounts(loop.Now(), p);
    var m := MarkOf(loop.bus.events, req.id);
    assert Accounts(req, p.pc, m, OutcomesOf(loop.db.metrics, req.id));
    if reply.outcome == OutOk {
      assert m == Closed(m.k, false, EvEnd);
    } else if reply.outcome == OutKilled {
      assert m == Stopped(m.k);
    }
  }

  /** What the bus says about the steps of a call agrees with the calls it started and the checkpoints it
      stored; a returned state is that of its last checkpoint. */
  lemma BusTellsTheSteps(loop: EventLoop, pid: Pid)
    requires loop.Valid() && pid in loop.procs && Passed(loop.procs[pid])
    ensures
      var p, log := loop.procs[pid], Announcements.LogOf(loop.Now(), loop.procs[pid].req.id);
      && Announcements.Agree(log)
      && (p.pc.Finished? && p.pc.ending.Returned? && log.made != [] ==> p.pc.ending.exit.state == Last(log.made).state)
  {
    Announcements.EventsTellTheSteps(loop.cfg, loop.trace, pid);
  }

  /** The outcome that `invoke` returns, and the exception that it raises, follow from what happened at
      its awaits: it returns if and only if none of them failed, raises AuditError if and only if the
      audit insert raised, and otherwise the kind of the last one that failed. */
  lemma ReplyIsEarned(loop: EventLoop, pid: Pid, req: Request, reply: Reply)
    requires loop.Valid() && pid in loop.procs && loop.procs[pid].Run? && loop.procs[pid].req == req
    requires loop.procs[pid].pc.Finished? && Reports(reply, req, loop.procs[pid].pc.ending)
    ensures
      var story := StoryOf(loop.cfg, loop.trace, pid);
      match reply
      case Return(_, _, outcome, _) => story.last == None && Agrees(outcome, story)
      case Raise(AuditError) => loop.procs[pid].pc.ending == Refused(FaultError) && story.last == Some(Raised)
      case Raise(OtherError) => !loop.procs[pid].pc.ending.Refused? && story.last == Some(Raised)
      case Raise(CancelledError) => story.last == Some(Interrupted)
  {
    var e := loop.procs[pid].pc.ending;
    ExceptionIsTheLast(loop.cfg, loop.trace, pid, e);
    if reply.Return? {
      OutcomeIsEarned(loop.cfg, loop.trace, pid, e.exit);
    }
  }
}
