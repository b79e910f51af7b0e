/** How a run ended, told from the schedule alone: which of its awaits did not return, what
    its flag checks read, whether it saw a complete state. The outcome a run records, and the
    exception it raises, always agree with that. */
module Endings {
  import opened Base
  import opened Store
  import opened Machine
  import opened AuditFirst
  import EventTrace
  import opened Accounting

  /** What befell a run in a schedule. */
  datatype Story = Story(
    left: Option<Fate>,   // how the first await inside the try block that did not return ended
    flagRead: bool,       // a flag check returned true
    completed: bool,      // a step.end returned, for a complete state
    last: Option<Fate>,   // how the last await that did not return ended
    failures: nat)        // how many did not return

  const UNTOLD: Story := Story(None, false, false, None, 0)

  /** The run stands inside the try block. */
  predicate InTry(pc: Pc) {
    pc.Load? || Looping(pc)
  }

  predicate Awaits(w: World, a: Action, pid: Pid) {
    a.Advance? && a.pid == pid && pid in w.procs && w.procs[pid].Run? && !w.procs[pid].pc.Finished?
  }

  function Retell(story: Story, s: Store, req: Request, pc: Pc, fate: Fate): Story {
    if fate != Done then
      story.(last := Some(fate), failures := story.failures + 1, left := if InTry(pc) && story.left.None? then Some(fate) else story.left)
    else
      story.(flagRead := story.flagRead || (pc.CheckKill? && FlagOf(s, req.thread)),
             completed := story.completed || (pc.PubStepEnd? && IsComplete(pc.l.state)))
  }

  function StoryOf(cfg: Config, acts: seq<Action>, pid: Pid): Story {
    if acts == [] then UNTOLD
    else
      var front, a := acts[..|acts| - 1], Last(acts);
      var w, story := Exec(cfg, START, front), StoryOf(cfg, front, pid);
      if Awaits(w, a, pid) then
        var p := w.procs[pid];
        Retell(story, w.store, p.req, p.pc, Settle(cfg, w.store, OpOf(p, a.move), a.move))
      else story
  }

  // ---------------------------------------------------------------- outcome and exception

  /** The outcome that goes with a story: what first broke the try block decides, then the kill
      flag, then completion. */
  predicate Agrees(outcome: Outcome, story: Story) {
    && (outcome == OutError <==> story.left == Some(Raised))
    && (outcome == OutCancelled <==> story.left == Some(Interrupted))
    && (outcome == OutKilled <==> story.left == None && story.flagRead)
    && (outcome == OutOk <==> story.left == None && !story.flagRead && story.completed)
    && (outcome == OutMaxSteps <==> story.left == None && !story.flagRead && !story.completed)
  }

  /** The exception is the one that the last failing await left behind. */
  predicate Stems(f: Fault, story: Story) {
    match f
    case FaultError => story.last == Some(Raised)
    case FaultCancel => story.last == Some(Interrupted)
  }

  predicate Tells(x: Exit, story: Story) {
    && Agrees(x.outcome, story)
    && (x.raised.None? ==> story.last == None && story.left == None)
    && (x.raised.Some? ==> Stems(x.raised.value, story) && story.left.Some?)
  }

  predicate StoryAt(pc: Pc, story: Story) {
    match pc
    case PubKilled(_) => story == UNTOLD.(flagRead := true)
    case MarkKilled(_, _) => story == UNTOLD.(flagRead := true)
    case MarkFailed(f, _) => Stems(f, story) && story.left == story.last && story.failures == 1
    case PubFailed(f) => Stems(f, story) && story.left == story.last && story.failures == 1
    case Record(x) => Tells(x, story)
    case MarkCompleted(x, _) => Tells(x, story) && x.raised.None?
    case PubEnd(x) => Tells(x, story) && x.raised.None?
    case Finished(e) =>
      match e {
        case Refused(f) => story.left == None && Stems(f, story)
        case Aborted(f) => story.left == None && Stems(f, story)
        case Unrecorded(x, f) => Agrees(x.outcome, story) && Stems(f, story)
        case Unfinished(x, f) => Agrees(x.outcome, story) && Stems(f, story)
        case Escaped(x) => Tells(x, story) && x.raised.Some?
        case Returned(x) => Tells(x, story) && x.raised.None?
      }
    case _ => story == UNTOLD
  }

  lemma DoneRetold(cfg: Config, s: Store, req: Request, pc: Pc, m: Move, story: Story)
    requires StoryAt(pc, story)
    ensures StoryAt(RunNext(cfg, s, req, pc, m), if pc.Finished? then story else Retell(story, s, req, pc, Done))
  {
    hide Override;
  }

  lemma FaultRetold(s: Store, req: Request, pc: Pc, fate: Fate, story: Story)
    requires StoryAt(pc, story) && fate != Done && !pc.CallStep?
    ensures StoryAt(RunFault(pc, ToFault(fate)), if pc.Finished? then story else Retell(story, s, req, pc, fate))
  {
  }

  lemma StepRetold(cfg: Config, s: Store, req: Request, pc: Pc, m: Move, story: Story)
    requires StoryAt(pc, story)
    ensures
      var p := Run(req, pc);
      var fate := Settle(cfg, s, OpOf(p, m), m);
      StoryAt(Proceed(cfg, s, p, m).pc, if pc.Finished? then story else Retell(story, s, req, pc, fate))
  {
    hide StoryAt, Retell, RunNext, RunFault;
    var fate := Settle(cfg, s, OpOf(Run(req, pc), m), m);
    if fate == Done {
      DoneRetold(cfg, s, req, pc, m, story);
    } else {
      FaultRetold(s, req, pc, fate, story);
    }
  }

  ghost predicate Told(cfg: Config, acts: seq<Action>, pid: Pid) {
    var w, story := Exec(cfg, START, acts), StoryOf(cfg, acts, pid);
    if pid in w.procs && w.procs[pid].Run? then StoryAt(w.procs[pid].pc, story) else story == UNTOLD
  }

  /** At every point of every schedule, the program counter of a run agrees with its story. */
  lemma {:induction false} StoryAlways(cfg: Config, acts: seq<Action>, pid: Pid)
    ensures Told(cfg, acts, pid)
  {
    hide StoryAt, Retell, Perform, Proceed, OpOf, Settle;
    if acts == [] {
      assert Exec(cfg, START, acts) == START;
    } else {
      var front, a := acts[..|acts| - 1], Last(acts);
      StoryAlways(cfg, front, pid);
      var w := Exec(cfg, START, front);
      if Awaits(w, a, pid) {
        StepRetold(cfg, w.store, w.procs[pid].req, w.procs[pid].pc, a.move, StoryOf(cfg, front, pid));
        KeepsRun(cfg, w.store, w.procs[pid], a.move);
      } else {
        UntoldStays(cfg, w, a, pid, StoryOf(cfg, front, pid));
      }
    }
  }

  lemma KeepsRun(cfg: Config, s: Store, p: Proc, m: Move)
    ensures Proceed(cfg, s, p, m).Run? <==> p.Run?
    ensures p.Run? && p.pc.Finished? ==> Proceed(cfg, s, p, m) == p
  {
  }

  lemma UntoldStays(cfg: Config, w: World, a: Action, pid: Pid, story: Story)
    requires !Awaits(w, a, pid)
    requires if pid in w.procs && w.procs[pid].Run? then StoryAt(w.procs[pid].pc, story) else story == UNTOLD
    ensures
      var w' := Do(cfg, w, a);
      if pid in w'.procs && w'.procs[pid].Run? then StoryAt(w'.procs[pid].pc, story) else story == UNTOLD
  {
    hide Perform, Proceed;
    if a.Advance? && a.pid == pid && pid in w.procs {
      KeepsRun(cfg, w.store, w.procs[pid], a.move);
    }
  }

  // ---------------------------------------------------------------- main results

  /** The exit of a run whose loop has ended. */
  function ExitOf(pc: Pc): Option<Exit> {
    match pc
    case Record(x) => Some(x)
    case MarkCompleted(x, _) => Some(x)
    case PubEnd(x) => Some(x)
    case Finished(Refused(_)) => None
    case Finished(Aborted(_)) => None
    case Finished(e) => Some(e.exit)
    case _ => None
  }

  /** The exception a finished run raises. */
  function ExceptionAt(e: Ending): Option<Fault> {
    match e
    case Refused(f) => Some(f)
    case Aborted(f) => Some(f)
    case Unrecorded(_, f) => Some(f)
    case Escaped(x) => x.raised
    case Unfinished(_, f) => Some(f)
    case Returned(_) => None
  }

  /** The outcome a run has decided on is that of how its loop ended: `error` if and only if the
      first await of the try block that did not return raised, `cancelled` if and only if it
      was cancelled, wherever in the block it stood and whatever went wrong in the handlers
      after it; `killed` if and only if nothing failed and a flag check read true. */
  lemma OutcomeIsEarned(cfg: Config, acts: seq<Action>, pid: Pid, x: Exit)
    requires
      var w := Exec(cfg, START, acts);
      pid in w.procs && w.procs[pid].Run? && ExitOf(w.procs[pid].pc) == Some(x)
    ensures Agrees(x.outcome, StoryOf(cfg, acts, pid))
  {
    StoryAlways(cfg, acts, pid);
  }

  /** A finished run raised the exception of its last failing await, and returned only if none failed. */
  lemma ExceptionIsTheLast(cfg: Config, acts: seq<Action>, pid: Pid, e: Ending)
    requires
      var w := Exec(cfg, START, acts);
      pid in w.procs && w.procs[pid].Run? && w.procs[pid].pc == Finished(e)
    ensures
      var last := StoryOf(cfg, acts, pid).last;
      && (ExceptionAt(e) == Some(FaultError) <==> last == Some(Raised))
      && (ExceptionAt(e) == Some(FaultCancel) <==> last == Some(Interrupted))
      && (e.Returned? <==> last == None)
  {
    hide StoryAt, ExceptionAt;
    StoryAlways(cfg, acts, pid);
    FinishedTold(e, StoryOf(cfg, acts, pid));
  }

  lemma FinishedTold(e: Ending, story: Story)
    requires StoryAt(Finished(e), story)
    ensures ExceptionAt(e) == Some(FaultError) <==> story.last == Some(Raised)
    ensures ExceptionAt(e) == Some(FaultCancel) <==> story.last == Some(Interrupted)
    ensures e.Returned? <==> story.last == None
  {
  }

  /** A run with a metrics row has an exit, whose outcome the row carries. */
  lemma RowIsExit(req: Request, pc: Pc, m: EventTrace.Mark, outs: seq<Outcome>)
    requires Accounts(req, pc, m, outs) && !pc.Audit? && !IsRefused(pc) && outs != []
    ensures ExitOf(pc).Some? && outs == [ExitOf(pc).value.outcome]
  {
  }

  /** Every metrics row agrees with how the loop of its run ended. */
  lemma MetricsTellTheCause(cfg: Config, acts: seq<Action>, row: Metric)
    requires row in Exec(cfg, START, acts).store.metrics
    ensures
      var w := Exec(cfg, START, acts);
      exists pid :: pid in w.procs && Passed(w.procs[pid]) && w.procs[pid].req.id == row.request
        && Agrees(row.outcome, StoryOf(cfg, acts, pid))
  {
    var w := Exec(cfg, START, acts);
    AccountsAlways(cfg, acts);
    assert Owned(w, row.request);
    var pid :| pid in w.procs && Passed(w.procs[pid]) && w.procs[pid].req.id == row.request;
    var p := w.procs[pid];
    assert RunAccounts(w.store, p);
    RowHasOutcome(w.store.metrics, row);
    RowIsExit(p.req, p.pc, EventTrace.MarkOf(w.store.events, row.request), OutcomesOf(w.store.metrics, row.request));
    OutcomeIsEarned(cfg, acts, pid, ExitOf(p.pc).value);
  }
}
