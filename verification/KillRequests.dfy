/** What a kill request has done by the time it answers. */
module KillRequests {
  import opened Base
  import opened Store
  import opened Machine
  import opened KillFlag
  import Isolation

  /** What befell a kill request in a schedule. */
  datatype KillStory = KillStory(
    found: Option<Option<Status>>,   // the thread's status as its first read that returned found it, None without a row
    left: bool,                      // after its latest await, the row of the thread was kill_requested with the flag set
    failed: bool)                    // one of its awaits did not return

  const UNASKED: KillStory := KillStory(None, false, false)

  function StatusIn(s: Store, t: Id): Option<Status> {
    if t in s.threads then Some(s.threads[t].status) else None
  }

  predicate SaysKill(s: Store, t: Id) {
    t in s.threads && s.threads[t] == ThreadRow(KillRequested, true)
  }

  predicate Asks(w: World, a: Action, pid: Pid) {
    a.Advance? && a.pid == pid && pid in w.procs && w.procs[pid].Killer? && !w.procs[pid].kpc.KillDone? && !w.procs[pid].kpc.KillFailed?
  }

  function Retold(story: KillStory, before: Store, after: Store, t: Id, fate: Fate): KillStory {
    KillStory(
      if story.found == None && fate == Done then Some(StatusIn(before, t)) else story.found,
      SaysKill(after, t),
      story.failed || fate != Done)
  }

  function KillStoryOf(cfg: Config, acts: seq<Action>, pid: Pid): KillStory {
    if acts == [] then UNASKED
    else
      var front, a := acts[..|acts| - 1], Last(acts);
      var w, story := Exec(cfg, START, front), KillStoryOf(cfg, front, pid);
      if Asks(w, a, pid) then
        Retold(story, w.store, Do(cfg, w, a).store, ThreadOf(w.procs[pid]), Settle(cfg, w.store, OpOf(w.procs[pid], a.move), a.move))
      else story
  }

  predicate KillStoryAt(kpc: KillPc, story: KillStory) {
    match kpc
    case KillLook => story == UNASKED
    case KillUpsert(prev, _) => story.found == Some(prev) && !story.failed
    case KillDone(prev) => story == KillStory(Some(prev), true, false)
    case KillFailed => story.failed
  }

  lemma AskDone(cfg: Config, s: Store, t: Id, kpc: KillPc, m: Move, story: KillStory)
    requires KillStoryAt(kpc, story) && !kpc.KillDone? && !kpc.KillFailed?
    requires Updating(Killer(t, kpc)) ==> t in s.threads
    requires Settle(cfg, s, KillOp(t, kpc), m) == Done
    ensures KillStoryAt(KillNext(s, t, kpc), Retold(story, s, Perform(cfg, s, KillOp(t, kpc), m), t, Done))
  {
  }

  lemma AskFails(cfg: Config, s: Store, s': Store, t: Id, kpc: KillPc, fate: Fate, story: KillStory)
    requires !kpc.KillDone? && fate != Done
    ensures KillStoryAt(KillFault(kpc), Retold(story, s, s', t, fate))
  {
  }

  lemma AskRetold(cfg: Config, s: Store, t: Id, kpc: KillPc, m: Move, story: KillStory)
    requires KillStoryAt(kpc, story) && !kpc.KillDone? && !kpc.KillFailed?
    requires Updating(Killer(t, kpc)) ==> t in s.threads
    ensures
      var p := Killer(t, kpc);
      var fate := Settle(cfg, s, OpOf(p, m), m);
      Proceed(cfg, s, p, m).Killer? && KillStoryAt(Proceed(cfg, s, p, m).kpc, Retold(story, s, Perform(cfg, s, OpOf(p, m), m), t, fate))
  {
    hide KillStoryAt, Retold, KillNext, KillFault, Perform, Settle, Updating;
    var fate := Settle(cfg, s, KillOp(t, kpc), m);
    if fate == Done {
      AskDone(cfg, s, t, kpc, m, story);
    } else {
      AskFails(cfg, s, Perform(cfg, s, KillOp(t, kpc), m), t, kpc, fate, story);
    }
  }

  ghost predicate KillTold(w: World, pid: Pid, story: KillStory) {
    if pid in w.procs && w.procs[pid].Killer? then KillStoryAt(w.procs[pid].kpc, story) else story == UNASKED
  }

  lemma Unmoved(cfg: Config, w: World, a: Action, pid: Pid, story: KillStory)
    requires !Asks(w, a, pid) && KillTold(w, pid, story)
    ensures KillTold(Do(cfg, w, a), pid, story)
  {
    if a.Advance? && a.pid == pid && pid in w.procs {
      AnsweredStays(cfg, w.store, w.procs[pid], a.move);
    }
  }

  lemma AnsweredStays(cfg: Config, s: Store, p: Proc, m: Move)
    requires p.Run? || p.kpc.KillDone? || p.kpc.KillFailed?
    ensures Proceed(cfg, s, p, m).Killer? <==> p.Killer?
    ensures p.Killer? ==> Proceed(cfg, s, p, m) == p
  {
  }

  /** At every point of every schedule, a kill request agrees with its story. */
  lemma {:induction false} KillStoryAlways(cfg: Config, acts: seq<Action>, pid: Pid)
    ensures KillTold(Exec(cfg, START, acts), pid, KillStoryOf(cfg, acts, pid))
  {
    hide KillStoryAt, Retold, Perform, Proceed, OpOf, Settle;
    if acts == [] {
      assert Exec(cfg, START, acts) == START;
    } else {
      var front, a := acts[..|acts| - 1], Last(acts);
      KillStoryAlways(cfg, front, pid);
      var w, story := Exec(cfg, START, front), KillStoryOf(cfg, front, pid);
      if Asks(w, a, pid) {
        UpdatesHaveRowAlways(cfg, front);
        AskRetold(cfg, w.store, w.procs[pid].thread, w.procs[pid].kpc, a.move, story);
      } else {
        Unmoved(cfg, w, a, pid, story);
      }
    }
  }

  // ---------------------------------------------------------------- main results

  /** Some await of the process left the row of the thread kill_requested with the flag set. */
  ghost predicate Wrote(cfg: Config, acts: seq<Action>, pid: Pid, t: Id) {
    exists i :: 0 <= i < |acts| && acts[i].Advance? && acts[i].pid == pid && SaysKill(Exec(cfg, START, acts[..i + 1]).store, t)
  }

  lemma {:induction false} LeftIsWritten(cfg: Config, acts: seq<Action>, pid: Pid, t: Id)
    requires KillStoryOf(cfg, acts, pid).left
    requires pid in Exec(cfg, START, acts).procs ==> ThreadOf(Exec(cfg, START, acts).procs[pid]) == t
    ensures Wrote(cfg, acts, pid, t)
  {
    if acts != [] {
      var front, a := acts[..|acts| - 1], Last(acts);
      var w := Exec(cfg, START, front);
      if Asks(w, a, pid) {
        assert acts[..|acts| - 1 + 1] == acts;
        Isolation.ProceedKeepsThread(cfg, w.store, w.procs[pid], a.move);
        assert acts[|acts| - 1].Advance?;
      } else {
        KeepsThread(cfg, w, a, pid);
        KillStoryAlways(cfg, front, pid);
        LeftIsWritten(cfg, front, pid, t);
        var i :| 0 <= i < |front| && front[i].Advance? && front[i].pid == pid && SaysKill(Exec(cfg, START, front[..i + 1]).store, t);
        assert acts[..i + 1] == front[..i + 1] && acts[i] == front[i];
      }
    }
  }

  lemma KeepsThread(cfg: Config, w: World, a: Action, pid: Pid)
    ensures pid in w.procs ==> pid in Do(cfg, w, a).procs && ThreadOf(Do(cfg, w, a).procs[pid]) == ThreadOf(w.procs[pid])
  {
    if a.Advance? && a.pid in w.procs {
      Isolation.ProceedKeepsThread(cfg, w.store, w.procs[a.pid], a.move);
    }
  }

  /** A kill request that was accepted has written: whether or not the thread had a row, an await of its own
      left the row kill_requested with the flag set, and none of them failed. The status it reports as
      previous is the one its first read found; it reports none exactly where there was no row. */
  lemma AcceptedKillIsWritten(cfg: Config, acts: seq<Action>, pid: Pid, t: Id, previous: Option<Status>)
    requires
      var w := Exec(cfg, START, acts);
      pid in w.procs && w.procs[pid] == Killer(t, KillDone(previous))
    ensures Wrote(cfg, acts, pid, t) && KillStoryOf(cfg, acts, pid) == KillStory(Some(previous), true, false)
  {
    KillStoryAlways(cfg, acts, pid);
    LeftIsWritten(cfg, acts, pid, t);
  }

  /** One that raised had an await that did not return. */
  lemma FailedKillFailed(cfg: Config, acts: seq<Action>, pid: Pid, t: Id)
    requires
      var w := Exec(cfg, START, acts);
      pid in w.procs && w.procs[pid] == Killer(t, KillFailed)
    ensures KillStoryOf(cfg, acts, pid).failed
  {
    KillStoryAlways(cfg, acts, pid);
  }
}
