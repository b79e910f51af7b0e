/** What ends the loop, in terms of the dictionary the step function returned. */
module Completion {
  import opened Base
  import opened Store
  import opened Machine

  /** The dictionary has no `completed` key, or holds a false value there. */
  predicate NotCompleted(s: State) {
    || "completed" !in s
    || s["completed"] == Null || s["completed"] == Bool(false) || s["completed"] == Num(0)
    || s["completed"] == Str("") || s["completed"] == List([]) || s["completed"] == Obj(map[])
  }

  lemma CompleteIff(s: State)
    ensures IsComplete(s) <==> !NotCompleted(s)
  {
  }

  /** After a step.end that returned, the run goes on to the next flag check if the state has no
      `completed` key or a false value there, or to the end of its steps where that was the last
      one it may make; with any other value it ends as `ok`, with that state. */
  lemma StepEndDecides(cfg: Config, w: World, pid: Pid, req: Request, l: Loop, m: Move)
    requires pid in w.procs && w.procs[pid] == Run(req, PubStepEnd(l)) && m.fate == Done
    ensures
      Do(cfg, w, Advance(pid, m)).procs[pid]
        == Run(req,
               if !NotCompleted(l.state) then Record(Exit(OutOk, l.state, None))
               else if l.done + 1 < req.bound then CheckKill(Loop(l.state, l.parent, l.done + 1))
               else Record(Exit(OutMaxSteps, l.state, None)))
  {
    CompleteIff(l.state);
  }

  /** A flag check that returned sends the run to its next step or to the kill branch. */
  lemma FlagDecides(cfg: Config, w: World, pid: Pid, req: Request, l: Loop, m: Move)
    requires pid in w.procs && w.procs[pid] == Run(req, CheckKill(l)) && m.fate == Done
    ensures
      Do(cfg, w, Advance(pid, m)).procs[pid]
        == Run(req, if req.thread in w.store.threads && w.store.threads[req.thread].kill then PubKilled(l) else PubStepStart(l))
  {
  }
}
