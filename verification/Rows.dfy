/** Where the values in the rows come from. */
module Rows {
  import opened Base
  import opened Store
  import opened Machine
  import opened AuditFirst
  import opened Endings
  import opened History
  import opened Counting

  // ---------------------------------------------------------------- first calls

  /** The argument of a run's first call, key by key: the input of its audit row and its thread id, and
      under every other key what the fresh or the reloaded state has there. */
  ghost predicate Begins(cfg: Config, s: Store, c: Call, input: string, base: State) {
    && AuditRow(c.request, c.thread, input) in s.audit
    && (c.parent == None ==> base == map["messages" := List([]), "step" := Num(0)])
    && (c.parent != None ==>
          exists r :: r in s.checkpoints && r.thread == c.thread && Some(r.id) == c.parent && r.origin.request != c.request
            && base == cfg.reload(r.state))
    && c.arg.Keys == base.Keys + {"input", "thread_id"}
    && c.arg["input"] == Str(input) && c.arg["thread_id"] == Str(c.thread)
    && (forall key :: key in base && key != "input" && key != "thread_id" ==> c.arg[key] == base[key])
  }

  /** Every first call of a run in a reachable world begins so: on a thread without checkpoints with
      no messages and step 0, and on others with a stored state of another run. */
  lemma FirstCallSays(cfg: Config, acts: seq<Action>, c: Call)
    requires c in Exec(cfg, START, acts).store.calls && c.nth == 0
    ensures exists input, base :: Begins(cfg, Exec(cfg, START, acts).store, c, input, base)
  {
    HistoryAlways(cfg, acts);
    var s := Exec(cfg, START, acts).store;
    assert ResumedCall(cfg, s, c);
    var input, base :| AuditRow(c.request, c.thread, input) in s.audit
      && ResumesFrom(cfg, s.checkpoints, c, base) && c.arg == Override(base, input, c.thread);
    BeginsSo(cfg, s, c, input, base);
  }

  lemma BeginsSo(cfg: Config, s: Store, c: Call, input: string, base: State)
    requires AuditRow(c.request, c.thread, input) in s.audit
    requires ResumesFrom(cfg, s.checkpoints, c, base) && c.arg == Override(base, input, c.thread)
    ensures Begins(cfg, s, c, input, base)
  {
    if c.parent.Some? {
      var r :| r in s.checkpoints && Follows(c, r) && r.origin.request != c.request && base == cfg.reload(r.state);
    }
  }

  // ---------------------------------------------------------------- states that cannot be encoded

  /** Only states that can be encoded are stored. */
  lemma {:induction false} StoredAreEncodable(cfg: Config, acts: seq<Action>)
    ensures forall r :: r in Exec(cfg, START, acts).store.checkpoints ==> cfg.encodable(r.state)
  {
    if acts != [] {
      var front, a := acts[..|acts| - 1], Last(acts);
      StoredAreEncodable(cfg, front);
      var w := Exec(cfg, START, front);
      if a.Advance? && a.pid in w.procs {
        PerformEncodable(cfg, w.store, OpOf(w.procs[a.pid], a.move), a.move);
      }
    }
  }

  lemma PerformEncodable(cfg: Config, s: Store, op: Op, m: Move)
    requires forall r :: r in s.checkpoints ==> cfg.encodable(r.state)
    ensures forall r :: r in Perform(cfg, s, op, m).checkpoints ==> cfg.encodable(r.state)
  {
  }

  /** The put of a state that cannot be encoded stores nothing and raises, and unless it is cancelled at that
      await the run ends as an error, whatever happens afterwards. */
  lemma UnencodableIsError(cfg: Config, acts: seq<Action>, pid: Pid, m: Move, more: seq<Action>)
    requires
      var w := Exec(cfg, START, acts);
      pid in w.procs && w.procs[pid].Run? && w.procs[pid].pc.Put? && !cfg.encodable(w.procs[pid].pc.next)
    requires m.fate != Interrupted
    ensures Exec(cfg, START, acts + [Advance(pid, m)]).store == Exec(cfg, START, acts).store
    ensures
      var w' := Exec(cfg, START, acts + [Advance(pid, m)] + more);
      && pid in w'.procs && w'.procs[pid].Run?
      && StoryOf(cfg, acts + [Advance(pid, m)] + more, pid).left == Some(Raised)
      && (ExitOf(w'.procs[pid].pc).Some? ==> ExitOf(w'.procs[pid].pc).value.outcome == OutError)
  {
    var now := acts + [Advance(pid, m)];
    ExecOne(cfg, START, acts, Advance(pid, m));
    PutRaises(cfg, acts, pid, m);
    LeftStays(cfg, now, more, pid);
    var w' := Exec(cfg, START, now + more);
    if ExitOf(w'.procs[pid].pc).Some? {
      OutcomeIsEarned(cfg, now + more, pid, ExitOf(w'.procs[pid].pc).value);
    }
  }

  lemma PutRaises(cfg: Config, acts: seq<Action>, pid: Pid, m: Move)
    requires
      var w := Exec(cfg, START, acts);
      pid in w.procs && w.procs[pid].Run? && w.procs[pid].pc.Put? && !cfg.encodable(w.procs[pid].pc.next)
    requires m.fate != Interrupted
    ensures
      var w := Exec(cfg, START, acts);
      Do(cfg, w, Advance(pid, m)) == w.(procs := w.procs[pid := Run(w.procs[pid].req, MarkFailed(FaultError, Look))])
    ensures StoryOf(cfg, acts + [Advance(pid, m)], pid).left == Some(Raised)
  {
    StoryAlways(cfg, acts, pid);
    assert (acts + [Advance(pid, m)])[..|acts|] == acts;
  }

  lemma {:induction false} LeftStays(cfg: Config, acts: seq<Action>, more: seq<Action>, pid: Pid)
    requires StoryOf(cfg, acts, pid).left.Some?
    requires pid in Exec(cfg, START, acts).procs && Exec(cfg, START, acts).procs[pid].Run?
    ensures StoryOf(cfg, acts + more, pid).left == StoryOf(cfg, acts, pid).left
    ensures pid in Exec(cfg, START, acts + more).procs && Exec(cfg, START, acts + more).procs[pid].Run?
  {
    hide Proceed, Perform, OpOf, Settle;
    if more == [] {
      assert acts + more == acts;
    } else {
      var front, a := more[..|more| - 1], Last(more);
      LeftStays(cfg, acts, front, pid);
      assert (acts + more)[..|acts + more| - 1] == acts + front;
      var w := Exec(cfg, START, acts + front);
      if a.Advance? && a.pid in w.procs {
        KeepsRun(cfg, w.store, w.procs[a.pid], a.move);
      }
    }
  }

  // ---------------------------------------------------------------- metrics rows

  /** The i-th action of the schedule recorded this metrics row: with the outcome its run had then, and the
      elapsed time measured then. */
  ghost predicate RecordedBy(cfg: Config, acts: seq<Action>, i: nat, row: Metric)
    requires i < |acts|
  {
    var w, a := Exec(cfg, START, acts[..i]), acts[i];
    a.Advance? && a.pid in w.procs && w.procs[a.pid].Run? && w.procs[a.pid].pc.Record?
    && row.id == a.move.id && row.ms == a.move.ms
    && row.request == w.procs[a.pid].req.id && row.thread == w.procs[a.pid].req.thread
    && row.outcome == w.procs[a.pid].pc.exit.outcome
  }

  ghost predicate Recorded(cfg: Config, acts: seq<Action>, row: Metric) {
    exists i :: 0 <= i < |acts| && RecordedBy(cfg, acts, i, row)
  }

  ghost predicate MetricIdsDiffer(rows: seq<Metric>) {
    forall i, j :: 0 <= i < j < |rows| ==> rows[i].id != rows[j].id
  }

  /** Every metrics row was recorded by an action of the schedule, and its id is its own. */
  lemma {:induction false} MetricsAreRecorded(cfg: Config, acts: seq<Action>)
    ensures
      var rows := Exec(cfg, START, acts).store.metrics;
      MetricIdsDiffer(rows) && forall row :: row in rows ==> Recorded(cfg, acts, row)
  {
    hide MetricIdsDiffer, Perform, OpOf, Proceed;
    if acts == [] {
      NoMetricIds();
    } else {
      var front, a := acts[..|acts| - 1], Last(acts);
      MetricsAreRecorded(cfg, front);
      var w, w' := Exec(cfg, START, front), Exec(cfg, START, acts);
      forall row | row in w'.store.metrics ensures Recorded(cfg, acts, row) {
        if row in w.store.metrics {
          assert Recorded(cfg, front, row);
          var i :| 0 <= i < |front| && RecordedBy(cfg, front, i, row);
          assert acts[..i] == front[..i];
          assert RecordedBy(cfg, acts, i, row);
        } else {
          NewRowIsRecorded(cfg, w, a, row);
          assert RecordedBy(cfg, acts, |front|, row);
        }
      }
      if a.Advance? && a.pid in w.procs {
        PerformMetricIds(cfg, w.store, OpOf(w.procs[a.pid], a.move), a.move);
      }
    }
  }

  lemma NoMetricIds()
    ensures MetricIdsDiffer([])
  {
  }

  lemma NewRowIsRecorded(cfg: Config, w: World, a: Action, row: Metric)
    requires row in Do(cfg, w, a).store.metrics && row !in w.store.metrics
    ensures a.Advance? && a.pid in w.procs && w.procs[a.pid].Run? && w.procs[a.pid].pc.Record?
    ensures
      var p := w.procs[a.pid];
      row == Metric(a.move.id, p.req.thread, p.req.id, p.pc.exit.outcome, a.move.ms)
  {
  }

  lemma PerformMetricIds(cfg: Config, s: Store, op: Op, m: Move)
    requires MetricIdsDiffer(s.metrics)
    ensures MetricIdsDiffer(Perform(cfg, s, op, m).metrics)
  {
  }

  // ---------------------------------------------------------------- events

  /** Only step.start, step.end and end events carry a step number, and just the step.end events a checkpoint id. */
  predicate Carries(e: Event) {
    && (e.kind != EvStepStart && e.kind != EvStepEnd && e.kind != EvEnd ==> e.step == Null)
    && (e.checkpoint.Some? <==> e.kind == EvStepEnd)
  }

  lemma {:induction false} EventsCarry(cfg: Config, acts: seq<Action>)
    ensures forall e :: e in Exec(cfg, START, acts).store.events ==> Carries(e)
  {
    if acts != [] {
      var front, a := acts[..|acts| - 1], Last(acts);
      EventsCarry(cfg, front);
      CountsAlways(cfg, front);
      var w := Exec(cfg, START, front);
      if a.Advance? && a.pid in w.procs {
        assert RunCounts(w.store, w.procs[a.pid]);
        OpCarries(w.store, w.procs[a.pid], a.move);
      }
    }
  }

  lemma OpCarries(s: Store, p: Proc, m: Move)
    requires RunCounts(s, p)
    ensures OpOf(p, m).Publish? ==> Carries(OpOf(p, m).event)
  {
  }
}
