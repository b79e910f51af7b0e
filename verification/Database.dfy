/** The database facade and the in-memory event bus, as objects that are updated in place. */
module Databases {
  import opened Base
  import opened Store

  /** `Database`: the four tables. `Execute` is one statement, run to its end. */
  class Database {
    var audit: seq<AuditRow>
    var threads: map<Id, ThreadRow>
    var checkpoints: seq<Checkpoint>
    var metrics: seq<Metric>

    constructor ()
      ensures Tables() == EMPTY
    {
      audit, threads, checkpoints, metrics := [], map[], [], [];
    }

    function Tables(): Store
      reads this
    {
      Store(audit, threads, checkpoints, metrics, [], [])
    }

    /** Run one statement: it raises if a constraint rejects it, and where the environment
        lets it fail it may or may not have had its effect. */
    method Execute(cfg: Config, op: Op, m: Move) returns (fate: Fate)
      requires !op.Publish? && !op.StartStep?
      modifies this
      ensures fate == Settle(cfg, old(Tables()), op, m)
      ensures Tables() == Perform(cfg, old(Tables()), op, m)
    {
      var tables := Tables();
      if Rejects(cfg, tables, op) {
        return if m.fate == Done then Raised else m.fate;
      }
      fate := m.fate;
      if m.fate == Done || m.landed {
        match op
        case InsertAudit(row) => audit := audit + [row];
        case InsertThread(t, row) => threads := threads[t := row];
        case UpdateThread(t, row) =>
          if t in threads {
            threads := threads[t := row];
          }
        case InsertCheckpoint(c) => checkpoints := checkpoints + [c];
        case InsertMetric(row) => metrics := metrics + [row];
        case _ =>
      }
    }
  }

  /** `NullEventBus`: remembers every published event, in order. */
  class NullEventBus {
    var events: seq<Event>

    constructor ()
      ensures events == []
    {
      events := [];
    }

    method Publish(e: Event, m: Move) returns (fate: Fate)
      modifies this
      ensures fate == m.fate
      ensures events == old(events) + if m.fate == Done || m.landed then [e] else []
    {
      if m.fate == Done || m.landed {
        events := events + [e];
      }
      fate := m.fate;
    }

    method Published() returns (copy: seq<Event>)
      ensures copy == events
    {
      copy := events;
    }
  }
}
