/** The five shared stores (four database tables and the event bus), and the
    atomic operations on them. One operation is one awaited call: one SQL
    statement or one publish. */
module Store {
  import opened Base

  // ---------------------------------------------------------------- rows

  datatype AuditRow = AuditRow(id: Id, thread: Id, input: string)

  datatype Status = KillRequested | Running | Killed | Cancelled | Failed | Completed

  datatype ThreadRow = ThreadRow(status: Status, kill: bool)

  /** `state` stands for the JSON text made from it; reading the row back goes
      through `Config.reload`. `origin` is not a column: it records the call of the step
      function whose result the row holds, so that theorems can speak about it. */
  datatype Checkpoint = Checkpoint(thread: Id, id: Id, parent: Option<Id>, state: State, origin: Call)

  datatype Outcome = OutOk | OutKilled | OutMaxSteps | OutError | OutCancelled

  datatype Metric = Metric(id: Id, thread: Id, request: Id, outcome: Outcome, ms: real)

  datatype Kind = EvStart | EvStepStart | EvStepEnd | EvKilled | EvEnd | EvError | EvCancelled

  datatype Event = Event(kind: Kind, thread: Id, request: Id, step: Value, checkpoint: Option<Id>)

  /** One started call of the step function: the run, which iteration it is,
      the checkpoint it continues from, and the argument. */
  datatype Call = Call(request: Id, thread: Id, nth: nat, parent: Option<Id>, arg: State)

  /** `calls` is not a table: it records which calls of the step function have
      started, so that theorems can speak about them. */
  datatype Store = Store(
    audit: seq<AuditRow>,
    threads: map<Id, ThreadRow>,
    checkpoints: seq<Checkpoint>,
    metrics: seq<Metric>,
    events: seq<Event>,
    calls: seq<Call>)

  const EMPTY: Store := Store([], map[], [], [], [], [])

  /** What the supervisor is built around. `step` is the step function; its second
      argument stands for everything outside the state that it may look at, and
      None for an exception. `encodable` says whether `json.dumps` succeeds and
      `reload` is `json.loads` after `json.dumps`. */
  datatype Config = Config(
    step: (State, nat) -> Option<State>,
    encodable: State -> bool,
    reload: State -> State)

  // ---------------------------------------------------------------- operations

  datatype Op =
    | InsertAudit(audit: AuditRow)
    | ReadThread(thread: Id)
    | InsertThread(thread: Id, row: ThreadRow)
    | UpdateThread(thread: Id, row: ThreadRow)
    | ReadLatest(thread: Id)
    | InsertCheckpoint(checkpoint: Checkpoint)
    | InsertMetric(metric: Metric)
    | Publish(event: Event)
    | StartStep(call: Call)
    | AwaitStep(call: Call, oracle: nat)
    | Idle

  predicate AuditHas(audit: seq<AuditRow>, id: Id) {
    exists i :: 0 <= i < |audit| && audit[i].id == id
  }

  predicate CheckpointHas(rows: seq<Checkpoint>, thread: Id, id: Id) {
    exists i :: 0 <= i < |rows| && rows[i].thread == thread && rows[i].id == id
  }

  predicate MetricHas(rows: seq<Metric>, id: Id) {
    exists i :: 0 <= i < |rows| && rows[i].id == id
  }

  /** The operation raises by itself: a primary key or unique constraint is
      violated, the state cannot be encoded, or the step function raises. */
  predicate Rejects(cfg: Config, s: Store, op: Op) {
    match op
    case InsertAudit(row) => AuditHas(s.audit, row.id)
    case InsertThread(t, _) => t in s.threads
    case InsertCheckpoint(c) => !cfg.encodable(c.state) || CheckpointHas(s.checkpoints, c.thread, c.id)
    case InsertMetric(row) => MetricHas(s.metrics, row.id)
    case AwaitStep(c, oracle) => cfg.step(c.arg, oracle).None?
    case _ => false
  }

  function Apply(s: Store, op: Op): Store {
    match op
    case InsertAudit(row) => s.(audit := s.audit + [row])
    case InsertThread(t, row) => s.(threads := s.threads[t := row])
    case UpdateThread(t, row) => if t in s.threads then s.(threads := s.threads[t := row]) else s
    case InsertCheckpoint(c) => s.(checkpoints := s.checkpoints + [c])
    case InsertMetric(row) => s.(metrics := s.metrics + [row])
    case Publish(e) => s.(events := s.events + [e])
    case StartStep(c) => s.(calls := s.calls + [c])
    case _ => s
  }

  /** How an awaited call ends. */
  datatype Fate = Done | Raised | Interrupted

  /** What the environment contributes to one awaited call: how it ends, whether a
      call that does not return had its effect all the same, the id drawn for a
      new row, what the step function sees besides its argument, and the elapsed time. */
  datatype Move = Move(fate: Fate, landed: bool, id: Id, oracle: nat, ms: real)

  /** How the call really ends: a rejected operation raises even where the
      environment would let it succeed. Starting a step is not an await. */
  function Settle(cfg: Config, s: Store, op: Op, m: Move): Fate {
    if op.StartStep? then Done
    else if m.fate.Done? && Rejects(cfg, s, op) then Raised
    else m.fate
  }

  /** Whether the operation has its effect. */
  predicate Lands(cfg: Config, s: Store, op: Op, m: Move) {
    !Rejects(cfg, s, op) && (op.StartStep? || m.fate.Done? || m.landed)
  }

  function Perform(cfg: Config, s: Store, op: Op, m: Move): Store {
    if Lands(cfg, s, op, m) then Apply(s, op) else s
  }

  // ---------------------------------------------------------------- queries

  /** The checkpoints of one thread in `seq` order. */
  function RowsOf(rows: seq<Checkpoint>, thread: Id): seq<Checkpoint> {
    if rows == [] then []
    else if Last(rows).thread == thread then RowsOf(rows[..|rows| - 1], thread) + [Last(rows)]
    else RowsOf(rows[..|rows| - 1], thread)
  }

  lemma RowsAppend(rows: seq<Checkpoint>, c: Checkpoint, t: Id)
    ensures RowsOf(rows + [c], t) == if c.thread == t then RowsOf(rows, t) + [c] else RowsOf(rows, t)
  {
    assert (rows + [c])[..|rows|] == rows;
  }

  /** `ORDER BY seq DESC LIMIT 1`. */
  function Latest(rows: seq<Checkpoint>, thread: Id): Option<Checkpoint> {
    if rows == [] then None
    else if Last(rows).thread == thread then Some(Last(rows))
    else Latest(rows[..|rows| - 1], thread)
  }

  function FlagOf(s: Store, thread: Id): bool {
    thread in s.threads && s.threads[thread].kill
  }
}
