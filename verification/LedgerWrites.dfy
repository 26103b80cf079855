/** The twelve row changes the ledger's transactions are made of, and the
    condition under which each transaction issues them. */
module LedgerWrites {
  import opened Wrappers
  import opened Payload
  import opened LedgerTables
  import opened LedgerChecks

  datatype Write =
    | Tombstone(plan: Plan, now: int)
    | Admit(plan: Plan, id: AttemptId, now: int)
    | Note(tuple: Tuple, body: FactBody, now: int)
    | SetState(tuple: Tuple, state: ProviderState, payload: Json, now: int)
    | SetDispatch(tuple: Tuple, now: int)
    | SetCost(tuple: Tuple, cost: Option<int>, body: FactBody, now: int)
    | Cancel(tuple: Tuple, now: int)
    | Finish(tuple: Tuple, cost: Option<int>, closing: Option<Failure>, body: FactBody, now: int)
    | Orphan(tuple: Tuple, now: int)
    | Succeed(tuple: Tuple, id: AttemptId, provider: ProviderId, failure: Failure,
              jitter: int, recovered: bool, now: int)
    | FenceTool(tuple: Tuple, call: string, digest: string)
    | Memo(key: IdemKey, row: IdemRow)

  predicate HasRows(db: Db, e: Tuple)
  {
    HasAttempt(db, e) && e.task in db.tasks && Controls(db, e)
  }

  function Target(w: Write): Option<Tuple>
  {
    if w.Tombstone? || w.Admit? || w.Memo? then None else Some(w.tuple)
  }

  /** The statements of the write find their rows. */
  predicate Applies(db: Db, w: Write)
  {
    && (Target(w).Some? ==> HasAttempt(db, Target(w).value) && Target(w).value.task in db.tasks)
    && (Target(w).Some? && !w.Cancel? ==> Controls(db, Target(w).value))
    && (w.Admit? ==> |w.plan.providers| > 0 && w.plan.providers[0] in w.plan.ceilings)
    && (w.Succeed? ==> w.provider in db.tasks[w.tuple.task].plan.ceilings)
    && (w.Finish? ==> w.body.Completion?)
  }

  function Row(db: Db, e: Tuple): Attempt
    requires HasAttempt(db, e)
  {
    db.attempts[SlotOf(e)]
  }

  function Append(db: Db, e: Tuple, body: FactBody, now: int): Db
  {
    db.(outbox := db.outbox + [Fact(e, body, now)])
  }

  /** One attempt, its task row and its control row change together with one fact. */
  function Rewrite(db: Db, e: Tuple, a: Attempt, task: Task, c: Control, body: FactBody, now: int): Db
  {
    Append(db.(attempts := db.attempts[SlotOf(e) := a], tasks := db.tasks[e.task := task],
               control := db.control[e.task := c]),
           e, body, now)
  }

  /** What an attempt reserves once its cost column is `cost`. */
  function Reservation(a: Attempt, cost: Option<int>): int
  {
    if cost.Some? then cost.value else a.reserved
  }

  /** The task's reservation once the attempt's cost column is `cost`. */
  function Recosted(db: Db, e: Tuple, cost: Option<int>): int
    requires HasRows(db, e)
  {
    db.tasks[e.task].reserved - Row(db, e).reserved + Reservation(Row(db, e), cost)
  }

  function FreshAttempt(id: AttemptId, provider: ProviderId, ceiling: int, now: int, fence: int): Attempt
  {
    Attempt(id, provider, Active, false, false, ceiling, None, None, now, None, fence)
  }

  function FreshTask(plan: Plan, status: TaskStatus, reserved: int, now: int): Task
  {
    Task(plan, Sha256(plan), status, 0, plan.transitionLimit, plan.deadlineMs, plan.budget, reserved, now)
  }

  function SuccessorOf(e: Tuple, id: AttemptId): Tuple { Tuple(e.task, id, e.epoch + 1) }

  /** The task's reservation after a transition to `provider`. */
  function Replacement(db: Db, e: Tuple, provider: ProviderId): int
    requires HasRows(db, e) && provider in db.tasks[e.task].plan.ceilings
  {
    var a := Row(db, e);
    db.tasks[e.task].reserved - a.reserved + Reservation(a, a.cost) + db.tasks[e.task].plan.ceilings[provider]
  }

  function WitnessFor(f: Fact, id: nat): Witness
    requires f.body.Transition?
  {
    var r := WitnessRecord(id, f.body.predecessor, f.body.predecessorProvider, f.key, f.body.successorProvider, f.at);
    Witness(r, r)
  }

  function AdmitRows(db: Db, w: Write): Db
    requires w.Admit? && Applies(db, w)
  {
    var t, p := w.plan.taskId, w.plan.providers[0];
    var e := Tuple(t, w.id, 0);
    Append(db.(tasks := db.tasks[t := FreshTask(w.plan, Running, w.plan.ceilings[p], w.now)],
               attempts := db.attempts[SlotOf(e) := FreshAttempt(w.id, p, w.plan.ceilings[p], w.now, 0)],
               control := db.control[t := Control(w.id, 0, ControlActive)]),
           e, AttemptCreated(p, Sha256(w.plan)), w.now)
  }

  function CostRows(db: Db, w: Write): Db
    requires w.SetCost? && Applies(db, w)
  {
    var e := w.tuple;
    var a, task := Row(db, e), db.tasks[e.task];
    var r := Reservation(a, w.cost);
    Rewrite(db, e, a.(cost := w.cost, reserved := r), task.(reserved := task.reserved - a.reserved + r),
            db.control[e.task], w.body, w.now)
  }

  function CancelRows(db: Db, w: Write): Db
    requires w.Cancel? && Applies(db, w)
  {
    var e := w.tuple;
    var a, task := Row(db, e).(state := CancelRequested, cancelRequested := true), db.tasks[e.task].(status := CancelPending);
    if Controls(db, e) && db.control[e.task].status == ControlActive then
      Rewrite(db, e, a, task, db.control[e.task].(status := ControlCancel), CancelAsked, w.now)
    else
      Append(db.(attempts := db.attempts[SlotOf(e) := a], tasks := db.tasks[e.task := task]), e, CancelAsked, w.now)
  }

  function FinishRows(db: Db, w: Write): Db
    requires w.Finish? && Applies(db, w)
  {
    var e := w.tuple;
    var a, task := Row(db, e), db.tasks[e.task];
    var r := Reservation(a, w.cost);
    var failure := if w.closing.Some? then w.closing else a.failure;
    Rewrite(db, e,
            a.(state := TerminalState, closedAt := Some(w.now), failure := failure, cost := w.cost, reserved := r),
            task.(status := Done(w.body.outcome), reserved := task.reserved - a.reserved + r),
            db.control[e.task].(status := ControlTerminal), w.body, w.now)
  }

  function OrphanRows(db: Db, w: Write): Db
    requires w.Orphan? && Applies(db, w)
  {
    var e := w.tuple;
    Rewrite(db, e, Row(db, e).(state := Orphaned, closedAt := Some(w.now)),
            db.tasks[e.task].(status := OrphanedTask), db.control[e.task].(status := ControlTerminal),
            RecoveredBeforeDispatch, w.now)
  }

  function SucceedRows(db: Db, w: Write): Db
    requires w.Succeed? && Applies(db, w)
  {
    var e, next := w.tuple, SuccessorOf(w.tuple, w.id);
    var a, task := Row(db, e), db.tasks[e.task];
    var closed := a.(state := Closed, failure := Some(w.failure), closedAt := Some(w.now));
    var born := FreshAttempt(w.id, w.provider, task.plan.ceilings[w.provider], w.now, w.now + w.jitter);
    var log := if w.recovered then db.outbox + [Fact(e, RecoveredBeforeDispatch, w.now)] else db.outbox;
    var fact := Fact(next, Transition(e, a.provider, w.provider, w.failure), w.now);
    db.(attempts := db.attempts[SlotOf(e) := closed][SlotOf(next) := born],
        tasks := db.tasks[e.task := task.(transitionsUsed := task.transitionsUsed + 1,
                                          reserved := Replacement(db, e, w.provider))],
        control := db.control[e.task := Control(w.id, next.epoch, ControlActive)],
        outbox := log + [fact],
        witnesses := db.witnesses + [WitnessFor(fact, |log| + 1)])
  }

  /** The database after the write's statements. */
  function Put(db: Db, w: Write): Db
    requires Applies(db, w)
  {
    match w
    case Tombstone(plan, now) => db.(tasks := db.tasks[plan.taskId := FreshTask(plan, RejectedTask, 0, now)])
    case Admit(_, _, _) => AdmitRows(db, w)
    case Note(e, body, now) => Append(db, e, body, now)
    case SetState(e, s, payload, now) =>
      Rewrite(db, e, Row(db, e).(state := Provider(s)), db.tasks[e.task], db.control[e.task], StateChange(s, payload), now)
    case SetDispatch(e, now) =>
      Rewrite(db, e, Row(db, e).(dispatched := true), db.tasks[e.task], db.control[e.task], Dispatch, now)
    case SetCost(_, _, _, _) => CostRows(db, w)
    case Cancel(_, _) => CancelRows(db, w)
    case Finish(_, _, _, _, _) => FinishRows(db, w)
    case Orphan(_, _) => OrphanRows(db, w)
    case Succeed(_, _, _, _, _, _, _) => SucceedRows(db, w)
    case FenceTool(e, call, digest) => db.(fences := db.fences[FenceKey(e, call) := digest])
    case Memo(k, row) => db.(idem := db.idem[k := row])
  }

  // ---------- when a transaction issues a write ----------

  /** The exact tuple is active, its task runs, and its state may still change. */
  predicate Live(db: Db, e: Tuple)
  {
    ActiveRow(db, e) && Mutable(db.attempts[SlotOf(e)].state)
  }

  /** A cancel was acknowledged and the attempt has not ended. */
  predicate CancelledLive(db: Db, e: Tuple)
  {
    && HasRows(db, e)
    && db.tasks[e.task].status == CancelPending
    && db.attempts[SlotOf(e)].state == CancelRequested
  }

  ghost predicate SuccessorAllowed(db: Db, w: Write)
    requires w.Succeed? && Applies(db, w)
  {
    var task := db.tasks[w.tuple.task];
    var a := Row(db, w.tuple);
    && Live(db, w.tuple) && !a.dispatched
    && task.transitionsUsed < task.transitionLimit
    && a.provider in task.plan.providers && w.provider in task.plan.providers
    && IndexOf(task.plan.providers, a.provider) < IndexOf(task.plan.providers, w.provider)
    && FailureOk(w.failure) && w.failure.kind == Retryable
    && TimeOk(w.now) && 250 <= w.jitter <= 750 && w.now + w.jitter < task.deadlineMs
    && (task.budget.Some? ==> Replacement(db, w.tuple, w.provider) <= task.budget.value)
    && (!w.recovered ==> Micro(Replacement(db, w.tuple, w.provider)))
  }

  /** `_durable_transition_result_locked` finds a valid row for the successor. */
  predicate DurableRow(db: Db, next: Tuple)
  {
    && HasAttempt(db, next) && next.task in db.tasks
    && FenceOk(Row(db, next).submitNotBefore, Row(db, next).createdAt, db.tasks[next.task].deadlineMs)
  }

  /** What a remembered answer asserts about the database is the case. */
  predicate Truthful(db: Db, r: Reply)
  {
    match r
    case Transitioned(next, _, _, fence, _, _) => DurableRow(db, next) && Row(db, next).submitNotBefore == fence
    case Recovered(next, _, fence) => DurableRow(db, next) && Row(db, next).submitNotBefore == fence
    case AckCancelled(e) => e.task in db.tasks && db.tasks[e.task].status != Running
    case _ => true
  }

  /** The answers each operation remembers. */
  predicate StoredKind(op: Operation, r: Reply)
  {
    match op
    case OpSubmit => r.Submitted?
    case OpObservation => r.Recorded?
    case OpTransition => r.Transitioned? || r.ObservationRecorded?
    case OpRecovery => r.Recovered? || r.RecoveredTerminal?
    case OpCancel => r.AckCancelled? || r.AckAlreadyTerminal?
    case OpFinalize => r.ClosedTerminal?
  }

  ghost predicate Guard(db: Db, w: Write)
  {
    && Applies(db, w)
    && (match w
        case Tombstone(plan, now) => plan.taskId !in db.tasks && ValidPlan(plan.taskId, plan) && TimeOk(now)
        case Admit(plan, id, now) =>
          && plan.taskId !in db.tasks && ValidPlan(plan.taskId, plan) && TimeOk(now)
          && (plan.budget.Some? ==> plan.ceilings[plan.providers[0]] <= plan.budget.value)
        case Note(e, body, now) => (body.Observed? || body.EventAppended?) && TimeOk(now)
        case SetState(e, s, payload, now) => Live(db, e) && IsCanonical(payload) && TimeOk(now)
        case SetDispatch(e, now) => Live(db, e) && !Row(db, e).dispatched && TimeOk(now)
        case SetCost(e, cost, body, now) =>
          && Live(db, e) && TimeOk(now)
          && body.Cost? && CostFactOk(body) && body.actual == cost
          && (cost.None? ==> Row(db, e).cost.None?) && Micro(Recosted(db, e, cost))
        case Cancel(e, now) => Live(db, e) && TimeOk(now)
        case Finish(e, cost, _, body, now) =>
          && (Live(db, e) || CancelledLive(db, e)) && TimeOk(now)
          && CompletionFactOk(body)
          && (if cost.Some? then Micro(cost.value) else Row(db, e).cost.None?)
          && (Micro(Recosted(db, e, cost)) || Recosted(db, e, cost) == db.tasks[e.task].reserved)
        case Orphan(e, now) => Live(db, e) && !Row(db, e).dispatched && TimeOk(now)
        case Succeed(_, _, _, _, _, _, _) => SuccessorAllowed(db, w)
        case FenceTool(e, call, digest) => Live(db, e) && Row(db, e).dispatched && FenceKey(e, call) !in db.fences
        case Memo(k, row) => k !in db.idem && StoredKind(k.operation, row.result) && Truthful(db, row.result))
  }

  /** Writes issued one after another, each allowed where it is issued. */
  ghost predicate Chain(db: Db, ws: seq<Write>)
    decreases |ws|
  {
    ws == [] || (Guard(db, ws[0]) && Chain(Put(db, ws[0]), ws[1..]))
  }

  ghost function PutAll(db: Db, ws: seq<Write>): Db
    requires Chain(db, ws)
    decreases |ws|
  {
    if ws == [] then db else PutAll(Put(db, ws[0]), ws[1..])
  }
}
