/** The rows, the append-only outbox and the replies of the attempt ledger. */
module LedgerTables {
  import opened Wrappers
  import opened Payload

  type TaskId = string
  type AttemptId = string
  type ProviderId = string

  // ---------- the immutable plan ----------

  /** The numeric and ordering part of an immutable plan. */
  datatype Plan = Plan(taskId: TaskId, providers: seq<ProviderId>, ceilings: map<ProviderId, int>,
                       deadlineMs: int, transitionLimit: int, budget: Option<int>)

  /** A symbolic SHA-256: equal exactly for equal plans. */
  datatype PlanHash = Sha256(plan: Plan)

  predicate Micro(x: int) { 0 <= x <= SAFE_INTEGER_MAX }

  predicate TimeOk(x: int) { 0 < x <= SAFE_INTEGER_MAX }

  predicate ValidPlan(t: TaskId, p: Plan)
  {
    && p.taskId == t
    && 1 <= |p.providers| <= 64
    && (forall i, j | 0 <= i < j < |p.providers| :: p.providers[i] != p.providers[j])
    && (forall i | 0 <= i < |p.providers| :: p.providers[i] in p.ceilings)
    && (forall q | q in p.ceilings :: Micro(p.ceilings[q]))
    && TimeOk(p.deadlineMs)
    && 0 <= p.transitionLimit <= |p.providers| - 1
    && (p.budget.Some? ==> Micro(p.budget.value))
  }

  /** Python's list.index on a member. */
  function IndexOf(ps: seq<ProviderId>, p: ProviderId): (i: nat)
    requires p in ps
    ensures i < |ps| && ps[i] == p && p !in ps[..i]
  {
    if ps[0] == p then 0 else 1 + IndexOf(ps[1..], p)
  }

  lemma IndexOfMember(ps: seq<ProviderId>, i: nat)
    requires i < |ps| && forall a, b | 0 <= a < b < |ps| :: ps[a] != ps[b]
    ensures IndexOf(ps, ps[i]) == i
  {
    var k := IndexOf(ps, ps[i]);
    assert ps[k] == ps[i];
  }

  // ---------- failures ----------

  datatype FailureClass =
    | Retryable | Configuration | Authentication | Budget
    | SideEffectUncertainty | Timeout | Cancelled | Terminal

  datatype Code =
    | Connection | Dns | Http408 | Http429 | Http5xx | PreDispatchTimeout | DeterministicTimeout
    | Http400 | Http404 | BadConfiguration
    | Http401 | Http403 | MissingCredentials | InvalidCredentials
    | BudgetExceeded | DispatchUncertain | Uncertain | AttemptTimeout
    | OperatorCancel | TimeoutUncertain
    | Completed | EngineFailure | MalformedResponse | Unknown | ApprovalBlocked
    | Unlisted(text: string)

  datatype Failure = Failure(kind: FailureClass, code: Code, retryable: bool)

  const RETRYABLE_CODES: set<Code> :=
    {Connection, Dns, Http408, Http429, Http5xx, PreDispatchTimeout, DeterministicTimeout}

  function SafeCodes(kind: FailureClass): set<Code>
  {
    match kind
    case Retryable => RETRYABLE_CODES
    case Configuration => {Http400, Http404, BadConfiguration}
    case Authentication => {Http401, Http403, MissingCredentials, InvalidCredentials}
    case Budget => {BudgetExceeded}
    case SideEffectUncertainty => {DispatchUncertain, Uncertain}
    case Timeout => {AttemptTimeout}
    case Cancelled => {OperatorCancel, TimeoutUncertain}
    case Terminal => {Completed, EngineFailure, MalformedResponse, Unknown, ApprovalBlocked}
  }

  /** `_failure` accepts the value. */
  predicate FailureOk(f: Failure)
  {
    && (f.code == DeterministicTimeout || f.code in SafeCodes(f.kind))
    && f.retryable == f.kind.Retryable?
  }

  datatype FailureSource = Engine | Gateway | Recovery

  datatype CostSource = Exact | AccountDelta | Unavailable

  // ---------- rows ----------

  datatype Tuple = Tuple(task: TaskId, attempt: AttemptId, epoch: nat)

  datatype Outcome = DoneCompleted | DoneCancelled | DoneUncertain | DoneFailed | DoneTerminal

  datatype TaskStatus = RejectedTask | Running | CancelPending | OrphanedTask | Done(outcome: Outcome)

  datatype ProviderState =
    | ProviderReady | ProviderStarted | Queued | Starting | Connecting | Thinking
    | Processing | Streaming | Receiving | Waiting | Progress

  datatype AttemptState =
    | Active | Provider(provider: ProviderState)
    | CancelRequested | Closed | Orphaned | TerminalState

  datatype ControlStatus = ControlActive | ControlCancel | ControlTerminal

  datatype Task = Task(plan: Plan, planHash: PlanHash, status: TaskStatus, transitionsUsed: nat,
                       transitionLimit: int, deadlineMs: int, budget: Option<int>,
                       reserved: int, createdAt: int)

  /** `cost` joins the columns actual_cost_known and actual_cost_micro_usd. */
  datatype Attempt = Attempt(id: AttemptId, provider: ProviderId, state: AttemptState,
                             dispatched: bool, cancelRequested: bool,
                             reserved: int, cost: Option<int>, failure: Option<Failure>,
                             createdAt: int, closedAt: Option<int>, submitNotBefore: int)

  datatype Control = Control(attempt: AttemptId, epoch: nat, status: ControlStatus)

  /** The primary key (task_id, epoch) of the attempts table. */
  datatype Slot = Slot(task: TaskId, epoch: nat)

  // ---------- the outbox ----------

  datatype FactBody =
    | AttemptCreated(provider: ProviderId, planHash: PlanHash)
    | Transition(predecessor: Tuple, predecessorProvider: ProviderId,
                 successorProvider: ProviderId, failure: Failure)
    | Observed(observation: Failure, source: Option<FailureSource>)  // provider_event "observation"
    | EventAppended(kind: string, data: Json)                         // any other provider_event
    | Dispatch
    | Cost(actual: Option<int>, costSource: Option<CostSource>)
    | StateChange(state: ProviderState, payload: Json)
    | CancelAsked
    | Completion(outcome: Outcome, finalCost: Option<int>, completionSource: Option<CostSource>)
    | RecoveredBeforeDispatch

  /** An outbox row; its outbox_id is its position plus one. */
  datatype Fact = Fact(key: Tuple, body: FactBody, at: int)

  /** A row of circuit_transition_authority.  The digest column is symbolic: it
      is the hashed record itself, so a row carries the same record twice. */
  datatype WitnessRecord = WitnessRecord(transitionId: nat, predecessor: Tuple, predecessorProvider: ProviderId,
                                         successor: Tuple, successorProvider: ProviderId, createdAt: int)

  datatype Witness = Witness(columns: WitnessRecord, digest: WitnessRecord)

  // ---------- replies and idempotency ----------

  datatype Reason =
    | BadInput | StaleTuple | PlanMismatch | AlreadyDispatched | DeadlineExpired
    | LimitReached | OrderInvalid | CircuitIsOpen | BudgetUnavailable
    | MissingObservation | ObservationMismatch | RecoveryBarrier | ToolIdReused

  /** An exception; MissingField is the KeyError of a remembered result without the field. */
  datatype Fault = InvalidInput | TaskExists | CorruptLedger | MissingField

  datatype Reply =
    | Failed(fault: Fault)                       // an exception: the transaction rolled back
    | AdmissionRejected                          // an exception after the commit of a tombstone
    | Admitted(tuple: Tuple, provider: ProviderId, reserved: int)
    | Rejected(reason: Reason)
    | Nothing                                    // Python's None
    | NotReady(tuple: Tuple, fence: int, retryAfterMs: int)
    | Submitted(tuple: Tuple, provider: ProviderId)
    | Recorded(tuple: Tuple, observation: Failure, source: Option<FailureSource>)
    | AlreadyRecorded(observation: Failure)      // a replay: the stored observation alone
    | ObservationRecorded(tuple: Tuple, observation: Failure, source: Option<FailureSource>,
                          reason: Reason, observationKey: Option<string>)
    | Transitioned(successor: Tuple, provider: ProviderId, reserved: int, fence: int,
                   observationKey: Option<string>, source: Option<FailureSource>)
    | Recovered(successor: Tuple, provider: ProviderId, fence: int)
    | RecoveredTerminal(tuple: Tuple)
    | FirstFenced(tuple: Tuple, call: string)
    | Fenced(tuple: Tuple, call: string)
    | AlreadyFenced(tuple: Tuple, call: string)
    | AckCancelled(tuple: Tuple)
    | AckAlreadyTerminal(tuple: Tuple)
    | AckUncertain
    | EventKept(tuple: Tuple)
    | DispatchMarked(tuple: Tuple)
    | CostKept(tuple: Tuple, cost: Option<int>, reserved: int)
    | StateKept(tuple: Tuple, state: ProviderState)
    | CancelAccepted(tuple: Tuple)
    | ClosedTerminal(tuple: Tuple, outcome: Outcome, closingFailure: Option<Failure>)
    | TerminalCommitted(tuple: Tuple, outcome: Outcome)
    | OrphanedReply(tuple: Tuple)
    | PendingSubmit(tuple: Tuple, fence: int)
    | Duplicate(prior: Reply)                    // the stored result, marked as a replay

  datatype Operation = OpSubmit | OpObservation | OpTransition | OpRecovery | OpCancel | OpFinalize

  datatype IdemKey = IdemKey(operation: Operation, key: string)

  datatype IdemRow = IdemRow(tuple: Tuple, result: Reply)

  datatype FenceKey = FenceKey(tuple: Tuple, call: string)

  // ---------- the database ----------

  datatype Db = Db(
    tasks: map<TaskId, Task>,
    attempts: map<Slot, Attempt>,
    control: map<TaskId, Control>,
    outbox: seq<Fact>,
    witnesses: seq<Witness>,
    idem: map<IdemKey, IdemRow>,
    fences: map<FenceKey, string>)

  const EMPTY: Db := Db(map[], map[], map[], [], [], map[], map[])

  predicate Mutable(s: AttemptState) { s.Active? || s.Provider? }

  predicate EndedState(s: AttemptState) { s.Closed? || s.TerminalState? || s.Orphaned? }

  function SlotOf(e: Tuple): Slot { Slot(e.task, e.epoch) }

  /** The attempt row with exactly this (task, attempt, epoch). */
  predicate HasAttempt(db: Db, e: Tuple)
  {
    SlotOf(e) in db.attempts && db.attempts[SlotOf(e)].id == e.attempt
  }

  /** The tuple names the row active_control points at. */
  predicate Controls(db: Db, e: Tuple)
  {
    && e.task in db.control
    && db.control[e.task].attempt == e.attempt
    && db.control[e.task].epoch == e.epoch
  }

  /** `_validate_persisted_fence_values` accepts the row. */
  predicate FenceOk(fence: int, created: int, deadline: int)
  {
    && 0 <= fence <= SAFE_INTEGER_MAX
    && TimeOk(created)
    && TimeOk(deadline)
    && (fence == 0 || (fence < deadline && 250 <= fence - created <= 750))
  }

  /** `_cost_payload` accepts the pair. */
  predicate CostPayloadOk(actual: Option<int>, source: Option<CostSource>)
  {
    actual.None? && source.Some? ==> source.value == Unavailable
  }

  // ---------- what one attempt's facts say ----------

  datatype IdentityFact = IdentityFact(id: nat, body: FactBody, at: int)

  /** `_checked_plan`'s dictionaries, at one key. */
  datatype KeyFacts = KeyFacts(
    identities: seq<IdentityFact>,
    costs: seq<FactBody>,
    lastState: Option<ProviderState>,
    dispatches: nat, cancels: nat, completions: nat, recoveries: nat,
    firstRelated: Option<nat>, lastRelated: Option<nat>)

  const NO_FACTS: KeyFacts := KeyFacts([], [], None, 0, 0, 0, 0, None, None)

  function Related(d: KeyFacts, id: nat): KeyFacts
  {
    d.(firstRelated := if d.firstRelated.Some? then d.firstRelated else Some(id), lastRelated := Some(id))
  }

  /** File one fact under its key. */
  function Absorb(d: KeyFacts, f: Fact, id: nat): KeyFacts
  {
    match f.body
    case AttemptCreated(_, _) => d.(identities := d.identities + [IdentityFact(id, f.body, f.at)])
    case Transition(_, _, _, _) => d.(identities := d.identities + [IdentityFact(id, f.body, f.at)])
    case Cost(_, _) => Related(d.(costs := d.costs + [f.body]), id)
    case StateChange(s, _) => Related(d.(lastState := Some(s)), id)
    case Dispatch => Related(d.(dispatches := d.dispatches + 1), id)
    case CancelAsked => Related(d.(cancels := d.cancels + 1), id)
    case Completion(_, _, _) => Related(d.(completions := d.completions + 1), id)
    case RecoveredBeforeDispatch => Related(d.(recoveries := d.recoveries + 1), id)
    case Observed(_, _) => d
    case EventAppended(_, _) => d
  }

  /** All facts of one key, in outbox order. */
  function FactsOf(log: seq<Fact>, k: Tuple): KeyFacts
  {
    if log == [] then NO_FACTS
    else
      var f := log[|log| - 1];
      var d := FactsOf(log[..|log| - 1], k);
      if f.key == k then Absorb(d, f, |log|) else d
  }

  lemma FactsOfAppend(log: seq<Fact>, f: Fact, k: Tuple)
    ensures FactsOf(log + [f], k) ==
            if f.key == k then Absorb(FactsOf(log, k), f, |log| + 1) else FactsOf(log, k)
  {
    assert (log + [f])[..|log|] == log;
  }

  lemma {:induction false} NoFactsOf(log: seq<Fact>, k: Tuple)
    requires forall i | 0 <= i < |log| :: log[i].key != k
    ensures FactsOf(log, k) == NO_FACTS
  {
    if log != [] { NoFactsOf(log[..|log| - 1], k); }
  }

  /** Ids filed under a key are outbox ids. */
  lemma {:induction false} FactIdsInRange(log: seq<Fact>, k: Tuple)
    ensures var d := FactsOf(log, k);
            && (forall i | 0 <= i < |d.identities| :: 1 <= d.identities[i].id <= |log|)
            && (d.firstRelated.Some? ==> 1 <= d.firstRelated.value <= |log|)
            && (d.lastRelated.Some? ==> 1 <= d.lastRelated.value <= |log|)
            && (d.firstRelated.Some? <==> d.lastRelated.Some?)
  {
    if log != [] {
      FactIdsInRange(log[..|log| - 1], k);
    }
  }

  /** Only cost facts are filed among the costs. */
  lemma {:induction false} CostFactsAreListed(log: seq<Fact>, e: Tuple)
    ensures forall i | 0 <= i < |FactsOf(log, e).costs| :: FactsOf(log, e).costs[i].Cost?
  {
    if log != [] { CostFactsAreListed(log[..|log| - 1], e); }
  }

  /** The source of the newest cost fact, if it has one. */
  function LatestCostSource(log: seq<Fact>, e: Tuple): Option<CostSource>
  {
    var costs := FactsOf(log, e).costs;
    if costs == [] then None
    else match costs[|costs| - 1]
         case Cost(_, s) => s
         case _ => None
  }

  // ---------- sums ----------

  /** The reservations of a task's attempts with epoch below n. */
  function Sum(attempts: map<Slot, Attempt>, t: TaskId, n: nat): int
  {
    if n == 0 then 0
    else Sum(attempts, t, n - 1) + if Slot(t, n - 1) in attempts then attempts[Slot(t, n - 1)].reserved else 0
  }

  lemma {:induction false} SumFrame(before: map<Slot, Attempt>, after: map<Slot, Attempt>, t: TaskId, n: nat)
    requires forall e: nat | e < n :: Slot(t, e) in before && Slot(t, e) in after
                                      && before[Slot(t, e)].reserved == after[Slot(t, e)].reserved
    ensures Sum(before, t, n) == Sum(after, t, n)
  {
    if n > 0 { SumFrame(before, after, t, n - 1); }
  }

  lemma {:induction false} SumMonotone(attempts: map<Slot, Attempt>, t: TaskId, m: nat, n: nat)
    requires m <= n
    requires forall e: nat | e < n && Slot(t, e) in attempts :: attempts[Slot(t, e)].reserved >= 0
    ensures 0 <= Sum(attempts, t, m) <= Sum(attempts, t, n)
  {
    if n > 0 {
      SumMonotone(attempts, t, if m < n then m else m - 1, n - 1);
    }
  }
}
