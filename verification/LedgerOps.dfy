/** What each public operation of the ledger answers and commits, as a function of
    the database, the volatile fence guards and the clocks. */
module LedgerOps {
  import opened Wrappers
  import opened Payload
  import opened LedgerTables
  import opened LedgerChecks
  import opened LedgerWrites
  import opened LedgerCircuit
  import opened SubmitFence

  /** A reply, the committed database, and the fence guards. */
  datatype Result = Result(reply: Reply, db: Db, guards: map<Tuple, int>)

  function Answer(db: Db, g: map<Tuple, int>, reply: Reply): Result { Result(reply, db, g) }

  /** An exception inside the transaction: ROLLBACK. */
  function Raise(db: Db, g: map<Tuple, int>, fault: Fault): Result { Result(Failed(fault), db, g) }

  function Remembered(db: Db, op: Operation, key: string): Option<Reply>
  {
    if IdemKey(op, key) in db.idem then Some(db.idem[IdemKey(op, key)].result) else None
  }

  function Remember(db: Db, op: Operation, key: string, e: Tuple, result: Reply): Db
  {
    Put(db, Memo(IdemKey(op, key), IdemRow(e, result)))
  }

  function RememberIf(db: Db, op: Operation, key: Option<string>, e: Tuple, result: Reply): Db
  {
    if key.Some? then Remember(db, op, key.value, e, result) else db
  }

  // ---------- admission ----------

  function CreateInitial(db: Db, g: map<Tuple, int>, t: TaskId, plan: Plan, id: AttemptId, now: int): Result
  {
    if !ValidPlan(t, plan) then Raise(db, g, InvalidInput)
    else if !TimeOk(now) then Raise(db, g, CorruptLedger)
    else if t in db.tasks then Raise(db, g, TaskExists)
    else
      var ceiling := plan.ceilings[plan.providers[0]];
      if now >= plan.deadlineMs || (plan.budget.Some? && plan.budget.value < ceiling) then
        Answer(Put(db, Tombstone(plan, now)), g, AdmissionRejected)
      else
        Answer(Put(db, Admit(plan, id, now)), g, Admitted(Tuple(t, id, 0), plan.providers[0], ceiling))
  }

  // ---------- submit, dispatch, tools ----------

  /** The submission itself, once both fences have passed. */
  function SubmitNow(db: Db, g: map<Tuple, int>, e: Tuple, provider: ProviderId, key: Option<string>, now: int): Result
    requires HasRows(db, e)
  {
    var reply := Submitted(e, provider);
    Answer(RememberIf(Put(db, SetState(e, ProviderStarted, JObject([]), now)), OpSubmit, key, e, reply), g, reply)
  }

  /** A submission of the active attempt. */
  function SubmitFound(db: Db, g: map<Tuple, int>, e: Tuple, plan: Plan, provider: ProviderId,
                       attemptDeadline: int, key: Option<string>, now: int, seen: int, mono: int): Result
    requires HasRows(db, e)
  {
    var a, task := Row(db, e), db.tasks[e.task];
    if a.provider != provider || Sha256(plan) != task.planHash || attemptDeadline > task.deadlineMs || attemptDeadline <= now
    then Answer(db, g, Rejected(StaleTuple))
    else
      var g' := GuardsAfter(g, e, a, task.deadlineMs, seen);
      match FenceReadiness(g, e, a, task.deadlineMs, now, seen, mono)
      case BadFence => Raise(db, g', CorruptLedger)
      case Wait(fence, retry) => Answer(db, g', NotReady(e, fence, retry))
      case Ready => SubmitNow(db, g', e, provider, key, now)
  }

  ghost function SubmitAttempt(db: Db, g: map<Tuple, int>, e: Tuple, plan: Plan, provider: ProviderId,
                               attemptDeadline: int, key: Option<string>, now: int, seen: int, mono: int): Result
  {
    if !ValidPlan(e.task, plan) || !TimeOk(attemptDeadline) then Answer(db, g, Rejected(BadInput))
    else if !TimeOk(now) then Raise(db, g, CorruptLedger)
    else if key.Some? && Remembered(db, OpSubmit, key.value).Some? then
      Answer(db, g, Duplicate(Remembered(db, OpSubmit, key.value).value))
    else match ActiveLookup(db, e)
      case Corrupt => Raise(db, g, CorruptLedger)
      case Missing => Answer(db, g, Rejected(StaleTuple))
      case Found => SubmitFound(db, g, e, plan, provider, attemptDeadline, key, now, seen, mono)
  }

  ghost function MarkDispatch(db: Db, g: map<Tuple, int>, e: Tuple, now: int, seen: int, mono: int): Result
  {
    if !TimeOk(now) then Raise(db, g, CorruptLedger)
    else match ActiveLookup(db, e)
      case Corrupt => Raise(db, g, CorruptLedger)
      case Missing => Answer(db, g, Nothing)
      case Found =>
        var a, task := Row(db, e), db.tasks[e.task];
        if now >= task.deadlineMs || a.dispatched then Answer(db, g, Nothing)
        else
          var g' := GuardsAfter(g, e, a, task.deadlineMs, seen);
          match FenceReadiness(g, e, a, task.deadlineMs, now, seen, mono)
          case BadFence => Raise(db, g', CorruptLedger)
          case Wait(fence, retry) => Answer(db, g', NotReady(e, fence, retry))
          case Ready => Answer(Put(db, SetDispatch(e, now)), g', DispatchMarked(e))
  }

  ghost function AuthorizeTool(db: Db, g: map<Tuple, int>, e: Tuple, call: string, digest: string,
                               now: int, seen: int, mono: int): Result
  {
    var k := FenceKey(e, call);
    if !TimeOk(now) then Raise(db, g, CorruptLedger)
    else if k in db.fences then
      Answer(db, g, if db.fences[k] == digest then AlreadyFenced(e, call) else Rejected(ToolIdReused))
    else match ActiveLookup(db, e)
      case Corrupt => Raise(db, g, CorruptLedger)
      case Missing => Answer(db, g, Rejected(StaleTuple))
      case Found =>
        var a, task := Row(db, e), db.tasks[e.task];
        if now >= task.deadlineMs || !Mutable(a.state) then Answer(db, g, Rejected(StaleTuple))
        else
          var g' := GuardsAfter(g, e, a, task.deadlineMs, seen);
          match FenceReadiness(g, e, a, task.deadlineMs, now, seen, mono)
          case BadFence => Raise(db, g', CorruptLedger)
          case Wait(fence, retry) => Answer(db, g', NotReady(e, fence, retry))
          case Ready =>
            if a.dispatched then Answer(Put(db, FenceTool(e, call, digest)), g', Fenced(e, call))
            else Answer(Put(Put(db, SetDispatch(e, now)), FenceTool(e, call, digest)), g', FirstFenced(e, call))
  }

  // ---------- observations, events, states ----------

  /** The observation of a remembered result. */
  function StoredObservation(r: Reply): Option<Failure>
  {
    match r
    case Recorded(_, f, _) => Some(f)
    case ObservationRecorded(_, f, _, _, _) => Some(f)
    case _ => None
  }

  ghost function RecordObservation(db: Db, g: map<Tuple, int>, e: Tuple, failure: Failure, key: string,
                                   source: Option<FailureSource>, now: int): Result
  {
    if !FailureOk(failure) then Answer(db, g, Rejected(BadInput))
    else if !TimeOk(now) then Raise(db, g, CorruptLedger)
    else if Remembered(db, OpObservation, key).Some? then
      (match StoredObservation(Remembered(db, OpObservation, key).value)
       case None => Raise(db, g, MissingField)
       case Some(f) => Answer(db, g, AlreadyRecorded(f)))
    else match ActiveLookup(db, e)
      case Corrupt => Raise(db, g, CorruptLedger)
      case Missing => Answer(db, g, Rejected(StaleTuple))
      case Found =>
        if now >= db.tasks[e.task].deadlineMs then Answer(db, g, Rejected(StaleTuple))
        else Answer(Observe(db, e, failure, source, key, now), g, Recorded(e, failure, source))
  }

  /** The observation fact and its idempotency row. */
  function Observe(db: Db, e: Tuple, failure: Failure, source: Option<FailureSource>, key: string, now: int): Db
    requires HasRows(db, e)
  {
    Remember(Put(db, Note(e, Observed(failure, source), now)), OpObservation, key, e, Recorded(e, failure, source))
  }

  ghost function AppendEvent(db: Db, g: map<Tuple, int>, e: Tuple, kind: string, data: CanonicalJson, now: int): Result
  {
    if !TimeOk(now) then Raise(db, g, CorruptLedger)
    else match ActiveLookup(db, e)
      case Corrupt => Raise(db, g, CorruptLedger)
      case Missing => Answer(db, g, Nothing)
      case Found =>
        if now >= db.tasks[e.task].deadlineMs then Answer(db, g, Nothing)
        else Answer(Put(db, Note(e, EventAppended(kind, data), now)), g, EventKept(e))
  }

  ghost function MutateState(db: Db, g: map<Tuple, int>, e: Tuple, state: ProviderState, payload: CanonicalJson, now: int): Result
  {
    if !TimeOk(now) then Raise(db, g, CorruptLedger)
    else match ActiveLookup(db, e)
      case Corrupt => Raise(db, g, CorruptLedger)
      case Missing => Answer(db, g, Nothing)
      case Found =>
        if now >= db.tasks[e.task].deadlineMs then Answer(db, g, Nothing)
        else Answer(Put(db, SetState(e, state, payload, now)), g, StateKept(e, state))
  }

  // ---------- costs ----------

  ghost function RecordCost(db: Db, g: map<Tuple, int>, e: Tuple, actual: Option<int>, source: Option<CostSource>, now: int): Result
  {
    if actual.Some? && !Micro(actual.value) then Raise(db, g, InvalidInput)
    else if !TimeOk(now) then Raise(db, g, CorruptLedger)
    else match ActiveLookup(db, e)
      case Corrupt => Raise(db, g, CorruptLedger)
      case Missing => Answer(db, g, Nothing)
      case Found =>
        var a, task := Row(db, e), db.tasks[e.task];
        if now >= task.deadlineMs || (a.cost.Some? && actual.None?) then Answer(db, g, Nothing)
        else if !Micro(task.reserved - a.reserved + Reservation(a, actual)) then Raise(db, g, CorruptLedger)
        else if !CostPayloadOk(actual, source) then Raise(db, g, InvalidInput)
        else Answer(Put(db, SetCost(e, actual, Cost(actual, source), now)), g, CostKept(e, actual, Reservation(a, actual)))
  }

  datatype Evidence = Evidence(actual: Option<int>, source: CostSource)

  /** `_validated_cost_evidence` accepts. */
  predicate EvidenceOk(ev: Option<Evidence>)
  {
    ev.Some? ==> (if ev.value.actual.Some? then Micro(ev.value.actual.value) && ev.value.source != Unavailable
                  else ev.value.source == Unavailable)
  }

  /** Two known cost facts disagree, or one disagrees with the evidence. */
  predicate CostsDisagree(costs: seq<FactBody>, actual: Option<int>)
  {
    || (exists i, j | 0 <= i < |costs| && 0 <= j < |costs| && KnownCost(costs[i]) && KnownCost(costs[j]) ::
          costs[i].actual != costs[j].actual)
    || (actual.Some? && exists i | 0 <= i < |costs| && KnownCost(costs[i]) :: costs[i].actual != actual)
  }

  predicate KnownCost(b: FactBody) { b.Cost? && b.actual.Some? }

  /** Some cost fact already carries the evidence. */
  predicate CostCompatible(costs: seq<FactBody>, actual: Option<int>)
  {
    exists i | 0 <= i < |costs| :: costs[i].Cost? && costs[i].actual == actual
  }

  /** `_apply_cost_evidence_locked`: None when it raises CorruptLedger. */
  ghost function ApplyEvidence(db: Db, e: Tuple, ev: Evidence, now: int, allowCancel: bool): (r: Option<Db>)
    requires HasRows(db, e)
    ensures r.Some? ==> HasRows(r.value, e) && (!allowCancel ==> ActiveLookup(r.value, e).Found?)
  {
    var a, task, costs := Row(db, e), db.tasks[e.task], FactsOf(db.outbox, e).costs;
    var final := if a.cost.Some? then a.cost else ev.actual;
    if CostsDisagree(costs, ev.actual) then None
    else if a.cost.Some? && ev.actual.Some? && a.cost != ev.actual then None
    else if !Micro(task.reserved - a.reserved + Reservation(a, final)) then None
    else if CostCompatible(costs, ev.actual) && final == a.cost then Refreshed(db, e, allowCancel)
    else if !Mutable(a.state) || (a.cancelRequested && !allowCancel) then None
    else if task.status != Running && !(allowCancel && task.status == CancelPending) then None
    else Refreshed(Put(db, SetCost(e, final, Cost(ev.actual, Some(ev.source)), now)), e, allowCancel)
  }

  /** The final `_active` of the evidence step. */
  ghost function Refreshed(db: Db, e: Tuple, allowCancel: bool): Option<Db>
  {
    match ActiveLookup(db, e)
    case Corrupt => None
    case Missing => if allowCancel then Some(db) else None
    case Found => Some(db)
  }

  // ---------- transitions ----------

  datatype Precheck = PreStale | PreCorrupt | PreRefused(reason: Reason) | PreEligible

  /** `_transition_precheck_locked` */
  ghost function TransitionPrecheck(db: Db, e: Tuple, successor: ProviderId, jitter: int,
                                    planHash: Option<PlanHash>, now: int): (r: Precheck)
    ensures r.PreEligible? || r.PreRefused? ==> ActiveLookup(db, e).Found?
    ensures r.PreEligible? ==> successor in db.tasks[e.task].plan.providers
  {
    match ActiveLookup(db, e)
    case Corrupt => PreCorrupt
    case Missing => PreStale
    case Found =>
      var a, task := Row(db, e), db.tasks[e.task];
      if planHash.Some? && planHash.value != task.planHash then PreRefused(PlanMismatch)
      else if a.dispatched then PreRefused(AlreadyDispatched)
      else if now + jitter >= task.deadlineMs then PreRefused(DeadlineExpired)
      else if task.transitionsUsed >= task.transitionLimit then PreRefused(LimitReached)
      else if successor !in task.plan.providers then PreRefused(OrderInvalid)
      else if IndexOf(task.plan.providers, successor) <= IndexOf(task.plan.providers, a.provider) then PreRefused(OrderInvalid)
      else match CircuitOpen(db, a.provider, now, task.plan.providers)
        case None => PreCorrupt
        case Some(open) =>
          if open then PreRefused(CircuitIsOpen)
          else if !Micro(Replacement(db, e, successor)) then PreCorrupt
          else if task.budget.Some? && Replacement(db, e, successor) > task.budget.value then PreRefused(BudgetUnavailable)
          else PreEligible
  }

  /** `_direct_transition_jitter` */
  function DirectJitter(jitter: int, allowLegacyZero: bool): Option<int>
  {
    if jitter == 0 && allowLegacyZero then Some(250)
    else if 250 <= jitter <= 750 then Some(jitter)
    else None
  }

  function GuardsWithSuccessor(g: map<Tuple, int>, next: Tuple, jitter: int, mono: int): map<Tuple, int>
  {
    g[next := mono + jitter * NS_PER_MS]
  }

  /** A replayed transition result takes its fence from the durable row; None raises. */
  function Durable(db: Db, result: Reply): Option<Reply>
  {
    match result
    case Transitioned(next, p, r, _, k, s) =>
      if DurableRow(db, next) then Some(Transitioned(next, p, r, Row(db, next).submitNotBefore, k, s)) else None
    case Recovered(next, p, _) =>
      if DurableRow(db, next) then Some(Recovered(next, p, Row(db, next).submitNotBefore)) else None
    case _ => Some(result)
  }

  /** `_apply_transition_locked` */
  function ApplyOnce(db: Db, g: map<Tuple, int>, e: Tuple, successor: ProviderId, failure: Failure, delay: int,
                     key: Option<string>, id: AttemptId, now: int, mono: int): Result
    requires HasRows(db, e) && successor in db.tasks[e.task].plan.ceilings
  {
    var next := SuccessorOf(e, id);
    var reply := Transitioned(next, successor, db.tasks[e.task].plan.ceilings[successor], now + delay, None, None);
    var db1 := Put(db, Succeed(e, id, successor, failure, delay, false, now));
    Answer(RememberIf(db1, OpTransition, key, e, reply), GuardsWithSuccessor(g, next, delay, mono), reply)
  }

  ghost function TransitionOnce(db: Db, g: map<Tuple, int>, e: Tuple, successor: ProviderId, failure: Failure,
                                jitter: int, planHash: Option<PlanHash>, key: Option<string>,
                                id: AttemptId, now: int, mono: int): Result
  {
    if !FailureOk(failure) then Raise(db, g, InvalidInput)
    else if failure.kind != Retryable then Answer(db, g, Nothing)
    else match DirectJitter(jitter, planHash.None? && key.None?)
      case None => Answer(db, g, Nothing)
      case Some(delay) =>
        if !TimeOk(now) then Raise(db, g, CorruptLedger)
        else if key.Some? && Remembered(db, OpTransition, key.value).Some? then
          (match Durable(db, Remembered(db, OpTransition, key.value).value)
           case None => Raise(db, g, CorruptLedger)
           case Some(r) => Answer(db, g, r))
        else match TransitionPrecheck(db, e, successor, delay, planHash, now)
          case PreCorrupt => Raise(db, g, CorruptLedger)
          case PreStale => Answer(db, g, Nothing)
          case PreRefused(_) => Answer(db, g, Nothing)
          case PreEligible => ApplyOnce(db, g, e, successor, failure, delay, key, id, now, mono)
  }

  /** `_observation_binding_matches` */
  predicate ObservationBound(db: Db, key: string, e: Tuple, failure: Failure, source: FailureSource)
  {
    && IdemKey(OpObservation, key) in db.idem
    && db.idem[IdemKey(OpObservation, key)] == IdemRow(e, Recorded(e, failure, Some(source)))
    && exists i | 0 <= i < |db.outbox| :: db.outbox[i].key == e && db.outbox[i].body == Observed(failure, Some(source))
  }

  function BoundObservation(result: Reply): Option<string>
  {
    match result
    case Transitioned(_, _, _, _, k, _) => k
    case ObservationRecorded(_, _, _, _, k) => k
    case _ => None
  }

  /** A soft barrier: the still active tuple may keep the evidence. */
  predicate Soft(r: Reason) { r in {OrderInvalid, CircuitIsOpen, LimitReached, BudgetUnavailable} }

  /** The observation of a fused call, unless its key already holds it. */
  function ObserveOnce(db: Db, e: Tuple, failure: Failure, source: FailureSource, key: string, now: int): (r: Db)
    requires HasRows(db, e)
    ensures r.tasks == db.tasks && r.attempts == db.attempts && r.control == db.control
  {
    if Remembered(db, OpObservation, key).Some? then db else Observe(db, e, failure, Some(source), key, now)
  }

  function KeepObservation(db: Db, g: map<Tuple, int>, e: Tuple, failure: Failure, source: FailureSource,
                           obsKey: string, key: string, reason: Reason, now: int): Result
    requires HasRows(db, e)
  {
    var reply := ObservationRecorded(e, failure, Some(source), reason, Some(obsKey));
    Answer(Remember(ObserveOnce(db, e, failure, source, obsKey, now), OpTransition, key, e, reply), g, reply)
  }

  /** A fused call whose key is new. */
  ghost function FusedFresh(db: Db, g: map<Tuple, int>, e: Tuple, successor: ProviderId, failure: Failure,
                            source: FailureSource, jitter: int, planHash: PlanHash, obsKey: string, key: string,
                            ev: Option<Evidence>, id: AttemptId, now: int, mono: int): Result
  {
    match TransitionPrecheck(db, e, successor, jitter, Some(planHash), now)
      case PreCorrupt => Raise(db, g, CorruptLedger)
      case PreStale => Answer(db, g, Rejected(StaleTuple))
      case PreRefused(reason) =>
        if !Soft(reason) then Answer(db, g, Rejected(reason))
        else if ev.None? then KeepObservation(db, g, e, failure, source, obsKey, key, reason, now)
        else (match ApplyEvidence(db, e, ev.value, now, false)
              case None => Raise(db, g, CorruptLedger)
              case Some(db1) => KeepObservation(db1, g, e, failure, source, obsKey, key, reason, now))
      case PreEligible =>
        if ev.None? then FusedApply(db, g, e, successor, failure, source, jitter, obsKey, key, id, now, mono)
        else match ApplyEvidence(db, e, ev.value, now, false)
          case None => Raise(db, g, CorruptLedger)
          case Some(db1) =>
            match TransitionPrecheck(db1, e, successor, jitter, Some(planHash), now)
            case PreCorrupt => Raise(db, g, CorruptLedger)
            case PreStale => Answer(db1, g, Rejected(StaleTuple))       // returns: the evidence is committed
            case PreRefused(reason) =>
              if !Soft(reason) then Answer(db1, g, Rejected(reason))    // returns: the evidence is committed
              else KeepObservation(db1, g, e, failure, source, obsKey, key, reason, now)
            case PreEligible => FusedApply(db1, g, e, successor, failure, source, jitter, obsKey, key, id, now, mono)
  }

  /** `record_retryable_observation_and_transition_once` */
  ghost function FusedTransition(db: Db, g: map<Tuple, int>, e: Tuple, successor: ProviderId, failure: Failure,
                                 source: FailureSource, jitter: int, planHash: PlanHash, obsKey: string, key: string,
                                 ev: Option<Evidence>, id: AttemptId, now: int, mono: int): Result
  {
    if !FailureOk(failure) then Raise(db, g, InvalidInput)
    else if failure.kind != Retryable || failure.code == PreDispatchTimeout then Answer(db, g, Rejected(BadInput))
    else if obsKey == key || !(250 <= jitter <= 750) || !EvidenceOk(ev) then Answer(db, g, Rejected(BadInput))
    else if !TimeOk(now) then Raise(db, g, CorruptLedger)
    else if Remembered(db, OpTransition, key).Some? then
      FusedReplay(db, g, e, failure, source, obsKey, Remembered(db, OpTransition, key).value)
    else if Remembered(db, OpObservation, obsKey).Some? && !ObservationBound(db, obsKey, e, failure, source) then
      Answer(db, g, Rejected(ObservationMismatch))
    else FusedFresh(db, g, e, successor, failure, source, jitter, planHash, obsKey, key, ev, id, now, mono)
  }

  function FusedReplay(db: Db, g: map<Tuple, int>, e: Tuple, failure: Failure, source: FailureSource,
                       obsKey: string, prior: Reply): Result
  {
    if BoundObservation(prior) != Some(obsKey) || !ObservationBound(db, obsKey, e, failure, source) then
      Answer(db, g, Rejected(MissingObservation))
    else match Durable(db, prior)
      case None => Raise(db, g, CorruptLedger)
      case Some(r) => Answer(db, g, Duplicate(r))
  }

  function FusedApply(db: Db, g: map<Tuple, int>, e: Tuple, successor: ProviderId, failure: Failure,
                      source: FailureSource, jitter: int, obsKey: string, key: string,
                      id: AttemptId, now: int, mono: int): Result
    requires HasRows(db, e) && successor in db.tasks[e.task].plan.ceilings
  {
    var next := SuccessorOf(e, id);
    var reply := Transitioned(next, successor, db.tasks[e.task].plan.ceilings[successor], now + jitter, Some(obsKey), Some(source));
    var db1 := ObserveOnce(db, e, failure, source, obsKey, now);
    var db2 := Put(db1, Succeed(e, id, successor, failure, jitter, false, now));
    Answer(Remember(db2, OpTransition, key, e, reply), GuardsWithSuccessor(g, next, jitter, mono), reply)
  }

  const PRE_DISPATCH_TIMEOUT: Failure := Failure(Retryable, PreDispatchTimeout, true)

  /** The provider recovery moves to, if the order allows one. */
  function RecoveryTarget(providers: seq<ProviderId>, current: ProviderId, asked: Option<ProviderId>): Option<ProviderId>
    requires current in providers
  {
    var i := IndexOf(providers, current);
    if i + 1 >= |providers| then None
    else
      var target := if asked.Some? && asked.value != "" then asked.value else providers[i + 1];
      if target in providers && IndexOf(providers, target) > i then Some(target) else None
  }

  ghost function RecoverAndTransition(db: Db, g: map<Tuple, int>, e: Tuple, key: string, jitter: int,
                                      failure: Option<Failure>, asked: Option<ProviderId>,
                                      id: AttemptId, now: int, mono: int): Result
  {
    var f := if failure.Some? then failure.value else PRE_DISPATCH_TIMEOUT;
    match DirectJitter(jitter, failure.None? && asked.None?)
    case None => Answer(db, g, Rejected(BadInput))
    case Some(delay) =>
      if !FailureOk(f) then Raise(db, g, InvalidInput)
      else if f.kind != Retryable then Answer(db, g, Rejected(BadInput))
      else if !TimeOk(now) then Raise(db, g, CorruptLedger)
      else if Remembered(db, OpRecovery, key).Some? then
        (match Durable(db, Remembered(db, OpRecovery, key).value)
         case None => Raise(db, g, CorruptLedger)
         case Some(r) => Answer(db, g, r))
      else match ActiveLookup(db, e)
        case Corrupt => Raise(db, g, CorruptLedger)
        case Missing => Answer(db, g, Rejected(StaleTuple))
        case Found =>
          if Row(db, e).dispatched || now >= db.tasks[e.task].deadlineMs then RecoverUncertain(db, g, e, key, now)
          else RecoverForward(db, g, e, key, delay, f, asked, id, now, mono)
  }

  function RecoverUncertain(db: Db, g: map<Tuple, int>, e: Tuple, key: string, now: int): Result
    requires HasRows(db, e)
  {
    var cost, source := Row(db, e).cost, LatestCostSource(db.outbox, e);
    if !CostPayloadOk(cost, source) then Raise(db, g, InvalidInput)
    else
      var reply := RecoveredTerminal(e);
      var db1 := Put(db, Finish(e, cost, None, Completion(DoneUncertain, cost, source), now));
      Answer(Remember(db1, OpRecovery, key, e, reply), g, reply)
  }

  ghost function RecoverForward(db: Db, g: map<Tuple, int>, e: Tuple, key: string, delay: int, f: Failure,
                                asked: Option<ProviderId>, id: AttemptId, now: int, mono: int): Result
    requires ActiveLookup(db, e).Found?
  {
    var a, task := Row(db, e), db.tasks[e.task];
    if now + delay >= task.deadlineMs || task.transitionsUsed >= task.transitionLimit then Answer(db, g, Rejected(RecoveryBarrier))
    else match RecoveryTarget(task.plan.providers, a.provider, asked)
      case None => Answer(db, g, Rejected(RecoveryBarrier))
      case Some(target) =>
        match CircuitOpen(db, a.provider, now, task.plan.providers)
        case None => Raise(db, g, CorruptLedger)
        case Some(open) =>
          if open then Answer(db, g, Rejected(RecoveryBarrier))
          else if task.budget.Some? && Replacement(db, e, target) > task.budget.value then Answer(db, g, Rejected(BudgetUnavailable))
          else
            // no range check on the replacement here, unlike the precheck
            var next := SuccessorOf(e, id);
            var reply := Recovered(next, target, now + delay);
            var db1 := Put(db, Succeed(e, id, target, f, delay, true, now));
            Answer(Remember(db1, OpRecovery, key, e, reply), GuardsWithSuccessor(g, next, delay, mono), reply)
  }

  ghost function RecoverPreDispatch(db: Db, g: map<Tuple, int>, e: Tuple, now: int): Result
  {
    if !TimeOk(now) then Raise(db, g, CorruptLedger)
    else match ActiveLookup(db, e)
      case Corrupt => Raise(db, g, CorruptLedger)
      case Missing => Answer(db, g, Nothing)
      case Found =>
        var a, task := Row(db, e), db.tasks[e.task];
        if a.submitNotBefore != 0 && !a.dispatched && now < task.deadlineMs then Answer(db, g, PendingSubmit(e, a.submitNotBefore))
        else if a.dispatched || now >= task.deadlineMs then
          var source := LatestCostSource(db.outbox, e);
          if !CostPayloadOk(a.cost, source) then Raise(db, g, InvalidInput)
          else Answer(Put(db, Finish(e, a.cost, None, Completion(DoneUncertain, a.cost, source), now)), g,
                      ClosedTerminal(e, DoneUncertain, None))
        else Answer(Put(db, Orphan(e, now)), g, OrphanedReply(e))
  }

  // ---------- cancel and termination ----------

  function RequestCancel(db: Db, g: map<Tuple, int>, e: Tuple, key: string, now: int): Result
  {
    if !TimeOk(now) then Raise(db, g, CorruptLedger)
    else if Remembered(db, OpCancel, key).Some? then Answer(db, g, Remembered(db, OpCancel, key).value)
    else if !HasAttempt(db, e) || e.task !in db.tasks then Answer(db, g, AckUncertain)
    else if db.tasks[e.task].status != Running || Row(db, e).cancelRequested || EndedState(Row(db, e).state) then
      Answer(Remember(db, OpCancel, key, e, AckAlreadyTerminal(e)), g, AckAlreadyTerminal(e))
    else
      Answer(Remember(Put(db, Cancel(e, now)), OpCancel, key, e, AckCancelled(e)), g, AckCancelled(e))
  }

  ghost function RequestCancelIfActive(db: Db, g: map<Tuple, int>, e: Tuple, now: int): Result
  {
    if !TimeOk(now) then Raise(db, g, CorruptLedger)
    else match ActiveLookup(db, e)
      case Corrupt => Raise(db, g, CorruptLedger)
      case Missing => Answer(db, g, Nothing)
      case Found =>
        if now >= db.tasks[e.task].deadlineMs then Answer(db, g, Nothing)
        else Answer(Put(db, Cancel(e, now)), g, CancelAccepted(e))
  }

  ghost function Complete(db: Db, g: map<Tuple, int>, e: Tuple, outcome: Outcome, actual: Option<int>,
                          source: Option<CostSource>, now: int): Result
  {
    if actual.Some? && !Micro(actual.value) then Raise(db, g, InvalidInput)
    else if !TimeOk(now) then Raise(db, g, CorruptLedger)
    else match ActiveLookup(db, e)
      case Corrupt => Raise(db, g, CorruptLedger)
      case Missing => Answer(db, g, Nothing)
      case Found =>
        var a, task := Row(db, e), db.tasks[e.task];
        var final := if actual.Some? then actual else a.cost;
        var mark := if source.Some? then source else LatestCostSource(db.outbox, e);
        if now >= task.deadlineMs then Answer(db, g, Nothing)
        else if !Micro(task.reserved - a.reserved + Reservation(a, final)) then Raise(db, g, CorruptLedger)
        else if !CostPayloadOk(final, mark) then Raise(db, g, InvalidInput)
        else Answer(Put(db, Finish(e, final, None, Completion(outcome, final, mark), now)), g, ClosedTerminal(e, outcome, None))
  }

  predicate ClosableStatus(s: TaskStatus) { s == Running || s == CancelPending }

  /** The failure observation that accompanies a close. */
  function NoteFailure(db: Db, e: Tuple, failure: Option<Failure>, source: Option<FailureSource>, now: int): (r: Db)
    requires HasRows(db, e)
    ensures HasRows(r, e) && r.tasks == db.tasks && r.attempts == db.attempts
  {
    if failure.Some? then Put(db, Note(e, Observed(failure.value, source), now)) else db
  }

  /** A step inside a transaction: what it leaves, or what it raises. */
  datatype Tried = Worked(after: Db) | Raised(fault: Fault)

  /** Close the attempt, its task and its control row with a completion fact. */
  function CloseOut(db: Db, e: Tuple, outcome: Outcome, failure: Option<Failure>, failureSource: Option<FailureSource>,
                    reported: Option<int>, source: Option<CostSource>, now: int): Tried
    requires HasRows(db, e)
  {
    var db1 := NoteFailure(db, e, failure, failureSource, now);
    var mark := if source.Some? then source else LatestCostSource(db1.outbox, e);
    if !ClosableStatus(db.tasks[e.task].status) then Raised(CorruptLedger)
    else if !CostPayloadOk(reported, mark) then Raised(InvalidInput)
    else Worked(Put(db1, Finish(e, Row(db1, e).cost, failure, Completion(outcome, reported, mark), now)))
  }

  /** Reconcile the cost, then close. */
  ghost function ReconcileAndClose(db: Db, e: Tuple, outcome: Outcome, source: Option<CostSource>, failure: Option<Failure>,
                                   failureSource: Option<FailureSource>, ev: Option<Evidence>, now: int): Tried
    requires HasRows(db, e)
  {
    match (if ev.Some? then ApplyEvidence(db, e, ev.value, now, true) else Some(db))
    case None => Raised(CorruptLedger)
    case Some(db1) => CloseOut(db1, e, outcome, failure, failureSource, Row(db1, e).cost, source, now)
  }

  /** A terminal close of an attempt that has not ended. */
  ghost function CloseOpen(db: Db, g: map<Tuple, int>, e: Tuple, outcome: Outcome, source: Option<CostSource>,
                           failure: Option<Failure>, failureSource: Option<FailureSource>, key: Option<string>,
                           ev: Option<Evidence>, now: int): Result
    requires HasRows(db, e)
  {
    match ReconcileAndClose(db, e, outcome, source, failure, failureSource, ev, now)
    case Raised(fault) => Raise(db, g, fault)
    case Worked(db1) =>
      var reply := ClosedTerminal(e, outcome, failure);
      Answer(RememberIf(db1, OpFinalize, key, e, reply), g, reply)
  }

  ghost function CloseTerminal(db: Db, g: map<Tuple, int>, e: Tuple, outcome: Outcome, source: Option<CostSource>,
                               failure: Option<Failure>, failureSource: Option<FailureSource>, key: Option<string>,
                               ev: Option<Evidence>, now: int): Result
  {
    if (failure.Some? && !FailureOk(failure.value)) || failure.Some? != failureSource.Some? || !EvidenceOk(ev)
    then Raise(db, g, InvalidInput)
    else if !TimeOk(now) then Raise(db, g, CorruptLedger)
    else if key.Some? && Remembered(db, OpFinalize, key.value).Some? then
      Answer(db, g, Duplicate(Remembered(db, OpFinalize, key.value).value))
    else if !HasRows(db, e) || db.control[e.task].status == ControlTerminal || EndedState(Row(db, e).state) then
      Answer(db, g, Nothing)
    else
      CloseOpen(db, g, e, outcome, source, failure, failureSource, key, ev, now)
  }

  /** The outcome of the newest completion fact of an attempt. */
  function LatestOutcome(log: seq<Fact>, e: Tuple): Option<Outcome>
  {
    if log == [] then None
    else
      var f := log[|log| - 1];
      if f.key == e && f.body.Completion? then Some(f.body.outcome) else LatestOutcome(log[..|log| - 1], e)
  }

  /** The cost fact a terminal poll writes when the attempt has none yet. */
  function PollCost(db: Db, e: Tuple, final: Option<int>, source: Option<CostSource>, now: int): (r: Option<Db>)
    requires HasRows(db, e)
    ensures r.Some? ==> HasRows(r.value, e)
  {
    if FactsOf(db.outbox, e).costs != [] then Some(db)
    else
      var mark := if source.None? && final.None? then Some(Unavailable)
                   else if source.None? then LatestCostSource(db.outbox, e) else source;
      if !CostPayloadOk(final, mark) then None else Some(Put(db, SetCost(e, final, Cost(final, mark), now)))
  }

  /** The cost fact of the poll, then the close. */
  function PayAndClose(db: Db, e: Tuple, outcome: Outcome, final: Option<int>, source: Option<CostSource>,
                       failure: Option<Failure>, failureSource: Option<FailureSource>, now: int): Tried
    requires HasRows(db, e)
  {
    match PollCost(db, e, final, source, now)
    case None => Raised(InvalidInput)
    case Some(db1) => CloseOut(db1, e, outcome, failure, failureSource, final, source, now)
  }

  /** A terminal poll of an attempt that has not ended. */
  function PollForward(db: Db, g: map<Tuple, int>, e: Tuple, outcome: Outcome, actual: Option<int>, source: Option<CostSource>,
                       failure: Option<Failure>, failureSource: Option<FailureSource>, now: int): Result
    requires HasRows(db, e)
  {
    var a := Row(db, e);
    var final := if actual.Some? then actual else a.cost;
    if a.cost.Some? && actual.Some? && a.cost != actual then Raise(db, g, CorruptLedger)
    else if !Micro(db.tasks[e.task].reserved - a.reserved + Reservation(a, final)) then Raise(db, g, CorruptLedger)
    else
      match PayAndClose(db, e, outcome, final, source, failure, failureSource, now)
      case Raised(fault) => Raise(db, g, fault)
      case Worked(db1) => Answer(db1, g, TerminalCommitted(e, outcome))
  }

  function CompleteFromPoll(db: Db, g: map<Tuple, int>, e: Tuple, outcome: Outcome, actual: Option<int>,
                            source: Option<CostSource>, failure: Option<Failure>, failureSource: Option<FailureSource>,
                            now: int): Result
  {
    if || (actual.Some? && !Micro(actual.value))
       || (failure.Some? && (!FailureOk(failure.value) || failure.value.retryable))
       || failure.Some? != failureSource.Some?
    then Raise(db, g, InvalidInput)
    else if !TimeOk(now) then Raise(db, g, CorruptLedger)
    else if !HasRows(db, e) then Answer(db, g, Nothing)
    else if Row(db, e).state == TerminalState && db.control[e.task].status == ControlTerminal then
      match LatestOutcome(db.outbox, e)
      case None => Raise(db, g, CorruptLedger)
      case Some(o) => Answer(db, g, if o == outcome then TerminalCommitted(e, outcome) else Nothing)
    else if db.control[e.task].status == ControlTerminal || !Mutable(Row(db, e).state) then Answer(db, g, Nothing)
    else PollForward(db, g, e, outcome, actual, source, failure, failureSource, now)
  }
}
