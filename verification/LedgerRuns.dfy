/** Whole runs of the ledger: any sequence of operations and process restarts. */
module LedgerRuns {
  import opened Wrappers
  import opened Payload
  import opened LedgerTables
  import opened LedgerChecks
  import opened LedgerWrites
  import opened LedgerInvariant
  import opened LedgerFold
  import opened LedgerCircuit
  import opened SubmitFence
  import opened LedgerOps
  import opened LedgerChains
  import opened LedgerBudget
  import opened LedgerHistory

  /** The database, and the fence guards of the current process. */
  datatype State = State(db: Db, guards: map<Tuple, int>)

  const START: State := State(EMPTY, map[])

  /** One call with its clock readings (`now` wall milliseconds, `seen` and `mono`
      monotonic nanoseconds) and the identifier it would draw. */
  datatype Event =
    | Creating(t: TaskId, plan: Plan, id: AttemptId, now: int)
    | Submitting(e: Tuple, plan: Plan, provider: ProviderId, attemptDeadline: int, token: Option<string>, now: int, seen: int, mono: int)
    | Dispatching(e: Tuple, now: int, seen: int, mono: int)
    | FencingTool(e: Tuple, call: string, digest: string, now: int, seen: int, mono: int)
    | Observing(e: Tuple, failure: Failure, key: string, origin: Option<FailureSource>, now: int)
    | Appending(e: Tuple, kind: string, data: CanonicalJson, now: int)
    | Mutating(e: Tuple, state: ProviderState, data: CanonicalJson, now: int)
    | Costing(e: Tuple, actual: Option<int>, source: Option<CostSource>, now: int)
    | Transitioning(e: Tuple, successor: ProviderId, failure: Failure, jitter: int, planHash: Option<PlanHash>,
                    token: Option<string>, id: AttemptId, now: int, mono: int)
    | Fusing(e: Tuple, successor: ProviderId, failure: Failure, engine: FailureSource, jitter: int, hash: PlanHash,
             obsKey: string, key: string, ev: Option<Evidence>, id: AttemptId, now: int, mono: int)
    | Recovering(e: Tuple, key: string, jitter: int, cause: Option<Failure>, asked: Option<ProviderId>,
                 id: AttemptId, now: int, mono: int)
    | RecoveringBeforeDispatch(e: Tuple, now: int)
    | Cancelling(e: Tuple, key: string, now: int)
    | CancellingIfActive(e: Tuple, now: int)
    | Completing(e: Tuple, outcome: Outcome, actual: Option<int>, source: Option<CostSource>, now: int)
    | Closing(e: Tuple, outcome: Outcome, source: Option<CostSource>, cause: Option<Failure>, origin: Option<FailureSource>,
              token: Option<string>, ev: Option<Evidence>, now: int)
    | Polling(e: Tuple, outcome: Outcome, actual: Option<int>, source: Option<CostSource>, cause: Option<Failure>,
              origin: Option<FailureSource>, now: int)
    | Restarting(now: int)

  ghost function Step(s: State, ev: Event): Result
  {
    var db, g := s.db, s.guards;
    match ev
    case Creating(t, plan, id, now) => CreateInitial(db, g, t, plan, id, now)
    case Submitting(e, plan, p, d, k, now, seen, mono) => SubmitAttempt(db, g, e, plan, p, d, k, now, seen, mono)
    case Dispatching(e, now, seen, mono) => MarkDispatch(db, g, e, now, seen, mono)
    case FencingTool(e, call, digest, now, seen, mono) => AuthorizeTool(db, g, e, call, digest, now, seen, mono)
    case Observing(e, f, k, source, now) => RecordObservation(db, g, e, f, k, source, now)
    case Appending(e, kind, data, now) => AppendEvent(db, g, e, kind, data, now)
    case Mutating(e, st, payload, now) => MutateState(db, g, e, st, payload, now)
    case Costing(e, actual, source, now) => RecordCost(db, g, e, actual, source, now)
    case Transitioning(e, p, f, j, h, k, id, now, mono) => TransitionOnce(db, g, e, p, f, j, h, k, id, now, mono)
    case Fusing(e, p, f, source, j, h, o, k, c, id, now, mono) => FusedTransition(db, g, e, p, f, source, j, h, o, k, c, id, now, mono)
    case Recovering(e, k, j, f, asked, id, now, mono) => RecoverAndTransition(db, g, e, k, j, f, asked, id, now, mono)
    case RecoveringBeforeDispatch(e, now) => RecoverPreDispatch(db, g, e, now)
    case Cancelling(e, k, now) => RequestCancel(db, g, e, k, now)
    case CancellingIfActive(e, now) => RequestCancelIfActive(db, g, e, now)
    case Completing(e, o, actual, source, now) => Complete(db, g, e, o, actual, source, now)
    case Closing(e, o, source, f, fs, k, c, now) => CloseTerminal(db, g, e, o, source, f, fs, k, c, now)
    case Polling(e, o, actual, source, f, fs, now) => CompleteFromPoll(db, g, e, o, actual, source, f, fs, now)
    case Restarting(_) => Result(Nothing, db, map[])
  }

  ghost function After(s: State, evs: seq<Event>): State
  {
    if evs == [] then s
    else
      var before := After(s, evs[..|evs| - 1]);
      var r := Step(before, evs[|evs| - 1]);
      State(r.db, r.guards)
  }

  lemma AfterAppend(s: State, evs: seq<Event>, ev: Event)
    ensures var r := Step(After(s, evs), ev); After(s, evs + [ev]) == State(r.db, r.guards)
  {
    hide Step;
    assert (evs + [ev])[..|evs|] == evs;
  }

  /** Every operation is a chain of guarded writes stamped with its own clock reading. */
  lemma StepReaches(s: State, ev: Event)
    requires Inv(s.db)
    ensures Reaches(s.db, Step(s, ev).db, ev.now)
  {
    hide Inv, Reaches, CreateInitial, SubmitAttempt, MarkDispatch, AuthorizeTool, RecordObservation, AppendEvent,
         MutateState, RecordCost, TransitionOnce, FusedTransition, RecoverAndTransition, RecoverPreDispatch,
         RequestCancel, RequestCancelIfActive, Complete, CloseTerminal, CompleteFromPoll;
    var db, g := s.db, s.guards;
    match ev
    case Creating(t, plan, id, now) => CreateInitialReaches(db, g, t, plan, id, now);
    case Submitting(e, plan, p, d, k, now, seen, mono) => SubmitReaches(db, g, e, plan, p, d, k, now, seen, mono);
    case Dispatching(e, now, seen, mono) => DispatchReaches(db, g, e, now, seen, mono);
    case FencingTool(e, call, digest, now, seen, mono) => ToolReaches(db, g, e, call, digest, now, seen, mono);
    case Observing(e, f, k, source, now) => ObservationReaches(db, g, e, f, k, source, now);
    case Appending(e, kind, data, now) => EventReaches(db, g, e, kind, data, now);
    case Mutating(e, st, payload, now) => StateReaches(db, g, e, st, payload, now);
    case Costing(e, actual, source, now) => RecordCostReaches(db, g, e, actual, source, now);
    case Transitioning(e, p, f, j, h, k, id, now, mono) => TransitionReaches(db, g, e, p, f, j, h, k, id, now, mono);
    case Fusing(e, p, f, source, j, h, o, k, c, id, now, mono) => FusedReaches(db, g, e, p, f, source, j, h, o, k, c, id, now, mono);
    case Recovering(e, k, j, f, asked, id, now, mono) => RecoveryReaches(db, g, e, k, j, f, asked, id, now, mono);
    case RecoveringBeforeDispatch(e, now) => PreDispatchReaches(db, g, e, now);
    case Cancelling(e, k, now) => CancelReaches(db, g, e, k, now);
    case CancellingIfActive(e, now) => CancelIfActiveReaches(db, g, e, now);
    case Completing(e, o, actual, source, now) => CompleteReaches(db, g, e, o, actual, source, now);
    case Closing(e, o, source, f, fs, k, c, now) => CloseReaches(db, g, e, o, source, f, fs, k, c, now);
    case Polling(e, o, actual, source, f, fs, now) => PollReaches(db, g, e, o, actual, source, f, fs, now);
    case Restarting(now) => NoWrites(db, now);
  }

  // ---------- what every committed state satisfies ----------

  ghost predicate Sound(db: Db)
  {
    && Inv(db) && IndexAgrees(db) && FencesOk(db) && SubmitFencesOk(db) && RepliesTruthful(db)
    && (forall t | t in db.tasks :: BudgetOk(db, t) && RangeOk(db, t))
  }

  /** The later state keeps what must never be undone. */
  ghost predicate Later(db: Db, db': Db) { Persists(db, db') && Absorbs(db, db') }

  lemma WriteKeepsSound(db: Db, w: Write)
    requires Sound(db) && Guard(db, w)
    ensures Sound(Put(db, w)) && Later(db, Put(db, w))
  {
    assert Applies(db, w);
    hide Inv, IndexAgrees, FencesOk, SubmitFencesOk, RepliesTruthful, BudgetOk, RangeOk, Persists, Absorbs, Guard, Put, Applies;
    WriteKeepsInv(db, w);
    WriteKeepsIndex(db, w);
    WriteKeepsFences(db, w);
    WriteKeepsSubmitFences(db, w);
    WriteKeepsReplies(db, w);
    WritePersists(db, w);
    WriteAbsorbs(db, w);
    forall t | t in Put(db, w).tasks ensures BudgetOk(Put(db, w), t) && RangeOk(Put(db, w), t) {
      UnknownTaskFits(db, t);
      WriteKeepsBudget(db, w, t);
      WriteKeepsRange(db, w, t);
    }
  }

  lemma UnknownTaskFits(db: Db, t: TaskId)
    requires Sound(db)
    ensures BudgetOk(db, t) && RangeOk(db, t)
  {
  }

  lemma {:induction false} ChainKeepsSound(db: Db, ws: seq<Write>)
    requires Sound(db) && Chain(db, ws)
    ensures Sound(PutAll(db, ws)) && Later(db, PutAll(db, ws))
    decreases |ws|
  {
    hide Sound, Put, Persists, Absorbs;
    if ws == [] {
      LaterReflexive(db);
    } else {
      WriteKeepsSound(db, ws[0]);
      ChainKeepsSound(Put(db, ws[0]), ws[1..]);
      LaterTransitive(db, Put(db, ws[0]), PutAll(db, ws));
    }
  }

  lemma LaterReflexive(db: Db)
    ensures Later(db, db)
  {
  }

  lemma LaterTransitive(a: Db, b: Db, c: Db)
    requires Later(a, b) && Later(b, c)
    ensures Later(a, c)
  {
    hide Persists, Absorbs;
    PersistsTransitive(a, b, c);
    AbsorbsTransitive(a, b, c);
  }

  lemma StepKeepsSound(s: State, ev: Event)
    requires Sound(s.db)
    ensures Sound(Step(s, ev).db) && Later(s.db, Step(s, ev).db)
  {
    hide Inv, Step, Later, Chain, PutAll;
    StepReaches(s, ev);
    var ws :| StampedChain(s.db, ws, ev.now) && PutAll(s.db, ws) == Step(s, ev).db;
    ChainKeepsSound(s.db, ws);
  }

  lemma {:induction false} RunKeepsSound(s: State, evs: seq<Event>)
    requires Sound(s.db)
    ensures Sound(After(s, evs).db) && Later(s.db, After(s, evs).db)
  {
    hide Sound, Later, Step;
    if evs == [] {
      LaterReflexive(s.db);
    } else {
      var front := evs[..|evs| - 1];
      RunKeepsSound(s, front);
      StepKeepsSound(After(s, front), evs[|evs| - 1]);
      LaterTransitive(s.db, After(s, front).db, After(s, evs).db);
    }
  }

  /** Every state any sequence of operations and restarts commits is sound. */
  lemma ReachableIsSound(evs: seq<Event>)
    ensures Sound(After(START, evs).db)
  {
    EmptyInv();
    RunKeepsSound(START, evs);
  }

  lemma SoundInv(db: Db)
    requires Sound(db)
    ensures Inv(db) && IndexAgrees(db) && SubmitFencesOk(db) && RepliesTruthful(db)
  {
  }

  // ---------- the event-sourcing theorem ----------

  /** At the start of any operation, `_active` finds corruption only for an unbudgeted
      task that a recovery took out of the safe integers. */
  lemma ActiveIsNeverCorrupt(evs: seq<Event>, e: Tuple)
    ensures var db := After(START, evs).db;
            ActiveLookup(db, e).Corrupt? <==> ActiveRow(db, e) && db.tasks[e.task].reserved > SAFE_INTEGER_MAX
    ensures var db := After(START, evs).db;
            ActiveLookup(db, e).Corrupt? ==> db.tasks[e.task].budget.None? && WasRecovered(db.outbox, e.task)
  {
    hide Inv, IndexAgrees, FencesOk, SubmitFencesOk, RepliesTruthful, BudgetOk, PlanChecks, WasRecovered, After;
    var db := After(START, evs).db;
    ReachableIsSound(evs);
    if ActiveRow(db, e) {
      CheckedPlanAccepts(db, e);
      assert RangeOk(db, e.task);
    }
  }

  /** In every reachable state: reserved is the sum over the attempts, and exceeds the
      budget by no more than the last reported cost exceeds its own ceiling. */
  lemma BudgetHolds(evs: seq<Event>, t: TaskId)
    ensures var db := After(START, evs).db;
            t in db.tasks && db.tasks[t].status != RejectedTask ==>
              && HasRows(db, Controlled(db, t))
              && db.tasks[t].reserved == Sum(db.attempts, t, db.tasks[t].transitionsUsed + 1)
              && var a, plan := Row(db, Controlled(db, t)), db.tasks[t].plan;
              && a.provider in plan.ceilings
              && (db.tasks[t].budget.Some? ==>
                    db.tasks[t].reserved <= db.tasks[t].budget.value +
                      (if a.cost.Some? && a.cost.value > plan.ceilings[a.provider] then a.cost.value - plan.ceilings[a.provider] else 0))
  {
    hide Inv, IndexAgrees, FencesOk, SubmitFencesOk, RepliesTruthful, BudgetOk, RangeOk, Sum, After;
    var db := After(START, evs).db;
    ReachableIsSound(evs);
    if t in db.tasks && db.tasks[t].status != RejectedTask {
      SlotsOf(db, t);
      CostConservation(db, t);
      LastReservation(db, Controlled(db, t));
      if db.tasks[t].budget.Some? { ReservedWithinBudget(db, t); }
    }
  }

  // ---------- no replay, and ends absorb ----------

  /** Once an attempt dispatched or fenced a tool, no attempt of larger epoch ever
      exists for its task, however the run continues. */
  lemma NoReplayAfterSideEffect(evs: seq<Event>, more: seq<Event>, e: Tuple)
    requires var db := After(START, evs).db;
             HasAttempt(db, e) && (Row(db, e).dispatched || exists call :: FenceKey(e, call) in db.fences)
    ensures var db' := After(After(START, evs), more).db;
            HasAttempt(db', e) && Row(db', e).dispatched && forall k: nat | k > e.epoch :: Slot(e.task, k) !in db'.attempts
  {
    hide Inv, IndexAgrees, SubmitFencesOk, RepliesTruthful, BudgetOk, RangeOk, After, Absorbs;
    var s := After(START, evs);
    ReachableIsSound(evs);
    RunKeepsSound(s, more);
    var db' := After(s, more).db;
    if call :| FenceKey(e, call) in s.db.fences { assert FenceOwned(s.db, FenceKey(e, call).tuple); }
    SideEffectIsLast(db', e);
  }

  /** A task that is not running: no later step submits it, dispatches it, fences a
      tool for it or mints a successor; and once it ended nothing of it changes. */
  lemma EndsAbsorb(evs: seq<Event>, more: seq<Event>, ev: Event, t: TaskId)
    requires var db := After(START, evs).db; t in db.tasks && db.tasks[t].status != Running
    ensures TaskAbsorbs(After(START, evs).db, After(After(START, evs), more).db, t)
    ensures !Effect(Step(After(After(START, evs), more), ev).reply, t)
  {
    hide Inv, IndexAgrees, FencesOk, SubmitFencesOk, RepliesTruthful, BudgetOk, RangeOk, After, Step, TaskAbsorbs, Effect;
    var s := After(START, evs);
    ReachableIsSound(evs);
    RunKeepsSound(s, more);
    assert TaskAbsorbs(s.db, After(s, more).db, t);
    NotRunningAfter(s.db, After(s, more).db, t);
    if Effect(Step(After(s, more), ev).reply, t) { EffectNeedsRunning(After(s, more), ev, t); }
  }

  lemma NotRunningAfter(db: Db, db': Db, t: TaskId)
    requires t in db.tasks && TaskAbsorbs(db, db', t)
    ensures t in db'.tasks && db'.tasks[t].status != Running
  {
  }

  /** The reply says that an outside effect on task t was let through. */
  predicate Effect(r: Reply, t: TaskId)
  {
    match r
    case Submitted(e, _) => e.task == t
    case DispatchMarked(e) => e.task == t
    case FirstFenced(e, _) => e.task == t
    case Fenced(e, _) => e.task == t
    case _ => false
  }

  predicate Submits(ev: Event) { ev.Submitting? || ev.Dispatching? || ev.FencingTool? }

  predicate Replays(ev: Event) { ev.Transitioning? || ev.Fusing? || ev.Recovering? || ev.Cancelling? }

  /** Only the three submitting operations answer with an effect; a replay never does. */
  lemma OthersHaveNoEffect(s: State, ev: Event, t: TaskId)
    requires RepliesTruthful(s.db) && !Submits(ev)
    ensures !Effect(Step(s, ev).reply, t)
  {
    hide Step, RepliesTruthful, Effect;
    if ev.Recovering? {
      RecoveryHasNoEffect(s, ev, t);
    } else if ev.Fusing? {
      FusedHasNoEffect(s, ev, t);
    } else if ev.Closing? || ev.Polling? {
      CloseHasNoEffect(s, ev, t);
    } else if Replays(ev) {
      ReplayHasNoEffect(s, ev, t);
    } else {
      PlainHasNoEffect(s, ev, t);
    }
  }

  lemma PlainHasNoEffect(s: State, ev: Event, t: TaskId)
    requires !Submits(ev) && !Replays(ev) && !ev.Closing? && !ev.Polling?
    ensures !Effect(Step(s, ev).reply, t)
  {
    hide ActiveLookup, Put, ValidPlan, FailureOk, LatestCostSource;
  }

  lemma CloseHasNoEffect(s: State, ev: Event, t: TaskId)
    requires ev.Closing? || ev.Polling?
    ensures !Effect(Step(s, ev).reply, t)
  {
    hide ReconcileAndClose, PayAndClose, FailureOk, EvidenceOk, LatestOutcome;
  }

  lemma FusedHasNoEffect(s: State, ev: Event, t: TaskId)
    requires ev.Fusing?
    ensures !Effect(Step(s, ev).reply, t)
  {
    hide ActiveLookup, TransitionPrecheck, Durable, Put, ApplyEvidence, FailureOk, EvidenceOk, ObservationBound, ObserveOnce;
  }

  lemma ReplayHasNoEffect(s: State, ev: Event, t: TaskId)
    requires RepliesTruthful(s.db) && Replays(ev) && !ev.Recovering? && !ev.Fusing?
    ensures !Effect(Step(s, ev).reply, t)
  {
    hide ActiveLookup, TransitionPrecheck, Truthful, Put, ApplyEvidence, FailureOk, EvidenceOk, ObservationBound, ObserveOnce;
  }

  lemma RecoveryHasNoEffect(s: State, ev: Event, t: TaskId)
    requires RepliesTruthful(s.db) && ev.Recovering?
    ensures !Effect(Step(s, ev).reply, t)
  {
    hide ActiveLookup, CircuitOpen, Truthful, Put, FailureOk, IndexOf, LatestCostSource, CostPayloadOk, Replacement, RecoveryTarget, Remember;
  }

  /** An operation that lets an effect through found the tuple active and its fence ready. */
  lemma EffectNeedsReadiness(s: State, ev: Event)
    requires Submits(ev)
    requires Effect(Step(s, ev).reply, ev.e.task)
    ensures ActiveLookup(s.db, ev.e).Found?
    ensures FenceReadiness(s.guards, ev.e, Row(s.db, ev.e), s.db.tasks[ev.e.task].deadlineMs, ev.now, ev.seen, ev.mono).Ready?
    ensures Step(s, ev).guards == GuardsAfter(s.guards, ev.e, Row(s.db, ev.e), s.db.tasks[ev.e.task].deadlineMs, ev.seen)
  {
    hide PlanChecks, FenceReadiness, GuardsAfter, ValidPlan, Put;
  }

  lemma EffectNamesItsTask(s: State, ev: Event, t: TaskId)
    requires Submits(ev) && Effect(Step(s, ev).reply, t)
    ensures t == ev.e.task
  {
    hide ActiveLookup, FenceReadiness, GuardsAfter, Put, ValidPlan;
  }

  lemma EffectNeedsRunning(s: State, ev: Event, t: TaskId)
    requires RepliesTruthful(s.db) && Effect(Step(s, ev).reply, t)
    ensures t in s.db.tasks && s.db.tasks[t].status == Running
  {
    hide Step, RepliesTruthful, Effect;
    if Submits(ev) {
      EffectNamesItsTask(s, ev, t);
      EffectNeedsReadiness(s, ev);
    } else {
      OthersHaveNoEffect(s, ev, t);
    }
  }
}
