/** A remembered key answers again what it answered first, and writes nothing. */
module LedgerReplay {
  import opened Wrappers
  import opened Payload
  import opened LedgerTables
  import opened LedgerChecks
  import opened LedgerWrites
  import opened LedgerInvariant
  import opened LedgerFold
  import opened LedgerCircuit
  import opened LedgerOps
  import opened LedgerChains
  import opened LedgerBudget
  import opened LedgerHistory
  import opened LedgerRuns

  // ---------- spent keys ----------

  /** The call claims the key in its operation's namespace.  `transition_once` and the
      fused transition share one. */
  predicate Spends(ev: Event, k: IdemKey)
  {
    match k.operation
    case OpSubmit => ev.Submitting? && ev.token == Some(k.key)
    case OpObservation => ev.Observing? && ev.key == k.key
    case OpTransition => (ev.Transitioning? && ev.token == Some(k.key)) || (ev.Fusing? && ev.key == k.key)
    case OpRecovery => ev.Recovering? && ev.key == k.key
    case OpCancel => ev.Cancelling? && ev.key == k.key
    case OpFinalize => ev.Closing? && ev.token == Some(k.key)
  }

  lemma SpentTransition(s: State, ev: Event, key: string)
    requires Spends(ev, IdemKey(OpTransition, key)) && Remembered(s.db, OpTransition, key).Some?
    ensures Step(s, ev) == Answer(s.db, s.guards, Step(s, ev).reply)
  {
    hide TransitionPrecheck, Durable, FailureOk, EvidenceOk, ObservationBound, ApplyOnce, FusedFresh;
  }

  lemma SpentRecovery(s: State, ev: Event)
    requires ev.Recovering? && Remembered(s.db, OpRecovery, ev.key).Some?
    ensures Step(s, ev) == Answer(s.db, s.guards, Step(s, ev).reply)
  {
    hide ActiveLookup, Durable, FailureOk, RecoverForward, RecoverUncertain;
  }

  lemma SpentElse(s: State, ev: Event, k: IdemKey)
    requires Spends(ev, k) && k in s.db.idem && k.operation != OpTransition && k.operation != OpRecovery
    ensures Step(s, ev) == Answer(s.db, s.guards, Step(s, ev).reply)
  {
    hide ActiveLookup, FailureOk, EvidenceOk, ValidPlan, StoredObservation, SubmitFound, CloseOpen, Observe, Put;
  }

  /** A call under a remembered key writes nothing, whatever its other arguments and
      whichever operation of the namespace it is. */
  lemma SpentWritesNothing(s: State, ev: Event, k: IdemKey)
    requires Spends(ev, k) && k in s.db.idem
    ensures Step(s, ev) == Answer(s.db, s.guards, Step(s, ev).reply)
  {
    hide Step;
    if k.operation.OpTransition? {
      SpentTransition(s, ev, k.key);
    } else if k.operation.OpRecovery? {
      SpentRecovery(s, ev);
    } else {
      SpentElse(s, ev, k);
    }
  }

  /** So does any call that claims the key later. */
  lemma SpentForGood(s: State, more: seq<Event>, ev: Event, k: IdemKey)
    requires Sound(s.db) && Spends(ev, k) && k in s.db.idem
    ensures var t := After(s, more); Step(t, ev) == Answer(t.db, t.guards, Step(t, ev).reply)
  {
    hide Inv, IndexAgrees, FencesOk, SubmitFencesOk, RepliesTruthful, BudgetOk, RangeOk, Absorbs, After, Step, Spends;
    RunKeepsSound(s, more);
    SpentWritesNothing(After(s, more), ev, k);
  }

  // ---------- replays ----------

  lemma TruthfulIsDurable(db: Db, r: Reply)
    requires Truthful(db, r)
    ensures Durable(db, r) == Some(r)
  {
  }

  predicate StoredAs(db: Db, op: Operation, key: string, r: Reply)
  {
    Remembered(db, op, key) == Some(r)
  }

  lemma StoredStays(db: Db, db': Db, op: Operation, key: string, r: Reply)
    requires Persists(db, db') && StoredAs(db, op, key, r)
    ensures StoredAs(db', op, key, r)
  {
  }

  /** A transition that answered under a key is what the key holds. */
  lemma TransitionIsStored(s: State, ev: Event)
    requires RepliesTruthful(s.db) && ev.Transitioning? && ev.token.Some?
    requires Step(s, ev).reply.Transitioned?
    ensures StoredAs(Step(s, ev).db, OpTransition, ev.token.value, Step(s, ev).reply)
    ensures FailureOk(ev.failure) && ev.failure.kind == Retryable && 250 <= ev.jitter <= 750
  {
    hide PlanChecks, TransitionPrecheck, FailureOk, Replacement, WitnessFor, Truthful;
    if Remembered(s.db, OpTransition, ev.token.value).Some? {
      TruthfulIsDurable(s.db, Remembered(s.db, OpTransition, ev.token.value).value);
    }
  }

  lemma ForwardIsStored(db: Db, g: map<Tuple, int>, e: Tuple, key: string, delay: int, f: Failure,
                        asked: Option<ProviderId>, id: AttemptId, now: int, mono: int)
    requires ActiveLookup(db, e).Found?
    ensures var r := RecoverForward(db, g, e, key, delay, f, asked, id, now, mono);
            !r.reply.RecoveredTerminal? && (r.reply.Recovered? ==> StoredAs(r.db, OpRecovery, key, r.reply))
  {
    hide PlanChecks, CircuitOpen, FailureOk, Replacement, WitnessFor, IndexOf, RecoveryTarget;
  }

  lemma RecoveryIsStored(s: State, ev: Event)
    requires RepliesTruthful(s.db) && ev.Recovering?
    requires Step(s, ev).reply.Recovered? || Step(s, ev).reply.RecoveredTerminal?
    ensures StoredAs(Step(s, ev).db, OpRecovery, ev.key, Step(s, ev).reply)
    ensures var f := if ev.cause.Some? then ev.cause.value else PRE_DISPATCH_TIMEOUT; FailureOk(f) && f.kind == Retryable
    ensures DirectJitter(ev.jitter, ev.cause.None? && ev.asked.None?).Some?
  {
    hide PlanChecks, FailureOk, Truthful, LatestCostSource, CostPayloadOk, RecoverForward;
    if Remembered(s.db, OpRecovery, ev.key).Some? {
      TruthfulIsDurable(s.db, Remembered(s.db, OpRecovery, ev.key).value);
    } else {
      var f := if ev.cause.Some? then ev.cause.value else PRE_DISPATCH_TIMEOUT;
      ForwardIsStored(s.db, s.guards, ev.e, ev.key, DirectJitter(ev.jitter, ev.cause.None? && ev.asked.None?).value, f,
                      ev.asked, ev.id, ev.now, ev.mono);
    }
  }

  /** The same call at another time, with another identifier to draw. */
  predicate SameCall(a: Event, b: Event)
  {
    match a
    case Transitioning(e, p, f, j, h, k, _, _, _) =>
      b.Transitioning? && b.e == e && b.successor == p && b.failure == f && b.jitter == j && b.planHash == h && b.token == k
    case Fusing(e, p, f, src, j, h, o, k, c, _, _, _) =>
      b.Fusing? && b.e == e && b.successor == p && b.failure == f && b.engine == src && b.jitter == j && b.hash == h
      && b.obsKey == o && b.key == k && b.ev == c
    case Recovering(e, k, j, f, asked, _, _, _) =>
      b.Recovering? && b.e == e && b.key == k && b.jitter == j && b.cause == f && b.asked == asked
    case _ => false
  }

  lemma StoredTransitionReplays(s: State, ev: Event, r: Reply)
    requires RepliesTruthful(s.db) && ev.Transitioning? && ev.token.Some? && StoredAs(s.db, OpTransition, ev.token.value, r)
    requires FailureOk(ev.failure) && ev.failure.kind == Retryable && 250 <= ev.jitter <= 750 && TimeOk(ev.now)
    ensures Step(s, ev) == Answer(s.db, s.guards, r)
  {
    TruthfulIsDurable(s.db, r);
    hide FailureOk, TransitionPrecheck, Truthful, Durable;
  }

  lemma StoredRecoveryReplays(s: State, ev: Event, r: Reply)
    requires RepliesTruthful(s.db) && ev.Recovering? && StoredAs(s.db, OpRecovery, ev.key, r)
    requires FailureOk(if ev.cause.Some? then ev.cause.value else PRE_DISPATCH_TIMEOUT)
    requires (if ev.cause.Some? then ev.cause.value else PRE_DISPATCH_TIMEOUT).kind == Retryable
    requires DirectJitter(ev.jitter, ev.cause.None? && ev.asked.None?).Some? && TimeOk(ev.now)
    ensures Step(s, ev) == Answer(s.db, s.guards, r)
  {
    TruthfulIsDurable(s.db, r);
    hide FailureOk, RecoverForward, RecoverUncertain, PlanChecks, Truthful, Durable;
  }

  /** `transition_once` accepts the arguments that do not depend on the database. */
  predicate TransitionArgsOk(ev: Event)
    requires ev.Transitioning?
  {
    FailureOk(ev.failure) && ev.failure.kind == Retryable && 250 <= ev.jitter <= 750 && TimeOk(ev.now)
  }

  /** Once `transition_once` succeeded under a key, every later call that claims the key,
      with any tuple, successor or failure and through either operation, writes nothing;
      a well-formed `transition_once` answers the original successor and fence. */
  lemma TransitionReplays(evs: seq<Event>, first: Event, more: seq<Event>, again: Event)
    requires first.Transitioning? && first.token.Some? && Step(After(START, evs), first).reply.Transitioned?
    requires Spends(again, IdemKey(OpTransition, first.token.value))
    ensures var r := Step(After(START, evs), first);
            var s := After(State(r.db, r.guards), more);
            && Step(s, again) == Answer(s.db, s.guards, Step(s, again).reply)
            && (again.Transitioning? && TransitionArgsOk(again) ==> Step(s, again).reply == r.reply)
    ensures SameCall(first, again) && TimeOk(again.now) ==> TransitionArgsOk(again)
  {
    hide Inv, IndexAgrees, FencesOk, SubmitFencesOk, RepliesTruthful, BudgetOk, RangeOk, After, Step, Persists, Absorbs, StoredAs, FailureOk;
    var before := After(START, evs);
    var r := Step(before, first);
    ReachableIsSound(evs);
    StepKeepsSound(before, first);
    RunKeepsSound(State(r.db, r.guards), more);
    TransitionIsStored(before, first);
    var s := After(State(r.db, r.guards), more);
    StoredStays(r.db, s.db, OpTransition, first.token.value, r.reply);
    StoredIsSpent(s.db, OpTransition, first.token.value, r.reply);
    SpentWritesNothing(s, again, IdemKey(OpTransition, first.token.value));
    if again.Transitioning? && TransitionArgsOk(again) { StoredTransitionReplays(s, again, r.reply); }
  }

  lemma StoredIsSpent(db: Db, op: Operation, key: string, r: Reply)
    requires StoredAs(db, op, key, r)
    ensures IdemKey(op, key) in db.idem
  {
  }

  /** `recover_and_transition_once` accepts the arguments that do not depend on the database. */
  predicate RecoveryArgsOk(ev: Event)
    requires ev.Recovering?
  {
    var f := if ev.cause.Some? then ev.cause.value else PRE_DISPATCH_TIMEOUT;
    FailureOk(f) && f.kind == Retryable && DirectJitter(ev.jitter, ev.cause.None? && ev.asked.None?).Some? && TimeOk(ev.now)
  }

  /** Once a recovery succeeded, every later recovery with its identifier, for any tuple,
      writes nothing, and a well-formed one answers the original. */
  lemma RecoveryReplays(evs: seq<Event>, first: Event, more: seq<Event>, again: Event)
    requires first.Recovering?
    requires var r := Step(After(START, evs), first).reply; r.Recovered? || r.RecoveredTerminal?
    requires Spends(again, IdemKey(OpRecovery, first.key))
    ensures var r := Step(After(START, evs), first);
            var s := After(State(r.db, r.guards), more);
            && Step(s, again) == Answer(s.db, s.guards, Step(s, again).reply)
            && (RecoveryArgsOk(again) ==> Step(s, again).reply == r.reply)
    ensures SameCall(first, again) && TimeOk(again.now) ==> RecoveryArgsOk(again)
  {
    hide Inv, IndexAgrees, FencesOk, SubmitFencesOk, RepliesTruthful, BudgetOk, RangeOk, After, Step, Persists, Absorbs, StoredAs, FailureOk;
    var before := After(START, evs);
    var r := Step(before, first);
    ReachableIsSound(evs);
    StepKeepsSound(before, first);
    RunKeepsSound(State(r.db, r.guards), more);
    RecoveryIsStored(before, first);
    var s := After(State(r.db, r.guards), more);
    StoredStays(r.db, s.db, OpRecovery, first.key, r.reply);
    StoredIsSpent(s.db, OpRecovery, first.key, r.reply);
    SpentWritesNothing(s, again, IdemKey(OpRecovery, first.key));
    if RecoveryArgsOk(again) { StoredRecoveryReplays(s, again, r.reply); }
  }

  // ---------- observation replays ----------

  lemma ObservationIsStored(s: State, ev: Event)
    requires ev.Observing? && Step(s, ev).reply.Recorded?
    ensures StoredAs(Step(s, ev).db, OpObservation, ev.key, Recorded(ev.e, ev.failure, ev.origin))
  {
    hide PlanChecks, FailureOk;
  }

  /** Once an observation is recorded, every later one under its key answers that very
      observation and writes nothing. */
  lemma ObservationReplays(evs: seq<Event>, first: Event, more: seq<Event>, again: Event)
    requires first.Observing? && Step(After(START, evs), first).reply.Recorded?
    requires Spends(again, IdemKey(OpObservation, first.key)) && FailureOk(again.failure) && TimeOk(again.now)
    ensures var r := Step(After(START, evs), first);
            var s := After(State(r.db, r.guards), more);
            Step(s, again) == Answer(s.db, s.guards, AlreadyRecorded(first.failure))
  {
    hide Inv, IndexAgrees, FencesOk, SubmitFencesOk, RepliesTruthful, BudgetOk, RangeOk, After, Persists, Absorbs, FailureOk;
    var before := After(START, evs);
    var r := Step(before, first);
    ReachableIsSound(evs);
    StepKeepsSound(before, first);
    RunKeepsSound(State(r.db, r.guards), more);
    ObservationIsStored(before, first);
    StoredStays(r.db, After(State(r.db, r.guards), more).db, OpObservation, first.key, Recorded(first.e, first.failure, first.origin));
  }

  // ---------- fused replays ----------

  /** The original answer of a fused call, which replays wrap. */
  function Original(r: Reply): Reply { if r.Duplicate? then r.prior else r }

  predicate FusedAnswer(r: Reply) { r.Transitioned? || r.ObservationRecorded? }

  lemma BoundStays(db: Db, db': Db, obsKey: string, e: Tuple, failure: Failure, source: FailureSource)
    requires Persists(db, db') && ObservationBound(db, obsKey, e, failure, source)
    ensures ObservationBound(db', obsKey, e, failure, source)
  {
    var i :| 0 <= i < |db.outbox| && db.outbox[i].key == e && db.outbox[i].body == Observed(failure, Some(source));
    assert db'.outbox[i] == db.outbox[i];
  }

  /** After the observation step the key is bound to this very observation. */
  lemma ObservedIsBound(db: Db, e: Tuple, failure: Failure, source: FailureSource, key: string, now: int)
    requires HasRows(db, e)
    requires Remembered(db, OpObservation, key).Some? ==> ObservationBound(db, key, e, failure, source)
    ensures ObservationBound(ObserveOnce(db, e, failure, source, key, now), key, e, failure, source)
  {
    if Remembered(db, OpObservation, key).None? {
      var db1 := ObserveOnce(db, e, failure, source, key, now);
      assert db1.outbox[|db.outbox|] == Fact(e, Observed(failure, Some(source)), now);
    }
  }

  /** What a fused answer leaves behind: its result under its key, bound to the observation. */
  predicate FusedStored(db: Db, ev: Event, r: Reply)
    requires ev.Fusing?
  {
    && StoredAs(db, OpTransition, ev.key, r) && FusedAnswer(r)
    && BoundObservation(r) == Some(ev.obsKey)
    && ObservationBound(db, ev.obsKey, ev.e, ev.failure, ev.engine)
  }

  lemma KeepIsStored(db: Db, g: map<Tuple, int>, ev: Event, reason: Reason)
    requires ev.Fusing? && HasRows(db, ev.e)
    requires Remembered(db, OpObservation, ev.obsKey).Some? ==> ObservationBound(db, ev.obsKey, ev.e, ev.failure, ev.engine)
    ensures var r := KeepObservation(db, g, ev.e, ev.failure, ev.engine, ev.obsKey, ev.key, reason, ev.now);
            r.reply.ObservationRecorded? && FusedStored(r.db, ev, r.reply)
  {
    ObservedIsBound(db, ev.e, ev.failure, ev.engine, ev.obsKey, ev.now);
    hide ObserveOnce;
    var db1 := ObserveOnce(db, ev.e, ev.failure, ev.engine, ev.obsKey, ev.now);
    BoundFrame(db1, KeepObservation(db, g, ev.e, ev.failure, ev.engine, ev.obsKey, ev.key, reason, ev.now).db,
               ev.obsKey, ev.e, ev.failure, ev.engine);
  }

  lemma BoundFrame(db: Db, db': Db, obsKey: string, e: Tuple, failure: Failure, source: FailureSource)
    requires ObservationBound(db, obsKey, e, failure, source)
    requires IdemKey(OpObservation, obsKey) in db'.idem && db'.idem[IdemKey(OpObservation, obsKey)] == db.idem[IdemKey(OpObservation, obsKey)]
    requires |db.outbox| <= |db'.outbox| && db'.outbox[..|db.outbox|] == db.outbox
    ensures ObservationBound(db', obsKey, e, failure, source)
  {
    var i :| 0 <= i < |db.outbox| && db.outbox[i].key == e && db.outbox[i].body == Observed(failure, Some(source));
    assert db'.outbox[i] == db.outbox[i];
  }

  lemma ApplyIsStored(db: Db, g: map<Tuple, int>, ev: Event)
    requires ev.Fusing? && HasRows(db, ev.e) && ev.successor in db.tasks[ev.e.task].plan.ceilings
    requires Remembered(db, OpObservation, ev.obsKey).Some? ==> ObservationBound(db, ev.obsKey, ev.e, ev.failure, ev.engine)
    ensures var r := FusedApply(db, g, ev.e, ev.successor, ev.failure, ev.engine, ev.jitter, ev.obsKey, ev.key, ev.id, ev.now, ev.mono);
            r.reply.Transitioned? && FusedStored(r.db, ev, r.reply)
  {
    ObservedIsBound(db, ev.e, ev.failure, ev.engine, ev.obsKey, ev.now);
    hide ObserveOnce, Replacement, WitnessFor;
    var db1 := ObserveOnce(db, ev.e, ev.failure, ev.engine, ev.obsKey, ev.now);
    BoundFrame(db1, FusedApply(db, g, ev.e, ev.successor, ev.failure, ev.engine, ev.jitter, ev.obsKey, ev.key, ev.id, ev.now, ev.mono).db,
               ev.obsKey, ev.e, ev.failure, ev.engine);
  }

  lemma EvidenceShape(db: Db, e: Tuple, ev: Evidence, now: int, allowCancel: bool)
    requires HasRows(db, e) && ApplyEvidence(db, e, ev, now, allowCancel).Some?
    ensures var final := if Row(db, e).cost.Some? then Row(db, e).cost else ev.actual;
            var db1 := ApplyEvidence(db, e, ev, now, allowCancel).value;
            db1 == db || db1 == Put(db, SetCost(e, final, Cost(ev.actual, Some(ev.source)), now))
    ensures var db1 := ApplyEvidence(db, e, ev, now, allowCancel).value;
            && e.task in db1.tasks && db1.tasks[e.task].transitionsUsed == db.tasks[e.task].transitionsUsed
            && db1.witnesses == db.witnesses && |db.outbox| <= |db1.outbox|
  {
    hide PlanChecks, CostsDisagree, CostCompatible;
  }

  /** The evidence step leaves observations alone. */
  lemma EvidenceKeepsBinding(db: Db, e: Tuple, ev: Evidence, now: int, obsKey: string, failure: Failure, source: FailureSource)
    requires HasRows(db, e) && ApplyEvidence(db, e, ev, now, false).Some?
    requires Remembered(db, OpObservation, obsKey).Some? ==> ObservationBound(db, obsKey, e, failure, source)
    ensures var db1 := ApplyEvidence(db, e, ev, now, false).value;
            Remembered(db1, OpObservation, obsKey).Some? ==> ObservationBound(db1, obsKey, e, failure, source)
  {
    EvidenceShape(db, e, ev, now, false);
    hide ApplyEvidence;
    var db1 := ApplyEvidence(db, e, ev, now, false).value;
    if Remembered(db, OpObservation, obsKey).Some? { BoundFrame(db, db1, obsKey, e, failure, source); }
  }

  lemma ReplayIsStored(s: State, ev: Event)
    requires RepliesTruthful(s.db) && ev.Fusing? && Remembered(s.db, OpTransition, ev.key).Some?
    requires FusedAnswer(Original(FusedReplay(s.db, s.guards, ev.e, ev.failure, ev.engine, ev.obsKey,
                                              Remembered(s.db, OpTransition, ev.key).value).reply))
    ensures FusedStored(s.db, ev, Remembered(s.db, OpTransition, ev.key).value)
    ensures FusedReplay(s.db, s.guards, ev.e, ev.failure, ev.engine, ev.obsKey, Remembered(s.db, OpTransition, ev.key).value)
         == Answer(s.db, s.guards, Duplicate(Remembered(s.db, OpTransition, ev.key).value))
  {
    TruthfulIsDurable(s.db, Remembered(s.db, OpTransition, ev.key).value);
    hide Truthful, Durable, ObservationBound;
  }

  lemma FusedIsStored(s: State, ev: Event)
    requires RepliesTruthful(s.db) && ev.Fusing? && FusedAnswer(Original(Step(s, ev).reply))
    ensures FusedStored(Step(s, ev).db, ev, Original(Step(s, ev).reply))
  {
    hide PlanChecks, TransitionPrecheck, FailureOk, RepliesTruthful, Remember, Put, EvidenceOk, ObserveOnce,
         ApplyEvidence, ObservationBound, FusedReplay, FusedStored;
    if Remembered(s.db, OpTransition, ev.key).Some? {
      ReplayIsStored(s, ev);
    } else {
      FusedIsStoredFresh(s, ev);
    }
  }

  lemma FusedIsStoredFresh(s: State, ev: Event)
    requires ev.Fusing? && FusedAnswer(Step(s, ev).reply)
    requires Remembered(s.db, OpTransition, ev.key).None?
    requires Remembered(s.db, OpObservation, ev.obsKey).Some? ==> ObservationBound(s.db, ev.obsKey, ev.e, ev.failure, ev.engine)
    ensures FusedStored(Step(s, ev).db, ev, Step(s, ev).reply)
  {
    hide PlanChecks, TransitionPrecheck, FailureOk, ApplyEvidence, KeepObservation, FusedApply, ObservationBound, FusedStored;
    var db, g := s.db, s.guards;
    var applied := if ev.ev.Some? then ApplyEvidence(db, ev.e, ev.ev.value, ev.now, false) else Some(db);
    if ev.ev.Some? { EvidenceKeepsBinding(db, ev.e, ev.ev.value, ev.now, ev.obsKey, ev.failure, ev.engine); }
    var pre := TransitionPrecheck(db, ev.e, ev.successor, ev.jitter, Some(ev.hash), ev.now);
    var pre1 := TransitionPrecheck(applied.value, ev.e, ev.successor, ev.jitter, Some(ev.hash), ev.now);
    if pre.PreRefused? { KeepIsStored(applied.value, g, ev, pre.reason); }
    if pre1.PreRefused? { KeepIsStored(applied.value, g, ev, pre1.reason); }
    if pre1.PreEligible? {
      FoundCeiling(applied.value, ev.e, ev.successor);
      ApplyIsStored(applied.value, g, ev);
    }
  }

  lemma StoredFusedReplays(s: State, ev: Event, r: Reply)
    requires RepliesTruthful(s.db) && ev.Fusing? && FusedStored(s.db, ev, r) && FusedArgsOk(ev) && TimeOk(ev.now)
    ensures Step(s, ev) == Answer(s.db, s.guards, Duplicate(r))
  {
    TruthfulIsDurable(s.db, r);
    hide FailureOk, TransitionPrecheck, Truthful, Durable, ObservationBound, EvidenceOk;
  }

  predicate FusedArgsOk(ev: Event)
    requires ev.Fusing?
  {
    && FailureOk(ev.failure) && ev.failure.kind == Retryable && ev.failure.code != PreDispatchTimeout
    && ev.obsKey != ev.key && 250 <= ev.jitter <= 750 && EvidenceOk(ev.ev)
  }

  lemma FusedArgs(s: State, ev: Event)
    requires ev.Fusing? && FusedAnswer(Original(Step(s, ev).reply))
    ensures FusedArgsOk(ev)
  {
    hide FailureOk, TransitionPrecheck, EvidenceOk, FusedReplay, ObservationBound;
  }

  lemma FusedStoredStays(db: Db, db': Db, ev: Event, r: Reply)
    requires Persists(db, db') && ev.Fusing? && FusedStored(db, ev, r)
    ensures FusedStored(db', ev, r)
  {
    StoredStays(db, db', OpTransition, ev.key, r);
    BoundStays(db, db', ev.obsKey, ev.e, ev.failure, ev.engine);
  }

  lemma SameFusedStored(db: Db, a: Event, b: Event, r: Reply)
    requires a.Fusing? && SameCall(a, b) && FusedStored(db, a, r)
    ensures FusedStored(db, b, r)
  {
  }

  /** Repeating a fused call in any later state writes nothing and answers the original
      result, never MissingObservation. */
  lemma FusedReplays(evs: seq<Event>, first: Event, more: seq<Event>, again: Event)
    requires first.Fusing? && FusedAnswer(Original(Step(After(START, evs), first).reply))
    requires SameCall(first, again) && TimeOk(again.now)
    ensures var r := Step(After(START, evs), first);
            var s := After(State(r.db, r.guards), more);
            Step(s, again) == Answer(s.db, s.guards, Duplicate(Original(r.reply)))
  {
    hide Inv, IndexAgrees, FencesOk, SubmitFencesOk, RepliesTruthful, BudgetOk, RangeOk, After, Step, Persists, Absorbs, FusedStored;
    var before := After(START, evs);
    var r := Step(before, first);
    ReachableIsSound(evs);
    StepKeepsSound(before, first);
    RunKeepsSound(State(r.db, r.guards), more);
    FusedIsStored(before, first);
    FusedArgs(before, first);
    var s := After(State(r.db, r.guards), more);
    FusedStoredStays(r.db, s.db, first, Original(r.reply));
    SameFusedStored(s.db, first, again, Original(r.reply));
    StoredFusedReplays(s, again, Original(r.reply));
  }
}
