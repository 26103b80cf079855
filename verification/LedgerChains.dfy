/** Every committed operation is a chain of guarded writes, so it keeps whatever
    every guarded write keeps. */
module LedgerChains {
  import opened Wrappers
  import opened Payload
  import opened LedgerTables
  import opened LedgerChecks
  import opened LedgerWrites
  import opened LedgerInvariant
  import opened LedgerFold
  import opened LedgerCircuit
  import opened SubmitFence
  import opened LedgerOps

  /** The write carries the operation's one reading of the wall clock. */
  predicate Stamped(w: Write, now: int)
  {
    w.FenceTool? || w.Memo? || w.now == now
  }

  /** `after` is reached from `before` by writes each allowed where it is issued,
      all of them stamped with `now`. */
  ghost predicate Reaches(before: Db, after: Db, now: int)
  {
    exists ws :: StampedChain(before, ws, now) && PutAll(before, ws) == after
  }

  ghost predicate StampedChain(db: Db, ws: seq<Write>, now: int)
  {
    Chain(db, ws) && forall i | 0 <= i < |ws| :: Stamped(ws[i], now)
  }

  lemma NoWrites(db: Db, now: int)
    ensures Reaches(db, db, now)
  {
    assert StampedChain(db, [], now) && PutAll(db, []) == db;
  }

  lemma {:induction false} ChainExtends(db: Db, ws: seq<Write>, w: Write)
    requires Chain(db, ws) && Guard(PutAll(db, ws), w)
    ensures Chain(db, ws + [w]) && PutAll(db, ws + [w]) == Put(PutAll(db, ws), w)
    decreases |ws|
  {
    hide Put;
    if ws == [] {
      assert ws + [w] == [w];
      assert Chain(Put(db, w), []);
    } else {
      ChainExtends(Put(db, ws[0]), ws[1..], w);
      assert (ws + [w])[1..] == ws[1..] + [w];
    }
  }

  lemma OneMore(before: Db, db: Db, w: Write, now: int)
    requires Reaches(before, db, now) && Guard(db, w) && Stamped(w, now)
    ensures Reaches(before, Put(db, w), now)
  {
    hide Guard, Put;
    var ws :| StampedChain(before, ws, now) && PutAll(before, ws) == db;
    ChainExtends(before, ws, w);
    assert StampedChain(before, ws + [w], now);
  }

  // ---------- single writes ----------

  /** A result is remembered once under a new key. */
  lemma RememberReaches(before: Db, db: Db, op: Operation, key: Option<string>, e: Tuple, reply: Reply, now: int)
    requires Reaches(before, db, now)
    requires key.Some? ==> Remembered(db, op, key.value).None? && StoredKind(op, reply) && Truthful(db, reply)
    ensures Reaches(before, RememberIf(db, op, key, e, reply), now)
  {
    hide Reaches;
    if key.Some? { OneMore(before, db, Memo(IdemKey(op, key.value), IdemRow(e, reply)), now); }
  }

  lemma FoundIsLive(db: Db, e: Tuple)
    requires Inv(db) && ActiveLookup(db, e).Found?
    ensures HasRows(db, e) && Live(db, e) && ActiveRow(db, e)
  {
    hide Inv, PlanChecks;
    LiveIsLast(db, e);
  }

  lemma FoundCeiling(db: Db, e: Tuple, p: ProviderId)
    requires ActiveLookup(db, e).Found? && p in db.tasks[e.task].plan.providers
    ensures HasRows(db, e) && p in db.tasks[e.task].plan.ceilings
  {
    hide FactsOf, SlotsExact, FactsWellFormed, AttemptChecked, Sum, IndexOf;
  }

  lemma CreateInitialReaches(db: Db, g: map<Tuple, int>, t: TaskId, plan: Plan, id: AttemptId, now: int)
    ensures Reaches(db, CreateInitial(db, g, t, plan, id, now).db, now)
  {
    hide Reaches, Put;
    NoWrites(db, now);
    if ValidPlan(t, plan) && TimeOk(now) && t !in db.tasks {
      if now >= plan.deadlineMs || (plan.budget.Some? && plan.budget.value < plan.ceilings[plan.providers[0]]) {
        OneMore(db, db, Tombstone(plan, now), now);
      } else {
        OneMore(db, db, Admit(plan, id, now), now);
      }
    }
  }

  lemma SubmitReaches(db: Db, g: map<Tuple, int>, e: Tuple, plan: Plan, provider: ProviderId,
                      attemptDeadline: int, key: Option<string>, now: int, seen: int, mono: int)
    requires Inv(db)
    ensures Reaches(db, SubmitAttempt(db, g, e, plan, provider, attemptDeadline, key, now, seen, mono).db, now)
  {
    hide Inv, PlanChecks, Reaches, ValidPlan, FenceReadiness, GuardsAfter;
    var r := SubmitAttempt(db, g, e, plan, provider, attemptDeadline, key, now, seen, mono);
    NoWrites(db, now);
    if ActiveLookup(db, e).Found? && r.reply.Submitted? {
      FoundIsLive(db, e);
      var w := SetState(e, ProviderStarted, JObject([]), now);
      OneMore(db, db, w, now);
      RememberReaches(db, Put(db, w), OpSubmit, key, e, Submitted(e, provider), now);
    }
  }

  lemma DispatchReaches(db: Db, g: map<Tuple, int>, e: Tuple, now: int, seen: int, mono: int)
    requires Inv(db)
    ensures Reaches(db, MarkDispatch(db, g, e, now, seen, mono).db, now)
  {
    hide Inv, PlanChecks, Reaches, FenceReadiness, GuardsAfter;
    NoWrites(db, now);
    if ActiveLookup(db, e).Found? {
      FoundIsLive(db, e);
      if TimeOk(now) && !Row(db, e).dispatched { OneMore(db, db, SetDispatch(e, now), now); }
    }
  }

  lemma ToolReaches(db: Db, g: map<Tuple, int>, e: Tuple, call: string, digest: string, now: int, seen: int, mono: int)
    requires Inv(db)
    ensures Reaches(db, AuthorizeTool(db, g, e, call, digest, now, seen, mono).db, now)
  {
    hide Inv, PlanChecks, Reaches, FenceReadiness, GuardsAfter;
    NoWrites(db, now);
    if ActiveLookup(db, e).Found? && TimeOk(now) && FenceKey(e, call) !in db.fences {
      FoundIsLive(db, e);
      if Row(db, e).dispatched {
        OneMore(db, db, FenceTool(e, call, digest), now);
      } else {
        OneMore(db, db, SetDispatch(e, now), now);
        OneMore(db, Put(db, SetDispatch(e, now)), FenceTool(e, call, digest), now);
      }
    }
  }

  lemma ObserveReaches(before: Db, db: Db, e: Tuple, failure: Failure, source: Option<FailureSource>, key: string, now: int)
    requires Reaches(before, db, now) && HasRows(db, e) && TimeOk(now)
    requires Remembered(db, OpObservation, key).None?
    ensures Reaches(before, Observe(db, e, failure, source, key, now), now)
  {
    hide Reaches;
    var w := Note(e, Observed(failure, source), now);
    OneMore(before, db, w, now);
    RememberReaches(before, Put(db, w), OpObservation, Some(key), e, Recorded(e, failure, source), now);
  }

  lemma ObservationReaches(db: Db, g: map<Tuple, int>, e: Tuple, failure: Failure, key: string,
                           source: Option<FailureSource>, now: int)
    requires Inv(db)
    ensures Reaches(db, RecordObservation(db, g, e, failure, key, source, now).db, now)
  {
    hide Inv, PlanChecks, Reaches, Observe;
    NoWrites(db, now);
    if ActiveLookup(db, e).Found? && TimeOk(now) && Remembered(db, OpObservation, key).None? {
      FoundIsLive(db, e);
      ObserveReaches(db, db, e, failure, source, key, now);
    }
  }

  lemma EventReaches(db: Db, g: map<Tuple, int>, e: Tuple, kind: string, data: CanonicalJson, now: int)
    requires Inv(db)
    ensures Reaches(db, AppendEvent(db, g, e, kind, data, now).db, now)
  {
    hide Inv, PlanChecks, Reaches;
    NoWrites(db, now);
    if ActiveLookup(db, e).Found? && TimeOk(now) {
      FoundIsLive(db, e);
      OneMore(db, db, Note(e, EventAppended(kind, data), now), now);
    }
  }

  lemma StateReaches(db: Db, g: map<Tuple, int>, e: Tuple, state: ProviderState, payload: CanonicalJson, now: int)
    requires Inv(db)
    ensures Reaches(db, MutateState(db, g, e, state, payload, now).db, now)
  {
    hide Inv, PlanChecks, Reaches;
    NoWrites(db, now);
    if ActiveLookup(db, e).Found? && TimeOk(now) {
      FoundIsLive(db, e);
      OneMore(db, db, SetState(e, state, payload, now), now);
    }
  }

  lemma RecordCostReaches(db: Db, g: map<Tuple, int>, e: Tuple, actual: Option<int>, source: Option<CostSource>, now: int)
    requires Inv(db)
    ensures Reaches(db, RecordCost(db, g, e, actual, source, now).db, now)
  {
    hide Inv, PlanChecks, Reaches;
    NoWrites(db, now);
    if ActiveLookup(db, e).Found? && RecordCost(db, g, e, actual, source, now).reply.CostKept? {
      FoundIsLive(db, e);
      OneMore(db, db, SetCost(e, actual, Cost(actual, source), now), now);
    }
  }

  // ---------- cost evidence ----------

  /** An unknown cost written over a known one is caught before the commit. */
  lemma UnknownOverKnownIsCorrupt(db: Db, w: Write)
    requires w.SetCost? && ActiveRow(db, w.tuple) && w.body.Cost?
    requires w.cost.Some? && w.body.actual.None?
    ensures ActiveLookup(Put(db, w), w.tuple).Corrupt?
  {
    hide FactsOf, TaskRowOk, IdentityOk, BarriersOk, LiveOk, PastOk, Sum, FenceOk, SlotsExact, FactsWellFormed, IndexOf;
    var e, db' := w.tuple, Put(db, w);
    FactsOfAppend(db.outbox, Fact(e, w.body, w.now), e);
    assert FactsAt(db', e.task, e.epoch) == FactsOf(db'.outbox, e);
    assert ExpectedCost(FactsAt(db', e.task, e.epoch)) == None;
    assert !AttemptChecked(db', e.task, db'.tasks[e.task].plan, e.epoch, e.epoch);
  }

  /** Of the attempts `active_control` names, only a running task's is mutable. */
  lemma MutableIsRunning(db: Db, e: Tuple)
    requires Inv(db) && HasRows(db, e) && Mutable(Row(db, e).state)
    ensures db.tasks[e.task].status == Running && Live(db, e)
  {
    hide Inv, FactsOf, TaskRowOk, CostOk;
    LastRow(db, e);
    LiveIsLast(db, e);
  }

  /** The write of the evidence step is allowed, or the step raises. */
  lemma EvidenceAllowed(db: Db, e: Tuple, ev: Evidence, now: int, allowCancel: bool)
    requires Inv(db) && HasRows(db, e) && EvidenceOk(Some(ev)) && TimeOk(now)
    requires Mutable(Row(db, e).state) && ApplyEvidence(db, e, ev, now, allowCancel).Some?
    ensures var a := Row(db, e);
            var w := SetCost(e, if a.cost.Some? then a.cost else ev.actual, Cost(ev.actual, Some(ev.source)), now);
            Guard(db, w) || ApplyEvidence(db, e, ev, now, allowCancel) == Some(db)
  {
    hide Inv, PlanChecks, FactsOf, CostsDisagree, CostCompatible;
    var a := Row(db, e);
    var w := SetCost(e, if a.cost.Some? then a.cost else ev.actual, Cost(ev.actual, Some(ev.source)), now);
    MutableIsRunning(db, e);
    if a.cost.Some? && ev.actual.None? { UnknownOverKnownIsCorrupt(db, w); }
  }

  lemma EvidenceReaches(before: Db, db: Db, e: Tuple, ev: Evidence, now: int, allowCancel: bool)
    requires Inv(db) && HasRows(db, e) && Reaches(before, db, now) && EvidenceOk(Some(ev)) && TimeOk(now)
    ensures var r := ApplyEvidence(db, e, ev, now, allowCancel);
            r.Some? ==> Reaches(before, r.value, now) && Inv(r.value) && r.value.idem == db.idem
  {
    hide Inv, PlanChecks, Reaches, FactsOf, CostsDisagree, CostCompatible, Guard;
    var a := Row(db, e);
    var w := SetCost(e, if a.cost.Some? then a.cost else ev.actual, Cost(ev.actual, Some(ev.source)), now);
    if Mutable(a.state) && ApplyEvidence(db, e, ev, now, allowCancel).Some? {
      EvidenceAllowed(db, e, ev, now, allowCancel);
      if Guard(db, w) {
        OneMore(before, db, w, now);
        WriteKeepsInv(db, w);
      }
    }
  }

  // ---------- transitions ----------

  /** The inserted row holds the fence the reply names. */
  lemma SuccessorIsDurable(db: Db, w: Write)
    requires w.Succeed? && Guard(db, w) && TimeOk(db.tasks[w.tuple.task].deadlineMs)
    ensures DurableRow(Put(db, w), SuccessorOf(w.tuple, w.id))
    ensures Row(Put(db, w), SuccessorOf(w.tuple, w.id)).submitNotBefore == w.now + w.jitter
  {
    hide IndexOf, FailureOk, Replacement;
  }

  lemma DeadlineOk(db: Db, e: Tuple)
    requires Inv(db) && HasRows(db, e)
    ensures TimeOk(db.tasks[e.task].deadlineMs)
  {
    hide Inv, LastOk, FactsOf;
    LastRow(db, e);
  }

  lemma EligibleAllows(db: Db, w: Write, planHash: Option<PlanHash>)
    requires Inv(db) && w.Succeed? && TransitionPrecheck(db, w.tuple, w.provider, w.jitter, planHash, w.now).PreEligible?
    requires FailureOk(w.failure) && w.failure.kind == Retryable && 250 <= w.jitter <= 750 && TimeOk(w.now)
    ensures Guard(db, w) && HasRows(db, w.tuple) && w.provider in db.tasks[w.tuple.task].plan.ceilings
  {
    hide Inv, PlanChecks, CircuitOpen, IndexOf, Replacement, LastOk;
    FoundIsLive(db, w.tuple);
    LastRow(db, w.tuple);
    ActivePosition(db, w.tuple);
  }

  lemma TransitionReaches(db: Db, g: map<Tuple, int>, e: Tuple, successor: ProviderId, failure: Failure,
                          jitter: int, planHash: Option<PlanHash>, key: Option<string>,
                          id: AttemptId, now: int, mono: int)
    requires Inv(db)
    ensures Reaches(db, TransitionOnce(db, g, e, successor, failure, jitter, planHash, key, id, now, mono).db, now)
  {
    hide Inv, PlanChecks, Reaches, TransitionPrecheck, Guard, Durable, RememberIf, FailureOk;
    var r := TransitionOnce(db, g, e, successor, failure, jitter, planHash, key, id, now, mono);
    NoWrites(db, now);
    if FailureOk(failure) && failure.kind == Retryable && TimeOk(now) && DirectJitter(jitter, planHash.None? && key.None?).Some? {
      var delay := DirectJitter(jitter, planHash.None? && key.None?).value;
      var w := Succeed(e, id, successor, failure, delay, false, now);
      if TransitionPrecheck(db, e, successor, delay, planHash, now).PreEligible? && (key.Some? ==> Remembered(db, OpTransition, key.value).None?) {
        EligibleAllows(db, w, planHash);
        DeadlineOk(db, e);
        SuccessorIsDurable(db, w);
        OneMore(db, db, w, now);
        var reply := Transitioned(SuccessorOf(e, id), successor, db.tasks[e.task].plan.ceilings[successor], now + delay, None, None);
        RememberReaches(db, Put(db, w), OpTransition, key, e, reply, now);
      }
    }
  }

  lemma ObserveOnceReaches(before: Db, db: Db, e: Tuple, failure: Failure, source: FailureSource, key: string, now: int)
    requires Reaches(before, db, now) && HasRows(db, e) && TimeOk(now)
    ensures Reaches(before, ObserveOnce(db, e, failure, source, key, now), now)
    ensures forall k: string :: Remembered(ObserveOnce(db, e, failure, source, key, now), OpTransition, k) == Remembered(db, OpTransition, k)
  {
    hide Reaches;
    if Remembered(db, OpObservation, key).None? {
      ObserveReaches(before, db, e, failure, Some(source), key, now);
    }
  }

  lemma KeepReaches(before: Db, db: Db, g: map<Tuple, int>, e: Tuple, failure: Failure, source: FailureSource,
                    obsKey: string, key: string, reason: Reason, now: int)
    requires Reaches(before, db, now) && HasRows(db, e) && TimeOk(now) && Remembered(db, OpTransition, key).None?
    ensures Reaches(before, KeepObservation(db, g, e, failure, source, obsKey, key, reason, now).db, now)
  {
    hide Reaches, ObserveOnce, Remembered;
    ObserveOnceReaches(before, db, e, failure, source, obsKey, now);
    RememberReaches(before, ObserveOnce(db, e, failure, source, obsKey, now), OpTransition, Some(key), e,
                    ObservationRecorded(e, failure, Some(source), reason, Some(obsKey)), now);
  }

  lemma FusedApplyReaches(before: Db, db: Db, g: map<Tuple, int>, e: Tuple, successor: ProviderId, failure: Failure,
                          source: FailureSource, jitter: int, obsKey: string, key: string, id: AttemptId, now: int, mono: int)
    requires Reaches(before, db, now) && HasRows(db, e) && TimeOk(now) && Remembered(db, OpTransition, key).None?
    requires Guard(db, Succeed(e, id, successor, failure, jitter, false, now)) && TimeOk(db.tasks[e.task].deadlineMs)
    ensures successor in db.tasks[e.task].plan.ceilings
    ensures Reaches(before, FusedApply(db, g, e, successor, failure, source, jitter, obsKey, key, id, now, mono).db, now)
  {
    hide Reaches, ObserveOnce, IndexOf;
    var w := Succeed(e, id, successor, failure, jitter, false, now);
    ObserveOnceReaches(before, db, e, failure, source, obsKey, now);
    var db1 := ObserveOnce(db, e, failure, source, obsKey, now);
    assert Guard(db1, w);
    SuccessorIsDurable(db1, w);
    OneMore(before, db1, w, now);
    RememberReaches(before, Put(db1, w), OpTransition, Some(key), e,
                    Transitioned(SuccessorOf(e, id), successor, db.tasks[e.task].plan.ceilings[successor], now + jitter, Some(obsKey), Some(source)), now);
  }

  lemma FusedFreshReaches(db: Db, g: map<Tuple, int>, e: Tuple, successor: ProviderId, failure: Failure,
                          source: FailureSource, jitter: int, planHash: PlanHash, obsKey: string, key: string,
                          ev: Option<Evidence>, id: AttemptId, now: int, mono: int)
    requires Inv(db) && FailureOk(failure) && failure.kind == Retryable && 250 <= jitter <= 750 && EvidenceOk(ev) && TimeOk(now)
    requires Remembered(db, OpTransition, key).None?
    ensures Reaches(db, FusedFresh(db, g, e, successor, failure, source, jitter, planHash, obsKey, key, ev, id, now, mono).db, now)
  {
    hide Inv, PlanChecks, Reaches, TransitionPrecheck, Guard, FailureOk, ApplyEvidence, KeepObservation, FusedApply;
    NoWrites(db, now);
    var pre := TransitionPrecheck(db, e, successor, jitter, Some(planHash), now);
    if pre.PreEligible? || pre.PreRefused? {
      FoundIsLive(db, e);
      var applied := if ev.Some? then ApplyEvidence(db, e, ev.value, now, false) else Some(db);
      if ev.Some? { EvidenceReaches(db, db, e, ev.value, now, false); }
      if applied.Some? {
        var db1 := applied.value;
        var pre1 := TransitionPrecheck(db1, e, successor, jitter, Some(planHash), now);
        if pre1.PreRefused? { KeepReaches(db, db1, g, e, failure, source, obsKey, key, pre1.reason, now); }
        if pre.PreRefused? { KeepReaches(db, db1, g, e, failure, source, obsKey, key, pre.reason, now); }
        if pre1.PreEligible? {
          EligibleAllows(db1, Succeed(e, id, successor, failure, jitter, false, now), Some(planHash));
          DeadlineOk(db1, e);
          FusedApplyReaches(db, db1, g, e, successor, failure, source, jitter, obsKey, key, id, now, mono);
        }
      }
    }
  }

  lemma FusedReaches(db: Db, g: map<Tuple, int>, e: Tuple, successor: ProviderId, failure: Failure,
                     source: FailureSource, jitter: int, planHash: PlanHash, obsKey: string, key: string,
                     ev: Option<Evidence>, id: AttemptId, now: int, mono: int)
    requires Inv(db)
    ensures Reaches(db, FusedTransition(db, g, e, successor, failure, source, jitter, planHash, obsKey, key, ev, id, now, mono).db, now)
  {
    hide Inv, Reaches, FailureOk, EvidenceOk, FusedFresh, ObservationBound, Durable;
    NoWrites(db, now);
    if FailureOk(failure) && failure.kind == Retryable && 250 <= jitter <= 750 && EvidenceOk(ev) && TimeOk(now)
       && Remembered(db, OpTransition, key).None?
    {
      FusedFreshReaches(db, g, e, successor, failure, source, jitter, planHash, obsKey, key, ev, id, now, mono);
    }
  }

  lemma RecoveryReaches(db: Db, g: map<Tuple, int>, e: Tuple, key: string, jitter: int, failure: Option<Failure>,
                        asked: Option<ProviderId>, id: AttemptId, now: int, mono: int)
    requires Inv(db)
    ensures Reaches(db, RecoverAndTransition(db, g, e, key, jitter, failure, asked, id, now, mono).db, now)
  {
    hide Inv, PlanChecks, Reaches, FailureOk, RecoverUncertain, RecoverForward, Durable;
    NoWrites(db, now);
    var f := if failure.Some? then failure.value else PRE_DISPATCH_TIMEOUT;
    if ActiveLookup(db, e).Found? && TimeOk(now) && FailureOk(f) && f.kind == Retryable && Remembered(db, OpRecovery, key).None? {
      FoundIsLive(db, e);
      RecoverUncertainReaches(db, g, e, key, now);
      if DirectJitter(jitter, failure.None? && asked.None?).Some? && !Row(db, e).dispatched {
        RecoverForwardReaches(db, g, e, key, DirectJitter(jitter, failure.None? && asked.None?).value, f, asked, id, now, mono);
      }
    }
  }

  lemma FinishAllowed(db: Db, e: Tuple, outcome: Outcome, source: Option<CostSource>, now: int)
    requires Inv(db) && HasRows(db, e) && (Live(db, e) || CancelledLive(db, e)) && TimeOk(now)
    requires CostPayloadOk(Row(db, e).cost, source)
    ensures Guard(db, Finish(e, Row(db, e).cost, None, Completion(outcome, Row(db, e).cost, source), now))
  {
    hide Inv, TaskRowOk, FactsOf, CostOk, LiveOk;
    LastRow(db, e);
  }

  lemma RecoverUncertainReaches(db: Db, g: map<Tuple, int>, e: Tuple, key: string, now: int)
    requires Inv(db) && Live(db, e) && TimeOk(now) && Remembered(db, OpRecovery, key).None?
    ensures Reaches(db, RecoverUncertain(db, g, e, key, now).db, now)
  {
    hide Inv, Reaches, Guard, LatestCostSource;
    NoWrites(db, now);
    var cost, source := Row(db, e).cost, LatestCostSource(db.outbox, e);
    if CostPayloadOk(cost, source) {
      FinishAllowed(db, e, DoneUncertain, source, now);
      var w := Finish(e, cost, None, Completion(DoneUncertain, cost, source), now);
      OneMore(db, db, w, now);
      RememberReaches(db, Put(db, w), OpRecovery, Some(key), e, RecoveredTerminal(e), now);
    }
  }

  lemma RecoverForwardReaches(db: Db, g: map<Tuple, int>, e: Tuple, key: string, delay: int, f: Failure,
                              asked: Option<ProviderId>, id: AttemptId, now: int, mono: int)
    requires Inv(db) && ActiveLookup(db, e).Found? && !Row(db, e).dispatched && TimeOk(now) && Remembered(db, OpRecovery, key).None?
    requires FailureOk(f) && f.kind == Retryable && 250 <= delay <= 750
    ensures Reaches(db, RecoverForward(db, g, e, key, delay, f, asked, id, now, mono).db, now)
  {
    hide Inv, PlanChecks, Reaches, CircuitOpen, IndexOf, FailureOk, Replacement, LastOk;
    NoWrites(db, now);
    FoundIsLive(db, e);
    LastRow(db, e);
    ActivePosition(db, e);
    var r := RecoverForward(db, g, e, key, delay, f, asked, id, now, mono);
    if r.reply.Recovered? {
      var w := Succeed(e, id, r.reply.provider, f, delay, true, now);
      DeadlineOk(db, e);
      SuccessorIsDurable(db, w);
      OneMore(db, db, w, now);
      RememberReaches(db, Put(db, w), OpRecovery, Some(key), e, r.reply, now);
    }
  }

  // ---------- cancel and termination ----------

  lemma PreDispatchReaches(db: Db, g: map<Tuple, int>, e: Tuple, now: int)
    requires Inv(db)
    ensures Reaches(db, RecoverPreDispatch(db, g, e, now).db, now)
  {
    hide Inv, PlanChecks, Reaches, LatestCostSource, CostPayloadOk;
    NoWrites(db, now);
    if ActiveLookup(db, e).Found? && TimeOk(now) {
      FoundIsLive(db, e);
      var source := LatestCostSource(db.outbox, e);
      if CostPayloadOk(Row(db, e).cost, source) {
        FinishAllowed(db, e, DoneUncertain, source, now);
        OneMore(db, db, Finish(e, Row(db, e).cost, None, Completion(DoneUncertain, Row(db, e).cost, source), now), now);
      }
      if !Row(db, e).dispatched { OneMore(db, db, Orphan(e, now), now); }
    }
  }

  /** Of a running task's attempts only the active one has not ended, so the
      cancel finds it although it does not look at active_control. */
  lemma UnendedIsActive(db: Db, e: Tuple)
    requires Inv(db) && HasAttempt(db, e) && e.task in db.tasks
    requires db.tasks[e.task].status == Running && !EndedState(Row(db, e).state)
    ensures Live(db, e)
  {
    hide TaskRowOk, IdentityAt, FenceAt, LastOk, FactsOf, Sum, FactOk;
    assert TaskOk(db, e.task);
    if e.epoch < db.tasks[e.task].transitionsUsed { EarlierHaveEnded(db, e.task, e.epoch); }
    LiveIsLast(db, e);
  }

  lemma CancelReaches(db: Db, g: map<Tuple, int>, e: Tuple, key: string, now: int)
    requires Inv(db)
    ensures Reaches(db, RequestCancel(db, g, e, key, now).db, now)
  {
    hide Inv, Reaches;
    NoWrites(db, now);
    if TimeOk(now) && Remembered(db, OpCancel, key).None? && HasAttempt(db, e) && e.task in db.tasks {
      if db.tasks[e.task].status != Running || Row(db, e).cancelRequested || EndedState(Row(db, e).state) {
        RememberReaches(db, db, OpCancel, Some(key), e, AckAlreadyTerminal(e), now);
      } else {
        UnendedIsActive(db, e);
        OneMore(db, db, Cancel(e, now), now);
        RememberReaches(db, Put(db, Cancel(e, now)), OpCancel, Some(key), e, AckCancelled(e), now);
      }
    }
  }

  lemma CancelIfActiveReaches(db: Db, g: map<Tuple, int>, e: Tuple, now: int)
    requires Inv(db)
    ensures Reaches(db, RequestCancelIfActive(db, g, e, now).db, now)
  {
    hide Inv, PlanChecks, Reaches;
    NoWrites(db, now);
    if ActiveLookup(db, e).Found? && TimeOk(now) {
      FoundIsLive(db, e);
      OneMore(db, db, Cancel(e, now), now);
    }
  }

  lemma CompleteReaches(db: Db, g: map<Tuple, int>, e: Tuple, outcome: Outcome, actual: Option<int>,
                        source: Option<CostSource>, now: int)
    requires Inv(db)
    ensures Reaches(db, Complete(db, g, e, outcome, actual, source, now).db, now)
  {
    hide Inv, PlanChecks, Reaches, LatestCostSource, TaskRowOk, FactsOf;
    NoWrites(db, now);
    var r := Complete(db, g, e, outcome, actual, source, now);
    if r.reply.ClosedTerminal? {
      FoundIsLive(db, e);
      LastRow(db, e);
      var final := if actual.Some? then actual else Row(db, e).cost;
      var mark := if source.Some? then source else LatestCostSource(db.outbox, e);
      OneMore(db, db, Finish(e, final, None, Completion(outcome, final, mark), now), now);
    }
  }

  /** The close is allowed whatever cost its completion fact reports. */
  lemma CloseAllowed(db: Db, e: Tuple, w: Write, now: int)
    requires Inv(db) && HasRows(db, e) && ClosableStatus(db.tasks[e.task].status) && TimeOk(now)
    requires w.Finish? && w.tuple == e && w.cost == Row(db, e).cost && w.now == now && w.body.Completion? && CompletionFactOk(w.body)
    ensures Guard(db, w)
  {
    hide Inv, TaskRowOk, FactsOf, CostOk, LiveOk;
    LiveIsLast(db, e);
    LastRow(db, e);
  }

  lemma CloseOutReaches(before: Db, db: Db, e: Tuple, outcome: Outcome, failure: Option<Failure>,
                        failureSource: Option<FailureSource>, reported: Option<int>, source: Option<CostSource>, now: int)
    requires Inv(db) && Reaches(before, db, now) && HasRows(db, e) && TimeOk(now) && (reported.Some? ==> Micro(reported.value))
    ensures var r := CloseOut(db, e, outcome, failure, failureSource, reported, source, now);
            r.Worked? ==> Reaches(before, r.after, now) && r.after.idem == db.idem
  {
    hide Inv, Reaches, LatestCostSource, Recosted;
    var db1 := NoteFailure(db, e, failure, failureSource, now);
    var mark := if source.Some? then source else LatestCostSource(db1.outbox, e);
    if ClosableStatus(db.tasks[e.task].status) && CostPayloadOk(reported, mark) {
      if failure.Some? {
        var note := Note(e, Observed(failure.value, failureSource), now);
        OneMore(before, db, note, now);
        WriteKeepsInv(db, note);
      }
      var w := Finish(e, Row(db1, e).cost, failure, Completion(outcome, reported, mark), now);
      CloseAllowed(db1, e, w, now);
      hide Guard, CancelledLive, Live;
      OneMore(before, db1, w, now);
    }
  }

  lemma ReconcileReaches(db: Db, e: Tuple, outcome: Outcome, source: Option<CostSource>, failure: Option<Failure>,
                         failureSource: Option<FailureSource>, ev: Option<Evidence>, now: int)
    requires Inv(db) && HasRows(db, e) && EvidenceOk(ev) && TimeOk(now)
    ensures var r := ReconcileAndClose(db, e, outcome, source, failure, failureSource, ev, now);
            r.Worked? ==> Reaches(db, r.after, now) && r.after.idem == db.idem
  {
    hide Inv, Reaches, ApplyEvidence, CloseOut, ActiveLookup, PlanChecks;
    NoWrites(db, now);
    var applied := if ev.Some? then ApplyEvidence(db, e, ev.value, now, true) else Some(db);
    if ev.Some? { EvidenceReaches(db, db, e, ev.value, now, true); }
    if applied.Some? {
      KnownCostInRange(applied.value, e);
      CloseOutReaches(db, applied.value, e, outcome, failure, failureSource, Row(applied.value, e).cost, source, now);
    }
  }

  lemma CloseReaches(db: Db, g: map<Tuple, int>, e: Tuple, outcome: Outcome, source: Option<CostSource>,
                     failure: Option<Failure>, failureSource: Option<FailureSource>, key: Option<string>,
                     ev: Option<Evidence>, now: int)
    requires Inv(db)
    ensures Reaches(db, CloseTerminal(db, g, e, outcome, source, failure, failureSource, key, ev, now).db, now)
  {
    hide Inv, Reaches, ReconcileAndClose, FailureOk, RememberIf;
    NoWrites(db, now);
    if HasRows(db, e) && EvidenceOk(ev) && TimeOk(now) && (key.Some? ==> Remembered(db, OpFinalize, key.value).None?) {
      ReconcileReaches(db, e, outcome, source, failure, failureSource, ev, now);
      var closed := ReconcileAndClose(db, e, outcome, source, failure, failureSource, ev, now);
      if closed.Worked? { RememberReaches(db, closed.after, OpFinalize, key, e, ClosedTerminal(e, outcome, failure), now); }
    }
  }

  lemma KnownCostInRange(db: Db, e: Tuple)
    requires Inv(db) && HasRows(db, e)
    ensures Row(db, e).cost.Some? ==> Micro(Row(db, e).cost.value)
  {
    hide Inv, FactsOf, TaskRowOk, CostOk, LiveOk;
    LastRow(db, e);
  }

  lemma PollCostReaches(db: Db, e: Tuple, final: Option<int>, source: Option<CostSource>, now: int)
    requires Inv(db) && HasRows(db, e) && Mutable(Row(db, e).state) && TimeOk(now)
    requires (final.Some? ==> Micro(final.value)) && (final.None? ==> Row(db, e).cost.None?)
    requires Micro(Recosted(db, e, final))
    ensures var r := PollCost(db, e, final, source, now);
            r.Some? ==> Reaches(db, r.value, now) && Inv(r.value)
  {
    hide Inv, Reaches, LatestCostSource, FactsOf, Recosted;
    NoWrites(db, now);
    MutableIsRunning(db, e);
    if FactsOf(db.outbox, e).costs == [] {
      var mark := if source.None? && final.None? then Some(Unavailable)
                  else if source.None? then LatestCostSource(db.outbox, e) else source;
      if CostPayloadOk(final, mark) {
        OneMore(db, db, SetCost(e, final, Cost(final, mark), now), now);
        WriteKeepsInv(db, SetCost(e, final, Cost(final, mark), now));
      }
    }
  }

  lemma PayReaches(db: Db, e: Tuple, outcome: Outcome, final: Option<int>, source: Option<CostSource>,
                   failure: Option<Failure>, failureSource: Option<FailureSource>, now: int)
    requires Inv(db) && HasRows(db, e) && Mutable(Row(db, e).state) && TimeOk(now)
    requires (final.Some? ==> Micro(final.value)) && (final.None? ==> Row(db, e).cost.None?)
    requires Micro(Recosted(db, e, final))
    ensures var r := PayAndClose(db, e, outcome, final, source, failure, failureSource, now);
            r.Worked? ==> Reaches(db, r.after, now)
  {
    hide Inv, Reaches, CloseOut, PollCost, Recosted, Mutable;
    PollCostReaches(db, e, final, source, now);
    var costed := PollCost(db, e, final, source, now);
    if costed.Some? { CloseOutReaches(db, costed.value, e, outcome, failure, failureSource, final, source, now); }
  }

  lemma PollReaches(db: Db, g: map<Tuple, int>, e: Tuple, outcome: Outcome, actual: Option<int>,
                    source: Option<CostSource>, failure: Option<Failure>, failureSource: Option<FailureSource>, now: int)
    requires Inv(db)
    ensures Reaches(db, CompleteFromPoll(db, g, e, outcome, actual, source, failure, failureSource, now).db, now)
  {
    hide Inv, Reaches, PayAndClose, FailureOk, LatestOutcome, Reservation;
    NoWrites(db, now);
    if CompleteFromPoll(db, g, e, outcome, actual, source, failure, failureSource, now).db != db {
      KnownCostInRange(db, e);
      var final := if actual.Some? then actual else Row(db, e).cost;
      PayReaches(db, e, outcome, final, source, failure, failureSource, now);
    }
  }
}
