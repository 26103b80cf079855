/** Runs under well-behaved clocks: the circuit breaker never raises, and no
    attempt is submitted before both of its fences have passed. */
module LedgerClock {
  import opened Wrappers
  import opened Payload
  import opened LedgerTables
  import opened LedgerChecks
  import opened LedgerWrites
  import opened LedgerInvariant
  import opened LedgerCircuit
  import opened SubmitFence
  import opened LedgerOps
  import opened LedgerChains
  import opened LedgerBudget
  import opened LedgerHistory
  import opened LedgerRuns
  import opened LedgerScans

  // ---------- the wall clock ----------

  /** The wall clock never ran backwards up to `now`. */
  ghost predicate Clocked(evs: seq<Event>, now: int)
  {
    && (forall i, j | 0 <= i < j < |evs| :: evs[i].now <= evs[j].now)
    && (forall i | 0 <= i < |evs| :: evs[i].now <= now)
  }

  /** The write only appends to the log, and only facts with its own stamp. */
  lemma WriteStampsFacts(db: Db, w: Write, now: int)
    requires Applies(db, w) && Stamped(w, now)
    ensures var log := Put(db, w).outbox;
            && |db.outbox| <= |log| && log[..|db.outbox|] == db.outbox
            && forall i | |db.outbox| <= i < |log| :: log[i].at == now
  {
    hide Replacement, Reservation, FreshTask, FreshAttempt;
  }

  lemma WriteKeepsClock(db: Db, w: Write, now: int)
    requires Applies(db, w) && Stamped(w, now) && ClockOk(db.outbox, now)
    ensures ClockOk(Put(db, w).outbox, now)
  {
    WriteStampsFacts(db, w, now);
    hide Put, Applies;
    var log := Put(db, w).outbox;
    forall i | 0 <= i < |log| ensures log[i].at == if i < |db.outbox| then db.outbox[i].at else now {
      if i < |db.outbox| { assert log[..|db.outbox|][i] == db.outbox[i]; }
    }
  }

  lemma {:induction false} ChainKeepsClock(db: Db, ws: seq<Write>, now: int)
    requires StampedChain(db, ws, now) && ClockOk(db.outbox, now)
    ensures ClockOk(PutAll(db, ws).outbox, now)
    decreases |ws|
  {
    hide ClockOk, Put;
    if ws != [] {
      assert Applies(db, ws[0]);
      WriteKeepsClock(db, ws[0], now);
      ChainKeepsClock(Put(db, ws[0]), ws[1..], now);
    }
  }

  lemma ClockAdvances(log: seq<Fact>, now: int, later: int)
    requires ClockOk(log, now) && now <= later
    ensures ClockOk(log, later)
  {
  }

  lemma {:induction false} RunKeepsClock(evs: seq<Event>, now: int)
    requires Clocked(evs, now)
    ensures ClockOk(After(START, evs).db.outbox, now)
  {
    hide Inv, ClockOk, Step, Chain, PutAll, Sound;
    if evs == [] {
      EmptyClock(now);
    } else {
      var front, ev := evs[..|evs| - 1], evs[|evs| - 1];
      RunKeepsClock(front, ev.now);
      ReachableIsSound(front);
      SoundInv(After(START, front).db);
      StepReaches(After(START, front), ev);
      var ws :| StampedChain(After(START, front).db, ws, ev.now) && PutAll(After(START, front).db, ws) == Step(After(START, front), ev).db;
      ChainKeepsClock(After(START, front).db, ws, ev.now);
      ClockAdvances(After(START, evs).db.outbox, ev.now, now);
    }
  }

  lemma EmptyClock(now: int)
    ensures ClockOk([], now)
  {
  }

  /** In every run under a non-decreasing clock the breaker's validations succeed, and
      it is open exactly when three failures of the provider, anywhere in the history,
      lie within five minutes and the last is less than a minute old. */
  lemma BreakerDecidesHistory(evs: seq<Event>, now: int, provider: ProviderId, scope: seq<ProviderId>)
    requires Clocked(evs, now) && ScopeOk(provider, scope)
    ensures var db := After(START, evs).db;
            && db.witnesses == WitnessesOf(db.outbox)
            && CircuitOpen(db, provider, now, scope) == Some(ThreeFailures(History(db.outbox, provider), now))
  {
    hide Inv, ClockOk, Sound, CircuitOpen, ThreeFailures, History, After, ScopeOk;
    ReachableIsSound(evs);
    SoundInv(After(START, evs).db);
    RunKeepsClock(evs, now);
    CircuitDecidesHistory(After(START, evs).db, provider, now, scope);
  }

  /** In every reachable state the migration succeeds: over a missing index table it
      restores exactly the rows incremental insertion had put there. */
  lemma MigrationSucceeds(evs: seq<Event>, hadAuthority: bool)
    ensures Migratable(After(START, evs).db, hadAuthority)
    ensures Migratable(After(START, evs).db.(witnesses := []), false)
  {
    hide Inv, Sound, After, Migrates;
    ReachableIsSound(evs);
    var db := After(START, evs).db;
    SoundInv(db);
    CommittedIsMigratable(db, hadAuthority);
    CommittedIsMigratable(db, false);
    LostIndexMigrates(db);
  }

  // ---------- the monotonic guards ----------

  /** Guards belong to attempts and lie no further ahead than the fence's delay. */
  ghost predicate GuardsOk(s: State, mono: int)
  {
    forall e | e in s.guards :: HasAttempt(s.db, e) && GuardInReach(s.guards, e, Row(s.db, e), mono)
  }

  /** The monotonic readings of an operation do not run backwards from `from`. */
  predicate Ticks(ev: Event, from: int, mono: int)
  {
    match ev
    case Submitting(_, _, _, _, _, _, seen, m) => from <= seen <= m <= mono
    case Dispatching(_, _, seen, m) => from <= seen <= m <= mono
    case FencingTool(_, _, _, _, seen, m) => from <= seen <= m <= mono
    case Transitioning(_, _, _, _, _, _, _, _, m) => from <= m <= mono
    case Fusing(_, _, _, _, _, _, _, _, _, _, _, m) => from <= m <= mono
    case Recovering(_, _, _, _, _, _, _, m) => from <= m <= mono
    case Restarting(_) => true
    case _ => from <= mono
  }

  /** The operation read the guard of its own tuple, or created it. */
  predicate ReadsGuard(s: State, r: Result, e: Tuple, seen: int)
  {
    || r.guards == s.guards
    || (HasAttempt(s.db, e) && e.task in s.db.tasks
        && r.guards == GuardsAfter(s.guards, e, Row(s.db, e), s.db.tasks[e.task].deadlineMs, seen))
  }

  /** The operation set the guard of the successor it inserted. */
  predicate SetsGuard(s: State, r: Result, next: Tuple, mono: int)
  {
    || r.guards == s.guards
    || (HasAttempt(r.db, next)
        && r.guards == s.guards[next := mono + (Row(r.db, next).submitNotBefore - Row(r.db, next).createdAt) * NS_PER_MS])
  }

  lemma SubmitReadsGuard(s: State, ev: Event)
    requires Submits(ev)
    ensures ReadsGuard(s, Step(s, ev), ev.e, ev.seen)
  {
    hide PlanChecks, FenceReadiness, GuardsAfter, Put, ValidPlan;
  }

  lemma TransitionSetsGuard(s: State, ev: Event)
    requires ev.Transitioning?
    ensures SetsGuard(s, TransitionOnce(s.db, s.guards, ev.e, ev.successor, ev.failure, ev.jitter, ev.planHash, ev.token,
                                        ev.id, ev.now, ev.mono), SuccessorOf(ev.e, ev.id), ev.mono)
  {
    hide PlanChecks, TransitionPrecheck, Durable, FailureOk, Replacement, WitnessFor;
  }

  lemma FusedApplySetsGuard(db: Db, g: map<Tuple, int>, e: Tuple, successor: ProviderId, failure: Failure,
                            source: FailureSource, jitter: int, obsKey: string, key: string, id: AttemptId, now: int, mono: int)
    requires HasRows(db, e) && successor in db.tasks[e.task].plan.ceilings
    ensures SetsGuard(State(db, g), FusedApply(db, g, e, successor, failure, source, jitter, obsKey, key, id, now, mono), SuccessorOf(e, id), mono)
  {
    hide Replacement, WitnessFor, ObserveOnce;
  }

  lemma FusedFreshSetsGuard(s: State, ev: Event)
    requires ev.Fusing?
    ensures SetsGuard(s, FusedFresh(s.db, s.guards, ev.e, ev.successor, ev.failure, ev.engine, ev.jitter, ev.hash,
                                    ev.obsKey, ev.key, ev.ev, ev.id, ev.now, ev.mono), SuccessorOf(ev.e, ev.id), ev.mono)
  {
    hide PlanChecks, TransitionPrecheck, ApplyEvidence, FusedApply, ObserveOnce;
    var db, g := s.db, s.guards;
    if TransitionPrecheck(db, ev.e, ev.successor, ev.jitter, Some(ev.hash), ev.now).PreEligible? {
      FoundCeiling(db, ev.e, ev.successor);
      var applied := if ev.ev.Some? then ApplyEvidence(db, ev.e, ev.ev.value, ev.now, false) else Some(db);
      if applied.Some? && TransitionPrecheck(applied.value, ev.e, ev.successor, ev.jitter, Some(ev.hash), ev.now).PreEligible? {
        FoundCeiling(applied.value, ev.e, ev.successor);
        FusedApplySetsGuard(applied.value, g, ev.e, ev.successor, ev.failure, ev.engine, ev.jitter, ev.obsKey, ev.key, ev.id, ev.now, ev.mono);
      }
    }
  }

  lemma SameGuards(s: State, r: Result, next: Tuple, mono: int)
    ensures r.guards == s.guards ==> SetsGuard(s, r, next, mono)
  {
  }

  lemma FusedSetsGuard(s: State, ev: Event)
    requires ev.Fusing?
    ensures SetsGuard(s, Step(s, ev), SuccessorOf(ev.e, ev.id), ev.mono)
  {
    hide FusedFresh, Durable, FailureOk, ObservationBound, EvidenceOk, SetsGuard;
    FusedFreshSetsGuard(s, ev);
    SameGuards(s, Step(s, ev), SuccessorOf(ev.e, ev.id), ev.mono);
  }

  lemma ForwardSetsGuard(db: Db, g: map<Tuple, int>, e: Tuple, key: string, delay: int, f: Failure,
                         asked: Option<ProviderId>, id: AttemptId, now: int, mono: int)
    requires ActiveLookup(db, e).Found?
    ensures SetsGuard(State(db, g), RecoverForward(db, g, e, key, delay, f, asked, id, now, mono), SuccessorOf(e, id), mono)
  {
    hide PlanChecks, CircuitOpen, FailureOk, Replacement, WitnessFor, IndexOf, RecoveryTarget;
  }

  lemma RecoverySetsGuard(s: State, ev: Event)
    requires ev.Recovering?
    ensures SetsGuard(s, Step(s, ev), SuccessorOf(ev.e, ev.id), ev.mono)
  {
    hide PlanChecks, Durable, FailureOk, LatestCostSource, CostPayloadOk, RecoverForward, Put;
    var delay := DirectJitter(ev.jitter, ev.cause.None? && ev.asked.None?);
    var f := if ev.cause.Some? then ev.cause.value else PRE_DISPATCH_TIMEOUT;
    if ActiveLookup(s.db, ev.e).Found? && delay.Some? {
      ForwardSetsGuard(s.db, s.guards, ev.e, ev.key, delay.value, f, ev.asked, ev.id, ev.now, ev.mono);
    }
  }

  lemma OthersKeepGuards(s: State, ev: Event)
    requires !Submits(ev) && !ev.Transitioning? && !ev.Fusing? && !ev.Recovering?
    ensures Step(s, ev).guards == if ev.Restarting? then map[] else s.guards
  {
    hide PlanChecks, Put, ReconcileAndClose, PayAndClose, FailureOk, LatestCostSource, LatestOutcome, ValidPlan;
  }

  /** The guard an operation added points at an attempt and is in reach. */
  lemma AddedGuardInReach(s: State, r: Result, ev: Event, from: int, mono: int)
    requires GuardsOk(s, from) && Ticks(ev, from, mono) && Persists(s.db, r.db)
    requires || (Submits(ev) && ReadsGuard(s, r, ev.e, ev.seen))
             || ((ev.Transitioning? || ev.Fusing? || ev.Recovering?) && SetsGuard(s, r, SuccessorOf(ev.e, ev.id), ev.mono))
             || r.guards == s.guards
    requires !ev.Restarting?
    ensures GuardsOk(State(r.db, r.guards), mono)
  {
    hide FenceOk;
    forall e | e in r.guards ensures HasAttempt(r.db, e) && GuardInReach(r.guards, e, Row(r.db, e), mono) {
      if e in s.guards { assert SlotOf(e) in r.db.attempts; }
    }
  }

  lemma StepKeepsGuards(s: State, ev: Event, from: int, mono: int)
    requires Persists(s.db, Step(s, ev).db) && GuardsOk(s, from) && Ticks(ev, from, mono)
    ensures GuardsOk(State(Step(s, ev).db, Step(s, ev).guards), mono)
  {
    if ev.Transitioning? { TransitionSetsGuard(s, ev); }
    hide PlanChecks, ReadsGuard, SetsGuard, Persists, GuardInReach, SubmitAttempt, MarkDispatch, AuthorizeTool,
         RecoverAndTransition, TransitionOnce, FusedTransition, RecordObservation, AppendEvent, MutateState, RecordCost, RecoverPreDispatch,
         RequestCancel, RequestCancelIfActive, Complete, CloseTerminal, CompleteFromPoll, CreateInitial, HasAttempt, SuccessorOf;
    if Submits(ev) {
      SubmitReadsGuard(s, ev);
    } else if ev.Fusing? {
      FusedSetsGuard(s, ev);
    } else if ev.Recovering? {
      RecoverySetsGuard(s, ev);
    } else if !ev.Transitioning? {
      OthersKeepGuards(s, ev);
    }
    if !ev.Restarting? { AddedGuardInReach(s, Step(s, ev), ev, from, mono); }
  }

  /** The monotonic clock never ran backwards since the last restart, up to `mono`. */
  ghost predicate Ticking(evs: seq<Event>, mono: int)
  {
    evs == [] ||
    var front, ev := evs[..|evs| - 1], evs[|evs| - 1];
    ev.Restarting? || exists from :: Ticks(ev, from, mono) && Ticking(front, from)
  }

  lemma {:induction false} RunKeepsGuards(evs: seq<Event>, mono: int)
    requires Ticking(evs, mono)
    ensures GuardsOk(After(START, evs), mono)
  {
    hide Step, Sound, GuardInReach, Ticks, Persists, Absorbs, HasAttempt;
    if evs != [] {
      var front, ev := evs[..|evs| - 1], evs[|evs| - 1];
      ReachableIsSound(front);
      StepKeepsSound(After(START, front), ev);
      if ev.Restarting? {
        OthersKeepGuards(After(START, front), ev);
      } else {
        var from :| Ticks(ev, from, mono) && Ticking(front, from);
        RunKeepsGuards(front, from);
        StepKeepsGuards(After(START, front), ev, from, mono);
      }
    }
  }

  // ---------- the submit fences over whole runs ----------

  /** No run submits, dispatches or tool-fences a successor before 250 ms of wall
      time since its creation, its own wall fence and its monotonic guard have passed. */
  lemma EffectsFollowFences(evs: seq<Event>, ev: Event)
    requires Submits(ev)
    requires Effect(Step(After(START, evs), ev).reply, ev.e.task) && ev.e.epoch > 0
    ensures var s, e := After(START, evs), ev.e;
            && HasAttempt(s.db, e)
            && Row(s.db, e).createdAt + 250 <= Row(s.db, e).submitNotBefore <= ev.now
            && var g := Step(s, ev).guards; e in g && g[e] <= ev.mono && (e in s.guards ==> g[e] == s.guards[e])
  {
    hide Inv, IndexAgrees, FencesOk, RepliesTruthful, BudgetOk, RangeOk, After, PlanChecks, Step;
    var s, e := After(START, evs), ev.e;
    ReachableIsSound(evs);
    assert SubmitFenceOk(e.epoch, Row(s.db, e)) by {
      EffectNeedsReadiness(s, ev);
      assert SubmitFencesOk(s.db);
    }
    EffectNeedsReadiness(s, ev);
  }

  /** In every run, waiting the returned time once ends NOT_READY, unless the wall clock
      stands before the attempt's creation. */
  lemma NotReadyEnds(evs: seq<Event>, e: Tuple, wall: int, seen: int, mono: int, wall': int, seen': int, mono': int)
    requires Ticking(evs, seen) && seen <= mono
    requires var s := After(START, evs); HasAttempt(s.db, e) && e.task in s.db.tasks && Row(s.db, e).createdAt <= wall
    requires var s := After(START, evs);
             var r := FenceReadiness(s.guards, e, Row(s.db, e), s.db.tasks[e.task].deadlineMs, wall, seen, mono);
             r.Wait? && wall' >= wall + r.retryAfterMs && mono' >= mono + r.retryAfterMs * NS_PER_MS
    ensures var s := After(START, evs);
            var a, d := Row(s.db, e), s.db.tasks[e.task].deadlineMs;
            && FenceReadiness(GuardsAfter(s.guards, e, a, d, seen), e, a, d, wall', seen', mono').Ready?
            // a restart in between loses the guard; the rebuilt one is in reach again
            && (FenceReadiness(map[], e, a, d, wall', seen', mono').Wait? && seen' <= mono' ==>
                  forall w, m | w >= wall' + MAX_WAIT_MS && m >= mono' + MAX_WAIT_MS * NS_PER_MS ::
                    FenceReadiness(GuardsAfter(map[], e, a, d, seen'), e, a, d, w, seen', m).Ready?)
  {
    hide After, FenceReadiness, GuardsAfter;
    var s := After(START, evs);
    var a, d := Row(s.db, e), s.db.tasks[e.task].deadlineMs;
    RunKeepsGuards(evs, seen);
    WaitIsBounded(s.guards, e, a, d, wall, seen, mono);
    WaitEndsNotReady(s.guards, e, a, d, wall, seen, mono, wall', seen', mono');
    if FenceReadiness(map[], e, a, d, wall', seen', mono').Wait? && seen' <= mono' {
      WaitIsBounded(map[], e, a, d, wall', seen', mono');
      forall w, m | w >= wall' + MAX_WAIT_MS && m >= mono' + MAX_WAIT_MS * NS_PER_MS
        ensures FenceReadiness(GuardsAfter(map[], e, a, d, seen'), e, a, d, w, seen', m).Ready?
      {
        WaitEndsNotReady(map[], e, a, d, wall', seen', mono', w, seen', m);
      }
    }
  }

  lemma WaitIsBounded(guards: map<Tuple, int>, e: Tuple, a: Attempt, deadline: int, wall: int, seen: int, mono: int)
    requires FenceReadiness(guards, e, a, deadline, wall, seen, mono).Wait?
    ensures 1 <= FenceReadiness(guards, e, a, deadline, wall, seen, mono).retryAfterMs <= MAX_WAIT_MS
  {
  }
}
