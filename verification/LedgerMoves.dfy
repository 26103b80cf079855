/** When a task moves on to another provider, and to which: the transition, the fused
    transition and the recovery, said of the rows, the plan, the clocks and the log. */
module LedgerMoves {
  import opened Wrappers
  import opened Payload
  import opened LedgerTables
  import opened LedgerChecks
  import opened LedgerWrites
  import opened LedgerInvariant
  import opened LedgerFold
  import opened LedgerCircuit
  import opened SubmitFence
  import opened LedgerOps
  import opened LedgerChains
  import opened LedgerBudget
  import opened LedgerHistory
  import opened LedgerRuns
  import opened LedgerLimits
  import opened LedgerReplay
  import opened LedgerFused
  import opened LedgerBreaker
  import opened LedgerAnswers
  import opened LedgerEvidence
  import opened LedgerEndings

  // ---------- the barriers ----------

  /** `later` comes after `earlier` in the plan's order. */
  predicate ComesAfter(providers: seq<ProviderId>, later: ProviderId, earlier: ProviderId)
  {
    exists i, j :: 0 <= i < j < |providers| && providers[i] == earlier && providers[j] == later
  }

  /** `next` stands right behind `current` in the plan's order. */
  predicate ComesNext(providers: seq<ProviderId>, next: ProviderId, current: ProviderId)
  {
    exists i :: 0 <= i < |providers| - 1 && providers[i] == current && providers[i + 1] == next
  }

  predicate IsLastProvider(providers: seq<ProviderId>, current: ProviderId)
  {
    |providers| > 0 && providers[|providers| - 1] == current
  }

  lemma OrderMeans(providers: seq<ProviderId>, p: ProviderId, q: ProviderId)
    requires forall a, b | 0 <= a < b < |providers| :: providers[a] != providers[b]
    requires p in providers
    ensures q in providers && IndexOf(providers, p) < IndexOf(providers, q) <==> ComesAfter(providers, q, p)
  {
    if ComesAfter(providers, q, p) {
      var i, j :| 0 <= i < j < |providers| && providers[i] == p && providers[j] == q;
      IndexOfMember(providers, i);
      IndexOfMember(providers, j);
    }
  }

  /** The plan hash, if given, is the plan's; nothing was dispatched; there is time. */
  predicate NothingBars(db: Db, e: Tuple, delay: int, planHash: Option<PlanHash>, now: int)
    requires HasRows(db, e)
  {
    && (planHash.Some? ==> planHash.value == Sha256(db.tasks[e.task].plan))
    && !Row(db, e).dispatched
    && now + delay < db.tasks[e.task].deadlineMs
  }

  /** A transition is left and the successor comes later in the plan. */
  predicate PlanAllows(db: Db, e: Tuple, successor: ProviderId)
    requires HasRows(db, e)
  {
    && db.tasks[e.task].transitionsUsed < db.tasks[e.task].plan.transitionLimit
    && ComesAfter(db.tasks[e.task].plan.providers, successor, Row(db, e).provider)
  }

  /** The row's provider failed three times within five minutes, the last of them less
      than a minute ago. */
  ghost predicate Tripped(db: Db, e: Tuple, now: int)
    requires HasRows(db, e)
  {
    ThreeWithin(History(db.outbox, Row(db, e).provider), now)
  }

  ghost predicate ClockInOrder(db: Db, e: Tuple, now: int)
    requires HasRows(db, e)
  {
    ClockFits(db, db.tasks[e.task].plan.providers, now)
  }

  /** What the task would reserve with the successor's ceiling on top. */
  function AmountToMove(db: Db, e: Tuple, cost: Option<int>, successor: ProviderId): int
    requires HasRows(db, e) && successor in db.tasks[e.task].plan.ceilings
  {
    AmountWith(db, e, cost) + db.tasks[e.task].plan.ceilings[successor]
  }

  predicate WithinBudget(db: Db, t: TaskId, amount: int)
    requires t in db.tasks
  {
    db.tasks[t].plan.budget.Some? ==> amount <= db.tasks[t].plan.budget.value
  }

  lemma LaterIsPriced(db: Db, e: Tuple, successor: ProviderId)
    requires Inv(db) && HasRows(db, e) && successor in db.tasks[e.task].plan.providers
    ensures successor in db.tasks[e.task].plan.ceilings && Micro(db.tasks[e.task].plan.ceilings[successor])
  {
    hide Inv;
    PlanHashIsPlan(db, e);
  }

  lemma LaterIsListed(providers: seq<ProviderId>, later: ProviderId, earlier: ProviderId)
    requires ComesAfter(providers, later, earlier)
    ensures later in providers
  {
  }

  /** All barriers but the breaker and the amounts, and those passed too. */
  ghost predicate MayMove(db: Db, e: Tuple, successor: ProviderId, delay: int, planHash: Option<PlanHash>, now: int)
  {
    && IsUsable(db, e) && HasRows(db, e)
    && NothingBars(db, e, delay, planHash, now) && PlanAllows(db, e, successor)
    && ClockInOrder(db, e, now) && !Tripped(db, e, now)
    && successor in db.tasks[e.task].plan.ceilings
    && AmountToMove(db, e, None, successor) <= SAFE_INTEGER_MAX
    && WithinBudget(db, e.task, AmountToMove(db, e, None, successor))
  }

  /** The check found a state it refuses to go on from. */
  ghost predicate MoveRaises(db: Db, e: Tuple, successor: ProviderId, delay: int, planHash: Option<PlanHash>, now: int)
  {
    || IsOverflown(db, e)
    || (&& IsUsable(db, e) && HasRows(db, e)
        && NothingBars(db, e, delay, planHash, now) && PlanAllows(db, e, successor)
        && (|| !ClockInOrder(db, e, now)
            || (&& !Tripped(db, e, now) && successor in db.tasks[e.task].plan.ceilings
                && AmountToMove(db, e, None, successor) > SAFE_INTEGER_MAX)))
  }

  /** Why a usable tuple may not move on. */
  ghost predicate BarredFor(db: Db, e: Tuple, successor: ProviderId, delay: int, planHash: Option<PlanHash>, now: int, reason: Reason)
    requires IsUsable(db, e) && HasRows(db, e)
  {
    var task, a := db.tasks[e.task], Row(db, e);
    match reason
    case PlanMismatch => planHash.Some? && planHash.value != Sha256(task.plan)
    case AlreadyDispatched => (planHash.Some? ==> planHash.value == Sha256(task.plan)) && a.dispatched
    case DeadlineExpired =>
      (planHash.Some? ==> planHash.value == Sha256(task.plan)) && !a.dispatched && now + delay >= task.deadlineMs
    case LimitReached => NothingBars(db, e, delay, planHash, now) && task.transitionsUsed >= task.plan.transitionLimit
    case OrderInvalid =>
      && NothingBars(db, e, delay, planHash, now) && task.transitionsUsed < task.plan.transitionLimit
      && !ComesAfter(task.plan.providers, successor, a.provider)
    case CircuitIsOpen =>
      NothingBars(db, e, delay, planHash, now) && PlanAllows(db, e, successor) && ClockInOrder(db, e, now) && Tripped(db, e, now)
    case BudgetUnavailable =>
      && NothingBars(db, e, delay, planHash, now) && PlanAllows(db, e, successor)
      && ClockInOrder(db, e, now) && !Tripped(db, e, now)
      && successor in task.plan.ceilings && AmountToMove(db, e, None, successor) <= SAFE_INTEGER_MAX
      && !WithinBudget(db, e.task, AmountToMove(db, e, None, successor))
    case _ => false
  }

  lemma BreakerMeans(db: Db, e: Tuple, now: int)
    requires Inv(db) && IndexAgrees(db) && IsCurrent(db, e)
    ensures HasRows(db, e) && Row(db, e).provider in db.tasks[e.task].plan.providers
    ensures CircuitOpen(db, Row(db, e).provider, now, db.tasks[e.task].plan.providers)
         == if ClockInOrder(db, e, now) then Some(Tripped(db, e, now)) else None
  {
    CurrentIsActive(db, e);
    ActivePosition(db, e);
    PlanHashIsPlan(db, e);
    hide Inv, IndexAgrees, CircuitOpen, ClockFits, ThreeWithin, History;
    CommittedBreaker(db, now, Row(db, e).provider, db.tasks[e.task].plan.providers);
  }

  lemma AmountMeans(db: Db, e: Tuple, successor: ProviderId)
    requires Inv(db) && HasRows(db, e) && successor in db.tasks[e.task].plan.providers
    ensures successor in db.tasks[e.task].plan.ceilings
    ensures Replacement(db, e, successor) == AmountToMove(db, e, None, successor) >= 0
  {
    hide Inv, Reservation;
    LaterIsPriced(db, e, successor);
    LastReservation(db, e);
    AmountsAreNatural(db, e);
  }

  /** The row agrees with its plan, and the order, the breaker and the amount mean what
      they say. */
  ghost predicate Understood(db: Db, e: Tuple, successor: ProviderId, now: int)
  {
    && HasRows(db, e)
    && var a, task := Row(db, e), db.tasks[e.task];
    && task.planHash == Sha256(task.plan) && task.transitionLimit == task.plan.transitionLimit && task.budget == task.plan.budget
    && a.provider in task.plan.providers
    && (successor in task.plan.providers && IndexOf(task.plan.providers, a.provider) < IndexOf(task.plan.providers, successor)
        <==> ComesAfter(task.plan.providers, successor, a.provider))
    && CircuitOpen(db, a.provider, now, task.plan.providers) == (if ClockInOrder(db, e, now) then Some(Tripped(db, e, now)) else None)
    && (successor in task.plan.providers ==>
          successor in task.plan.ceilings && Replacement(db, e, successor) == AmountToMove(db, e, None, successor) >= 0)
  }

  lemma Understand(db: Db, e: Tuple, successor: ProviderId, now: int)
    requires Inv(db) && IndexAgrees(db) && IsCurrent(db, e)
    ensures Understood(db, e, successor, now)
  {
    BreakerMeans(db, e, now);
    hide Inv, IndexAgrees, CircuitOpen, ComesAfter, IndexOf, ClockInOrder, Tripped, Replacement, AmountToMove, IsCurrent;
    var a, task := Row(db, e), db.tasks[e.task];
    PlanHashIsPlan(db, e);
    OrderMeans(task.plan.providers, a.provider, successor);
    if successor in task.plan.providers { AmountMeans(db, e, successor); }
  }

  lemma PrecheckOfUsable(db: Db, e: Tuple, successor: ProviderId, delay: int, planHash: Option<PlanHash>, now: int)
    requires ActiveLookup(db, e).Found? && IsUsable(db, e) && Understood(db, e, successor, now)
    ensures var r := TransitionPrecheck(db, e, successor, delay, planHash, now);
            && (r.PreCorrupt? <==> MoveRaises(db, e, successor, delay, planHash, now))
            && (r.PreEligible? <==> MayMove(db, e, successor, delay, planHash, now))
            && (r.PreRefused? ==> BarredFor(db, e, successor, delay, planHash, now, r.reason))
            && !r.PreStale?
  {
    hide ActiveLookup, CircuitOpen, ComesAfter, IndexOf, ClockInOrder, Tripped, Replacement, AmountToMove, PlanChecks;
    if ComesAfter(db.tasks[e.task].plan.providers, successor, Row(db, e).provider) {
      LaterIsListed(db.tasks[e.task].plan.providers, successor, Row(db, e).provider);
    }
  }

  /** The precheck of both transitions, in the order of its barriers. */
  lemma PrecheckMeans(db: Db, e: Tuple, successor: ProviderId, delay: int, planHash: Option<PlanHash>, now: int)
    requires Inv(db) && IndexAgrees(db)
    ensures IsUsable(db, e) ==> HasRows(db, e)
    ensures var r := TransitionPrecheck(db, e, successor, delay, planHash, now);
            && (r.PreStale? <==> !IsCurrent(db, e))
            && (r.PreCorrupt? <==> MoveRaises(db, e, successor, delay, planHash, now))
            && (r.PreEligible? <==> MayMove(db, e, successor, delay, planHash, now))
            && (r.PreRefused? ==> IsUsable(db, e) && BarredFor(db, e, successor, delay, planHash, now, r.reason))
  {
    LookupMeans(db, e);
    hide Inv, IndexAgrees, ActiveLookup, Understood, BarredFor;
    if IsUsable(db, e) {
      Understand(db, e, successor, now);
      PrecheckOfUsable(db, e, successor, delay, planHash, now);
    }
    hide NothingBars, PlanAllows, ClockInOrder, Tripped, AmountToMove, CircuitOpen, Replacement;
  }

  /** No two reasons bar the same call. */
  lemma OneReason(db: Db, e: Tuple, successor: ProviderId, delay: int, planHash: Option<PlanHash>, now: int, a: Reason, b: Reason)
    requires IsUsable(db, e) && HasRows(db, e)
    requires BarredFor(db, e, successor, delay, planHash, now, a) && BarredFor(db, e, successor, delay, planHash, now, b)
    ensures a == b && !MayMove(db, e, successor, delay, planHash, now) && !MoveRaises(db, e, successor, delay, planHash, now)
  {
    hide ComesAfter, ClockInOrder, Tripped, AmountToMove;
  }

  // ---------- what a move leaves ----------

  /** The predecessor is closed with the failure, the successor stands behind its fence, the
      task and active_control moved on, and the log ends with the transition. */
  ghost predicate MovedTo(db: Db, db': Db, e: Tuple, id: AttemptId, provider: ProviderId, failure: Failure,
                          fence: int, recovered: bool, now: int)
    requires HasRows(db, e)
  {
    var a, task, next := Row(db, e), db.tasks[e.task], Tuple(e.task, id, e.epoch + 1);
    && provider in task.plan.ceilings
    && db'.attempts == db.attempts[SlotOf(e) := a.(state := Closed, failure := Some(failure), closedAt := Some(now))][
         SlotOf(next) := Attempt(id, provider, Active, false, false, task.plan.ceilings[provider], None, None, now, None, fence)]
    && db'.tasks == db.tasks[e.task := task.(transitionsUsed := task.transitionsUsed + 1,
                                             reserved := AmountToMove(db, e, None, provider))]
    && db'.control == db.control[e.task := Control(id, e.epoch + 1, ControlActive)]
    && db'.outbox == db.outbox + (if recovered then [Fact(e, RecoveredBeforeDispatch, now)] else [])
                     + [Fact(next, Transition(e, a.provider, provider, failure), now)]
  }

  lemma SucceedMovesTo(db: Db, e: Tuple, id: AttemptId, provider: ProviderId, failure: Failure, delay: int, recovered: bool, now: int)
    requires Inv(db) && HasRows(db, e) && provider in db.tasks[e.task].plan.providers
    ensures Applies(db, Succeed(e, id, provider, failure, delay, recovered, now))
    ensures MovedTo(db, Put(db, Succeed(e, id, provider, failure, delay, recovered, now)), e, id, provider, failure, now + delay, recovered, now)
  {
    AmountMeans(db, e, provider);
    hide Inv, Replacement, AmountToMove;
  }

  /** Remembering an answer changes nothing of it. */
  lemma MovedFrame(db: Db, db': Db, remembered: Db, e: Tuple, id: AttemptId, provider: ProviderId, failure: Failure,
                   fence: int, recovered: bool, now: int)
    requires HasRows(db, e) && MovedTo(db, db', e, id, provider, failure, fence, recovered, now)
    requires remembered == db'.(idem := remembered.idem)
    ensures MovedTo(db, remembered, e, id, provider, failure, fence, recovered, now)
  {
    hide AmountToMove;
  }

  // ---------- transition_once ----------

  /** The delay asked for; a bare legacy call with zero gets 250 ms. */
  function AskedDelay(ev: Event): int
    requires ev.Transitioning? || ev.Recovering?
  {
    var legacy := if ev.Transitioning? then ev.planHash.None? && ev.token.None? else ev.cause.None? && ev.asked.None?;
    if ev.jitter == 0 && legacy then 250 else ev.jitter
  }

  lemma TransitionMeans(db: Db, g: map<Tuple, int>, e: Tuple, successor: ProviderId, failure: Failure, jitter: int, delay: int,
                        planHash: Option<PlanHash>, key: Option<string>, id: AttemptId, now: int, mono: int)
    requires Inv(db) && IndexAgrees(db) && FailureOk(failure) && failure.kind == Retryable && TimeOk(now)
    requires 250 <= delay <= 750 && delay == (if jitter == 0 && planHash.None? && key.None? then 250 else jitter)
    requires key.Some? ==> Remembered(db, OpTransition, key.value).None?
    ensures IsUsable(db, e) ==> HasRows(db, e)
    ensures MayMove(db, e, successor, delay, planHash, now) ==> !MoveRaises(db, e, successor, delay, planHash, now)
    ensures var r := TransitionOnce(db, g, e, successor, failure, jitter, planHash, key, id, now, mono);
            if MayMove(db, e, successor, delay, planHash, now) then
              && r.reply == Transitioned(Tuple(e.task, id, e.epoch + 1), successor, db.tasks[e.task].plan.ceilings[successor],
                                         now + delay, None, None)
              && MovedTo(db, r.db, e, id, successor, failure, now + delay, false, now)
              && r.guards == g[Tuple(e.task, id, e.epoch + 1) := mono + delay * 1_000_000]
            else r.db == db && r.guards == g && r.reply == if MoveRaises(db, e, successor, delay, planHash, now) then Failed(CorruptLedger) else Nothing
  {
    hide Inv, IndexAgrees, TransitionPrecheck, FailureOk, Durable, MayMove, MoveRaises, MovedTo, BarredFor, ActiveLookup, IsUsable,
         IsCurrent, ApplyOnce;
    PrecheckMeans(db, e, successor, delay, planHash, now);
    if TransitionPrecheck(db, e, successor, delay, planHash, now).PreEligible? {
      MayMoveRows(db, e, successor, delay, planHash, now);
      ApplyMovesTo(db, g, e, successor, failure, delay, key, id, now, mono);
    }
  }

  lemma MayMoveRows(db: Db, e: Tuple, successor: ProviderId, delay: int, planHash: Option<PlanHash>, now: int)
    requires MayMove(db, e, successor, delay, planHash, now)
    ensures HasRows(db, e) && successor in db.tasks[e.task].plan.providers
    ensures successor in db.tasks[e.task].plan.ceilings
  {
    LaterIsListed(db.tasks[e.task].plan.providers, successor, Row(db, e).provider);
  }

  lemma ApplyMovesTo(db: Db, g: map<Tuple, int>, e: Tuple, successor: ProviderId, failure: Failure, delay: int,
                     key: Option<string>, id: AttemptId, now: int, mono: int)
    requires Inv(db) && HasRows(db, e) && successor in db.tasks[e.task].plan.providers && successor in db.tasks[e.task].plan.ceilings
    ensures var r := ApplyOnce(db, g, e, successor, failure, delay, key, id, now, mono);
            && r.reply == Transitioned(Tuple(e.task, id, e.epoch + 1), successor, db.tasks[e.task].plan.ceilings[successor],
                                       now + delay, None, None)
            && MovedTo(db, r.db, e, id, successor, failure, now + delay, false, now)
            && r.guards == g[Tuple(e.task, id, e.epoch + 1) := mono + delay * 1_000_000]
  {
    hide Inv, MovedTo, RememberIf, Put;
    SucceedMovesTo(db, e, id, successor, failure, delay, false, now);
    var db1 := Put(db, Succeed(e, id, successor, failure, delay, false, now));
    var reply := Transitioned(SuccessorOf(e, id), successor, db.tasks[e.task].plan.ceilings[successor], now + delay, None, None);
    RememberedFrame(db1, OpTransition, key, e, reply);
    MovedFrame(db, db1, RememberIf(db1, OpTransition, key, e, reply), e, id, successor, failure, now + delay, false, now);
  }

  /** A well-formed `transition_once` under no key or a new one moves on if and only if the
      tuple is usable, the plan hash agrees, nothing was dispatched, there is time and a
      transition left, the successor comes later in the plan, the breaker's rows fit the
      clock and have not tripped, and the amount is safe and within the budget. */
  lemma TransitionAnswers(s: State, ev: Event)
    requires Sound(s.db) && ev.Transitioning? && FailureOk(ev.failure) && ev.failure.kind == Retryable && TimeOk(ev.now)
    requires 250 <= AskedDelay(ev) <= 750
    requires ev.token.Some? ==> Remembered(s.db, OpTransition, ev.token.value).None?
    ensures IsUsable(s.db, ev.e) ==> HasRows(s.db, ev.e)
    ensures var r, db, e, delay := Step(s, ev), s.db, ev.e, AskedDelay(ev);
            && (r.reply.Transitioned? <==> MayMove(db, e, ev.successor, delay, ev.planHash, ev.now))
            && (r.reply == Failed(CorruptLedger) <==> MoveRaises(db, e, ev.successor, delay, ev.planHash, ev.now))
            && (r.reply.Transitioned? ==>
                  && HasRows(db, e) && ev.successor in db.tasks[e.task].plan.ceilings
                  && r.reply == Transitioned(Tuple(e.task, ev.id, e.epoch + 1), ev.successor, db.tasks[e.task].plan.ceilings[ev.successor],
                                             ev.now + delay, None, None)
                  && MovedTo(db, r.db, e, ev.id, ev.successor, ev.failure, ev.now + delay, false, ev.now)
                  && r.guards == s.guards[Tuple(e.task, ev.id, e.epoch + 1) := ev.mono + delay * 1_000_000])
            && (!r.reply.Transitioned? ==> r.db == db && r.guards == s.guards && (r.reply == Failed(CorruptLedger) || r.reply == Nothing))
  {
    hide Sound, Inv, TransitionOnce, MoveRaises, MovedTo, MayMove, FailureOk, IsUsable, HasRows, HasAttempt, IndexAgrees, Remembered;
    var db, e, delay := s.db, ev.e, AskedDelay(ev);
    SoundInv(db);
    if MayMove(db, e, ev.successor, delay, ev.planHash, ev.now) { MayMoveRows(db, e, ev.successor, delay, ev.planHash, ev.now); }
    TransitionMeans(db, s.guards, e, ev.successor, ev.failure, ev.jitter, delay, ev.planHash, ev.token, ev.id, ev.now, ev.mono);
  }

  // ---------- the fused transition ----------

  ghost predicate EvidencePasses(db: Db, e: Tuple, ev: Option<Evidence>)
    requires HasRows(db, e)
  {
    ev.Some? ==> EvidenceFits(db, e, ev.value)
  }

  /** The amount of the second check: the evidence is in the row by then. */
  function AmountAfterEvidence(db: Db, e: Tuple, ev: Option<Evidence>, successor: ProviderId): int
    requires HasRows(db, e) && successor in db.tasks[e.task].plan.ceilings
  {
    AmountToMove(db, e, if ev.Some? then HeldCost(db, e, ev) else None, successor)
  }

  /** A fused call refuses and writes nothing for this reason. */
  ghost predicate RefusedFor(db: Db, ev: Event, reason: Reason)
    requires ev.Fusing?
  {
    if reason == StaleTuple then !IsCurrent(db, ev.e)
    else
      && reason in {PlanMismatch, AlreadyDispatched, DeadlineExpired} && IsUsable(db, ev.e) && HasRows(db, ev.e)
      && BarredFor(db, ev.e, ev.successor, ev.jitter, Some(ev.hash), ev.now, reason)
  }

  /** A fused call keeps the observation but moves nothing for this reason. */
  ghost predicate KeptFor(db: Db, ev: Event, reason: Reason)
    requires ev.Fusing?
  {
    && IsUsable(db, ev.e) && HasRows(db, ev.e) && EvidencePasses(db, ev.e, ev.ev)
    && (|| (&& reason in {LimitReached, OrderInvalid, CircuitIsOpen, BudgetUnavailable}
            && BarredFor(db, ev.e, ev.successor, ev.jitter, Some(ev.hash), ev.now, reason))
        || (&& reason == BudgetUnavailable && MayMove(db, ev.e, ev.successor, ev.jitter, Some(ev.hash), ev.now)
            && AmountAfterEvidence(db, ev.e, ev.ev, ev.successor) <= SAFE_INTEGER_MAX
            && !WithinBudget(db, ev.e.task, AmountAfterEvidence(db, ev.e, ev.ev, ev.successor))))
  }

  /** A fused call moves on. */
  ghost predicate FusedMoves(db: Db, ev: Event)
    requires ev.Fusing?
  {
    && MayMove(db, ev.e, ev.successor, ev.jitter, Some(ev.hash), ev.now) && EvidencePasses(db, ev.e, ev.ev)
    && AmountAfterEvidence(db, ev.e, ev.ev, ev.successor) <= SAFE_INTEGER_MAX
    && WithinBudget(db, ev.e.task, AmountAfterEvidence(db, ev.e, ev.ev, ev.successor))
  }

  /** Once the first precheck passed, the amount alone decides the second. */
  lemma SecondVerdict(db: Db, ev: Event)
    requires ev.Fusing? && ev.ev.Some?
    requires TransitionPrecheck(db, ev.e, ev.successor, ev.jitter, Some(ev.hash), ev.now).PreEligible?
    requires ApplyEvidence(db, ev.e, ev.ev.value, ev.now, false).Some?
    ensures HasRows(db, ev.e) && ev.successor in db.tasks[ev.e.task].plan.ceilings
    ensures var db1 := ApplyEvidence(db, ev.e, ev.ev.value, ev.now, false).value;
            ev.e.task in db1.tasks && db1.tasks[ev.e.task].plan == db.tasks[ev.e.task].plan
    ensures var db1, amount := ApplyEvidence(db, ev.e, ev.ev.value, ev.now, false).value, AmountAfterEvidence(db, ev.e, ev.ev, ev.successor);
            TransitionPrecheck(db1, ev.e, ev.successor, ev.jitter, Some(ev.hash), ev.now)
              == if !Micro(amount) then PreCorrupt
                 else if db.tasks[ev.e.task].budget.Some? && amount > db.tasks[ev.e.task].budget.value then PreRefused(BudgetUnavailable)
                 else PreEligible
  {
    hide PlanChecks, CircuitOpen, CostsDisagree, CostCompatible, IndexOf, FactsOf, ActiveLookup, EvidenceFacts;
    var e := ev.e;
    SecondPrecheck(db, ev);
    FoundCeiling(db, e, ev.successor);
    EvidenceIsFiled(db, e, ev.ev.value, ev.now);
    hide ApplyEvidence;
  }

  /** Who may move, or meets a state that raises, is barred for no reason. */
  lemma NotBarred(db: Db, e: Tuple, successor: ProviderId, delay: int, planHash: Option<PlanHash>, now: int, reason: Reason)
    requires IsUsable(db, e) && HasRows(db, e)
    requires MayMove(db, e, successor, delay, planHash, now) || MoveRaises(db, e, successor, delay, planHash, now)
    ensures !BarredFor(db, e, successor, delay, planHash, now, reason)
  {
    hide ComesAfter, ClockInOrder, Tripped, AmountToMove;
  }

  lemma RefusedPrecheck(db: Db, g: map<Tuple, int>, ev: Event)
    requires Inv(db) && ev.Fusing? && EvidenceOk(ev.ev) && TimeOk(ev.now)
    requires IsUsable(db, ev.e) && HasRows(db, ev.e)
    requires TransitionPrecheck(db, ev.e, ev.successor, ev.jitter, Some(ev.hash), ev.now).PreRefused?
    requires BarredFor(db, ev.e, ev.successor, ev.jitter, Some(ev.hash), ev.now,
                       TransitionPrecheck(db, ev.e, ev.successor, ev.jitter, Some(ev.hash), ev.now).reason)
    ensures FreshAnswers(db, ev, FusedFresh(db, g, ev.e, ev.successor, ev.failure, ev.engine, ev.jitter, ev.hash, ev.obsKey, ev.key,
                                            ev.ev, ev.id, ev.now, ev.mono).reply)
  {
    hide Inv, TransitionPrecheck, ApplyEvidence, BarredFor, MayMove, MoveRaises, EvidenceFits, EvidenceOk, ObserveOnce, Remember, ActiveLookup,
         AmountAfterEvidence, IsUsable, FusedApply, HasRows, AmountToMove;
    var bar := TransitionPrecheck(db, ev.e, ev.successor, ev.jitter, Some(ev.hash), ev.now).reason;
    if ev.ev.Some? { EvidenceMeans(db, ev.e, ev.ev.value, ev.now, false); }
    forall reason ensures BarredFor(db, ev.e, ev.successor, ev.jitter, Some(ev.hash), ev.now, reason) ==> reason == bar {
      if BarredFor(db, ev.e, ev.successor, ev.jitter, Some(ev.hash), ev.now, reason) {
        OneReason(db, ev.e, ev.successor, ev.jitter, Some(ev.hash), ev.now, reason, bar);
      }
    }
    OneReason(db, ev.e, ev.successor, ev.jitter, Some(ev.hash), ev.now, bar, bar);
    BarsAreReasons(db, ev.e, ev.successor, ev.jitter, Some(ev.hash), ev.now, bar);
  }

  lemma BarsAreReasons(db: Db, e: Tuple, successor: ProviderId, delay: int, planHash: Option<PlanHash>, now: int, reason: Reason)
    requires IsUsable(db, e) && HasRows(db, e) && BarredFor(db, e, successor, delay, planHash, now, reason)
    ensures reason in {PlanMismatch, AlreadyDispatched, DeadlineExpired, LimitReached, OrderInvalid, CircuitIsOpen, BudgetUnavailable}
  {
  }

  /** The answer of a fused call under new keys, reason by reason. */
  ghost predicate FreshAnswers(db: Db, ev: Event, reply: Reply)
    requires ev.Fusing?
  {
    && (reply.Transitioned? <==> FusedMoves(db, ev))
    && (FusedMoves(db, ev) ==>
          reply == Transitioned(Tuple(ev.e.task, ev.id, ev.e.epoch + 1), ev.successor, db.tasks[ev.e.task].plan.ceilings[ev.successor],
                                ev.now + ev.jitter, Some(ev.obsKey), Some(ev.engine)))
    && (forall reason ::
          reply == ObservationRecorded(ev.e, ev.failure, Some(ev.engine), reason, Some(ev.obsKey)) <==> KeptFor(db, ev, reason))
    && (forall reason :: reply == Rejected(reason) <==> RefusedFor(db, ev, reason))
    && (reply.Transitioned? || reply.ObservationRecorded? || reply.Rejected? || reply == Failed(CorruptLedger))
  }

  lemma EligiblePrecheck(db: Db, g: map<Tuple, int>, ev: Event)
    requires Inv(db) && ev.Fusing? && EvidenceOk(ev.ev) && TimeOk(ev.now)
    requires IsUsable(db, ev.e) && HasRows(db, ev.e)
    requires TransitionPrecheck(db, ev.e, ev.successor, ev.jitter, Some(ev.hash), ev.now).PreEligible?
    requires MayMove(db, ev.e, ev.successor, ev.jitter, Some(ev.hash), ev.now)
    ensures FreshAnswers(db, ev, FusedFresh(db, g, ev.e, ev.successor, ev.failure, ev.engine, ev.jitter, ev.hash, ev.obsKey, ev.key,
                                            ev.ev, ev.id, ev.now, ev.mono).reply)
  {
    hide Inv, TransitionPrecheck, ApplyEvidence, BarredFor, MayMove, MoveRaises, EvidenceFits, EvidenceOk, ObserveOnce, Remember, ActiveLookup,
         AmountAfterEvidence, Put;
    MayMoveRows(db, ev.e, ev.successor, ev.jitter, Some(ev.hash), ev.now);
    AmountInReach(db, ev);
    PlanHashIsPlan(db, ev.e);
    if ev.ev.Some? {
      EvidenceMeans(db, ev.e, ev.ev.value, ev.now, false);
      if EvidenceFits(db, ev.e, ev.ev.value) { SecondVerdict(db, ev); }
    }
    forall reason ensures !BarredFor(db, ev.e, ev.successor, ev.jitter, Some(ev.hash), ev.now, reason) {
      NotBarred(db, ev.e, ev.successor, ev.jitter, Some(ev.hash), ev.now, reason);
    }
  }

  /** Amounts are never negative, and without evidence the first check's holds. */
  lemma AmountInReach(db: Db, ev: Event)
    requires Inv(db) && ev.Fusing? && EvidenceOk(ev.ev) && MayMove(db, ev.e, ev.successor, ev.jitter, Some(ev.hash), ev.now)
    ensures AmountAfterEvidence(db, ev.e, ev.ev, ev.successor) >= 0
    ensures ev.ev.None? ==> AmountAfterEvidence(db, ev.e, ev.ev, ev.successor) <= SAFE_INTEGER_MAX
                            && WithinBudget(db, ev.e.task, AmountAfterEvidence(db, ev.e, ev.ev, ev.successor))
  {
    MayMoveRows(db, ev.e, ev.successor, ev.jitter, Some(ev.hash), ev.now);
    AmountsAreNatural(db, ev.e);
    LaterIsPriced(db, ev.e, ev.successor);
    hide Inv, ClockInOrder, Tripped, NothingBars, PlanAllows;
  }

  lemma FreshMeans(db: Db, g: map<Tuple, int>, ev: Event)
    requires Inv(db) && IndexAgrees(db) && ev.Fusing? && EvidenceOk(ev.ev) && TimeOk(ev.now)
    ensures FreshAnswers(db, ev, FusedFresh(db, g, ev.e, ev.successor, ev.failure, ev.engine, ev.jitter, ev.hash, ev.obsKey, ev.key,
                                            ev.ev, ev.id, ev.now, ev.mono).reply)
  {
    hide Inv, IndexAgrees, TransitionPrecheck, ApplyEvidence, BarredFor, EvidenceOk, ObserveOnce, Remember, ActiveLookup, FreshAnswers, FusedFresh;
    PrecheckMeans(db, ev.e, ev.successor, ev.jitter, Some(ev.hash), ev.now);
    var pre := TransitionPrecheck(db, ev.e, ev.successor, ev.jitter, Some(ev.hash), ev.now);
    if pre.PreRefused? {
      RefusedPrecheck(db, g, ev);
    } else if pre.PreEligible? {
      EligiblePrecheck(db, g, ev);
    } else {
      StoppedPrecheck(db, g, ev);
    }
  }

  lemma StoppedPrecheck(db: Db, g: map<Tuple, int>, ev: Event)
    requires ev.Fusing?
    requires var pre := TransitionPrecheck(db, ev.e, ev.successor, ev.jitter, Some(ev.hash), ev.now);
             || (pre.PreStale? && !IsCurrent(db, ev.e))
             || (pre.PreCorrupt? && MoveRaises(db, ev.e, ev.successor, ev.jitter, Some(ev.hash), ev.now)
                 && !MayMove(db, ev.e, ev.successor, ev.jitter, Some(ev.hash), ev.now))
    ensures FreshAnswers(db, ev, FusedFresh(db, g, ev.e, ev.successor, ev.failure, ev.engine, ev.jitter, ev.hash, ev.obsKey, ev.key,
                                            ev.ev, ev.id, ev.now, ev.mono).reply)
  {
    hide TransitionPrecheck, BarredFor, NothingBars, PlanAllows, ClockInOrder, Tripped, AmountToMove, EvidencePasses;
    if IsUsable(db, ev.e) && HasRows(db, ev.e) {
      forall reason ensures !BarredFor(db, ev.e, ev.successor, ev.jitter, Some(ev.hash), ev.now, reason) {
        NotBarred(db, ev.e, ev.successor, ev.jitter, Some(ev.hash), ev.now, reason);
      }
    }
  }

  function FusedGuards(g: map<Tuple, int>, ev: Event): map<Tuple, int>
    requires ev.Fusing?
  {
    g[Tuple(ev.e.task, ev.id, ev.e.epoch + 1) := ev.mono + ev.jitter * 1_000_000]
  }

  /** Only a fused call that moves on sets a guard, the successor's. */
  lemma FreshGuards(db: Db, g: map<Tuple, int>, ev: Event, r: Result)
    requires ev.Fusing?
    requires r == FusedFresh(db, g, ev.e, ev.successor, ev.failure, ev.engine, ev.jitter, ev.hash, ev.obsKey, ev.key, ev.ev, ev.id, ev.now, ev.mono)
    ensures r.guards == if r.reply.Transitioned? then FusedGuards(g, ev) else g
  {
    hide TransitionPrecheck, ApplyEvidence, ObserveOnce, Remember, Put, ActiveLookup, HasRows, Soft;
  }

  /** A well-formed fused call under new keys answers by the first barrier it meets: it is
      refused without a trace, keeps its observation, or moves on; anything else raises. */
  lemma FusedAnswers(s: State, ev: Event)
    requires Sound(s.db) && ev.Fusing? && FusedArgsOk(ev) && TimeOk(ev.now) && Remembered(s.db, OpTransition, ev.key).None?
    requires Remembered(s.db, OpObservation, ev.obsKey).Some? ==> ObservationBound(s.db, ev.obsKey, ev.e, ev.failure, ev.engine)
    ensures FreshAnswers(s.db, ev, Step(s, ev).reply)
    ensures Step(s, ev).reply.Transitioned? ==> FusedCommitted(s.db, Step(s, ev).db, ev, Step(s, ev).reply)
    ensures Step(s, ev).reply.ObservationRecorded? ==> ObservationKept(s.db, Step(s, ev).db, ev, Step(s, ev).reply)
    ensures Step(s, ev).reply.Rejected? || Step(s, ev).reply.Failed? ==> Step(s, ev).db == s.db
    ensures Step(s, ev).guards == if Step(s, ev).reply.Transitioned? then FusedGuards(s.guards, ev) else s.guards
  {
    hide Sound, Inv, FusedFresh, FreshAnswers, FusedCommitted, ObservationKept, ObservationBound, FailureOk, Durable;
    SoundInv(s.db);
    FreshMeans(s.db, s.guards, ev);
    FreshGuards(s.db, s.guards, ev, Step(s, ev));
    if Step(s, ev).reply.Transitioned? { FusedTransitionCommitsAll(s, ev); }
    if Step(s, ev).reply.ObservationRecorded? { FusedRefusalKeepsObservation(s, ev); }
    if Step(s, ev).reply.Rejected? || Step(s, ev).reply.Failed? { FusedRejectionWritesNothing(s, ev); }
  }

  // ---------- recovery ----------

  /** Recovery goes to the provider asked for if that comes later, and to the next one in
      the plan if none was named. */
  predicate GoesTo(providers: seq<ProviderId>, current: ProviderId, asked: Option<ProviderId>, target: ProviderId)
  {
    if asked.Some? && asked.value != "" then target == asked.value && ComesAfter(providers, target, current)
    else ComesNext(providers, target, current)
  }

  lemma TargetMeans(providers: seq<ProviderId>, current: ProviderId, asked: Option<ProviderId>, target: ProviderId)
    requires forall a, b | 0 <= a < b < |providers| :: providers[a] != providers[b]
    requires current in providers
    ensures GoesTo(providers, current, asked, target) <==> RecoveryTarget(providers, current, asked) == Some(target)
    ensures GoesTo(providers, current, asked, target) ==> target in providers
  {
    var i := IndexOf(providers, current);
    if asked.Some? && asked.value != "" { OrderMeans(providers, current, asked.value); }
    if ComesNext(providers, target, current) {
      var k :| 0 <= k < |providers| - 1 && providers[k] == current && providers[k + 1] == target;
      IndexOfMember(providers, k);
    }
    if i + 1 < |providers| { IndexOfMember(providers, i + 1); }
  }

  /** A usable tuple that dispatched nothing, with time and a transition left. */
  predicate MayRecover(db: Db, e: Tuple, delay: int, now: int)
  {
    && IsUsable(db, e) && HasRows(db, e) && !Row(db, e).dispatched && now + delay < db.tasks[e.task].deadlineMs
    && db.tasks[e.task].transitionsUsed < db.tasks[e.task].plan.transitionLimit
  }

  ghost predicate HasTarget(db: Db, e: Tuple, asked: Option<ProviderId>)
    requires HasRows(db, e)
  {
    exists target :: GoesTo(db.tasks[e.task].plan.providers, Row(db, e).provider, asked, target)
  }

  /** Recovery moves the task on to `target`: no range check on the amount. */
  ghost predicate RecoversTo(db: Db, e: Tuple, delay: int, asked: Option<ProviderId>, now: int, target: ProviderId)
  {
    && MayRecover(db, e, delay, now) && GoesTo(db.tasks[e.task].plan.providers, Row(db, e).provider, asked, target)
    && ClockInOrder(db, e, now) && !Tripped(db, e, now)
    && target in db.tasks[e.task].plan.ceilings && WithinBudget(db, e.task, AmountToMove(db, e, None, target))
  }

  /** All but the budget lets recovery move on to `target`. */
  ghost predicate RecoveryTooDear(db: Db, e: Tuple, delay: int, asked: Option<ProviderId>, now: int, target: ProviderId)
  {
    && MayRecover(db, e, delay, now) && GoesTo(db.tasks[e.task].plan.providers, Row(db, e).provider, asked, target)
    && ClockInOrder(db, e, now) && !Tripped(db, e, now)
    && target in db.tasks[e.task].plan.ceilings && !WithinBudget(db, e.task, AmountToMove(db, e, None, target))
  }

  ghost predicate RecoveryBarred(db: Db, e: Tuple, delay: int, asked: Option<ProviderId>, now: int)
  {
    && IsUsable(db, e) && HasRows(db, e) && !Row(db, e).dispatched && now < db.tasks[e.task].deadlineMs
    && (|| !MayRecover(db, e, delay, now) || !HasTarget(db, e, asked)
        || (ClockInOrder(db, e, now) && Tripped(db, e, now)))
  }

  ghost predicate RecoveryRaises(db: Db, e: Tuple, delay: int, asked: Option<ProviderId>, now: int)
  {
    || IsOverflown(db, e)
    || (MayRecover(db, e, delay, now) && HasTarget(db, e, asked) && !ClockInOrder(db, e, now))
  }

  /** What the forward half of a recovery answers. */
  ghost predicate ForwardAnswers(db: Db, reply: Reply, e: Tuple, delay: int, asked: Option<ProviderId>, id: AttemptId, now: int)
    requires HasRows(db, e)
  {
    && (reply.Recovered? ==>
          && RecoversTo(db, e, delay, asked, now, reply.provider)
          && reply == Recovered(Tuple(e.task, id, e.epoch + 1), reply.provider, now + delay))
    && ((exists target :: RecoversTo(db, e, delay, asked, now, target)) ==> reply.Recovered?)
    && (reply == Rejected(RecoveryBarrier) <==> RecoveryBarred(db, e, delay, asked, now))
    && (reply == Failed(CorruptLedger) <==> RecoveryRaises(db, e, delay, asked, now))
    && (reply == Rejected(BudgetUnavailable) <==> exists target :: RecoveryTooDear(db, e, delay, asked, now, target))
    && (reply.Recovered? || reply == Rejected(RecoveryBarrier) || reply == Rejected(BudgetUnavailable) || reply == Failed(CorruptLedger))
  }

  /** The plan's order, the breaker and the amount mean what they say to a recovery. */
  ghost predicate RecoveryUnderstood(db: Db, e: Tuple, asked: Option<ProviderId>, now: int)
  {
    && HasRows(db, e)
    && var a, task := Row(db, e), db.tasks[e.task];
    && task.transitionLimit == task.plan.transitionLimit && task.budget == task.plan.budget
    && a.provider in task.plan.providers
    && CircuitOpen(db, a.provider, now, task.plan.providers) == (if ClockInOrder(db, e, now) then Some(Tripped(db, e, now)) else None)
    && (forall target :: GoesTo(task.plan.providers, a.provider, asked, target)
                         <==> RecoveryTarget(task.plan.providers, a.provider, asked) == Some(target))
    && var t := RecoveryTarget(task.plan.providers, a.provider, asked);
    && (t.Some? ==> t.value in task.plan.ceilings && Replacement(db, e, t.value) == AmountToMove(db, e, None, t.value))
  }

  lemma UnderstandRecovery(db: Db, e: Tuple, asked: Option<ProviderId>, now: int)
    requires Inv(db) && IndexAgrees(db) && IsCurrent(db, e)
    ensures RecoveryUnderstood(db, e, asked, now)
  {
    hide Inv, IndexAgrees, CircuitOpen, RecoveryTarget, GoesTo, ClockInOrder, Tripped, Replacement, AmountToMove, IsCurrent, ValidPlan;
    BreakerMeans(db, e, now);
    PlanHashIsPlan(db, e);
    PlanIsDistinct(db, e);
    var providers, current := db.tasks[e.task].plan.providers, Row(db, e).provider;
    forall target ensures GoesTo(providers, current, asked, target) <==> RecoveryTarget(providers, current, asked) == Some(target) {
      TargetMeans(providers, current, asked, target);
    }
    var t := RecoveryTarget(providers, current, asked);
    if t.Some? {
      TargetMeans(providers, current, asked, t.value);
      AmountMeans(db, e, t.value);
    }
  }

  lemma ForwardMeans(db: Db, g: map<Tuple, int>, e: Tuple, key: string, delay: int, f: Failure, asked: Option<ProviderId>,
                     id: AttemptId, now: int, mono: int)
    requires ActiveLookup(db, e).Found? && IsUsable(db, e) && RecoveryUnderstood(db, e, asked, now)
    requires !Row(db, e).dispatched && now < db.tasks[e.task].deadlineMs
    ensures ForwardAnswers(db, RecoverForward(db, g, e, key, delay, f, asked, id, now, mono).reply, e, delay, asked, id, now)
  {
    hide CircuitOpen, ActiveLookup, PlanChecks, RecoveryTarget, GoesTo, ClockInOrder, Tripped, Replacement, AmountToMove, IsCurrent, Put, Remember;
    var t := RecoveryTarget(db.tasks[e.task].plan.providers, Row(db, e).provider, asked);
    if t.Some? {
      assert GoesTo(db.tasks[e.task].plan.providers, Row(db, e).provider, asked, t.value);
      if RecoverForward(db, g, e, key, delay, f, asked, id, now, mono).reply == Rejected(BudgetUnavailable) {
        assert RecoveryTooDear(db, e, delay, asked, now, t.value);
      }
    }
  }

  /** What a recovery that moves on leaves. */
  lemma ForwardMoves(db: Db, g: map<Tuple, int>, e: Tuple, key: string, delay: int, f: Failure, asked: Option<ProviderId>,
                     id: AttemptId, now: int, mono: int)
    requires Inv(db) && ActiveLookup(db, e).Found?
    ensures var r := RecoverForward(db, g, e, key, delay, f, asked, id, now, mono);
            if r.reply.Recovered? then
              && MovedTo(db, r.db, e, id, r.reply.provider, f, now + delay, true, now)
              && r.guards == g[Tuple(e.task, id, e.epoch + 1) := mono + delay * 1_000_000]
            else r.db == db && r.guards == g
  {
    hide Inv, CircuitOpen, ActiveLookup, PlanChecks, IndexOf, Replacement, MovedTo, Remember, Put;
    var r := RecoverForward(db, g, e, key, delay, f, asked, id, now, mono);
    if r.reply.Recovered? {
      var target := r.reply.provider;
      SucceedMovesTo(db, e, id, target, f, delay, true, now);
      var db1 := Put(db, Succeed(e, id, target, f, delay, true, now));
      RememberedFrame(db1, OpRecovery, Some(key), e, r.reply);
      MovedFrame(db, db1, r.db, e, id, target, f, now + delay, true, now);
    }
  }

  lemma RecoveryMeans(db: Db, g: map<Tuple, int>, e: Tuple, key: string, jitter: int, delay: int, cause: Option<Failure>, f: Failure,
                      asked: Option<ProviderId>, id: AttemptId, now: int, mono: int)
    requires Inv(db) && IndexAgrees(db) && FailureOk(f) && f.kind == Retryable && TimeOk(now)
    requires f == (if cause.Some? then cause.value else Failure(Retryable, PreDispatchTimeout, true))
    requires 250 <= delay <= 750 && delay == (if jitter == 0 && cause.None? && asked.None? then 250 else jitter)
    requires Remembered(db, OpRecovery, key).None?
    ensures IsCurrent(db, e) ==> HasRows(db, e)
    ensures var r := RecoverAndTransition(db, g, e, key, jitter, cause, asked, id, now, mono);
            if !IsCurrent(db, e) then r == Answer(db, g, Rejected(StaleTuple))
            else if IsOverflown(db, e) then r == Raise(db, g, CorruptLedger)
            else if Row(db, e).dispatched || now >= db.tasks[e.task].deadlineMs then
              && r.reply == RecoveredTerminal(e) && r.guards == g
              && EndedAs(db, r.db, e, DoneUncertain, None, Row(db, e).cost, [], Row(db, e).cost, None, now)
            else
              && ForwardAnswers(db, r.reply, e, delay, asked, id, now)
              && (if r.reply.Recovered? then
                    && MovedTo(db, r.db, e, id, r.reply.provider, f, now + delay, true, now)
                    && r.guards == g[Tuple(e.task, id, e.epoch + 1) := mono + delay * 1_000_000]
                  else r.db == db && r.guards == g)
  {
    hide Inv, IndexAgrees, ActiveLookup, PlanChecks, RecoverForward, RecoverUncertain, ForwardAnswers, MovedTo, EndedAs, Durable, FailureOk,
         RecoveryUnderstood, Live, HasRows, IsCurrent, EndedState;
    LookupMeans(db, e);
    if IsUsable(db, e) {
      if Row(db, e).dispatched || now >= db.tasks[e.task].deadlineMs {
        UncertainEnds(db, g, e, key, now);
      } else {
        UnderstandRecovery(db, e, asked, now);
        ForwardMeans(db, g, e, key, delay, f, asked, id, now, mono);
        ForwardMoves(db, g, e, key, delay, f, asked, id, now, mono);
      }
    }
  }

  /** The recorded answers of a well-formed recovery under a new identifier, one by one. */
  ghost predicate RecoveryReplies(db: Db, reply: Reply, e: Tuple, delay: int, asked: Option<ProviderId>, id: AttemptId, now: int)
  {
    && (reply == Rejected(StaleTuple) <==> !IsCurrent(db, e))
    && (reply.RecoveredTerminal? <==> IsUsable(db, e) && HasRows(db, e) && (Row(db, e).dispatched || now >= db.tasks[e.task].deadlineMs))
    && (reply.Recovered? <==> exists target :: RecoversTo(db, e, delay, asked, now, target))
    && (reply.Recovered? ==>
          && RecoversTo(db, e, delay, asked, now, reply.provider)
          && reply == Recovered(Tuple(e.task, id, e.epoch + 1), reply.provider, now + delay))
    && (reply == Rejected(RecoveryBarrier) <==> RecoveryBarred(db, e, delay, asked, now))
    && (reply == Rejected(BudgetUnavailable) <==> exists target :: RecoveryTooDear(db, e, delay, asked, now, target))
    && (reply == Failed(CorruptLedger) <==> RecoveryRaises(db, e, delay, asked, now))
  }

  /** Each way a recovery goes gives its answers. */
  lemma RepliesByCase(db: Db, reply: Reply, e: Tuple, delay: int, asked: Option<ProviderId>, id: AttemptId, now: int)
    requires delay > 0 && (IsCurrent(db, e) ==> HasRows(db, e))
    requires if !IsCurrent(db, e) then reply == Rejected(StaleTuple)
             else if IsOverflown(db, e) then reply == Failed(CorruptLedger)
             else if Row(db, e).dispatched || now >= db.tasks[e.task].deadlineMs then reply == RecoveredTerminal(e)
             else ForwardAnswers(db, reply, e, delay, asked, id, now)
    ensures RecoveryReplies(db, reply, e, delay, asked, id, now)
  {
    hide GoesTo, HasTarget, ClockInOrder, Tripped, WithinBudget, AmountToMove, IsCurrent;
  }

  /** A well-formed recovery under a new identifier.  It is stale if the tuple is not the
      last attempt of a running task; it ends the attempt as uncertain if it dispatched or
      is out of time; it moves on if time and a transition are left, the breaker is closed
      and the target is within the budget.  The target is the provider asked for, if that
      comes later in the plan, and otherwise the very next one. */
  lemma RecoveryAnswers(s: State, ev: Event)
    requires Sound(s.db) && ev.Recovering? && TimeOk(ev.now) && Remembered(s.db, OpRecovery, ev.key).None?
    requires ev.cause.Some? ==> FailureOk(ev.cause.value) && ev.cause.value.kind == Retryable
    requires 250 <= AskedDelay(ev) <= 750
    ensures var r, db, e, delay := Step(s, ev), s.db, ev.e, AskedDelay(ev);
            var f := if ev.cause.Some? then ev.cause.value else Failure(Retryable, PreDispatchTimeout, true);
            && RecoveryReplies(db, r.reply, e, delay, ev.asked, ev.id, ev.now)
            && (r.reply.Recovered? ==>
                  && HasRows(db, e) && MovedTo(db, r.db, e, ev.id, r.reply.provider, f, ev.now + delay, true, ev.now)
                  && r.guards == s.guards[Tuple(e.task, ev.id, e.epoch + 1) := ev.mono + delay * 1_000_000])
            && (r.reply.RecoveredTerminal? ==>
                  && HasRows(db, e) && r.reply == RecoveredTerminal(e) && r.guards == s.guards
                  && EndedAs(db, r.db, e, DoneUncertain, None, Row(db, e).cost, [], Row(db, e).cost, None, ev.now))
            && (!r.reply.Recovered? && !r.reply.RecoveredTerminal? ==> r.db == db && r.guards == s.guards)
  {
    hide Sound, Inv, RecoverAndTransition, MovedTo, EndedAs, FailureOk, IndexAgrees, Remembered, RecoveryReplies, IsUsable, IsCurrent;
    var db, e, delay := s.db, ev.e, AskedDelay(ev);
    var f := if ev.cause.Some? then ev.cause.value else Failure(Retryable, PreDispatchTimeout, true);
    SoundInv(db);
    DefaultCauseOk();
    RecoveryMeans(db, s.guards, e, ev.key, ev.jitter, delay, ev.cause, f, ev.asked, ev.id, ev.now, ev.mono);
    RepliesByCase(db, Step(s, ev).reply, e, delay, ev.asked, ev.id, ev.now);
    hide ForwardAnswers;
  }

  lemma DefaultCauseOk()
    ensures FailureOk(Failure(Retryable, PreDispatchTimeout, true))
  {
  }

  lemma PlanIsDistinct(db: Db, e: Tuple)
    requires Inv(db) && HasRows(db, e)
    ensures var ps := db.tasks[e.task].plan.providers; forall a, b | 0 <= a < b < |ps| :: ps[a] != ps[b]
  {
    hide Inv;
    PlanHashIsPlan(db, e);
  }
}
