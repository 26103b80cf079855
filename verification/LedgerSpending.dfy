/** Exactly when a task reserves more than its budget, and which calls take it there. */
module LedgerSpending {
  import opened Wrappers
  import opened Payload
  import opened LedgerTables
  import opened LedgerChecks
  import opened LedgerWrites
  import opened LedgerInvariant
  import opened LedgerFold
  import opened LedgerCircuit
  import opened SubmitFence
  import opened LedgerOps
  import opened LedgerChains
  import opened LedgerBudget
  import opened LedgerHistory
  import opened LedgerRuns
  import opened LedgerReplay
  import opened LedgerFused
  import opened LedgerKeys

  predicate OverBudget(db: Db, t: TaskId)
  {
    t in db.tasks && db.tasks[t].budget.Some? && db.tasks[t].reserved > db.tasks[t].budget.value
  }

  /** The cost is more than the budget leaves for attempt e, once the amounts reserved
      for the task's other attempts are taken off. */
  predicate Exceeds(db: Db, e: Tuple, cost: Option<int>)
    requires HasRows(db, e)
  {
    var task := db.tasks[e.task];
    task.budget.Some? && cost.Some? && cost.value > task.budget.value - (task.reserved - Row(db, e).reserved)
  }

  // ---------- the exact condition ----------

  /** The reservation exceeds the budget exactly when the last attempt's reported cost is
      more than the budget less what the earlier attempts reserve. */
  lemma OverBudgetIff(db: Db, t: TaskId)
    requires Inv(db) && BudgetOk(db, t) && t in db.tasks && db.tasks[t].status != RejectedTask && db.tasks[t].budget.Some?
    ensures HasRows(db, Controlled(db, t))
    ensures db.tasks[t].reserved - Row(db, Controlled(db, t)).reserved == Sum(db.attempts, t, db.tasks[t].transitionsUsed)
    ensures var a := Row(db, Controlled(db, t));
            OverBudget(db, t) <==>
              a.cost.Some? && a.cost.value > db.tasks[t].budget.value - Sum(db.attempts, t, db.tasks[t].transitionsUsed)
  {
    hide Inv, TaskRowOk, LastOk, FactsOf, Sum;
    SlotsOf(db, t);
    var e := Controlled(db, t);
    RowSlots(db, e);
    LastReservation(db, e);
    SumStep(db.attempts, t, e.epoch);
  }

  lemma OverBudgetAtRow(db: Db, e: Tuple)
    requires Inv(db) && BudgetOk(db, e.task) && HasRows(db, e)
    ensures OverBudget(db, e.task) <==> Exceeds(db, e, Row(db, e).cost)
  {
    hide Inv, BudgetOk, Sum, FactsOf, LastOk, TaskRowOk;
    LastRow(db, e);
    if db.tasks[e.task].budget.Some? { OverBudgetIff(db, e.task); }
  }

  /** A rejected task reserves nothing. */
  lemma TombstoneFits(db: Db, t: TaskId)
    requires Inv(db) && t in db.tasks && db.tasks[t].status == RejectedTask
    ensures !OverBudget(db, t)
  {
    hide FactsOk, RowsBelong;
    assert TaskOk(db, t);
  }

  /** In every reachable state: a task with a budget reserves more than it exactly when
      its last attempt reported a cost beyond what its earlier attempts left. */
  lemma BudgetExceededIff(evs: seq<Event>, t: TaskId)
    ensures var db := After(START, evs).db;
            t in db.tasks && db.tasks[t].budget.Some? ==>
              if db.tasks[t].status == RejectedTask then db.tasks[t].reserved <= db.tasks[t].budget.value
              else
                && HasRows(db, Controlled(db, t))
                && var a, left := Row(db, Controlled(db, t)), db.tasks[t].budget.value - Sum(db.attempts, t, db.tasks[t].transitionsUsed);
                db.tasks[t].reserved <= db.tasks[t].budget.value <==> a.cost.None? || a.cost.value <= left
  {
    hide Inv, IndexAgrees, FencesOk, SubmitFencesOk, RepliesTruthful, BudgetOk, RangeOk, Sum, After;
    var db := After(START, evs).db;
    ReachableIsSound(evs);
    if t in db.tasks && db.tasks[t].budget.Some? {
      if db.tasks[t].status == RejectedTask {
        TombstoneFits(db, t);
      } else {
        assert BudgetOk(db, t);
        OverBudgetIff(db, t);
      }
    }
  }

  // ---------- the calls that set a cost ----------

  /** From db to db' attempt e's cost column became `cost`, and no other reservation moved. */
  ghost predicate Settles(db: Db, db': Db, e: Tuple, cost: Option<int>)
  {
    && HasRows(db, e) && HasRows(db', e) && Row(db', e).cost == cost
    && db'.tasks[e.task].budget == db.tasks[e.task].budget
    && db'.tasks[e.task].reserved - Row(db', e).reserved == db.tasks[e.task].reserved - Row(db, e).reserved
    && (forall t | t != e.task :: t in db'.tasks <==> t in db.tasks)
    && (forall t | t != e.task && t in db.tasks :: db'.tasks[t] == db.tasks[t])
  }

  lemma SettledIff(db: Db, db': Db, e: Tuple, cost: Option<int>, t: TaskId)
    requires Sound(db') && Settles(db, db', e, cost)
    ensures OverBudget(db', t) <==> if t == e.task then Exceeds(db, e, cost) else OverBudget(db, t)
  {
    hide Inv, IndexAgrees, FencesOk, SubmitFencesOk, RepliesTruthful, BudgetOk, RangeOk;
    if t == e.task { OverBudgetAtRow(db', e); }
  }

  /** The call answered that it committed a cost column. */
  ghost predicate SetsCost(s: State, ev: Event)
  {
    var r := Step(s, ev);
    match ev
    case Costing(_, _, _, _) => r.reply.CostKept?
    case Completing(_, _, _, _, _) => r.reply.ClosedTerminal?
    case Polling(_, _, _, _, _, _, _) => r.reply.TerminalCommitted? && r.db != s.db   // not a repeated poll
    case Closing(_, _, _, _, _, _, _, _) => r.reply.ClosedTerminal?
    case Fusing(_, _, _, _, _, _, _, _, _, _, _, _) => FusedAnswer(r.reply)
    case _ => false
  }

  /** The cost the call is about to put into the row, read off before the call. */
  function CostToSet(db: Db, ev: Event): Option<int>
    requires ev.Costing? || ev.Completing? || ev.Polling? || ev.Closing? || ev.Fusing?
    requires HasRows(db, ev.e)
  {
    match ev
    case Costing(_, actual, _, _) => actual
    case Completing(e, _, actual, _, _) => if actual.Some? then actual else Row(db, e).cost
    case Polling(e, _, actual, _, _, _, _) =>
      if actual.Some? && FactsOf(db.outbox, e).costs == [] then actual else Row(db, e).cost
    case Closing(e, _, _, _, _, _, evidence, _) => HeldCost(db, e, evidence)
    case Fusing(e, _, _, _, _, _, _, _, evidence, _, _, _) => HeldCost(db, e, evidence)
  }

  lemma RecordCostSettles(db: Db, g: map<Tuple, int>, e: Tuple, actual: Option<int>, source: Option<CostSource>, now: int)
    ensures var r := RecordCost(db, g, e, actual, source, now);
            if r.reply.CostKept? then HasRows(db, e) && Settles(db, r.db, e, actual) else r.db == db
  {
    hide PlanChecks, CostPayloadOk;
  }

  lemma CompleteSettles(db: Db, g: map<Tuple, int>, e: Tuple, outcome: Outcome, actual: Option<int>,
                        source: Option<CostSource>, now: int)
    ensures var r := Complete(db, g, e, outcome, actual, source, now);
            if r.reply.ClosedTerminal? then HasRows(db, e) && Settles(db, r.db, e, if actual.Some? then actual else Row(db, e).cost)
            else r.db == db
  {
    hide PlanChecks, LatestCostSource;
  }

  lemma CloseOutSettles(db: Db, e: Tuple, outcome: Outcome, failure: Option<Failure>, failureSource: Option<FailureSource>,
                        reported: Option<int>, source: Option<CostSource>, now: int)
    requires HasRows(db, e) && CloseOut(db, e, outcome, failure, failureSource, reported, source, now).Worked?
    requires Reservation(Row(db, e), Row(db, e).cost) == Row(db, e).reserved
    ensures Settles(db, CloseOut(db, e, outcome, failure, failureSource, reported, source, now).after, e, Row(db, e).cost)
  {
    hide LatestCostSource, CostPayloadOk;
  }

  lemma SettlesAgain(a: Db, b: Db, c: Db, e: Tuple, cost: Option<int>, final: Option<int>)
    requires Settles(a, b, e, cost) && Settles(b, c, e, final)
    ensures Settles(a, c, e, final)
  {
  }

  lemma PollCostSettles(db: Db, e: Tuple, final: Option<int>, source: Option<CostSource>, now: int)
    requires HasRows(db, e) && PollCost(db, e, final, source, now).Some?
    requires Reservation(Row(db, e), Row(db, e).cost) == Row(db, e).reserved
    ensures var db1 := PollCost(db, e, final, source, now).value;
            && Settles(db, db1, e, if FactsOf(db.outbox, e).costs == [] then final else Row(db, e).cost)
            && Reservation(Row(db1, e), Row(db1, e).cost) == Row(db1, e).reserved
  {
    hide FactsOf, CostPayloadOk, LatestCostSource;
  }

  /** A terminal poll changes nothing, or closes the attempt at its own cost if no cost
      fact was there, and at the row's otherwise. */
  lemma PollSettles(db: Db, g: map<Tuple, int>, e: Tuple, outcome: Outcome, actual: Option<int>, source: Option<CostSource>,
                    failure: Option<Failure>, failureSource: Option<FailureSource>, now: int)
    requires Inv(db)
    ensures var r := CompleteFromPoll(db, g, e, outcome, actual, source, failure, failureSource, now);
            || r.db == db
            || (r.reply.TerminalCommitted? && HasRows(db, e)
                && Settles(db, r.db, e, if actual.Some? && FactsOf(db.outbox, e).costs == [] then actual else Row(db, e).cost))
  {
    hide Inv, FailureOk, LatestOutcome, CloseOut, PollCost, FactsOf, Settles;
    var r := CompleteFromPoll(db, g, e, outcome, actual, source, failure, failureSource, now);
    if r.db != db {
      var cost := if actual.Some? && FactsOf(db.outbox, e).costs == [] then actual else Row(db, e).cost;
      var final := if actual.Some? then actual else Row(db, e).cost;
      LastReservation(db, e);
      PollCostSettles(db, e, final, source, now);
      var db1 := PollCost(db, e, final, source, now).value;
      CloseOutSettles(db1, e, outcome, failure, failureSource, final, source, now);
      RowOfSettled(db, db1, e, cost);
      SettlesAgain(db, db1, r.db, e, cost, Row(db1, e).cost);
    }
  }

  lemma RowOfSettled(db: Db, db': Db, e: Tuple, cost: Option<int>)
    requires Settles(db, db', e, cost)
    ensures HasRows(db', e) && Row(db', e).cost == cost
  {
  }

  lemma EvidenceSettles(db: Db, e: Tuple, ev: Evidence, now: int)
    requires HasRows(db, e) && ApplyEvidence(db, e, ev, now, true).Some?
    requires Reservation(Row(db, e), Row(db, e).cost) == Row(db, e).reserved
    ensures var db1 := ApplyEvidence(db, e, ev, now, true).value;
            && Settles(db, db1, e, HeldCost(db, e, Some(ev)))
            && Reservation(Row(db1, e), Row(db1, e).cost) == Row(db1, e).reserved
  {
    hide PlanChecks, CostsDisagree, CostCompatible, FactsOf;
  }

  lemma OpenCloseSettles(db: Db, g: map<Tuple, int>, e: Tuple, outcome: Outcome, source: Option<CostSource>,
                         failure: Option<Failure>, failureSource: Option<FailureSource>, key: Option<string>,
                         ev: Option<Evidence>, now: int)
    requires HasRows(db, e) && Reservation(Row(db, e), Row(db, e).cost) == Row(db, e).reserved
    ensures var r := CloseOpen(db, g, e, outcome, source, failure, failureSource, key, ev, now);
            if r.reply.ClosedTerminal? then Settles(db, r.db, e, HeldCost(db, e, ev)) else r.db == db
  {
    hide ApplyEvidence, CloseOut, Settles, HeldCost, Reservation;
    var r := CloseOpen(db, g, e, outcome, source, failure, failureSource, key, ev, now);
    if r.reply.ClosedTerminal? {
      if ev.Some? { EvidenceSettles(db, e, ev.value, now); } else { NothingSettles(db, e); }
      var db1 := if ev.Some? then ApplyEvidence(db, e, ev.value, now, true).value else db;
      RowOfSettled(db, db1, e, HeldCost(db, e, ev));
      CloseOutSettles(db1, e, outcome, failure, failureSource, Row(db1, e).cost, source, now);
      var closed := CloseOut(db1, e, outcome, failure, failureSource, Row(db1, e).cost, source, now).after;
      SettlesAgain(db, db1, closed, e, HeldCost(db, e, ev), HeldCost(db, e, ev));
      SettledFrame(db, closed, r.db, e, HeldCost(db, e, ev));
    }
  }

  /** A terminal close leaves the row's known cost or, if it has none, the evidence's. */
  lemma CloseSettles(db: Db, g: map<Tuple, int>, e: Tuple, outcome: Outcome, source: Option<CostSource>, failure: Option<Failure>,
                     failureSource: Option<FailureSource>, key: Option<string>, ev: Option<Evidence>, now: int)
    requires Inv(db)
    ensures var r := CloseTerminal(db, g, e, outcome, source, failure, failureSource, key, ev, now);
            if r.reply.ClosedTerminal? then HasRows(db, e) && Settles(db, r.db, e, HeldCost(db, e, ev)) else r.db == db
  {
    hide Inv, FailureOk, EvidenceOk, CloseOpen, Settles, HeldCost;
    if HasRows(db, e) {
      LastReservation(db, e);
      OpenCloseSettles(db, g, e, outcome, source, failure, failureSource, key, ev, now);
    }
  }

  lemma NothingSettles(db: Db, e: Tuple)
    requires HasRows(db, e)
    ensures Settles(db, db, e, HeldCost(db, e, None))
  {
  }

  /** Remembering an answer moves no row. */
  lemma SettledFrame(db: Db, db': Db, remembered: Db, e: Tuple, cost: Option<int>)
    requires Settles(db, db', e, cost)
    requires remembered.tasks == db'.tasks && remembered.attempts == db'.attempts && remembered.control == db'.control
    ensures Settles(db, remembered, e, cost)
  {
  }

  lemma RefusalSettles(s: State, ev: Event)
    requires ev.Fusing? && Step(s, ev).reply.ObservationRecorded?
    ensures HasRows(s.db, ev.e) && Settles(s.db, Step(s, ev).db, ev.e, CostToSet(s.db, ev))
  {
    hide Step, FusedRecorded, EvidenceFacts, ObservationFacts;
    FusedRefusalKeepsObservation(s, ev);
  }

  // ---------- successors ----------

  /** From db to db' the task moved on to attempt `next` at the ceiling of `provider`. */
  ghost predicate MovedOn(db: Db, db': Db, e: Tuple, next: Tuple, provider: ProviderId, cost: Option<int>)
  {
    && HasRows(db, e) && HasRows(db', next) && next.task == e.task && Row(db', next).cost.None?
    && provider in db.tasks[e.task].plan.ceilings
    && db'.tasks[e.task].budget == db.tasks[e.task].budget
    && db'.tasks[e.task].reserved == Recosted(db, e, cost) + db.tasks[e.task].plan.ceilings[provider]
    && (forall t | t != e.task :: t in db'.tasks <==> t in db.tasks)
    && (forall t | t != e.task && t in db.tasks :: db'.tasks[t] == db.tasks[t])
  }

  lemma CeilingsAreMicro(db: Db, e: Tuple, p: ProviderId)
    requires Inv(db) && HasRows(db, e) && p in db.tasks[e.task].plan.ceilings
    ensures Micro(db.tasks[e.task].plan.ceilings[p])
  {
    hide FactsOk, RowsBelong, SlotsExact, ControlOk, PastAttemptOk, LastAttemptOk, Sum;
    assert TaskOk(db, e.task);
  }

  /** A task that moved on is within its budget, and so was the cost it moved on with. */
  lemma MovedOnFits(db: Db, db': Db, e: Tuple, next: Tuple, provider: ProviderId, cost: Option<int>, t: TaskId)
    requires Inv(db) && Sound(db') && MovedOn(db, db', e, next, provider, cost)
    ensures !OverBudget(db', e.task) && !Exceeds(db, e, cost)
    ensures t != e.task ==> (OverBudget(db', t) <==> OverBudget(db, t))
  {
    hide Inv, IndexAgrees, FencesOk, SubmitFencesOk, RepliesTruthful, BudgetOk, RangeOk;
    OverBudgetAtRow(db', next);
    CeilingsAreMicro(db, e, provider);
  }

  lemma ApplyMovesOn(db: Db, g: map<Tuple, int>, e: Tuple, successor: ProviderId, failure: Failure, delay: int,
                     key: Option<string>, id: AttemptId, now: int, mono: int)
    requires HasRows(db, e) && successor in db.tasks[e.task].plan.ceilings
    ensures MovedOn(db, ApplyOnce(db, g, e, successor, failure, delay, key, id, now, mono).db, e, SuccessorOf(e, id), successor, Row(db, e).cost)
  {
    hide WitnessFor;
  }

  lemma TransitionMovesOn(db: Db, g: map<Tuple, int>, e: Tuple, successor: ProviderId, failure: Failure, jitter: int,
                          planHash: Option<PlanHash>, key: Option<string>, id: AttemptId, now: int, mono: int)
    ensures var r := TransitionOnce(db, g, e, successor, failure, jitter, planHash, key, id, now, mono);
            r.db == db || (HasRows(db, e) && MovedOn(db, r.db, e, SuccessorOf(e, id), successor, Row(db, e).cost))
  {
    hide PlanChecks, TransitionPrecheck, FailureOk, Durable, ApplyOnce, MovedOn;
    var delay := DirectJitter(jitter, planHash.None? && key.None?);
    if delay.Some? && TransitionPrecheck(db, e, successor, delay.value, planHash, now).PreEligible? {
      FoundCeiling(db, e, successor);
      ApplyMovesOn(db, g, e, successor, failure, delay.value, key, id, now, mono);
    }
  }

  lemma FusedMovesOn(s: State, ev: Event)
    requires ev.Fusing? && Step(s, ev).reply.Transitioned?
    ensures HasRows(s.db, ev.e)
    ensures MovedOn(s.db, Step(s, ev).db, ev.e, SuccessorOf(ev.e, ev.id), ev.successor, CostToSet(s.db, ev))
  {
    hide Step, FusedRecorded, EvidenceFacts, ObservationFacts, Recosted, HeldCost;
    FusedTransitionCommitsAll(s, ev);
  }

  lemma ForwardMovesOn(db: Db, g: map<Tuple, int>, e: Tuple, key: string, delay: int, f: Failure,
                       asked: Option<ProviderId>, id: AttemptId, now: int, mono: int) returns (target: ProviderId)
    requires ActiveLookup(db, e).Found? && RecoverForward(db, g, e, key, delay, f, asked, id, now, mono).db != db
    ensures MovedOn(db, RecoverForward(db, g, e, key, delay, f, asked, id, now, mono).db, e, SuccessorOf(e, id), target, Row(db, e).cost)
  {
    hide PlanChecks, CircuitOpen, FailureOk, WitnessFor, IndexOf;
    target := RecoveryTarget(db.tasks[e.task].plan.providers, Row(db, e).provider, asked).value;
    FoundCeiling(db, e, target);
  }

  lemma UncertainSettles(db: Db, g: map<Tuple, int>, e: Tuple, key: string, now: int)
    requires HasRows(db, e) && Reservation(Row(db, e), Row(db, e).cost) == Row(db, e).reserved
    ensures Settles(db, RecoverUncertain(db, g, e, key, now).db, e, Row(db, e).cost)
  {
    hide CostPayloadOk, LatestCostSource;
  }

  /** `OverBudgetAtRow` for a sound database. */
  lemma RowIsWithin(db: Db, e: Tuple)
    requires Sound(db) && HasRows(db, e)
    ensures OverBudget(db, e.task) <==> Exceeds(db, e, Row(db, e).cost)
  {
    hide Inv, IndexAgrees, FencesOk, SubmitFencesOk, RepliesTruthful, BudgetOk, RangeOk;
    OverBudgetAtRow(db, e);
  }

  /** A recovery closes the attempt at the cost it has, or moves on, or changes nothing. */
  lemma RecoveryFits(db: Db, g: map<Tuple, int>, e: Tuple, key: string, jitter: int, failure: Option<Failure>,
                     asked: Option<ProviderId>, id: AttemptId, now: int, mono: int, t: TaskId)
    requires Sound(db) && Sound(RecoverAndTransition(db, g, e, key, jitter, failure, asked, id, now, mono).db)
    ensures OverBudget(RecoverAndTransition(db, g, e, key, jitter, failure, asked, id, now, mono).db, t) <==> OverBudget(db, t)
  {
    SoundInv(db);
    hide Sound, Inv, PlanChecks, FailureOk, Durable, RecoverForward, RecoverUncertain, OverBudget, Settles, MovedOn, Exceeds;
    var r := RecoverAndTransition(db, g, e, key, jitter, failure, asked, id, now, mono);
    var f := if failure.Some? then failure.value else PRE_DISPATCH_TIMEOUT;
    if r.db != db {
      var delay := DirectJitter(jitter, failure.None? && asked.None?).value;
      LastReservation(db, e);
      RowIsWithin(db, e);
      if r == RecoverUncertain(db, g, e, key, now) {
        UncertainSettles(db, g, e, key, now);
        SettledIff(db, r.db, e, Row(db, e).cost, t);
      } else {
        var target := ForwardMovesOn(db, g, e, key, delay, f, asked, id, now, mono);
        MovedOnFits(db, r.db, e, SuccessorOf(e, id), target, Row(db, e).cost, t);
      }
    }
  }

  // ---------- all the other calls ----------

  /** Every task keeps its budget and its reservation. */
  ghost predicate SameAmounts(db: Db, db': Db)
  {
    forall t :: (t in db'.tasks <==> t in db.tasks)
                && (t in db.tasks ==> db'.tasks[t].budget == db.tasks[t].budget && db'.tasks[t].reserved == db.tasks[t].reserved)
  }

  /** Most row changes move no amount. */
  lemma WriteKeepsAmounts(db: Db, w: Write)
    requires Applies(db, w)
    requires w.Cancel? || w.Orphan? || w.Memo?
             || (w.Finish? && w.cost == Row(db, w.tuple).cost && Reservation(Row(db, w.tuple), w.cost) == Row(db, w.tuple).reserved)
    ensures SameAmounts(db, Put(db, w))
  {
  }

  lemma SubmitKeepsAmounts(db: Db, g: map<Tuple, int>, e: Tuple, plan: Plan, provider: ProviderId, attemptDeadline: int,
                           key: Option<string>, now: int, seen: int, mono: int)
    ensures SameAmounts(db, SubmitAttempt(db, g, e, plan, provider, attemptDeadline, key, now, seen, mono).db)
  {
    hide PlanChecks, FenceReadiness, GuardsAfter, ValidPlan, FenceOk;
  }

  lemma DispatchKeepsAmounts(db: Db, g: map<Tuple, int>, e: Tuple, now: int, seen: int, mono: int)
    ensures SameAmounts(db, MarkDispatch(db, g, e, now, seen, mono).db)
  {
    hide PlanChecks, FenceReadiness, GuardsAfter;
  }

  lemma FenceKeepsAmounts(db: Db, g: map<Tuple, int>, e: Tuple, call: string, digest: string, now: int, seen: int, mono: int)
    ensures SameAmounts(db, AuthorizeTool(db, g, e, call, digest, now, seen, mono).db)
  {
    hide PlanChecks, FenceReadiness, GuardsAfter;
  }

  lemma ObservationKeepsAmounts(db: Db, g: map<Tuple, int>, e: Tuple, failure: Failure, key: string,
                                source: Option<FailureSource>, now: int)
    ensures SameAmounts(db, RecordObservation(db, g, e, failure, key, source, now).db)
  {
    hide PlanChecks, FailureOk;
  }

  lemma EventKeepsAmounts(db: Db, g: map<Tuple, int>, e: Tuple, kind: string, data: CanonicalJson, now: int)
    ensures SameAmounts(db, AppendEvent(db, g, e, kind, data, now).db)
  {
    hide PlanChecks, IsCanonical;
  }

  lemma StateKeepsAmounts(db: Db, g: map<Tuple, int>, e: Tuple, state: ProviderState, payload: CanonicalJson, now: int)
    ensures SameAmounts(db, MutateState(db, g, e, state, payload, now).db)
  {
    hide PlanChecks, IsCanonical;
  }

  lemma CancelKeepsAmounts(db: Db, g: map<Tuple, int>, e: Tuple, key: string, now: int)
    ensures SameAmounts(db, RequestCancel(db, g, e, key, now).db)
  {
    hide Put;
    WriteKeepsAmounts(db, Memo(IdemKey(OpCancel, key), IdemRow(e, AckAlreadyTerminal(e))));
    if HasAttempt(db, e) && e.task in db.tasks {
      WriteKeepsAmounts(db, Cancel(e, now));
      WriteKeepsAmounts(Put(db, Cancel(e, now)), Memo(IdemKey(OpCancel, key), IdemRow(e, AckCancelled(e))));
    }
  }

  lemma CancelIfActiveKeepsAmounts(db: Db, g: map<Tuple, int>, e: Tuple, now: int)
    ensures SameAmounts(db, RequestCancelIfActive(db, g, e, now).db)
  {
    hide PlanChecks;
  }

  lemma PreDispatchKeepsAmounts(db: Db, g: map<Tuple, int>, e: Tuple, now: int)
    requires HasRows(db, e) ==> Reservation(Row(db, e), Row(db, e).cost) == Row(db, e).reserved
    ensures SameAmounts(db, RecoverPreDispatch(db, g, e, now).db)
  {
    hide PlanChecks, CostPayloadOk, LatestCostSource, Put;
    if HasRows(db, e) {
      var cost := Row(db, e).cost;
      WriteKeepsAmounts(db, Finish(e, cost, None, Completion(DoneUncertain, cost, LatestCostSource(db.outbox, e)), now));
      WriteKeepsAmounts(db, Orphan(e, now));
    }
  }

  predicate MovesAmounts(ev: Event)
  {
    ev.Creating? || ev.Transitioning? || ev.Recovering? || ev.Fusing? || ev.Costing? || ev.Completing? || ev.Polling? || ev.Closing?
  }

  /** The operations that never touch an amount. */
  lemma StepKeepsAmounts(s: State, ev: Event)
    requires Inv(s.db) && !MovesAmounts(ev)
    ensures SameAmounts(s.db, Step(s, ev).db)
  {
    hide Inv, SameAmounts, SubmitAttempt, MarkDispatch, AuthorizeTool, RecordObservation, AppendEvent, MutateState,
         RequestCancel, RequestCancelIfActive, RecoverPreDispatch;
    var db, g := s.db, s.guards;
    match ev
    case Submitting(e, plan, p, d, k, now, seen, mono) => SubmitKeepsAmounts(db, g, e, plan, p, d, k, now, seen, mono);
    case Dispatching(e, now, seen, mono) => DispatchKeepsAmounts(db, g, e, now, seen, mono);
    case FencingTool(e, call, digest, now, seen, mono) => FenceKeepsAmounts(db, g, e, call, digest, now, seen, mono);
    case Observing(e, f, k, source, now) => ObservationKeepsAmounts(db, g, e, f, k, source, now);
    case Appending(e, kind, data, now) => EventKeepsAmounts(db, g, e, kind, data, now);
    case Mutating(e, st, payload, now) => StateKeepsAmounts(db, g, e, st, payload, now);
    case Cancelling(e, k, now) => CancelKeepsAmounts(db, g, e, k, now);
    case CancellingIfActive(e, now) => CancelIfActiveKeepsAmounts(db, g, e, now);
    case RecoveringBeforeDispatch(e, now) =>
      if HasRows(db, e) { LastReservation(db, e); }
      PreDispatchKeepsAmounts(db, g, e, now);
    case Restarting(_) => NothingMoves(db);
  }

  lemma NothingMoves(db: Db)
    ensures SameAmounts(db, db)
  {
  }

  lemma BudgetIsMicro(t: TaskId, plan: Plan)
    requires ValidPlan(t, plan)
    ensures plan.taskId == t && |plan.providers| > 0 && plan.providers[0] in plan.ceilings
    ensures plan.budget.Some? ==> Micro(plan.budget.value)
  {
  }

  lemma OpenedRowFits(db: Db, w: Write, t: TaskId)
    requires (w.Tombstone? || w.Admit?) && Applies(db, w) && w.plan.taskId !in db.tasks
    requires w.plan.budget.Some? ==> w.plan.budget.value >= if w.Admit? then w.plan.ceilings[w.plan.providers[0]] else 0
    ensures OverBudget(Put(db, w), t) <==> OverBudget(db, t)
  {
  }

  lemma AdmissionFits(db: Db, g: map<Tuple, int>, admitted: TaskId, plan: Plan, id: AttemptId, now: int, t: TaskId)
    ensures OverBudget(CreateInitial(db, g, admitted, plan, id, now).db, t) <==> OverBudget(db, t)
  {
    hide ValidPlan, Put, OverBudget;
    if ValidPlan(admitted, plan) && admitted !in db.tasks {
      BudgetIsMicro(admitted, plan);
      OpenedRowFits(db, Tombstone(plan, now), t);
      if plan.budget.Some? ==> plan.ceilings[plan.providers[0]] <= plan.budget.value { OpenedRowFits(db, Admit(plan, id, now), t); }
    }
  }

  // ---------- every step ----------

  lemma CostStep(s: State, ev: Event)
    requires Inv(s.db) && (ev.Costing? || ev.Completing? || ev.Polling? || ev.Closing?)
    ensures if SetsCost(s, ev) then HasRows(s.db, ev.e) && Settles(s.db, Step(s, ev).db, ev.e, CostToSet(s.db, ev))
            else Step(s, ev).db == s.db
  {
    hide Inv, RecordCost, Complete, CompleteFromPoll, CloseTerminal, HeldCost, FactsOf, Settles, HasRows;
    var db, g := s.db, s.guards;
    match ev
    case Costing(e, actual, source, now) => RecordCostSettles(db, g, e, actual, source, now);
    case Completing(e, o, actual, source, now) => CompleteSettles(db, g, e, o, actual, source, now);
    case Polling(e, o, actual, source, f, fs, now) => PollSettles(db, g, e, o, actual, source, f, fs, now);
    case Closing(e, o, source, f, fs, k, c, now) => CloseSettles(db, g, e, o, source, f, fs, k, c, now);
  }

  lemma FusedStep(s: State, ev: Event)
    requires ev.Fusing?
    ensures SetsCost(s, ev) ==> HasRows(s.db, ev.e)
    ensures if !SetsCost(s, ev) then Step(s, ev).db == s.db
            else if Step(s, ev).reply.Transitioned? then
              MovedOn(s.db, Step(s, ev).db, ev.e, SuccessorOf(ev.e, ev.id), ev.successor, CostToSet(s.db, ev))
            else Settles(s.db, Step(s, ev).db, ev.e, CostToSet(s.db, ev))
  {
    hide Step, Settles, MovedOn;
    FusedAnswers(s, ev);
    if Step(s, ev).reply.Transitioned? {
      FusedMovesOn(s, ev);
    } else if Step(s, ev).reply.ObservationRecorded? {
      RefusalSettles(s, ev);
    } else if Step(s, ev).reply.Rejected? || Step(s, ev).reply.Failed? {
      FusedRejectionWritesNothing(s, ev);
    }
  }

  lemma OpeningFits(s: State, ev: Event, t: TaskId)
    requires Sound(s.db) && Sound(Step(s, ev).db) && (ev.Creating? || ev.Transitioning? || ev.Recovering?)
    ensures OverBudget(Step(s, ev).db, t) <==> OverBudget(s.db, t)
  {
    SoundInv(s.db);
    hide Sound, Inv, CreateInitial, TransitionOnce, RecoverAndTransition, Exceeds, MovedOn, OverBudget;
    var db, g, after := s.db, s.guards, Step(s, ev).db;
    match ev
    case Creating(admitted, plan, id, now) => AdmissionFits(db, g, admitted, plan, id, now, t);
    case Transitioning(e, p, f, j, h, k, id, now, mono) =>
      TransitionMovesOn(db, g, e, p, f, j, h, k, id, now, mono);
      if after != db {
        MovedOnFits(db, after, e, SuccessorOf(e, id), p, Row(db, e).cost, t);
        RowIsWithin(db, e);
      }
    case Recovering(e, k, j, f, asked, id, now, mono) => RecoveryFits(db, g, e, k, j, f, asked, id, now, mono, t);
  }

  /** Which step leaves a task over its budget.  A call that sets a cost does so exactly
      when that cost is more than the budget leaves, which the caller can compute from the
      rows before the call; every other call leaves the comparison as it was. */
  lemma StepExceedsIff(s: State, ev: Event, t: TaskId)
    requires Sound(s.db)
    ensures SetsCost(s, ev) ==> HasRows(s.db, ev.e)
    ensures OverBudget(Step(s, ev).db, t) <==>
              if SetsCost(s, ev) && ev.e.task == t then Exceeds(s.db, ev.e, CostToSet(s.db, ev)) else OverBudget(s.db, t)
  {
    StepKeepsSound(s, ev);
    SoundInv(s.db);
    hide Sound, Later, Inv, Step, Exceeds, Settles, MovedOn;
    var after := Step(s, ev).db;
    if ev.Creating? || ev.Transitioning? || ev.Recovering? {
      OpeningFits(s, ev, t);
    } else if ev.Fusing? {
      FusedStep(s, ev);
      if SetsCost(s, ev) {
        if Step(s, ev).reply.Transitioned? {
          MovedOnFits(s.db, after, ev.e, SuccessorOf(ev.e, ev.id), ev.successor, CostToSet(s.db, ev), t);
        } else {
          SettledIff(s.db, after, ev.e, CostToSet(s.db, ev), t);
        }
      }
    } else if MovesAmounts(ev) {
      CostStep(s, ev);
      if SetsCost(s, ev) { SettledIff(s.db, after, ev.e, CostToSet(s.db, ev), t); }
    } else {
      StepKeepsAmounts(s, ev);
    }
  }
}
