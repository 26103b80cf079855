/** Where a property of the ledger stops: the exact condition and a concrete case. */
module LedgerLimits {
  import opened Wrappers
  import opened Payload
  import opened LedgerTables
  import opened LedgerChecks
  import opened LedgerWrites
  import opened LedgerInvariant
  import opened LedgerFold
  import opened LedgerCircuit
  import opened LedgerOps
  import opened LedgerChains
  import opened LedgerBudget
  import opened LedgerHistory
  import opened LedgerRuns

  // ---------- recovery has no range check ----------

  lemma ForwardShape(db: Db, g: map<Tuple, int>, e: Tuple, key: string, delay: int, f: Failure,
                     asked: Option<ProviderId>, id: AttemptId, now: int, mono: int)
    requires ActiveLookup(db, e).Found? && RecoverForward(db, g, e, key, delay, f, asked, id, now, mono).reply.Recovered?
    ensures var r := RecoverForward(db, g, e, key, delay, f, asked, id, now, mono);
            && r.reply.provider in db.tasks[e.task].plan.ceilings
            && ActiveRow(r.db, SuccessorOf(e, id))
            && r.db.tasks[e.task].reserved == Replacement(db, e, r.reply.provider)
            && r.reply.successor == SuccessorOf(e, id)
  {
    hide PlanChecks, CircuitOpen, FailureOk, WitnessFor, IndexOf;
    var target := RecoveryTarget(db.tasks[e.task].plan.providers, Row(db, e).provider, asked).value;
    FoundCeiling(db, e, target);
  }

  lemma RecoveredIsForward(s: State, ev: Event) returns (delay: int, f: Failure)
    requires ev.Recovering? && Step(s, ev).reply.Recovered? && Remembered(s.db, OpRecovery, ev.key).None?
    ensures ActiveLookup(s.db, ev.e).Found?
    ensures Step(s, ev) == RecoverForward(s.db, s.guards, ev.e, ev.key, delay, f, ev.asked, ev.id, ev.now, ev.mono)
  {
    hide PlanChecks, RecoverForward, FailureOk, CostPayloadOk, LatestCostSource, Remember, Put;
    delay := DirectJitter(ev.jitter, ev.cause.None? && ev.asked.None?).value;
    f := if ev.cause.Some? then ev.cause.value else PRE_DISPATCH_TIMEOUT;
  }

  /** After a recovery the successor is usable exactly when the task's new
      reservation is a safe integer; the code never compares the two. */
  lemma RecoveryUsableIff(s: State, ev: Event)
    requires Sound(s.db) && ev.Recovering? && Step(s, ev).reply.Recovered? && Remembered(s.db, OpRecovery, ev.key).None?
    ensures HasRows(s.db, ev.e) && Step(s, ev).reply.provider in s.db.tasks[ev.e.task].plan.ceilings
    ensures ActiveLookup(Step(s, ev).db, Step(s, ev).reply.successor).Found? <==>
            Replacement(s.db, ev.e, Step(s, ev).reply.provider) <= SAFE_INTEGER_MAX
  {
    hide Inv, IndexAgrees, FencesOk, SubmitFencesOk, RepliesTruthful, BudgetOk, RangeOk, Persists, Absorbs, PlanChecks, Step,
         RecoverForward, Replacement, ActiveRow;
    var delay, f := RecoveredIsForward(s, ev);
    ForwardShape(s.db, s.guards, ev.e, ev.key, delay, f, ev.asked, ev.id, ev.now, ev.mono);
    StepKeepsSound(s, ev);
    CheckedPlanAccepts(Step(s, ev).db, SuccessorOf(ev.e, ev.id));
    FoundIsLive(s.db, ev.e);
  }

  /** An unbudgeted plan whose two ceilings are both the largest safe integer. */
  const WIDE_PLAN: Plan := Plan("t", ["p", "q"], map["p" := SAFE_INTEGER_MAX, "q" := SAFE_INTEGER_MAX], 100_000, 1, None)
  const WIDE_RUN: seq<Event> := [Creating("t", WIDE_PLAN, "a", 1_000),
                                 Recovering(Tuple("t", "a", 0), "r", 250, None, None, "b", 2_000, 0)]

  lemma NoWitnessesNotOpen(db: Db, provider: ProviderId, now: int, scope: seq<ProviderId>)
    requires db.witnesses == [] && ScopeOk(provider, scope)
    ensures CircuitOpen(db, provider, now, scope) == Some(false)
  {
  }

  /** After admission the initial attempt is found active. */
  lemma AdmittedIsFound(plan: Plan, id: AttemptId, now: int)
    requires ValidPlan(plan.taskId, plan) && TimeOk(now) && now < plan.deadlineMs
    requires plan.budget.Some? ==> plan.ceilings[plan.providers[0]] <= plan.budget.value
    ensures var db := After(START, [Creating(plan.taskId, plan, id, now)]).db;
            && db == Put(EMPTY, Admit(plan, id, now))
            && Sound(db) && ActiveLookup(db, Tuple(plan.taskId, id, 0)).Found?
  {
    hide PlanChecks, IndexOf, ValidPlan;
    var evs := [Creating(plan.taskId, plan, id, now)];
    assert evs[..0] == [];
    AfterAppend(START, [], evs[0]);
    assert [] + [evs[0]] == evs;
    var e := Tuple(plan.taskId, id, 0);
    ReachableIsSound(evs);
    hide Inv, IndexAgrees, FencesOk, SubmitFencesOk, RepliesTruthful, BudgetOk, RangeOk;
    CeilingInRange(plan);
    CheckedPlanAccepts(After(START, evs).db, e);
  }

  lemma CeilingInRange(plan: Plan)
    requires ValidPlan(plan.taskId, plan)
    ensures |plan.providers| > 0 && plan.providers[0] in plan.ceilings && Micro(plan.ceilings[plan.providers[0]])
  {
  }

  lemma WideTarget()
    ensures ValidPlan("t", WIDE_PLAN)
    ensures IndexOf(["p", "q"], "p") == 0 && IndexOf(["p", "q"], "q") == 1
  {
    var ps: seq<ProviderId> := ["p", "q"];
    assert ps[0] != ps[1];
    IndexOfMember(ps, 0);
    IndexOfMember(ps, 1);
  }

  /** The recovery commits a sum that `_checked_plan` refuses ever after. */
  lemma UnbudgetedRecoveryCorrupts()
    ensures ActiveLookup(After(START, WIDE_RUN).db, Tuple("t", "b", 1)).Corrupt?
  {
    hide PlanChecks, IndexOf, ValidPlan, Step, FailureOk;
    var e := Tuple("t", "a", 0);
    WideTarget();
    AdmittedIsFound(WIDE_PLAN, "a", 1_000);
    var s := After(START, WIDE_RUN[..1]);
    assert WIDE_RUN[..1] == [WIDE_RUN[0]];
    NoWitnessesNotOpen(s.db, "p", 2_000, ["p", "q"]);
    WideRecovery(s);
    assert WIDE_RUN == WIDE_RUN[..1] + [WIDE_RUN[1]];
    AfterAppend(START, WIDE_RUN[..1], WIDE_RUN[1]);
    RecoveryUsableIff(s, WIDE_RUN[1]);
    ForwardedRow(s, WIDE_RUN[1]);
  }

  lemma ForwardedRow(s: State, ev: Event)
    requires ev.Recovering? && Step(s, ev).reply.Recovered? && Remembered(s.db, OpRecovery, ev.key).None?
    ensures Step(s, ev).reply.successor == SuccessorOf(ev.e, ev.id) && ActiveRow(Step(s, ev).db, SuccessorOf(ev.e, ev.id))
  {
    hide Step, RecoverForward, PlanChecks, ActiveRow;
    var delay, f := RecoveredIsForward(s, ev);
    ForwardShape(s.db, s.guards, ev.e, ev.key, delay, f, ev.asked, ev.id, ev.now, ev.mono);
  }

  lemma WideRecovery(s: State)
    requires s.db == Put(EMPTY, Admit(WIDE_PLAN, "a", 1_000)) && ActiveLookup(s.db, Tuple("t", "a", 0)).Found?
    requires CircuitOpen(s.db, "p", 2_000, ["p", "q"]) == Some(false)
    requires IndexOf(["p", "q"], "p") == 0 && IndexOf(["p", "q"], "q") == 1
    ensures Step(s, WIDE_RUN[1]).reply.Recovered? && Remembered(s.db, OpRecovery, "r").None?
    ensures Step(s, WIDE_RUN[1]).reply.provider == "q"
    ensures HasRows(s.db, Tuple("t", "a", 0)) && Replacement(s.db, Tuple("t", "a", 0), "q") == 2 * SAFE_INTEGER_MAX
  {
    hide PlanChecks, IndexOf, CircuitOpen, Remember;
  }

  // ---------- costs above the ceiling ----------

  const TIGHT_PLAN: Plan := Plan("t", ["p"], map["p" := 10], 100_000, 0, Some(10))
  const TIGHT_RUN: seq<Event> := [Creating("t", TIGHT_PLAN, "a", 1_000),
                                  Costing(Tuple("t", "a", 0), Some(11), Some(Exact), 2_000)]

  /** A reported cost above its ceiling takes the reservation above the budget. */
  lemma CostMayExceedBudget()
    ensures var db := After(START, TIGHT_RUN).db;
            "t" in db.tasks && db.tasks["t"].budget == Some(10) && db.tasks["t"].reserved == 11
  {
    hide PlanChecks, Step;
    assert ValidPlan("t", TIGHT_PLAN);
    AdmittedIsFound(TIGHT_PLAN, "a", 1_000);
    var s := After(START, TIGHT_RUN[..1]);
    assert TIGHT_RUN[..1] == [TIGHT_RUN[0]];
    assert TIGHT_RUN == TIGHT_RUN[..1] + [TIGHT_RUN[1]];
    AfterAppend(START, TIGHT_RUN[..1], TIGHT_RUN[1]);
    TightCost(s);
  }

  lemma TightCost(s: State)
    requires s.db == Put(EMPTY, Admit(TIGHT_PLAN, "a", 1_000)) && ActiveLookup(s.db, Tuple("t", "a", 0)).Found?
    ensures var db := Step(s, TIGHT_RUN[1]).db;
            "t" in db.tasks && db.tasks["t"].budget == Some(10) && db.tasks["t"].reserved == 11
  {
    hide PlanChecks;
  }

  // ---------- closing a cancelled attempt with cost evidence ----------

  /** The cost facts and the row already say what the evidence says. */
  predicate EvidenceHeld(db: Db, e: Tuple, ev: Evidence)
    requires HasRows(db, e)
  {
    && !CostsDisagree(FactsOf(db.outbox, e).costs, ev.actual)
    && CostCompatible(FactsOf(db.outbox, e).costs, ev.actual)
    && (ev.actual.Some? ==> Row(db, e).cost == ev.actual)
    && Micro(db.tasks[e.task].reserved)
  }

  lemma CancelledEvidence(db: Db, e: Tuple, ev: Evidence, now: int)
    requires Inv(db) && CancelledLive(db, e)
    ensures ApplyEvidence(db, e, ev, now, true) == if EvidenceHeld(db, e, ev) then Some(db) else None
  {
    hide Inv, PlanChecks, CostsDisagree, CostCompatible, FactsOf, TaskRowOk, CostOk, Put;
    LastReservation(db, e);
    LastRow(db, e);
    LiveIsLast(db, e);
  }

  lemma {:induction false} CostsWellFormed(log: seq<Fact>, k: Tuple)
    requires forall i | 0 <= i < |log| :: WellFormed(log[i])
    ensures forall i | 0 <= i < |FactsOf(log, k).costs| :: FactsOf(log, k).costs[i].Cost? && CostFactOk(FactsOf(log, k).costs[i])
  {
    if log != [] { CostsWellFormed(log[..|log| - 1], k); }
  }

  /** The row's cost and the newest source fit together while no end was recorded. */
  lemma LatestSourceFits(db: Db, e: Tuple)
    requires Inv(db) && HasRows(db, e) && ClosableStatus(db.tasks[e.task].status)
    ensures CostPayloadOk(Row(db, e).cost, LatestCostSource(db.outbox, e))
  {
    LastRow(db, e);
    hide TaskRowOk, TaskOk, FactsOf, HasAttempt;
    forall i | 0 <= i < |db.outbox| ensures WellFormed(db.outbox[i]) { assert FactOk(db, db.outbox[i]); }
    CostsWellFormed(db.outbox, e);
  }

  /** close_terminal_if_active on a cancel-requested attempt with cost evidence: it
      closes exactly when a cost fact with that very evidence is already there and an
      explicit cost source fits the row; otherwise it raises and writes nothing. */
  lemma CancelledCloseIff(s: State, ev: Event)
    requires Sound(s.db) && ev.Closing? && CancelledLive(s.db, ev.e) && ev.ev.Some? && EvidenceOk(ev.ev) && TimeOk(ev.now)
    requires (ev.cause.Some? ==> FailureOk(ev.cause.value)) && ev.cause.Some? == ev.origin.Some?
    requires ev.token.Some? ==> Remembered(s.db, OpFinalize, ev.token.value).None?
    ensures var held := EvidenceHeld(s.db, ev.e, ev.ev.value);
            var fits := ev.source.Some? ==> CostPayloadOk(Row(s.db, ev.e).cost, ev.source);
            && (Step(s, ev).reply.ClosedTerminal? <==> held && fits)
            && (!(held && fits) ==> Step(s, ev) == Raise(s.db, s.guards, if held then InvalidInput else CorruptLedger))
  {
    hide Sound, Inv, PlanChecks, ApplyEvidence, FailureOk, EvidenceHeld, EvidenceOk, LatestCostSource, CostPayloadOk, Put, Remember;
    SoundInv(s.db);
    CancelledEvidence(s.db, ev.e, ev.ev.value, ev.now);
    CancelledControl(s.db, ev.e);
    LatestSourceFits(s.db, ev.e);
    NotesKeepSource(s.db, ev.e, ev.cause, ev.origin, ev.now);
  }

  lemma NotesKeepSource(db: Db, e: Tuple, failure: Option<Failure>, source: Option<FailureSource>, now: int)
    requires HasRows(db, e)
    ensures LatestCostSource(NoteFailure(db, e, failure, source, now).outbox, e) == LatestCostSource(db.outbox, e)
  {
    hide FactsOf;
    if failure.Some? { FactsOfAppend(db.outbox, Fact(e, Observed(failure.value, source), now), e); }
  }

  lemma CancelledControl(db: Db, e: Tuple)
    requires Inv(db) && CancelledLive(db, e)
    ensures db.control[e.task].status == ControlCancel
  {
    hide Inv, LastOk, TaskRowOk, FactsOf;
    LastRow(db, e);
  }

  // ---------- cancellation ----------

  lemma FreshCancel(db: Db, g: map<Tuple, int>, e: Tuple, key: string, now: int)
    requires Inv(db) && Remembered(db, OpCancel, key).None? && RequestCancel(db, g, e, key, now).reply.AckCancelled?
    ensures RequestCancel(db, g, e, key, now).reply.tuple == e && Live(db, e)
    ensures CancelledLive(RequestCancel(db, g, e, key, now).db, e)
  {
    hide Inv;
    UnendedIsActive(db, e);
  }

  /** A first ACK_CANCELLED hit the unique active tuple, although the lookup does not
      read active_control; any ACK_CANCELLED names a task that no longer runs. */
  lemma CancelHitsTheActiveTuple(s: State, ev: Event)
    requires Sound(s.db) && ev.Cancelling? && Step(s, ev).reply.AckCancelled?
    ensures var x, db := Step(s, ev).reply.tuple, Step(s, ev).db;
            x.task in db.tasks && db.tasks[x.task].status != Running
    ensures Remembered(s.db, OpCancel, ev.key).None? ==>
              && Step(s, ev).reply.tuple == ev.e && ActiveRow(s.db, ev.e)
              && (forall x: Tuple | x.task == ev.e.task && ActiveRow(s.db, x) :: x == ev.e)
              && CancelledLive(Step(s, ev).db, ev.e)
  {
    hide Sound, Inv, Put;
    SoundInv(s.db);
    if Remembered(s.db, OpCancel, ev.key).None? {
      FreshCancel(s.db, s.guards, ev.e, ev.key, ev.now);
    } else {
      assert Truthful(s.db, s.db.idem[IdemKey(OpCancel, ev.key)].result);
    }
  }
}
