/** The fused transition: one commit, or none. */
module LedgerFused {
  import opened Wrappers
  import opened Payload
  import opened LedgerTables
  import opened LedgerChecks
  import opened LedgerWrites
  import opened LedgerInvariant
  import opened LedgerFold
  import opened LedgerCircuit
  import opened LedgerOps
  import opened LedgerChains
  import opened LedgerBudget
  import opened LedgerHistory
  import opened LedgerRuns
  import opened LedgerReplay

  // ---------- the second precheck ----------

  /** A cost fact changes nothing the breaker looks at. */
  lemma CostKeepsWitness(db: Db, w: Write, x: Witness, now: int)
    requires w.SetCost? && Applies(db, w) && w.body.Cost?
    ensures WitnessOk(Put(db, w), x, now) <==> WitnessOk(db, x, now)
  {
    hide FactsOf, TransitionFactOk, Reservation;
    var db', c := Put(db, w), x.columns;
    var f := Fact(w.tuple, w.body, w.now);
    forall k: Tuple ensures FactsOf(db'.outbox, k).identities == FactsOf(db.outbox, k).identities {
      FactsOfAppend(db.outbox, f, k);
    }
    assert db'.outbox == db.outbox + [f];
  }

  lemma CostKeepsCircuit(db: Db, w: Write, provider: ProviderId, now: int, scope: seq<ProviderId>)
    requires w.SetCost? && Applies(db, w) && w.body.Cost?
    ensures CircuitOpen(Put(db, w), provider, now, scope) == CircuitOpen(db, provider, now, scope)
  {
    assert Put(db, w).witnesses == db.witnesses;
    hide WitnessOk, Put, Select, TripleOpen, FailureTimes, NoDuplicates, ScopeOk;
    var rows := Select(db.witnesses, scope, now - SCAN_WINDOW_MS);
    forall i | 0 <= i < |rows| ensures WitnessOk(Put(db, w), rows[i], now) <==> WitnessOk(db, rows[i], now) {
      CostKeepsWitness(db, w, rows[i], now);
    }
  }

  /** Once the first precheck passed, the one after the cost evidence can only repeat
      that, or find the budget exceeded, or find the sum out of range. */
  lemma SecondPrecheck(db: Db, ev: Event)
    requires ev.Fusing? && ev.ev.Some?
    requires TransitionPrecheck(db, ev.e, ev.successor, ev.jitter, Some(ev.hash), ev.now).PreEligible?
    requires ApplyEvidence(db, ev.e, ev.ev.value, ev.now, false).Some?
    ensures var db1 := ApplyEvidence(db, ev.e, ev.ev.value, ev.now, false).value;
            var pre := TransitionPrecheck(db1, ev.e, ev.successor, ev.jitter, Some(ev.hash), ev.now);
            || pre.PreEligible? || pre == PreRefused(BudgetUnavailable)
            || (pre.PreCorrupt? && ev.successor in db1.tasks[ev.e.task].plan.ceilings && !Micro(Replacement(db1, ev.e, ev.successor)))
  {
    hide PlanChecks, CircuitOpen, Replacement, CostsDisagree, CostCompatible, IndexOf;
    var e := ev.e;
    EvidenceShape(db, e, ev.ev.value, ev.now, false);
    var w := SetCost(e, if Row(db, e).cost.Some? then Row(db, e).cost else ev.ev.value.actual,
                     Cost(ev.ev.value.actual, Some(ev.ev.value.source)), ev.now);
    CostKeepsCircuit(db, w, Row(db, e).provider, ev.now, db.tasks[e.task].plan.providers);
    FoundCeiling(db, e, ev.successor);
  }

  /** A refused fused call wrote not one row. */
  lemma FusedRejectionWritesNothing(s: State, ev: Event)
    requires ev.Fusing? && (Step(s, ev).reply.Rejected? || Step(s, ev).reply.Failed?)
    ensures Step(s, ev) == Answer(s.db, s.guards, Step(s, ev).reply)
  {
    hide PlanChecks, TransitionPrecheck, FailureOk, ApplyEvidence, ObservationBound, Durable, Remember, ObserveOnce, Put, EvidenceOk;
    if TransitionPrecheck(s.db, ev.e, ev.successor, ev.jitter, Some(ev.hash), ev.now).PreEligible? && ev.ev.Some?
       && ApplyEvidence(s.db, ev.e, ev.ev.value, ev.now, false).Some? {
      SecondPrecheck(s.db, ev);
    }
  }

  // ---------- what the evidence step leaves ----------

  /** The cost column after the evidence step. */
  function HeldCost(db: Db, e: Tuple, ev: Option<Evidence>): Option<int>
    requires HasRows(db, e)
  {
    if Row(db, e).cost.Some? || ev.None? then Row(db, e).cost else ev.value.actual
  }

  /** The cost fact of the evidence step, unless one already says the same. */
  function EvidenceFacts(db: Db, e: Tuple, ev: Option<Evidence>, now: int): seq<Fact>
    requires HasRows(db, e)
  {
    if ev.None? || (CostCompatible(FactsOf(db.outbox, e).costs, ev.value.actual) && HeldCost(db, e, ev) == Row(db, e).cost)
    then [] else [Fact(e, Cost(ev.value.actual, Some(ev.value.source)), now)]
  }

  /** The observation fact of the fused call, unless its key already holds it. */
  function ObservationFacts(db: Db, ev: Event): seq<Fact>
    requires ev.Fusing?
  {
    if Remembered(db, OpObservation, ev.obsKey).Some? then [] else [Fact(ev.e, Observed(ev.failure, Some(ev.engine)), ev.now)]
  }

  /** The evidence is filed under e, in the row and in the task's reservation; nothing
      else moved. */
  ghost predicate Evidenced(before: Db, after: Db, e: Tuple, ev: Option<Evidence>, now: int)
  {
    && HasRows(before, e) && HasRows(after, e)
    && (ev.Some? ==> CostCompatible(FactsOf(after.outbox, e).costs, ev.value.actual))
    && after == before.(
         attempts := before.attempts[SlotOf(e) := Row(before, e).(cost := HeldCost(before, e, ev),
                                                                  reserved := Reservation(Row(before, e), HeldCost(before, e, ev)))],
         tasks := before.tasks[e.task := before.tasks[e.task].(reserved := Recosted(before, e, HeldCost(before, e, ev)))],
         outbox := before.outbox + EvidenceFacts(before, e, ev, now))
  }

  lemma FoundReserves(db: Db, e: Tuple)
    requires ActiveLookup(db, e).Found?
    ensures HasRows(db, e) && Reservation(Row(db, e), Row(db, e).cost) == Row(db, e).reserved
    ensures Recosted(db, e, Row(db, e).cost) == db.tasks[e.task].reserved
  {
    hide FactsOf, SlotsExact, FactsWellFormed, AttemptChecked, Sum, IndexOf, TaskRowOk, FenceOk;
  }

  lemma NoEvidence(db: Db, e: Tuple, now: int)
    requires ActiveLookup(db, e).Found?
    ensures Evidenced(db, db, e, None, now)
  {
    hide PlanChecks, ActiveLookup;
    FoundReserves(db, e);
  }

  lemma CostFiled(db: Db, e: Tuple, w: Write)
    requires w.SetCost? && w.tuple == e && HasRows(db, e) && w.body.Cost?
    ensures CostCompatible(FactsOf(Put(db, w).outbox, e).costs, w.body.actual)
  {
    hide FactsOf, Reservation;
    FactsOfAppend(db.outbox, Fact(e, w.body, w.now), e);
    var costs := FactsOf(Put(db, w).outbox, e).costs;
    assert costs[|costs| - 1] == w.body;
  }

  lemma EvidenceIsFiled(db: Db, e: Tuple, ev: Evidence, now: int)
    requires ActiveLookup(db, e).Found? && ApplyEvidence(db, e, ev, now, false).Some?
    ensures Evidenced(db, ApplyEvidence(db, e, ev, now, false).value, e, Some(ev), now)
  {
    hide ActiveLookup, PlanChecks, CostsDisagree, CostCompatible, FactsOf, Put, Evidenced, Refreshed;
    FoundReserves(db, e);
    RefreshedIsSame(db, e);
    var held := HeldCost(db, e, Some(ev));
    var filed := Put(db, SetCost(e, held, Cost(ev.actual, Some(ev.source)), now));
    RefreshedIsSame(filed, e);
    if CostCompatible(FactsOf(db.outbox, e).costs, ev.actual) && held == Row(db, e).cost {
      HeldAlready(db, e, ev, now);
    } else {
      EvidencePut(db, e, ev, now);
    }
  }

  lemma RefreshedIsSame(db: Db, e: Tuple)
    ensures Refreshed(db, e, false).Some? ==> Refreshed(db, e, false).value == db
  {
    hide ActiveLookup;
  }

  lemma HeldAlready(db: Db, e: Tuple, ev: Evidence, now: int)
    requires HasRows(db, e) && Reservation(Row(db, e), Row(db, e).cost) == Row(db, e).reserved
    requires CostCompatible(FactsOf(db.outbox, e).costs, ev.actual) && HeldCost(db, e, Some(ev)) == Row(db, e).cost
    ensures Evidenced(db, db, e, Some(ev), now)
  {
    hide CostCompatible, FactsOf;
  }

  lemma EvidencePut(db: Db, e: Tuple, ev: Evidence, now: int)
    requires HasRows(db, e)
    requires !(CostCompatible(FactsOf(db.outbox, e).costs, ev.actual) && HeldCost(db, e, Some(ev)) == Row(db, e).cost)
    ensures Evidenced(db, Put(db, SetCost(e, HeldCost(db, e, Some(ev)), Cost(ev.actual, Some(ev.source)), now)), e, Some(ev), now)
  {
    hide CostCompatible, FactsOf, HeldCost;
    CostFiled(db, e, SetCost(e, HeldCost(db, e, Some(ev)), Cost(ev.actual, Some(ev.source)), now));
  }

  /** The database a fused call goes on with after its evidence. */
  lemma AppliedEvidence(db: Db, ev: Event) returns (db1: Db)
    requires ev.Fusing? && ActiveLookup(db, ev.e).Found?
    requires ev.ev.Some? ==> ApplyEvidence(db, ev.e, ev.ev.value, ev.now, false).Some?
    requires Remembered(db, OpObservation, ev.obsKey).Some? ==> ObservationBound(db, ev.obsKey, ev.e, ev.failure, ev.engine)
    ensures db1 == if ev.ev.Some? then ApplyEvidence(db, ev.e, ev.ev.value, ev.now, false).value else db
    ensures Evidenced(db, db1, ev.e, ev.ev, ev.now)
    ensures Remembered(db1, OpObservation, ev.obsKey).Some? ==> ObservationBound(db1, ev.obsKey, ev.e, ev.failure, ev.engine)
  {
    hide ApplyEvidence, PlanChecks, Evidenced, ObservationBound;
    db1 := if ev.ev.Some? then ApplyEvidence(db, ev.e, ev.ev.value, ev.now, false).value else db;
    if ev.ev.Some? {
      EvidenceIsFiled(db, ev.e, ev.ev.value, ev.now);
      EvidenceKeepsBinding(db, ev.e, ev.ev.value, ev.now, ev.obsKey, ev.failure, ev.engine);
    } else {
      NoEvidence(db, ev.e, ev.now);
    }
  }

  /** Both answers: the evidence is filed, the observation is recorded and bound to its
      key, the reply is remembered, and no other key or fence appears. */
  ghost predicate FusedRecorded(before: Db, after: Db, ev: Event, reply: Reply)
    requires ev.Fusing?
  {
    && (ev.ev.Some? ==> CostCompatible(FactsOf(after.outbox, ev.e).costs, ev.ev.value.actual))
    && ObservationBound(after, ev.obsKey, ev.e, ev.failure, ev.engine)
    && Remembered(after, OpTransition, ev.key) == Some(reply)
    && after.fences == before.fences
    && (forall k | k !in {IdemKey(OpTransition, ev.key), IdemKey(OpObservation, ev.obsKey)} ::
          (k in after.idem <==> k in before.idem) && (k in before.idem ==> after.idem[k] == before.idem[k]))
  }

  lemma NotesKeepCosts(log: seq<Fact>, f: Fact, e: Tuple)
    requires !f.body.Cost?
    ensures FactsOf(log + [f], e).costs == FactsOf(log, e).costs
  {
    FactsOfAppend(log, f, e);
  }

  /** A fused call that answers at all under a new key passed the binding check. */
  lemma AnsweredIsFresh(s: State, ev: Event)
    requires ev.Fusing? && FusedAnswer(Step(s, ev).reply)
    ensures Remembered(s.db, OpObservation, ev.obsKey).Some? ==> ObservationBound(s.db, ev.obsKey, ev.e, ev.failure, ev.engine)
    ensures Step(s, ev) == FusedFresh(s.db, s.guards, ev.e, ev.successor, ev.failure, ev.engine, ev.jitter, ev.hash,
                                      ev.obsKey, ev.key, ev.ev, ev.id, ev.now, ev.mono)
  {
    hide FusedFresh, FailureOk, ObservationBound, Durable, EvidenceOk;
  }

  // ---------- OBSERVATION_RECORDED ----------

  /** Of the rows only the attempt's cost and the two reservations moved: no attempt was
      inserted or closed, active_control stands, no witness appeared, and the log gained
      the evidence and the observation alone. */
  ghost predicate ObservationKept(before: Db, after: Db, ev: Event, reply: Reply)
    requires ev.Fusing?
  {
    var e := ev.e;
    && HasRows(before, e)
    && FusedRecorded(before, after, ev, reply)
    && after.control == before.control && after.witnesses == before.witnesses
    && after.attempts == before.attempts[SlotOf(e) := Row(before, e).(cost := HeldCost(before, e, ev.ev),
                                                                      reserved := Reservation(Row(before, e), HeldCost(before, e, ev.ev)))]
    && after.tasks == before.tasks[e.task := before.tasks[e.task].(reserved := Recosted(before, e, HeldCost(before, e, ev.ev)))]
    && after.outbox == before.outbox + EvidenceFacts(before, e, ev.ev, ev.now) + ObservationFacts(before, ev)
  }

  lemma KeepCommits(before: Db, db: Db, g: map<Tuple, int>, ev: Event, reason: Reason)
    requires ev.Fusing? && Evidenced(before, db, ev.e, ev.ev, ev.now)
    requires Remembered(db, OpObservation, ev.obsKey).Some? ==> ObservationBound(db, ev.obsKey, ev.e, ev.failure, ev.engine)
    ensures var r := KeepObservation(db, g, ev.e, ev.failure, ev.engine, ev.obsKey, ev.key, reason, ev.now);
            ObservationKept(before, r.db, ev, r.reply)
  {
    KeepIsStored(db, g, ev, reason);
    hide ObservationBound, FactsOf, CostCompatible, HeldCost, Recosted, Reservation, EvidenceFacts;
    NotesKeepCosts(db.outbox, Fact(ev.e, Observed(ev.failure, Some(ev.engine)), ev.now), ev.e);
  }

  /** OBSERVATION_RECORDED commits the evidence, the observation and the remembered reply,
      and nothing else. */
  lemma FusedRefusalKeepsObservation(s: State, ev: Event)
    requires ev.Fusing? && Step(s, ev).reply.ObservationRecorded?
    ensures ObservationKept(s.db, Step(s, ev).db, ev, Step(s, ev).reply)
  {
    hide PlanChecks, TransitionPrecheck, ApplyEvidence, ObserveOnce, Remember, Put, ObservationBound, ObservationKept, Evidenced, Step, ActiveLookup;
    AnsweredIsFresh(s, ev);
    var pre := TransitionPrecheck(s.db, ev.e, ev.successor, ev.jitter, Some(ev.hash), ev.now);
    var db1 := AppliedEvidence(s.db, ev);
    var pre1 := TransitionPrecheck(db1, ev.e, ev.successor, ev.jitter, Some(ev.hash), ev.now);
    if pre.PreRefused? {
      KeepCommits(s.db, db1, s.guards, ev, pre.reason);
    } else {
      KeepCommits(s.db, db1, s.guards, ev, pre1.reason);
    }
  }

  // ---------- TRANSITIONED ----------

  /** The rows and the log after the successor's insertion. */
  ghost predicate SuccessorInserted(before: Db, after: Db, ev: Event)
    requires ev.Fusing?
  {
    var e, next := ev.e, SuccessorOf(ev.e, ev.id);
    && HasRows(before, e) && ev.successor in before.tasks[e.task].plan.ceilings
    && var a, task, ceiling := Row(before, e), before.tasks[e.task], before.tasks[e.task].plan.ceilings[ev.successor];
    && after.attempts == before.attempts[
         SlotOf(e) := a.(state := Closed, failure := Some(ev.failure), closedAt := Some(ev.now),
                         cost := HeldCost(before, e, ev.ev), reserved := Reservation(a, HeldCost(before, e, ev.ev)))][
         SlotOf(next) := FreshAttempt(ev.id, ev.successor, ceiling, ev.now, ev.now + ev.jitter)]
    && after.tasks == before.tasks[e.task := task.(transitionsUsed := task.transitionsUsed + 1,
                                                   reserved := Recosted(before, e, HeldCost(before, e, ev.ev)) + ceiling)]
    && after.control == before.control[e.task := Control(ev.id, e.epoch + 1, ControlActive)]
    && var fact := Fact(next, Transition(e, a.provider, ev.successor, ev.failure), ev.now);
    && after.outbox == before.outbox + EvidenceFacts(before, e, ev.ev, ev.now) + ObservationFacts(before, ev) + [fact]
    && after.witnesses == before.witnesses + [WitnessFor(fact, |after.outbox|)]
  }

  /** The evidence, the closed predecessor, its successor, the observation, the
      transition fact, its witness and both remembered results, all in one database. */
  ghost predicate FusedCommitted(before: Db, after: Db, ev: Event, reply: Reply)
    requires ev.Fusing?
  {
    && SuccessorInserted(before, after, ev) && FusedRecorded(before, after, ev, reply)
    && reply.Transitioned? && reply.successor == SuccessorOf(ev.e, ev.id)
  }

  lemma ApplyInserts(before: Db, db: Db, g: map<Tuple, int>, ev: Event)
    requires ev.Fusing? && Evidenced(before, db, ev.e, ev.ev, ev.now) && ev.successor in db.tasks[ev.e.task].plan.ceilings
    ensures SuccessorInserted(before, FusedApply(db, g, ev.e, ev.successor, ev.failure, ev.engine, ev.jitter, ev.obsKey, ev.key,
                                                 ev.id, ev.now, ev.mono).db, ev)
  {
    hide FactsOf, CostCompatible, EvidenceFacts, HeldCost;
  }

  lemma ApplyKeepsCosts(db: Db, g: map<Tuple, int>, ev: Event)
    requires ev.Fusing? && HasRows(db, ev.e) && ev.successor in db.tasks[ev.e.task].plan.ceilings
    ensures var r := FusedApply(db, g, ev.e, ev.successor, ev.failure, ev.engine, ev.jitter, ev.obsKey, ev.key, ev.id, ev.now, ev.mono);
            FactsOf(r.db.outbox, ev.e).costs == FactsOf(db.outbox, ev.e).costs
  {
    hide FactsOf, Replacement, Reservation;
    assert db.outbox + [] == db.outbox;
    var noted := db.outbox + ObservationFacts(db, ev);
    NotesKeepCosts(db.outbox, Fact(ev.e, Observed(ev.failure, Some(ev.engine)), ev.now), ev.e);
    NotesKeepCosts(noted, Fact(SuccessorOf(ev.e, ev.id), Transition(ev.e, Row(db, ev.e).provider, ev.successor, ev.failure), ev.now), ev.e);
  }

  lemma ApplyRecords(before: Db, db: Db, g: map<Tuple, int>, ev: Event)
    requires ev.Fusing? && Evidenced(before, db, ev.e, ev.ev, ev.now) && ev.successor in db.tasks[ev.e.task].plan.ceilings
    requires Remembered(db, OpObservation, ev.obsKey).Some? ==> ObservationBound(db, ev.obsKey, ev.e, ev.failure, ev.engine)
    ensures var r := FusedApply(db, g, ev.e, ev.successor, ev.failure, ev.engine, ev.jitter, ev.obsKey, ev.key, ev.id, ev.now, ev.mono);
            FusedRecorded(before, r.db, ev, r.reply)
  {
    ApplyIsStored(db, g, ev);
    hide ObservationBound, FactsOf, CostCompatible, EvidenceFacts, HeldCost, Recosted, Replacement, Reservation;
    ApplyKeepsCosts(db, g, ev);
  }

  /** TRANSITIONED commits the cost fact with the attempt's and the task's amounts, the
      observation, the closed predecessor, the successor, the transition fact, its witness
      and the idempotency rows, all at once and nothing else. */
  lemma FusedTransitionCommitsAll(s: State, ev: Event)
    requires ev.Fusing? && Step(s, ev).reply.Transitioned?
    ensures FusedCommitted(s.db, Step(s, ev).db, ev, Step(s, ev).reply)
  {
    hide PlanChecks, TransitionPrecheck, ApplyEvidence, ObserveOnce, Remember, Put, ObservationBound, SuccessorInserted, FusedRecorded, Evidenced, Step, ActiveLookup;
    AnsweredIsFresh(s, ev);
    var pre := TransitionPrecheck(s.db, ev.e, ev.successor, ev.jitter, Some(ev.hash), ev.now);
    var db1 := AppliedEvidence(s.db, ev);
    var pre1 := TransitionPrecheck(db1, ev.e, ev.successor, ev.jitter, Some(ev.hash), ev.now);
    assert pre.PreEligible? && pre1.PreEligible?;
    FoundCeiling(db1, ev.e, ev.successor);
    ApplyInserts(s.db, db1, s.guards, ev);
    ApplyRecords(s.db, db1, s.guards, ev);
    assert Step(s, ev).reply.successor == SuccessorOf(ev.e, ev.id);
  }
}
