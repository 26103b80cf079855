/** When each operation lets a call through, said of the rows, the plan and the clocks
    alone, and what it then leaves in the row and at the end of the log. */
module LedgerAnswers {
  import opened Wrappers
  import opened Payload
  import opened LedgerTables
  import opened LedgerChecks
  import opened LedgerWrites
  import opened LedgerInvariant
  import opened LedgerFold
  import opened LedgerCircuit
  import opened SubmitFence
  import opened LedgerOps
  import opened LedgerChains
  import opened LedgerBudget
  import opened LedgerHistory
  import opened LedgerRuns

  // ---------- the tuple ----------

  /** e is the last attempt of a running task. */
  predicate IsCurrent(db: Db, e: Tuple)
  {
    && e.task in db.tasks && db.tasks[e.task].status == Running
    && db.tasks[e.task].transitionsUsed == e.epoch
    && SlotOf(e) in db.attempts && db.attempts[SlotOf(e)].id == e.attempt
  }

  /** What every operation on the active tuple demands of it first. */
  predicate IsUsable(db: Db, e: Tuple)
  {
    IsCurrent(db, e) && db.tasks[e.task].reserved <= SAFE_INTEGER_MAX
  }

  /** A current tuple that `_checked_plan` refuses. */
  predicate IsOverflown(db: Db, e: Tuple)
  {
    IsCurrent(db, e) && db.tasks[e.task].reserved > SAFE_INTEGER_MAX
  }

  lemma CurrentIsActive(db: Db, e: Tuple)
    requires Inv(db)
    ensures ActiveRow(db, e) <==> IsCurrent(db, e)
    ensures IsCurrent(db, e) ==> HasRows(db, e) && Live(db, e) && !Row(db, e).cancelRequested && !EndedState(Row(db, e).state)
  {
    hide TaskRowOk, IdentityAt, FenceAt, LastOk, FactsOf, Sum, FactOk, PastAttemptOk;
    if IsCurrent(db, e) {
      assert TaskOk(db, e.task);
      LiveIsLast(db, e);
    }
    if ActiveRow(db, e) { LiveIsLast(db, e); }
  }

  lemma LookupMeans(db: Db, e: Tuple)
    requires Inv(db)
    ensures ActiveLookup(db, e).Found? <==> IsUsable(db, e)
    ensures ActiveLookup(db, e).Corrupt? <==> IsOverflown(db, e)
    ensures IsCurrent(db, e) ==> HasRows(db, e) && Live(db, e) && !Row(db, e).cancelRequested && !EndedState(Row(db, e).state)
  {
    hide Inv, PlanChecks, Live;
    CurrentIsActive(db, e);
    if ActiveRow(db, e) { CheckedPlanAccepts(db, e); }
  }

  /** The row of a current tuple, and the database after one more fact of it. */
  predicate NowHolds(db: Db, db': Db, e: Tuple, a: Attempt, body: FactBody, now: int)
  {
    && SlotOf(e) in db'.attempts && db'.attempts == db.attempts[SlotOf(e) := a]
    && db'.outbox == db.outbox + [Fact(e, body, now)]
  }

  /** Remembering an answer touches no other table. */
  lemma RememberedFrame(db: Db, op: Operation, key: Option<string>, e: Tuple, reply: Reply)
    ensures RememberIf(db, op, key, e, reply) == db.(idem := RememberIf(db, op, key, e, reply).idem)
  {
  }

  // ---------- cancellation ----------

  lemma CancelMeans(db: Db, g: map<Tuple, int>, e: Tuple, key: string, now: int)
    requires Inv(db) && TimeOk(now) && Remembered(db, OpCancel, key).None?
    ensures var r := RequestCancel(db, g, e, key, now);
            && (r.reply == AckCancelled(e) <==> IsCurrent(db, e))
            && (r.reply == AckAlreadyTerminal(e) <==> HasAttempt(db, e) && !IsCurrent(db, e))
            && (r.reply == AckUncertain <==> !HasAttempt(db, e))
            && (IsCurrent(db, e) ==>
                  && r.db.tasks == db.tasks[e.task := db.tasks[e.task].(status := CancelPending)]
                  && NowHolds(db, r.db, e, Row(db, e).(state := CancelRequested, cancelRequested := true), CancelAsked, now))
            && (!IsCurrent(db, e) ==> r.db == db.(idem := r.db.idem))
  {
    CurrentIsActive(db, e);
    assert HasAttempt(db, e) ==> e.task in db.tasks;
    hide Inv;
    if HasAttempt(db, e) && db.tasks[e.task].status == Running && !EndedState(Row(db, e).state) {
      UnendedIsActive(db, e);
    }
  }

  /** A first cancel request is acknowledged if and only if the tuple is the last attempt
      of a running task, dispatched or not; it is already terminal for any other row of
      the table, and uncertain if there is no such row. */
  lemma CancelAnswers(s: State, ev: Event)
    requires Sound(s.db) && ev.Cancelling? && TimeOk(ev.now) && Remembered(s.db, OpCancel, ev.key).None?
    ensures var r, e := Step(s, ev), ev.e;
            && (r.reply == AckCancelled(e) <==> IsCurrent(s.db, e))
            && (r.reply == AckAlreadyTerminal(e) <==> HasAttempt(s.db, e) && !IsCurrent(s.db, e))
            && (r.reply == AckUncertain <==> !HasAttempt(s.db, e))
            && (IsCurrent(s.db, e) ==>
                  && r.db.tasks == s.db.tasks[e.task := s.db.tasks[e.task].(status := CancelPending)]
                  && NowHolds(s.db, r.db, e, Row(s.db, e).(state := CancelRequested, cancelRequested := true), CancelAsked, ev.now))
            && (!IsCurrent(s.db, e) ==> r.db == s.db.(idem := r.db.idem))
  {
    hide Inv, RequestCancel, IsCurrent, HasAttempt, NowHolds;
    CancelMeans(s.db, s.guards, ev.e, ev.key, ev.now);
  }

  lemma CancelIfActiveAnswers(db: Db, g: map<Tuple, int>, e: Tuple, now: int)
    requires Inv(db) && TimeOk(now)
    ensures var r := RequestCancelIfActive(db, g, e, now);
            && (r.reply == CancelAccepted(e) <==> IsUsable(db, e) && now < db.tasks[e.task].deadlineMs)
            && (r.reply == Failed(CorruptLedger) <==> IsOverflown(db, e))
            && (r.reply == Nothing <==> !IsCurrent(db, e) || (IsUsable(db, e) && now >= db.tasks[e.task].deadlineMs))
            && (r.reply.CancelAccepted? ==>
                  && r.db.tasks == db.tasks[e.task := db.tasks[e.task].(status := CancelPending)]
                  && NowHolds(db, r.db, e, Row(db, e).(state := CancelRequested, cancelRequested := true), CancelAsked, now))
            && (!r.reply.CancelAccepted? ==> r.db == db)
  {
    LookupMeans(db, e);
    hide Inv, PlanChecks, ActiveLookup;
  }

  // ---------- the two fences ----------

  /** The row's wall fence and its monotonic guard, which counts from `seen` if there is
      none yet, have both passed. */
  predicate FencesPassed(g: map<Tuple, int>, e: Tuple, a: Attempt, now: int, seen: int, mono: int)
  {
    a.submitNotBefore == 0
    || (a.submitNotBefore <= now
        && (if e in g then g[e] else seen + (a.submitNotBefore - a.createdAt) * 1_000_000) <= mono)
  }

  lemma ReadinessMeans(db: Db, g: map<Tuple, int>, e: Tuple, now: int, seen: int, mono: int)
    requires Inv(db) && IsCurrent(db, e)
    ensures HasRows(db, e)
    ensures var r := FenceReadiness(g, e, Row(db, e), db.tasks[e.task].deadlineMs, now, seen, mono);
            && !r.BadFence?
            && (r.Ready? <==> FencesPassed(g, e, Row(db, e), now, seen, mono))
            && (r.Wait? ==> r.fence == Row(db, e).submitNotBefore && 1 <= r.retryAfterMs <= 750)
  {
    hide Inv, Live;
    CurrentIsActive(db, e);
    EarlierRows(db, e);
    assert FenceAt(db, e.task, e.epoch);
  }

  // ---------- submit ----------

  /** The call names the row's own provider and plan and leaves time to run. */
  predicate SubmitFits(db: Db, e: Tuple, plan: Plan, provider: ProviderId, attemptDeadline: int, now: int)
    requires HasRows(db, e)
  {
    Row(db, e).provider == provider && db.tasks[e.task].plan == plan && now < attemptDeadline <= db.tasks[e.task].deadlineMs
  }

  lemma PlanHashIsPlan(db: Db, e: Tuple)
    requires Inv(db) && HasRows(db, e)
    ensures db.tasks[e.task].planHash == Sha256(db.tasks[e.task].plan)
    ensures db.tasks[e.task].transitionLimit == db.tasks[e.task].plan.transitionLimit
    ensures db.tasks[e.task].deadlineMs == db.tasks[e.task].plan.deadlineMs
    ensures db.tasks[e.task].budget == db.tasks[e.task].plan.budget
    ensures ValidPlan(e.task, db.tasks[e.task].plan)
  {
    hide Inv, LastOk, FactsOf, ValidPlan;
    LastRow(db, e);
  }

  lemma SubmitMeans(db: Db, g: map<Tuple, int>, e: Tuple, plan: Plan, provider: ProviderId, attemptDeadline: int,
                    key: Option<string>, now: int, seen: int, mono: int)
    requires Inv(db) && ValidPlan(e.task, plan) && TimeOk(attemptDeadline) && TimeOk(now)
    requires key.Some? ==> Remembered(db, OpSubmit, key.value).None?
    ensures IsCurrent(db, e) ==> HasRows(db, e)
    ensures var r := SubmitAttempt(db, g, e, plan, provider, attemptDeadline, key, now, seen, mono);
            if IsOverflown(db, e) then r.reply == Failed(CorruptLedger) && r.db == db
            else if !IsCurrent(db, e) || !SubmitFits(db, e, plan, provider, attemptDeadline, now) then
              r.reply == Rejected(StaleTuple) && r.db == db
            else if FencesPassed(g, e, Row(db, e), now, seen, mono) then
              && r.reply == Submitted(e, provider)
              && NowHolds(db, r.db, e, Row(db, e).(state := Provider(ProviderStarted)), StateChange(ProviderStarted, JObject([])), now)
            else
              && r.reply.NotReady? && r.reply.tuple == e && r.reply.fence == Row(db, e).submitNotBefore
              && 1 <= r.reply.retryAfterMs <= 750 && r.db == db
  {
    hide Inv, PlanChecks, ActiveLookup, FenceReadiness, GuardsAfter, ValidPlan, FencesPassed, IsCurrent, Live, EndedState;
    LookupMeans(db, e);
    if IsCurrent(db, e) {
      ReadinessMeans(db, g, e, now, seen, mono);
      PlanHashIsPlan(db, e);
    }
  }

  /** A fresh, well-formed submit is let through if and only if the tuple is usable, names
      its own provider and plan, ends in time, and both fences have passed. */
  lemma SubmitAnswers(s: State, ev: Event)
    requires Sound(s.db) && ev.Submitting? && ValidPlan(ev.e.task, ev.plan) && TimeOk(ev.attemptDeadline) && TimeOk(ev.now)
    requires ev.token.Some? ==> Remembered(s.db, OpSubmit, ev.token.value).None?
    ensures IsCurrent(s.db, ev.e) ==> HasRows(s.db, ev.e)
    ensures var r, e := Step(s, ev), ev.e;
            && (r.reply.Submitted? <==>
                  && IsUsable(s.db, e) && SubmitFits(s.db, e, ev.plan, ev.provider, ev.attemptDeadline, ev.now)
                  && FencesPassed(s.guards, e, Row(s.db, e), ev.now, ev.seen, ev.mono))
            && (r.reply.NotReady? <==>
                  && IsUsable(s.db, e) && SubmitFits(s.db, e, ev.plan, ev.provider, ev.attemptDeadline, ev.now)
                  && !FencesPassed(s.guards, e, Row(s.db, e), ev.now, ev.seen, ev.mono))
            && (r.reply == Failed(CorruptLedger) <==> IsOverflown(s.db, e))
            && (r.reply.Submitted? ==>
                  && r.reply == Submitted(e, ev.provider)
                  && NowHolds(s.db, r.db, e, Row(s.db, e).(state := Provider(ProviderStarted)),
                              StateChange(ProviderStarted, JObject([])), ev.now))
            && (!r.reply.Submitted? ==> r.db == s.db)
  {
    hide Inv, SubmitAttempt, ValidPlan, FencesPassed, IsCurrent, SubmitFits, NowHolds;
    SubmitMeans(s.db, s.guards, ev.e, ev.plan, ev.provider, ev.attemptDeadline, ev.token, ev.now, ev.seen, ev.mono);
  }

  // ---------- dispatch and tools ----------

  /** The dispatch is marked once, before the deadline and after both fences. */
  lemma DispatchAnswers(db: Db, g: map<Tuple, int>, e: Tuple, now: int, seen: int, mono: int)
    requires Inv(db) && TimeOk(now)
    ensures IsCurrent(db, e) ==> HasRows(db, e)
    ensures var r := MarkDispatch(db, g, e, now, seen, mono);
            if IsOverflown(db, e) then r.reply == Failed(CorruptLedger) && r.db == db
            else if !IsCurrent(db, e) || now >= db.tasks[e.task].deadlineMs || Row(db, e).dispatched then
              r.reply == Nothing && r.db == db
            else if FencesPassed(g, e, Row(db, e), now, seen, mono) then
              r.reply == DispatchMarked(e) && NowHolds(db, r.db, e, Row(db, e).(dispatched := true), Dispatch, now)
            else r.reply.NotReady? && r.reply.tuple == e && r.db == db
  {
    LookupMeans(db, e);
    if IsCurrent(db, e) { ReadinessMeans(db, g, e, now, seen, mono); }
    hide Inv, PlanChecks, ActiveLookup, FenceReadiness, GuardsAfter, FencesPassed, IsCurrent, Live;
  }

  /** A new fence for a usable tuple: too late, too early, or fenced, the first time together
      with the dispatch flag. */
  ghost predicate FencedAs(db: Db, r: Result, g: map<Tuple, int>, e: Tuple, call: string, digest: string, now: int, seen: int, mono: int)
    requires HasRows(db, e)
  {
    if now >= db.tasks[e.task].deadlineMs then r.reply == Rejected(StaleTuple) && r.db == db
    else if !FencesPassed(g, e, Row(db, e), now, seen, mono) then r.reply.NotReady? && r.reply.tuple == e && r.db == db
    else
      && r.db.fences == db.fences[FenceKey(e, call) := digest]
      && (if Row(db, e).dispatched then r.reply == Fenced(e, call) && r.db == db.(fences := r.db.fences)
          else r.reply == FirstFenced(e, call) && NowHolds(db, r.db, e, Row(db, e).(dispatched := true), Dispatch, now))
  }

  lemma ToolOfUsable(db: Db, g: map<Tuple, int>, e: Tuple, call: string, digest: string, now: int, seen: int, mono: int)
    requires TimeOk(now) && FenceKey(e, call) !in db.fences
    requires ActiveLookup(db, e).Found? && HasRows(db, e) && Mutable(Row(db, e).state)
    requires var f := FenceReadiness(g, e, Row(db, e), db.tasks[e.task].deadlineMs, now, seen, mono);
             !f.BadFence? && (f.Ready? <==> FencesPassed(g, e, Row(db, e), now, seen, mono))
    ensures FencedAs(db, AuthorizeTool(db, g, e, call, digest, now, seen, mono), g, e, call, digest, now, seen, mono)
  {
    hide PlanChecks, ActiveLookup, FenceReadiness, GuardsAfter, FencesPassed, Mutable;
  }

  /** A tool call is fenced once: under a stored fence the digest decides; a new one needs
      the usable tuple, time left and both fences. */
  lemma ToolAnswers(db: Db, g: map<Tuple, int>, e: Tuple, call: string, digest: string, now: int, seen: int, mono: int)
    requires Inv(db) && TimeOk(now)
    ensures IsCurrent(db, e) ==> HasRows(db, e)
    ensures var r, k := AuthorizeTool(db, g, e, call, digest, now, seen, mono), FenceKey(e, call);
            if k in db.fences then r.reply == (if db.fences[k] == digest then AlreadyFenced(e, call) else Rejected(ToolIdReused)) && r.db == db
            else if IsOverflown(db, e) then r.reply == Failed(CorruptLedger) && r.db == db
            else if !IsCurrent(db, e) then r.reply == Rejected(StaleTuple) && r.db == db
            else FencedAs(db, r, g, e, call, digest, now, seen, mono)
  {
    hide Inv, PlanChecks, ActiveLookup, FenceReadiness, GuardsAfter, FencesPassed, FencedAs, Put, IsCurrent;
    LookupMeans(db, e);
    if IsUsable(db, e) {
      ReadinessMeans(db, g, e, now, seen, mono);
      if FenceKey(e, call) !in db.fences { ToolOfUsable(db, g, e, call, digest, now, seen, mono); }
    }
  }

  // ---------- admission, observations, events, states, costs ----------

  /** A task is admitted once, with its plan's first provider at that provider's ceiling,
      before the deadline and within the budget; a later or dearer one leaves a tombstone. */
  lemma AdmissionAnswers(db: Db, g: map<Tuple, int>, t: TaskId, plan: Plan, id: AttemptId, now: int)
    requires ValidPlan(t, plan) && TimeOk(now)
    ensures |plan.providers| > 0 && plan.providers[0] in plan.ceilings
    ensures var r, ceiling := CreateInitial(db, g, t, plan, id, now), plan.ceilings[plan.providers[0]];
            if t in db.tasks then r.reply == Failed(TaskExists) && r.db == db
            else if now < plan.deadlineMs && (plan.budget.Some? ==> ceiling <= plan.budget.value) then
              && r.reply == Admitted(Tuple(t, id, 0), plan.providers[0], ceiling)
              && Slot(t, 0) in r.db.attempts
              && r.db.attempts[Slot(t, 0)].provider == plan.providers[0] && r.db.attempts[Slot(t, 0)].reserved == ceiling
              && r.db.tasks[t].status == Running && r.db.tasks[t].reserved == ceiling && r.db.tasks[t].plan == plan
              && r.db.outbox == db.outbox + [Fact(Tuple(t, id, 0), AttemptCreated(plan.providers[0], Sha256(plan)), now)]
            else r.reply == AdmissionRejected && r.db == db.(tasks := r.db.tasks) && r.db.tasks[t].status == RejectedTask
  {
  }

  lemma ObservationAnswers(db: Db, g: map<Tuple, int>, e: Tuple, failure: Failure, key: string,
                           source: Option<FailureSource>, now: int)
    requires Inv(db) && FailureOk(failure) && TimeOk(now) && Remembered(db, OpObservation, key).None?
    ensures IsCurrent(db, e) ==> HasRows(db, e)
    ensures var r := RecordObservation(db, g, e, failure, key, source, now);
            if IsOverflown(db, e) then r.reply == Failed(CorruptLedger) && r.db == db
            else if !IsCurrent(db, e) || now >= db.tasks[e.task].deadlineMs then r.reply == Rejected(StaleTuple) && r.db == db
            else r.reply == Recorded(e, failure, source) && NowHolds(db, r.db, e, Row(db, e), Observed(failure, source), now)
  {
    hide Inv, PlanChecks, ActiveLookup, FailureOk, IsCurrent, Live, Controls, EndedState;
    LookupMeans(db, e);
    if HasRows(db, e) { assert db.attempts == db.attempts[SlotOf(e) := Row(db, e)]; }
  }

  lemma EventAnswers(db: Db, g: map<Tuple, int>, e: Tuple, kind: string, data: CanonicalJson, now: int)
    requires Inv(db) && TimeOk(now)
    ensures IsCurrent(db, e) ==> HasRows(db, e)
    ensures var r := AppendEvent(db, g, e, kind, data, now);
            if IsOverflown(db, e) then r.reply == Failed(CorruptLedger) && r.db == db
            else if !IsCurrent(db, e) || now >= db.tasks[e.task].deadlineMs then r.reply == Nothing && r.db == db
            else r.reply == EventKept(e) && NowHolds(db, r.db, e, Row(db, e), EventAppended(kind, data), now)
  {
    LookupMeans(db, e);
    hide Inv, PlanChecks, ActiveLookup, IsCanonical, IsCurrent, Live;
    if HasRows(db, e) { assert db.attempts == db.attempts[SlotOf(e) := Row(db, e)]; }
  }

  lemma StateAnswers(db: Db, g: map<Tuple, int>, e: Tuple, state: ProviderState, payload: CanonicalJson, now: int)
    requires Inv(db) && TimeOk(now)
    ensures IsCurrent(db, e) ==> HasRows(db, e)
    ensures var r := MutateState(db, g, e, state, payload, now);
            if IsOverflown(db, e) then r.reply == Failed(CorruptLedger) && r.db == db
            else if !IsCurrent(db, e) || now >= db.tasks[e.task].deadlineMs then r.reply == Nothing && r.db == db
            else
              && r.reply == StateKept(e, state)
              && NowHolds(db, r.db, e, Row(db, e).(state := Provider(state)), StateChange(state, payload), now)
  {
    LookupMeans(db, e);
    hide Inv, PlanChecks, ActiveLookup, IsCanonical, IsCurrent, Live;
  }

  /** The task's reservation once attempt e costs `cost`. */
  function AmountWith(db: Db, e: Tuple, cost: Option<int>): int
    requires HasRows(db, e)
  {
    db.tasks[e.task].reserved - Row(db, e).reserved + if cost.Some? then cost.value else Row(db, e).reserved
  }

  /** Known amounts are exact or a delta, unknown ones unavailable. */
  predicate SourceFits(cost: Option<int>, source: Option<CostSource>)
  {
    cost.Some? || source.None? || source == Some(Unavailable)
  }

  lemma AmountsAreNatural(db: Db, e: Tuple)
    requires Inv(db) && HasRows(db, e)
    ensures 0 <= Row(db, e).reserved <= db.tasks[e.task].reserved
    ensures Row(db, e).cost.Some? ==> Row(db, e).reserved == Row(db, e).cost.value && Micro(Row(db, e).cost.value)
  {
    hide Inv, Sum, FactsOf, TaskRowOk, CostOk, LiveOk;
    LastRow(db, e);
    RowSlots(db, e);
    LastReservation(db, e);
    forall i: nat | i <= e.epoch ensures Slot(e.task, i) in db.attempts && Micro(db.attempts[Slot(e.task, i)].reserved) {
      ReservationsInRange(db, e.task, i);
    }
    SumMonotone(db.attempts, e.task, e.epoch, e.epoch + 1);
    SumStep(db.attempts, e.task, e.epoch);
  }

  /** A cost is recorded before the deadline unless a known one would be forgotten. */
  lemma CostAnswers(db: Db, g: map<Tuple, int>, e: Tuple, actual: Option<int>, source: Option<CostSource>, now: int)
    requires Inv(db) && TimeOk(now) && (actual.Some? ==> Micro(actual.value))
    ensures IsCurrent(db, e) ==> HasRows(db, e)
    ensures var r := RecordCost(db, g, e, actual, source, now);
            if IsOverflown(db, e) then r.reply == Failed(CorruptLedger) && r.db == db
            else if !IsCurrent(db, e) || now >= db.tasks[e.task].deadlineMs || (Row(db, e).cost.Some? && actual.None?) then
              r.reply == Nothing && r.db == db
            else if AmountWith(db, e, actual) > SAFE_INTEGER_MAX then r.reply == Failed(CorruptLedger) && r.db == db
            else if !SourceFits(actual, source) then r.reply == Failed(InvalidInput) && r.db == db
            else
              var reserved := if actual.Some? then actual.value else Row(db, e).reserved;
              && r.reply == CostKept(e, actual, reserved)
              && NowHolds(db, r.db, e, Row(db, e).(cost := actual, reserved := reserved), Cost(actual, source), now)
              && r.db.tasks == db.tasks[e.task := db.tasks[e.task].(reserved := AmountWith(db, e, actual))]
  {
    hide Inv, PlanChecks, ActiveLookup, IsCurrent, Live, HasRows, EndedState;
    LookupMeans(db, e);
    if IsCurrent(db, e) { AmountsAreNatural(db, e); }
  }
}
