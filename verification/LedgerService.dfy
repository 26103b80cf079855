/** The ledger object: its tables as fields, each operation one transaction that
    changes them statement by statement. */
module LedgerService {
  import opened Wrappers
  import opened Payload
  import opened LedgerTables
  import opened LedgerChecks
  import opened LedgerWrites
  import opened LedgerCircuit
  import opened SubmitFence
  import opened LedgerOps
  import opened LedgerScans
  import opened LedgerInvariant
  import opened LedgerRuns

  /** A sound database stays sound, and nothing that must last is undone. */
  ghost predicate Preserves(db: Db, db': Db) { Sound(db) ==> Sound(db') && Later(db, db') }

  /** So does every operation of a run. */
  lemma StepPreserves(db: Db, g: map<Tuple, int>, ev: Event)
    ensures Preserves(db, Step(State(db, g), ev).db)
  {
    hide Sound, Later, Step;
    if Sound(db) { StepKeepsSound(State(db, g), ev); }
  }

  class AttemptLedger {
    var tasks: map<TaskId, Task>
    var attempts: map<Slot, Attempt>
    var control: map<TaskId, Control>
    var outbox: seq<Fact>
    var witnesses: seq<Witness>
    var idem: map<IdemKey, IdemRow>
    var fences: map<FenceKey, string>
    var guards: map<Tuple, int>

    function Tables(): Db
      reads this
    {
      Db(tasks, attempts, control, outbox, witnesses, idem, fences)
    }

    /** Every row is the fold of its facts, the index agrees with the log, fences, budgets
        and remembered answers are in order. */
    ghost predicate Valid()
      reads this
    {
      Sound(Tables())
    }

    /** The reply, the tables and the guards are what the operation's function says. */
    predicate Answers(r: Reply, expected: Result)
      reads this
    {
      r == expected.reply && Tables() == expected.db && guards == expected.guards
    }

    constructor ()
      ensures Tables() == EMPTY && guards == map[] && Valid()
    {
      tasks, attempts, control, outbox, witnesses := map[], map[], map[], [], [];
      idem, fences, guards := map[], map[], map[];
      new;
      ReachableIsSound([]);
    }

    /** A new process opens the same database: the volatile guards are gone. */
    method Restart()
      modifies this`guards
      ensures guards == map[] && (old(Valid()) ==> Valid())
    {
      guards := map[];
    }

    /** ROLLBACK to the tables at BEGIN. */
    method Rollback(saved: Db)
      modifies this
      ensures Tables() == saved && guards == old(guards)
    {
      tasks, attempts, control, outbox := saved.tasks, saved.attempts, saved.control, saved.outbox;
      witnesses, idem, fences := saved.witnesses, saved.idem, saved.fences;
    }

    // ---------- statements ----------

    method InsertFact(e: Tuple, body: FactBody, now: int) returns (id: nat)
      modifies this`outbox
      ensures outbox == old(outbox) + [Fact(e, body, now)] && id == |outbox|
    {
      outbox := outbox + [Fact(e, body, now)];
      id := |outbox|;
    }

    method StoreTombstone(plan: Plan, now: int)
      modifies this
      ensures Tables() == Put(old(Tables()), Tombstone(plan, now)) && guards == old(guards)
    {
      tasks := tasks[plan.taskId := FreshTask(plan, RejectedTask, 0, now)];
    }

    method StoreAdmission(plan: Plan, id: AttemptId, now: int)
      requires Applies(Tables(), Admit(plan, id, now))
      modifies this
      ensures Tables() == Put(old(Tables()), Admit(plan, id, now)) && guards == old(guards)
    {
      var t, p := plan.taskId, plan.providers[0];
      tasks := tasks[t := FreshTask(plan, Running, plan.ceilings[p], now)];
      attempts := attempts[Slot(t, 0) := FreshAttempt(id, p, plan.ceilings[p], now, 0)];
      control := control[t := Control(id, 0, ControlActive)];
      var _ := InsertFact(Tuple(t, id, 0), AttemptCreated(p, Sha256(plan)), now);
    }

    method StoreNote(e: Tuple, body: FactBody, now: int)
      requires HasRows(Tables(), e)
      modifies this
      ensures Tables() == Put(old(Tables()), Note(e, body, now)) && guards == old(guards)
    {
      var _ := InsertFact(e, body, now);
    }

    method StoreState(e: Tuple, s: ProviderState, payload: Json, now: int)
      requires HasRows(Tables(), e)
      modifies this
      ensures Tables() == Put(old(Tables()), SetState(e, s, payload, now)) && guards == old(guards)
    {
      attempts := attempts[SlotOf(e) := attempts[SlotOf(e)].(state := Provider(s))];
      var _ := InsertFact(e, StateChange(s, payload), now);
      assert tasks[e.task := tasks[e.task]] == tasks && control[e.task := control[e.task]] == control;
    }

    method StoreDispatch(e: Tuple, now: int)
      requires HasRows(Tables(), e)
      modifies this
      ensures Tables() == Put(old(Tables()), SetDispatch(e, now)) && guards == old(guards)
    {
      attempts := attempts[SlotOf(e) := attempts[SlotOf(e)].(dispatched := true)];
      var _ := InsertFact(e, Dispatch, now);
      assert tasks[e.task := tasks[e.task]] == tasks && control[e.task := control[e.task]] == control;
    }

    method StoreCost(e: Tuple, cost: Option<int>, body: FactBody, now: int)
      requires HasRows(Tables(), e)
      modifies this
      ensures Tables() == Put(old(Tables()), SetCost(e, cost, body, now)) && guards == old(guards)
    {
      var a, task := attempts[SlotOf(e)], tasks[e.task];
      var reserved := if cost.Some? then cost.value else a.reserved;
      attempts := attempts[SlotOf(e) := a.(cost := cost, reserved := reserved)];
      tasks := tasks[e.task := task.(reserved := task.reserved - a.reserved + reserved)];
      var _ := InsertFact(e, body, now);
      assert control[e.task := control[e.task]] == control;
    }

    method StoreCancel(e: Tuple, now: int)
      requires HasAttempt(Tables(), e) && e.task in tasks
      modifies this
      ensures Tables() == Put(old(Tables()), Cancel(e, now)) && guards == old(guards)
    {
      attempts := attempts[SlotOf(e) := attempts[SlotOf(e)].(state := CancelRequested, cancelRequested := true)];
      tasks := tasks[e.task := tasks[e.task].(status := CancelPending)];
      if e.task in control && control[e.task].attempt == e.attempt && control[e.task].epoch == e.epoch
         && control[e.task].status == ControlActive
      {
        control := control[e.task := control[e.task].(status := ControlCancel)];
      }
      var _ := InsertFact(e, CancelAsked, now);
    }

    method StoreFinish(e: Tuple, cost: Option<int>, closing: Option<Failure>, body: FactBody, now: int)
      requires HasRows(Tables(), e) && body.Completion?
      modifies this
      ensures Tables() == Put(old(Tables()), Finish(e, cost, closing, body, now)) && guards == old(guards)
    {
      var a, task := attempts[SlotOf(e)], tasks[e.task];
      var reserved := if cost.Some? then cost.value else a.reserved;
      attempts := attempts[SlotOf(e) := a.(state := TerminalState, closedAt := Some(now),
                                           failure := if closing.Some? then closing else a.failure,
                                           cost := cost, reserved := reserved)];
      tasks := tasks[e.task := task.(status := Done(body.outcome), reserved := task.reserved - a.reserved + reserved)];
      control := control[e.task := control[e.task].(status := ControlTerminal)];
      var _ := InsertFact(e, body, now);
    }

    method StoreOrphan(e: Tuple, now: int)
      requires HasRows(Tables(), e)
      modifies this
      ensures Tables() == Put(old(Tables()), Orphan(e, now)) && guards == old(guards)
    {
      attempts := attempts[SlotOf(e) := attempts[SlotOf(e)].(state := Orphaned, closedAt := Some(now))];
      tasks := tasks[e.task := tasks[e.task].(status := OrphanedTask)];
      control := control[e.task := control[e.task].(status := ControlTerminal)];
      var _ := InsertFact(e, RecoveredBeforeDispatch, now);
    }

    /** Close the predecessor, insert the successor, move the task and active_control,
        append the transition fact and its witness. */
    method StoreSuccessor(e: Tuple, id: AttemptId, provider: ProviderId, failure: Failure, jitter: int,
                          recovered: bool, now: int)
      requires Applies(Tables(), Succeed(e, id, provider, failure, jitter, recovered, now))
      modifies this
      ensures Tables() == Put(old(Tables()), Succeed(e, id, provider, failure, jitter, recovered, now)) && guards == old(guards)
    {
      hide Replacement;
      var a, task := attempts[SlotOf(e)], tasks[e.task];
      var next := Tuple(e.task, id, e.epoch + 1);
      var replacement := Replacement(Tables(), e, provider);
      attempts := attempts[SlotOf(e) := a.(state := Closed, failure := Some(failure), closedAt := Some(now))];
      if recovered { var _ := InsertFact(e, RecoveredBeforeDispatch, now); }
      attempts := attempts[SlotOf(next) := FreshAttempt(id, provider, task.plan.ceilings[provider], now, now + jitter)];
      tasks := tasks[e.task := task.(transitionsUsed := task.transitionsUsed + 1, reserved := replacement)];
      control := control[e.task := Control(id, next.epoch, ControlActive)];
      var transition := InsertFact(next, Transition(e, a.provider, provider, failure), now);
      var record := WitnessRecord(transition, e, a.provider, next, provider, now);
      witnesses := witnesses + [Witness(record, record)];
    }

    method StoreFence(e: Tuple, call: string, digest: string)
      requires HasRows(Tables(), e)
      modifies this
      ensures Tables() == Put(old(Tables()), FenceTool(e, call, digest)) && guards == old(guards)
    {
      fences := fences[FenceKey(e, call) := digest];
    }

    method WriteIdempotency(op: Operation, key: string, e: Tuple, result: Reply)
      modifies this
      ensures Tables() == Remember(old(Tables()), op, key, e, result) && guards == old(guards)
    {
      idem := idem[IdemKey(op, key) := IdemRow(e, result)];
    }

    method WriteIdempotencyIf(op: Operation, key: Option<string>, e: Tuple, result: Reply)
      modifies this
      ensures Tables() == RememberIf(old(Tables()), op, key, e, result) && guards == old(guards)
    {
      if key.Some? { WriteIdempotency(op, key.value, e, result); }
    }

    // ---------- reads ----------

    /** `_active`: the join, then `_checked_plan` on the row. */
    method Active(e: Tuple) returns (r: Lookup)
      ensures r == ActiveLookup(Tables(), e)
    {
      hide PlanChecks;
      if !ActiveRow(Tables(), e) { return Missing; }
      var ok := CheckedPlan(Tables(), e.task, e.epoch);
      return if ok then Found else Corrupt;
    }

    /** `_fence_readiness`: creates the guard on first sight. */
    method CheckFence(e: Tuple, now: int, seen: int, mono: int) returns (r: Readiness)
      requires HasAttempt(Tables(), e) && e.task in tasks
      modifies this`guards
      ensures var a, d := old(Row(Tables(), e)), old(tasks[e.task].deadlineMs);
              r == FenceReadiness(old(guards), e, a, d, now, seen, mono) && guards == GuardsAfter(old(guards), e, a, d, seen)
    {
      var a, d := attempts[SlotOf(e)], tasks[e.task].deadlineMs;
      if !FenceOk(a.submitNotBefore, a.createdAt, d) { return BadFence; }
      if a.submitNotBefore == 0 { return Ready; }
      var guard := seen + (a.submitNotBefore - a.createdAt) * NS_PER_MS;
      if e in guards { guard := guards[e]; }
      guards := guards[e := guard];
      var monoLeft, wallLeft := guard - mono, a.submitNotBefore - now;
      if monoLeft <= 0 && wallLeft <= 0 { return Ready; }
      return Wait(a.submitNotBefore, Max(1, Min(MAX_WAIT_MS, Max(wallLeft, Max(0, CeilMs(monoLeft))))));
    }

    method ReadIdempotency(op: Operation, key: string) returns (r: Option<Reply>)
      ensures r == Remembered(Tables(), op, key)
    {
      return if IdemKey(op, key) in idem then Some(idem[IdemKey(op, key)].result) else None;
    }

    // ---------- admission, submit, dispatch, tools ----------

    method CreateInitial(t: TaskId, plan: Plan, id: AttemptId, now: int) returns (r: Reply)
      modifies this
      ensures Answers(r, old(LedgerOps.CreateInitial(Tables(), guards, t, plan, id, now)))
      ensures Preserves(old(Tables()), Tables())
    {
      hide Preserves, Put, ValidPlan;
      assert Preserves(Tables(), LedgerOps.CreateInitial(Tables(), guards, t, plan, id, now).db) by {
        StepPreserves(Tables(), guards, Creating(t, plan, id, now));
      }
      if !ValidPlan(t, plan) { return Failed(InvalidInput); }
      if !TimeOk(now) { return Failed(CorruptLedger); }
      assert plan.taskId == t && plan.providers != [] && plan.providers[0] in plan.ceilings by { PlanShape(t, plan); }
      var p := plan.providers[0];
      var ceiling := plan.ceilings[p];
      var refused := now >= plan.deadlineMs || (plan.budget.Some? && plan.budget.value < ceiling);
      if t in tasks { return Failed(TaskExists); }
      if refused {
        StoreTombstone(plan, now);
        return AdmissionRejected;
      }
      StoreAdmission(plan, id, now);
      return Admitted(Tuple(t, id, 0), p, ceiling);
    }

    method SubmitFound(e: Tuple, plan: Plan, provider: ProviderId, attemptDeadline: int, key: Option<string>,
                       now: int, seen: int, mono: int) returns (r: Reply)
      requires HasRows(Tables(), e)
      modifies this
      ensures Answers(r, old(LedgerOps.SubmitFound(Tables(), guards, e, plan, provider, attemptDeadline, key, now, seen, mono)))
    {
      hide SubmitNow, FenceReadiness, GuardsAfter;
      var a, task := attempts[SlotOf(e)], tasks[e.task];
      if a.provider != provider || Sha256(plan) != task.planHash || attemptDeadline > task.deadlineMs || attemptDeadline <= now {
        return Rejected(StaleTuple);
      }
      var readiness := CheckFence(e, now, seen, mono);
      if readiness.BadFence? { return Failed(CorruptLedger); }
      if readiness.Wait? { return NotReady(e, readiness.fence, readiness.retryAfterMs); }
      r := StoreSubmission(e, provider, key, now);
    }

    method SubmitAttempt(e: Tuple, plan: Plan, provider: ProviderId, attemptDeadline: int, key: Option<string>,
                         now: int, seen: int, mono: int) returns (r: Reply)
      modifies this
      ensures Answers(r, old(LedgerOps.SubmitAttempt(Tables(), guards, e, plan, provider, attemptDeadline, key, now, seen, mono)))
      ensures Preserves(old(Tables()), Tables())
    {
      hide Preserves, LedgerOps.SubmitFound, ValidPlan, PlanChecks;
      assert Preserves(Tables(), LedgerOps.SubmitAttempt(Tables(), guards, e, plan, provider, attemptDeadline, key, now, seen, mono).db) by {
        StepPreserves(Tables(), guards, Submitting(e, plan, provider, attemptDeadline, key, now, seen, mono));
      }
      if !ValidPlan(e.task, plan) || !TimeOk(attemptDeadline) { return Rejected(BadInput); }
      if !TimeOk(now) { return Failed(CorruptLedger); }
      if key.Some? {
        var prior := ReadIdempotency(OpSubmit, key.value);
        if prior.Some? { return Duplicate(prior.value); }
      }
      var row := Active(e);
      if row.Corrupt? { return Failed(CorruptLedger); }
      if row.Missing? { return Rejected(StaleTuple); }
      r := SubmitFound(e, plan, provider, attemptDeadline, key, now, seen, mono);
    }

    method StoreSubmission(e: Tuple, provider: ProviderId, key: Option<string>, now: int) returns (r: Reply)
      requires HasRows(Tables(), e)
      modifies this
      ensures Answers(r, old(SubmitNow(Tables(), guards, e, provider, key, now)))
    {
      hide Put, RememberIf;
      StoreState(e, ProviderStarted, JObject([]), now);
      r := Submitted(e, provider);
      WriteIdempotencyIf(OpSubmit, key, e, r);
    }

    method MarkDispatchAttempted(e: Tuple, now: int, seen: int, mono: int) returns (r: Reply)
      modifies this
      ensures Answers(r, old(MarkDispatch(Tables(), guards, e, now, seen, mono)))
      ensures Preserves(old(Tables()), Tables())
    {
      hide Preserves, Put, PlanChecks, FenceReadiness, GuardsAfter;
      assert Preserves(Tables(), MarkDispatch(Tables(), guards, e, now, seen, mono).db) by {
        StepPreserves(Tables(), guards, Dispatching(e, now, seen, mono));
      }
      if !TimeOk(now) { return Failed(CorruptLedger); }
      var row := Active(e);
      if row.Corrupt? { return Failed(CorruptLedger); }
      if row.Missing? { return Nothing; }
      if now >= tasks[e.task].deadlineMs || attempts[SlotOf(e)].dispatched { return Nothing; }
      var readiness := CheckFence(e, now, seen, mono);
      if readiness.BadFence? { return Failed(CorruptLedger); }
      if readiness.Wait? { return NotReady(e, readiness.fence, readiness.retryAfterMs); }
      StoreDispatch(e, now);
      return DispatchMarked(e);
    }

    method AuthorizeToolForward(e: Tuple, call: string, digest: string, now: int, seen: int, mono: int) returns (r: Reply)
      modifies this
      ensures Answers(r, old(AuthorizeTool(Tables(), guards, e, call, digest, now, seen, mono)))
      ensures Preserves(old(Tables()), Tables())
    {
      hide Preserves, Put, PlanChecks, FenceReadiness, GuardsAfter;
      assert Preserves(Tables(), AuthorizeTool(Tables(), guards, e, call, digest, now, seen, mono).db) by {
        StepPreserves(Tables(), guards, FencingTool(e, call, digest, now, seen, mono));
      }
      if !TimeOk(now) { return Failed(CorruptLedger); }
      if FenceKey(e, call) in fences {
        return if fences[FenceKey(e, call)] == digest then AlreadyFenced(e, call) else Rejected(ToolIdReused);
      }
      var row := Active(e);
      if row.Corrupt? { return Failed(CorruptLedger); }
      if row.Missing? { return Rejected(StaleTuple); }
      if now >= tasks[e.task].deadlineMs || !Mutable(attempts[SlotOf(e)].state) { return Rejected(StaleTuple); }
      var readiness := CheckFence(e, now, seen, mono);
      if readiness.BadFence? { return Failed(CorruptLedger); }
      if readiness.Wait? { return NotReady(e, readiness.fence, readiness.retryAfterMs); }
      var dispatched := attempts[SlotOf(e)].dispatched;
      FenceThenDispatch(Tables(), e, call, digest, now);
      StoreFence(e, call, digest);
      if dispatched { return Fenced(e, call); }
      StoreDispatch(e, now);
      return FirstFenced(e, call);
    }

    // ---------- observations, events, states, costs ----------

    method RecordObservation(e: Tuple, failure: Failure, key: string, source: Option<FailureSource>, now: int) returns (r: Reply)
      modifies this
      ensures Answers(r, old(LedgerOps.RecordObservation(Tables(), guards, e, failure, key, source, now)))
      ensures Preserves(old(Tables()), Tables())
    {
      hide Preserves, Put, PlanChecks, FailureOk;
      assert Preserves(Tables(), LedgerOps.RecordObservation(Tables(), guards, e, failure, key, source, now).db) by {
        StepPreserves(Tables(), guards, Observing(e, failure, key, source, now));
      }
      if !FailureOk(failure) { return Rejected(BadInput); }
      if !TimeOk(now) { return Failed(CorruptLedger); }
      var prior := ReadIdempotency(OpObservation, key);
      if prior.Some? {
        var stored := StoredObservation(prior.value);
        return if stored.None? then Failed(MissingField) else AlreadyRecorded(stored.value);
      }
      var row := Active(e);
      if row.Corrupt? { return Failed(CorruptLedger); }
      if row.Missing? || now >= tasks[e.task].deadlineMs { return Rejected(StaleTuple); }
      StoreNote(e, Observed(failure, source), now);
      r := Recorded(e, failure, source);
      WriteIdempotency(OpObservation, key, e, r);
    }

    method AppendEventIfActive(e: Tuple, kind: string, data: CanonicalJson, now: int) returns (r: Reply)
      modifies this
      ensures Answers(r, old(AppendEvent(Tables(), guards, e, kind, data, now)))
      ensures Preserves(old(Tables()), Tables())
    {
      hide Preserves, Put, PlanChecks;
      assert Preserves(Tables(), AppendEvent(Tables(), guards, e, kind, data, now).db) by {
        StepPreserves(Tables(), guards, Appending(e, kind, data, now));
      }
      if !TimeOk(now) { return Failed(CorruptLedger); }
      var row := Active(e);
      if row.Corrupt? { return Failed(CorruptLedger); }
      if row.Missing? || now >= tasks[e.task].deadlineMs { return Nothing; }
      StoreNote(e, EventAppended(kind, data), now);
      return EventKept(e);
    }

    method MutateStateIfActive(e: Tuple, state: ProviderState, payload: CanonicalJson, now: int) returns (r: Reply)
      modifies this
      ensures Answers(r, old(MutateState(Tables(), guards, e, state, payload, now)))
      ensures Preserves(old(Tables()), Tables())
    {
      hide Preserves, Put, PlanChecks;
      assert Preserves(Tables(), MutateState(Tables(), guards, e, state, payload, now).db) by {
        StepPreserves(Tables(), guards, Mutating(e, state, payload, now));
      }
      if !TimeOk(now) { return Failed(CorruptLedger); }
      var row := Active(e);
      if row.Corrupt? { return Failed(CorruptLedger); }
      if row.Missing? || now >= tasks[e.task].deadlineMs { return Nothing; }
      StoreState(e, state, payload, now);
      return StateKept(e, state);
    }

    method RecordCostIfActive(e: Tuple, actual: Option<int>, source: Option<CostSource>, now: int) returns (r: Reply)
      modifies this
      ensures Answers(r, old(RecordCost(Tables(), guards, e, actual, source, now)))
      ensures Preserves(old(Tables()), Tables())
    {
      hide Preserves, Put, PlanChecks;
      assert Preserves(Tables(), RecordCost(Tables(), guards, e, actual, source, now).db) by {
        StepPreserves(Tables(), guards, Costing(e, actual, source, now));
      }
      if actual.Some? && !Micro(actual.value) { return Failed(InvalidInput); }
      if !TimeOk(now) { return Failed(CorruptLedger); }
      var saved := Tables();
      var row := Active(e);
      if row.Corrupt? { return Failed(CorruptLedger); }
      if row.Missing? { return Nothing; }
      var a, task := attempts[SlotOf(e)], tasks[e.task];
      if now >= task.deadlineMs || (a.cost.Some? && actual.None?) { return Nothing; }
      var reserved := if actual.Some? then actual.value else a.reserved;
      if !Micro(task.reserved - a.reserved + reserved) { return Failed(CorruptLedger); }
      StoreCost(e, actual, Cost(actual, source), now);
      if !CostPayloadOk(actual, source) {
        Rollback(saved);
        return Failed(InvalidInput);
      }
      return CostKept(e, actual, reserved);
    }

    // ---------- cost evidence ----------

    method LatestSource(e: Tuple) returns (r: Option<CostSource>)
      ensures r == LatestCostSource(outbox, e)
    {
      var costs := CostFacts(e);
      if costs == [] { return None; }
      return match costs[|costs| - 1]
             case Cost(_, s) => s
             case _ => None;
    }

    /** SELECT the cost facts of one attempt, in outbox order. */
    method CostFacts(e: Tuple) returns (costs: seq<FactBody>)
      ensures costs == FactsOf(outbox, e).costs
    {
      hide FactsOf;
      costs := [];
      NoFactsOf([], e);
      for i := 0 to |outbox|
        invariant costs == FactsOf(outbox[..i], e).costs
      {
        assert outbox[..i + 1] == outbox[..i] + [outbox[i]];
        FactsOfAppend(outbox[..i], outbox[i], e);
        if outbox[i].key == e && outbox[i].body.Cost? { costs := costs + [outbox[i].body]; }
      }
      assert outbox[..|outbox|] == outbox;
    }

    /** One pass over the cost facts: do the known amounts agree with each other and with
        the evidence, and does one carry the evidence already? */
    method CompareCosts(costs: seq<FactBody>, actual: Option<int>) returns (agree: bool, compatible: bool)
      requires forall i | 0 <= i < |costs| :: costs[i].Cost?
      ensures agree <==> !CostsDisagree(costs, actual)
      ensures compatible <==> CostCompatible(costs, actual)
    {
      var amount: Option<int> := None;
      agree, compatible := true, false;
      for i := 0 to |costs|
        invariant compatible <==> exists j | 0 <= j < i :: costs[j].actual == actual
        invariant agree ==> forall j | 0 <= j < i && costs[j].actual.Some? :: costs[j].actual == amount
        invariant amount.Some? <==> exists j | 0 <= j < i :: costs[j].actual.Some?
        invariant amount.Some? ==> exists j | 0 <= j < i :: costs[j].actual == amount
        invariant !agree ==> exists j, k | 0 <= j < i && 0 <= k < i ::
                               costs[j].actual.Some? && costs[k].actual.Some? && costs[j].actual != costs[k].actual
      {
        if costs[i].actual.Some? {
          if amount.Some? && amount != costs[i].actual { agree := false; }
          if amount.None? { amount := costs[i].actual; }
        }
        if costs[i].actual == actual { compatible := true; }
      }
      if amount.Some? && actual.Some? && amount != actual { agree := false; }
      ghost var known := forall i | 0 <= i < |costs| :: KnownCost(costs[i]) <==> costs[i].actual.Some?;
      assert known;
    }

    /** `_apply_cost_evidence_locked`: false when it raises, the tables then being whatever
        the caller rolls back. */
    method ApplyCostEvidence(e: Tuple, ev: Evidence, now: int, allowCancel: bool) returns (ok: bool)
      requires HasRows(Tables(), e)
      modifies this
      ensures guards == old(guards)
      ensures old(ApplyEvidence(Tables(), e, ev, now, allowCancel)) == if ok then Some(Tables()) else None
    {
      hide Put, PlanChecks, FactsOf, CostsDisagree, CostCompatible;
      var a, task := attempts[SlotOf(e)], tasks[e.task];
      var costs := CostFacts(e);
      CostFactsAreListed(outbox, e);
      var agree, compatible := CompareCosts(costs, ev.actual);
      if !agree || (a.cost.Some? && ev.actual.Some? && a.cost != ev.actual) { return false; }
      var final := if a.cost.Some? then a.cost else ev.actual;
      var reserved := if final.Some? then final.value else a.reserved;
      if !Micro(task.reserved - a.reserved + reserved) { return false; }
      if !compatible || final != a.cost {
        if !Mutable(a.state) || (a.cancelRequested && !allowCancel) { return false; }
        if task.status != Running && !(allowCancel && task.status == CancelPending) { return false; }
        StoreCost(e, final, Cost(ev.actual, Some(ev.source)), now);
      }
      var refreshed := Active(e);
      return refreshed.Found? || (refreshed.Missing? && allowCancel);
    }

    // ---------- transitions ----------

    /** `_transition_precheck_locked` */
    method Precheck(e: Tuple, successor: ProviderId, jitter: int, planHash: Option<PlanHash>, now: int) returns (r: LedgerOps.Precheck)
      ensures r == TransitionPrecheck(Tables(), e, successor, jitter, planHash, now)
    {
      hide PlanChecks, CircuitOpen, Replacement, IndexOf;
      var row := Active(e);
      if row.Corrupt? { return PreCorrupt; }
      if row.Missing? { return PreStale; }
      var a, task := attempts[SlotOf(e)], tasks[e.task];
      if planHash.Some? && planHash.value != task.planHash { return PreRefused(PlanMismatch); }
      if a.dispatched { return PreRefused(AlreadyDispatched); }
      if now + jitter >= task.deadlineMs { return PreRefused(DeadlineExpired); }
      if task.transitionsUsed >= task.transitionLimit { return PreRefused(LimitReached); }
      var providers := task.plan.providers;
      FoundPlan(Tables(), e);
      if successor !in providers { return PreRefused(OrderInvalid); }
      if IndexOf(providers, successor) <= IndexOf(providers, a.provider) { return PreRefused(OrderInvalid); }
      var open := ScanCircuit(Tables(), a.provider, now, providers);
      if open.None? { return PreCorrupt; }
      if open.value { return PreRefused(CircuitIsOpen); }
      var replacement := Replacement(Tables(), e, successor);
      if !Micro(replacement) { return PreCorrupt; }
      if task.budget.Some? && replacement > task.budget.value { return PreRefused(BudgetUnavailable); }
      return PreEligible;
    }

    /** `_apply_transition_locked` up to the result */
    method ApplyTransition(e: Tuple, id: AttemptId, successor: ProviderId, failure: Failure, jitter: int,
                           recovered: bool, now: int, mono: int)
      requires Applies(Tables(), Succeed(e, id, successor, failure, jitter, recovered, now))
      modifies this
      ensures Tables() == Put(old(Tables()), Succeed(e, id, successor, failure, jitter, recovered, now))
      ensures guards == GuardsWithSuccessor(old(guards), SuccessorOf(e, id), jitter, mono)
    {
      hide Put;
      StoreSuccessor(e, id, successor, failure, jitter, recovered, now);
      guards := guards[SuccessorOf(e, id) := mono + jitter * NS_PER_MS];
    }

    method StoreTransition(e: Tuple, successor: ProviderId, failure: Failure, delay: int, key: Option<string>,
                           id: AttemptId, now: int, mono: int) returns (r: Reply)
      requires HasRows(Tables(), e) && successor in tasks[e.task].plan.ceilings
      modifies this
      ensures Answers(r, old(ApplyOnce(Tables(), guards, e, successor, failure, delay, key, id, now, mono)))
    {
      hide Put, RememberIf;
      r := Transitioned(SuccessorOf(e, id), successor, tasks[e.task].plan.ceilings[successor], now + delay, None, None);
      ApplyTransition(e, id, successor, failure, delay, false, now, mono);
      WriteIdempotencyIf(OpTransition, key, e, r);
    }

    method TransitionOnce(e: Tuple, successor: ProviderId, failure: Failure, jitter: int, planHash: Option<PlanHash>,
                          key: Option<string>, id: AttemptId, now: int, mono: int) returns (r: Reply)
      modifies this
      ensures Answers(r, old(LedgerOps.TransitionOnce(Tables(), guards, e, successor, failure, jitter, planHash, key, id, now, mono)))
      ensures Preserves(old(Tables()), Tables())
    {
      hide Preserves, ApplyOnce, PlanChecks, TransitionPrecheck, FailureOk, Durable, IndexOf;
      assert Preserves(Tables(), LedgerOps.TransitionOnce(Tables(), guards, e, successor, failure, jitter, planHash, key, id, now, mono).db) by {
        StepPreserves(Tables(), guards, Transitioning(e, successor, failure, jitter, planHash, key, id, now, mono));
      }
      if !FailureOk(failure) { return Failed(InvalidInput); }
      if failure.kind != Retryable { return Nothing; }
      var delay := DirectJitter(jitter, planHash.None? && key.None?);
      if delay.None? { return Nothing; }
      if !TimeOk(now) { return Failed(CorruptLedger); }
      if key.Some? {
        var prior := ReadIdempotency(OpTransition, key.value);
        if prior.Some? {
          var again := Durable(Tables(), prior.value);
          return if again.None? then Failed(CorruptLedger) else again.value;
        }
      }
      var check := Precheck(e, successor, delay.value, planHash, now);
      if check.PreCorrupt? { return Failed(CorruptLedger); }
      if !check.PreEligible? { return Nothing; }
      FoundPlan(Tables(), e);
      r := StoreTransition(e, successor, failure, delay.value, key, id, now, mono);
    }

    // ---------- the fused transition ----------

    /** `_observation_binding_matches` */
    method BindingMatches(key: string, e: Tuple, failure: Failure, source: FailureSource) returns (ok: bool)
      ensures ok <==> ObservationBound(Tables(), key, e, failure, source)
    {
      if IdemKey(OpObservation, key) !in idem || idem[IdemKey(OpObservation, key)] != IdemRow(e, Recorded(e, failure, Some(source))) {
        return false;
      }
      for i := 0 to |outbox|
        invariant forall j | 0 <= j < i :: !(outbox[j].key == e && outbox[j].body == Observed(failure, Some(source)))
      {
        if outbox[i].key == e && outbox[i].body == Observed(failure, Some(source)) { return true; }
      }
      return false;
    }

    method StoreObservationOnce(e: Tuple, failure: Failure, source: FailureSource, key: string, now: int)
      requires HasRows(Tables(), e)
      modifies this
      ensures Tables() == ObserveOnce(old(Tables()), e, failure, source, key, now) && guards == old(guards)
    {
      hide Put;
      var prior := ReadIdempotency(OpObservation, key);
      if prior.None? {
        StoreNote(e, Observed(failure, Some(source)), now);
        WriteIdempotency(OpObservation, key, e, Recorded(e, failure, Some(source)));
      }
    }

    method StoreRefusal(e: Tuple, failure: Failure, source: FailureSource, obsKey: string, key: string,
                        reason: Reason, now: int) returns (r: Reply)
      requires HasRows(Tables(), e)
      modifies this
      ensures Answers(r, old(KeepObservation(Tables(), guards, e, failure, source, obsKey, key, reason, now)))
    {
      hide ObserveOnce, Put;
      StoreObservationOnce(e, failure, source, obsKey, now);
      r := ObservationRecorded(e, failure, Some(source), reason, Some(obsKey));
      WriteIdempotency(OpTransition, key, e, r);
    }

    method StoreFused(e: Tuple, successor: ProviderId, failure: Failure, source: FailureSource, jitter: int,
                      obsKey: string, key: string, id: AttemptId, now: int, mono: int) returns (r: Reply)
      requires HasRows(Tables(), e) && successor in tasks[e.task].plan.ceilings
      modifies this
      ensures Answers(r, old(FusedApply(Tables(), guards, e, successor, failure, source, jitter, obsKey, key, id, now, mono)))
    {
      hide ObserveOnce, Put;
      StoreObservationOnce(e, failure, source, obsKey, now);
      r := Transitioned(SuccessorOf(e, id), successor, tasks[e.task].plan.ceilings[successor], now + jitter, Some(obsKey), Some(source));
      ApplyTransition(e, id, successor, failure, jitter, false, now, mono);
      WriteIdempotency(OpTransition, key, e, r);
    }

    method FusedFresh(e: Tuple, successor: ProviderId, failure: Failure, source: FailureSource, jitter: int,
                      planHash: PlanHash, obsKey: string, key: string, ev: Option<Evidence>,
                      id: AttemptId, now: int, mono: int) returns (r: Reply)
      modifies this
      ensures Answers(r, old(LedgerOps.FusedFresh(Tables(), guards, e, successor, failure, source, jitter, planHash, obsKey, key, ev, id, now, mono)))
    {
      hide PlanChecks, TransitionPrecheck, ApplyEvidence, KeepObservation, FusedApply, ActiveLookup;
      var check := Precheck(e, successor, jitter, Some(planHash), now);
      if check.PreCorrupt? { return Failed(CorruptLedger); }
      if check.PreStale? { return Rejected(StaleTuple); }
      if check.PreRefused? && !Soft(check.reason) { return Rejected(check.reason); }
      var saved := Tables();
      if ev.Some? {
        var ok := ApplyCostEvidence(e, ev.value, now, false);
        if !ok {
          Rollback(saved);
          return Failed(CorruptLedger);
        }
        if check.PreEligible? {
          check := Precheck(e, successor, jitter, Some(planHash), now);
          if check.PreCorrupt? {
            Rollback(saved);
            return Failed(CorruptLedger);
          }
          if check.PreStale? { return Rejected(StaleTuple); }
          if check.PreRefused? && !Soft(check.reason) { return Rejected(check.reason); }
        }
      }
      if check.PreRefused? {
        r := StoreRefusal(e, failure, source, obsKey, key, check.reason, now);
      } else {
        FoundPlan(Tables(), e);
        r := StoreFused(e, successor, failure, source, jitter, obsKey, key, id, now, mono);
      }
    }

    /** `record_retryable_observation_and_transition_once` */
    method ObserveAndTransitionOnce(e: Tuple, successor: ProviderId, failure: Failure, source: FailureSource, jitter: int,
                                    planHash: PlanHash, obsKey: string, key: string, ev: Option<Evidence>,
                                    id: AttemptId, now: int, mono: int) returns (r: Reply)
      modifies this
      ensures Answers(r, old(FusedTransition(Tables(), guards, e, successor, failure, source, jitter, planHash, obsKey, key, ev, id, now, mono)))
      ensures Preserves(old(Tables()), Tables())
    {
      hide Preserves, LedgerOps.FusedFresh, FailureOk, Durable, ObservationBound, EvidenceOk;
      assert Preserves(Tables(), FusedTransition(Tables(), guards, e, successor, failure, source, jitter, planHash, obsKey, key, ev, id, now, mono).db) by {
        StepPreserves(Tables(), guards, Fusing(e, successor, failure, source, jitter, planHash, obsKey, key, ev, id, now, mono));
      }
      if !FailureOk(failure) { return Failed(InvalidInput); }
      if failure.kind != Retryable || failure.code == PreDispatchTimeout { return Rejected(BadInput); }
      if obsKey == key || !(250 <= jitter <= 750) || !EvidenceOk(ev) { return Rejected(BadInput); }
      if !TimeOk(now) { return Failed(CorruptLedger); }
      var bound := BindingMatches(obsKey, e, failure, source);
      var prior := ReadIdempotency(OpTransition, key);
      if prior.Some? {
        if BoundObservation(prior.value) != Some(obsKey) || !bound { return Rejected(MissingObservation); }
        var again := Durable(Tables(), prior.value);
        return if again.None? then Failed(CorruptLedger) else Duplicate(again.value);
      }
      var observed := ReadIdempotency(OpObservation, obsKey);
      if observed.Some? && !bound { return Rejected(ObservationMismatch); }
      r := FusedFresh(e, successor, failure, source, jitter, planHash, obsKey, key, ev, id, now, mono);
    }

    // ---------- recovery ----------

    method CloseUncertain(e: Tuple, key: string, now: int) returns (r: Reply)
      requires HasRows(Tables(), e)
      modifies this
      ensures Answers(r, old(RecoverUncertain(Tables(), guards, e, key, now)))
    {
      hide Put, CostPayloadOk, LatestCostSource;
      var cost := attempts[SlotOf(e)].cost;
      var source := LatestSource(e);
      if !CostPayloadOk(cost, source) { return Failed(InvalidInput); }
      StoreFinish(e, cost, None, Completion(DoneUncertain, cost, source), now);
      r := RecoveredTerminal(e);
      WriteIdempotency(OpRecovery, key, e, r);
    }

    method MoveOn(e: Tuple, key: string, delay: int, f: Failure, asked: Option<ProviderId>,
                  id: AttemptId, now: int, mono: int) returns (r: Reply)
      requires ActiveLookup(Tables(), e).Found?
      modifies this
      ensures Answers(r, old(RecoverForward(Tables(), guards, e, key, delay, f, asked, id, now, mono)))
    {
      hide Put, PlanChecks, CircuitOpen, Replacement, IndexOf, RecoveryTarget;
      var a, task := attempts[SlotOf(e)], tasks[e.task];
      if now + delay >= task.deadlineMs || task.transitionsUsed >= task.transitionLimit { return Rejected(RecoveryBarrier); }
      FoundPlan(Tables(), e);
      var target := RecoveryTarget(task.plan.providers, a.provider, asked);
      if target.None? { return Rejected(RecoveryBarrier); }
      TargetInPlan(task.plan.providers, a.provider, asked);
      var open := ScanCircuit(Tables(), a.provider, now, task.plan.providers);
      if open.None? { return Failed(CorruptLedger); }
      if open.value { return Rejected(RecoveryBarrier); }
      if task.budget.Some? && Replacement(Tables(), e, target.value) > task.budget.value { return Rejected(BudgetUnavailable); }
      ApplyTransition(e, id, target.value, f, delay, true, now, mono);
      r := Recovered(SuccessorOf(e, id), target.value, now + delay);
      WriteIdempotency(OpRecovery, key, e, r);
    }

    method RecoverAndTransitionOnce(e: Tuple, key: string, jitter: int, failure: Option<Failure>, asked: Option<ProviderId>,
                                    id: AttemptId, now: int, mono: int) returns (r: Reply)
      modifies this
      ensures Answers(r, old(RecoverAndTransition(Tables(), guards, e, key, jitter, failure, asked, id, now, mono)))
      ensures Preserves(old(Tables()), Tables())
    {
      hide Preserves, PlanChecks, FailureOk, Durable, RecoverUncertain, RecoverForward;
      assert Preserves(Tables(), RecoverAndTransition(Tables(), guards, e, key, jitter, failure, asked, id, now, mono).db) by {
        StepPreserves(Tables(), guards, Recovering(e, key, jitter, failure, asked, id, now, mono));
      }
      var f := if failure.Some? then failure.value else PRE_DISPATCH_TIMEOUT;
      var delay := DirectJitter(jitter, failure.None? && asked.None?);
      if delay.None? { return Rejected(BadInput); }
      if !FailureOk(f) { return Failed(InvalidInput); }
      if f.kind != Retryable { return Rejected(BadInput); }
      if !TimeOk(now) { return Failed(CorruptLedger); }
      var prior := ReadIdempotency(OpRecovery, key);
      if prior.Some? {
        var again := Durable(Tables(), prior.value);
        return if again.None? then Failed(CorruptLedger) else again.value;
      }
      var row := Active(e);
      if row.Corrupt? { return Failed(CorruptLedger); }
      if row.Missing? { return Rejected(StaleTuple); }
      if attempts[SlotOf(e)].dispatched || now >= tasks[e.task].deadlineMs {
        r := CloseUncertain(e, key, now);
      } else {
        r := MoveOn(e, key, delay.value, f, asked, id, now, mono);
      }
    }

    method RecoverPreDispatch(e: Tuple, now: int) returns (r: Reply)
      modifies this
      ensures Answers(r, old(LedgerOps.RecoverPreDispatch(Tables(), guards, e, now)))
      ensures Preserves(old(Tables()), Tables())
    {
      hide Preserves, Put, PlanChecks, CostPayloadOk, LatestCostSource;
      assert Preserves(Tables(), LedgerOps.RecoverPreDispatch(Tables(), guards, e, now).db) by {
        StepPreserves(Tables(), guards, RecoveringBeforeDispatch(e, now));
      }
      if !TimeOk(now) { return Failed(CorruptLedger); }
      var row := Active(e);
      if row.Corrupt? { return Failed(CorruptLedger); }
      if row.Missing? { return Nothing; }
      var a, task := attempts[SlotOf(e)], tasks[e.task];
      if a.submitNotBefore != 0 && !a.dispatched && now < task.deadlineMs { return PendingSubmit(e, a.submitNotBefore); }
      if a.dispatched || now >= task.deadlineMs {
        var source := LatestSource(e);
        if !CostPayloadOk(a.cost, source) { return Failed(InvalidInput); }
        StoreFinish(e, a.cost, None, Completion(DoneUncertain, a.cost, source), now);
        return ClosedTerminal(e, DoneUncertain, None);
      }
      StoreOrphan(e, now);
      return OrphanedReply(e);
    }

    // ---------- cancel and termination ----------

    method RequestCancel(e: Tuple, key: string, now: int) returns (r: Reply)
      modifies this
      ensures Answers(r, old(LedgerOps.RequestCancel(Tables(), guards, e, key, now)))
      ensures Preserves(old(Tables()), Tables())
    {
      hide Preserves, Put;
      assert Preserves(Tables(), LedgerOps.RequestCancel(Tables(), guards, e, key, now).db) by {
        StepPreserves(Tables(), guards, Cancelling(e, key, now));
      }
      if !TimeOk(now) { return Failed(CorruptLedger); }
      var prior := ReadIdempotency(OpCancel, key);
      if prior.Some? { return prior.value; }
      if !HasAttempt(Tables(), e) || e.task !in tasks { return AckUncertain; }
      var a := attempts[SlotOf(e)];
      if tasks[e.task].status != Running || a.cancelRequested || EndedState(a.state) {
        r := AckAlreadyTerminal(e);
      } else {
        StoreCancel(e, now);
        r := AckCancelled(e);
      }
      WriteIdempotency(OpCancel, key, e, r);
    }

    method RequestCancelIfActive(e: Tuple, now: int) returns (r: Reply)
      modifies this
      ensures Answers(r, old(LedgerOps.RequestCancelIfActive(Tables(), guards, e, now)))
      ensures Preserves(old(Tables()), Tables())
    {
      hide Preserves, Put, PlanChecks;
      assert Preserves(Tables(), LedgerOps.RequestCancelIfActive(Tables(), guards, e, now).db) by {
        StepPreserves(Tables(), guards, CancellingIfActive(e, now));
      }
      if !TimeOk(now) { return Failed(CorruptLedger); }
      var row := Active(e);
      if row.Corrupt? { return Failed(CorruptLedger); }
      if row.Missing? || now >= tasks[e.task].deadlineMs { return Nothing; }
      StoreCancel(e, now);
      return CancelAccepted(e);
    }

    method CompleteIfActive(e: Tuple, outcome: Outcome, actual: Option<int>, source: Option<CostSource>, now: int) returns (r: Reply)
      modifies this
      ensures Answers(r, old(Complete(Tables(), guards, e, outcome, actual, source, now)))
      ensures Preserves(old(Tables()), Tables())
    {
      hide Preserves, Put, PlanChecks, CostPayloadOk, LatestCostSource;
      assert Preserves(Tables(), Complete(Tables(), guards, e, outcome, actual, source, now).db) by {
        StepPreserves(Tables(), guards, Completing(e, outcome, actual, source, now));
      }
      if actual.Some? && !Micro(actual.value) { return Failed(InvalidInput); }
      if !TimeOk(now) { return Failed(CorruptLedger); }
      var row := Active(e);
      if row.Corrupt? { return Failed(CorruptLedger); }
      if row.Missing? { return Nothing; }
      var a, task := attempts[SlotOf(e)], tasks[e.task];
      if now >= task.deadlineMs { return Nothing; }
      var final := if actual.Some? then actual else a.cost;
      if !Micro(task.reserved - a.reserved + Reservation(a, final)) { return Failed(CorruptLedger); }
      var mark := source;
      if mark.None? { mark := LatestSource(e); }
      if !CostPayloadOk(final, mark) { return Failed(InvalidInput); }
      StoreFinish(e, final, None, Completion(outcome, final, mark), now);
      return ClosedTerminal(e, outcome, None);
    }

    /** The failure observation, the close and the completion fact of a terminal
        observation, or the exception. */
    method StoreClose(e: Tuple, outcome: Outcome, failure: Option<Failure>, failureSource: Option<FailureSource>,
                      reported: Option<int>, source: Option<CostSource>, now: int) returns (fault: Option<Fault>)
      requires HasRows(Tables(), e)
      modifies this
      ensures guards == old(guards)
      ensures old(CloseOut(Tables(), e, outcome, failure, failureSource, reported, source, now))
           == if fault.None? then Worked(Tables()) else Raised(fault.value)
    {
      hide CostPayloadOk, LatestCostSource;
      if failure.Some? { StoreNote(e, Observed(failure.value, failureSource), now); }
      if !ClosableStatus(tasks[e.task].status) { return Some(CorruptLedger); }
      var mark := source;
      if mark.None? { mark := LatestSource(e); }
      if !CostPayloadOk(reported, mark) { return Some(InvalidInput); }
      StoreFinish(e, attempts[SlotOf(e)].cost, failure, Completion(outcome, reported, mark), now);
      return None;
    }

    method ReconcileAndClose(e: Tuple, outcome: Outcome, source: Option<CostSource>, failure: Option<Failure>,
                             failureSource: Option<FailureSource>, ev: Option<Evidence>, now: int) returns (fault: Option<Fault>)
      requires HasRows(Tables(), e)
      modifies this
      ensures guards == old(guards)
      ensures old(LedgerOps.ReconcileAndClose(Tables(), e, outcome, source, failure, failureSource, ev, now))
           == if fault.None? then Worked(Tables()) else Raised(fault.value)
    {
      hide ApplyEvidence, CloseOut, ActiveLookup, PlanChecks;
      if ev.Some? {
        var ok := ApplyCostEvidence(e, ev.value, now, true);
        if !ok { return Some(CorruptLedger); }
      }
      fault := StoreClose(e, outcome, failure, failureSource, attempts[SlotOf(e)].cost, source, now);
    }

    method CloseOpen(e: Tuple, outcome: Outcome, source: Option<CostSource>, failure: Option<Failure>,
                     failureSource: Option<FailureSource>, key: Option<string>, ev: Option<Evidence>, now: int) returns (r: Reply)
      requires HasRows(Tables(), e)
      modifies this
      ensures Answers(r, old(LedgerOps.CloseOpen(Tables(), guards, e, outcome, source, failure, failureSource, key, ev, now)))
    {
      hide LedgerOps.ReconcileAndClose, RememberIf;
      var saved := Tables();
      var fault := ReconcileAndClose(e, outcome, source, failure, failureSource, ev, now);
      if fault.Some? {
        Rollback(saved);
        return Failed(fault.value);
      }
      r := ClosedTerminal(e, outcome, failure);
      WriteIdempotencyIf(OpFinalize, key, e, r);
    }

    method CloseTerminalIfActive(e: Tuple, outcome: Outcome, source: Option<CostSource>, failure: Option<Failure>,
                                 failureSource: Option<FailureSource>, key: Option<string>, ev: Option<Evidence>, now: int) returns (r: Reply)
      modifies this
      ensures Answers(r, old(CloseTerminal(Tables(), guards, e, outcome, source, failure, failureSource, key, ev, now)))
      ensures Preserves(old(Tables()), Tables())
    {
      hide Preserves, LedgerOps.CloseOpen, FailureOk, EvidenceOk;
      assert Preserves(Tables(), CloseTerminal(Tables(), guards, e, outcome, source, failure, failureSource, key, ev, now).db) by {
        StepPreserves(Tables(), guards, Closing(e, outcome, source, failure, failureSource, key, ev, now));
      }
      if (failure.Some? && !FailureOk(failure.value)) || failure.Some? != failureSource.Some? || !EvidenceOk(ev) {
        return Failed(InvalidInput);
      }
      if !TimeOk(now) { return Failed(CorruptLedger); }
      if key.Some? {
        var prior := ReadIdempotency(OpFinalize, key.value);
        if prior.Some? { return Duplicate(prior.value); }
      }
      if !HasRows(Tables(), e) || control[e.task].status == ControlTerminal || EndedState(attempts[SlotOf(e)].state) { return Nothing; }
      r := CloseOpen(e, outcome, source, failure, failureSource, key, ev, now);
    }

    /** SELECT the newest completion fact of one attempt. */
    method NewestOutcome(e: Tuple) returns (r: Option<Outcome>)
      ensures r == LatestOutcome(outbox, e)
    {
      var i := |outbox|;
      assert outbox[..i] == outbox;
      while i > 0
        invariant 0 <= i <= |outbox|
        invariant LatestOutcome(outbox, e) == LatestOutcome(outbox[..i], e)
      {
        var f := outbox[i - 1];
        assert outbox[..i][..i - 1] == outbox[..i - 1];
        if f.key == e && f.body.Completion? { return Some(f.body.outcome); }
        i := i - 1;
      }
      return None;
    }

    /** The cost fact of a terminal poll; false when it raises. */
    method StorePollCost(e: Tuple, final: Option<int>, source: Option<CostSource>, now: int) returns (ok: bool)
      requires HasRows(Tables(), e)
      modifies this
      ensures guards == old(guards)
      ensures old(PollCost(Tables(), e, final, source, now)) == if ok then Some(Tables()) else None
    {
      hide Put, CostPayloadOk, LatestCostSource, FactsOf;
      var costs := CostFacts(e);
      if costs != [] { return true; }
      var mark := source;
      if source.None? && final.None? { mark := Some(Unavailable); }
      if source.None? && final.Some? { mark := LatestSource(e); }
      if !CostPayloadOk(final, mark) { return false; }
      StoreCost(e, final, Cost(final, mark), now);
      return true;
    }

    method PayAndClose(e: Tuple, outcome: Outcome, final: Option<int>, source: Option<CostSource>, failure: Option<Failure>,
                       failureSource: Option<FailureSource>, now: int) returns (fault: Option<Fault>)
      requires HasRows(Tables(), e)
      modifies this
      ensures guards == old(guards)
      ensures old(LedgerOps.PayAndClose(Tables(), e, outcome, final, source, failure, failureSource, now))
           == if fault.None? then Worked(Tables()) else Raised(fault.value)
    {
      hide CloseOut, PollCost;
      var ok := StorePollCost(e, final, source, now);
      if !ok { return Some(InvalidInput); }
      fault := StoreClose(e, outcome, failure, failureSource, final, source, now);
    }

    method PollForward(e: Tuple, outcome: Outcome, actual: Option<int>, source: Option<CostSource>, failure: Option<Failure>,
                       failureSource: Option<FailureSource>, now: int) returns (r: Reply)
      requires HasRows(Tables(), e)
      modifies this
      ensures Answers(r, old(LedgerOps.PollForward(Tables(), guards, e, outcome, actual, source, failure, failureSource, now)))
    {
      hide LedgerOps.PayAndClose;
      var a, task := attempts[SlotOf(e)], tasks[e.task];
      var final := if actual.Some? then actual else a.cost;
      if a.cost.Some? && actual.Some? && a.cost != actual { return Failed(CorruptLedger); }
      if !Micro(task.reserved - a.reserved + Reservation(a, final)) { return Failed(CorruptLedger); }
      var saved := Tables();
      var fault := PayAndClose(e, outcome, final, source, failure, failureSource, now);
      if fault.Some? {
        Rollback(saved);
        return Failed(fault.value);
      }
      return TerminalCommitted(e, outcome);
    }

    /** `complete_terminal_from_poll_if_active` */
    method CompleteTerminalFromPoll(e: Tuple, outcome: Outcome, actual: Option<int>, source: Option<CostSource>,
                                    failure: Option<Failure>, failureSource: Option<FailureSource>, now: int) returns (r: Reply)
      modifies this
      ensures Answers(r, old(CompleteFromPoll(Tables(), guards, e, outcome, actual, source, failure, failureSource, now)))
      ensures Preserves(old(Tables()), Tables())
    {
      hide Preserves, FailureOk, LedgerOps.PollForward, LatestOutcome;
      assert Preserves(Tables(), CompleteFromPoll(Tables(), guards, e, outcome, actual, source, failure, failureSource, now).db) by {
        StepPreserves(Tables(), guards, Polling(e, outcome, actual, source, failure, failureSource, now));
      }
      if actual.Some? && !Micro(actual.value) { return Failed(InvalidInput); }
      if failure.Some? && (!FailureOk(failure.value) || failure.value.retryable) { return Failed(InvalidInput); }
      if failure.Some? != failureSource.Some? { return Failed(InvalidInput); }
      if !TimeOk(now) { return Failed(CorruptLedger); }
      if !HasRows(Tables(), e) { return Nothing; }
      if attempts[SlotOf(e)].state == TerminalState && control[e.task].status == ControlTerminal {
        var committed := NewestOutcome(e);
        if committed.None? { return Failed(CorruptLedger); }
        return if committed.value == outcome then TerminalCommitted(e, outcome) else Nothing;
      }
      if control[e.task].status == ControlTerminal || !Mutable(attempts[SlotOf(e)].state) { return Nothing; }
      r := PollForward(e, outcome, actual, source, failure, failureSource, now);
    }

    // ---------- migration ----------

    /** `_migrate_v1_to_v2`: rebuild the witness index from the transition facts, or,
        when the table was already there, reconcile it row by row. */
    method MigrateV1ToV2(hadAuthority: bool) returns (ok: bool)
      requires !hadAuthority ==> witnesses == []
      modifies this`witnesses
      ensures !ok ==> witnesses == old(witnesses)
      ensures ok && !hadAuthority ==> IndexAgrees(Tables())
      ensures ok && hadAuthority ==> witnesses == old(witnesses) && |witnesses| == |WitnessesOf(outbox)|
                                     && forall w | w in WitnessesOf(outbox) :: w in witnesses
      ensures ok <==> Migratable(old(Tables()), hadAuthority)
      // it accepts every valid ledger, and gives one back its lost index
      ensures old(Valid()) && hadAuthority ==> ok && Valid()
      ensures old(SoundWithIndex(Tables())) && !hadAuthority ==> ok && Valid()
    {
      MigrationRestores(Tables(), hadAuthority);
      hide TransitionProven, RowsWithId, WitnessesOf, Sound;
      var saved, count := witnesses, 0;
      var predecessors: set<Tuple> := {};
      EmptyIndex();
      for i := 0 to |outbox|
        invariant witnesses == if hadAuthority then saved else WitnessesOf(outbox[..i])
        invariant count == |WitnessesOf(outbox[..i])|
        invariant predecessors == set j | 0 <= j < i && outbox[j].body.Transition? :: outbox[j].body.predecessor
        invariant MigratedTo(old(Tables()), hadAuthority, i)
      {
        var f := outbox[i];
        assert outbox[..i + 1] == outbox[..i] + [f];
        WitnessesOfAppend(outbox[..i], f);
        ghost var next := Migrates(old(Tables()), hadAuthority, i);
        if f.body.Transition? {
          count := count + 1;
          var proven := ProveTransition(Tables(), i);
          IndexAside(old(Tables()), witnesses, i);
          if !proven || f.body.predecessor in predecessors {
            witnesses := saved;
            return false;
          }
          predecessors := predecessors + {f.body.predecessor};
          if !hadAuthority {
            witnesses := witnesses + [WitnessFor(f, i + 1)];
          } else if RowsWithId(saved, i + 1) != [WitnessFor(f, i + 1)] {
            return false;
          }
        }
      }
      assert outbox[..|outbox|] == outbox;
      if hadAuthority && |witnesses| != count { return false; }
      if hadAuthority { ReconciledRows(Tables()); }
      return true;
    }
  }

  /** Nothing is wrong with the database but its witness rows. */
  ghost predicate SoundWithIndex(db: Db) { Sound(db.(witnesses := WitnessesOf(db.outbox))) }

  lemma MigrationRestores(db: Db, hadAuthority: bool)
    ensures Sound(db) ==> Migratable(db, hadAuthority)
    ensures SoundWithIndex(db) && db.witnesses == [] ==> Migratable(db, false)
  {
    hide Inv, Migratable, WitnessesOf;
    if Sound(db) {
      SoundInv(db);
      CommittedIsMigratable(db, hadAuthority);
    }
    if SoundWithIndex(db) && db.witnesses == [] {
      var full := db.(witnesses := WitnessesOf(db.outbox));
      SoundInv(full);
      CommittedIsMigratable(full, false);
      LostIndexMigrates(full);
      assert full.(witnesses := []) == db;
    }
  }

  /** The code inserts the tool fence before it sets the dispatch flag. */
  lemma FenceThenDispatch(db: Db, e: Tuple, call: string, digest: string, now: int)
    requires HasRows(db, e)
    ensures var fenced := Put(db, FenceTool(e, call, digest));
            HasRows(fenced, e) && Put(fenced, SetDispatch(e, now)) == Put(Put(db, SetDispatch(e, now)), FenceTool(e, call, digest))
  {
  }

  lemma PlanShape(t: TaskId, plan: Plan)
    requires ValidPlan(t, plan)
    ensures plan.taskId == t && plan.providers != [] && plan.providers[0] in plan.ceilings
  {
  }

  /** A found row's plan lists its provider and prices every provider. */
  lemma FoundPlan(db: Db, e: Tuple)
    requires ActiveLookup(db, e).Found?
    ensures var plan := db.tasks[e.task].plan;
            Row(db, e).provider in plan.providers && forall p | p in plan.providers :: p in plan.ceilings
  {
    hide FactsOf, SlotsExact, FactsWellFormed, AttemptChecked, Sum, IndexOf;
    var plan := db.tasks[e.task].plan;
    assert TaskRowOk(e.task, db.tasks[e.task]);
    forall p | p in plan.providers ensures p in plan.ceilings {
      var i :| 0 <= i < |plan.providers| && plan.providers[i] == p;
    }
  }

  lemma TargetInPlan(providers: seq<ProviderId>, current: ProviderId, asked: Option<ProviderId>)
    requires current in providers && RecoveryTarget(providers, current, asked).Some?
    ensures RecoveryTarget(providers, current, asked).value in providers
  {
  }
}
