/** What `_checked_plan` demands of the rows and the facts of one running task. */
module LedgerChecks {
  import opened Wrappers
  import opened Payload
  import opened LedgerTables

  /** The task row repeats its plan (attempt_ledger.py:1395-1416). */
  predicate TaskRowOk(t: TaskId, task: Task)
  {
    && ValidPlan(t, task.plan)
    && task.planHash == Sha256(task.plan)
    && task.deadlineMs == task.plan.deadlineMs
    && task.transitionLimit == task.plan.transitionLimit
    && task.budget == task.plan.budget
    && task.transitionsUsed <= task.plan.transitionLimit
  }

  /** Exactly one identity fact, agreeing with the row, its plan and its predecessor. */
  predicate IdentityOk(plan: Plan, t: TaskId, e: nat, a: Attempt, prior: Option<Attempt>, d: KeyFacts)
  {
    && |d.identities| == 1
    && d.identities[0].at == a.createdAt
    && (d.firstRelated.Some? ==> d.identities[0].id < d.firstRelated.value)
    && (if e == 0 then
          && |plan.providers| > 0
          && d.identities[0].body == AttemptCreated(plan.providers[0], Sha256(plan))
          && a.provider == plan.providers[0]
        else
          && prior.Some?
          && d.identities[0].body.Transition?
          && TransitionFactOk(d.identities[0].body)
          && d.identities[0].body.predecessor == Tuple(t, prior.value.id, e - 1)
          && d.identities[0].body.predecessorProvider == prior.value.provider
          && d.identities[0].body.successorProvider == a.provider
          && prior.value.provider in plan.providers
          && a.provider in plan.providers
          && IndexOf(plan.providers, prior.value.provider) < IndexOf(plan.providers, a.provider))
  }

  /** `_transition_fact_payload` accepts the fact. */
  predicate TransitionFactOk(b: FactBody)
    requires b.Transition?
  {
    FailureOk(b.failure) && b.failure.kind == Retryable
  }

  /** No execution barrier is duplicated and no two kinds of end coexist. */
  predicate BarriersOk(d: KeyFacts)
  {
    && d.dispatches <= 1 && d.cancels <= 1 && d.completions <= 1 && d.recoveries <= 1
    && d.cancels + d.completions + d.recoveries <= 1
  }

  function ExpectedCost(d: KeyFacts): Option<int>
  {
    if d.costs == [] then None
    else match d.costs[|d.costs| - 1]
         case Cost(actual, _) => actual
         case _ => None
  }

  /** The cost columns are what the newest cost fact says. */
  predicate CostOk(plan: Plan, a: Attempt, d: KeyFacts)
  {
    && a.cost == ExpectedCost(d)
    && a.provider in plan.ceilings
    && a.reserved == if a.cost.Some? then a.cost.value else plan.ceilings[a.provider]
  }

  predicate LiveOk(a: Attempt, d: KeyFacts)
  {
    && a.state == (if d.lastState.Some? then Provider(d.lastState.value) else Active)
    && a.dispatched == (d.dispatches > 0)
    && !a.cancelRequested
    && a.failure.None? && a.closedAt.None?
    && d.cancels == 0 && d.completions == 0 && d.recoveries == 0
  }

  /** A predecessor was closed by the one transition fact of its successor. */
  predicate PastOk(a: Attempt, d: KeyFacts, successor: seq<IdentityFact>)
  {
    && |successor| == 1
    && successor[0].body.Transition?
    && TransitionFactOk(successor[0].body)
    && (d.lastRelated.Some? ==> d.lastRelated.value < successor[0].id)
    && (a.state.Closed? || a.state.Orphaned?)
    && !a.dispatched && !a.cancelRequested
    && d.dispatches == 0 && d.cancels == 0 && d.completions == 0
    && a.closedAt == Some(successor[0].at)
    && a.failure == Some(successor[0].body.failure)
  }

  function KeyAt(db: Db, t: TaskId, e: nat): Tuple
    requires Slot(t, e) in db.attempts
  {
    Tuple(t, db.attempts[Slot(t, e)].id, e)
  }

  function FactsAt(db: Db, t: TaskId, e: nat): KeyFacts
  {
    if Slot(t, e) in db.attempts then FactsOf(db.outbox, KeyAt(db, t, e)) else NO_FACTS
  }

  function Prior(db: Db, t: TaskId, e: nat): Option<Attempt>
  {
    if e > 0 && Slot(t, e - 1) in db.attempts then Some(db.attempts[Slot(t, e - 1)]) else None
  }

  /** The task has exactly the attempts 0..used. */
  ghost predicate SlotsExact(db: Db, t: TaskId, used: nat)
  {
    forall e: nat :: Slot(t, e) in db.attempts <==> e <= used
  }

  predicate CostFactOk(b: FactBody)
    requires b.Cost?
  {
    (b.actual.Some? ==> Micro(b.actual.value)) && CostPayloadOk(b.actual, b.costSource)
  }

  predicate CompletionFactOk(b: FactBody)
    requires b.Completion?
  {
    (b.finalCost.Some? ==> Micro(b.finalCost.value)) && CostPayloadOk(b.finalCost, b.completionSource)
  }

  /** One fact belongs to an attempt of its task and is well formed. */
  predicate FactOk(db: Db, f: Fact)
  {
    HasAttempt(db, f.key) && WellFormed(f)
  }

  predicate WellFormed(f: Fact)
  {
    && TimeOk(f.at)
    && (f.body.Cost? ==> CostFactOk(f.body))
    && (f.body.Completion? ==> CompletionFactOk(f.body))
    && (f.body.StateChange? ==> IsCanonical(f.body.payload))
  }

  predicate Authoritative(b: FactBody) { !b.Observed? && !b.EventAppended? }

  ghost predicate FactsWellFormed(db: Db, t: TaskId)
  {
    forall i | 0 <= i < |db.outbox| && db.outbox[i].key.task == t && Authoritative(db.outbox[i].body) ::
      FactOk(db, db.outbox[i])
  }

  /** Every check on one attempt of a running task whose last epoch is `used`. */
  ghost predicate AttemptChecked(db: Db, t: TaskId, plan: Plan, used: nat, e: nat)
    requires Slot(t, e) in db.attempts
  {
    var a := db.attempts[Slot(t, e)];
    var d := FactsAt(db, t, e);
    && IdentityOk(plan, t, e, a, Prior(db, t, e), d)
    && BarriersOk(d)
    && CostOk(plan, a, d)
    && (if e == used then LiveOk(a, d) else PastOk(a, d, FactsAt(db, t, e + 1).identities))
  }

  /** `_checked_plan(row, conn)` returns instead of raising CorruptLedger, for the
      active row at epoch `ep` of task t. */
  ghost predicate PlanChecks(db: Db, t: TaskId, ep: nat)
    requires t in db.tasks && Slot(t, ep) in db.attempts
  {
    var task := db.tasks[t];
    var a := db.attempts[Slot(t, ep)];
    && TaskRowOk(t, task)
    && Micro(task.reserved) && Micro(a.reserved)
    && task.transitionsUsed == ep
    && ep <= |task.plan.providers| - 1
    && a.provider in task.plan.providers
    && ep <= IndexOf(task.plan.providers, a.provider)
    && a.reserved <= task.reserved
    && (a.cost.Some? ==> Micro(a.cost.value) && a.reserved == a.cost.value)
    && SlotsExact(db, t, ep)
    && (forall e: nat | e <= ep ::
          FenceOk(db.attempts[Slot(t, e)].submitNotBefore, db.attempts[Slot(t, e)].createdAt, task.deadlineMs))
    && FactsWellFormed(db, t)
    && (forall e: nat | e <= ep :: AttemptChecked(db, t, task.plan, ep, e))
    && (forall n: nat | n <= ep + 1 :: Sum(db.attempts, t, n) <= SAFE_INTEGER_MAX)
    && Sum(db.attempts, t, ep + 1) == task.reserved
  }

  // ---------- _active ----------

  /** The join of `_active`: the exact tuple is the active one of a running task. */
  predicate ActiveRow(db: Db, e: Tuple)
  {
    && Controls(db, e)
    && db.control[e.task].status == ControlActive
    && HasAttempt(db, e)
    && e.task in db.tasks
    && !db.attempts[SlotOf(e)].cancelRequested
    && db.tasks[e.task].status == Running
  }

  datatype Lookup = Missing | Corrupt | Found

  /** `_active`: no row, CorruptLedger, or the checked row. */
  ghost function ActiveLookup(db: Db, e: Tuple): (r: Lookup)
    ensures r.Found? ==> ActiveRow(db, e) && PlanChecks(db, e.task, e.epoch)
  {
    if !ActiveRow(db, e) then Missing
    else if PlanChecks(db, e.task, e.epoch) then Found else Corrupt
  }
}
