/** Consequences of the invariant: when `_checked_plan` accepts, and the shape
    of a task's attempt chain. */
module LedgerFold {
  import opened Wrappers
  import opened Payload
  import opened LedgerTables
  import opened LedgerChecks
  import opened LedgerWrites
  import opened LedgerInvariant

  // ---------- the attempt chain ----------

  predicate ProviderAt(db: Db, t: TaskId, e: nat, i: nat)
  {
    && t in db.tasks && Slot(t, e) in db.attempts
    && i < |db.tasks[t].plan.providers| && db.tasks[t].plan.providers[i] == db.attempts[Slot(t, e)].provider
  }

  /** Every attempt of an admitted task passes the identity check. */
  lemma IdentityEverywhere(db: Db, t: TaskId, e: nat)
    requires Inv(db) && t in db.tasks && db.tasks[t].status != RejectedTask && e <= db.tasks[t].transitionsUsed
    ensures Slot(t, e) in db.attempts && IdentityAt(db, t, e)
    ensures ValidPlan(t, db.tasks[t].plan)
  {
    hide IdentityAt, LastOk, ValidPlan, FactOk, FactsAt, Sum;
    assert TaskOk(db, t);
    if e < db.tasks[t].transitionsUsed {
      assert PastAttemptOk(db, t, e);
    }
  }

  function PositionOf(db: Db, t: TaskId, e: nat): nat
  {
    if t in db.tasks && Slot(t, e) in db.attempts && db.attempts[Slot(t, e)].provider in db.tasks[t].plan.providers
    then IndexOf(db.tasks[t].plan.providers, db.attempts[Slot(t, e)].provider) else 0
  }

  /** Provider positions strictly increase along the chain, so they are at least
      the epoch and no provider is tried twice. */
  lemma {:induction false} PositionsIncrease(db: Db, t: TaskId, d: nat, e: nat)
    requires Inv(db) && t in db.tasks && db.tasks[t].status != RejectedTask
    requires d < e <= db.tasks[t].transitionsUsed
    ensures ProviderAt(db, t, d, PositionOf(db, t, d)) && ProviderAt(db, t, e, PositionOf(db, t, e))
    ensures PositionOf(db, t, d) < PositionOf(db, t, e) && e <= PositionOf(db, t, e)
    ensures db.attempts[Slot(t, d)].provider != db.attempts[Slot(t, e)].provider
    decreases e - d, e
  {
    hide Inv, IndexOf, FactsAt, TransitionFactOk;
    IdentityEverywhere(db, t, d);
    IdentityEverywhere(db, t, e);
    IdentityEverywhere(db, t, e - 1);
    if d + 1 < e {
      PositionsIncrease(db, t, d, e - 1);
    } else if d > 0 {
      PositionsIncrease(db, t, d - 1, d);
    }
  }

  /** What `active_control` and the attempts table look like for an admitted task. */
  ghost predicate ChainShape(db: Db, t: TaskId)
  {
    && t in db.tasks && t in db.control
    && var used := db.tasks[t].transitionsUsed;
    && SlotsExact(db, t, used)
    && used <= db.tasks[t].plan.transitionLimit <= |db.tasks[t].plan.providers| - 1
    && db.control[t].epoch == used
    && Slot(t, used) in db.attempts && db.control[t].attempt == db.attempts[Slot(t, used)].id
    && (forall e: nat | e < used :: Slot(t, e) in db.attempts && db.attempts[Slot(t, e)].closedAt.Some?
                                    && !Mutable(db.attempts[Slot(t, e)].state))
    && (db.tasks[t].status == Running ==> Mutable(db.attempts[Slot(t, used)].state))
  }

  /** Epochs run 0..transitions_used without gaps, `active_control` names the last
      attempt, every earlier one is closed, and the bound is the provider count. */
  lemma AttemptChain(db: Db, t: TaskId)
    requires Inv(db) && t in db.tasks && db.tasks[t].status != RejectedTask
    ensures ChainShape(db, t)
  {
    hide Inv, FactsAt, FactsOf, FenceOk, IdentityOk, BarriersOk, CostOk, FiledBefore;
    ControlledRow(db, t);
    var last := Controlled(db, t);
    LastRow(db, last);
    RowSlots(db, last);
    EarlierRows(db, last);
    forall e: nat | e < last.epoch
      ensures Slot(t, e) in db.attempts && db.attempts[Slot(t, e)].closedAt.Some? && !Mutable(db.attempts[Slot(t, e)].state)
    {
      assert PastAttemptOk(db, t, e);
    }
  }

  function Controlled(db: Db, t: TaskId): Tuple
  {
    if t in db.control then Tuple(t, db.control[t].attempt, db.control[t].epoch) else Tuple(t, "", 0)
  }

  lemma ControlledRow(db: Db, t: TaskId)
    requires Inv(db) && t in db.tasks && db.tasks[t].status != RejectedTask
    ensures HasRows(db, Controlled(db, t))
  {
    hide TaskRowOk, PastAttemptOk, LastAttemptOk, Sum, FactOk;
    assert TaskOk(db, t);
  }

  /** A predecessor ended without a dispatch and without a completion fact. */
  lemma EarlierHaveEnded(db: Db, t: TaskId, i: nat)
    requires Inv(db) && t in db.tasks && i < db.tasks[t].transitionsUsed
    ensures Slot(t, i) in db.attempts && EndedState(db.attempts[Slot(t, i)].state) && !db.attempts[Slot(t, i)].dispatched
    ensures FactsAt(db, t, i).completions == 0
  {
    hide TaskRowOk, IdentityAt, FenceAt, LastOk, FactsOf, Sum, FactOk;
    assert TaskOk(db, t);
    assert PastAttemptOk(db, t, i);
  }

  // ---------- costs ----------

  /** The task's reservation is the sum over its attempts, whatever its status. */
  lemma CostConservation(db: Db, t: TaskId)
    requires Inv(db) && t in db.tasks
    ensures db.tasks[t].reserved == (if db.tasks[t].status == RejectedTask then 0
                                     else Sum(db.attempts, t, db.tasks[t].transitionsUsed + 1))
  {
    hide TaskRowOk, PastAttemptOk, LastAttemptOk, Sum, FactOk;
    assert TaskOk(db, t);
  }

  lemma ReservationsInRange(db: Db, t: TaskId, e: nat)
    requires Inv(db) && t in db.tasks && db.tasks[t].status != RejectedTask && e <= db.tasks[t].transitionsUsed
    ensures Slot(t, e) in db.attempts && Micro(db.attempts[Slot(t, e)].reserved)
  {
    hide IdentityOk, FactsAt, Sum, FactOk, BarriersOk, PastOk;
    assert TaskOk(db, t);
    if e < db.tasks[t].transitionsUsed { assert PastAttemptOk(db, t, e); }
  }

  // ---------- _checked_plan ----------

  lemma RunningAttemptsChecked(db: Db, e: Tuple)
    requires Inv(db) && ActiveRow(db, e)
    ensures forall i: nat | i <= e.epoch :: Slot(e.task, i) in db.attempts
                                            && AttemptChecked(db, e.task, db.tasks[e.task].plan, e.epoch, i)
                                            && FenceAt(db, e.task, i)
  {
    hide Inv, TaskRowOk, IdentityOk, CostOk, PastOk, FactsOf, FenceOk;
    LastRow(db, e);
    EarlierRows(db, e);
    forall i: nat | i <= e.epoch
      ensures Slot(e.task, i) in db.attempts && AttemptChecked(db, e.task, db.tasks[e.task].plan, e.epoch, i) && FenceAt(db, e.task, i)
    {
      if i < e.epoch { assert PastAttemptOk(db, e.task, i); }
    }
  }

  lemma PartialSumsInRange(db: Db, e: Tuple)
    requires Inv(db) && ActiveRow(db, e) && db.tasks[e.task].reserved <= SAFE_INTEGER_MAX
    ensures forall n: nat | n <= e.epoch + 1 :: Sum(db.attempts, e.task, n) <= SAFE_INTEGER_MAX
    ensures db.attempts[SlotOf(e)].reserved <= db.tasks[e.task].reserved && 0 <= db.tasks[e.task].reserved
  {
    hide Inv, Sum, TaskRowOk, LastOk;
    LastRow(db, e);
    RowSlots(db, e);
    forall i: nat | i <= e.epoch ensures Slot(e.task, i) in db.attempts && Micro(db.attempts[Slot(e.task, i)].reserved) {
      ReservationsInRange(db, e.task, i);
    }
    forall n: nat | n <= e.epoch + 1 ensures 0 <= Sum(db.attempts, e.task, n) <= SAFE_INTEGER_MAX {
      SumMonotone(db.attempts, e.task, n, e.epoch + 1);
    }
    SumStep(db.attempts, e.task, e.epoch);
  }

  lemma SumStep(attempts: map<Slot, Attempt>, t: TaskId, n: nat)
    requires Slot(t, n) in attempts
    ensures Sum(attempts, t, n + 1) == Sum(attempts, t, n) + attempts[Slot(t, n)].reserved
  {
  }

  /** In every state the ledger commits, `_checked_plan` accepts a running task
      exactly when its reservation is a safe integer. */
  lemma CheckedPlanAccepts(db: Db, e: Tuple)
    requires Inv(db) && ActiveRow(db, e)
    ensures PlanChecks(db, e.task, e.epoch) <==> db.tasks[e.task].reserved <= SAFE_INTEGER_MAX
  {
    hide AttemptChecked, LastOk, Sum, IndexOf, FactsOf, PastAttemptOk, IdentityAt;
    if db.tasks[e.task].reserved <= SAFE_INTEGER_MAX {
      LastRow(db, e);
      RowSlots(db, e);
      RunningAttemptsChecked(db, e);
      PartialSumsInRange(db, e);
      ReservationsInRange(db, e.task, e.epoch);
      ActivePosition(db, e);
      ActiveCostOk(db, e);
    }
  }

  lemma ActiveCostOk(db: Db, e: Tuple)
    requires Inv(db) && ActiveRow(db, e)
    ensures var a := db.attempts[SlotOf(e)]; a.cost.Some? ==> Micro(a.cost.value) && a.reserved == a.cost.value
  {
    hide Inv, TaskRowOk, FactsOf;
    LastRow(db, e);
  }

  lemma ActivePosition(db: Db, e: Tuple)
    requires Inv(db) && ActiveRow(db, e)
    ensures db.attempts[SlotOf(e)].provider in db.tasks[e.task].plan.providers
    ensures e.epoch <= IndexOf(db.tasks[e.task].plan.providers, db.attempts[SlotOf(e)].provider)
  {
    hide Inv, IndexOf, LastOk, FactsOf;
    LastRow(db, e);
    if e.epoch > 0 {
      PositionsIncrease(db, e.task, e.epoch - 1, e.epoch);
      assert db.attempts[SlotOf(e)].provider in db.tasks[e.task].plan.providers;
    } else {
      IdentityEverywhere(db, e.task, 0);
      assert db.tasks[e.task].plan.providers[0] == db.attempts[SlotOf(e)].provider;
    }
  }
}
