/** What the reservations of a task can add up to. */
module LedgerBudget {
  import opened Wrappers
  import opened Payload
  import opened LedgerTables
  import opened LedgerChecks
  import opened LedgerWrites
  import opened LedgerInvariant
  import opened LedgerFold
  import opened LedgerOps

  // ---------- the budget ----------

  /** The closed attempts' reservations and the last attempt's ceiling fit the budget. */
  ghost predicate BudgetOk(db: Db, t: TaskId)
  {
    t in db.tasks && db.tasks[t].status != RejectedTask && db.tasks[t].budget.Some? ==>
      var used := db.tasks[t].transitionsUsed;
      && Slot(t, used) in db.attempts && db.attempts[Slot(t, used)].provider in db.tasks[t].plan.ceilings
      && Sum(db.attempts, t, used) + db.tasks[t].plan.ceilings[db.attempts[Slot(t, used)].provider] <= db.tasks[t].budget.value
  }

  /** Task t keeps its plan and its chain; only the last attempt's reservation may move. */
  ghost predicate ChainKept(db: Db, db': Db, t: TaskId)
  {
    && t in db.tasks && t in db'.tasks
    && db'.tasks[t].plan == db.tasks[t].plan && db'.tasks[t].budget == db.tasks[t].budget
    && db'.tasks[t].transitionsUsed == db.tasks[t].transitionsUsed
    && (db'.tasks[t].status == RejectedTask <==> db.tasks[t].status == RejectedTask)
    && (forall e: nat | e <= db.tasks[t].transitionsUsed && Slot(t, e) in db.attempts ::
          && Slot(t, e) in db'.attempts && db'.attempts[Slot(t, e)].provider == db.attempts[Slot(t, e)].provider
          && (e < db.tasks[t].transitionsUsed ==> db'.attempts[Slot(t, e)].reserved == db.attempts[Slot(t, e)].reserved))
  }

  lemma BudgetFrame(db: Db, db': Db, t: TaskId)
    requires ChainKept(db, db', t) && BudgetOk(db, t)
    requires db.tasks[t].status != RejectedTask ==> SlotsExact(db, t, db.tasks[t].transitionsUsed)
    ensures BudgetOk(db', t)
  {
    if db.tasks[t].status != RejectedTask && db.tasks[t].budget.Some? {
      SumFrame(db.attempts, db'.attempts, t, db.tasks[t].transitionsUsed);
    }
  }

  lemma SlotsOf(db: Db, t: TaskId)
    requires Inv(db) && t in db.tasks && db.tasks[t].status != RejectedTask
    ensures SlotsExact(db, t, db.tasks[t].transitionsUsed) && HasRows(db, Controlled(db, t))
    ensures Controlled(db, t).epoch == db.tasks[t].transitionsUsed
  {
    hide TaskRowOk, PastAttemptOk, LastAttemptOk, Sum, FactOk;
    assert TaskOk(db, t);
  }

  predicate Opens(w: Write, t: TaskId)
  {
    || (w.Tombstone? && w.plan.taskId == t) || (w.Admit? && w.plan.taskId == t)
    || (w.Succeed? && w.tuple.task == t)
  }

  lemma WriteKeepsChain(db: Db, w: Write, t: TaskId)
    requires Inv(db) && Guard(db, w) && t in db.tasks && !Opens(w, t)
    ensures ChainKept(db, Put(db, w), t)
  {
    hide Inv, ValidPlan, IsCanonical, FactsOf, LastOk, Replacement, IndexOf, FailureOk;
    if Target(w).Some? && HasRows(db, Target(w).value) {
      LastRow(db, Target(w).value);
    }
    if w.Cancel? { LiveIsLast(db, w.tuple); }
  }

  lemma WriteKeepsBudget(db: Db, w: Write, t: TaskId)
    requires Inv(db) && Guard(db, w) && BudgetOk(db, t)
    ensures BudgetOk(Put(db, w), t)
  {
    hide Inv, ChainKept, ValidPlan, IsCanonical, FactsOf, LastOk, IndexOf, FailureOk;
    if w.Succeed? && w.tuple.task == t {
      SucceedKeepsBudget(db, w);
    } else if t in db.tasks && !Opens(w, t) {
      WriteKeepsChain(db, w, t);
      if db.tasks[t].status != RejectedTask { SlotsOf(db, t); }
      BudgetFrame(db, Put(db, w), t);
    }
  }

  lemma SucceedKeepsBudget(db: Db, w: Write)
    requires Inv(db) && Guard(db, w) && w.Succeed?
    ensures BudgetOk(Put(db, w), w.tuple.task)
  {
    hide Inv, ValidPlan, IsCanonical, FactsOf, LastOk, IndexOf, FailureOk;
    var e, t, db' := w.tuple, w.tuple.task, Put(db, w);
    LastRow(db, e);
    RowSlots(db, e);
    LastReservation(db, e);
    SumFrame(db.attempts, db'.attempts, t, e.epoch + 1);
  }

  lemma LastReservation(db: Db, e: Tuple)
    requires Inv(db) && HasRows(db, e)
    ensures Reservation(Row(db, e), Row(db, e).cost) == Row(db, e).reserved
    ensures Row(db, e).provider in db.tasks[e.task].plan.ceilings
    ensures Row(db, e).cost.None? ==> Row(db, e).reserved == db.tasks[e.task].plan.ceilings[Row(db, e).provider]
  {
    hide Inv, FactsOf, TaskRowOk, LiveOk, CostOk;
    LastRow(db, e);
  }

  /** The reserved amount exceeds the budget by no more than the last attempt's
      reported cost exceeds its own provider's ceiling. */
  lemma ReservedWithinBudget(db: Db, t: TaskId)
    requires Inv(db) && BudgetOk(db, t) && t in db.tasks && db.tasks[t].status != RejectedTask && db.tasks[t].budget.Some?
    ensures HasRows(db, Controlled(db, t)) && Row(db, Controlled(db, t)).provider in db.tasks[t].plan.ceilings
    ensures var a, plan := Row(db, Controlled(db, t)), db.tasks[t].plan;
            && (a.cost.None? ==> db.tasks[t].reserved <= db.tasks[t].budget.value)
            && (a.cost.Some? ==> db.tasks[t].reserved <= db.tasks[t].budget.value + (a.cost.value - plan.ceilings[a.provider]))
  {
    hide Inv, TaskRowOk, LastOk, FactsOf, Sum;
    SlotsOf(db, t);
    var e := Controlled(db, t);
    RowSlots(db, e);
    LastReservation(db, e);
    SumStep(db.attempts, t, e.epoch);
  }

  // ---------- the safe-integer range ----------

  /** Some attempt of t was moved on by a recovery. */
  predicate WasRecovered(log: seq<Fact>, t: TaskId)
  {
    exists i | 0 <= i < |log| :: log[i].key.task == t && log[i].body.RecoveredBeforeDispatch?
  }

  /** A reservation leaves the safe integers only by the recovery of an unbudgeted task. */
  ghost predicate RangeOk(db: Db, t: TaskId)
  {
    t in db.tasks ==> db.tasks[t].reserved <= SAFE_INTEGER_MAX || (db.tasks[t].budget.None? && WasRecovered(db.outbox, t))
  }

  lemma RecoveredStays(log: seq<Fact>, log': seq<Fact>, t: TaskId)
    requires |log| <= |log'| && log'[..|log|] == log
    ensures WasRecovered(log, t) ==> WasRecovered(log', t)
  {
    if WasRecovered(log, t) {
      var i :| 0 <= i < |log| && log[i].key.task == t && log[i].body.RecoveredBeforeDispatch?;
      assert log'[i] == log[i];
    }
  }

  lemma RewriteKeepsRange(db: Db, w: Write, t: TaskId)
    requires Inv(db) && Guard(db, w) && RangeOk(db, t) && !w.Succeed? && !w.Admit? && !w.Tombstone?
    ensures RangeOk(Put(db, w), t)
  {
    hide Inv, ValidPlan, IsCanonical, FactsOf, LastOk, FailureOk, WasRecovered, ActiveRow;
    assert |db.outbox| <= |Put(db, w).outbox| && Put(db, w).outbox[..|db.outbox|] == db.outbox;
    RecoveredStays(db.outbox, Put(db, w).outbox, t);
  }

  lemma SucceedKeepsRange(db: Db, w: Write, t: TaskId)
    requires Inv(db) && Guard(db, w) && RangeOk(db, t) && w.Succeed?
    ensures RangeOk(Put(db, w), t)
  {
    hide Inv, FactsOf, LastOk, FailureOk, WasRecovered, IndexOf, Live, Replacement;
    var db' := Put(db, w);
    assert |db.outbox| <= |db'.outbox| && db'.outbox[..|db.outbox|] == db.outbox;
    RecoveredStays(db.outbox, db'.outbox, t);
    LastRow(db, w.tuple);
    if w.recovered {
      assert db'.outbox[|db.outbox|] == Fact(w.tuple, RecoveredBeforeDispatch, w.now);
      RecoveredHere(db'.outbox, |db.outbox|);
    }
  }

  lemma RecoveredHere(log: seq<Fact>, i: nat)
    requires i < |log| && log[i].body.RecoveredBeforeDispatch?
    ensures WasRecovered(log, log[i].key.task)
  {
  }

  lemma WriteKeepsRange(db: Db, w: Write, t: TaskId)
    requires Inv(db) && Guard(db, w) && RangeOk(db, t)
    ensures RangeOk(Put(db, w), t)
  {
    hide Inv, FactsOf, WasRecovered, RangeOk, SuccessorAllowed, Live, IsCanonical;
    if w.Succeed? {
      SucceedKeepsRange(db, w, t);
    } else if w.Admit? || w.Tombstone? {
      OpenKeepsRange(db, w, t);
    } else {
      RewriteKeepsRange(db, w, t);
    }
  }

  lemma OpenKeepsRange(db: Db, w: Write, t: TaskId)
    requires (w.Admit? || w.Tombstone?) && Guard(db, w) && RangeOk(db, t)
    ensures RangeOk(Put(db, w), t)
  {
    hide WasRecovered;
    assert |db.outbox| <= |Put(db, w).outbox| && Put(db, w).outbox[..|db.outbox|] == db.outbox;
    RecoveredStays(db.outbox, Put(db, w).outbox, t);
  }
}
