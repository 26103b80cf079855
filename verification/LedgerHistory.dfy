/** What no later operation undoes: identities, records, side effects and ends. */
module LedgerHistory {
  import opened Wrappers
  import opened Payload
  import opened LedgerTables
  import opened LedgerChecks
  import opened LedgerWrites
  import opened LedgerInvariant
  import opened LedgerFold
  import opened LedgerOps
  import opened LedgerBudget

  // ---------- side effects ----------

  /** A tool fence belongs to its task's last attempt, whose dispatch flag is set. */
  ghost predicate FenceOwned(db: Db, e: Tuple)
  {
    && HasAttempt(db, e) && Row(db, e).dispatched
    && e.task in db.tasks && db.tasks[e.task].transitionsUsed == e.epoch
  }

  ghost predicate FencesOk(db: Db)
  {
    forall k | k in db.fences :: FenceOwned(db, k.tuple)
  }

  lemma WriteKeepsFence(db: Db, w: Write, e: Tuple)
    requires Inv(db) && Guard(db, w) && FenceOwned(db, e)
    ensures FenceOwned(Put(db, w), e)
  {
    hide ValidPlan, IsCanonical, FactsOf, LastOk, Replacement, IndexOf, FailureOk, TaskOk, FactsOk;
    if Target(w).Some? && HasRows(db, Target(w).value) { LastRow(db, Target(w).value); }
  }

  lemma WriteKeepsFences(db: Db, w: Write)
    requires Inv(db) && Guard(db, w) && FencesOk(db)
    ensures FencesOk(Put(db, w))
  {
    hide Inv, FenceOwned, ValidPlan, IsCanonical, SuccessorAllowed, FactsOf;
    forall k | k in Put(db, w).fences ensures FenceOwned(Put(db, w), k.tuple) {
      if k in db.fences {
        WriteKeepsFence(db, w, k.tuple);
      } else {
        NewFenceOwned(db, w);
      }
    }
  }

  lemma NewFenceOwned(db: Db, w: Write)
    requires Inv(db) && w.FenceTool? && Guard(db, w)
    ensures FenceOwned(Put(db, w), w.tuple)
  {
    hide Inv, FactsOf, LastOk, TaskRowOk;
    LastRow(db, w.tuple);
  }

  /** A successor's fence lies 250 to 750 ms after its creation; an initial attempt has none. */
  ghost predicate SubmitFencesOk(db: Db)
  {
    forall s | s in db.attempts :: SubmitFenceOk(s.epoch, db.attempts[s])
  }

  predicate SubmitFenceOk(epoch: nat, a: Attempt)
  {
    if epoch == 0 then a.submitNotBefore == 0
    else 250 <= a.submitNotBefore - a.createdAt <= 750 && a.createdAt > 0
  }

  lemma WriteKeepsSubmitFences(db: Db, w: Write)
    requires Guard(db, w) && SubmitFencesOk(db)
    ensures SubmitFencesOk(Put(db, w))
  {
    hide ValidPlan, IsCanonical, Replacement, IndexOf, FailureOk, FactsOf, CostFactOk;
  }

  // ---------- what persists ----------

  predicate TaskPersists(a: Task, b: Task)
  {
    && b.plan == a.plan && b.planHash == a.planHash && b.deadlineMs == a.deadlineMs && b.budget == a.budget
    && b.transitionLimit == a.transitionLimit && b.createdAt == a.createdAt && a.transitionsUsed <= b.transitionsUsed
  }

  predicate AttemptPersists(a: Attempt, b: Attempt)
  {
    && SameIdentity(a, b)
    && (a.dispatched ==> b.dispatched) && (a.cancelRequested ==> b.cancelRequested)
    && (a.closedAt.Some? ==> b == a)
  }

  /** Rows keep their identity, closed attempts never change, and the outbox, the
      witness index, the idempotency table and the fences only grow. */
  ghost predicate Persists(db: Db, db': Db)
  {
    && (forall t | t in db.tasks :: t in db'.tasks && TaskPersists(db.tasks[t], db'.tasks[t]))
    && (forall s | s in db.attempts :: s in db'.attempts && AttemptPersists(db.attempts[s], db'.attempts[s]))
    && |db.outbox| <= |db'.outbox| && db'.outbox[..|db.outbox|] == db.outbox
    && |db.witnesses| <= |db'.witnesses| && db'.witnesses[..|db.witnesses|] == db.witnesses
    && (forall k | k in db.idem :: k in db'.idem && db'.idem[k] == db.idem[k])
    && (forall k | k in db.fences :: k in db'.fences && db'.fences[k] == db.fences[k])
  }

  lemma PersistsTransitive(a: Db, b: Db, c: Db)
    requires Persists(a, b) && Persists(b, c)
    ensures Persists(a, c)
  {
    assert c.outbox[..|a.outbox|] == c.outbox[..|b.outbox|][..|a.outbox|];
    assert c.witnesses[..|a.witnesses|] == c.witnesses[..|b.witnesses|][..|a.witnesses|];
  }

  lemma OpenAttempt(db: Db, e: Tuple)
    requires Inv(db) && HasRows(db, e) && (Live(db, e) || CancelledLive(db, e))
    ensures Row(db, e).closedAt.None?
  {
    hide Inv, FactsOf, TaskRowOk, CostOk;
    LastRow(db, e);
    LiveIsLast(db, e);
  }

  lemma OpeningPersists(db: Db, w: Write)
    requires Inv(db) && Guard(db, w) && (w.Succeed? || w.Admit? || w.Tombstone?)
    ensures Persists(db, Put(db, w))
  {
    hide Inv, ValidPlan, Replacement, IndexOf, FailureOk, FactsOf;
    if w.Succeed? {
      OpenAttempt(db, w.tuple);
      NextKeyIsFresh(db, w.tuple, w.id);
    }
    if w.Admit? { NoAttemptsOf(db, w.plan.taskId); }
  }

  lemma RewritePersists(db: Db, w: Write)
    requires Guard(db, w) && !w.Succeed? && !w.Admit? && !w.Tombstone?
    requires Target(w).Some? && HasRows(db, Target(w).value) && (Live(db, Target(w).value) || CancelledLive(db, Target(w).value))
             ==> Row(db, Target(w).value).closedAt.None?
    ensures Persists(db, Put(db, w))
  {
    hide IsCanonical, FactsOf, CostFactOk, CompletionFactOk, Recosted, Reservation, FailureOk;
  }

  lemma WritePersists(db: Db, w: Write)
    requires Inv(db) && Guard(db, w)
    ensures Persists(db, Put(db, w))
  {
    hide Inv, Guard, Persists, Put, Live, CancelledLive;
    if w.Succeed? || w.Admit? || w.Tombstone? {
      OpeningPersists(db, w);
    } else {
      if Target(w).Some? && HasRows(db, Target(w).value) && (Live(db, Target(w).value) || CancelledLive(db, Target(w).value)) {
        OpenAttempt(db, Target(w).value);
      }
      RewritePersists(db, w);
    }
  }

  lemma NoAttemptsOf(db: Db, t: TaskId)
    requires Inv(db) && t !in db.tasks
    ensures Slot(t, 0) !in db.attempts
  {
    hide TaskOk, FactsOk;
    assert Slot(t, 0).task == t;
  }

  // ---------- ends absorb ----------

  predicate Ended(s: TaskStatus) { s.Done? || s.OrphanedTask? || s.RejectedTask? }

  /** Once a task is no longer running it gains no attempt and no tool fence, and
      never runs again; once it has ended, none of its rows changes. */
  ghost predicate Absorbs(db: Db, db': Db)
  {
    forall t | t in db.tasks && db.tasks[t].status != Running :: TaskAbsorbs(db, db', t)
  }

  ghost predicate TaskAbsorbs(db: Db, db': Db, t: TaskId)
    requires t in db.tasks
  {
    && t in db'.tasks && db'.tasks[t].status != Running
    && db'.tasks[t].transitionsUsed == db.tasks[t].transitionsUsed
    && (forall e: nat :: Slot(t, e) in db'.attempts <==> Slot(t, e) in db.attempts)
    && (forall k | k in db'.fences && k.tuple.task == t :: k in db.fences)
    && (Ended(db.tasks[t].status) ==> Frozen(db, db', t))
  }

  ghost predicate Frozen(db: Db, db': Db, t: TaskId)
    requires t in db.tasks && t in db'.tasks
  {
    && db'.tasks[t] == db.tasks[t]
    && (t in db'.control <==> t in db.control) && (t in db.control ==> db'.control[t] == db.control[t])
    && (forall e: nat | Slot(t, e) in db.attempts :: Slot(t, e) in db'.attempts && db'.attempts[Slot(t, e)] == db.attempts[Slot(t, e)])
  }

  lemma AbsorbsTransitive(a: Db, b: Db, c: Db)
    requires Absorbs(a, b) && Absorbs(b, c)
    ensures Absorbs(a, c)
  {
    forall t | t in a.tasks && a.tasks[t].status != Running ensures TaskAbsorbs(a, c, t) {
      assert TaskAbsorbs(a, b, t);
      assert TaskAbsorbs(b, c, t);
    }
  }

  /** A write on one task, or on none, leaves every other task's rows alone. */
  lemma OthersFrozen(db: Db, w: Write, t: TaskId)
    requires Applies(db, w) && (w.Tombstone? || w.Admit? ==> w.plan.taskId !in db.tasks)
    requires t in db.tasks && (Target(w).Some? ==> Target(w).value.task != t)
    ensures t in Put(db, w).tasks && Frozen(db, Put(db, w), t)
    ensures forall e: nat :: Slot(t, e) in Put(db, w).attempts <==> Slot(t, e) in db.attempts
  {
    hide Replacement, Reservation, WitnessFor, FreshTask, FreshAttempt;
  }

  lemma OthersAbsorb(db: Db, w: Write, t: TaskId)
    requires Applies(db, w) && (w.Tombstone? || w.Admit? ==> w.plan.taskId !in db.tasks)
    requires t in db.tasks && db.tasks[t].status != Running
    requires Target(w).Some? ==> Target(w).value.task != t
    ensures TaskAbsorbs(db, Put(db, w), t)
  {
    OthersFrozen(db, w, t);
    hide Frozen, Replacement, Reservation, WitnessFor, FreshTask, FreshAttempt;
  }

  /** Of the writes on a task that is not running only a note and a close are allowed. */
  lemma OwnAbsorbs(db: Db, w: Write, t: TaskId)
    requires Guard(db, w) && t in db.tasks && db.tasks[t].status != Running
    requires Target(w).Some? && Target(w).value.task == t
    ensures TaskAbsorbs(db, Put(db, w), t)
  {
    hide ValidPlan, IsCanonical, Replacement, IndexOf, FailureOk, FactsOf, CostFactOk, CompletionFactOk, Recosted, Reservation;
    assert w.Note? || w.Finish?;
  }

  lemma WriteAbsorbs(db: Db, w: Write)
    requires Guard(db, w)
    ensures Absorbs(db, Put(db, w))
  {
    assert Applies(db, w) && (w.Tombstone? || w.Admit? ==> w.plan.taskId !in db.tasks);
    hide Guard, Put, Applies, TaskAbsorbs;
    forall t | t in db.tasks && db.tasks[t].status != Running ensures TaskAbsorbs(db, Put(db, w), t) {
      if Target(w).Some? && Target(w).value.task == t {
        OwnAbsorbs(db, w, t);
      } else {
        OthersAbsorb(db, w, t);
      }
    }
  }

  // ---------- one completion per task ----------

  lemma {:induction false} TwoCompletionsCounted(log: seq<Fact>, i: nat, j: nat)
    requires i < j < |log| && log[i].key == log[j].key && log[i].body.Completion? && log[j].body.Completion?
    ensures FactsOf(log, log[i].key).completions >= 2
  {
    var front := log[..|log| - 1];
    if j < |front| {
      TwoCompletionsCounted(front, i, j);
    } else {
      CompletionCounted(front, i);
    }
  }

  lemma {:induction false} CompletionCounted(log: seq<Fact>, i: nat)
    requires i < |log| && log[i].body.Completion?
    ensures FactsOf(log, log[i].key).completions >= 1
  {
    if i < |log| - 1 { CompletionCounted(log[..|log| - 1], i); }
  }

  /** A completion fact is its task's last attempt's, and the only one. */
  lemma CompletionIsLast(db: Db, i: nat)
    requires Inv(db) && i < |db.outbox| && db.outbox[i].body.Completion?
    ensures HasRows(db, db.outbox[i].key) && FactsOf(db.outbox, db.outbox[i].key).completions == 1
    ensures db.tasks[db.outbox[i].key.task].status.Done?
  {
    hide Inv, TaskRowOk, FactsOf, CostOk, WellFormed;
    var k := db.outbox[i].key;
    CompletionCounted(db.outbox, i);
    FactAttempt(db, i);
    if k.epoch < db.tasks[k.task].transitionsUsed { EarlierHaveEnded(db, k.task, k.epoch); }
    SlotsOf(db, k.task);
    assert k == Controlled(db, k.task);
    LastRow(db, k);
  }

  lemma FactAttempt(db: Db, i: nat)
    requires Inv(db) && i < |db.outbox|
    ensures var k := db.outbox[i].key;
            HasAttempt(db, k) && k.task in db.tasks && db.tasks[k.task].status != RejectedTask && k.epoch <= db.tasks[k.task].transitionsUsed
  {
    hide TaskRowOk, PastAttemptOk, LastAttemptOk, ControlOk, FactsOf, Sum, WellFormed;
    assert FactOk(db, db.outbox[i]);
    assert TaskOk(db, db.outbox[i].key.task);
  }

  /** Each task gets at most one completion fact. */
  lemma OneCompletion(db: Db, i: nat, j: nat)
    requires Inv(db) && i < |db.outbox| && j < |db.outbox|
    requires db.outbox[i].body.Completion? && db.outbox[j].body.Completion? && db.outbox[i].key.task == db.outbox[j].key.task
    ensures i == j
  {
    hide Inv, FactsOf;
    CompletionIsLast(db, i);
    CompletionIsLast(db, j);
    if i < j { TwoCompletionsCounted(db.outbox, i, j); }
    if j < i { TwoCompletionsCounted(db.outbox, j, i); }
  }

  // ---------- no replay after a side effect ----------

  /** An attempt that dispatched, or that owns a tool fence, is its task's last one. */
  lemma SideEffectIsLast(db: Db, e: Tuple)
    requires Inv(db) && FencesOk(db) && HasAttempt(db, e)
    requires Row(db, e).dispatched || exists call :: FenceKey(e, call) in db.fences
    ensures e.task in db.tasks && db.tasks[e.task].transitionsUsed == e.epoch
    ensures forall k: nat | k > e.epoch :: Slot(e.task, k) !in db.attempts
  {
    hide TaskRowOk, IdentityAt, FenceAt, LastOk, FactsOf, Sum, FactOk;
    if call :| FenceKey(e, call) in db.fences { assert FenceOwned(db, FenceKey(e, call).tuple); }
    assert TaskOk(db, e.task);
    if e.epoch < db.tasks[e.task].transitionsUsed { EarlierHaveEnded(db, e.task, e.epoch); }
  }

  // ---------- remembered answers ----------

  /** Every stored result is of its operation's kind and still says what is the case. */
  ghost predicate RepliesTruthful(db: Db)
  {
    forall k | k in db.idem :: StoredKind(k.operation, db.idem[k].result) && Truthful(db, db.idem[k].result)
  }

  lemma TruthLasts(db: Db, db': Db, r: Reply)
    requires Persists(db, db') && Absorbs(db, db') && Truthful(db, r)
    ensures Truthful(db', r)
  {
    if r.AckCancelled? { assert TaskAbsorbs(db, db', r.tuple.task); }
  }

  lemma WriteKeepsReplies(db: Db, w: Write)
    requires Inv(db) && Guard(db, w) && RepliesTruthful(db)
    ensures RepliesTruthful(Put(db, w))
  {
    hide Inv, Persists, Absorbs, Truthful, SuccessorAllowed, IsCanonical, ValidPlan;
    WritePersists(db, w);
    WriteAbsorbs(db, w);
    forall k | k in Put(db, w).idem
      ensures StoredKind(k.operation, Put(db, w).idem[k].result) && Truthful(Put(db, w), Put(db, w).idem[k].result)
    {
      if k in db.idem {
        TruthLasts(db, Put(db, w), db.idem[k].result);
      } else {
        TruthLasts(db, Put(db, w), w.row.result);
      }
    }
  }
}
