/** Every row of every task is the fold of that task's facts, in every state the
    ledger commits. */
module LedgerInvariant {
  import opened Wrappers
  import opened Payload
  import opened LedgerTables
  import opened LedgerChecks
  import opened LedgerWrites

  // ---------- the invariant ----------

  function ControlFor(s: TaskStatus): ControlStatus
  {
    match s
    case Running => ControlActive
    case CancelPending => ControlCancel
    case _ => ControlTerminal
  }

  /** The last attempt, by what became of its task. */
  ghost predicate LastOk(status: TaskStatus, plan: Plan, a: Attempt, d: KeyFacts)
  {
    && a.dispatched == (d.dispatches > 0) && d.dispatches <= 1
    && a.provider in plan.ceilings
    && a.reserved == (if a.cost.Some? then a.cost.value else plan.ceilings[a.provider])
    && (a.cost.Some? ==> Micro(a.cost.value))
    && match status
       case Running => CostOk(plan, a, d) && LiveOk(a, d)
       case CancelPending =>
         && CostOk(plan, a, d)
         && a.state == CancelRequested && a.cancelRequested && a.failure.None? && a.closedAt.None?
         && d.cancels == 1 && d.completions == 0 && d.recoveries == 0
       case OrphanedTask =>
         a.state == Orphaned && !a.dispatched && d.cancels == 0 && d.completions == 0 && d.recoveries == 1
       case Done(_) =>
         a.state == TerminalState && d.cancels <= 1 && d.completions == 1 && d.recoveries == 0
       case RejectedTask => false
  }

  ghost predicate FenceAt(db: Db, t: TaskId, e: nat)
    requires t in db.tasks && Slot(t, e) in db.attempts
  {
    FenceOk(db.attempts[Slot(t, e)].submitNotBefore, db.attempts[Slot(t, e)].createdAt, db.tasks[t].deadlineMs)
  }

  ghost predicate IdentityAt(db: Db, t: TaskId, e: nat)
    requires t in db.tasks && Slot(t, e) in db.attempts
  {
    IdentityOk(db.tasks[t].plan, t, e, db.attempts[Slot(t, e)], Prior(db, t, e), FactsAt(db, t, e))
  }

  ghost predicate PastAttemptOk(db: Db, t: TaskId, e: nat)
    requires t in db.tasks && Slot(t, e) in db.attempts
  {
    var a, d := db.attempts[Slot(t, e)], FactsAt(db, t, e);
    && IdentityAt(db, t, e) && FenceAt(db, t, e)
    && BarriersOk(d)
    && CostOk(db.tasks[t].plan, a, d) && (a.cost.Some? ==> Micro(a.cost.value))
    && PastOk(a, d, FactsAt(db, t, e + 1).identities)
    && FiledBefore(d.identities, FactsAt(db, t, e + 1).identities)
  }

  predicate FiledBefore(first: seq<IdentityFact>, second: seq<IdentityFact>)
  {
    forall i, j | 0 <= i < |first| && 0 <= j < |second| :: first[i].id < second[j].id
  }

  ghost predicate LastAttemptOk(db: Db, t: TaskId)
    requires t in db.tasks && Slot(t, db.tasks[t].transitionsUsed) in db.attempts
  {
    var e := db.tasks[t].transitionsUsed;
    && IdentityAt(db, t, e) && FenceAt(db, t, e)
    && LastOk(db.tasks[t].status, db.tasks[t].plan, db.attempts[Slot(t, e)], FactsAt(db, t, e))
  }

  ghost predicate ControlOk(db: Db, t: TaskId)
    requires t in db.tasks && Slot(t, db.tasks[t].transitionsUsed) in db.attempts
  {
    var used := db.tasks[t].transitionsUsed;
    && t in db.control
    && db.control[t] == Control(db.attempts[Slot(t, used)].id, used, ControlFor(db.tasks[t].status))
  }

  ghost predicate TaskOk(db: Db, t: TaskId)
    requires t in db.tasks
  {
    var task := db.tasks[t];
    && TaskRowOk(t, task)
    && (if task.status == RejectedTask then
          && task.transitionsUsed == 0 && task.reserved == 0 && t !in db.control
          && forall e: nat :: Slot(t, e) !in db.attempts
        else
          && SlotsExact(db, t, task.transitionsUsed)
          && ControlOk(db, t)
          && (forall e: nat | e < task.transitionsUsed :: PastAttemptOk(db, t, e))
          && LastAttemptOk(db, t)
          && Sum(db.attempts, t, task.transitionsUsed + 1) == task.reserved)
  }

  ghost predicate FactsOk(db: Db)
  {
    forall i {:trigger FactOk(db, db.outbox[i])} | 0 <= i < |db.outbox| :: FactOk(db, db.outbox[i])
  }

  ghost predicate RowsBelong(db: Db)
  {
    && (forall s | s in db.attempts :: s.task in db.tasks)
    && (forall t | t in db.control :: t in db.tasks)
  }

  ghost predicate Inv(db: Db)
  {
    && RowsBelong(db)
    && FactsOk(db)
    && (forall t {:trigger TaskOk(db, t)} | t in db.tasks :: TaskOk(db, t))
  }

  lemma EmptyInv()
    ensures Inv(EMPTY)
  {
  }

  // ---------- frames ----------

  /** Nothing of task t changed, and no fact of t was added. */
  ghost predicate SameTask(db: Db, db': Db, t: TaskId)
  {
    && t in db.tasks && t in db'.tasks && db.tasks[t] == db'.tasks[t]
    && (t in db.control <==> t in db'.control)
    && (t in db.control ==> db.control[t] == db'.control[t])
    && (forall e: nat :: Slot(t, e) in db.attempts <==> Slot(t, e) in db'.attempts)
    && (forall e: nat | Slot(t, e) in db.attempts :: db.attempts[Slot(t, e)] == db'.attempts[Slot(t, e)])
    && (forall k: Tuple | k.task == t :: FactsOf(db.outbox, k) == FactsOf(db'.outbox, k))
  }

  lemma TaskFrame(db: Db, db': Db, t: TaskId)
    requires SameTask(db, db', t) && TaskOk(db, t)
    ensures TaskOk(db', t)
  {
    var used := db.tasks[t].transitionsUsed;
    if db.tasks[t].status != RejectedTask {
      forall e: nat | e <= used + 1 ensures FactsAt(db, t, e) == FactsAt(db', t, e) && Prior(db, t, e) == Prior(db', t, e) {
      }
      SumFrame(db.attempts, db'.attempts, t, used + 1);
      forall e: nat | e < used ensures PastAttemptOk(db', t, e) {
        assert PastAttemptOk(db, t, e);
      }
    }
  }

  /** Only the last attempt of t changed, and it kept its identity; at most one
      fact was added, under the last attempt's key. */
  ghost predicate LastOnly(db: Db, db': Db, t: TaskId)
  {
    && t in db.tasks && t in db'.tasks
    && db'.tasks[t].plan == db.tasks[t].plan && db'.tasks[t].deadlineMs == db.tasks[t].deadlineMs
    && db'.tasks[t].transitionsUsed == db.tasks[t].transitionsUsed
    && (forall e: nat :: Slot(t, e) in db.attempts <==> Slot(t, e) in db'.attempts)
    && Slot(t, db.tasks[t].transitionsUsed) in db.attempts
    && (forall e: nat | e != db.tasks[t].transitionsUsed && Slot(t, e) in db.attempts ::
          db.attempts[Slot(t, e)] == db'.attempts[Slot(t, e)])
    && SameIdentity(db.attempts[Slot(t, db.tasks[t].transitionsUsed)], db'.attempts[Slot(t, db.tasks[t].transitionsUsed)])
    && |db'.outbox| == |db.outbox| + 1 && db'.outbox[..|db.outbox|] == db.outbox
    && db'.outbox[|db.outbox|].key == KeyAt(db, t, db.tasks[t].transitionsUsed)
    && !db'.outbox[|db.outbox|].body.AttemptCreated? && !db'.outbox[|db.outbox|].body.Transition?
  }

  predicate SameIdentity(a: Attempt, b: Attempt)
  {
    a.id == b.id && a.provider == b.provider && a.createdAt == b.createdAt && a.submitNotBefore == b.submitNotBefore
  }

  lemma IdentityKept(plan: Plan, t: TaskId, e: nat, a: Attempt, b: Attempt, prior: Option<Attempt>,
                     d: KeyFacts, f: Fact, id: nat)
    requires IdentityOk(plan, t, e, a, prior, d) && SameIdentity(a, b)
    requires !f.body.AttemptCreated? && !f.body.Transition?
    requires forall i | 0 <= i < |d.identities| :: d.identities[i].id < id
    ensures IdentityOk(plan, t, e, b, prior, Absorb(d, f, id))
  {
    hide IndexOf;
  }

  /** One attempt keeps its checks while its row, its facts and both neighbours'
      identities stay. */
  lemma PastKept(db: Db, db': Db, t: TaskId, e: nat)
    requires t in db.tasks && t in db'.tasks && Slot(t, e) in db.attempts && Slot(t, e) in db'.attempts
    requires db'.tasks[t].plan == db.tasks[t].plan && db'.tasks[t].deadlineMs == db.tasks[t].deadlineMs
    requires db.attempts[Slot(t, e)] == db'.attempts[Slot(t, e)]
    requires Prior(db', t, e) == Prior(db, t, e)
    requires FactsAt(db', t, e) == FactsAt(db, t, e)
    requires FactsAt(db', t, e + 1).identities == FactsAt(db, t, e + 1).identities
    requires PastAttemptOk(db, t, e)
    ensures PastAttemptOk(db', t, e)
  {
    hide IdentityOk, CostOk, BarriersOk, PastOk, FactsAt, FenceOk, FiledBefore, Prior;
  }

  /** Attempts before k keep their checks while k keeps its identity. */
  lemma EarlierFrame(db: Db, db': Db, t: TaskId, k: nat)
    requires t in db.tasks && t in db'.tasks
    requires db'.tasks[t].plan == db.tasks[t].plan && db'.tasks[t].deadlineMs == db.tasks[t].deadlineMs
    requires forall e: nat | e <= k :: Slot(t, e) in db.attempts && Slot(t, e) in db'.attempts
    requires forall e: nat | e < k :: db.attempts[Slot(t, e)] == db'.attempts[Slot(t, e)]
    requires SameIdentity(db.attempts[Slot(t, k)], db'.attempts[Slot(t, k)])
    requires forall e: nat | e < k :: FactsAt(db', t, e) == FactsAt(db, t, e)
    requires FactsAt(db', t, k).identities == FactsAt(db, t, k).identities
    requires forall e: nat | e < k :: PastAttemptOk(db, t, e)
    ensures forall e: nat | e < k :: PastAttemptOk(db', t, e)
    ensures Prior(db', t, k) == Prior(db, t, k)
    ensures Sum(db'.attempts, t, k) == Sum(db.attempts, t, k)
  {
    hide FactsAt, PastAttemptOk;
    SumFrame(db.attempts, db'.attempts, t, k);
    forall e: nat | e < k ensures PastAttemptOk(db', t, e) {
      assert Prior(db, t, e) == Prior(db', t, e);
      assert FactsAt(db', t, e + 1).identities == FactsAt(db, t, e + 1).identities;
      PastKept(db, db', t, e);
    }
  }

  lemma LastOnlyFrame(db: Db, db': Db, t: TaskId)
    requires LastOnly(db, db', t) && TaskOk(db, t) && db.tasks[t].status != RejectedTask
    ensures forall e: nat | e < db.tasks[t].transitionsUsed :: PastAttemptOk(db', t, e)
    ensures IdentityAt(db', t, db.tasks[t].transitionsUsed) && FenceAt(db', t, db.tasks[t].transitionsUsed)
    ensures FactsAt(db', t, db.tasks[t].transitionsUsed)
         == Absorb(FactsAt(db, t, db.tasks[t].transitionsUsed), db'.outbox[|db.outbox|], |db.outbox| + 1)
    ensures Sum(db'.attempts, t, db.tasks[t].transitionsUsed) == Sum(db.attempts, t, db.tasks[t].transitionsUsed)
  {
    hide TaskRowOk, IdentityOk, PastAttemptOk, LastOk, FactsOf;
    var used, f := db.tasks[t].transitionsUsed, db'.outbox[|db.outbox|];
    assert db'.outbox == db.outbox + [f];
    forall e: nat | e <= used
      ensures FactsAt(db', t, e) == if e < used then FactsAt(db, t, e) else Absorb(FactsAt(db, t, e), f, |db.outbox| + 1)
    {
      FactsOfAppend(db.outbox, f, KeyAt(db, t, e));
    }
    EarlierFrame(db, db', t, used);
    FactIdsInRange(db.outbox, KeyAt(db, t, used));
    IdentityKept(db.tasks[t].plan, t, used, db.attempts[Slot(t, used)], db'.attempts[Slot(t, used)],
                 Prior(db, t, used), FactsAt(db, t, used), f, |db.outbox| + 1);
  }

  /** Other tasks are untouched by a write on task t. */
  lemma OthersUntouched(db: Db, db': Db, t: TaskId)
    requires Inv(db)
    requires db'.tasks.Keys == db.tasks.Keys + {t}
    requires forall u | u in db.tasks && u != t ::
               db'.tasks[u] == db.tasks[u] && (u in db.control <==> u in db'.control) &&
               (u in db.control ==> db.control[u] == db'.control[u])
    requires forall s: Slot | s.task != t :: s in db.attempts <==> s in db'.attempts
    requires forall s: Slot | s.task != t && s in db.attempts :: db.attempts[s] == db'.attempts[s]
    requires forall k: Tuple | k.task != t :: FactsOf(db'.outbox, k) == FactsOf(db.outbox, k)
    ensures forall u | u in db.tasks && u != t :: TaskOk(db', u)
  {
    forall u | u in db.tasks && u != t ensures TaskOk(db', u) {
      TaskFrame(db, db', u);
    }
  }

  lemma ForeignFacts(log: seq<Fact>, f: Fact)
    ensures forall k: Tuple | k.task != f.key.task :: FactsOf(log + [f], k) == FactsOf(log, k)
  {
    forall k: Tuple | k.task != f.key.task ensures FactsOf(log + [f], k) == FactsOf(log, k) {
      FactsOfAppend(log, f, k);
    }
  }

  /** Facts stay well formed when attempts keep their ids. */
  lemma FactsFrame(db: Db, db': Db)
    requires FactsOk(db)
    requires forall s | s in db.attempts :: s in db'.attempts && db'.attempts[s].id == db.attempts[s].id
    requires |db.outbox| <= |db'.outbox| && db'.outbox[..|db.outbox|] == db.outbox
    requires forall i | |db.outbox| <= i < |db'.outbox| :: FactOk(db', db'.outbox[i])
    ensures FactsOk(db')
  {
    forall i | 0 <= i < |db'.outbox| ensures FactOk(db', db'.outbox[i]) {
      if i < |db.outbox| {
        assert db'.outbox[i] == db.outbox[i];
        assert FactOk(db, db.outbox[i]);
      }
    }
  }

  /** A live attempt is the last one of its running task. */
  lemma LiveIsLast(db: Db, e: Tuple)
    requires Inv(db) && HasRows(db, e)
    ensures db.tasks[e.task].status != RejectedTask
    ensures e.epoch == db.tasks[e.task].transitionsUsed && e == KeyAt(db, e.task, e.epoch)
    ensures ActiveRow(db, e) <==> db.tasks[e.task].status == Running
    ensures Live(db, e) <==> db.tasks[e.task].status == Running
  {
    assert TaskOk(db, e.task);
  }

  // ---------- preservation ----------

  /** What the invariant says of the attempt `active_control` names. */
  lemma LastRow(db: Db, e: Tuple)
    requires Inv(db) && HasRows(db, e)
    ensures var task := db.tasks[e.task];
            && task.status != RejectedTask && TaskRowOk(e.task, task)
            && task.transitionsUsed == e.epoch
            && db.control[e.task] == Control(e.attempt, e.epoch, ControlFor(task.status))
            && LastOk(task.status, task.plan, Row(db, e), FactsOf(db.outbox, e))
  {
    hide TaskRowOk, PastAttemptOk, IdentityOk, LastOk, FactsOf, Sum, FactOk;
    assert TaskOk(db, e.task);
  }

  lemma RewriteIsLastOnly(db: Db, e: Tuple, a: Attempt, task: Task, c: Control, body: FactBody, now: int)
    requires Inv(db) && HasRows(db, e)
    requires SameIdentity(Row(db, e), a)
    requires task.plan == db.tasks[e.task].plan && task.transitionsUsed == e.epoch
    requires TaskRowOk(e.task, task) && task.status != RejectedTask
    requires c == Control(e.attempt, e.epoch, ControlFor(task.status))
    requires !body.AttemptCreated? && !body.Transition?
    ensures LastOnly(db, Rewrite(db, e, a, task, c, body, now), e.task)
  {
    hide Inv, ValidPlan, FactsOf, LastOk;
    LastRow(db, e);
    RowSlots(db, e);
  }

  lemma RowSlots(db: Db, e: Tuple)
    requires Inv(db) && HasRows(db, e)
    ensures SlotsExact(db, e.task, e.epoch)
    ensures Sum(db.attempts, e.task, e.epoch + 1) == db.tasks[e.task].reserved
  {
    hide TaskRowOk, PastAttemptOk, LastAttemptOk, Sum, FactOk;
    assert TaskOk(db, e.task);
  }

  lemma RewriteTaskOk(db: Db, e: Tuple, a: Attempt, task: Task, c: Control, body: FactBody, now: int)
    requires Inv(db) && HasRows(db, e)
    requires SameIdentity(Row(db, e), a)
    requires task.plan == db.tasks[e.task].plan && task.transitionsUsed == e.epoch
    requires TaskRowOk(e.task, task) && task.status != RejectedTask
    requires c == Control(e.attempt, e.epoch, ControlFor(task.status))
    requires !body.AttemptCreated? && !body.Transition?
    requires LastOk(task.status, task.plan, a, Absorb(FactsOf(db.outbox, e), Fact(e, body, now), |db.outbox| + 1))
    requires task.reserved - db.tasks[e.task].reserved == a.reserved - Row(db, e).reserved
    ensures TaskOk(Rewrite(db, e, a, task, c, body, now), e.task)
  {
    hide PastAttemptOk, IdentityAt, FenceAt, TaskRowOk, LastOk, FactsOf, Absorb, LastOnly, FactOk;
    var t, db' := e.task, Rewrite(db, e, a, task, c, body, now);
    LastRow(db, e);
    RowSlots(db, e);
    RewriteIsLastOnly(db, e, a, task, c, body, now);
    assert TaskOk(db, t);
    LastOnlyFrame(db, db', t);
    assert SlotsExact(db', t, e.epoch);
  }

  /** A write on the last attempt keeps the invariant once its own row is right. */
  lemma RewriteKeepsInv(db: Db, e: Tuple, a: Attempt, task: Task, c: Control, body: FactBody, now: int)
    requires Inv(db) && HasRows(db, e)
    requires SameIdentity(Row(db, e), a)
    requires task.plan == db.tasks[e.task].plan && task.transitionsUsed == e.epoch
    requires TaskRowOk(e.task, task) && task.status != RejectedTask
    requires c == Control(e.attempt, e.epoch, ControlFor(task.status))
    requires !body.AttemptCreated? && !body.Transition?
    requires WellFormed(Fact(e, body, now))
    requires LastOk(task.status, task.plan, a, Absorb(FactsOf(db.outbox, e), Fact(e, body, now), |db.outbox| + 1))
    requires task.reserved - db.tasks[e.task].reserved == a.reserved - Row(db, e).reserved
    ensures Inv(Rewrite(db, e, a, task, c, body, now))
  {
    hide TaskOk, TaskRowOk, LastOk, FactsOf, Absorb, WellFormed;
    var f, db' := Fact(e, body, now), Rewrite(db, e, a, task, c, body, now);
    RewriteTaskOk(db, e, a, task, c, body, now);
    ForeignFacts(db.outbox, f);
    OthersUntouched(db, db', e.task);
    FactsFrame(db, db');
  }

  lemma SetStateKeepsInv(db: Db, w: Write)
    requires Inv(db) && w.SetState? && Guard(db, w)
    ensures Inv(Put(db, w))
  {
    hide Inv, ValidPlan, FactsOf, IsCanonical, IndexOf;
    var e, db' := w.tuple, Put(db, w);
    LastRow(db, e);
    RewriteKeepsInv(db, e, db'.attempts[SlotOf(e)], db'.tasks[e.task], db'.control[e.task],
                    db'.outbox[|db.outbox|].body, w.now);
  }

  lemma SetDispatchKeepsInv(db: Db, w: Write)
    requires Inv(db) && w.SetDispatch? && Guard(db, w)
    ensures Inv(Put(db, w))
  {
    hide Inv, ValidPlan, FactsOf, IsCanonical, IndexOf;
    var e, db' := w.tuple, Put(db, w);
    LastRow(db, e);
    RewriteKeepsInv(db, e, db'.attempts[SlotOf(e)], db'.tasks[e.task], db'.control[e.task],
                    db'.outbox[|db.outbox|].body, w.now);
  }

  lemma SetCostKeepsInv(db: Db, w: Write)
    requires Inv(db) && w.SetCost? && Guard(db, w)
    ensures Inv(Put(db, w))
  {
    hide Inv, ValidPlan, FactsOf, IsCanonical, IndexOf;
    var e, db' := w.tuple, Put(db, w);
    LastRow(db, e);
    RewriteKeepsInv(db, e, db'.attempts[SlotOf(e)], db'.tasks[e.task], db'.control[e.task],
                    db'.outbox[|db.outbox|].body, w.now);
  }

  lemma CancelKeepsInv(db: Db, w: Write)
    requires Inv(db) && w.Cancel? && Guard(db, w)
    ensures Inv(Put(db, w))
  {
    hide Inv, ValidPlan, FactsOf, IsCanonical, IndexOf;
    var e, db' := w.tuple, Put(db, w);
    LastRow(db, e);
    RewriteKeepsInv(db, e, db'.attempts[SlotOf(e)], db'.tasks[e.task], db'.control[e.task],
                    db'.outbox[|db.outbox|].body, w.now);
  }

  lemma FinishKeepsInv(db: Db, w: Write)
    requires Inv(db) && w.Finish? && Guard(db, w)
    ensures Inv(Put(db, w))
  {
    hide Inv, ValidPlan, FactsOf, IsCanonical, IndexOf;
    var e, db' := w.tuple, Put(db, w);
    LastRow(db, e);
    RewriteKeepsInv(db, e, db'.attempts[SlotOf(e)], db'.tasks[e.task], db'.control[e.task],
                    db'.outbox[|db.outbox|].body, w.now);
  }

  lemma OrphanKeepsInv(db: Db, w: Write)
    requires Inv(db) && w.Orphan? && Guard(db, w)
    ensures Inv(Put(db, w))
  {
    hide Inv, ValidPlan, FactsOf, IsCanonical, IndexOf;
    var e, db' := w.tuple, Put(db, w);
    LastRow(db, e);
    RewriteKeepsInv(db, e, db'.attempts[SlotOf(e)], db'.tasks[e.task], db'.control[e.task],
                    db'.outbox[|db.outbox|].body, w.now);
  }

  lemma NotesAreNotFiled(log: seq<Fact>, f: Fact)
    requires f.body.Observed? || f.body.EventAppended?
    ensures forall k: Tuple :: FactsOf(log + [f], k) == FactsOf(log, k)
  {
    hide FactsOf;
    forall k: Tuple ensures FactsOf(log + [f], k) == FactsOf(log, k) {
      FactsOfAppend(log, f, k);
    }
  }

  lemma NoteKeepsInv(db: Db, w: Write)
    requires Inv(db) && w.Note? && Guard(db, w)
    ensures Inv(Put(db, w))
  {
    hide TaskOk, FactsOf, Absorb, IsCanonical, ValidPlan;
    var db' := Put(db, w);
    FactsFrame(db, db');
    NotesAreNotFiled(db.outbox, Fact(w.tuple, w.body, w.now));
    forall t | t in db.tasks ensures TaskOk(db', t) {
      TaskFrame(db, db', t);
    }
  }

  lemma SideTablesKeepInv(db: Db, w: Write)
    requires Inv(db) && (w.Memo? || w.FenceTool?) && Guard(db, w)
    ensures Inv(Put(db, w))
  {
    hide TaskOk, FactsOf, FactOk;
    var db' := Put(db, w);
    FactsFrame(db, db');
    forall t | t in db.tasks ensures TaskOk(db', t) {
      TaskFrame(db, db', t);
    }
  }

  lemma TombstoneKeepsInv(db: Db, w: Write)
    requires Inv(db) && w.Tombstone? && Guard(db, w)
    ensures Inv(Put(db, w))
  {
    var db', t := Put(db, w), w.plan.taskId;
    FactsFrame(db, db');
    OthersUntouched(db, db', t);
    assert forall e: nat :: Slot(t, e).task == t;
    assert TaskOk(db', t);
  }

  lemma AdmitTaskOk(db: Db, w: Write)
    requires w.Admit? && Guard(db, w)
    requires RowsBelong(db) && FactsOk(db)
    ensures TaskOk(Put(db, w), w.plan.taskId)
  {
    hide FactsOf, IndexOf;
    var db', t := Put(db, w), w.plan.taskId;
    var e := Tuple(t, w.id, 0);
    var f := Fact(e, AttemptCreated(w.plan.providers[0], Sha256(w.plan)), w.now);
    forall i | 0 <= i < |db.outbox| ensures db.outbox[i].key != e {
      assert FactOk(db, db.outbox[i]);
    }
    NoFactsOf(db.outbox, e);
    FactsOfAppend(db.outbox, f, e);
    assert FactsAt(db', t, 0) == Absorb(NO_FACTS, f, |db.outbox| + 1);
    assert forall k: nat :: Slot(t, k) in db.attempts ==> Slot(t, k).task in db.tasks;
    assert SlotsExact(db', t, 0);
    assert Sum(db'.attempts, t, 1) == db'.attempts[Slot(t, 0)].reserved;
  }

  lemma AdmitKeepsInv(db: Db, w: Write)
    requires Inv(db) && w.Admit? && Guard(db, w)
    ensures Inv(Put(db, w))
  {
    hide TaskOk, FactsOf, FactsOk, ValidPlan, FreshTask, FreshAttempt;
    var db', t := Put(db, w), w.plan.taskId;
    AdmitTaskOk(db, w);
    ForeignFacts(db.outbox, db'.outbox[|db.outbox|]);
    OthersUntouched(db, db', t);
    AdmitFactsOk(db, w);
  }

  lemma AdmitFactsOk(db: Db, w: Write)
    requires FactsOk(db) && RowsBelong(db) && w.Admit? && Guard(db, w)
    ensures FactsOk(Put(db, w))
  {
    hide ValidPlan;
    assert Slot(w.plan.taskId, 0).task !in db.tasks;
    FactsFrame(db, Put(db, w));
  }

  // ---------- a successor ----------

  /** The closed predecessor passes every check on a historical attempt. */
  lemma ClosedPredecessorOk(plan: Plan, t: TaskId, e: nat, a: Attempt, prior: Option<Attempt>, d: KeyFacts,
                            w: Write, fact: Fact, id: nat)
    requires w.Succeed? && FailureOk(w.failure) && w.failure.kind == Retryable
    requires IdentityOk(plan, t, e, a, prior, d) && LastOk(Running, plan, a, d) && !a.dispatched
    requires forall i | 0 <= i < |d.identities| :: d.identities[i].id <= id
    requires d.lastRelated.Some? ==> d.lastRelated.value <= id
    requires fact.body == Transition(Tuple(t, a.id, e), a.provider, w.provider, w.failure)
    ensures var closed := a.(state := Closed, failure := Some(w.failure), closedAt := Some(fact.at));
            var d' := if w.recovered then Absorb(d, Fact(Tuple(t, a.id, e), RecoveredBeforeDispatch, fact.at), id + 1) else d;
            var at := if w.recovered then id + 2 else id + 1;
            && IdentityOk(plan, t, e, closed, prior, d') && BarriersOk(d') && CostOk(plan, closed, d')
            && PastOk(closed, d', [IdentityFact(at, fact.body, fact.at)])
            && FiledBefore(d'.identities, [IdentityFact(at, fact.body, fact.at)])
  {
    hide IndexOf;
  }

  /** What the successor's write does to the facts of the task. */
  lemma SuccessorFacts(db: Db, w: Write)
    requires Inv(db) && w.Succeed? && Guard(db, w)
    ensures var e, next, db' := w.tuple, SuccessorOf(w.tuple, w.id), Put(db, w);
            var recovered := Fact(e, RecoveredBeforeDispatch, w.now);
            var fact := Fact(next, Transition(e, Row(db, e).provider, w.provider, w.failure), w.now);
            && (forall k: Tuple | k != e && k != next :: FactsOf(db'.outbox, k) == FactsOf(db.outbox, k))
            && FactsOf(db'.outbox, e) == (if w.recovered then Absorb(FactsOf(db.outbox, e), recovered, |db.outbox| + 1)
                                          else FactsOf(db.outbox, e))
            && FactsOf(db'.outbox, next) == Absorb(NO_FACTS, fact, |db'.outbox|)
  {
    hide Inv, FactsOf, Absorb, IndexOf, ValidPlan, FailureOk, Replacement;
    var e, next, db' := w.tuple, SuccessorOf(w.tuple, w.id), Put(db, w);
    var recovered := Fact(e, RecoveredBeforeDispatch, w.now);
    var fact := Fact(next, Transition(e, Row(db, e).provider, w.provider, w.failure), w.now);
    var log := if w.recovered then db.outbox + [recovered] else db.outbox;
    NextKeyIsFresh(db, e, w.id);
    forall k: Tuple
      ensures FactsOf(log, k) == if w.recovered && k == e then Absorb(FactsOf(db.outbox, e), recovered, |db.outbox| + 1)
                                 else FactsOf(db.outbox, k)
      ensures FactsOf(db'.outbox, k) == if k == next then Absorb(FactsOf(log, k), fact, |log| + 1) else FactsOf(log, k)
    {
      FactsOfAppend(db.outbox, recovered, k);
      FactsOfAppend(log, fact, k);
    }
  }

  lemma NextKeyIsFresh(db: Db, e: Tuple, id: AttemptId)
    requires Inv(db) && HasRows(db, e)
    ensures FactsOf(db.outbox, SuccessorOf(e, id)) == NO_FACTS && Slot(e.task, e.epoch + 1) !in db.attempts
  {
    hide TaskOk, FactsOf;
    RowSlots(db, e);
    forall i | 0 <= i < |db.outbox| ensures db.outbox[i].key != SuccessorOf(e, id) {
      assert FactOk(db, db.outbox[i]);
    }
    NoFactsOf(db.outbox, SuccessorOf(e, id));
  }

  /** The inserted attempt passes every check on a running task's last attempt. */
  lemma BornSuccessorOk(plan: Plan, t: TaskId, e: nat, prior: Attempt, w: Write, id: nat)
    requires w.Succeed? && FailureOk(w.failure) && w.failure.kind == Retryable
    requires ValidPlan(t, plan) && w.provider in plan.providers && prior.provider in plan.providers
    requires IndexOf(plan.providers, prior.provider) < IndexOf(plan.providers, w.provider)
    requires TimeOk(w.now) && 250 <= w.jitter <= 750 && w.now + w.jitter < plan.deadlineMs
    ensures w.provider in plan.ceilings
    ensures FenceOk(w.now + w.jitter, w.now, plan.deadlineMs)
    ensures var body := Transition(Tuple(t, prior.id, e), prior.provider, w.provider, w.failure);
            var d := Absorb(NO_FACTS, Fact(Tuple(t, w.id, e + 1), body, w.now), id);
            var born := FreshAttempt(w.id, w.provider, plan.ceilings[w.provider], w.now, w.now + w.jitter);
            && IdentityOk(plan, t, e + 1, born, Some(prior), d)
            && LastOk(Running, plan, born, d)
  {
    hide IndexOf;
  }

  /** The task's rows after a successor's write, slot by slot. */
  ghost predicate SucceededAs(db: Db, w: Write, db': Db)
    requires w.Succeed? && Applies(db, w)
  {
    var e, next := w.tuple, SuccessorOf(w.tuple, w.id);
    var a, task := Row(db, e), db.tasks[e.task];
    && SlotsExact(db', e.task, next.epoch)
    && (forall i: nat | i < e.epoch :: Slot(e.task, i) in db.attempts
                                       && db'.attempts[Slot(e.task, i)] == db.attempts[Slot(e.task, i)])
    && db'.attempts[SlotOf(e)] == a.(state := Closed, failure := Some(w.failure), closedAt := Some(w.now))
    && db'.attempts[SlotOf(next)] == FreshAttempt(w.id, w.provider, task.plan.ceilings[w.provider], w.now, w.now + w.jitter)
    && e.task in db'.tasks && e.task in db'.control
    && db'.control[e.task] == Control(w.id, next.epoch, ControlActive)
    && db'.tasks[e.task] == task.(transitionsUsed := next.epoch,
                                  reserved := task.reserved + task.plan.ceilings[w.provider])
    && |db'.outbox| == |db.outbox| + (if w.recovered then 2 else 1)
    && db'.outbox[|db'.outbox| - 1] == Fact(next, Transition(e, a.provider, w.provider, w.failure), w.now)
  }

  lemma SucceedShape(db: Db, w: Write)
    requires Inv(db) && w.Succeed? && Guard(db, w)
    ensures SucceededAs(db, w, Put(db, w))
  {
    hide Inv, FactsOf, IdentityOk, ValidPlan, IndexOf, FailureOk, BarriersOk;
    LastRow(db, w.tuple);
    RowSlots(db, w.tuple);
  }

  ghost predicate TaskGood(db: Db, t: TaskId) { t in db.tasks && TaskOk(db, t) }

  /** What the invariant says of the attempts before the controlled one. */
  lemma EarlierRows(db: Db, e: Tuple)
    requires Inv(db) && HasRows(db, e)
    ensures forall i: nat | i < e.epoch :: Slot(e.task, i) in db.attempts && PastAttemptOk(db, e.task, i)
    ensures IdentityAt(db, e.task, e.epoch) && FenceAt(db, e.task, e.epoch)
  {
    hide TaskRowOk, PastAttemptOk, IdentityAt, FenceAt, LastOk, Sum, FactOk;
    LastRow(db, e);
    assert TaskOk(db, e.task);
  }

  /** The facts of the attempts up to the predecessor, after the successor's write. */
  lemma SucceedEarlierFacts(db: Db, w: Write)
    requires Inv(db) && w.Succeed? && Guard(db, w)
    ensures var t, k, db' := w.tuple.task, w.tuple.epoch, Put(db, w);
            && SucceededAs(db, w, db') && Slot(t, k) in db.attempts
            && (forall i: nat | i < k :: FactsAt(db', t, i) == FactsAt(db, t, i))
            && FactsAt(db', t, k) == (if w.recovered then Absorb(FactsAt(db, t, k), Fact(w.tuple, RecoveredBeforeDispatch, w.now), |db.outbox| + 1)
                                      else FactsAt(db, t, k))
            && FactsAt(db', t, k).identities == FactsAt(db, t, k).identities
            && FactsAt(db', t, k + 1).identities == [IdentityFact(|db'.outbox|, db'.outbox[|db'.outbox| - 1].body, w.now)]
  {
    hide Inv, Put, FactsOf, Absorb, ValidPlan, IndexOf, FailureOk, Replacement;
    var e, next, db' := w.tuple, SuccessorOf(w.tuple, w.id), Put(db, w);
    var t, k := e.task, e.epoch;
    SucceedShape(db, w);
    SuccessorFacts(db, w);
    LastRow(db, e);
    RowSlots(db, e);
    forall i: nat | i < k ensures FactsAt(db', t, i) == FactsAt(db, t, i) {
      assert KeyAt(db, t, i) != e && KeyAt(db, t, i) != next;
    }
    AbsorbKeepsIdentities(FactsOf(db.outbox, e), Fact(e, RecoveredBeforeDispatch, w.now), |db.outbox| + 1);
    FirstIdentity(db'.outbox[|db'.outbox| - 1], |db'.outbox|);
  }

  lemma SucceedKeepsEarlier(db: Db, w: Write)
    requires Inv(db) && w.Succeed? && Guard(db, w)
    ensures var t, k, db' := w.tuple.task, w.tuple.epoch, Put(db, w);
            && SucceededAs(db, w, db')
            && (forall i: nat | i < k :: Slot(t, i) in db'.attempts && PastAttemptOk(db', t, i))
            && Prior(db', t, k) == Prior(db, t, k) && Sum(db'.attempts, t, k) == Sum(db.attempts, t, k)
  {
    hide Inv, Put, FactsAt, IdentityOk, PastAttemptOk, ValidPlan, IndexOf, FailureOk, Replacement, LastOk, IdentityAt;
    SucceedEarlierFacts(db, w);
    LastRow(db, w.tuple);
    RowSlots(db, w.tuple);
    EarlierRows(db, w.tuple);
    EarlierFrame(db, Put(db, w), w.tuple.task, w.tuple.epoch);
  }

  lemma SucceedPredecessor(db: Db, w: Write)
    requires Inv(db) && w.Succeed? && Guard(db, w)
    ensures var t, k, db' := w.tuple.task, w.tuple.epoch, Put(db, w);
            && t in db'.tasks && (forall i: nat | i <= k :: Slot(t, i) in db'.attempts && PastAttemptOk(db', t, i))
            && Sum(db'.attempts, t, k + 1) == db.tasks[t].reserved
  {
    hide Inv, Put, FactsOf, FactsAt, Absorb, IdentityOk, BarriersOk, PastOk, CostOk, LiveOk, ValidPlan, IndexOf, FailureOk, Replacement, FiledBefore, Prior;
    var e, db' := w.tuple, Put(db, w);
    var t, k, a := e.task, e.epoch, Row(db, e);
    SucceedKeepsEarlier(db, w);
    SucceedEarlierFacts(db, w);
    LastRow(db, e);
    RowSlots(db, e);
    EarlierRows(db, e);
    PredecessorBounds(db, e);
    ClosedPredecessorOk(db.tasks[t].plan, t, k, a, Prior(db, t, k), FactsAt(db, t, k), w, db'.outbox[|db'.outbox| - 1], |db.outbox|);
    assert PastAttemptOk(db', t, k);
  }

  lemma PredecessorBounds(db: Db, e: Tuple)
    requires Inv(db) && HasRows(db, e)
    ensures var d := FactsAt(db, e.task, e.epoch);
            && d == FactsOf(db.outbox, e)
            && (forall i | 0 <= i < |d.identities| :: d.identities[i].id <= |db.outbox|)
            && (d.lastRelated.Some? ==> d.lastRelated.value <= |db.outbox|)
  {
    hide Inv, FactsOf;
    LastRow(db, e);
    LiveIsLast(db, e);
    FactIdsInRange(db.outbox, e);
  }

  lemma SucceedTaskOk(db: Db, w: Write)
    requires Inv(db) && w.Succeed? && Guard(db, w)
    ensures TaskGood(Put(db, w), w.tuple.task)
  {
    hide Inv, Put, FactsOf, Absorb, IdentityOk, PastAttemptOk, LastOk, ValidPlan, IndexOf, FailureOk, Replacement;
    var e, next, db' := w.tuple, SuccessorOf(w.tuple, w.id), Put(db, w);
    var t, k, plan := e.task, e.epoch, db.tasks[w.tuple.task].plan;
    SucceedShape(db, w);
    SuccessorFacts(db, w);
    SucceedPredecessor(db, w);
    LastRow(db, e);
    BornSuccessorOk(plan, t, k, db'.attempts[Slot(t, k)], w, |db'.outbox|);
    assert LastAttemptOk(db', t);
  }

  lemma AbsorbKeepsIdentities(d: KeyFacts, f: Fact, id: nat)
    requires !f.body.AttemptCreated? && !f.body.Transition?
    ensures Absorb(d, f, id).identities == d.identities
  {
  }

  lemma FirstIdentity(f: Fact, id: nat)
    requires f.body.Transition?
    ensures Absorb(NO_FACTS, f, id).identities == [IdentityFact(id, f.body, f.at)]
  {
  }

  lemma SucceedFactsOk(db: Db, w: Write)
    requires Inv(db) && w.Succeed? && Guard(db, w)
    ensures FactsOk(Put(db, w))
  {
    hide TaskOk, FactsOf, ValidPlan, IndexOf, FailureOk, Replacement;
    NextKeyIsFresh(db, w.tuple, w.id);
    FactsFrame(db, Put(db, w));
  }

  lemma SucceedKeepsInv(db: Db, w: Write)
    requires Inv(db) && w.Succeed? && Guard(db, w)
    ensures Inv(Put(db, w))
  {
    hide TaskOk, FactsOf, FactsOk, ValidPlan, IndexOf, FailureOk, Replacement;
    SucceedTaskOk(db, w);
    SuccessorFacts(db, w);
    OthersUntouched(db, Put(db, w), w.tuple.task);
    SucceedFactsOk(db, w);
  }

  // ---------- the invariant holds along every chain of writes ----------

  lemma WriteKeepsInv(db: Db, w: Write)
    requires Inv(db) && Guard(db, w)
    ensures Inv(Put(db, w))
  {
    hide Inv, Guard, Put;
    match w
    case Tombstone(_, _) => TombstoneKeepsInv(db, w);
    case Admit(_, _, _) => AdmitKeepsInv(db, w);
    case Note(_, _, _) => NoteKeepsInv(db, w);
    case SetState(_, _, _, _) => SetStateKeepsInv(db, w);
    case SetDispatch(_, _) => SetDispatchKeepsInv(db, w);
    case SetCost(_, _, _, _) => SetCostKeepsInv(db, w);
    case Cancel(_, _) => CancelKeepsInv(db, w);
    case Finish(_, _, _, _, _) => FinishKeepsInv(db, w);
    case Orphan(_, _) => OrphanKeepsInv(db, w);
    case Succeed(_, _, _, _, _, _, _) => SucceedKeepsInv(db, w);
    case FenceTool(_, _, _) => SideTablesKeepInv(db, w);
    case Memo(_, _) => SideTablesKeepInv(db, w);
  }

  lemma {:induction false} ChainKeepsInv(db: Db, ws: seq<Write>)
    requires Inv(db) && Chain(db, ws)
    ensures Inv(PutAll(db, ws))
    decreases |ws|
  {
    hide Inv, Put;
    if ws != [] {
      WriteKeepsInv(db, ws[0]);
      ChainKeepsInv(Put(db, ws[0]), ws[1..]);
    }
  }
}
