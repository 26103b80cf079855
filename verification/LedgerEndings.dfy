/** How attempts end: what each closing call answers, the rows and the facts it leaves,
    and what a terminal poll gets when it is repeated. */
module LedgerEndings {
  import opened Wrappers
  import opened Payload
  import opened LedgerTables
  import opened LedgerChecks
  import opened LedgerWrites
  import opened LedgerInvariant
  import opened LedgerFold
  import opened LedgerOps
  import opened LedgerChains
  import opened LedgerBudget
  import opened LedgerHistory
  import opened LedgerRuns
  import opened LedgerLimits
  import opened LedgerFused
  import opened LedgerAnswers
  import opened LedgerEvidence

  // ---------- the source a completion names ----------

  predicate IsCostOf(f: Fact, e: Tuple) { f.key == e && f.body.Cost? }

  predicate HasCostFact(log: seq<Fact>, e: Tuple)
  {
    exists i :: 0 <= i < |log| && IsCostOf(log[i], e)
  }

  /** `source` is what the newest cost fact of e names, or nothing if it has none. */
  predicate NewestSource(log: seq<Fact>, e: Tuple, source: Option<CostSource>)
  {
    || (source.None? && !HasCostFact(log, e))
    || (exists i :: 0 <= i < |log| && IsCostOf(log[i], e) && log[i].body.costSource == source
                    && forall j | i < j < |log| :: !IsCostOf(log[j], e))
  }

  lemma {:induction false} LatestIsNewest(log: seq<Fact>, e: Tuple)
    ensures NewestSource(log, e, LatestCostSource(log, e))
    ensures FactsOf(log, e).costs == [] <==> !HasCostFact(log, e)
  {
    if log != [] {
      var front, f := log[..|log| - 1], log[|log| - 1];
      LatestIsNewest(front, e);
      if IsCostOf(f, e) {
        assert IsCostOf(log[|log| - 1], e);
      } else {
        forall j: nat | j < |front| ensures log[j] == front[j] {
        }
        NewestStays(front, f, e, LatestCostSource(front, e));
        assert log == front + [f];
      }
    }
  }

  lemma NewestStays(log: seq<Fact>, f: Fact, e: Tuple, source: Option<CostSource>)
    requires !IsCostOf(f, e)
    ensures NewestSource(log + [f], e, source) <==> NewestSource(log, e, source)
    ensures HasCostFact(log + [f], e) <==> HasCostFact(log, e)
  {
    var longer := log + [f];
    assert forall i | 0 <= i < |log| :: longer[i] == log[i];
    assert forall i | 0 <= i < |longer| && IsCostOf(longer[i], e) :: i < |log|;
    if i :| 0 <= i < |log| && IsCostOf(log[i], e) { assert IsCostOf(longer[i], e); }
    if i :| 0 <= i < |log| && IsCostOf(log[i], e) && log[i].body.costSource == source && forall j | i < j < |log| :: !IsCostOf(log[j], e) {
      assert IsCostOf(longer[i], e) && longer[i].body.costSource == source;
    }
  }

  /** A completion names the source it was given, or the newest one. */
  predicate Marked(log: seq<Fact>, e: Tuple, given: Option<CostSource>, mark: Option<CostSource>)
  {
    if given.Some? then mark == given else NewestSource(log, e, mark)
  }

  // ---------- what is filed before the end, and the end ----------

  /** From db to db' attempt e costs `cost`, its task reserves accordingly, and the facts
      were appended; no other row moved. */
  predicate Filed(db: Db, db': Db, e: Tuple, cost: Option<int>, facts: seq<Fact>)
    requires HasRows(db, e)
  {
    var a, task := Row(db, e), db.tasks[e.task];
    && db'.attempts == db.attempts[SlotOf(e) := a.(cost := cost, reserved := if cost.Some? then cost.value else a.reserved)]
    && db'.tasks == db.tasks[e.task := task.(reserved := AmountWith(db, e, cost))]
    && db'.control == db.control && db'.outbox == db.outbox + facts
  }

  /** Attempt e, its task and active_control ended together: the row is terminal with the
      failure given and the final cost, the task has the outcome, and the log ends with a
      completion of the same outcome and the reported cost. */
  predicate EndedAs(db: Db, db': Db, e: Tuple, outcome: Outcome, failure: Option<Failure>, cost: Option<int>,
                    facts: seq<Fact>, reported: Option<int>, source: Option<CostSource>, now: int)
    requires HasRows(db, e)
  {
    var a, task, n := Row(db, e), db.tasks[e.task], |db'.outbox|;
    && db'.attempts == db.attempts[SlotOf(e) :=
         a.(state := TerminalState, closedAt := Some(now), failure := if failure.Some? then failure else a.failure,
            cost := cost, reserved := if cost.Some? then cost.value else a.reserved)]
    && db'.tasks == db.tasks[e.task := task.(status := Done(outcome), reserved := AmountWith(db, e, cost))]
    && db'.control == db.control[e.task := Control(e.attempt, e.epoch, ControlTerminal)]
    && n == |db.outbox| + |facts| + 1 && db'.outbox[..n - 1] == db.outbox + facts
    && db'.outbox[n - 1].key == e && db'.outbox[n - 1].at == now
    && db'.outbox[n - 1].body.Completion?
    && db'.outbox[n - 1].body.outcome == outcome && db'.outbox[n - 1].body.finalCost == reported
    && Marked(db.outbox + facts, e, source, db'.outbox[n - 1].body.completionSource)
  }

  lemma NothingFiled(db: Db, e: Tuple)
    requires Inv(db) && HasRows(db, e)
    ensures Filed(db, db, e, Row(db, e).cost, [])
  {
    LastReservation(db, e);
    hide Inv;
    assert db.attempts == db.attempts[SlotOf(e) := Row(db, e)] && db.tasks == db.tasks[e.task := db.tasks[e.task]];
  }

  /** The observation that goes with a failure. */
  function FailureNote(e: Tuple, failure: Option<Failure>, source: Option<FailureSource>, now: int): seq<Fact>
  {
    if failure.Some? then [Fact(e, Observed(failure.value, source), now)] else []
  }

  lemma NoteIsFiled(db: Db, db1: Db, e: Tuple, cost: Option<int>, facts: seq<Fact>, failure: Option<Failure>,
                    source: Option<FailureSource>, now: int)
    requires HasRows(db, e) && HasRows(db1, e) && Filed(db, db1, e, cost, facts)
    ensures Filed(db, NoteFailure(db1, e, failure, source, now), e, cost, facts + FailureNote(e, failure, source, now))
  {
    assert db.outbox + (facts + FailureNote(e, failure, source, now)) == (db.outbox + facts) + FailureNote(e, failure, source, now);
  }

  lemma CostIsFiled(db: Db, w: Write)
    requires w.SetCost? && HasRows(db, w.tuple)
    ensures Filed(db, Put(db, w), w.tuple, w.cost, [Fact(w.tuple, w.body, w.now)])
  {
    assert db.control == db.control[w.tuple.task := db.control[w.tuple.task]];
  }

  /** The end's row changes on top of what was filed. */
  lemma FinishEnds(db: Db, db1: Db, e: Tuple, held: Option<int>, facts: seq<Fact>, w: Write, source: Option<CostSource>)
    requires HasRows(db, e) && HasRows(db1, e) && Filed(db, db1, e, held, facts)
    requires w.Finish? && w.tuple == e && w.body.Completion? && (w.cost.None? ==> held.None?)
    requires Marked(db1.outbox, e, source, w.body.completionSource)
    ensures EndedAs(db, Put(db1, w), e, w.body.outcome, w.closing, w.cost, facts, w.body.finalCost, source, w.now)
  {
    hide Marked;
    var db' := Put(db1, w);
    assert db'.outbox == (db.outbox + facts) + [Fact(e, w.body, w.now)];
    assert db'.outbox[..|db'.outbox| - 1] == db.outbox + facts;
    assert db'.outbox[|db'.outbox| - 1] == Fact(e, w.body, w.now);
  }

  // ---------- completion ----------

  /** The cost a completion leaves: the one given, or the row's. */
  function FinalCost(db: Db, e: Tuple, actual: Option<int>): Option<int>
    requires HasRows(db, e)
  {
    if actual.Some? then actual else Row(db, e).cost
  }

  /** A given source must fit the final cost; the newest one always does. */
  predicate GivenSourceFits(cost: Option<int>, source: Option<CostSource>)
  {
    source.Some? ==> SourceFits(cost, source)
  }

  lemma CompleteFits(db: Db, e: Tuple, actual: Option<int>, source: Option<CostSource>)
    requires Inv(db) && HasRows(db, e) && ClosableStatus(db.tasks[e.task].status)
    ensures var mark := if source.Some? then source else LatestCostSource(db.outbox, e);
            CostPayloadOk(FinalCost(db, e, actual), mark) <==> GivenSourceFits(FinalCost(db, e, actual), source)
  {
    hide Inv, LatestCostSource;
    LatestSourceFits(db, e);
  }

  lemma MarkIsMarked(log: seq<Fact>, e: Tuple, source: Option<CostSource>)
    ensures Marked(log, e, source, if source.Some? then source else LatestCostSource(log, e))
  {
    hide LatestCostSource, NewestSource;
    LatestIsNewest(log, e);
  }

  /** `complete_if_active` ends a usable attempt before its deadline with the outcome and
      the cost it was given, unless the amount or the source does not fit. */
  lemma CompleteAnswers(db: Db, g: map<Tuple, int>, e: Tuple, outcome: Outcome, actual: Option<int>,
                        source: Option<CostSource>, now: int)
    requires Inv(db) && TimeOk(now) && (actual.Some? ==> Micro(actual.value))
    ensures IsCurrent(db, e) ==> HasRows(db, e)
    ensures var r := Complete(db, g, e, outcome, actual, source, now);
            if IsOverflown(db, e) then r == Raise(db, g, CorruptLedger)
            else if !IsCurrent(db, e) || now >= db.tasks[e.task].deadlineMs then r == Answer(db, g, Nothing)
            else if AmountWith(db, e, FinalCost(db, e, actual)) > SAFE_INTEGER_MAX then r == Raise(db, g, CorruptLedger)
            else if !GivenSourceFits(FinalCost(db, e, actual), source) then r == Raise(db, g, InvalidInput)
            else
              && r.reply == ClosedTerminal(e, outcome, None)
              && EndedAs(db, r.db, e, outcome, None, FinalCost(db, e, actual), [], FinalCost(db, e, actual), source, now)
  {
    hide Inv, PlanChecks, ActiveLookup, CostPayloadOk, LatestCostSource, Put, EndedAs, Marked, GivenSourceFits, Live, Filed;
    LookupMeans(db, e);
    if IsUsable(db, e) {
      AmountsAreNatural(db, e);
      CompleteFits(db, e, actual, source);
      NothingFiled(db, e);
      MarkIsMarked(db.outbox, e, source);
      var mark := if source.Some? then source else LatestCostSource(db.outbox, e);
      var final := FinalCost(db, e, actual);
      FinishEnds(db, db, e, Row(db, e).cost, [], Finish(e, final, None, Completion(outcome, final, mark), now), source);
    }
  }

  /** A recovery that finds a dispatch, or no time left, ends the attempt as uncertain. */
  lemma UncertainEnds(db: Db, g: map<Tuple, int>, e: Tuple, key: string, now: int)
    requires Inv(db) && IsCurrent(db, e)
    ensures HasRows(db, e)
    ensures var r := RecoverUncertain(db, g, e, key, now);
            && r.reply == RecoveredTerminal(e) && r.guards == g
            && EndedAs(db, r.db, e, DoneUncertain, None, Row(db, e).cost, [], Row(db, e).cost, None, now)
  {
    hide Inv, LatestCostSource, CostPayloadOk, Put, EndedAs, Marked, Filed, Live;
    LookupMeans(db, e);
    LatestSourceFits(db, e);
    NothingFiled(db, e);
    MarkIsMarked(db.outbox, e, None);
    var w := Finish(e, Row(db, e).cost, None, Completion(DoneUncertain, Row(db, e).cost, LatestCostSource(db.outbox, e)), now);
    FinishEnds(db, db, e, Row(db, e).cost, [], w, None);
    RememberedFrame(Put(db, w), OpRecovery, Some(key), e, RecoveredTerminal(e));
    EndedFrame(db, Put(db, w), RecoverUncertain(db, g, e, key, now).db, e, DoneUncertain, None, Row(db, e).cost, [], Row(db, e).cost, None, now);
  }

  /** Remembering an answer changes nothing of the end. */
  lemma EndedFrame(db: Db, db': Db, remembered: Db, e: Tuple, outcome: Outcome, failure: Option<Failure>, cost: Option<int>,
                   facts: seq<Fact>, reported: Option<int>, source: Option<CostSource>, now: int)
    requires HasRows(db, e) && EndedAs(db, db', e, outcome, failure, cost, facts, reported, source, now)
    requires remembered.attempts == db'.attempts && remembered.tasks == db'.tasks
    requires remembered.control == db'.control && remembered.outbox == db'.outbox
    ensures EndedAs(db, remembered, e, outcome, failure, cost, facts, reported, source, now)
  {
    hide Marked, AmountWith;
  }

  /** `recover_pre_dispatch`: an attempt that dispatched, or is out of time, ends as
      uncertain; one that still waits behind its fence keeps waiting; any other is orphaned. */
  lemma PreDispatchAnswers(db: Db, g: map<Tuple, int>, e: Tuple, now: int)
    requires Inv(db) && TimeOk(now)
    ensures IsCurrent(db, e) ==> HasRows(db, e)
    ensures var r := RecoverPreDispatch(db, g, e, now);
            if IsOverflown(db, e) then r == Raise(db, g, CorruptLedger)
            else if !IsCurrent(db, e) then r == Answer(db, g, Nothing)
            else if Row(db, e).dispatched || now >= db.tasks[e.task].deadlineMs then
              && r.reply == ClosedTerminal(e, DoneUncertain, None)
              && EndedAs(db, r.db, e, DoneUncertain, None, Row(db, e).cost, [], Row(db, e).cost, None, now)
            else if Row(db, e).submitNotBefore != 0 then r == Answer(db, g, PendingSubmit(e, Row(db, e).submitNotBefore))
            else
              && r.reply == OrphanedReply(e)
              && r.db.tasks == db.tasks[e.task := db.tasks[e.task].(status := OrphanedTask)]
              && r.db.control == db.control[e.task := Control(e.attempt, e.epoch, ControlTerminal)]
              && NowHolds(db, r.db, e, Row(db, e).(state := Orphaned, closedAt := Some(now)), RecoveredBeforeDispatch, now)
  {
    hide Inv, PlanChecks, ActiveLookup, CostPayloadOk, LatestCostSource, EndedAs, Marked, Live, Filed;
    LookupMeans(db, e);
    if IsUsable(db, e) {
      LatestSourceFits(db, e);
      NothingFiled(db, e);
      MarkIsMarked(db.outbox, e, None);
      var w := Finish(e, Row(db, e).cost, None, Completion(DoneUncertain, Row(db, e).cost, LatestCostSource(db.outbox, e)), now);
      FinishEnds(db, db, e, Row(db, e).cost, [], w, None);
    }
  }

  // ---------- closing with cost evidence ----------

  /** e is the last attempt of a task that runs or waits for its cancel to be carried out. */
  predicate IsOpen(db: Db, e: Tuple)
  {
    && e.task in db.tasks && (db.tasks[e.task].status == Running || db.tasks[e.task].status == CancelPending)
    && db.tasks[e.task].transitionsUsed == e.epoch
    && SlotOf(e) in db.attempts && db.attempts[SlotOf(e)].id == e.attempt
  }

  lemma OpenHasRows(db: Db, e: Tuple)
    requires Inv(db) && IsOpen(db, e)
    ensures HasRows(db, e) && ClosableStatus(db.tasks[e.task].status)
  {
    hide TaskRowOk, IdentityAt, FenceAt, LastOk, FactsOf, Sum, FactOk, PastAttemptOk;
    assert TaskOk(db, e.task);
  }

  lemma OpenMeans(db: Db, e: Tuple)
    requires Inv(db)
    ensures IsOpen(db, e) <==> HasRows(db, e) && db.control[e.task].status != ControlTerminal && !EndedState(Row(db, e).state)
    ensures IsOpen(db, e) ==> ClosableStatus(db.tasks[e.task].status) && (db.tasks[e.task].status == Running <==> IsCurrent(db, e))
    ensures IsOpen(db, e) && !IsCurrent(db, e) ==> CancelledLive(db, e)
  {
    if IsOpen(db, e) { OpenHasRows(db, e); }
    if HasRows(db, e) { LastRow(db, e); }
    hide Inv, TaskRowOk, FactsOf, CostOk;
  }

  /** The evidence passes: on a running task as everywhere else; on a cancelled one only if
      it is already on record. */
  ghost predicate EvidenceTaken(db: Db, e: Tuple, ev: Option<Evidence>)
    requires HasRows(db, e)
  {
    ev.Some? ==>
      if IsCurrent(db, e) then EvidenceFits(db, e, ev.value)
      else
        && AmountsAgree(db.outbox, e, ev.value.actual) && Reported(db.outbox, e, ev.value.actual)
        && (ev.value.actual.Some? ==> Row(db, e).cost == ev.value.actual)
        && db.tasks[e.task].reserved <= SAFE_INTEGER_MAX
  }

  /** The cost fact of the evidence, unless the log and the row already say the same. */
  function EvidenceNote(db: Db, e: Tuple, ev: Option<Evidence>, now: int): seq<Fact>
    requires HasRows(db, e)
  {
    if ev.None? || (Reported(db.outbox, e, ev.value.actual) && HeldCost(db, e, ev) == Row(db, e).cost) then []
    else [Fact(e, Cost(ev.value.actual, Some(ev.value.source)), now)]
  }

  lemma HeldIsTaken(db: Db, e: Tuple, ev: Evidence)
    requires Inv(db) && CancelledLive(db, e)
    ensures EvidenceHeld(db, e, ev) <==> EvidenceTaken(db, e, Some(ev))
  {
    AgreeMeans(db.outbox, e, ev.actual);
    ListedIsReported(db.outbox, e, ev.actual);
    AmountsAreNatural(db, e);
    hide Inv, FactsOf, CostsDisagree, CostCompatible, Reported, AmountsAgree;
  }

  lemma TakenMeans(db: Db, e: Tuple, ev: Evidence, now: int)
    requires Inv(db) && IsOpen(db, e) && EvidenceOk(Some(ev)) && TimeOk(now)
    ensures HasRows(db, e)
    ensures ApplyEvidence(db, e, ev, now, true).Some? <==> EvidenceTaken(db, e, Some(ev))
  {
    hide Inv, ApplyEvidence, EvidenceFits, EvidenceHeld, EvidenceTaken, Reported, AmountsAgree, EvidenceOk, CancelledLive, HasRows, IsOpen;
    OpenMeans(db, e);
    if IsCurrent(db, e) {
      EvidenceMeans(db, e, ev, now, true);
      TakenOfCurrent(db, e, ev);
    } else {
      HeldIsTaken(db, e, ev);
      CancelledEvidence(db, e, ev, now);
    }
  }

  lemma TakenOfCurrent(db: Db, e: Tuple, ev: Evidence)
    requires HasRows(db, e) && IsCurrent(db, e)
    ensures EvidenceTaken(db, e, Some(ev)) <==> EvidenceFits(db, e, ev)
  {
  }

  /** What accepted evidence leaves. */
  lemma TakenIsFiled(db: Db, e: Tuple, ev: Evidence, now: int)
    requires Inv(db) && HasRows(db, e) && ApplyEvidence(db, e, ev, now, true).Some?
    ensures Filed(db, ApplyEvidence(db, e, ev, now, true).value, e, HeldCost(db, e, Some(ev)), EvidenceNote(db, e, Some(ev), now))
  {
    ListedIsReported(db.outbox, e, ev.actual);
    NothingFiled(db, e);
    var w := SetCost(e, HeldCost(db, e, Some(ev)), Cost(ev.actual, Some(ev.source)), now);
    CostIsFiled(db, w);
    hide Inv, ActiveLookup, CostsDisagree, CostCompatible, Reported, FactsOf, Put, Filed;
  }

  lemma TakenKeepsInv(db: Db, e: Tuple, ev: Evidence, now: int)
    requires Inv(db) && HasRows(db, e) && EvidenceOk(Some(ev)) && TimeOk(now) && ApplyEvidence(db, e, ev, now, true).Some?
    ensures Inv(ApplyEvidence(db, e, ev, now, true).value) && HasRows(ApplyEvidence(db, e, ev, now, true).value, e)
  {
    hide Inv, ApplyEvidence, Reaches, EvidenceOk, HasRows;
    NoWrites(db, now);
    EvidenceReaches(db, db, e, ev, now, true);
  }

  /** Closing after the cost was settled. */
  lemma CloseOutMeans(db: Db, db1: Db, e: Tuple, cost: Option<int>, facts: seq<Fact>, outcome: Outcome, failure: Option<Failure>,
                      failureSource: Option<FailureSource>, reported: Option<int>, source: Option<CostSource>, now: int)
    requires Inv(db1) && HasRows(db, e) && HasRows(db1, e) && Filed(db, db1, e, cost, facts)
    requires ClosableStatus(db.tasks[e.task].status) && (reported.None? ==> cost.None?)
    ensures var r := CloseOut(db1, e, outcome, failure, failureSource, reported, source, now);
            if !GivenSourceFits(reported, source) then r == Raised(InvalidInput)
            else
              && r.Worked?
              && EndedAs(db, r.after, e, outcome, failure, cost, facts + FailureNote(e, failure, failureSource, now), reported, source, now)
  {
    var db2 := NoteFailure(db1, e, failure, failureSource, now);
    NoteIsFiled(db, db1, e, cost, facts, failure, failureSource, now);
    LatestSourceFits(db1, e);
    NotesKeepSource(db1, e, failure, failureSource, now);
    MarkIsMarked(db2.outbox, e, source);
    hide Inv, LatestCostSource, Marked, NoteFailure, FailureNote;
    var mark := if source.Some? then source else LatestCostSource(db2.outbox, e);
    var w := Finish(e, Row(db2, e).cost, failure, Completion(outcome, reported, mark), now);
    FinishEnds(db, db2, e, cost, facts + FailureNote(e, failure, failureSource, now), w, source);
    hide EndedAs, Put;
  }

  lemma ReconcileMeans(db: Db, e: Tuple, outcome: Outcome, source: Option<CostSource>, failure: Option<Failure>,
                       failureSource: Option<FailureSource>, ev: Option<Evidence>, now: int)
    requires Inv(db) && IsOpen(db, e) && EvidenceOk(ev) && TimeOk(now)
    ensures HasRows(db, e)
    ensures var r := ReconcileAndClose(db, e, outcome, source, failure, failureSource, ev, now);
            if !EvidenceTaken(db, e, ev) then r == Raised(CorruptLedger)
            else if !GivenSourceFits(HeldCost(db, e, ev), source) then r == Raised(InvalidInput)
            else
              && r.Worked?
              && EndedAs(db, r.after, e, outcome, failure, HeldCost(db, e, ev),
                         EvidenceNote(db, e, ev, now) + FailureNote(e, failure, failureSource, now), HeldCost(db, e, ev), source, now)
  {
    hide Inv, ApplyEvidence, EvidenceTaken, CloseOut, EndedAs, GivenSourceFits, FailureNote, EvidenceNote, EvidenceOk, IsCurrent;
    OpenHasRows(db, e);
    if ev.Some? {
      TakenMeans(db, e, ev.value, now);
    } else {
      NothingFiled(db, e);
      NoEvidencePasses(db, e, now);
    }
    var db1 := if ev.Some? then ApplyEvidence(db, e, ev.value, now, true) else Some(db);
    if db1.Some? {
      if ev.Some? {
        TakenIsFiled(db, e, ev.value, now);
        TakenKeepsInv(db, e, ev.value, now);
      }
      CloseOutMeans(db, db1.value, e, HeldCost(db, e, ev), EvidenceNote(db, e, ev, now), outcome, failure, failureSource,
                    HeldCost(db, e, ev), source, now);
      FiledRow(db, db1.value, e, HeldCost(db, e, ev), EvidenceNote(db, e, ev, now));
    }
  }

  lemma FiledRow(db: Db, db': Db, e: Tuple, cost: Option<int>, facts: seq<Fact>)
    requires HasRows(db, e) && HasRows(db', e) && Filed(db, db', e, cost, facts)
    ensures Row(db', e).cost == cost
  {
  }

  lemma NoEvidencePasses(db: Db, e: Tuple, now: int)
    requires HasRows(db, e)
    ensures EvidenceTaken(db, e, None) && EvidenceNote(db, e, None, now) == []
  {
  }

  /** `close_terminal_if_active`, well-formed and under no key or a new one: it ends an open
      attempt, running or cancelled, with the outcome and the failure it was given, once the
      evidence and the source fit. */
  lemma CloseAnswers(db: Db, g: map<Tuple, int>, e: Tuple, outcome: Outcome, source: Option<CostSource>,
                     failure: Option<Failure>, failureSource: Option<FailureSource>, key: Option<string>,
                     ev: Option<Evidence>, now: int)
    requires Inv(db) && TimeOk(now) && EvidenceOk(ev)
    requires (failure.Some? ==> FailureOk(failure.value)) && failure.Some? == failureSource.Some?
    requires key.Some? ==> Remembered(db, OpFinalize, key.value).None?
    ensures IsOpen(db, e) ==> HasRows(db, e)
    ensures var r := CloseTerminal(db, g, e, outcome, source, failure, failureSource, key, ev, now);
            if !IsOpen(db, e) then r == Answer(db, g, Nothing)
            else if !EvidenceTaken(db, e, ev) then r == Raise(db, g, CorruptLedger)
            else if !GivenSourceFits(HeldCost(db, e, ev), source) then r == Raise(db, g, InvalidInput)
            else
              && r.reply == ClosedTerminal(e, outcome, failure)
              && EndedAs(db, r.db, e, outcome, failure, HeldCost(db, e, ev),
                         EvidenceNote(db, e, ev, now) + FailureNote(e, failure, failureSource, now), HeldCost(db, e, ev), source, now)
  {
    hide Inv, EvidenceTaken, EndedAs, GivenSourceFits, FailureNote, EvidenceNote, HeldCost, EvidenceOk, FailureOk, ReconcileAndClose, IsOpen, HasRows, RememberIf;
    OpenMeans(db, e);
    if IsOpen(db, e) {
      ReconcileMeans(db, e, outcome, source, failure, failureSource, ev, now);
      var closed := ReconcileAndClose(db, e, outcome, source, failure, failureSource, ev, now);
      if closed.Worked? {
        var reply := ClosedTerminal(e, outcome, failure);
        RememberedFrame(closed.after, OpFinalize, key, e, reply);
        EndedFrame(db, closed.after, RememberIf(closed.after, OpFinalize, key, e, reply), e, outcome, failure, HeldCost(db, e, ev),
                   EvidenceNote(db, e, ev, now) + FailureNote(e, failure, failureSource, now), HeldCost(db, e, ev), source, now);
      }
    }
  }

  // ---------- a completion names the task's outcome ----------

  /** Where a task is done, the newest completion of its last attempt has its outcome. */
  ghost predicate OutcomeOk(db: Db, t: TaskId)
    requires t in db.tasks
  {
    db.tasks[t].status.Done? ==> LatestOutcome(db.outbox, Controlled(db, t)) == Some(db.tasks[t].status.outcome)
  }

  ghost predicate OutcomesOk(db: Db)
  {
    forall t | t in db.tasks :: OutcomeOk(db, t)
  }

  lemma OutcomeAppend(log: seq<Fact>, f: Fact, e: Tuple)
    ensures LatestOutcome(log + [f], e) == if f.key == e && f.body.Completion? then Some(f.body.outcome) else LatestOutcome(log, e)
  {
    assert (log + [f])[..|log|] == log;
  }

  lemma OutcomeAfterMove(log: seq<Fact>, f: Fact, g: Fact, e: Tuple)
    requires !f.body.Completion? && !g.body.Completion?
    ensures LatestOutcome(log + [f] + [g], e) == LatestOutcome(log, e)
  {
    OutcomeAppend(log, f, e);
    OutcomeAppend(log + [f], g, e);
  }

  /** Only an end appends a completion. */
  lemma LogKeepsOutcome(db: Db, w: Write, e: Tuple)
    requires Guard(db, w)
    ensures LatestOutcome(Put(db, w).outbox, e) == if w.Finish? && w.tuple == e then Some(w.body.outcome) else LatestOutcome(db.outbox, e)
  {
    hide Live, CancelledLive, ValidPlan, IsCanonical, SuccessorAllowed, FailureOk, LatestOutcome, Reservation, Replacement, Truthful, CostFactOk,
         CompletionFactOk, Recosted;
    var db' := Put(db, w);
    if w.Succeed? && w.recovered {
      OutcomeAfterMove(db.outbox, Fact(w.tuple, RecoveredBeforeDispatch, w.now),
                       Fact(SuccessorOf(w.tuple, w.id), Transition(w.tuple, Row(db, w.tuple).provider, w.provider, w.failure), w.now), e);
    } else if |db'.outbox| > |db.outbox| {
      var f := db'.outbox[|db.outbox|];
      assert db'.outbox == db.outbox + [f];
      OutcomeAppend(db.outbox, f, e);
    }
  }

  lemma WriteKeepsOutcome(db: Db, w: Write, t: TaskId)
    requires Inv(db) && Guard(db, w) && OutcomesOk(db) && t in Put(db, w).tasks
    ensures OutcomeOk(Put(db, w), t)
  {
    var db' := Put(db, w);
    LogKeepsOutcome(db, w, Controlled(db', t));
    if w.Finish? && w.tuple.task == t {
      EndIsControlled(db, w);
    } else {
      DoneStays(db, w, t);
      if t in db.tasks { assert OutcomeOk(db, t); }
    }
    hide Guard, Put, LatestOutcome, Inv;
  }

  lemma EndIsControlled(db: Db, w: Write)
    requires Guard(db, w) && w.Finish?
    ensures var t, db' := w.tuple.task, Put(db, w); t in db'.tasks && db'.tasks[t].status == Done(w.body.outcome) && Controlled(db', t) == w.tuple
  {
    hide Live, CancelledLive, CompletionFactOk, Recosted, Reservation;
  }

  /** A task another write leaves done was done before, with the same last attempt. */
  lemma DoneStays(db: Db, w: Write, t: TaskId)
    requires Guard(db, w) && t in Put(db, w).tasks && !(w.Finish? && w.tuple.task == t)
    ensures var db' := Put(db, w);
            db'.tasks[t].status.Done? ==>
              t in db.tasks && db.tasks[t].status == db'.tasks[t].status && Controlled(db', t) == Controlled(db, t)
    ensures w.Finish? && t in db.tasks ==> Controlled(Put(db, w), t) != w.tuple
  {
    hide ValidPlan, IsCanonical, FailureOk, Reservation, Replacement, Truthful, CostFactOk, CompletionFactOk, Recosted, IndexOf, FactsOf;
  }

  lemma {:induction false} ChainKeepsOutcomes(db: Db, ws: seq<Write>)
    requires Inv(db) && Chain(db, ws) && OutcomesOk(db)
    ensures OutcomesOk(PutAll(db, ws))
    decreases |ws|
  {
    if ws != [] {
      forall t | t in Put(db, ws[0]).tasks ensures OutcomeOk(Put(db, ws[0]), t) { WriteKeepsOutcome(db, ws[0], t); }
      WriteKeepsInv(db, ws[0]);
      hide Inv, Put, Guard, OutcomeOk;
      ChainKeepsOutcomes(Put(db, ws[0]), ws[1..]);
    }
  }

  lemma StepKeepsOutcomes(s: State, ev: Event)
    requires Inv(s.db) && OutcomesOk(s.db)
    ensures OutcomesOk(Step(s, ev).db)
  {
    hide Inv, Step, Chain, PutAll, OutcomesOk;
    StepReaches(s, ev);
    var ws :| StampedChain(s.db, ws, ev.now) && PutAll(s.db, ws) == Step(s, ev).db;
    ChainKeepsOutcomes(s.db, ws);
  }

  lemma {:induction false} RunKeepsOutcomes(s: State, evs: seq<Event>)
    requires Sound(s.db) && OutcomesOk(s.db)
    ensures OutcomesOk(After(s, evs).db)
  {
    hide Step, OutcomesOk, Sound;
    if evs != [] {
      var front := evs[..|evs| - 1];
      RunKeepsOutcomes(s, front);
      RunKeepsSound(s, front);
      SoundInv(After(s, front).db);
      StepKeepsOutcomes(After(s, front), evs[|evs| - 1]);
    }
  }

  /** In every reachable state the newest completion of a finished task has its outcome. */
  lemma ReachableOutcomes(evs: seq<Event>)
    ensures OutcomesOk(After(START, evs).db)
  {
    hide Step, OutcomesOk, Sound;
    NoOutcomes();
    ReachableIsSound([]);
    RunKeepsOutcomes(START, evs);
  }

  lemma NoOutcomes()
    ensures OutcomesOk(START.db)
  {
  }

  // ---------- the terminal poll ----------

  /** e is the last attempt of a task that ended with this outcome. */
  predicate IsDone(db: Db, e: Tuple)
  {
    && e.task in db.tasks && db.tasks[e.task].status.Done? && db.tasks[e.task].transitionsUsed == e.epoch
    && SlotOf(e) in db.attempts && db.attempts[SlotOf(e)].id == e.attempt
  }

  lemma DoneMeans(db: Db, e: Tuple)
    requires Inv(db)
    ensures IsDone(db, e) <==> HasRows(db, e) && Row(db, e).state == TerminalState && db.control[e.task].status == ControlTerminal
    ensures IsDone(db, e) ==> Controlled(db, e.task) == e
  {
    hide TaskRowOk, IdentityAt, FenceAt, FactsOf, Sum, FactOk, PastAttemptOk;
    if IsDone(db, e) { assert TaskOk(db, e.task); }
    if HasRows(db, e) { LastRow(db, e); }
  }

  predicate PollArgsOk(actual: Option<int>, failure: Option<Failure>, failureSource: Option<FailureSource>, now: int)
  {
    && (actual.Some? ==> Micro(actual.value)) && (failure.Some? ==> FailureOk(failure.value) && !failure.value.retryable)
    && failure.Some? == failureSource.Some? && TimeOk(now)
  }

  /** The cost fact a poll adds if the attempt has none. */
  function PollNote(db: Db, e: Tuple, final: Option<int>, source: Option<CostSource>, now: int): seq<Fact>
  {
    if HasCostFact(db.outbox, e) then []
    else [Fact(e, Cost(final, if source.Some? then source else if final.None? then Some(Unavailable) else None), now)]
  }

  function CostAfterPoll(db: Db, e: Tuple, actual: Option<int>): Option<int>
    requires HasRows(db, e)
  {
    if HasCostFact(db.outbox, e) then Row(db, e).cost else FinalCost(db, e, actual)
  }

  lemma PollCostMeans(db: Db, e: Tuple, actual: Option<int>, source: Option<CostSource>, now: int)
    requires Inv(db) && IsCurrent(db, e) && HasRows(db, e)
    ensures var final := FinalCost(db, e, actual); var r := PollCost(db, e, final, source, now);
            && (r.None? <==> !HasCostFact(db.outbox, e) && !GivenSourceFits(final, source))
            && (r.Some? ==> Filed(db, r.value, e, CostAfterPoll(db, e, actual), PollNote(db, e, final, source, now)))
  {
    LatestIsNewest(db.outbox, e);
    NothingFiled(db, e);
    var final := FinalCost(db, e, actual);
    if !HasCostFact(db.outbox, e) {
      var mark := if source.Some? then source else if final.None? then Some(Unavailable) else None;
      CostIsFiled(db, SetCost(e, final, Cost(final, mark), now));
    }
    hide Inv, FactsOf, HasCostFact, Put, Filed, IsCurrent;
  }

  lemma PayMeans(db: Db, e: Tuple, outcome: Outcome, actual: Option<int>, source: Option<CostSource>,
                 failure: Option<Failure>, failureSource: Option<FailureSource>, now: int)
    requires Inv(db) && IsCurrent(db, e) && HasRows(db, e) && PollArgsOk(actual, failure, failureSource, now)
    requires Micro(Recosted(db, e, FinalCost(db, e, actual)))
    ensures var final := FinalCost(db, e, actual); var r := PayAndClose(db, e, outcome, final, source, failure, failureSource, now);
            if !GivenSourceFits(final, source) then r == Raised(InvalidInput)
            else
              && r.Worked?
              && EndedAs(db, r.after, e, outcome, failure, CostAfterPoll(db, e, actual),
                         PollNote(db, e, final, source, now) + FailureNote(e, failure, failureSource, now), final, source, now)
  {
    hide Inv, EndedAs, GivenSourceFits, FailureNote, PollNote, PollCost, CloseOut, Filed, FailureOk, Recosted, CostAfterPoll, Reaches;
    var final := FinalCost(db, e, actual);
    LookupMeans(db, e);
    KnownCostInRange(db, e);
    PollCostMeans(db, e, actual, source, now);
    PollCostReaches(db, e, final, source, now);
    var db1 := PollCost(db, e, final, source, now);
    if db1.Some? {
      NoForgottenCost(db, e, actual);
      CloseOutMeans(db, db1.value, e, CostAfterPoll(db, e, actual), PollNote(db, e, final, source, now), outcome, failure, failureSource,
                    final, source, now);
    }
  }

  lemma NoForgottenCost(db: Db, e: Tuple, actual: Option<int>)
    requires HasRows(db, e)
    ensures FinalCost(db, e, actual).None? ==> CostAfterPoll(db, e, actual).None?
  {
  }

  /** Which way a well-formed poll goes is decided by the row and active_control. */
  lemma PollGoes(db: Db, g: map<Tuple, int>, e: Tuple, outcome: Outcome, actual: Option<int>, source: Option<CostSource>,
                 failure: Option<Failure>, failureSource: Option<FailureSource>, now: int)
    requires PollArgsOk(actual, failure, failureSource, now)
    ensures var r := CompleteFromPoll(db, g, e, outcome, actual, source, failure, failureSource, now);
            if !HasRows(db, e) then r == Answer(db, g, Nothing)
            else if Row(db, e).state == TerminalState && db.control[e.task].status == ControlTerminal then
              LatestOutcome(db.outbox, e).Some? ==>
                r == Answer(db, g, if LatestOutcome(db.outbox, e).value == outcome then TerminalCommitted(e, outcome) else Nothing)
            else if db.control[e.task].status == ControlTerminal || !Mutable(Row(db, e).state) then r == Answer(db, g, Nothing)
            else r == PollForward(db, g, e, outcome, actual, source, failure, failureSource, now)
  {
    hide PollForward, LatestOutcome, FailureOk, HasAttempt, Controls;
  }

  /** What a poll answers while e is the last attempt of a running task. */
  ghost predicate RunningAnswer(db: Db, r: Result, g: map<Tuple, int>, e: Tuple, outcome: Outcome, actual: Option<int>,
                                source: Option<CostSource>, failure: Option<Failure>, failureSource: Option<FailureSource>, now: int)
    requires HasRows(db, e)
  {
    var final := FinalCost(db, e, actual);
    if Row(db, e).cost.Some? && actual.Some? && Row(db, e).cost != actual then r == Raise(db, g, CorruptLedger)
    else if AmountWith(db, e, final) > SAFE_INTEGER_MAX then r == Raise(db, g, CorruptLedger)
    else if !GivenSourceFits(final, source) then r == Raise(db, g, InvalidInput)
    else
      && r.reply == TerminalCommitted(e, outcome) && r.guards == g
      && EndedAs(db, r.db, e, outcome, failure, CostAfterPoll(db, e, actual),
                 PollNote(db, e, final, source, now) + FailureNote(e, failure, failureSource, now), final, source, now)
  }

  /** `complete_terminal_from_poll_if_active`, well-formed: a finished attempt answers by its
      task's outcome; a running one ends with the outcome, the failure and the cost given,
      unless the cost contradicts the row, leaves the safe integers or has no fitting source. */
  lemma PollAnswers(db: Db, g: map<Tuple, int>, e: Tuple, outcome: Outcome, actual: Option<int>, source: Option<CostSource>,
                    failure: Option<Failure>, failureSource: Option<FailureSource>, now: int)
    requires Inv(db) && OutcomesOk(db) && PollArgsOk(actual, failure, failureSource, now)
    ensures IsCurrent(db, e) ==> HasRows(db, e)
    ensures var r := CompleteFromPoll(db, g, e, outcome, actual, source, failure, failureSource, now);
            if IsDone(db, e) then r == Answer(db, g, if db.tasks[e.task].status == Done(outcome) then TerminalCommitted(e, outcome) else Nothing)
            else if !IsCurrent(db, e) then r == Answer(db, g, Nothing)
            else RunningAnswer(db, r, g, e, outcome, actual, source, failure, failureSource, now)
  {
    hide Inv, OutcomesOk, RunningAnswer, PollArgsOk, PollForward, CompleteFromPoll, LatestOutcome, IsDone, IsCurrent, HasRows, Live, Mutable;
    PollGoes(db, g, e, outcome, actual, source, failure, failureSource, now);
    DoneMeans(db, e);
    if IsDone(db, e) {
      DoneOutcome(db, e);
    } else {
      LookupMeans(db, e);
      if IsCurrent(db, e) {
        RunningIsOpen(db, e);
        RunningPolls(db, g, e, outcome, actual, source, failure, failureSource, now);
      } else if HasRows(db, e) {
        StoppedIsFixed(db, e);
      }
    }
  }

  lemma DoneOutcome(db: Db, e: Tuple)
    requires Inv(db) && OutcomesOk(db) && IsDone(db, e)
    ensures e.task in db.tasks && db.tasks[e.task].status.Done? && LatestOutcome(db.outbox, e) == Some(db.tasks[e.task].status.outcome)
  {
    hide Inv, LatestOutcome;
    DoneMeans(db, e);
    assert OutcomeOk(db, e.task);
  }

  lemma StoppedIsFixed(db: Db, e: Tuple)
    requires Inv(db) && HasRows(db, e) && !IsCurrent(db, e)
    ensures !Mutable(Row(db, e).state)
  {
    hide Inv, Live;
    if Mutable(Row(db, e).state) {
      MutableIsRunning(db, e);
      CurrentIsActive(db, e);
      LiveIsLast(db, e);
    }
  }

  lemma RunningIsOpen(db: Db, e: Tuple)
    requires Inv(db) && IsCurrent(db, e) && HasRows(db, e)
    ensures Mutable(Row(db, e).state) && db.control[e.task].status != ControlTerminal
  {
    hide Inv;
    LookupMeans(db, e);
  }

  lemma RunningPolls(db: Db, g: map<Tuple, int>, e: Tuple, outcome: Outcome, actual: Option<int>, source: Option<CostSource>,
                     failure: Option<Failure>, failureSource: Option<FailureSource>, now: int)
    requires Inv(db) && IsCurrent(db, e) && HasRows(db, e) && PollArgsOk(actual, failure, failureSource, now)
    ensures RunningAnswer(db, PollForward(db, g, e, outcome, actual, source, failure, failureSource, now), g, e, outcome, actual, source,
                          failure, failureSource, now)
  {
    hide Inv, EndedAs, GivenSourceFits, FailureNote, PollNote, FailureOk, CostAfterPoll, PayAndClose, IsCurrent, HasRows, HasAttempt, Controls;
    AmountsAreNatural(db, e);
    if Micro(Recosted(db, e, FinalCost(db, e, actual))) { PayMeans(db, e, outcome, actual, source, failure, failureSource, now); }
  }

  // ---------- every call that ends an attempt ----------

  /** Attempt e ended in db' with the outcome and the failure, at `now`: its row, its task,
      active_control and the last fact of the log agree on it. */
  ghost predicate EndedWith(db: Db, db': Db, e: Tuple, outcome: Outcome, failure: Option<Failure>, now: int)
  {
    && HasRows(db, e) && HasRows(db', e)
    && db'.tasks[e.task].status == Done(outcome)
    && Row(db', e).state == TerminalState && Row(db', e).closedAt == Some(now)
    && Row(db', e).failure == (if failure.Some? then failure else Row(db, e).failure)
    && db'.control[e.task].status == ControlTerminal
    && |db'.outbox| > |db.outbox|
    && var last := db'.outbox[|db'.outbox| - 1];
    && last.key == e && last.at == now && last.body.Completion? && last.body.outcome == outcome
    && (Row(db', e).cost.Some? && last.body.finalCost.Some? ==> last.body.finalCost == Row(db', e).cost)
  }

  lemma EndedAsEndsWith(db: Db, db': Db, e: Tuple, outcome: Outcome, failure: Option<Failure>, cost: Option<int>,
                        facts: seq<Fact>, reported: Option<int>, source: Option<CostSource>, now: int)
    requires HasRows(db, e) && EndedAs(db, db', e, outcome, failure, cost, facts, reported, source, now)
    requires cost.Some? && reported.Some? ==> cost == reported
    ensures EndedWith(db, db', e, outcome, failure, now)
  {
    hide Marked, AmountWith;
  }

  predicate Ends(ev: Event)
  {
    ev.Completing? || ev.Closing? || ev.Polling? || ev.RecoveringBeforeDispatch?
  }

  /** The outcome and the failure the call was given. */
  function AskedOutcome(ev: Event): Outcome
    requires Ends(ev)
  {
    if ev.RecoveringBeforeDispatch? then DoneUncertain else ev.outcome
  }

  function AskedFailure(ev: Event): Option<Failure>
    requires Ends(ev)
  {
    if ev.Closing? || ev.Polling? then ev.cause else None
  }

  /** A call that closes an attempt says so with the outcome it was given. */
  predicate SaysEnded(ev: Event, reply: Reply)
    requires Ends(ev)
  {
    reply == if ev.Polling? then TerminalCommitted(ev.e, ev.outcome) else ClosedTerminal(ev.e, AskedOutcome(ev), AskedFailure(ev))
  }

  /** The call ended the attempt with what it was given, and its answer says so; or it wrote
      nothing, and then the answer says so only of a task that had ended that way before. */
  ghost predicate EndsProperly(s: State, ev: Event, r: Result)
    requires Ends(ev)
  {
    || (SaysEnded(ev, r.reply) && EndedWith(s.db, r.db, ev.e, AskedOutcome(ev), AskedFailure(ev), ev.now))
    || (ev.RecoveringBeforeDispatch? && r.reply == OrphanedReply(ev.e))
    || (r.db == s.db && (SaysEnded(ev, r.reply) ==>
          ev.Polling? && IsDone(s.db, ev.e) && s.db.tasks[ev.e.task].status == Done(ev.outcome)))
  }

  lemma CompletingEnds(s: State, ev: Event)
    requires Inv(s.db) && ev.Completing?
    ensures EndsProperly(s, ev, Step(s, ev))
  {
    hide Inv, EndedWith, EndedAs, ActiveLookup, Complete, IsDone;
    if TimeOk(ev.now) && (ev.actual.Some? ==> Micro(ev.actual.value)) {
      CompleteAnswers(s.db, s.guards, ev.e, ev.outcome, ev.actual, ev.source, ev.now);
      if Step(s, ev).reply == ClosedTerminal(ev.e, ev.outcome, None) {
        var cost := FinalCost(s.db, ev.e, ev.actual);
        EndedAsEndsWith(s.db, Step(s, ev).db, ev.e, ev.outcome, None, cost, [], cost, ev.source, ev.now);
      }
    } else {
      BadCompletion(s, ev);
    }
  }

  lemma BadCompletion(s: State, ev: Event)
    requires ev.Completing? && !(TimeOk(ev.now) && (ev.actual.Some? ==> Micro(ev.actual.value)))
    ensures Step(s, ev).db == s.db && Step(s, ev).reply.Failed?
  {
    hide ActiveLookup, LatestCostSource, CostPayloadOk, Put;
  }

  lemma PreDispatchEnds(s: State, ev: Event)
    requires Inv(s.db) && ev.RecoveringBeforeDispatch?
    ensures EndsProperly(s, ev, Step(s, ev))
  {
    hide Inv, EndedWith, EndedAs, ActiveLookup, IsDone, LatestCostSource, CostPayloadOk, Put;
    if TimeOk(ev.now) {
      PreDispatchAnswers(s.db, s.guards, ev.e, ev.now);
      hide RecoverPreDispatch;
      if Step(s, ev).reply == ClosedTerminal(ev.e, DoneUncertain, None) {
        var cost := Row(s.db, ev.e).cost;
        EndedAsEndsWith(s.db, Step(s, ev).db, ev.e, DoneUncertain, None, cost, [], cost, None, ev.now);
      }
    }
  }

  predicate CloseArgsOk(db: Db, ev: Event)
    requires ev.Closing?
  {
    && TimeOk(ev.now) && EvidenceOk(ev.ev)
    && (ev.cause.Some? ==> FailureOk(ev.cause.value)) && ev.cause.Some? == ev.origin.Some?
    && (ev.token.Some? ==> Remembered(db, OpFinalize, ev.token.value).None?)
  }

  lemma BadClose(s: State, ev: Event)
    requires ev.Closing? && !CloseArgsOk(s.db, ev)
    ensures Step(s, ev).db == s.db && (Step(s, ev).reply.Failed? || Step(s, ev).reply.Duplicate?)
  {
    hide CloseOpen, EvidenceOk, FailureOk;
  }

  lemma ClosingEnds(s: State, ev: Event)
    requires Inv(s.db) && ev.Closing?
    ensures EndsProperly(s, ev, Step(s, ev))
  {
    hide Inv, EndedWith, EndedAs, CloseTerminal, IsDone, IsOpen, EvidenceTaken, EvidenceOk, FailureOk, EvidenceNote, FailureNote, HeldCost;
    if CloseArgsOk(s.db, ev) {
      CloseAnswers(s.db, s.guards, ev.e, ev.outcome, ev.source, ev.cause, ev.origin, ev.token, ev.ev, ev.now);
      if Step(s, ev).reply == ClosedTerminal(ev.e, ev.outcome, ev.cause) {
        var cost := HeldCost(s.db, ev.e, ev.ev);
        EndedAsEndsWith(s.db, Step(s, ev).db, ev.e, ev.outcome, ev.cause, cost,
                        EvidenceNote(s.db, ev.e, ev.ev, ev.now) + FailureNote(ev.e, ev.cause, ev.origin, ev.now), cost, ev.source, ev.now);
      }
    } else {
      BadClose(s, ev);
    }
  }

  lemma BadPoll(s: State, ev: Event)
    requires ev.Polling? && !PollArgsOk(ev.actual, ev.cause, ev.origin, ev.now)
    ensures Step(s, ev).db == s.db && Step(s, ev).reply.Failed?
  {
    hide PollForward, FailureOk, LatestOutcome;
  }

  lemma PollingEnds(s: State, ev: Event)
    requires Inv(s.db) && OutcomesOk(s.db) && ev.Polling?
    ensures EndsProperly(s, ev, Step(s, ev))
  {
    hide Inv, OutcomesOk, EndedWith, EndedAs, CompleteFromPoll, PollArgsOk, PollNote, FailureNote, CostAfterPoll, IsDone, IsCurrent, FinalCost;
    if PollArgsOk(ev.actual, ev.cause, ev.origin, ev.now) {
      PollAnswers(s.db, s.guards, ev.e, ev.outcome, ev.actual, ev.source, ev.cause, ev.origin, ev.now);
      if Step(s, ev).reply == TerminalCommitted(ev.e, ev.outcome) && !IsDone(s.db, ev.e) {
        var cost, final := CostAfterPoll(s.db, ev.e, ev.actual), FinalCost(s.db, ev.e, ev.actual);
        PolledCost(s.db, ev.e, ev.actual);
        EndedAsEndsWith(s.db, Step(s, ev).db, ev.e, ev.outcome, ev.cause, cost,
                        PollNote(s.db, ev.e, final, ev.source, ev.now) + FailureNote(ev.e, ev.cause, ev.origin, ev.now), final, ev.source, ev.now);
      }
    } else {
      BadPoll(s, ev);
    }
  }

  lemma PolledCost(db: Db, e: Tuple, actual: Option<int>)
    requires HasRows(db, e) && !(Row(db, e).cost.Some? && actual.Some? && Row(db, e).cost != actual)
    ensures var cost, final := CostAfterPoll(db, e, actual), FinalCost(db, e, actual); cost.Some? && final.Some? ==> cost == final
  {
  }

  /** Every call that ends an attempt stores the outcome and the failure it was given, in
      the row, the task, active_control and the completion fact alike. */
  lemma EndingLeaves(s: State, ev: Event)
    requires Sound(s.db) && OutcomesOk(s.db) && Ends(ev)
    ensures EndsProperly(s, ev, Step(s, ev))
  {
    hide Sound, Inv, OutcomesOk, EndsProperly, Step;
    SoundInv(s.db);
    if ev.Completing? {
      CompletingEnds(s, ev);
    } else if ev.Closing? {
      ClosingEnds(s, ev);
    } else if ev.Polling? {
      PollingEnds(s, ev);
    } else {
      PreDispatchEnds(s, ev);
    }
  }

  // ---------- the poll repeated ----------

  lemma EndedIsDone(db: Db, db': Db, e: Tuple, outcome: Outcome, failure: Option<Failure>, now: int)
    requires Inv(db') && EndedWith(db, db', e, outcome, failure, now)
    ensures IsDone(db', e) && db'.tasks[e.task].status == Done(outcome)
  {
    hide Inv;
    DoneMeans(db', e);
  }

  /** What ended stays ended, with its outcome. */
  lemma DoneLasts(db: Db, db': Db, e: Tuple)
    requires Later(db, db') && IsDone(db, e)
    ensures IsDone(db', e) && db'.tasks[e.task].status == db.tasks[e.task].status
  {
    hide Persists;
    assert TaskAbsorbs(db, db', e.task);
  }

  /** Once a call ended an attempt, however the run goes on, a well-formed terminal poll of
      it answers that the same outcome is committed, nothing for any other outcome, and
      writes not one row. */
  lemma PollRepeats(evs: seq<Event>, first: Event, more: seq<Event>, again: Event)
    requires Ends(first) && SaysEnded(first, Step(After(START, evs), first).reply)
    requires again.Polling? && again.e == first.e && PollArgsOk(again.actual, again.cause, again.origin, again.now)
    ensures var r := Step(After(START, evs), first);
            var later := After(State(r.db, r.guards), more);
            Step(later, again)
              == Answer(later.db, later.guards, if again.outcome == AskedOutcome(first) then TerminalCommitted(again.e, again.outcome) else Nothing)
  {
    hide Sound, Inv, OutcomesOk, Step, After, PollArgsOk, EndedWith, IsDone, Later;
    var s := After(START, evs);
    var r := Step(s, first);
    ReachableIsSound(evs);
    ReachableOutcomes(evs);
    SoundInv(s.db);
    EndingLeaves(s, first);
    StepKeepsSound(s, first);
    StepKeepsOutcomes(s, first);
    SoundInv(r.db);
    if EndedWith(s.db, r.db, first.e, AskedOutcome(first), AskedFailure(first), first.now) {
      EndedIsDone(s.db, r.db, first.e, AskedOutcome(first), AskedFailure(first), first.now);
    }
    var later := After(State(r.db, r.guards), more);
    RunKeepsSound(State(r.db, r.guards), more);
    RunKeepsOutcomes(State(r.db, r.guards), more);
    SoundInv(later.db);
    DoneLasts(r.db, later.db, first.e);
    DonePolls(later, again);
  }

  lemma DonePolls(s: State, ev: Event)
    requires Inv(s.db) && OutcomesOk(s.db) && ev.Polling? && IsDone(s.db, ev.e) && PollArgsOk(ev.actual, ev.cause, ev.origin, ev.now)
    ensures Step(s, ev) == Answer(s.db, s.guards, if s.db.tasks[ev.e.task].status == Done(ev.outcome) then TerminalCommitted(ev.e, ev.outcome) else Nothing)
  {
    hide Inv, OutcomesOk, CompleteFromPoll, PollArgsOk, IsCurrent, RunningAnswer;
    PollAnswers(s.db, s.guards, ev.e, ev.outcome, ev.actual, ev.source, ev.cause, ev.origin, ev.now);
  }
}
