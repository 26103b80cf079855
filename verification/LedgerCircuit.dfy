/** The circuit breaker: the witness index, its validation against the log, and
    the bounded scan over the last six minutes. */
module LedgerCircuit {
  import opened Wrappers
  import opened Payload
  import opened LedgerTables
  import opened LedgerChecks
  import opened LedgerWrites
  import opened LedgerInvariant
  import opened LedgerFold

  const SCAN_WINDOW_MS: int := 360_000
  const FAILURE_SPAN_MS: int := 300_000
  const OPEN_MS: int := 60_000

  // ---------- the query ----------

  predicate Ordered(a: Witness, b: Witness)
  {
    || a.columns.createdAt < b.columns.createdAt
    || (a.columns.createdAt == b.columns.createdAt && a.columns.transitionId <= b.columns.transitionId)
  }

  function InsertOrdered(ws: seq<Witness>, w: Witness): seq<Witness>
  {
    if ws == [] || Ordered(ws[|ws| - 1], w) then ws + [w]
    else InsertOrdered(ws[..|ws| - 1], w) + [ws[|ws| - 1]]
  }

  predicate Selected(w: Witness, scope: seq<ProviderId>, cutoff: int)
  {
    w.columns.predecessorProvider in scope && w.columns.createdAt >= cutoff
  }

  /** SELECT ... WHERE provider IN scope AND created >= cutoff ORDER BY created, id. */
  function Select(ws: seq<Witness>, scope: seq<ProviderId>, cutoff: int): seq<Witness>
  {
    if ws == [] then []
    else
      var front, w := Select(ws[..|ws| - 1], scope, cutoff), ws[|ws| - 1];
      if Selected(w, scope, cutoff) then InsertOrdered(front, w) else front
  }

  // ---------- validation of one witness ----------

  /** `_authoritative_identity` returns, for the exact attempt. */
  predicate IdentityProven(db: Db, k: Tuple)
  {
    && HasAttempt(db, k)
    && var a, ids := db.attempts[SlotOf(k)], FactsOf(db.outbox, k).identities;
    && TimeOk(a.createdAt)
    && |ids| == 1
    && ids[0].at == a.createdAt
    && (match ids[0].body
        case AttemptCreated(p, _) => k.epoch == 0 && p == a.provider
        case Transition(pred, _, p, _) =>
          k.epoch > 0 && TransitionFactOk(ids[0].body) && p == a.provider && pred.task == k.task && pred.epoch == k.epoch - 1
        case _ => false)
  }

  /** One transition fact is proven by the attempts it names. */
  predicate TransitionProven(db: Db, i: nat)
    requires i < |db.outbox| && db.outbox[i].body.Transition?
  {
    var f := db.outbox[i];
    var pred := f.body.predecessor;
    && TransitionFactOk(f.body) && pred.task == f.key.task && pred.epoch + 1 == f.key.epoch
    && IdentityProven(db, pred) && IdentityProven(db, f.key)
    && db.attempts[SlotOf(pred)].provider == f.body.predecessorProvider
    && db.attempts[SlotOf(f.key)].provider == f.body.successorProvider
    && FactsOf(db.outbox, pred).identities[0].id < i + 1 && FactsOf(db.outbox, f.key).identities[0].id == i + 1
    && db.attempts[SlotOf(f.key)].createdAt == f.at && TimeOk(f.at)
  }

  /** The validations `_circuit_open` runs on one row of the index. */
  predicate WitnessOk(db: Db, w: Witness, now: int)
  {
    var c := w.columns;
    && 1 <= c.transitionId <= |db.outbox|
    && var f := db.outbox[c.transitionId - 1];
    && f.body.Transition? && TransitionProven(db, c.transitionId - 1)
    && w == WitnessFor(f, c.transitionId)
    && db.attempts[SlotOf(f.body.predecessor)].createdAt <= f.at <= now
  }

  predicate NoDuplicates(ws: seq<Witness>)
  {
    forall i, j | 0 <= i < j < |ws| ::
      ws[i].columns.successor != ws[j].columns.successor && ws[i].columns.predecessor != ws[j].columns.predecessor
  }

  /** Every candidate row is proven by the log and none is duplicated. */
  predicate AllProven(db: Db, ws: seq<Witness>, now: int)
  {
    (forall i | 0 <= i < |ws| :: WitnessOk(db, ws[i], now)) && NoDuplicates(ws)
  }

  predicate ScopeOk(provider: ProviderId, scope: seq<ProviderId>)
  {
    1 <= |scope| <= 64 && provider in scope && forall i, j | 0 <= i < j < |scope| :: scope[i] != scope[j]
  }

  // ---------- the scan ----------

  /** The failure times of one provider, in index order. */
  function FailureTimes(ws: seq<Witness>, provider: ProviderId): seq<int>
  {
    if ws == [] then []
    else
      var front, w := FailureTimes(ws[..|ws| - 1], provider), ws[|ws| - 1];
      if w.columns.predecessorProvider == provider then front + [w.columns.createdAt] else front
  }

  /** The loop over consecutive triples. */
  predicate TripleOpen(times: seq<int>, now: int)
  {
    exists i :: 2 <= i < |times| && times[i] - times[i - 2] <= FAILURE_SPAN_MS && now < times[i] + OPEN_MS
  }

  /** `_circuit_open`: None when it raises CorruptLedger. */
  ghost function CircuitOpen(db: Db, provider: ProviderId, now: int, scope: seq<ProviderId>): Option<bool>
  {
    var candidates := Select(db.witnesses, scope, now - SCAN_WINDOW_MS);
    if ScopeOk(provider, scope) && AllProven(db, candidates, now)
    then Some(TripleOpen(FailureTimes(candidates, provider), now)) else None
  }

  // ---------- the index agrees with the log ----------

  /** One witness per `transitioned` fact, in outbox order. */
  function WitnessesOf(log: seq<Fact>): seq<Witness>
  {
    if log == [] then []
    else
      var front, f := WitnessesOf(log[..|log| - 1]), log[|log| - 1];
      if f.body.Transition? then front + [WitnessFor(f, |log|)] else front
  }

  ghost predicate IndexAgrees(db: Db) { db.witnesses == WitnessesOf(db.outbox) }

  lemma WitnessesOfAppend(log: seq<Fact>, f: Fact)
    ensures WitnessesOf(log + [f]) == if f.body.Transition? then WitnessesOf(log) + [WitnessFor(f, |log| + 1)] else WitnessesOf(log)
  {
    assert (log + [f])[..|log|] == log;
  }

  /** Every write inserts a witness exactly when it appends a transition fact. */
  lemma WriteKeepsIndex(db: Db, w: Write)
    requires Guard(db, w) && IndexAgrees(db)
    ensures IndexAgrees(Put(db, w))
  {
    hide Live, SuccessorAllowed, IsCanonical, WellFormed, ValidPlan, WitnessesOf;
    var db' := Put(db, w);
    if w.Succeed? {
      var e := w.tuple;
      var log := if w.recovered then db.outbox + [Fact(e, RecoveredBeforeDispatch, w.now)] else db.outbox;
      if w.recovered { WitnessesOfAppend(db.outbox, Fact(e, RecoveredBeforeDispatch, w.now)); }
      WitnessesOfAppend(log, db'.outbox[|log|]);
    } else if |db'.outbox| > |db.outbox| {
      WitnessesOfAppend(db.outbox, db'.outbox[|db.outbox|]);
      assert db'.outbox == db.outbox + [db'.outbox[|db.outbox|]];
    }
  }

  // ---------- a non-decreasing clock ----------

  ghost predicate ClockOk(log: seq<Fact>, now: int)
  {
    && (forall i, j | 0 <= i < j < |log| :: log[i].at <= log[j].at)
    && (forall i | 0 <= i < |log| :: log[i].at <= now)
  }

  // ---------- every witness is proven ----------

  predicate IdentityBody(b: FactBody) { b.AttemptCreated? || b.Transition? }

  /** An identity fact of the log is listed under its key. */
  lemma {:induction false} IdentityListed(log: seq<Fact>, i: nat)
    requires i < |log| && IdentityBody(log[i].body)
    ensures IdentityFact(i + 1, log[i].body, log[i].at) in FactsOf(log, log[i].key).identities
  {
    if i < |log| - 1 {
      IdentityListed(log[..|log| - 1], i);
    }
  }

  /** An identity listed under a key is the log's fact at that id. */
  lemma {:induction false} ListedIdentity(log: seq<Fact>, k: Tuple, j: nat)
    requires j < |FactsOf(log, k).identities|
    ensures var f := FactsOf(log, k).identities[j];
            1 <= f.id <= |log| && log[f.id - 1] == Fact(k, f.body, f.at) && IdentityBody(f.body)
  {
    var front, last := log[..|log| - 1], log[|log| - 1];
    if j < |FactsOf(front, k).identities| {
      ListedIdentity(front, k, j);
    }
  }

  /** A transition fact is the identity of its successor and names its predecessor. */
  lemma TransitionFactRows(db: Db, i: nat)
    requires Inv(db) && i < |db.outbox| && db.outbox[i].body.Transition?
    ensures var f := db.outbox[i];
            && f.key.epoch > 0 && HasAttempt(db, f.key)
            && f.key.task in db.tasks && db.tasks[f.key.task].status != RejectedTask
            && f.key.epoch <= db.tasks[f.key.task].transitionsUsed
            && FactsAt(db, f.key.task, f.key.epoch).identities == [IdentityFact(i + 1, f.body, f.at)]
            && IdentityAt(db, f.key.task, f.key.epoch)
            && TimeOk(f.at)
  {
    hide TaskRowOk, PastAttemptOk, LastAttemptOk, Sum, FactsOf;
    var f := db.outbox[i];
    assert FactOk(db, f);
    assert TaskOk(db, f.key.task);
    IdentityEverywhere(db, f.key.task, f.key.epoch);
    IdentityListed(db.outbox, i);
  }

  lemma PredecessorRows(db: Db, t: TaskId, e: nat)
    requires Inv(db) && t in db.tasks && db.tasks[t].status != RejectedTask && e < db.tasks[t].transitionsUsed
    ensures Slot(t, e) in db.attempts && Slot(t, e + 1) in db.attempts && IdentityAt(db, t, e)
    ensures TimeOk(db.attempts[Slot(t, e)].createdAt)
    ensures FiledBefore(FactsAt(db, t, e).identities, FactsAt(db, t, e + 1).identities)
  {
    hide TaskRowOk, IdentityOk, LastAttemptOk, Sum, FactsAt, FactOk, PastOk, BarriersOk, CostOk, FiledBefore;
    assert TaskOk(db, t);
    assert PastAttemptOk(db, t, e);
  }

  /** Every transition fact is proven by the attempts it names. */
  lemma TransitionIsProven(db: Db, i: nat)
    requires Inv(db) && i < |db.outbox| && db.outbox[i].body.Transition?
    ensures TransitionProven(db, i)
  {
    hide Inv, FactsOf, IndexOf, TransitionFactOk;
    var f := db.outbox[i];
    var t, e := f.key.task, f.key.epoch;
    TransitionFactRows(db, i);
    PredecessorRows(db, t, e - 1);
    var p := f.body.predecessor;
    assert p == KeyAt(db, t, e - 1);
    ListedIdentity(db.outbox, p, 0);
    assert FactsOf(db.outbox, p) == FactsAt(db, t, e - 1);
    assert FactsOf(db.outbox, f.key) == FactsAt(db, t, e);
    assert IdentityProven(db, p);
    assert IdentityProven(db, f.key);
  }

  /** Each row rebuilt from the log passes every validation. */
  lemma RebuiltWitnessOk(db: Db, i: nat, now: int)
    requires Inv(db) && ClockOk(db.outbox, now) && i < |db.outbox| && db.outbox[i].body.Transition?
    ensures WitnessOk(db, WitnessFor(db.outbox[i], i + 1), now)
  {
    hide Inv, FactsOf, IndexOf, TransitionFactOk, IdentityProven;
    var f := db.outbox[i];
    TransitionIsProven(db, i);
    TransitionFactRows(db, i);
    PredecessorRows(db, f.key.task, f.key.epoch - 1);
    var p := f.body.predecessor;
    assert p == KeyAt(db, f.key.task, f.key.epoch - 1);
    ListedIdentity(db.outbox, p, 0);
  }

  // ---------- what the query returns ----------

  predicate RowOrder(ws: seq<Witness>)
  {
    forall i, j | 0 <= i < j < |ws| :: Ordered(ws[i], ws[j])
  }

  /** With rows already in order the query is a plain filter. */
  function Filtered(ws: seq<Witness>, scope: seq<ProviderId>, cutoff: int): seq<Witness>
  {
    if ws == [] then []
    else
      var front, w := Filtered(ws[..|ws| - 1], scope, cutoff), ws[|ws| - 1];
      if Selected(w, scope, cutoff) then front + [w] else front
  }

  lemma {:induction false} FilteredMember(ws: seq<Witness>, scope: seq<ProviderId>, cutoff: int, i: nat) returns (j: nat)
    requires i < |Filtered(ws, scope, cutoff)|
    ensures j < |ws| && Filtered(ws, scope, cutoff)[i] == ws[j] && Selected(ws[j], scope, cutoff) && i <= j
  {
    var front := ws[..|ws| - 1];
    if i < |Filtered(front, scope, cutoff)| {
      j := FilteredMember(front, scope, cutoff, i);
    } else {
      j := |ws| - 1;
      FilteredLength(front, scope, cutoff);
    }
  }

  lemma {:induction false} FilteredLength(ws: seq<Witness>, scope: seq<ProviderId>, cutoff: int)
    ensures |Filtered(ws, scope, cutoff)| <= |ws|
  {
    if ws != [] { FilteredLength(ws[..|ws| - 1], scope, cutoff); }
  }

  lemma {:induction false} OrderedSelect(ws: seq<Witness>, scope: seq<ProviderId>, cutoff: int)
    requires RowOrder(ws)
    ensures Select(ws, scope, cutoff) == Filtered(ws, scope, cutoff)
  {
    if ws != [] {
      var front, w := ws[..|ws| - 1], ws[|ws| - 1];
      assert RowOrder(front) by {
        forall i, j | 0 <= i < j < |front| ensures Ordered(front[i], front[j]) { assert Ordered(ws[i], ws[j]); }
      }
      OrderedSelect(front, scope, cutoff);
      var kept := Filtered(front, scope, cutoff);
      if kept != [] {
        var j := FilteredMember(front, scope, cutoff, |kept| - 1);
        assert Ordered(ws[j], ws[|ws| - 1]);
      }
    }
  }

  /** Row i of the rebuilt index comes from one transition fact. */
  lemma {:induction false} RebuiltRow(log: seq<Fact>, i: nat) returns (j: nat)
    requires i < |WitnessesOf(log)|
    ensures j < |log| && log[j].body.Transition? && WitnessesOf(log)[i] == WitnessFor(log[j], j + 1)
  {
    var front := log[..|log| - 1];
    if i < |WitnessesOf(front)| {
      j := RebuiltRow(front, i);
    } else {
      j := |log| - 1;
    }
  }

  lemma {:induction false} RebuiltIdsIncrease(log: seq<Fact>, i: nat, j: nat)
    requires i < j < |WitnessesOf(log)|
    ensures WitnessesOf(log)[i].columns.transitionId < WitnessesOf(log)[j].columns.transitionId
  {
    var front := log[..|log| - 1];
    if j < |WitnessesOf(front)| {
      RebuiltIdsIncrease(front, i, j);
    } else {
      var k := RebuiltRow(front, i);
    }
  }

  lemma RebuiltInOrder(log: seq<Fact>, now: int)
    requires ClockOk(log, now)
    ensures RowOrder(WitnessesOf(log))
  {
    var ws := WitnessesOf(log);
    forall i, j | 0 <= i < j < |ws| ensures Ordered(ws[i], ws[j]) {
      RebuiltIdsIncrease(log, i, j);
      var a := RebuiltRow(log, i);
      var b := RebuiltRow(log, j);
      assert a < b;
    }
  }

  /** No successor and no predecessor occurs in two transition facts. */
  lemma TransitionsAreUnique(db: Db, i: nat, j: nat)
    requires Inv(db) && i < |db.outbox| && j < |db.outbox|
    requires db.outbox[i].body.Transition? && db.outbox[j].body.Transition?
    requires db.outbox[i].key == db.outbox[j].key || db.outbox[i].body.predecessor == db.outbox[j].body.predecessor
    ensures i == j
  {
    hide Inv, FactsOf, IndexOf;
    TransitionFactRows(db, i);
    TransitionFactRows(db, j);
    assert db.outbox[i].key.task == db.outbox[j].key.task && db.outbox[i].key.epoch == db.outbox[j].key.epoch;
  }

  /** Under a non-decreasing clock every validation succeeds: the check never raises. */
  lemma CandidatesProven(db: Db, scope: seq<ProviderId>, now: int)
    requires Inv(db) && IndexAgrees(db) && ClockOk(db.outbox, now)
    ensures Select(db.witnesses, scope, now - SCAN_WINDOW_MS) == Filtered(db.witnesses, scope, now - SCAN_WINDOW_MS)
    ensures AllProven(db, Select(db.witnesses, scope, now - SCAN_WINDOW_MS), now)
  {
    hide Inv, ClockOk, WitnessOk, Select, Filtered, WitnessesOf;
    var cutoff := now - SCAN_WINDOW_MS;
    RebuiltInOrder(db.outbox, now);
    OrderedSelect(db.witnesses, scope, cutoff);
    var rows := Filtered(db.witnesses, scope, cutoff);
    forall i | 0 <= i < |rows| ensures WitnessOk(db, rows[i], now) {
      var a := FilteredMember(db.witnesses, scope, cutoff, i);
      var b := RebuiltRow(db.outbox, a);
      RebuiltWitnessOk(db, b, now);
    }
    forall i, j | 0 <= i < j < |rows|
      ensures rows[i].columns.successor != rows[j].columns.successor && rows[i].columns.predecessor != rows[j].columns.predecessor
    {
      FilteredIdsIncrease(db.outbox, scope, cutoff, i, j);
      var a := FilteredMember(db.witnesses, scope, cutoff, i);
      var b := FilteredMember(db.witnesses, scope, cutoff, j);
      var p := RebuiltRow(db.outbox, a);
      var q := RebuiltRow(db.outbox, b);
      if db.outbox[p].key == db.outbox[q].key || db.outbox[p].body.predecessor == db.outbox[q].body.predecessor {
        TransitionsAreUnique(db, p, q);
      }
    }
  }

  lemma {:induction false} FilteredIdsIncrease(log: seq<Fact>, scope: seq<ProviderId>, cutoff: int, i: nat, j: nat)
    requires i < j < |Filtered(WitnessesOf(log), scope, cutoff)|
    ensures var rows := Filtered(WitnessesOf(log), scope, cutoff);
            rows[i].columns.transitionId < rows[j].columns.transitionId
  {
    FilteredIncrease(WitnessesOf(log), scope, cutoff, i, j);
    var a: nat, b: nat :| a < b < |WitnessesOf(log)| && Filtered(WitnessesOf(log), scope, cutoff)[i] == WitnessesOf(log)[a]
                && Filtered(WitnessesOf(log), scope, cutoff)[j] == WitnessesOf(log)[b];
    RebuiltIdsIncrease(log, a, b);
  }

  lemma {:induction false} FilteredIncrease(ws: seq<Witness>, scope: seq<ProviderId>, cutoff: int, i: nat, j: nat)
    requires i < j < |Filtered(ws, scope, cutoff)|
    ensures exists a: nat, b: nat :: a < b < |ws| && Filtered(ws, scope, cutoff)[i] == ws[a] && Filtered(ws, scope, cutoff)[j] == ws[b]
  {
    var front := ws[..|ws| - 1];
    if j < |Filtered(front, scope, cutoff)| {
      FilteredIncrease(front, scope, cutoff, i, j);
      var a: nat, b: nat :| a < b < |front| && Filtered(front, scope, cutoff)[i] == front[a] && Filtered(front, scope, cutoff)[j] == front[b];
      assert ws[a] == front[a] && ws[b] == front[b];
    } else {
      var a := FilteredMember(front, scope, cutoff, i);
      assert ws[a] == front[a];
      assert Filtered(ws, scope, cutoff)[j] == ws[|ws| - 1];
    }
  }

  // ---------- the bounded scan and the full-history rule ----------

  function Recent(times: seq<int>, cutoff: int): seq<int>
  {
    if times == [] then []
    else
      var front, x := Recent(times[..|times| - 1], cutoff), times[|times| - 1];
      if x >= cutoff then front + [x] else front
  }

  predicate NonDecreasing(times: seq<int>)
  {
    forall i, j | 0 <= i < j < |times| :: times[i] <= times[j]
  }

  /** Three failures, anywhere in the history, within five minutes of each other,
      the last of them less than a minute ago. */
  ghost predicate ThreeFailures(times: seq<int>, now: int)
  {
    exists i, j, k :: CloseFailures(times, i, j, k, now)
  }

  predicate CloseFailures(times: seq<int>, i: int, j: int, k: int, now: int)
  {
    0 <= i < j < k < |times| && times[k] - times[i] <= FAILURE_SPAN_MS && now < times[k] + OPEN_MS
  }

  lemma {:induction false} RecentIsSuffix(times: seq<int>, cutoff: int) returns (n: nat)
    requires NonDecreasing(times)
    ensures n <= |times| && Recent(times, cutoff) == times[n..]
    ensures forall i | 0 <= i < n :: times[i] < cutoff
    ensures forall i | n <= i < |times| :: times[i] >= cutoff
  {
    if times == [] {
      n := 0;
    } else {
      var front := times[..|times| - 1];
      n := RecentIsSuffix(front, cutoff);
      if times[|times| - 1] < cutoff {
        assert forall i | 0 <= i < |times| - 1 :: times[i] <= times[|times| - 1];
        n := |times|;
      } else {
        assert times[n..] == front[n..] + [times[|times| - 1]];
      }
    }
  }

  /** Scanning consecutive triples of the last 360 000 ms decides the full-history rule. */
  lemma BoundedScanRefinesHistory(times: seq<int>, now: int)
    requires NonDecreasing(times)
    ensures TripleOpen(Recent(times, now - SCAN_WINDOW_MS), now) <==> ThreeFailures(times, now)
  {
    var cutoff := now - SCAN_WINDOW_MS;
    var n := RecentIsSuffix(times, cutoff);
    var recent := Recent(times, cutoff);
    if TripleOpen(recent, now) {
      var i :| 2 <= i < |recent| && recent[i] - recent[i - 2] <= FAILURE_SPAN_MS && now < recent[i] + OPEN_MS;
      assert CloseFailures(times, n + i - 2, n + i - 1, n + i, now);
    }
    if ThreeFailures(times, now) {
      var i, j, k :| CloseFailures(times, i, j, k, now);
      var m := k - 2;
      assert i == m || times[i] <= times[m];
      assert n <= m;
      assert recent[k - n] == times[k] && recent[k - n - 2] == times[m];
    }
  }

  lemma {:induction false} FilteredTimes(ws: seq<Witness>, scope: seq<ProviderId>, cutoff: int, provider: ProviderId)
    requires provider in scope
    ensures FailureTimes(Filtered(ws, scope, cutoff), provider) == Recent(FailureTimes(ws, provider), cutoff)
  {
    if ws != [] {
      var front, w := ws[..|ws| - 1], ws[|ws| - 1];
      FilteredTimes(front, scope, cutoff, provider);
      var kept := Filtered(front, scope, cutoff);
      assert (kept + [w])[..|kept|] == kept;
      var before := FailureTimes(front, provider);
      assert (before + [w.columns.createdAt])[..|before|] == before;
    }
  }

  lemma {:induction false} TimesFollowRows(ws: seq<Witness>, provider: ProviderId, i: nat) returns (a: nat)
    requires i < |FailureTimes(ws, provider)|
    ensures a < |ws| && FailureTimes(ws, provider)[i] == ws[a].columns.createdAt
  {
    var front := ws[..|ws| - 1];
    if i < |FailureTimes(front, provider)| {
      a := TimesFollowRows(front, provider, i);
    } else {
      a := |ws| - 1;
    }
  }

  lemma {:induction false} TimesInOrder(ws: seq<Witness>, provider: ProviderId)
    requires RowOrder(ws)
    ensures NonDecreasing(FailureTimes(ws, provider))
  {
    if ws != [] {
      var front := ws[..|ws| - 1];
      assert RowOrder(front) by {
        forall i, j | 0 <= i < j < |front| ensures Ordered(front[i], front[j]) { assert Ordered(ws[i], ws[j]); }
      }
      TimesInOrder(front, provider);
      var times := FailureTimes(ws, provider);
      forall i, j | 0 <= i < j < |times| ensures times[i] <= times[j] {
        if j == |FailureTimes(front, provider)| {
          var a := TimesFollowRows(front, provider, i);
          assert Ordered(ws[a], ws[|ws| - 1]);
        }
      }
    }
  }

  /** The times of all recorded failures of one provider, in the whole log. */
  function History(log: seq<Fact>, provider: ProviderId): seq<int>
  {
    if log == [] then []
    else
      var front, f := History(log[..|log| - 1], provider), log[|log| - 1];
      if f.body.Transition? && f.body.predecessorProvider == provider then front + [f.at] else front
  }

  lemma {:induction false} HistoryIsIndexed(log: seq<Fact>, provider: ProviderId)
    ensures FailureTimes(WitnessesOf(log), provider) == History(log, provider)
  {
    if log != [] {
      var front := log[..|log| - 1];
      HistoryIsIndexed(front, provider);
      var ws := WitnessesOf(front);
      if log[|log| - 1].body.Transition? {
        assert (ws + [WitnessFor(log[|log| - 1], |log|)])[..|ws|] == ws;
      }
    }
  }

  /** In every reachable state with a non-decreasing clock the breaker never raises
      and says "open" exactly when the whole history holds three close failures. */
  lemma CircuitDecidesHistory(db: Db, provider: ProviderId, now: int, scope: seq<ProviderId>)
    requires Inv(db) && IndexAgrees(db) && ClockOk(db.outbox, now) && ScopeOk(provider, scope)
    ensures CircuitOpen(db, provider, now, scope) == Some(ThreeFailures(History(db.outbox, provider), now))
  {
    hide Inv, ClockOk, AllProven, Select, Filtered, WitnessesOf, TripleOpen, ThreeFailures, History, FailureTimes;
    CandidatesProven(db, scope, now);
    RebuiltInOrder(db.outbox, now);
    FilteredTimes(db.witnesses, scope, now - SCAN_WINDOW_MS, provider);
    TimesInOrder(db.witnesses, provider);
    HistoryIsIndexed(db.outbox, provider);
    BoundedScanRefinesHistory(History(db.outbox, provider), now);
  }
}
