/** The loops of the ledger that only read: the replay of the outbox against the
    rows, and the validated scan of the witness index. */
module LedgerScans {
  import opened Wrappers
  import opened Payload
  import opened LedgerTables
  import opened LedgerChecks
  import opened LedgerWrites
  import opened LedgerInvariant
  import opened LedgerCircuit

  function FactsUnder(filed: map<Tuple, KeyFacts>, k: Tuple): KeyFacts
  {
    if k in filed then filed[k] else NO_FACTS
  }

  /** The dictionaries hold what the log says of every attempt of task t. */
  ghost predicate FiledAll(log: seq<Fact>, t: TaskId, filed: map<Tuple, KeyFacts>)
  {
    forall k: Tuple | k.task == t :: FactsUnder(filed, k) == FactsOf(log, k)
  }

  lemma FileOne(log: seq<Fact>, i: nat, t: TaskId, filed: map<Tuple, KeyFacts>)
    requires i < |log| && FiledAll(log[..i], t, filed)
    ensures var f := log[i];
            FiledAll(log[..i + 1], t, if f.key.task == t && Authoritative(f.body)
                                      then filed[f.key := Absorb(FactsUnder(filed, f.key), f, i + 1)] else filed)
  {
    hide FactsOf;
    assert log[..i + 1] == log[..i] + [log[i]];
    forall k: Tuple | k.task == t
      ensures FactsOf(log[..i + 1], k) == if log[i].key == k then Absorb(FactsOf(log[..i], k), log[i], i + 1) else FactsOf(log[..i], k)
    {
      FactsOfAppend(log[..i], log[i], k);
    }
  }

  /** The loop over the facts: None as soon as one is malformed. */
  method FileFacts(db: Db, t: TaskId) returns (r: Option<map<Tuple, KeyFacts>>)
    ensures r.Some? <==> FactsWellFormed(db, t)
    ensures r.Some? ==> FiledAll(db.outbox, t, r.value)
  {
    hide FactsOf, FactOk;
    var filed: map<Tuple, KeyFacts> := map[];
    NothingFiled(t);
    for i := 0 to |db.outbox|
      invariant FiledAll(db.outbox[..i], t, filed)
      invariant forall j | 0 <= j < i && db.outbox[j].key.task == t && Authoritative(db.outbox[j].body) :: FactOk(db, db.outbox[j])
    {
      var f := db.outbox[i];
      FileOne(db.outbox, i, t, filed);
      if f.key.task == t && Authoritative(f.body) {
        if !FactOk(db, f) { return None; }
        filed := filed[f.key := Absorb(FactsUnder(filed, f.key), f, i + 1)];
      }
    }
    assert db.outbox[..|db.outbox|] == db.outbox;
    return Some(filed);
  }

  lemma NothingFiled(t: TaskId)
    ensures FiledAll([], t, map[])
  {
  }

  function FiledAt(db: Db, filed: map<Tuple, KeyFacts>, t: TaskId, e: nat): KeyFacts
  {
    if Slot(t, e) in db.attempts then FactsUnder(filed, KeyAt(db, t, e)) else NO_FACTS
  }

  /** The loop over the attempts in epoch order, with the derived reservation. */
  method CheckAttempts(db: Db, t: TaskId, plan: Plan, used: nat, filed: map<Tuple, KeyFacts>) returns (r: Option<int>)
    requires SlotsExact(db, t, used) && FiledAll(db.outbox, t, filed)
    ensures r.Some? <==> (forall e: nat | e <= used :: AttemptChecked(db, t, plan, used, e))
                         && (forall n: nat | n <= used + 1 :: Sum(db.attempts, t, n) <= SAFE_INTEGER_MAX)
    ensures r.Some? ==> r.value == Sum(db.attempts, t, used + 1)
  {
    hide FactsOf, IdentityOk, BarriersOk, CostOk, LiveOk, PastOk;
    var derived := 0;
    for e := 0 to used + 1
      invariant forall k: nat | k < e :: AttemptChecked(db, t, plan, used, k)
      invariant forall n: nat | n <= e :: Sum(db.attempts, t, n) <= SAFE_INTEGER_MAX
      invariant derived == Sum(db.attempts, t, e)
    {
      var a, d := db.attempts[Slot(t, e)], FiledAt(db, filed, t, e);
      assert d == FactsAt(db, t, e);
      ghost var checked := AttemptChecked(db, t, plan, used, e);
      if !IdentityOk(plan, t, e, a, Prior(db, t, e), d) { return None; }
      if !BarriersOk(d) { return None; }
      if !CostOk(plan, a, d) { return None; }
      assert Sum(db.attempts, t, e + 1) == derived + a.reserved;
      if derived > SAFE_INTEGER_MAX - a.reserved { return None; }
      derived := derived + a.reserved;
      if e == used {
        if !LiveOk(a, d) { return None; }
      } else {
        assert FiledAt(db, filed, t, e + 1) == FactsAt(db, t, e + 1);
        if !PastOk(a, d, FiledAt(db, filed, t, e + 1).identities) { return None; }
      }
      assert AttemptChecked(db, t, plan, used, e);
    }
    return Some(derived);
  }

  /** `_checked_plan`, without the exception. */
  method CheckedPlan(db: Db, t: TaskId, ep: nat) returns (ok: bool)
    requires t in db.tasks && Slot(t, ep) in db.attempts
    ensures ok <==> PlanChecks(db, t, ep)
  {
    hide FactsOf, FactsWellFormed, AttemptChecked, Sum, FiledAll, FenceOk, TaskRowOk, IndexOf;
    var task, a := db.tasks[t], db.attempts[Slot(t, ep)];
    if !TaskRowOk(t, task) || !Micro(task.reserved) || !Micro(a.reserved) { return false; }
    if task.transitionsUsed != ep || ep > |task.plan.providers| - 1 { return false; }
    if a.provider !in task.plan.providers || IndexOf(task.plan.providers, a.provider) < ep { return false; }
    if task.reserved < a.reserved { return false; }
    if a.cost.Some? && !(Micro(a.cost.value) && a.reserved == a.cost.value) { return false; }
    if exists s :: s in db.attempts && s.task == t && s.epoch > ep { return false; }
    for e := 0 to ep + 1
      invariant forall k: nat | k < e :: Slot(t, k) in db.attempts
    {
      if Slot(t, e) !in db.attempts { return false; }
    }
    assert SlotsExact(db, t, ep) by {
      forall k: nat ensures Slot(t, k) in db.attempts <==> k <= ep { assert Slot(t, k).task == t; }
    }
    for e := 0 to ep + 1
      invariant forall k: nat | k < e ::
                  FenceOk(db.attempts[Slot(t, k)].submitNotBefore, db.attempts[Slot(t, k)].createdAt, task.deadlineMs)
    {
      var b := db.attempts[Slot(t, e)];
      if !FenceOk(b.submitNotBefore, b.createdAt, task.deadlineMs) { return false; }
    }
    var filed := FileFacts(db, t);
    if filed.None? { return false; }
    var derived := CheckAttempts(db, t, task.plan, ep, filed.value);
    if derived.None? { return false; }
    assert forall e: nat | e <= ep :: AttemptChecked(db, t, task.plan, ep, e);
    assert forall n: nat | n <= ep + 1 :: Sum(db.attempts, t, n) <= SAFE_INTEGER_MAX;
    return derived.value == task.reserved;
  }

  // ---------- the witness scan ----------

  datatype Proven = Proven(provider: ProviderId, id: nat, created: int)

  /** `_authoritative_identity`: one pass over the facts of the attempt. */
  method AuthoritativeIdentity(db: Db, k: Tuple) returns (r: Option<Proven>)
    ensures r.Some? <==> IdentityProven(db, k)
    ensures r.Some? ==> r.value == Proven(db.attempts[SlotOf(k)].provider, FactsOf(db.outbox, k).identities[0].id,
                                          db.attempts[SlotOf(k)].createdAt)
  {
    hide FactsOf, TransitionFactOk;
    if !HasAttempt(db, k) || !TimeOk(db.attempts[SlotOf(k)].createdAt) { return None; }
    var a := db.attempts[SlotOf(k)];
    var found: seq<IdentityFact> := [];
    NoFactsOf([], k);
    for i := 0 to |db.outbox|
      invariant found == FactsOf(db.outbox[..i], k).identities
    {
      var f := db.outbox[i];
      assert db.outbox[..i + 1] == db.outbox[..i] + [f];
      FactsOfAppend(db.outbox[..i], f, k);
      if f.key == k && IdentityBody(f.body) { found := found + [IdentityFact(i + 1, f.body, f.at)]; }
    }
    assert db.outbox[..|db.outbox|] == db.outbox;
    if |found| != 1 || found[0].at != a.createdAt { return None; }
    match found[0].body {
      case AttemptCreated(p, _) =>
        if k.epoch != 0 || p != a.provider { return None; }
      case Transition(pred, _, p, _) =>
        if k.epoch == 0 || !TransitionFactOk(found[0].body) || p != a.provider
           || pred.task != k.task || pred.epoch != k.epoch - 1 { return None; }
      case _ => return None;
    }
    return Some(Proven(a.provider, found[0].id, a.createdAt));
  }

  /** The validations of one transition fact against the attempts it names. */
  method ProveTransition(db: Db, i: nat) returns (ok: bool)
    requires i < |db.outbox| && db.outbox[i].body.Transition?
    ensures ok <==> TransitionProven(db, i)
  {
    hide IdentityProven, FactsOf, TransitionFactOk;
    var f := db.outbox[i];
    var pred := f.body.predecessor;
    if !TimeOk(f.at) || !TransitionFactOk(f.body) { return false; }
    if pred.task != f.key.task || pred.epoch + 1 != f.key.epoch { return false; }
    var p := AuthoritativeIdentity(db, pred);
    var q := AuthoritativeIdentity(db, f.key);
    if p.None? || q.None? { return false; }
    return p.value.provider == f.body.predecessorProvider && q.value.provider == f.body.successorProvider
           && p.value.id < i + 1 && q.value.id == i + 1 && q.value.created == f.at;
  }

  /** The validations of one candidate row. */
  method ProveWitness(db: Db, w: Witness, now: int) returns (ok: bool)
    ensures ok <==> WitnessOk(db, w, now)
  {
    hide TransitionFactOk, IdentityProven;
    var c := w.columns;
    if c.transitionId < 1 || c.transitionId > |db.outbox| { return false; }
    var f := db.outbox[c.transitionId - 1];
    if !f.body.Transition? { return false; }
    var proven := ProveTransition(db, c.transitionId - 1);
    if !proven { return false; }
    IdentityHasRow(db, f.body.predecessor);
    return w == WitnessFor(f, c.transitionId) && db.attempts[SlotOf(f.body.predecessor)].createdAt <= f.at <= now;
  }

  lemma IdentityHasRow(db: Db, k: Tuple)
    requires IdentityProven(db, k)
    ensures HasAttempt(db, k)
  {
  }

  /** `_circuit_open`: validate every candidate, then scan consecutive triples. */
  method ScanCircuit(db: Db, provider: ProviderId, now: int, scope: seq<ProviderId>) returns (r: Option<bool>)
    ensures r == CircuitOpen(db, provider, now, scope)
  {
    hide WitnessOk, Select;
    if !ScopeOk(provider, scope) { return None; }
    var candidates := Select(db.witnesses, scope, now - SCAN_WINDOW_MS);
    var successors: set<Tuple>, predecessors: set<Tuple> := {}, {};
    var times: seq<int> := [];
    for i := 0 to |candidates|
      invariant forall j | 0 <= j < i :: WitnessOk(db, candidates[j], now)
      invariant NoDuplicates(candidates[..i])
      invariant successors == set j | 0 <= j < i :: candidates[j].columns.successor
      invariant predecessors == set j | 0 <= j < i :: candidates[j].columns.predecessor
      invariant times == FailureTimes(candidates[..i], provider)
    {
      var w := candidates[i];
      if w.columns.successor in successors || w.columns.predecessor in predecessors {
        assert !NoDuplicates(candidates);
        return None;
      }
      var ok := ProveWitness(db, w, now);
      if !ok { return None; }
      successors, predecessors := successors + {w.columns.successor}, predecessors + {w.columns.predecessor};
      assert candidates[..i + 1][..i] == candidates[..i];
      if w.columns.predecessorProvider == provider { times := times + [w.columns.createdAt]; }
    }
    assert candidates[..|candidates|] == candidates;
    var i := 2;
    while i < |times|
      invariant 2 <= i
      invariant forall j | 2 <= j < i && j < |times| :: !(times[j] - times[j - 2] <= FAILURE_SPAN_MS && now < times[j] + OPEN_MS)
    {
      if times[i] - times[i - 2] <= FAILURE_SPAN_MS && now < times[i] + OPEN_MS { return Some(true); }
      i := i + 1;
    }
    return Some(false);
  }

  // ---------- migration ----------

  lemma IndexAside(db: Db, ws: seq<Witness>, i: nat)
    requires i < |db.outbox| && db.outbox[i].body.Transition?
    ensures TransitionProven(db.(witnesses := ws), i) <==> TransitionProven(db, i)
  {
    hide FactsOf, TransitionFactOk;
  }

  /** SELECT * FROM circuit_transition_authority WHERE transition_outbox_id = ? */
  function RowsWithId(ws: seq<Witness>, id: nat): seq<Witness>
  {
    if ws == [] then []
    else
      var front, w := RowsWithId(ws[..|ws| - 1], id), ws[|ws| - 1];
      if w.columns.transitionId == id then front + [w] else front
  }

  predicate Migrates(db: Db, hadAuthority: bool, i: nat)
    requires i < |db.outbox|
  {
    db.outbox[i].body.Transition? ==>
      && TransitionProven(db, i)
      && (forall j | 0 <= j < i && db.outbox[j].body.Transition? :: db.outbox[j].body.predecessor != db.outbox[i].body.predecessor)
      && (hadAuthority ==> RowsWithId(db.witnesses, i + 1) == [WitnessFor(db.outbox[i], i + 1)])
  }

  ghost predicate MigratedTo(db: Db, hadAuthority: bool, n: nat)
    requires n <= |db.outbox|
  {
    forall i | 0 <= i < n :: Migrates(db, hadAuthority, i)
  }

  /** The migration accepts the database. */
  ghost predicate Migratable(db: Db, hadAuthority: bool)
  {
    MigratedTo(db, hadAuthority, |db.outbox|) && (hadAuthority ==> |db.witnesses| == |WitnessesOf(db.outbox)|)
  }

  lemma EmptyIndex()
    ensures WitnessesOf([]) == []
  {
  }

  lemma {:induction false} RowWithId(ws: seq<Witness>, id: nat, w: Witness)
    requires w in RowsWithId(ws, id)
    ensures w in ws
  {
    if w in RowsWithId(ws[..|ws| - 1], id) { RowWithId(ws[..|ws| - 1], id, w); }
  }

  lemma ReconciledRows(db: Db)
    requires MigratedTo(db, true, |db.outbox|)
    ensures forall w | w in WitnessesOf(db.outbox) :: w in db.witnesses
  {
    hide TransitionProven, WitnessesOf, RowsWithId;
    forall w | w in WitnessesOf(db.outbox) ensures w in db.witnesses {
      var i :| 0 <= i < |WitnessesOf(db.outbox)| && WitnessesOf(db.outbox)[i] == w;
      var j := RebuiltRow(db.outbox, i);
      assert Migrates(db, true, j);
      RowWithId(db.witnesses, j + 1, w);
    }
  }

  // ---------- in every committed state the migration succeeds ----------

  lemma {:induction false} RebuiltRowsWithId(log: seq<Fact>, id: nat)
    requires 1 <= id <= |log|
    ensures log[id - 1].body.Transition? ==> RowsWithId(WitnessesOf(log), id) == [WitnessFor(log[id - 1], id)]
  {
    var front, f := log[..|log| - 1], log[|log| - 1];
    var ws := WitnessesOf(front);
    if f.body.Transition? { assert (ws + [WitnessFor(f, |log|)])[..|ws|] == ws; }
    if id < |log| { RebuiltRowsWithId(front, id); } else { NoRowsWithId(front, id); }
  }

  lemma {:induction false} NoRowsWithId(log: seq<Fact>, id: nat)
    requires id > |log|
    ensures RowsWithId(WitnessesOf(log), id) == []
  {
    if log != [] {
      var front, f := log[..|log| - 1], log[|log| - 1];
      var ws := WitnessesOf(front);
      NoRowsWithId(front, id);
      if f.body.Transition? { assert (ws + [WitnessFor(f, |log|)])[..|ws|] == ws; }
    }
  }

  /** Rebuilding from the facts never fails, and gives the rows that incremental
      insertion gave: with or without the table already there. */
  lemma CommittedIsMigratable(db: Db, hadAuthority: bool)
    requires Inv(db) && IndexAgrees(db)
    ensures Migratable(db, hadAuthority)
  {
    hide Inv, TransitionProven, WitnessesOf, RowsWithId;
    forall i | 0 <= i < |db.outbox| ensures Migrates(db, hadAuthority, i) {
      if db.outbox[i].body.Transition? {
        TransitionIsProven(db, i);
        RebuiltRowsWithId(db.outbox, i + 1);
        forall j | 0 <= j < i && db.outbox[j].body.Transition?
          ensures db.outbox[j].body.predecessor != db.outbox[i].body.predecessor
        {
          if db.outbox[j].body.predecessor == db.outbox[i].body.predecessor { TransitionsAreUnique(db, j, i); }
        }
      }
    }
  }

  /** Without the table the old rows do not matter. */
  lemma LostIndexMigrates(db: Db)
    requires Migratable(db, false)
    ensures Migratable(db.(witnesses := []), false)
  {
    hide TransitionProven;
    var lost := db.(witnesses := []);
    forall i | 0 <= i < |lost.outbox| ensures Migrates(lost, false, i) {
      assert Migrates(db, false, i);
      if db.outbox[i].body.Transition? { IndexAside(db, [], i); }
    }
  }
}
