/** The circuit breaker under any clock, also one that concurrent callers read before
    they get the write lock: when it raises, and what it decides when it does not. */
module LedgerBreaker {
  import opened Wrappers
  import opened Payload
  import opened LedgerTables
  import opened LedgerChecks
  import opened LedgerWrites
  import opened LedgerInvariant
  import opened LedgerFold
  import opened LedgerCircuit
  import opened LedgerHistory
  import opened LedgerRuns

  // ---------- a rule that does not depend on the order of the log ----------

  /** How many of the times lie from lo to hi. */
  function CountIn(times: seq<int>, lo: int, hi: int): nat
  {
    if times == [] then 0
    else CountIn(times[..|times| - 1], lo, hi) + if lo <= times[|times| - 1] <= hi then 1 else 0
  }

  /** Some failure less than a minute old ends five minutes with at least three failures. */
  ghost predicate ThreeWithin(times: seq<int>, now: int)
  {
    exists m :: EndsThree(times, m, now)
  }

  predicate EndsThree(times: seq<int>, m: int, now: int)
  {
    now < m + OPEN_MS && CountIn(times, m, m) >= 1 && CountIn(times, m - FAILURE_SPAN_MS, m) >= 3
  }

  lemma {:induction false} CountAtMost(times: seq<int>, lo: int, hi: int, n: nat)
    requires n <= |times| && forall i | 0 <= i < n :: !(lo <= times[i] <= hi)
    ensures CountIn(times, lo, hi) <= |times| - n
  {
    if n < |times| { CountAtMost(times[..|times| - 1], lo, hi, n); }
    else if times != [] { CountAtMost(times[..|times| - 1], lo, hi, n - 1); }
  }

  lemma {:induction false} CountAtLeast(times: seq<int>, lo: int, hi: int, n: nat)
    requires n <= |times| && forall i | n <= i < |times| :: lo <= times[i] <= hi
    ensures CountIn(times, lo, hi) >= |times| - n
  {
    if n < |times| { CountAtLeast(times[..|times| - 1], lo, hi, n); }
  }

  lemma {:induction false} CountSplits(a: seq<int>, b: seq<int>, lo: int, hi: int)
    ensures CountIn(a + b, lo, hi) == CountIn(a, lo, hi) + CountIn(b, lo, hi)
  {
    if b == [] {
      assert a + b == a;
    } else {
      CountSplits(a, b[..|b| - 1], lo, hi);
      assert (a + b)[..|a + b| - 1] == a + b[..|b| - 1];
    }
  }

  lemma {:induction false} Counted(times: seq<int>, lo: int, hi: int) returns (i: nat)
    requires CountIn(times, lo, hi) >= 1
    ensures i < |times| && lo <= times[i] <= hi
    ensures forall j | i < j < |times| :: !(lo <= times[j] <= hi)
  {
    if lo <= times[|times| - 1] <= hi { i := |times| - 1; } else { i := Counted(times[..|times| - 1], lo, hi); }
  }

  /** On sorted times the loop over consecutive triples decides the rule. */
  lemma TriplesDecide(times: seq<int>, now: int)
    requires NonDecreasing(times)
    ensures TripleOpen(times, now) <==> ThreeWithin(times, now)
  {
    if TripleOpen(times, now) {
      var i :| 2 <= i < |times| && times[i] - times[i - 2] <= FAILURE_SPAN_MS && now < times[i] + OPEN_MS;
      TripleCounts(times, i);
      assert EndsThree(times, times[i], now);
    }
    if ThreeWithin(times, now) {
      var m :| EndsThree(times, m, now);
      var i := Counted(times, m, m);
      ThreeReachBack(times, i);
    }
  }

  lemma TripleCounts(times: seq<int>, i: nat)
    requires NonDecreasing(times) && 2 <= i < |times| && times[i] - times[i - 2] <= FAILURE_SPAN_MS
    ensures CountIn(times, times[i] - FAILURE_SPAN_MS, times[i]) >= 3 && CountIn(times, times[i], times[i]) >= 1
  {
    hide CountIn;
    var lo, m := times[i] - FAILURE_SPAN_MS, times[i];
    assert times[..i + 1] + times[i + 1..] == times;
    CountSplits(times[..i + 1], times[i + 1..], lo, m);
    CountSplits(times[..i + 1], times[i + 1..], m, m);
    CountAtLeast(times[..i + 1], lo, m, i - 2);
    CountAtLeast(times[..i + 1], m, m, i);
  }

  /** If i is the last time of its value, three in the window put i - 2 inside it. */
  lemma ThreeReachBack(times: seq<int>, i: nat)
    requires NonDecreasing(times) && i < |times| && forall j | i < j < |times| :: times[j] != times[i]
    requires CountIn(times, times[i] - FAILURE_SPAN_MS, times[i]) >= 3
    ensures 2 <= i && times[i] - times[i - 2] <= FAILURE_SPAN_MS
  {
    hide CountIn;
    var lo, m := times[i] - FAILURE_SPAN_MS, times[i];
    assert times[..i + 1] + times[i + 1..] == times;
    CountSplits(times[..i + 1], times[i + 1..], lo, m);
    assert forall j | i < j < |times| :: times[j] >= m && times[j] != m;
    CountAtMost(times[i + 1..], lo, m, |times| - i - 1);
    if i < 2 {
      CountAtMost(times[..i + 1], lo, m, 0);
    } else if times[i - 2] < lo {
      CountAtMost(times[..i + 1], lo, m, i - 1);
    }
  }

  // ---------- the query sorts, and loses nothing of the window ----------

  lemma {:induction false} InsertedOnce(ws: seq<Witness>, w: Witness)
    ensures multiset(InsertOrdered(ws, w)) == multiset(ws) + multiset{w}
  {
    hide Ordered;
    if ws != [] && !Ordered(ws[|ws| - 1], w) {
      InsertedOnce(ws[..|ws| - 1], w);
      assert ws == ws[..|ws| - 1] + [ws[|ws| - 1]];
    }
  }

  lemma OneMoreRow(rows: seq<Witness>, last: Witness)
    requires RowOrder(rows) && forall i | 0 <= i < |rows| :: Ordered(rows[i], last)
    ensures RowOrder(rows + [last])
  {
    hide Ordered;
  }

  lemma FrontRows(ws: seq<Witness>)
    requires ws != [] && RowOrder(ws)
    ensures RowOrder(ws[..|ws| - 1]) && forall i | 0 <= i < |ws| - 1 :: Ordered(ws[i], ws[|ws| - 1])
  {
    hide Ordered;
  }

  lemma {:induction false} InsertedRows(ws: seq<Witness>, w: Witness)
    requires RowOrder(ws)
    ensures RowOrder(InsertOrdered(ws, w))
  {
    hide RowOrder;
    if ws == [] {
      SingleRow(w);
    } else {
      var front, last := ws[..|ws| - 1], ws[|ws| - 1];
      FrontRows(ws);
      if Ordered(last, w) {
        OneMoreRow(ws, w);
      } else {
        InsertedRows(front, w);
        InsertedOnce(front, w);
        var rows := InsertOrdered(front, w);
        forall i | 0 <= i < |rows| ensures Ordered(rows[i], last) {
          assert rows[i] in multiset(rows);
          if rows[i] != w { assert rows[i] in multiset(front); }
        }
        OneMoreRow(rows, last);
      }
    }
  }

  lemma SingleRow(w: Witness)
    ensures RowOrder(InsertOrdered([], w))
  {
  }

  /** Without any order among the rows the query still sorts a part of them. */
  lemma {:induction false} SelectSorts(ws: seq<Witness>, scope: seq<ProviderId>, cutoff: int)
    ensures RowOrder(Select(ws, scope, cutoff))
    ensures multiset(Select(ws, scope, cutoff)) <= multiset(ws)
    ensures forall w :: w in Select(ws, scope, cutoff) <==> w in ws && Selected(w, scope, cutoff)
  {
    if ws != [] {
      var front, last := ws[..|ws| - 1], ws[|ws| - 1];
      assert ws == front + [last];
      SelectSorts(front, scope, cutoff);
      InsertedRows(Select(front, scope, cutoff), last);
      InsertedOnce(Select(front, scope, cutoff), last);
      forall w ensures w in Select(ws, scope, cutoff) <==> w in ws && Selected(w, scope, cutoff) {
        assert w in Select(ws, scope, cutoff) <==> w in multiset(Select(ws, scope, cutoff));
        assert w in Select(front, scope, cutoff) <==> w in multiset(Select(front, scope, cutoff));
      }
    }
  }

  lemma {:induction false} InsertCounts(ws: seq<Witness>, w: Witness, provider: ProviderId, lo: int, hi: int)
    ensures CountIn(FailureTimes(InsertOrdered(ws, w), provider), lo, hi)
         == CountIn(FailureTimes(ws, provider), lo, hi)
            + if w.columns.predecessorProvider == provider && lo <= w.columns.createdAt <= hi then 1 else 0
  {
    if ws == [] || Ordered(ws[|ws| - 1], w) {
      TimesAppend(ws, w, provider);
      CountSplits(FailureTimes(ws, provider), [w.columns.createdAt], lo, hi);
    } else {
      var front, last := ws[..|ws| - 1], ws[|ws| - 1];
      InsertCounts(front, w, provider, lo, hi);
      TimesAppend(InsertOrdered(front, w), last, provider);
      CountSplits(FailureTimes(front, provider), [last.columns.createdAt], lo, hi);
      CountSplits(FailureTimes(InsertOrdered(front, w), provider), [last.columns.createdAt], lo, hi);
    }
  }

  lemma TimesAppend(ws: seq<Witness>, w: Witness, provider: ProviderId)
    ensures FailureTimes(ws + [w], provider) ==
            if w.columns.predecessorProvider == provider then FailureTimes(ws, provider) + [w.columns.createdAt]
            else FailureTimes(ws, provider)
  {
    assert (ws + [w])[..|ws|] == ws;
  }

  /** Above the cutoff the query keeps every failure of the provider. */
  lemma {:induction false} SelectCounts(ws: seq<Witness>, scope: seq<ProviderId>, cutoff: int, provider: ProviderId, lo: int, hi: int)
    requires provider in scope && cutoff <= lo
    ensures CountIn(FailureTimes(Select(ws, scope, cutoff), provider), lo, hi) == CountIn(FailureTimes(ws, provider), lo, hi)
  {
    if ws != [] {
      var front, last := ws[..|ws| - 1], ws[|ws| - 1];
      SelectCounts(front, scope, cutoff, provider, lo, hi);
      InsertCounts(Select(front, scope, cutoff), last, provider, lo, hi);
      CountSplits(FailureTimes(front, provider), [last.columns.createdAt], lo, hi);
    }
  }

  /** The bounded, sorted scan decides the rule over all rows, in whatever order they are. */
  lemma ScanDecides(ws: seq<Witness>, scope: seq<ProviderId>, provider: ProviderId, now: int)
    requires provider in scope
    ensures TripleOpen(FailureTimes(Select(ws, scope, now - SCAN_WINDOW_MS), provider), now)
       <==> ThreeWithin(FailureTimes(ws, provider), now)
  {
    hide CountIn, Select, FailureTimes, TripleOpen;
    var cutoff := now - SCAN_WINDOW_MS;
    var times := FailureTimes(Select(ws, scope, cutoff), provider);
    SelectSorts(ws, scope, cutoff);
    TimesInOrder(Select(ws, scope, cutoff), provider);
    TriplesDecide(times, now);
    forall m ensures EndsThree(times, m, now) <==> EndsThree(FailureTimes(ws, provider), m, now) {
      if now < m + OPEN_MS {
        SelectCounts(ws, scope, cutoff, provider, m, m);
        SelectCounts(ws, scope, cutoff, provider, m - FAILURE_SPAN_MS, m);
      }
    }
  }

  // ---------- when the validations pass ----------

  /** The row was created neither after `now` nor before its predecessor. */
  predicate TimesFit(db: Db, w: Witness, now: int)
  {
    HasAttempt(db, w.columns.predecessor)
    && db.attempts[SlotOf(w.columns.predecessor)].createdAt <= w.columns.createdAt <= now
  }

  lemma RebuiltOkIff(db: Db, i: nat, now: int)
    requires Inv(db) && i < |db.outbox| && db.outbox[i].body.Transition?
    ensures var w := WitnessFor(db.outbox[i], i + 1); WitnessOk(db, w, now) <==> TimesFit(db, w, now)
  {
    hide Inv, FactsOf, IndexOf, TransitionFactOk, IdentityProven;
    TransitionIsProven(db, i);
    IdentityRow(db, db.outbox[i].body.predecessor);
  }

  lemma IdentityRow(db: Db, k: Tuple)
    requires IdentityProven(db, k)
    ensures HasAttempt(db, k)
  {
  }

  lemma {:induction false} OnceEach(ws: seq<Witness>, w: Witness)
    requires forall i, j | 0 <= i < j < |ws| :: ws[i] != ws[j]
    ensures multiset(ws)[w] <= 1
  {
    if ws != [] {
      var front, last := ws[..|ws| - 1], ws[|ws| - 1];
      assert ws == front + [last];
      OnceEach(front, w);
    }
  }

  lemma TwiceCounted(ws: seq<Witness>, i: nat, j: nat)
    requires i < j < |ws| && ws[i] == ws[j]
    ensures multiset(ws)[ws[i]] >= 2
  {
    assert ws == ws[..j] + ws[j..];
    assert ws[..j][i] in multiset(ws[..j]) && ws[j..][0] in multiset(ws[j..]);
  }

  /** Duplicates never occur, whatever the clock did. */
  lemma SelectedOnce(db: Db, scope: seq<ProviderId>, cutoff: int)
    requires Inv(db) && IndexAgrees(db)
    ensures NoDuplicates(Select(db.witnesses, scope, cutoff))
  {
    hide Inv, Select, WitnessesOf;
    SelectSorts(db.witnesses, scope, cutoff);
    var rows := Select(db.witnesses, scope, cutoff);
    forall i, j | 0 <= i < j < |rows|
      ensures rows[i].columns.successor != rows[j].columns.successor && rows[i].columns.predecessor != rows[j].columns.predecessor
    {
      assert rows[i] in db.witnesses && rows[j] in db.witnesses;
      var a :| 0 <= a < |db.witnesses| && db.witnesses[a] == rows[i];
      var b :| 0 <= b < |db.witnesses| && db.witnesses[b] == rows[j];
      var p := RebuiltRow(db.outbox, a);
      var q := RebuiltRow(db.outbox, b);
      if db.outbox[p].key == db.outbox[q].key || db.outbox[p].body.predecessor == db.outbox[q].body.predecessor {
        TransitionsAreUnique(db, p, q);
        TwiceCounted(rows, i, j);
        forall x, y | 0 <= x < y < |db.witnesses| ensures db.witnesses[x] != db.witnesses[y] {
          RebuiltIdsIncrease(db.outbox, x, y);
        }
        OnceEach(db.witnesses, rows[i]);
      }
    }
  }

  lemma CandidatesProvenIff(db: Db, scope: seq<ProviderId>, now: int)
    requires Inv(db) && IndexAgrees(db)
    ensures AllProven(db, Select(db.witnesses, scope, now - SCAN_WINDOW_MS), now) <==>
            forall w | w in db.witnesses && Selected(w, scope, now - SCAN_WINDOW_MS) :: TimesFit(db, w, now)
  {
    hide Inv, Select, WitnessesOf, WitnessOk, TimesFit, Selected;
    var cutoff := now - SCAN_WINDOW_MS;
    SelectSorts(db.witnesses, scope, cutoff);
    SelectedOnce(db, scope, cutoff);
    forall w | w in db.witnesses ensures WitnessOk(db, w, now) <==> TimesFit(db, w, now) {
      var a :| 0 <= a < |db.witnesses| && db.witnesses[a] == w;
      var p := RebuiltRow(db.outbox, a);
      RebuiltOkIff(db, p, now);
    }
    var rows := Select(db.witnesses, scope, cutoff);
    assert (forall i | 0 <= i < |rows| :: WitnessOk(db, rows[i], now)) <==> (forall w | w in rows :: WitnessOk(db, w, now));
  }

  /** The selected rows fit the clock: none was created after `now` or before its predecessor. */
  ghost predicate ClockFits(db: Db, scope: seq<ProviderId>, now: int)
  {
    forall w | w in db.witnesses && Selected(w, scope, now - SCAN_WINDOW_MS) :: TimesFit(db, w, now)
  }

  lemma CommittedBreaker(db: Db, now: int, provider: ProviderId, scope: seq<ProviderId>)
    requires Inv(db) && IndexAgrees(db)
    ensures CircuitOpen(db, provider, now, scope) ==
              if ScopeOk(provider, scope) && ClockFits(db, scope, now) then Some(ThreeWithin(History(db.outbox, provider), now)) else None
  {
    hide Inv, AllProven, Select, TripleOpen, ThreeWithin, FailureTimes, History, WitnessesOf, TimesFit, Selected;
    CandidatesProvenIff(db, scope, now);
    HistoryIsIndexed(db.outbox, provider);
    if ScopeOk(provider, scope) { ScanDecides(db.witnesses, scope, provider, now); }
  }

  /** In every reachable state, with any clock readings whatever: the breaker raises
      exactly when its scope is malformed or a selected row was created after `now` or
      before its predecessor, and otherwise is open exactly when some failure of the
      provider less than a minute old ends five minutes with three of them. */
  lemma BreakerOnAnyClock(evs: seq<Event>, now: int, provider: ProviderId, scope: seq<ProviderId>)
    ensures var db := After(START, evs).db;
            CircuitOpen(db, provider, now, scope) ==
              if ScopeOk(provider, scope)
                 && forall w | w in db.witnesses && Selected(w, scope, now - SCAN_WINDOW_MS) :: TimesFit(db, w, now)
              then Some(ThreeWithin(History(db.outbox, provider), now)) else None
  {
    hide Inv, Sound, After, CircuitOpen, ThreeWithin, History, TimesFit, Selected;
    ReachableIsSound(evs);
    SoundInv(After(START, evs).db);
    CommittedBreaker(After(START, evs).db, now, provider, scope);
  }
}
