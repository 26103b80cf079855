/** When cost evidence is accepted, said of the cost facts in the log and the amounts in
    the rows. */
module LedgerEvidence {
  import opened Wrappers
  import opened Payload
  import opened LedgerTables
  import opened LedgerChecks
  import opened LedgerWrites
  import opened LedgerInvariant
  import opened LedgerFold
  import opened LedgerOps
  import opened LedgerChains
  import opened LedgerBudget
  import opened LedgerHistory
  import opened LedgerRuns
  import opened LedgerLimits
  import opened LedgerFused
  import opened LedgerAnswers

  // ---------- cost facts ----------

  /** Some cost fact of e reports exactly this, an amount or none. */
  predicate Reported(log: seq<Fact>, e: Tuple, actual: Option<int>)
  {
    exists i :: 0 <= i < |log| && CostFactOf(log[i], e, actual)
  }

  predicate CostFactOf(f: Fact, e: Tuple, actual: Option<int>)
  {
    f.key == e && f.body.Cost? && f.body.actual == actual
  }

  lemma ReportedAppend(log: seq<Fact>, f: Fact, e: Tuple, actual: Option<int>)
    ensures Reported(log + [f], e, actual) <==> Reported(log, e, actual) || CostFactOf(f, e, actual)
  {
    var longer := log + [f];
    if i :| 0 <= i < |longer| && CostFactOf(longer[i], e, actual) {
      if i < |log| { assert CostFactOf(log[i], e, actual); }
    }
    if i :| 0 <= i < |log| && CostFactOf(log[i], e, actual) { assert CostFactOf(longer[i], e, actual); }
    assert longer[|log|] == f;
  }

  /** The dictionary of cost facts lists what the log reports. */
  lemma {:induction false} ListedIsReported(log: seq<Fact>, e: Tuple, actual: Option<int>)
    ensures CostCompatible(FactsOf(log, e).costs, actual) <==> Reported(log, e, actual)
  {
    if log != [] {
      var front, f := log[..|log| - 1], log[|log| - 1];
      ListedIsReported(front, e, actual);
      ReportedAppend(front, f, e, actual);
      assert log == front + [f];
      CompatibleAppend(FactsOf(front, e).costs, f.body, actual);
    }
  }

  lemma CompatibleAppend(costs: seq<FactBody>, b: FactBody, actual: Option<int>)
    ensures CostCompatible(costs + [b], actual) <==> CostCompatible(costs, actual) || (b.Cost? && b.actual == actual)
  {
    var longer := costs + [b];
    if i :| 0 <= i < |longer| && longer[i].Cost? && longer[i].actual == actual {
      if i < |costs| { assert costs[i].Cost? && costs[i].actual == actual; }
    }
    if i :| 0 <= i < |costs| && costs[i].Cost? && costs[i].actual == actual { assert longer[i].Cost? && longer[i].actual == actual; }
    assert longer[|costs|] == b;
  }

  /** All amounts reported for e are one and the same, and the given one if it is known. */
  ghost predicate AmountsAgree(log: seq<Fact>, e: Tuple, actual: Option<int>)
  {
    && (forall c, d: int | Reported(log, e, Some(c)) && Reported(log, e, Some(d)) :: c == d)
    && (actual.Some? ==> forall c: int | Reported(log, e, Some(c)) :: c == actual.value)
  }

  lemma KnownIsCompatible(costs: seq<FactBody>, i: nat)
    requires i < |costs| && KnownCost(costs[i])
    ensures CostCompatible(costs, Some(costs[i].actual.value))
  {
  }

  lemma AgreeMeans(log: seq<Fact>, e: Tuple, actual: Option<int>)
    ensures AmountsAgree(log, e, actual) <==> !CostsDisagree(FactsOf(log, e).costs, actual)
  {
    hide FactsOf, Reported, CostCompatible;
    var costs := FactsOf(log, e).costs;
    forall c: int ensures CostCompatible(costs, Some(c)) <==> Reported(log, e, Some(c)) { ListedIsReported(log, e, Some(c)); }
    if !CostsDisagree(costs, actual) {
      forall c, d: int | Reported(log, e, Some(c)) && Reported(log, e, Some(d))
        ensures c == d && (actual.Some? ==> c == actual.value)
      {
        CompatibleLists(costs, c);
        CompatibleLists(costs, d);
        TwoListed(costs, actual, c, d);
      }
    } else {
      forall i: nat | i < |costs| && KnownCost(costs[i]) ensures Reported(log, e, Some(costs[i].actual.value)) { KnownIsCompatible(costs, i); }
      if i, j :| 0 <= i < |costs| && 0 <= j < |costs| && KnownCost(costs[i]) && KnownCost(costs[j]) && costs[i].actual != costs[j].actual {
        var c, d := costs[i].actual.value, costs[j].actual.value;
        assert costs[i].actual == Some(c) && costs[j].actual == Some(d) && c != d;
        assert Reported(log, e, Some(c)) && Reported(log, e, Some(d));
      } else {
        var i :| 0 <= i < |costs| && KnownCost(costs[i]) && costs[i].actual != actual;
        assert costs[i].actual == Some(costs[i].actual.value) && costs[i].actual.value != actual.value;
        assert Reported(log, e, Some(costs[i].actual.value));
      }
    }
  }

  lemma TwoListed(costs: seq<FactBody>, actual: Option<int>, c: int, d: int)
    requires !CostsDisagree(costs, actual) && ListsAmount(costs, c) && ListsAmount(costs, d)
    ensures c == d && (actual.Some? ==> c == actual.value)
  {
    var i :| 0 <= i < |costs| && KnownCost(costs[i]) && costs[i].actual.value == c;
    var j :| 0 <= j < |costs| && KnownCost(costs[j]) && costs[j].actual.value == d;
    assert costs[i].actual == costs[j].actual;
  }

  predicate ListsAmount(costs: seq<FactBody>, c: int)
  {
    exists i :: 0 <= i < |costs| && KnownCost(costs[i]) && costs[i].actual.value == c
  }

  lemma CompatibleLists(costs: seq<FactBody>, c: int)
    requires CostCompatible(costs, Some(c))
    ensures ListsAmount(costs, c)
  {
    var i :| 0 <= i < |costs| && costs[i].Cost? && costs[i].actual == Some(c);
    assert KnownCost(costs[i]);
  }

  // ---------- acceptance ----------

  /** The evidence fits a current tuple: no reported amount contradicts another or it, the
      new reservation is a safe integer, and an unknown cost does not follow a known one. */
  ghost predicate EvidenceFits(db: Db, e: Tuple, ev: Evidence)
    requires HasRows(db, e)
  {
    && AmountsAgree(db.outbox, e, ev.actual)
    && AmountWith(db, e, HeldCost(db, e, Some(ev))) <= SAFE_INTEGER_MAX
    && (ev.actual.None? && Row(db, e).cost.Some? ==> Reported(db.outbox, e, None))
  }

  /** A known cost of a current row is what the newest of its cost facts reports. */
  lemma RowCostIsReported(db: Db, e: Tuple)
    requires Inv(db) && IsCurrent(db, e)
    ensures HasRows(db, e) && (Row(db, e).cost.Some? ==> Reported(db.outbox, e, Row(db, e).cost))
  {
    CurrentIsActive(db, e);
    LastRow(db, e);
    hide Inv, FactsOf, TaskRowOk, Reported, LiveOk;
    ListedIsReported(db.outbox, e, Row(db, e).cost);
    var costs := FactsOf(db.outbox, e).costs;
    CostFactsAreListed(db.outbox, e);
    if Row(db, e).cost.Some? { assert costs[|costs| - 1].Cost? && costs[|costs| - 1].actual == Row(db, e).cost; }
  }

  /** After an allowed cost write the tuple is still current, and usable exactly while the
      reservation is in range. */
  lemma CostWriteUsable(db: Db, w: Write)
    requires Inv(db) && w.SetCost? && Guard(db, w)
    ensures Inv(Put(db, w)) && HasRows(Put(db, w), w.tuple) && IsCurrent(Put(db, w), w.tuple)
    ensures ActiveLookup(Put(db, w), w.tuple).Found?
  {
    WriteKeepsInv(db, w);
    LiveIsLast(db, w.tuple);
    hide Inv, FactsOf, IsCanonical, CostFactOk;
    LookupMeans(Put(db, w), w.tuple);
  }

  lemma EvidenceMeans(db: Db, e: Tuple, ev: Evidence, now: int, allowCancel: bool)
    requires Inv(db) && IsCurrent(db, e) && EvidenceOk(Some(ev)) && TimeOk(now)
    ensures HasRows(db, e)
    ensures ApplyEvidence(db, e, ev, now, allowCancel).Some? <==> EvidenceFits(db, e, ev)
  {
    hide Inv, PlanChecks, FactsOf, CostsDisagree, CostCompatible, Reported, ActiveLookup, Put, Controls, EndedState;
    LookupMeans(db, e);
    RowCostIsReported(db, e);
    AgreeMeans(db.outbox, e, ev.actual);
    ListedIsReported(db.outbox, e, ev.actual);
    AmountsAreNatural(db, e);
    var w := SetCost(e, HeldCost(db, e, Some(ev)), Cost(ev.actual, Some(ev.source)), now);
    if EvidenceFits(db, e, ev) {
      if !(ev.actual.None? && Row(db, e).cost.Some?) { CostWriteUsable(db, w); }
    } else if AmountsAgree(db.outbox, e, ev.actual) && AmountWith(db, e, HeldCost(db, e, Some(ev))) <= SAFE_INTEGER_MAX {
      UnknownOverKnownIsCorrupt(db, w);
      StillActive(db, w);
    }
  }

  lemma StillActive(db: Db, w: Write)
    requires Inv(db) && w.SetCost? && HasRows(db, w.tuple) && IsCurrent(db, w.tuple)
    ensures HasRows(Put(db, w), w.tuple) && ActiveRow(Put(db, w), w.tuple)
  {
    CurrentIsActive(db, w.tuple);
    hide Inv;
  }
}
