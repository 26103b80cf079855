/** One key, one write: of all calls of a run that claim one idempotency key, at most
    one changes the database. */
module LedgerKeys {
  import opened Wrappers
  import opened Payload
  import opened LedgerTables
  import opened LedgerChecks
  import opened LedgerWrites
  import opened LedgerInvariant
  import opened LedgerFold
  import opened LedgerCircuit
  import opened SubmitFence
  import opened LedgerOps
  import opened LedgerChains
  import opened LedgerBudget
  import opened LedgerHistory
  import opened LedgerRuns
  import opened LedgerReplay
  import opened LedgerFused

  lemma SubmitSpends(db: Db, g: map<Tuple, int>, e: Tuple, plan: Plan, provider: ProviderId, attemptDeadline: int,
                     key: string, now: int, seen: int, mono: int)
    ensures var r := SubmitAttempt(db, g, e, plan, provider, attemptDeadline, Some(key), now, seen, mono);
            r.db == db || IdemKey(OpSubmit, key) in r.db.idem
  {
    hide PlanChecks, FenceReadiness, GuardsAfter, ValidPlan, FenceOk;
  }

  lemma ObservationSpends(db: Db, g: map<Tuple, int>, e: Tuple, failure: Failure, key: string,
                          source: Option<FailureSource>, now: int)
    ensures var r := RecordObservation(db, g, e, failure, key, source, now);
            r.db == db || IdemKey(OpObservation, key) in r.db.idem
  {
    hide PlanChecks, FailureOk;
  }

  lemma TransitionSpends(db: Db, g: map<Tuple, int>, e: Tuple, successor: ProviderId, failure: Failure, jitter: int,
                         planHash: Option<PlanHash>, key: string, id: AttemptId, now: int, mono: int)
    ensures var r := TransitionOnce(db, g, e, successor, failure, jitter, planHash, Some(key), id, now, mono);
            r.db == db || IdemKey(OpTransition, key) in r.db.idem
  {
    hide PlanChecks, TransitionPrecheck, FailureOk, Durable, Replacement, WitnessFor;
  }

  /** Only its two answers let a fused call change the database. */
  lemma FusedSpends(s: State, ev: Event)
    requires RepliesTruthful(s.db) && ev.Fusing?
    ensures Step(s, ev).db == s.db || IdemKey(OpTransition, ev.key) in Step(s, ev).db.idem
  {
    hide Step, RepliesTruthful;
    if Step(s, ev).db != s.db {
      FusedAnswers(s, ev);
      if Step(s, ev).reply.Rejected? || Step(s, ev).reply.Failed? { FusedRejectionWritesNothing(s, ev); }
      FusedIsStored(s, ev);
      StoredIsSpent(Step(s, ev).db, OpTransition, ev.key, Original(Step(s, ev).reply));
    }
  }

  lemma FusedAnswers(s: State, ev: Event)
    requires ev.Fusing?
    ensures var r := Step(s, ev); r.db == s.db || r.reply.Rejected? || r.reply.Failed? || FusedAnswer(r.reply)
  {
    hide PlanChecks, TransitionPrecheck, FailureOk, ApplyEvidence, ObservationBound, Durable, Remember, ObserveOnce, Put, EvidenceOk;
  }

  lemma ForwardSpends(db: Db, g: map<Tuple, int>, e: Tuple, key: string, delay: int, f: Failure,
                      asked: Option<ProviderId>, id: AttemptId, now: int, mono: int)
    requires ActiveLookup(db, e).Found?
    ensures var r := RecoverForward(db, g, e, key, delay, f, asked, id, now, mono);
            r.db == db || IdemKey(OpRecovery, key) in r.db.idem
  {
    hide PlanChecks, CircuitOpen, FailureOk, Replacement, WitnessFor, IndexOf, RecoveryTarget;
  }

  lemma RecoverySpends(db: Db, g: map<Tuple, int>, e: Tuple, key: string, jitter: int, failure: Option<Failure>,
                       asked: Option<ProviderId>, id: AttemptId, now: int, mono: int)
    ensures var r := RecoverAndTransition(db, g, e, key, jitter, failure, asked, id, now, mono);
            r.db == db || IdemKey(OpRecovery, key) in r.db.idem
  {
    hide PlanChecks, FailureOk, Durable, LatestCostSource, CostPayloadOk, RecoverForward;
    var f := if failure.Some? then failure.value else PRE_DISPATCH_TIMEOUT;
    var delay := DirectJitter(jitter, failure.None? && asked.None?);
    if delay.Some? && ActiveLookup(db, e).Found? { ForwardSpends(db, g, e, key, delay.value, f, asked, id, now, mono); }
  }

  lemma CancelSpends(db: Db, g: map<Tuple, int>, e: Tuple, key: string, now: int)
    ensures var r := RequestCancel(db, g, e, key, now); r.db == db || IdemKey(OpCancel, key) in r.db.idem
  {
  }

  lemma CloseSpends(db: Db, g: map<Tuple, int>, e: Tuple, outcome: Outcome, source: Option<CostSource>, failure: Option<Failure>,
                    failureSource: Option<FailureSource>, key: string, ev: Option<Evidence>, now: int)
    ensures var r := CloseTerminal(db, g, e, outcome, source, failure, failureSource, Some(key), ev, now);
            r.db == db || IdemKey(OpFinalize, key) in r.db.idem
  {
    hide ReconcileAndClose, FailureOk, EvidenceOk;
  }

  /** A call that writes under a key remembers it in the same commit. */
  lemma WriteSpends(s: State, ev: Event, k: IdemKey)
    requires RepliesTruthful(s.db) && Spends(ev, k)
    ensures Step(s, ev).db == s.db || k in Step(s, ev).db.idem
  {
    hide RepliesTruthful, SubmitAttempt, RecordObservation, TransitionOnce, FusedTransition, RecoverAndTransition,
         RequestCancel, CloseTerminal;
    var db, g, key := s.db, s.guards, k.key;
    match ev
    case Submitting(e, plan, p, d, _, now, seen, mono) => SubmitSpends(db, g, e, plan, p, d, key, now, seen, mono);
    case Observing(e, f, _, source, now) => ObservationSpends(db, g, e, f, key, source, now);
    case Transitioning(e, p, f, j, h, _, id, now, mono) => TransitionSpends(db, g, e, p, f, j, h, key, id, now, mono);
    case Fusing(_, _, _, _, _, _, _, _, _, _, _, _) => FusedSpends(s, ev);
    case Recovering(e, _, j, f, asked, id, now, mono) => RecoverySpends(db, g, e, key, j, f, asked, id, now, mono);
    case Cancelling(e, _, now) => CancelSpends(db, g, e, key, now);
    case Closing(e, o, source, f, fs, _, c, now) => CloseSpends(db, g, e, o, source, f, fs, key, c, now);
  }

  lemma {:induction false} AfterConcat(s: State, first: seq<Event>, second: seq<Event>)
    ensures After(s, first + second) == After(After(s, first), second)
  {
    hide Step;
    if second == [] {
      assert first + second == first;
    } else {
      var front := second[..|second| - 1];
      AfterConcat(s, first, front);
      assert (first + second)[..|first + second| - 1] == first + front;
    }
  }

  /** Where the run stands before its event i. */
  ghost function Before(evs: seq<Event>, i: nat): State
    requires i <= |evs|
  {
    After(START, evs[..i])
  }

  /** Event i of the run changes the database. */
  ghost predicate Writes(evs: seq<Event>, i: nat)
    requires i < |evs|
  {
    Step(Before(evs, i), evs[i]).db != Before(evs, i).db
  }

  /** Event i of the run inserts an attempt row. */
  ghost predicate MintsAttempt(evs: seq<Event>, i: nat)
    requires i < |evs|
  {
    exists slot :: slot in Step(Before(evs, i), evs[i]).db.attempts && slot !in Before(evs, i).db.attempts
  }

  /** Of two calls of one run that claim the same key at most one changes the database,
      whatever their other arguments; so one key never mints two attempts. */
  lemma KeyWritesOnce(evs: seq<Event>, i: nat, j: nat, k: IdemKey)
    requires i < j < |evs| && Spends(evs[i], k) && Spends(evs[j], k)
    ensures !(Writes(evs, i) && Writes(evs, j))
    ensures !(MintsAttempt(evs, i) && MintsAttempt(evs, j))
  {
    hide Sound, Step, After, Spends;
    if Writes(evs, i) {
      var s := Before(evs, i);
      ReachableIsSound(evs[..i]);
      SoundInv(s.db);
      WriteSpends(s, evs[i], k);
      AfterAppend(START, evs[..i], evs[i]);
      assert evs[..i + 1] == evs[..i] + [evs[i]];
      ReachableIsSound(evs[..i + 1]);
      AfterConcat(START, evs[..i + 1], evs[i + 1..j]);
      assert evs[..j] == evs[..i + 1] + evs[i + 1..j];
      SpentForGood(Before(evs, i + 1), evs[i + 1..j], evs[j], k);
    }
  }
}
