/** What a call gets before the ledger looks at its tuple: a malformed one its refusal, and
    one under a remembered key the answer that key holds. */
module LedgerArguments {
  import opened Wrappers
  import opened Payload
  import opened LedgerTables
  import opened LedgerChecks
  import opened LedgerWrites
  import opened SubmitFence
  import opened LedgerOps
  import opened LedgerHistory
  import opened LedgerRuns
  import opened LedgerReplay
  import opened LedgerMoves

  predicate InRange(amount: Option<int>) { amount.Some? ==> 0 <= amount.value <= 9007199254740991 }

  predicate DelayInRange(delay: int) { 250 <= delay <= 750 }

  predicate ClockOk(now: int) { 0 < now <= 9007199254740991 }

  /** The class and the code of the failure belong together, and so does the flag. */
  predicate WellClassed(f: Option<Failure>)
  {
    f.Some? ==>
      && (f.value.code.DeterministicTimeout? || f.value.code in SafeCodes(f.value.kind))
      && (f.value.retryable <==> f.value.kind.Retryable?)
  }

  /** A known cost has a source, an unknown one has none. */
  predicate WellSourced(ev: Option<Evidence>)
  {
    ev.Some? ==> InRange(ev.value.actual) && (ev.value.actual.Some? <==> ev.value.source != Unavailable)
  }

  /** The answer to a call whose arguments are refused, by the first one that is. */
  function Complaint(ev: Event): Option<Reply>
  {
    match ev
    case Creating(t, plan, _, now) =>
      if !ValidPlan(t, plan) then Some(Failed(InvalidInput)) else Unclocked(now)
    case Submitting(e, plan, _, attemptDeadline, _, now, _, _) =>
      if !ValidPlan(e.task, plan) || !ClockOk(attemptDeadline) then Some(Rejected(BadInput)) else Unclocked(now)
    case Observing(_, f, _, _, now) =>
      if !WellClassed(Some(f)) then Some(Rejected(BadInput)) else Unclocked(now)
    case Costing(_, actual, _, now) =>
      if !InRange(actual) then Some(Failed(InvalidInput)) else Unclocked(now)
    case Transitioning(_, _, f, _, _, _, _, now, _) =>
      if !WellClassed(Some(f)) then Some(Failed(InvalidInput))
      else if !f.kind.Retryable? || !DelayInRange(AskedDelay(ev)) then Some(Nothing)
      else Unclocked(now)
    case Fusing(_, _, f, _, jitter, _, obsKey, key, evidence, _, now, _) =>
      if !WellClassed(Some(f)) then Some(Failed(InvalidInput))
      else if !f.kind.Retryable? || f.code.PreDispatchTimeout? || obsKey == key || !DelayInRange(jitter) || !WellSourced(evidence)
      then Some(Rejected(BadInput))
      else Unclocked(now)
    case Recovering(_, _, _, cause, _, _, now, _) =>
      if !DelayInRange(AskedDelay(ev)) then Some(Rejected(BadInput))
      else if !WellClassed(cause) then Some(Failed(InvalidInput))
      else if cause.Some? && !cause.value.kind.Retryable? then Some(Rejected(BadInput))
      else Unclocked(now)
    case Completing(_, _, actual, _, now) =>
      if !InRange(actual) then Some(Failed(InvalidInput)) else Unclocked(now)
    case Closing(_, _, _, cause, origin, _, evidence, now) =>
      if !WellClassed(cause) || cause.Some? != origin.Some? || !WellSourced(evidence) then Some(Failed(InvalidInput)) else Unclocked(now)
    case Polling(_, _, actual, _, cause, origin, now) =>
      if !InRange(actual) || !WellClassed(cause) || (cause.Some? && cause.value.retryable) || cause.Some? != origin.Some?
      then Some(Failed(InvalidInput))
      else Unclocked(now)
    case Restarting(_) => None
    case _ => Unclocked(ev.now)
  }

  /** A clock reading that is no positive safe integer. */
  function Unclocked(now: int): Option<Reply>
  {
    if ClockOk(now) then None else Some(Failed(CorruptLedger))
  }

  lemma ComplaintIsAnswered(s: State, ev: Event)
    requires Complaint(ev).Some? && !ev.Fusing? && !ev.Recovering? && !ev.Closing? && !ev.Polling? && !ev.Transitioning?
    ensures Step(s, ev) == Answer(s.db, s.guards, Complaint(ev).value)
  {
    hide ValidPlan, SafeCodes;
  }

  lemma MoveComplaintIsAnswered(s: State, ev: Event)
    requires Complaint(ev).Some? && (ev.Fusing? || ev.Recovering? || ev.Transitioning?)
    ensures Step(s, ev) == Answer(s.db, s.guards, Complaint(ev).value)
  {
    hide FusedFresh, FusedReplay, Durable, RecoverForward, RecoverUncertain, TransitionPrecheck, ApplyOnce, ObservationBound;
  }

  lemma EndComplaintIsAnswered(s: State, ev: Event)
    requires Complaint(ev).Some? && (ev.Closing? || ev.Polling?)
    ensures Step(s, ev) == Answer(s.db, s.guards, Complaint(ev).value)
  {
    hide CloseOpen, PollForward, LatestOutcome, SafeCodes;
  }

  /** A malformed call is answered by its first refused argument, in any state, and leaves
      the tables and the guards as they were. */
  lemma MalformedAnswers(s: State, ev: Event)
    requires Complaint(ev).Some?
    ensures Step(s, ev) == Answer(s.db, s.guards, Complaint(ev).value)
  {
    hide Complaint, Step;
    if ev.Fusing? || ev.Recovering? || ev.Transitioning? {
      MoveComplaintIsAnswered(s, ev);
    } else if ev.Closing? || ev.Polling? {
      EndComplaintIsAnswered(s, ev);
    } else {
      ComplaintIsAnswered(s, ev);
    }
  }

  // ---------- remembered submits, cancels and closes ----------

  /** The call claimed a key and its answer is one that the key remembers. */
  predicate Remembers(ev: Event, reply: Reply)
  {
    match ev
    case Submitting(_, _, _, _, token, _, _, _) => token.Some? && reply.Submitted?
    case Cancelling(_, _, _) => reply.AckCancelled? || reply.AckAlreadyTerminal?
    case Closing(_, _, _, _, _, token, _, _) => token.Some? && reply.ClosedTerminal?
    case _ => false
  }

  function KeyOf(ev: Event): IdemKey
    requires ev.Submitting? || ev.Cancelling? || ev.Closing?
    requires !ev.Cancelling? ==> ev.token.Some?
  {
    match ev
    case Submitting(_, _, _, _, token, _, _, _) => IdemKey(OpSubmit, token.value)
    case Cancelling(_, key, _) => IdemKey(OpCancel, key)
    case Closing(_, _, _, _, _, token, _, _) => IdemKey(OpFinalize, token.value)
  }

  predicate Holds(db: Db, k: IdemKey, reply: Reply) { k in db.idem && db.idem[k].result == reply }

  lemma SubmitIsHeld(db: Db, g: map<Tuple, int>, e: Tuple, plan: Plan, provider: ProviderId, attemptDeadline: int,
                     key: string, now: int, seen: int, mono: int)
    ensures var r := SubmitAttempt(db, g, e, plan, provider, attemptDeadline, Some(key), now, seen, mono);
            r.reply.Submitted? ==> Holds(r.db, IdemKey(OpSubmit, key), r.reply)
  {
    hide PlanChecks, FenceReadiness, GuardsAfter, ValidPlan, HasAttempt, Controls, Rewrite;
  }

  lemma CancelIsHeld(db: Db, g: map<Tuple, int>, e: Tuple, key: string, now: int)
    ensures var r := RequestCancel(db, g, e, key, now);
            r.reply.AckCancelled? || r.reply.AckAlreadyTerminal? ==> Holds(r.db, IdemKey(OpCancel, key), r.reply)
  {
    hide CancelRows;
  }

  lemma CloseIsHeld(db: Db, g: map<Tuple, int>, e: Tuple, outcome: Outcome, source: Option<CostSource>, failure: Option<Failure>,
                    failureSource: Option<FailureSource>, key: string, ev: Option<Evidence>, now: int)
    ensures var r := CloseTerminal(db, g, e, outcome, source, failure, failureSource, Some(key), ev, now);
            r.reply.ClosedTerminal? ==> Holds(r.db, IdemKey(OpFinalize, key), r.reply)
  {
    hide ReconcileAndClose, FailureOk, EvidenceOk;
  }

  lemma AnswerIsHeld(s: State, ev: Event)
    requires Remembers(ev, Step(s, ev).reply)
    ensures Holds(Step(s, ev).db, KeyOf(ev), Step(s, ev).reply)
  {
    hide SubmitAttempt, RequestCancel, CloseTerminal, Holds;
    match ev
    case Submitting(e, plan, p, d, k, now, seen, mono) => SubmitIsHeld(s.db, s.guards, e, plan, p, d, k.value, now, seen, mono);
    case Cancelling(e, k, now) => CancelIsHeld(s.db, s.guards, e, k, now);
    case Closing(e, o, source, f, fs, k, c, now) => CloseIsHeld(s.db, s.guards, e, o, source, f, fs, k.value, c, now);
  }

  lemma HeldStays(db: Db, db': Db, k: IdemKey, reply: Reply)
    requires Persists(db, db') && Holds(db, k, reply)
    ensures Holds(db', k, reply)
  {
  }

  lemma HeldIsAnswered(s: State, ev: Event, reply: Reply)
    requires (ev.Submitting? || ev.Cancelling? || ev.Closing?) && (!ev.Cancelling? ==> ev.token.Some?)
    requires Holds(s.db, KeyOf(ev), reply) && Complaint(ev).None?
    ensures Step(s, ev) == Answer(s.db, s.guards, if ev.Cancelling? then reply else Duplicate(reply))
  {
    hide ActiveLookup, SubmitFound, CloseOpen, ValidPlan, SafeCodes, Put;
  }

  /** Once a submit, a cancel or a terminal close answered under a key, in every continuation
      of the run every well-formed call of the same kind under that key, with any tuple, gets
      the very same answer, marked as a duplicate unless it is a cancel, and writes nothing. */
  lemma AnswerIsRepeated(evs: seq<Event>, first: Event, more: seq<Event>, again: Event)
    requires Remembers(first, Step(After(START, evs), first).reply) && Complaint(again).None?
    requires (again.Submitting? || again.Cancelling? || again.Closing?) && (!again.Cancelling? ==> again.token.Some?)
    requires KeyOf(again) == KeyOf(first)
    ensures var r := Step(After(START, evs), first);
            var later := After(State(r.db, r.guards), more);
            Step(later, again) == Answer(later.db, later.guards, if again.Cancelling? then r.reply else Duplicate(r.reply))
  {
    hide Sound, Step, After, Complaint, Holds, KeyOf, Persists, Absorbs;
    var s := After(START, evs);
    var r := Step(s, first);
    ReachableIsSound(evs);
    StepKeepsSound(s, first);
    AnswerIsHeld(s, first);
    RunKeepsSound(State(r.db, r.guards), more);
    HeldStays(r.db, After(State(r.db, r.guards), more).db, KeyOf(first), r.reply);
    HeldIsAnswered(After(State(r.db, r.guards), more), again, r.reply);
  }
}
