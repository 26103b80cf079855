/** Activation transactions, run admissions, prompt building and run exits,
    interleaved in any order under the one mutation lock. */
module RuntimeFence {
  import opened Wrappers
  import opened SkillActivation

  type Task = string

  datatype Holder = Admission(task: Task) | Transaction

  /** Where the transaction that holds the lock stands. */
  datatype Counter = Off | Locked | Quiet | Published | Invalidated | Committed | Undoing | Undone

  /** `projection` is what the loader would read from the published skills directory and
      `cache` the in-process skills prompt; `unproven` records that since the last
      successful invalidation a transaction ended with a failed one, or raised after the
      directory swap. */
  datatype State = State(holder: Option<Holder>, running: set<Task>, projection: Projection,
                         cache: Option<Projection>, pc: Counter, unproven: bool)

  datatype Step =
    // a transaction
    | TakeLock
    | CheckQuiescence
    | Publish(after: Projection)
    | PublishRaises(after: Projection)
    | InvalidateFirst(fails: bool)
    | Commit(fails: bool)
    | Verify(fails: bool)
    | Restore(after: Projection)        // the restored projection, or whatever a failed restore left
    | InvalidateSecond(fails: bool)
    // a run
    | Admit(task: Task)
    | Register(task: Task)
    | ConstructionFails(task: Task)
    | BuildPrompt(task: Task)
    | Exit(task: Task)

  predicate Enabled(s: State, step: Step)
  {
    match step
    case TakeLock => s.holder.None?
    case CheckQuiescence => s.pc.Locked?
    case Publish(_) => s.pc.Quiet?
    case PublishRaises(_) => s.pc.Quiet?
    case InvalidateFirst(_) => s.pc.Published?
    case Commit(_) => s.pc.Invalidated?
    case Verify(_) => s.pc.Committed?
    case Restore(_) => s.pc.Undoing?
    case InvalidateSecond(_) => s.pc.Undone?
    case Admit(_) => s.holder.None?
    case Register(t) => s.holder == Some(Admission(t))
    case ConstructionFails(t) => s.holder == Some(Admission(t))
    case BuildPrompt(t) => t in s.running
    case Exit(t) => t in s.running
  }

  function Release(s: State): State { s.(holder := None, pc := Off) }

  function Next(s: State, step: Step): State
    requires Enabled(s, step)
  {
    match step
    case TakeLock => s.(holder := Some(Transaction), pc := Locked)
    case CheckQuiescence => if s.running == {} then s.(pc := Quiet) else Release(s)
    case Publish(p) => s.(projection := p, pc := Published)
    case PublishRaises(p) => Release(s.(projection := p, unproven := s.unproven || p != s.projection))
    case InvalidateFirst(fails) => 
      if fails then s.(pc := Undoing) else s.(cache := None, pc := Invalidated, unproven := false)
    case Commit(fails) => s.(pc := if fails then Undoing else Committed)
    case Verify(fails) => if fails then s.(pc := Undoing) else Release(s)
    case Restore(p) => s.(projection := p, pc := Undone)
    case InvalidateSecond(fails) => Release(if fails then s.(unproven := true) else s.(cache := None, unproven := false))
    case Admit(t) => s.(holder := Some(Admission(t)))
    case Register(t) => s.(running := s.running + {t}, holder := None)
    case ConstructionFails(t) => s.(holder := None)
    case BuildPrompt(_) => if s.cache.None? then s.(cache := Some(s.projection)) else s
    case Exit(t) => s.(running := s.running - {t})
  }

  predicate Initial(s: State)
  {
    s.holder.None? && s.running == {} && s.cache.None? && s.pc.Off? && !s.unproven
  }

  /** Some enabled sequence of steps leads from s to the state. */
  predicate Schedule(s: State, steps: seq<Step>)
    decreases |steps|
  {
    steps == [] || (Enabled(s, steps[0]) && Schedule(Next(s, steps[0]), steps[1..]))
  }

  function Run(s: State, steps: seq<Step>): State
    requires Schedule(s, steps)
    decreases |steps|
  {
    if steps == [] then s else Run(Next(s, steps[0]), steps[1..])
  }

  // ---------- the invariant ----------

  /** A transaction past its quiescence check holds the lock and finds nobody running. */
  predicate Fenced(s: State)
  {
    && (s.pc.Off? <==> s.holder != Some(Transaction))
    && (!s.pc.Off? && !s.pc.Locked? ==> s.running == {})
  }

  predicate Agrees(s: State) { s.cache.None? || s.cache.value == s.projection }

  /** Outside the changing phases the cache is empty or shows the projection. */
  predicate Fresh(s: State)
  {
    s.unproven ||
    match s.pc
    case Off => Agrees(s)
    case Locked => Agrees(s)
    case Quiet => Agrees(s)
    case Invalidated => s.cache.None?
    case Committed => s.cache.None?
    case _ => true
  }

  predicate Ok(s: State) { Fenced(s) && Fresh(s) }

  lemma StepKeepsOk(s: State, step: Step)
    requires Ok(s) && Enabled(s, step)
    ensures Ok(Next(s, step))
    ensures s.running != {} ==> Next(s, step).projection == s.projection
    ensures step in {InvalidateFirst(false), InvalidateSecond(false)} ==> !Next(s, step).unproven
  {
  }

  lemma {:induction false} ScheduleKeepsOk(s: State, steps: seq<Step>)
    requires Ok(s) && Schedule(s, steps)
    ensures Ok(Run(s, steps))
    decreases |steps|
  {
    hide Ok, Enabled, Next;
    if steps != [] {
      StepKeepsOk(s, steps[0]);
      ScheduleKeepsOk(Next(s, steps[0]), steps[1..]);
    }
  }

  /** In every interleaving: no step changes the published projection while any run is
      registered. */
  lemma ProjectionIsStable(s: State, steps: seq<Step>, step: Step)
    requires Initial(s) && Schedule(s, steps) && Enabled(Run(s, steps), step)
    requires Run(s, steps).running != {}
    ensures Next(Run(s, steps), step).projection == Run(s, steps).projection
  {
    hide Next, Schedule, Run;
    ScheduleKeepsOk(s, steps);
    StepKeepsOk(Run(s, steps), step);
  }

  /** Whenever the lock is free and no unproven outcome has occurred since the last
      successful invalidation, the prompt cache is empty or equal to the projection. */
  lemma CacheShowsProjection(s: State, steps: seq<Step>)
    requires Initial(s) && Schedule(s, steps)
    requires Run(s, steps).holder.None? && !Run(s, steps).unproven
    ensures Agrees(Run(s, steps))
  {
    hide Schedule, Run;
    ScheduleKeepsOk(s, steps);
  }

  /** A registered run never sees the projection move for as long as it stays
      registered, whatever else is scheduled. */
  lemma {:induction false} RegisteredRunSeesOneProjection(s: State, steps: seq<Step>, t: Task)
    requires Ok(s) && Schedule(s, steps) && t in s.running
    requires forall i | 0 <= i < |steps| :: steps[i] != Exit(t)
    ensures t in Run(s, steps).running && Run(s, steps).projection == s.projection
    decreases |steps|
  {
    hide Ok;
    if steps != [] {
      StepKeepsOk(s, steps[0]);
      RegisteredRunSeesOneProjection(Next(s, steps[0]), steps[1..], t);
    }
  }

  /** A publish that raises after its swap breaks the agreement: a stale prompt
      outlives the transaction. */
  lemma LatePublishFailureIsStale()
    ensures exists s: State, steps: seq<Step> ::
              Initial(s) && Schedule(s, steps) && Run(s, steps).holder.None? && !Agrees(Run(s, steps))
  {
    hide Schedule, Run;
    var v1: Projection := map[Skill("s") := Tree(Some("v1"), None, None)];
    var v2: Projection := map[Skill("s") := Tree(Some("v2"), None, None)];
    assert v1[Skill("s")] != v2[Skill("s")];
    var s0 := State(None, {}, v1, None, Off, false);
    var s1 := s0.(holder := Some(Admission("t")));
    var s2 := s0.(running := {"t"});
    var s3 := s2.(cache := Some(v1));
    var s4 := s0.(cache := Some(v1));
    var s5 := s4.(holder := Some(Transaction), pc := Locked);
    var s6 := s5.(pc := Quiet);
    ScheduleOne(s6, PublishRaises(v2));
    ScheduleCons(s5, CheckQuiescence, [PublishRaises(v2)]);
    var closing := [CheckQuiescence] + [PublishRaises(v2)];
    ScheduleCons(s4, TakeLock, closing);
    assert Next(s3, Exit("t")) == s4;
    ScheduleCons(s3, Exit("t"), [TakeLock] + closing);
    var leaving := [Exit("t")] + ([TakeLock] + closing);
    ScheduleCons(s2, BuildPrompt("t"), leaving);
    assert Next(s1, Register("t")) == s2;
    ScheduleCons(s1, Register("t"), [BuildPrompt("t")] + leaving);
    ScheduleCons(s0, Admit("t"), [Register("t")] + ([BuildPrompt("t")] + leaving));
    var steps := [Admit("t")] + ([Register("t")] + ([BuildPrompt("t")] + leaving));
    assert Initial(s0) && Schedule(s0, steps) && Run(s0, steps).holder.None? && !Agrees(Run(s0, steps));
  }

  lemma ScheduleOne(s: State, step: Step)
    requires Enabled(s, step)
    ensures Schedule(s, [step]) && Run(s, [step]) == Next(s, step)
  {
    assert Schedule(Next(s, step), []);
  }

  lemma ScheduleCons(s: State, step: Step, rest: seq<Step>)
    requires Enabled(s, step) && Schedule(Next(s, step), rest)
    ensures Schedule(s, [step] + rest) && Run(s, [step] + rest) == Run(Next(s, step), rest)
  {
    assert ([step] + rest)[1..] == rest;
  }

  // ---------- the transaction of SkillRuntime ----------

  /** What the fence sees of the runtime object while the lock is free. */
  function View(runtime: SkillRuntime, unproven: bool): State
    reads runtime
  {
    State(None, runtime.running, runtime.loadable, runtime.cache, Off, unproven)
  }

  /** Which outcomes leave the cache unproven; `same` says that the projection stands. */
  predicate UnprovenAfter(o: Outcome, unproven: bool, same: bool)
  {
    match o
    case Busy => unproven
    case PublishRaised => unproven || !same
    case RestoredButCacheUnproven => true
    case SecondInvalidationRaised => true
    case _ => false
  }

  /** What each outcome does to the cache. */
  predicate Leaves(s: State, o: Outcome, after: Projection, cache: Option<Projection>, firstFails: bool)
  {
    && (o.Busy? <==> s.running != {})
    && match o
       case Busy => after == s.projection && cache == s.cache
       case PublishRaised => cache == s.cache
       case RestoredButCacheUnproven => cache == if firstFails then s.cache else None
       case SecondInvalidationRaised => cache == if firstFails then s.cache else None
       case _ => cache == None
  }

  /** The steps of one transaction. */
  function PathOf(o: Outcome, published: Projection, after: Projection, firstFails: bool): seq<Step>
  {
    [TakeLock, CheckQuiescence] +
    match o
    case Busy => []
    case PublishRaised => [PublishRaises(after)]
    case Completed => [Publish(published), InvalidateFirst(false), Commit(false), Verify(false)]
    case DiscardRaised => [Publish(published), InvalidateFirst(false), Commit(false), Verify(false)]
    case _ =>
      [Publish(published), InvalidateFirst(firstFails)] + (if firstFails then [] else [Commit(true)]) +
      [Restore(after), InvalidateSecond(o.RestoredButCacheUnproven? || o.SecondInvalidationRaised?)]
  }

  lemma TwoSteps(s: State, a: Step, b: Step, rest: seq<Step>)
    requires Enabled(s, a) && Enabled(Next(s, a), b) && Schedule(Next(Next(s, a), b), rest)
    ensures Schedule(s, [a, b] + rest) && Run(s, [a, b] + rest) == Run(Next(Next(s, a), b), rest)
  {
    assert [a, b] + rest == [a] + ([b] + rest);
    ScheduleCons(Next(s, a), b, rest);
    ScheduleCons(s, a, [b] + rest);
  }

  lemma NoSteps(s: State)
    ensures Schedule(s, []) && Run(s, []) == s
  {
  }

  /** Restore and the second invalidation, from a transaction that is being undone. */
  lemma UndoingEnds(s: State, after: Projection, fails: bool)
    requires s.pc.Undoing?
    ensures Schedule(s, [Restore(after), InvalidateSecond(fails)])
    ensures Run(s, [Restore(after), InvalidateSecond(fails)]) == Next(Next(s, Restore(after)), InvalidateSecond(fails))
  {
    hide Run, Schedule;
    var last := Next(Next(s, Restore(after)), InvalidateSecond(fails));
    NoSteps(last);
    TwoSteps(s, Restore(after), InvalidateSecond(fails), []);
    assert [Restore(after), InvalidateSecond(fails)] + [] == [Restore(after), InvalidateSecond(fails)];
  }

  /** The steps of a transaction that published and then failed. */
  lemma FailureEnds(quiet: State, published: Projection, after: Projection, firstFails: bool, second: bool)
    requires quiet.pc.Quiet?
    ensures var steps := [Publish(published), InvalidateFirst(firstFails)] + (if firstFails then [] else [Commit(true)])
                         + [Restore(after), InvalidateSecond(second)];
            && Schedule(quiet, steps)
            && Run(quiet, steps) == Release(quiet.(projection := after, unproven := second,
                                                   cache := if second && firstFails then quiet.cache else None))
  {
    hide Run, Schedule;
    var tail := [Restore(after), InvalidateSecond(second)];
    var first := Next(Next(quiet, Publish(published)), InvalidateFirst(firstFails));
    if firstFails {
      UndoingEnds(first, after, second);
      assert [Publish(published), InvalidateFirst(true)] + [] + tail == [Publish(published), InvalidateFirst(true)] + tail;
      TwoSteps(quiet, Publish(published), InvalidateFirst(true), tail);
    } else {
      UndoingEnds(Next(first, Commit(true)), after, second);
      ScheduleCons(first, Commit(true), tail);
      assert [Publish(published), InvalidateFirst(false)] + [Commit(true)] + tail
          == [Publish(published), InvalidateFirst(false)] + ([Commit(true)] + tail);
      TwoSteps(quiet, Publish(published), InvalidateFirst(false), [Commit(true)] + tail);
    }
  }

  /** The steps of a transaction that went through. */
  lemma SuccessEnds(quiet: State, published: Projection)
    requires quiet.pc.Quiet?
    ensures var steps := [Publish(published), InvalidateFirst(false), Commit(false), Verify(false)];
            && Schedule(quiet, steps)
            && Run(quiet, steps) == Release(quiet.(projection := published, unproven := false, cache := None))
  {
    hide Run, Schedule;
    var invalid := Next(Next(quiet, Publish(published)), InvalidateFirst(false));
    NoSteps(Next(Next(invalid, Commit(false)), Verify(false)));
    TwoSteps(invalid, Commit(false), Verify(false), []);
    TwoSteps(quiet, Publish(published), InvalidateFirst(false), [Commit(false), Verify(false)] + []);
    assert [Publish(published), InvalidateFirst(false), Commit(false), Verify(false)]
        == [Publish(published), InvalidateFirst(false)] + ([Commit(false), Verify(false)] + []);
  }

  /** Every outcome of the transaction is a path of the fence's steps. */
  lemma OutcomeIsAPath(s: State, o: Outcome, published: Projection, after: Projection, cache: Option<Projection>, firstFails: bool)
    requires s.holder.None? && s.pc.Off? && Leaves(s, o, after, cache, firstFails)
    requires o.Completed? || o.DiscardRaised? ==> after == published
    ensures Schedule(s, PathOf(o, published, after, firstFails))
    ensures Run(s, PathOf(o, published, after, firstFails))
         == s.(projection := after, cache := cache, unproven := UnprovenAfter(o, s.unproven, after == s.projection))
  {
    hide Run, Schedule;
    var quiet := Next(Next(s, TakeLock), CheckQuiescence);
    var rest := PathOf(o, published, after, firstFails)[2..];
    if o.Busy? {
      NoSteps(quiet);
    } else if o.PublishRaised? {
      ScheduleOne(quiet, PublishRaises(after));
    } else if o.Completed? || o.DiscardRaised? {
      SuccessEnds(quiet, published);
    } else {
      FailureEnds(quiet, published, after, firstFails, o.RestoredButCacheUnproven? || o.SecondInvalidationRaised?);
    }
    assert PathOf(o, published, after, firstFails) == [TakeLock, CheckQuiescence] + rest;
    TwoSteps(s, TakeLock, CheckQuiescence, rest);
  }

  /** Running the transaction takes the fence along such a path: the flag ends up as the
      outcome says, and the fence's invariant is kept. */
  method Activate(runtime: SkillRuntime, kind: Kind, sid: string, source: Tree, digest: Digest, n: Names, fails: set<Fault>,
                  ghost unproven: bool) returns (o: Outcome, ghost steps: seq<Step>)
    requires runtime.FreshNames(n)
    modifies runtime
    ensures Schedule(old(View(runtime, unproven)), steps)
    ensures Run(old(View(runtime, unproven)), steps)
         == View(runtime, UnprovenAfter(o, unproven, runtime.loadable == old(runtime.loadable)))
    ensures Ok(old(View(runtime, unproven))) ==> Ok(View(runtime, UnprovenAfter(o, unproven, runtime.loadable == old(runtime.loadable))))
  {
    hide PathOf, Run, Schedule, TornFor, DigestOf, Stamped, Ok;
    ghost var s, published := View(runtime, unproven), PublishedFor(kind, runtime.loadable, sid, source, digest);
    o := runtime.Run(kind, sid, source, digest, n, fails);
    OutcomeIsAPath(s, o, published, runtime.loadable, runtime.cache, FirstInvalidationFault in fails);
    steps := PathOf(o, published, runtime.loadable, FirstInvalidationFault in fails);
    if Ok(s) { ScheduleKeepsOk(s, steps); }
  }
}
