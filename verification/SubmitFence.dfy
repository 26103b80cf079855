/** The submit fence of a successor: a durable wall-clock fence and a volatile
    monotonic guard, both of which must have passed. */
module SubmitFence {
  import opened Wrappers
  import opened Payload
  import opened LedgerTables

  const NS_PER_MS: int := 1_000_000
  const MAX_WAIT_MS: int := 750

  datatype Readiness = BadFence | Ready | Wait(fence: int, retryAfterMs: int)

  function Max(a: int, b: int): int { if a >= b then a else b }

  function Min(a: int, b: int): int { if a <= b then a else b }

  /** math.ceil(ns / 1_000_000) */
  function CeilMs(ns: int): int { -((-ns) / NS_PER_MS) }

  /** The guard of an attempt, created on first sight at monotonic time `seen`. */
  function GuardOf(guards: map<Tuple, int>, e: Tuple, a: Attempt, seen: int): int
  {
    if e in guards then guards[e] else seen + (a.submitNotBefore - a.createdAt) * NS_PER_MS
  }

  function GuardsAfter(guards: map<Tuple, int>, e: Tuple, a: Attempt, deadline: int, seen: int): map<Tuple, int>
  {
    if FenceOk(a.submitNotBefore, a.createdAt, deadline) && a.submitNotBefore != 0
    then guards[e := GuardOf(guards, e, a, seen)] else guards
  }

  /** `_fence_readiness`, reading the monotonic clock at `seen` and then at `mono`. */
  function FenceReadiness(guards: map<Tuple, int>, e: Tuple, a: Attempt, deadline: int,
                          wall: int, seen: int, mono: int): Readiness
  {
    if !FenceOk(a.submitNotBefore, a.createdAt, deadline) then BadFence
    else if a.submitNotBefore == 0 then Ready
    else
      var monoLeft := GuardOf(guards, e, a, seen) - mono;
      var wallLeft := a.submitNotBefore - wall;
      if monoLeft <= 0 && wallLeft <= 0 then Ready
      else Wait(a.submitNotBefore, Max(1, Min(MAX_WAIT_MS, Max(wallLeft, Max(0, CeilMs(monoLeft))))))
  }

  /** Readiness is reported exactly when both fences have passed. */
  lemma ReadyIffBothPassed(guards: map<Tuple, int>, e: Tuple, a: Attempt, deadline: int, wall: int, seen: int, mono: int)
    requires FenceOk(a.submitNotBefore, a.createdAt, deadline) && a.submitNotBefore != 0
    ensures FenceReadiness(guards, e, a, deadline, wall, seen, mono).Ready? <==>
            a.submitNotBefore <= wall && GuardsAfter(guards, e, a, deadline, seen)[e] <= mono
    ensures var r := FenceReadiness(guards, e, a, deadline, wall, seen, mono);
            r.Wait? ==> r.fence == a.submitNotBefore && 1 <= r.retryAfterMs <= MAX_WAIT_MS
  {
  }

  lemma CeilCovers(ns: int, ms: int)
    ensures CeilMs(ns) <= ms <==> ns <= ms * NS_PER_MS
  {
  }

  /** One wait of the returned length ends NOT_READY exactly when neither clock had
      more than 750 ms left. */
  lemma OneWaitSuffices(guards: map<Tuple, int>, e: Tuple, a: Attempt, deadline: int, wall: int, seen: int, mono: int)
    requires FenceReadiness(guards, e, a, deadline, wall, seen, mono).Wait?
    ensures var r := FenceReadiness(guards, e, a, deadline, wall, seen, mono).retryAfterMs;
            var g := GuardsAfter(guards, e, a, deadline, seen);
            (forall wall', seen', mono' | wall' >= wall + r && mono' >= mono + r * NS_PER_MS ::
               FenceReadiness(g, e, a, deadline, wall', seen', mono').Ready?)
            <==> a.submitNotBefore - wall <= MAX_WAIT_MS && g[e] - mono <= MAX_WAIT_MS * NS_PER_MS
  {
    var r := FenceReadiness(guards, e, a, deadline, wall, seen, mono).retryAfterMs;
    var g := GuardsAfter(guards, e, a, deadline, seen);
    CeilCovers(g[e] - mono, r);
    CeilCovers(g[e] - mono, MAX_WAIT_MS);
    forall wall', seen', mono' | wall' >= wall + r && mono' >= mono + r * NS_PER_MS
      ensures FenceReadiness(g, e, a, deadline, wall', seen', mono').Ready? <==> a.submitNotBefore <= wall' && g[e] <= mono'
    {
      ReadyIffBothPassed(g, e, a, deadline, wall', seen', mono');
    }
    if !(a.submitNotBefore - wall <= MAX_WAIT_MS && g[e] - mono <= MAX_WAIT_MS * NS_PER_MS) {
      assert !FenceReadiness(g, e, a, deadline, wall + r, mono, mono + r * NS_PER_MS).Ready?;
    }
  }

  /** A guard never lies further ahead than the fence's own delay: it was set, at
      an earlier monotonic time, to that time plus the delay. */
  predicate GuardInReach(guards: map<Tuple, int>, e: Tuple, a: Attempt, mono: int)
  {
    e in guards ==> guards[e] <= mono + (a.submitNotBefore - a.createdAt) * NS_PER_MS
  }

  /** If the wall clock has not gone below the creation time, one wait ends NOT_READY;
      also when the guard table was rebuilt on restart. */
  lemma WaitEndsNotReady(guards: map<Tuple, int>, e: Tuple, a: Attempt, deadline: int,
                         wall: int, seen: int, mono: int, wall': int, seen': int, mono': int)
    requires FenceReadiness(guards, e, a, deadline, wall, seen, mono).Wait?
    requires a.createdAt <= wall && GuardInReach(guards, e, a, seen) && seen <= mono
    requires var r := FenceReadiness(guards, e, a, deadline, wall, seen, mono).retryAfterMs;
             wall' >= wall + r && mono' >= mono + r * NS_PER_MS
    ensures FenceReadiness(GuardsAfter(guards, e, a, deadline, seen), e, a, deadline, wall', seen', mono').Ready?
  {
    OneWaitSuffices(guards, e, a, deadline, wall, seen, mono);
  }

  /** Below the creation time the cap of 750 ms is too short: a concrete case. */
  lemma ClockBelowCreationNeedsMoreWaits()
    ensures exists guards: map<Tuple, int>, e: Tuple, a: Attempt ::
              FenceReadiness(guards, e, a, 10_000, 1_000, 0, 0) == Wait(5_500, 750)
              && FenceReadiness(GuardsAfter(guards, e, a, 10_000, 0), e, a, 10_000, 1_750, 0, 750 * NS_PER_MS).Wait?
  {
    var e := Tuple("t", "a", 1);
    var a := Attempt("a", "p", Active, false, false, 0, None, None, 5_000, None, 5_500);
    assert FenceReadiness(map[], e, a, 10_000, 1_000, 0, 0) == Wait(5_500, 750);
    assert FenceReadiness(GuardsAfter(map[], e, a, 10_000, 0), e, a, 10_000, 1_750, 0, 750 * NS_PER_MS).Wait?;
  }
}
