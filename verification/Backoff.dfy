/** The relay's reconnect backoff, in the signed 64-bit nanoseconds it is computed in. */
module Backoff {

  const TWO_62: int := 0x4000_0000_0000_0000
  const TWO_63: int := 0x8000_0000_0000_0000
  const TWO_64: int := 0x1_0000_0000_0000_0000

  /** The value a signed 64-bit register holds after an operation whose exact result is `x`. */
  function Wrap64(x: int): int {
    (x + TWO_63) % TWO_64 - TWO_63
  }

  /** Doubling with the cap, as the loop does it. */
  function NextDelay(delay: int, maxDelay: int): int {
    var doubled := Wrap64(delay * 2);
    if doubled > maxDelay then maxDelay else doubled
  }

  /** The delay in force after `k` failures in a row. */
  function DelayAfter(minDelay: int, maxDelay: int, k: nat): int {
    if k == 0 then minDelay else NextDelay(DelayAfter(minDelay, maxDelay, k - 1), maxDelay)
  }

  function Pow2(k: nat): (p: nat)
    ensures p >= k + 1
  {
    if k == 0 then 1 else 2 * Pow2(k - 1)
  }

  function Min(a: int, b: int): int {
    if a < b then a else b
  }

  /** The intended wait: `minDelay` doubled `k` times, capped once it has been doubled. */
  function ClosedForm(minDelay: int, maxDelay: int, k: nat): int {
    if k == 0 then minDelay else Min(maxDelay, minDelay * Pow2(k))
  }

  /** One call of `do`: whether it failed, and whether the context ended after it or in the wait. */
  datatype Attempt = Attempt(failed: bool, endedAfter: bool, endedInWait: bool)

  /** The loop's variable, the failures since the start or the last success, the waits begun. */
  datatype Loop = Loop(delay: int, streak: nat, waits: seq<int>, over: bool)

  function OnAttempt(l: Loop, a: Attempt, minDelay: int, maxDelay: int): Loop {
    if l.over then l
    else if a.endedAfter then l.(over := true)
    else if !a.failed then l.(delay := minDelay, streak := 0)
    else if a.endedInWait then l.(waits := l.waits + [l.delay], over := true)
    else Loop(NextDelay(l.delay, maxDelay), l.streak + 1, l.waits + [l.delay], false)
  }

  function After(attempts: seq<Attempt>, minDelay: int, maxDelay: int): Loop {
    if attempts == [] then Loop(minDelay, 0, [], false)
    else OnAttempt(After(attempts[..|attempts| - 1], minDelay, maxDelay), attempts[|attempts| - 1], minDelay, maxDelay)
  }

  lemma AfterLast(attempts: seq<Attempt>, a: Attempt, minDelay: int, maxDelay: int)
    ensures After(attempts + [a], minDelay, maxDelay) == OnAttempt(After(attempts, minDelay, maxDelay), a, minDelay, maxDelay)
  {
    assert (attempts + [a])[..|attempts|] == attempts;
  }

  // ----- what the attempts alone say -----

  /** The context ends after this attempt, or in the wait that follows it. */
  predicate Ends(a: Attempt) {
    a.endedAfter || (a.failed && a.endedInWait)
  }

  predicate Ended(attempts: seq<Attempt>) {
    exists n :: 0 <= n < |attempts| && Ends(attempts[n])
  }

  /** The failures since the start or the last success. */
  function Streak(attempts: seq<Attempt>): nat {
    if attempts == [] || !attempts[|attempts| - 1].failed then 0 else Streak(attempts[..|attempts| - 1]) + 1
  }

  lemma EndedLast(attempts: seq<Attempt>, a: Attempt)
    ensures Ended(attempts + [a]) <==> Ended(attempts) || Ends(a)
  {
    var all := attempts + [a];
    if Ended(attempts) {
      var n :| 0 <= n < |attempts| && Ends(attempts[n]);
      assert Ends(all[n]);
    }
    if Ends(a) {
      assert Ends(all[|attempts|]);
    }
  }

  lemma StreakLast(attempts: seq<Attempt>, a: Attempt)
    ensures Streak(attempts + [a]) == if a.failed then Streak(attempts) + 1 else 0
  {
    assert (attempts + [a])[..|attempts|] == attempts;
  }

  /** The loop is over exactly when its context has ended, and until then counts the failures in a row. */
  lemma {:induction false} LoopFollowsAttempts(attempts: seq<Attempt>, minDelay: int, maxDelay: int)
    ensures var l := After(attempts, minDelay, maxDelay);
            (l.over <==> Ended(attempts)) && (!l.over ==> l.streak == Streak(attempts))
  {
    if attempts != [] {
      var front, a := attempts[..|attempts| - 1], attempts[|attempts| - 1];
      assert attempts == front + [a];
      LoopFollowsAttempts(front, minDelay, maxDelay);
      EndedLast(front, a);
      StreakLast(front, a);
    }
  }

  /** Once the context has ended, after an attempt or in a wait, no further wait is begun. */
  lemma NoWaitAfterEnd(attempts: seq<Attempt>, n: nat, minDelay: int, maxDelay: int)
    requires n < |attempts| && Ends(attempts[n])
    ensures After(attempts, minDelay, maxDelay).waits == After(attempts[..n + 1], minDelay, maxDelay).waits
  {
    assert Ends(attempts[..n + 1][n]);
    LoopFollowsAttempts(attempts[..n + 1], minDelay, maxDelay);
    OverForGood(attempts, minDelay, maxDelay, n + 1);
  }

  lemma {:induction false} OverForGood(attempts: seq<Attempt>, minDelay: int, maxDelay: int, n: nat)
    requires n <= |attempts| && After(attempts[..n], minDelay, maxDelay).over
    ensures After(attempts, minDelay, maxDelay) == After(attempts[..n], minDelay, maxDelay)
    decreases |attempts|
  {
    if n == |attempts| {
      assert attempts[..n] == attempts;
    } else {
      var k := |attempts| - 1;
      assert attempts[..k][..n] == attempts[..n];
      OverForGood(attempts[..k], minDelay, maxDelay, n);
    }
  }

  /** `runWithBackoff` for as long as `attempts` describes; returns the waits it began. */
  method RunWithBackoff(minDelay: int, maxDelay: int, attempts: seq<Attempt>) returns (waits: seq<int>)
    ensures waits == After(attempts, minDelay, maxDelay).waits
  {
    var delay := minDelay;
    ghost var streak: nat := 0;
    waits := [];
    var n := 0;
    while n < |attempts|
      invariant n <= |attempts|
      invariant After(attempts[..n], minDelay, maxDelay) == Loop(delay, streak, waits, false)
    {
      assert attempts[..n + 1][..n] == attempts[..n];
      var a := attempts[n];
      n := n + 1;
      if a.endedAfter {
        OverForGood(attempts, minDelay, maxDelay, n);
        return;
      }
      if !a.failed {
        delay := minDelay;
        streak := 0;
        continue;
      }
      waits := waits + [delay];
      if a.endedInWait {
        OverForGood(attempts, minDelay, maxDelay, n);
        return;
      }
      delay := Wrap64(delay * 2);
      if delay > maxDelay {
        delay := maxDelay;
      }
      streak := streak + 1;
    }
    assert attempts[..n] == attempts;
  }

  // ----- the closed form -----

  /** Below 2^62 the doubling does not wrap around. */
  lemma NextExact(d: int, maxDelay: int)
    requires 0 < d < TWO_62 && 0 < maxDelay < TWO_62
    ensures NextDelay(d, maxDelay) == Min(maxDelay, 2 * d)
    ensures 0 < NextDelay(d, maxDelay) < TWO_62
  {
    assert Wrap64(d * 2) == d * 2;
  }

  lemma ProductAtLeast(d: nat, p: nat)
    requires p >= 1
    ensures d * p >= d
  {
    assert d * p == d + d * (p - 1);
  }

  lemma Doubling(d: int, k: nat)
    ensures d * Pow2(k + 1) == 2 * (d * Pow2(k))
  {
    assert Pow2(k + 1) == 2 * Pow2(k);
  }

  lemma {:induction false} ClosedFormHolds(minDelay: int, maxDelay: int, k: nat)
    requires 0 < minDelay < TWO_62 && 0 < maxDelay < TWO_62
    ensures DelayAfter(minDelay, maxDelay, k) == ClosedForm(minDelay, maxDelay, k)
    ensures 0 < DelayAfter(minDelay, maxDelay, k) < TWO_62
  {
    if k > 0 {
      ClosedFormHolds(minDelay, maxDelay, k - 1);
      NextExact(DelayAfter(minDelay, maxDelay, k - 1), maxDelay);
      Doubling(minDelay, k - 1);
      assert Pow2(0) == 1;
    }
  }

  /** Some doubling of a positive delay reaches 2^62; take the first. */
  lemma FirstLarge(minDelay: int) returns (k: nat)
    requires 0 < minDelay
    ensures minDelay * Pow2(k) >= TWO_62
    ensures k > 0 ==> minDelay * Pow2(k - 1) < TWO_62
  {
    k := 0;
    var d := minDelay;
    while d < TWO_62
      invariant d == minDelay * Pow2(k) && d > 0
      invariant k > 0 ==> minDelay * Pow2(k - 1) < TWO_62
      decreases TWO_62 - d
    {
      Doubling(minDelay, k);
      d := 2 * d;
      k := k + 1;
    }
  }

  /** Once a delay of at least 2^62 is in force, the next one is negative: no wait at all. */
  lemma LargeDelayOverflows(delay: int, maxDelay: int)
    requires TWO_62 <= delay < TWO_63 && 0 <= maxDelay
    ensures NextDelay(delay, maxDelay) < 0
  {
    assert Wrap64(delay * 2) == delay * 2 - TWO_64;
  }

  /**
   * The durations for which the doubling never wraps to a wrong wait. A minimum of zero is always
   * in range; a negative cap only if doubling it wraps around to a positive value, which is then
   * cut back to the cap.
   */
  predicate InRange(minDelay: int, maxDelay: int) {
    && 0 <= minDelay
    && if 0 <= maxDelay then minDelay == 0 || (minDelay < TWO_62 && maxDelay < TWO_62)
       else maxDelay < -TWO_62 && Wrap64(minDelay * 2) >= maxDelay
  }

  predicate IsDuration(x: int) {
    -TWO_63 <= x < TWO_63
  }

  /** `ClosedForm` at zero and under a negative cap, where no product matters. */
  lemma ClosedFormFlat(minDelay: int, maxDelay: int, k: nat)
    requires 0 <= minDelay && (minDelay == 0 || maxDelay < 0)
    ensures ClosedForm(minDelay, maxDelay, k) == if k == 0 then minDelay else Min(maxDelay, 0)
  {
    assert minDelay * Pow2(k) >= 0;
  }

  lemma {:induction false} FlatHolds(minDelay: int, maxDelay: int, k: nat)
    requires IsDuration(minDelay) && IsDuration(maxDelay) && InRange(minDelay, maxDelay)
    requires minDelay == 0 || maxDelay < 0
    ensures DelayAfter(minDelay, maxDelay, k) == ClosedForm(minDelay, maxDelay, k)
  {
    ClosedFormFlat(minDelay, maxDelay, k);
    if k > 0 {
      FlatHolds(minDelay, maxDelay, k - 1);
      ClosedFormFlat(minDelay, maxDelay, k - 1);
    }
  }

  lemma RangeSuffices(minDelay: int, maxDelay: int, k: nat)
    requires IsDuration(minDelay) && IsDuration(maxDelay) && InRange(minDelay, maxDelay)
    ensures DelayAfter(minDelay, maxDelay, k) == ClosedForm(minDelay, maxDelay, k)
  {
    if minDelay == 0 || maxDelay < 0 {
      FlatHolds(minDelay, maxDelay, k);
    } else if maxDelay == 0 {
      NoCapHolds(minDelay, k);
    } else {
      ClosedFormHolds(minDelay, maxDelay, k);
    }
  }

  /** Under a cap of zero every wait but the first is zero. */
  lemma {:induction false} NoCapHolds(minDelay: int, k: nat)
    requires 0 < minDelay < TWO_62
    ensures DelayAfter(minDelay, 0, k) == ClosedForm(minDelay, 0, k) == if k == 0 then minDelay else 0
  {
    assert minDelay * Pow2(k) > 0;
    if k > 0 {
      NoCapHolds(minDelay, k - 1);
    }
  }

  /** Where the doubling goes wrong: at some `k` the delay in force is not the closed form. */
  lemma RangeNecessary(minDelay: int, maxDelay: int) returns (k: nat)
    requires IsDuration(minDelay) && IsDuration(maxDelay) && !InRange(minDelay, maxDelay)
    ensures DelayAfter(minDelay, maxDelay, k) != ClosedForm(minDelay, maxDelay, k)
  {
    if minDelay < 0 {
      k := NegativeFails(minDelay, maxDelay);
    } else if maxDelay < 0 {
      k := LowCapFails(minDelay, maxDelay);
    } else {
      k := LargeFails(minDelay, maxDelay);
    }
  }

  /** A positive minimum and a bound of at least 2^62: a wait becomes negative. */
  lemma LargeFails(minDelay: int, maxDelay: int) returns (k: nat)
    requires 0 < minDelay < TWO_63 && 0 <= maxDelay < TWO_63 && (minDelay >= TWO_62 || maxDelay >= TWO_62)
    ensures DelayAfter(minDelay, maxDelay, k) != ClosedForm(minDelay, maxDelay, k)
  {
    k := if minDelay >= TWO_62 then 0 else FirstLargeOf(minDelay);
    if DelayAfter(minDelay, maxDelay, k) == ClosedForm(minDelay, maxDelay, k) {
      LargeDelayOverflows(DelayAfter(minDelay, maxDelay, k), maxDelay);
      assert DelayAfter(minDelay, maxDelay, k + 1) < 0;
      ProductAtLeast(minDelay, Pow2(k + 1));
      k := k + 1;
    }
  }

  /** A negative cap that doubling does not wrap is not kept. */
  lemma LowCapFails(minDelay: int, maxDelay: int) returns (k: nat)
    requires 0 <= minDelay < TWO_63 && -TWO_63 <= maxDelay < 0 && !InRange(minDelay, maxDelay)
    ensures DelayAfter(minDelay, maxDelay, k) != ClosedForm(minDelay, maxDelay, k)
  {
    ClosedFormFlat(minDelay, maxDelay, 1);
    ClosedFormFlat(minDelay, maxDelay, 2);
    assert DelayAfter(minDelay, maxDelay, 0) == minDelay;
    assert DelayAfter(minDelay, maxDelay, 1) == NextDelay(minDelay, maxDelay);
    k := if DelayAfter(minDelay, maxDelay, 1) == maxDelay then 2 else 1;
  }

  lemma {:induction false} DelayIsDuration(minDelay: int, maxDelay: int, k: nat)
    requires IsDuration(minDelay) && IsDuration(maxDelay)
    ensures IsDuration(DelayAfter(minDelay, maxDelay, k))
  {
    if k > 0 {
      DelayIsDuration(minDelay, maxDelay, k - 1);
    }
  }

  /** Doublings of a negative minimum leave the 64-bit range. */
  lemma NegativeFails(minDelay: int, maxDelay: int) returns (k: nat)
    requires -TWO_63 <= minDelay < 0 && IsDuration(maxDelay)
    ensures DelayAfter(minDelay, maxDelay, k) != ClosedForm(minDelay, maxDelay, k)
  {
    k := FirstLarge(-minDelay);
    Doubling(-minDelay, k);
    Doubling(-minDelay, k + 1);
    k := k + 2;
    assert minDelay * Pow2(k) == -(-minDelay * Pow2(k));
    DelayIsDuration(minDelay, maxDelay, k);
  }

  /**
   * The exact range of the closed form among all 64-bit durations: the wait after the `k`-th
   * failure is `minDelay` doubled `k` times and capped, for every `k`, if and only if the bounds
   * are in range. For positive bounds that means below 2^62 ns: above it the doubling wraps around
   * and the wait turns negative.
   */
  lemma ClosedFormExact(minDelay: int, maxDelay: int)
    requires IsDuration(minDelay) && IsDuration(maxDelay)
    ensures (forall k: nat :: DelayAfter(minDelay, maxDelay, k) == ClosedForm(minDelay, maxDelay, k))
       <==> InRange(minDelay, maxDelay)
  {
    if InRange(minDelay, maxDelay) {
      forall k: nat
        ensures DelayAfter(minDelay, maxDelay, k) == ClosedForm(minDelay, maxDelay, k)
      {
        RangeSuffices(minDelay, maxDelay, k);
      }
    } else {
      var k := RangeNecessary(minDelay, maxDelay);
    }
  }

  ghost function FirstLargeOf(minDelay: int): (k: nat)
    requires 0 < minDelay < TWO_62
    ensures minDelay * Pow2(k) >= TWO_62 && k > 0
  {
    assert exists k: nat :: minDelay * Pow2(k) >= TWO_62 by {
      var k := FirstLarge(minDelay);
    }
    var k: nat :| minDelay * Pow2(k) >= TWO_62;
    k
  }

  /** The delay in force always is the one of the current streak of failures. */
  lemma {:induction false} DelayOfStreak(attempts: seq<Attempt>, minDelay: int, maxDelay: int)
    ensures var l := After(attempts, minDelay, maxDelay); l.delay == DelayAfter(minDelay, maxDelay, l.streak)
  {
    if attempts != [] {
      DelayOfStreak(attempts[..|attempts| - 1], minDelay, maxDelay);
    }
  }

  /**
   * Exactly which waits the loop begins, read off the attempts, for all bounds in range: one after
   * each failed attempt until the context ends, none if it ended with that attempt, and of the
   * closed form at the number of failures since the start or the last success.
   */
  lemma WaitsFollowStreak(attempts: seq<Attempt>, a: Attempt, minDelay: int, maxDelay: int)
    requires IsDuration(minDelay) && IsDuration(maxDelay) && InRange(minDelay, maxDelay)
    ensures After(attempts + [a], minDelay, maxDelay).waits
         == After(attempts, minDelay, maxDelay).waits
            + (if !Ended(attempts) && !a.endedAfter && a.failed
               then [ClosedForm(minDelay, maxDelay, Streak(attempts))] else [])
  {
    AfterLast(attempts, a, minDelay, maxDelay);
    LoopFollowsAttempts(attempts, minDelay, maxDelay);
    DelayOfStreak(attempts, minDelay, maxDelay);
    RangeSuffices(minDelay, maxDelay, After(attempts, minDelay, maxDelay).streak);
  }

  // ----- the relay's own cycle -----

  /** Whether each step of a session cycle succeeds. The loop that follows them ends when a read fails. */
  datatype Operations = Operations(login: bool, dial: bool, hello: bool)

  datatype Stage = Login | Dial | SendHello | ReadFrame
  datatype Outcome = Nil | Error(stage: Stage)

  /** `sessionCycle`: the first step that fails ends it, and otherwise the loop's read error does. */
  function SessionCycle(ops: Operations): (r: Outcome)
    ensures r.Error?
    ensures r.stage == Login <==> !ops.login
    ensures r.stage == Dial <==> ops.login && !ops.dial
    ensures r.stage == SendHello <==> ops.login && ops.dial && !ops.hello
    ensures r.stage == ReadFrame <==> ops == Operations(true, true, true)
  {
    if !ops.login then Error(Login)
    else if !ops.dial then Error(Dial)
    else if !ops.hello then Error(SendHello)
    else Error(ReadFrame)
  }

  /** One cycle of the relay, and whether its context ends after it or in the wait that follows. */
  datatype Cycle = Cycle(ops: Operations, endedAfter: bool, endedInWait: bool)

  function AttemptOf(c: Cycle): Attempt {
    Attempt(SessionCycle(c.ops).Error?, c.endedAfter, c.endedInWait)
  }

  function Attempts(cycles: seq<Cycle>): (attempts: seq<Attempt>)
    ensures |attempts| == |cycles|
  {
    seq(|cycles|, k requires 0 <= k < |cycles| => AttemptOf(cycles[k]))
  }

  lemma AttemptsLast(cycles: seq<Cycle>)
    requires cycles != []
    ensures Attempts(cycles) == Attempts(cycles[..|cycles| - 1]) + [AttemptOf(cycles[|cycles| - 1])]
  {
  }

  /** Every cycle of the relay fails. */
  lemma {:induction false} RelayStreak(cycles: seq<Cycle>)
    ensures Streak(Attempts(cycles)) == |cycles|
  {
    if cycles != [] {
      AttemptsLast(cycles);
      RelayStreak(cycles[..|cycles| - 1]);
      StreakLast(Attempts(cycles[..|cycles| - 1]), AttemptOf(cycles[|cycles| - 1]));
    }
  }

  /** The `k`-th wait is the closed form at `k`. */
  predicate Waited(waits: seq<int>, minDelay: int, maxDelay: int) {
    forall k :: 0 <= k < |waits| ==> waits[k] == ClosedForm(minDelay, maxDelay, k)
  }

  lemma WaitedAppend(waits: seq<int>, w: int, minDelay: int, maxDelay: int)
    requires Waited(waits, minDelay, maxDelay) && w == ClosedForm(minDelay, maxDelay, |waits|)
    ensures Waited(waits + [w], minDelay, maxDelay)
  {
  }

  lemma WaitedMore(attempts: seq<Attempt>, a: Attempt, minDelay: int, maxDelay: int)
    requires IsDuration(minDelay) && IsDuration(maxDelay) && InRange(minDelay, maxDelay)
    requires var waits := After(attempts, minDelay, maxDelay).waits;
             Waited(waits, minDelay, maxDelay) && (!Ended(attempts) ==> Streak(attempts) == |waits|)
    requires a.failed
    ensures var waits, waits' := After(attempts, minDelay, maxDelay).waits, After(attempts + [a], minDelay, maxDelay).waits;
            && Waited(waits', minDelay, maxDelay)
            && |waits'| == |waits| + (if Ended(attempts) || a.endedAfter then 0 else 1)
  {
    WaitsFollowStreak(attempts, a, minDelay, maxDelay);
    if !Ended(attempts) && !a.endedAfter {
      WaitedAppend(After(attempts, minDelay, maxDelay).waits, ClosedForm(minDelay, maxDelay, Streak(attempts)), minDelay, maxDelay);
    }
  }

  /**
   * The relay never resets its backoff: whatever its cycles meet and whenever its context ends,
   * the `k`-th wait it begins is the closed form at `k`, and a wait follows every cycle until then.
   */
  lemma {:induction false} RelayWaits(cycles: seq<Cycle>, minDelay: int, maxDelay: int)
    requires IsDuration(minDelay) && IsDuration(maxDelay) && InRange(minDelay, maxDelay)
    ensures Waited(After(Attempts(cycles), minDelay, maxDelay).waits, minDelay, maxDelay)
    ensures !Ended(Attempts(cycles)) ==> |After(Attempts(cycles), minDelay, maxDelay).waits| == |cycles|
  {
    if cycles != [] {
      var n := |cycles| - 1;
      var front, a := Attempts(cycles[..n]), AttemptOf(cycles[n]);
      RelayWaits(cycles[..n], minDelay, maxDelay);
      RelayStreak(cycles[..n]);
      AttemptsLast(cycles);
      WaitedMore(front, a, minDelay, maxDelay);
      EndedLast(front, a);
    }
  }

  /** With `minDelay <= maxDelay` the waits of a relay run never decrease and never exceed the cap. */
  lemma RelayWaitsMonotone(cycles: seq<Cycle>, minDelay: int, maxDelay: int, j: nat, k: nat)
    requires 0 <= minDelay <= maxDelay && IsDuration(maxDelay) && InRange(minDelay, maxDelay)
    requires j <= k < |After(Attempts(cycles), minDelay, maxDelay).waits|
    ensures var waits := After(Attempts(cycles), minDelay, maxDelay).waits; waits[j] <= waits[k] <= maxDelay
  {
    RelayWaits(cycles, minDelay, maxDelay);
    ClosedFormMonotone(minDelay, maxDelay, j, k);
  }

  lemma ClosedFormStep(minDelay: int, maxDelay: int, k: nat)
    requires 0 <= minDelay <= maxDelay
    ensures ClosedForm(minDelay, maxDelay, k) <= ClosedForm(minDelay, maxDelay, k + 1) <= maxDelay
  {
    ProductAtLeast(minDelay, Pow2(k));
    Doubling(minDelay, k);
  }

  lemma {:induction false} ClosedFormMonotone(minDelay: int, maxDelay: int, j: nat, k: nat)
    requires 0 <= minDelay <= maxDelay && j <= k
    ensures ClosedForm(minDelay, maxDelay, j) <= ClosedForm(minDelay, maxDelay, k) <= maxDelay
    decreases k - j
  {
    if j < k {
      ClosedFormMonotone(minDelay, maxDelay, j, k - 1);
      ClosedFormStep(minDelay, maxDelay, k - 1);
    }
  }
}
