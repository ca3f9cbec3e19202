/** The lockout of PIN attempts (crates/service/src/pin_auth.rs). Times are seconds of a clock that
    never goes back. */
module PinLockout {
  import opened Domain

  const FAILURES_PER_LOCKOUT: nat := 3
  const SCHEDULE: seq<nat> := [30, 60, 300]

  datatype Lockout = Lockout(failures: nat, level: nat, until: Option<nat>)

  const FRESH := Lockout(0, 0, None)

  datatype CheckResult = Allowed | Locked(remaining: nat)

  datatype FailureResult =
    | Refused(attemptsLeft: nat)
    | LockoutTriggered(seconds: nat)
    | StillLocked(remaining: nat)

  function Timeout(level: nat): nat {
    SCHEDULE[if level < |SCHEDULE| - 1 then level else |SCHEDULE| - 1]
  }

  predicate IsLocked(s: Lockout, now: nat) {
    s.until.Some? && now < s.until.value
  }

  function Fail(s: Lockout, now: nat): (Lockout, FailureResult) {
    if IsLocked(s, now) then (s, StillLocked(s.until.value - now))
    else if s.failures + 1 >= FAILURES_PER_LOCKOUT then
      (Lockout(0, if s.level < |SCHEDULE| - 1 then s.level + 1 else s.level, Some(now + Timeout(s.level))),
       LockoutTriggered(Timeout(s.level)))
    else
      (Lockout(s.failures + 1, s.level, None), Refused(FAILURES_PER_LOCKOUT - (s.failures + 1)))
  }

  class PinLockoutState {
    var consecutiveFailures: nat
    var lockoutLevel: nat
    var lockoutUntil: Option<nat>

    ghost function View(): Lockout
      reads this
    {
      Lockout(consecutiveFailures, lockoutLevel, lockoutUntil)
    }

    constructor ()
      ensures View() == FRESH
    {
      consecutiveFailures, lockoutLevel, lockoutUntil := 0, 0, None;
    }

    /** Locked exactly when a failure recorded at the same time would be refused as still locked. */
    method CheckAttempt(now: nat) returns (r: CheckResult)
      ensures r.Locked? <==> Fail(View(), now).1.StillLocked?
      ensures r.Locked? ==> Fail(View(), now) == (View(), StillLocked(r.remaining)) && r.remaining > 0
      ensures r.Locked? ==> lockoutUntil == Some(now + r.remaining)
    {
      if lockoutUntil.Some? && now < lockoutUntil.value {
        return Locked(lockoutUntil.value - now);
      }
      r := Allowed;
    }

    method RecordFailure(now: nat) returns (r: FailureResult)
      modifies this
      ensures (View(), r) == Fail(old(View()), now)
    {
      if lockoutUntil.Some? {
        if now < lockoutUntil.value { return StillLocked(lockoutUntil.value - now); }
        lockoutUntil := None;
      }
      consecutiveFailures := consecutiveFailures + 1;
      if consecutiveFailures >= FAILURES_PER_LOCKOUT {
        var timeout := Timeout(lockoutLevel);
        lockoutUntil := Some(now + timeout);
        consecutiveFailures := 0;
        if lockoutLevel < |SCHEDULE| - 1 { lockoutLevel := lockoutLevel + 1; }
        r := LockoutTriggered(timeout);
      } else {
        r := Refused(FAILURES_PER_LOCKOUT - consecutiveFailures);
      }
    }

    method RecordSuccess()
      modifies this
      ensures View() == FRESH
    {
      consecutiveFailures, lockoutLevel, lockoutUntil := 0, 0, None;
    }
  }

  // ---- runs without a success ------------------------------------------------------------------

  ghost predicate Nondecreasing(times: seq<nat>) {
    forall i, j :: 0 <= i <= j < |times| ==> times[i] <= times[j]
  }

  /** State after failures at these times, from a fresh state. */
  ghost function After(times: seq<nat>): Lockout {
    if times == [] then FRESH else Fail(After(times[..|times| - 1]), times[|times| - 1]).0
  }

  ghost function LastResult(times: seq<nat>): FailureResult
    requires times != []
  {
    Fail(After(times[..|times| - 1]), times[|times| - 1]).1
  }

  /** Failures that were counted, that is, not made during a lockout. */
  ghost function Accepted(times: seq<nat>): nat {
    if times == [] then 0
    else Accepted(times[..|times| - 1]) + (if LastResult(times).StillLocked? then 0 else 1)
  }

  /** The times at which a lockout was triggered. */
  ghost function Lockouts(times: seq<nat>): seq<nat> {
    if times == [] then []
    else
      var rest := Lockouts(times[..|times| - 1]);
      if LastResult(times).LockoutTriggered? then rest + [times[|times| - 1]] else rest
  }

  /** The least time between the first lockout and the k-th. */
  function Spacing(k: nat): nat
    requires k >= 1
  {
    if k == 1 then 0 else if k == 2 then 30 else 90 + 300 * (k - 3)
  }

  /** Every lockout comes after the one before has expired. */
  ghost predicate Spaced(ls: seq<nat>) {
    forall i :: 0 < i < |ls| ==> ls[i] >= ls[i - 1] + Timeout(i - 1)
  }

  ghost predicate RunInv(times: seq<nat>) {
    var s, ls := After(times), Lockouts(times);
    && s.failures < FAILURES_PER_LOCKOUT && Accepted(times) == FAILURES_PER_LOCKOUT * |ls| + s.failures
    && s.level == (if |ls| < 2 then |ls| else 2)
    && (s.until.Some? ==> ls != [] && s.until.value == ls[|ls| - 1] + Timeout(|ls| - 1))
    && (s.until.None? && ls != [] ==> times != [] && times[|times| - 1] >= ls[|ls| - 1] + Timeout(|ls| - 1))
    && Spaced(ls)
  }

  lemma {:induction false} RunKeeps(times: seq<nat>)
    requires Nondecreasing(times)
    ensures RunInv(times)
    decreases |times|
  {
    if times != [] {
      var front, now := times[..|times| - 1], times[|times| - 1];
      RunKeeps(front);
      assert front != [] ==> front[|front| - 1] <= now;
    }
  }

  lemma {:induction false} SpacedFar(ls: seq<nat>, k: nat)
    requires Spaced(ls) && 1 <= k <= |ls|
    ensures ls[k - 1] >= ls[0] + Spacing(k)
    decreases k
  {
    if k > 1 {
      SpacedFar(ls, k - 1);
      assert ls[k - 1] >= ls[k - 2] + Timeout(k - 2);
    }
  }

  /** In any run of failures without a success every third counted failure triggers a lockout, and no
      other does; the k-th lockout comes at least 0, 30, 90, 390, 690, ... seconds after the first. */
  lemma GuessingIsSlow(times: seq<nat>)
    requires Nondecreasing(times)
    ensures |Lockouts(times)| == Accepted(times) / FAILURES_PER_LOCKOUT
    ensures forall k :: 1 <= k <= |Lockouts(times)| ==> Lockouts(times)[k - 1] >= Lockouts(times)[0] + Spacing(k)
  {
    RunKeeps(times);
    forall k | 1 <= k <= |Lockouts(times)| ensures Lockouts(times)[k - 1] >= Lockouts(times)[0] + Spacing(k) {
      SpacedFar(Lockouts(times), k);
    }
  }

  /** A lockout lasts exactly as long as announced: any attempt during it is told the seconds that are left and
      changes nothing, and the first one after it is counted again. */
  lemma LockoutLasts(s: Lockout, t: nat, now: nat)
    requires Fail(s, t).1.LockoutTriggered? && now >= t
    ensures var (after, r) := Fail(s, t);
      if now < t + r.seconds then Fail(after, now) == (after, StillLocked(t + r.seconds - now))
      else Fail(after, now).1 == Refused(2)
  {
  }

  /** The attempts announced as left are those to the next lockout. */
  lemma AttemptsLeftExact(times: seq<nat>)
    requires Nondecreasing(times) && times != [] && LastResult(times).Refused?
    ensures 0 < LastResult(times).attemptsLeft < FAILURES_PER_LOCKOUT
    ensures (Accepted(times) + LastResult(times).attemptsLeft) % FAILURES_PER_LOCKOUT == 0
  {
    RunKeeps(times);
    RunKeeps(times[..|times| - 1]);
  }

  /** The bound is exact: guessing again as soon as each lockout ends reaches it. */
  ghost function FastestRun(k: nat): seq<nat> {
    if k == 0 then [] else FastestRun(k - 1) + [Spacing(k), Spacing(k), Spacing(k)]
  }

  lemma {:induction false} FastestIsTight(k: nat)
    requires k >= 1
    ensures Nondecreasing(FastestRun(k)) && FastestRun(k)[|FastestRun(k)| - 1] == Spacing(k)
    ensures |Lockouts(FastestRun(k))| == k && Lockouts(FastestRun(k))[0] == 0
    ensures Lockouts(FastestRun(k))[k - 1] == Lockouts(FastestRun(k))[0] + Spacing(k)
    ensures After(FastestRun(k)) == Lockout(0, if k < 2 then k else 2, Some(Spacing(k) + Timeout(k - 1)))
    decreases k
  {
    if k > 1 { FastestIsTight(k - 1); }
    ThreeMore(FastestRun(k - 1), Spacing(k));
  }

  lemma OneMore(times: seq<nat>, t: nat)
    ensures var (s, r) := Fail(After(times), t);
      && After(times + [t]) == s
      && Lockouts(times + [t]) == Lockouts(times) + (if r.LockoutTriggered? then [t] else [])
  {
    assert (times + [t])[..|times|] == times;
  }

  /** Three failures at one time, when no lockout is active and none has been counted. */
  lemma ThreeMore(times: seq<nat>, t: nat)
    requires After(times).failures == 0 && !IsLocked(After(times), t)
    ensures var level := After(times).level;
      && After(times + [t, t, t]) == Lockout(0, if level < 2 then level + 1 else level, Some(t + Timeout(level)))
      && Lockouts(times + [t, t, t]) == Lockouts(times) + [t]
  {
    hide After, Lockouts, Timeout;
    OneMore(times, t);
    OneMore(times + [t], t);
    OneMore(times + [t] + [t], t);
    assert times + [t] + [t] + [t] == times + [t, t, t];
  }
}
