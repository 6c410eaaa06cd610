/**
 * The brute-force lockout policy of password sign-in
 * (src/controllers/auth/auth.service.ts, `signInCredentials`): the checks
 * made before the password is looked at, and the write made to the
 * `security` record after a wrong password.
 */
module Lockout {
  import opened Common
  import opened Entities
  import Text

  /** Length of a cool-down window: one hour in milliseconds. */
  const CooldownMs: int := 3600 * 1000

  const MinuteMs: int := 60 * 1000

  const UserBlocked := Failure(423, "User blocked")

  /** A cool-down window is open: `login_time` is set and less than an hour old. */
  predicate InCooldown(sec: Security, now: int)
  {
    sec.loginTime.Some? && now - sec.loginTime.value < CooldownMs
  }

  /**
   * `Math.round` of the time left in the window, in minutes: the result is
   * the whole number nearest to the remaining milliseconds over 60 000,
   * halves rounding up. It is never negative, and it is at most 60 unless
   * `login_time` lies in the future.
   */
  function RemainingMinutes(loginTime: int, now: int): (n: nat)
    requires now - loginTime < CooldownMs
    ensures MinuteMs * n - MinuteMs / 2 <= loginTime + CooldownMs - now < MinuteMs * n + MinuteMs / 2
    ensures loginTime <= now ==> n <= 60
  {
    (loginTime + CooldownMs - now + MinuteMs / 2) / MinuteMs
  }

  function CooldownFailure(minutes: nat): Failure
  {
    Failure(425, "Try again in " + Text.Decimal(minutes) + " minutes")
  }

  /**
   * The checks before the password: a blocked account fails with 423;
   * inside a cool-down window the attempt fails with 425 and the rounded
   * remaining minutes; otherwise the password is checked (None).
   */
  function Gate(sec: Security, now: int): (r: Option<Failure>)
    ensures sec.isBlock ==> r == Some(UserBlocked)
    ensures !sec.isBlock && InCooldown(sec, now) ==>
      r == Some(CooldownFailure(RemainingMinutes(sec.loginTime.value, now)))
    ensures r.None? <==> !sec.isBlock && !InCooldown(sec, now)
  {
    if sec.isBlock then Some(UserBlocked)
    else if InCooldown(sec, now) then Some(CooldownFailure(RemainingMinutes(sec.loginTime.value, now)))
    else None
  }

  /** JavaScript truthiness of the attempt counter: null and 0 are falsy. */
  predicate CounterSet(attempts: Option<int>)
  {
    attempts.Some? && attempts.value != 0
  }

  /**
   * The `security` record after a wrong password at `now` from device
   * `desc`. The tests read the counter BEFORE it is incremented: the
   * window opens when the old count is exactly 5 or 10, the block is set
   * when the old count exceeds 14.
   */
  function Failed(sec: Security, desc: string, now: int): (r: Security)
    ensures r.deviceTry == Some(desc)
    ensures r.loginAttempts == Some(if CounterSet(sec.loginAttempts) then sec.loginAttempts.value + 1 else 1)
    ensures sec.isBlock ==> r.isBlock
    ensures r.isBlock && !sec.isBlock ==> sec.loginAttempts.Some? && sec.loginAttempts.value >= 15
    ensures sec.loginAttempts == Some(5) || sec.loginAttempts == Some(10) ==> InCooldown(r, now)
    ensures r.loginTime != sec.loginTime ==> r.loginTime == Some(now)
    ensures r.loginTime != sec.loginTime ==> sec.loginAttempts == Some(5) || sec.loginAttempts == Some(10)
    ensures sec.loginAttempts.Some? && sec.loginAttempts.value > 14 ==> r.isBlock
  {
    Security(
      loginAttempts := Some(if CounterSet(sec.loginAttempts) then sec.loginAttempts.value + 1 else 1),
      loginTime := if sec.loginAttempts == Some(5) || sec.loginAttempts == Some(10) then Some(now) else sec.loginTime,
      isBlock := sec.isBlock || (sec.loginAttempts.Some? && sec.loginAttempts.value > 14),
      deviceTry := Some(desc))
  }

  /** The `security` record after consecutive wrong passwords at the times `ts`. */
  function FailAll(sec: Security, desc: string, ts: seq<int>): Security
  {
    if ts == [] then sec else Failed(FailAll(sec, desc, ts[..|ts| - 1]), desc, ts[|ts| - 1])
  }

  /**
   * From a cleared record, `k` consecutive failures leave the counter at
   * `k`; the window is opened by the 6th failure and again by the 11th;
   * the account is blocked from the 16th failure on.
   */
  lemma {:induction false} FailureSchedule(desc: string, ts: seq<int>)
    requires |ts| >= 1
    ensures var s := FailAll(ClearedSecurity, desc, ts);
      && s.loginAttempts == Some(|ts|)
      && s.deviceTry == Some(desc)
      && (s.isBlock <==> |ts| >= 16)
      && s.loginTime == (if |ts| <= 5 then None else if |ts| <= 10 then Some(ts[5]) else Some(ts[10]))
  {
    var k := |ts|;
    var prefix := ts[..k - 1];
    if k > 1 {
      FailureSchedule(desc, prefix);
      assert prefix[5 % (k - 1)] == ts[5 % (k - 1)];
      if k - 1 > 10 {
        assert prefix[10] == ts[10];
      }
    } else {
      assert prefix == [];
    }
  }

  /**
   * After five failures no window is open: a sixth attempt reaches the
   * password check, and the correct password is accepted.
   */
  lemma FiveFailuresOpenNoWindow(desc: string, ts: seq<int>, now: int)
    requires |ts| == 5
    ensures Gate(FailAll(ClearedSecurity, desc, ts), now) == None
  {
    FailureSchedule(desc, ts);
  }

  /**
   * Within the hour after the sixth failure every attempt, whatever the
   * password, fails with 425 and a remaining time between 0 and 60 minutes.
   */
  lemma SixthFailureOpensWindow(desc: string, ts: seq<int>, now: int)
    requires |ts| == 6 && ts[5] <= now < ts[5] + CooldownMs
    ensures var r := Gate(FailAll(ClearedSecurity, desc, ts), now);
      && r.Some? && r.value.status == 425
      && r.value == CooldownFailure(RemainingMinutes(ts[5], now))
      && RemainingMinutes(ts[5], now) <= 60
  {
    FailureSchedule(desc, ts);
  }

  /** The sixteenth consecutive failure blocks the account for good. */
  lemma SixteenFailuresBlock(desc: string, ts: seq<int>, later: seq<int>, now: int)
    requires |ts| == 16
    ensures Gate(FailAll(FailAll(ClearedSecurity, desc, ts), desc, later), now) == Some(UserBlocked)
  {
    FailureSchedule(desc, ts);
    BlockIsTerminal(FailAll(ClearedSecurity, desc, ts), desc, later);
  }

  /** No failure ever clears the block flag. */
  lemma {:induction false} BlockIsTerminal(sec: Security, desc: string, ts: seq<int>)
    requires sec.isBlock
    ensures FailAll(sec, desc, ts).isBlock
  {
    if ts != [] {
      BlockIsTerminal(sec, desc, ts[..|ts| - 1]);
    }
  }

  /** After a successful sign-in clears the record, counting starts again from 1. */
  lemma CountRestartsAfterSuccess(desc: string, now: int)
    ensures Failed(ClearedSecurity, desc, now).loginAttempts == Some(1)
    ensures !InCooldown(Failed(ClearedSecurity, desc, now), now)
  {
  }
}
