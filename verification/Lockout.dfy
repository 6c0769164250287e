/**
 The login lockout, shared by the endpoints that check a password.  Times are
 milliseconds; one attempt is one step.
 */
module Lockout {
  import opened Wrappers

  type Time = int

  const MINUTE := 60000

  datatype AuthType = LocalPassword | NoPassword | External | Pseudonym

  /** The columns `failed_login_attempts` and `locked_until`. */
  datatype Row = Row(attempts: nat, lockedUntil: Option<Time>)

  datatype Answer = NoSuchLogin | Locked(retryAfter: Time) | WrongPassword | Passed

  /** How long the lock set by the n-th failure lasts; the first four set none. */
  function LockMinutes(n: nat): nat {
    if n >= 20 then 120 else if n >= 15 then 30 else if n >= 10 then 5 else if n >= 5 then 1 else 0
  }

  function Fail(row: Row, now: Time): Row {
    var n := row.attempts + 1;
    Row(n, if n >= 5 then Some(now + LockMinutes(n) * MINUTE) else None)
  }

  predicate IsLocked(row: Row, now: Time) {
    row.lockedUntil.Some? && row.lockedUntil.value > now
  }

  // ── Attempts in sequence ──────────────────────────────────────────

  /** One password attempt at either endpoint. */
  datatype Attempt = Attempt(now: Time, correct: bool)

  /** The times of the failed checks since the last reset, alongside the row. */
  datatype History = History(row: Row, failures: seq<Time>)

  const FRESH := History(Row(0, None), [])

  function Try(h: History, a: Attempt): History {
    if IsLocked(h.row, a.now) then h
    else if a.correct then FRESH
    else History(Fail(h.row, a.now), h.failures + [a.now])
  }

  function Play(h: History, attempts: seq<Attempt>): History {
    if attempts == [] then h else Try(Play(h, attempts[..|attempts|-1]), attempts[|attempts|-1])
  }

  /** Minutes that must pass between the fifth failure and the n-th. */
  function Spent(n: nat): (minutes: nat)
    requires n >= 5
    ensures n <= 10 ==> minutes == n - 5
    ensures 10 <= n <= 15 ==> minutes == 5 + 5 * (n - 10)
    ensures 15 <= n <= 20 ==> minutes == 30 + 30 * (n - 15)
    ensures n >= 20 ==> minutes == 180 + 120 * (n - 20)
  {
    if n == 5 then 0 else Spent(n - 1) + LockMinutes(n - 1)
  }

  /** The lock is the last failure's, and every failure waited out the one before. */
  ghost predicate Paced(h: History) {
    && h.row.attempts == |h.failures|
    && h.row.lockedUntil == (if |h.failures| >= 5
         then Some(h.failures[|h.failures|-1] + LockMinutes(|h.failures|) * MINUTE) else None)
    && (forall n | 5 <= n <= |h.failures| :: h.failures[n - 1] >= h.failures[4] + Spent(n) * MINUTE)
  }

  lemma TryKeepsPace(h: History, a: Attempt)
    requires Paced(h)
    ensures Paced(Try(h, a))
  {
    var next := Try(h, a);
    if next.failures == h.failures + [a.now] {
      forall n | 5 <= n <= |next.failures| ensures next.failures[n - 1] >= next.failures[4] + Spent(n) * MINUTE {
        if n == |next.failures| && n > 5 {
          assert a.now >= h.failures[n - 2] + LockMinutes(n - 1) * MINUTE;
          assert h.failures[n - 2] >= h.failures[4] + Spent(n - 1) * MINUTE;
        }
      }
    }
  }

  lemma {:induction false} AttemptsArePaced(attempts: seq<Attempt>)
    ensures Paced(Play(FRESH, attempts))
    decreases |attempts|
  {
    if attempts != [] {
      AttemptsArePaced(attempts[..|attempts|-1]);
      TryKeepsPace(Play(FRESH, attempts[..|attempts|-1]), attempts[|attempts|-1]);
    }
  }

  /**
   Without a correct password or a reset, whatever mix of endpoints is tried: from the
   twentieth on, the n-th failed check comes at least 180 + 120 * (n - 20) minutes
   after the fifth.
   */
  lemma LateFailuresAreSlow(attempts: seq<Attempt>, n: nat)
    requires 20 <= n <= |Play(FRESH, attempts).failures|
    ensures var f := Play(FRESH, attempts).failures; f[n - 1] >= f[4] + (180 + 120 * (n - 20)) * MINUTE
  {
    AttemptsArePaced(attempts);
    assert Spent(n) == 180 + 120 * (n - 20);
  }

  // ── When an account is locked ─────────────────────────────────────

  /** After this many failures the last one locks for so many minutes. */
  ghost predicate LocksFor(failures: nat, minutes: nat) {
    || (failures >= 20 && minutes == 120) || (15 <= failures < 20 && minutes == 30)
    || (10 <= failures < 15 && minutes == 5) || (5 <= failures < 10 && minutes == 1)
  }

  /** An account is locked exactly while its last failure's lock runs, from the fifth failure on. */
  lemma LockedExactly(attempts: seq<Attempt>, now: Time)
    ensures var h := Play(FRESH, attempts);
      IsLocked(h.row, now) <==>
        |h.failures| >= 5 && forall minutes: nat | LocksFor(|h.failures|, minutes) :: now < h.failures[|h.failures| - 1] + minutes * 60000
  {
    AttemptsArePaced(attempts);
    var n := |Play(FRESH, attempts).failures|;
    if n >= 5 { assert LocksFor(n, LockMinutes(n)); }
  }

  /** An attempt while locked does nothing; a correct one clears the failures, and a wrong one adds one. */
  lemma AttemptExactly(attempts: seq<Attempt>, a: Attempt)
    ensures var (before, after) := (Play(FRESH, attempts), Play(FRESH, attempts + [a]));
      if IsLocked(before.row, a.now) then after == before
      else if a.correct then after.failures == [] && forall now :: !IsLocked(after.row, now)
      else after.failures == before.failures + [a.now]
  {
    hide LockMinutes;
    PlaySnoc(FRESH, attempts, a);
  }

  // ── The bound is attained ─────────────────────────────────────────

  /** The moment a persistent guesser makes the n-th attempt: as soon as the lock allows. */
  function Earliest(n: nat): Time
    requires n >= 1
  {
    if n < 5 then 0 else Spent(n) * MINUTE
  }

  function Persistent(n: nat): (attempts: seq<Attempt>)
    ensures |attempts| == n
  {
    if n == 0 then [] else Persistent(n - 1) + [Attempt(Earliest(n), false)]
  }

  lemma PlaySnoc(h: History, attempts: seq<Attempt>, a: Attempt)
    ensures Play(h, attempts + [a]) == Try(Play(h, attempts), a)
  {
    hide Try;
    assert (attempts + [a])[..|attempts|] == attempts;
  }

  ghost predicate OnSchedule(h: History, n: nat) {
    && |h.failures| == n
    && (n >= 1 ==> h.failures[n - 1] == Earliest(n))
    && (n >= 5 ==> h.failures[4] == 0)
  }

  lemma NextOnSchedule(h: History, n: nat)
    requires Paced(h) && OnSchedule(h, n)
    ensures OnSchedule(Try(h, Attempt(Earliest(n + 1), false)), n + 1)
  {
    if n >= 5 {
      assert Earliest(n + 1) == Earliest(n) + LockMinutes(n) * MINUTE;
    }
  }

  /** No attempt of the persistent guesser is refused, so no better bound holds. */
  lemma {:induction false} BoundIsTight(n: nat)
    ensures OnSchedule(Play(FRESH, Persistent(n)), n)
    decreases n
  {
    hide OnSchedule;
    hide Paced;
    hide Try;
    hide Play;
    hide Earliest;
    if n == 0 {
      NothingOnSchedule();
    } else {
      BoundIsTight(n - 1);
      AttemptsArePaced(Persistent(n - 1));
      PlaySnoc(FRESH, Persistent(n - 1), Attempt(Earliest(n), false));
      NextOnSchedule(Play(FRESH, Persistent(n - 1)), n - 1);
    }
  }

  lemma NothingOnSchedule()
    ensures OnSchedule(Play(FRESH, Persistent(0)), 0)
  {
  }

  // ── The endpoints ─────────────────────────────────────────────────

  class Account {
    const authType: AuthType
    var failedLoginAttempts: nat
    var lockedUntil: Option<Time>
    ghost var failures: seq<Time>

    ghost function Current(): History reads this {
      History(Row(failedLoginAttempts, lockedUntil), failures)
    }

    constructor (kind: AuthType)
      ensures authType == kind && Current() == FRESH && Paced(Current())
    {
      authType, failedLoginAttempts, lockedUntil, failures := kind, 0, None, [];
    }

    /** The UPDATE both endpoints run on a wrong password. */
    method RecordFailure(now: Time)
      modifies this`failedLoginAttempts, this`lockedUntil, this`failures
      ensures Current() == History(Fail(old(Current()).row, now), old(failures) + [now])
    {
      var n := failedLoginAttempts + 1;
      lockedUntil :=
        if n >= 20 then Some(now + 120 * MINUTE)
        else if n >= 15 then Some(now + 30 * MINUTE)
        else if n >= 10 then Some(now + 5 * MINUTE)
        else if n >= 5 then Some(now + MINUTE)
        else None;
      failedLoginAttempts := n;
      failures := failures + [now];
    }

    /** A reset leaves the row alone when there is nothing to reset. */
    method Reset()
      requires Paced(Current())
      modifies this`failedLoginAttempts, this`lockedUntil, this`failures
      ensures Current() == FRESH
    {
      if failedLoginAttempts > 0 { failedLoginAttempts, lockedUntil := 0, None; }
      failures := [];
    }

    /** `createSession`: locked accounts are refused before the password is looked at. */
    method CreateSession(now: Time, correct: bool) returns (answer: Answer)
      requires Paced(Current())
      modifies this`failedLoginAttempts, this`lockedUntil, this`failures
      ensures Paced(Current())
      ensures authType == LocalPassword ==> Current() == Try(old(Current()), Attempt(now, correct))
      ensures authType != LocalPassword ==> Current() == old(Current()) && answer != Passed && answer != WrongPassword
      ensures authType != Pseudonym ==> (answer.Locked? <==> IsLocked(old(Current()).row, now))
      ensures answer == Passed <==> authType == LocalPassword && correct && !IsLocked(old(Current()).row, now)
      ensures answer.Locked? ==> old(lockedUntil).Some? && answer.retryAfter == (old(lockedUntil).value - now + 999) / 1000
    {
      TryKeepsPace(Current(), Attempt(now, correct));
      if authType == Pseudonym { return NoSuchLogin; }
      if lockedUntil.Some? && lockedUntil.value > now { return Locked((lockedUntil.value - now + 999) / 1000); }
      if authType == External || authType == NoPassword { return NoSuchLogin; }
      if !correct {
        RecordFailure(now);
        return WrongPassword;
      }
      Reset();
      return Passed;
    }

    /** `retrieveForUpgrade`: the same counter, with the account type checked first. */
    method RetrieveForUpgrade(now: Time, correct: bool) returns (answer: Answer)
      requires Paced(Current())
      modifies this`failedLoginAttempts, this`lockedUntil, this`failures
      ensures Paced(Current())
      ensures authType == LocalPassword ==> Current() == Try(old(Current()), Attempt(now, correct))
      ensures authType != LocalPassword ==> Current() == old(Current()) && answer == NoSuchLogin
      ensures authType == LocalPassword ==> (answer.Locked? <==> IsLocked(old(Current()).row, now))
      ensures answer == Passed <==> authType == LocalPassword && correct && !IsLocked(old(Current()).row, now)
    {
      TryKeepsPace(Current(), Attempt(now, correct));
      if authType != LocalPassword { return NoSuchLogin; }
      if lockedUntil.Some? && lockedUntil.value > now { return Locked((lockedUntil.value - now + 999) / 1000); }
      if !correct {
        RecordFailure(now);
        return WrongPassword;
      }
      Reset();
      return Passed;
    }
  }
}
