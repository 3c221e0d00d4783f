/**
 * Account lockout: the `User` lock helpers, which are the same in both copies
 * of the application (app.py:59-74, and 178-198 of the later copy), and the
 * failed-attempt counter that the login handler keeps (app.py:253-318).
 */
module Accounts {
  import opened Wrappers
  import opened Config
  import opened Records

  /** `is_account_locked`: locked while now is strictly before `account_locked_until`. */
  predicate IsAccountLocked(p: Person, now: int) {
    p.accountLockedUntil.Some? && now < p.accountLockedUntil.value
  }

  /** `lock_account(minutes)`: the account stays locked until now + minutes. */
  function LockAccount(p: Person, now: int, minutes: int): (q: Person)
    ensures q.accountLockedUntil == Some(now + minutes)
    ensures q == p.(accountLockedUntil := q.accountLockedUntil)
  {
    p.(accountLockedUntil := Some(now + minutes))
  }

  /** `unlock_account`: clears the counter and the lock. */
  function UnlockAccount(p: Person): (q: Person)
    ensures q.failedLoginAttempts == 0 && q.accountLockedUntil.None?
    ensures q == p.(failedLoginAttempts := 0, accountLockedUntil := None)
  {
    p.(failedLoginAttempts := 0, accountLockedUntil := None)
  }

  /** What the login form answers. */
  datatype LoginOutcome =
    | MissingCredentials
    | UnknownEmail
    | AccountLocked
    | AccountInactive
    | LoggedIn(userId: int)
    | WrongPassword(remainingAttempts: int)
    | LockedOut

  /**
   * One password check against an existing account, after the empty-field,
   * unknown-email, lock and inactive checks have passed: the outcome and the
   * updated row. `passwordMatches` is the result of `check_password`.
   */
  function CheckPassword(p: Person, passwordMatches: bool, now: int): (LoginOutcome, Person) {
    if passwordMatches then
      (LoggedIn(p.id), p.(failedLoginAttempts := 0, lastLogin := Some(now)))
    else
      var counted := p.(failedLoginAttempts := p.failedLoginAttempts + 1);
      if counted.failedLoginAttempts >= LoginAttemptsLimit then
        (LockedOut, LockAccount(counted, now, AccountLockMinutes))
      else
        (WrongPassword(LoginAttemptsLimit - counted.failedLoginAttempts), counted)
  }

  /**
   * The whole login request against one matching row: the outcome and the row
   * afterwards. A refused request before the password check changes nothing.
   */
  function Attempt(p: Person, passwordMatches: bool, now: int): (LoginOutcome, Person) {
    if IsAccountLocked(p, now) then (AccountLocked, p)
    else if !p.isActive then (AccountInactive, p)
    else CheckPassword(p, passwordMatches, now)
  }

  /** A correct password on an open, active account logs in and resets the counter. */
  lemma CorrectPasswordResets(p: Person, now: int)
    requires !IsAccountLocked(p, now) && p.isActive
    ensures Attempt(p, true, now).0 == LoggedIn(p.id)
    ensures Attempt(p, true, now).1.failedLoginAttempts == 0
    ensures Attempt(p, true, now).1.lastLogin == Some(now)
  {
  }

  /**
   * A wrong password counts one more failure; reaching the limit locks the
   * account for exactly AccountLockMinutes, otherwise the lock is untouched
   * and the answer says how many attempts remain.
   */
  lemma WrongPasswordCounts(p: Person, now: int)
    requires !IsAccountLocked(p, now) && p.isActive
    ensures var (r, q) := Attempt(p, false, now);
      q.failedLoginAttempts == p.failedLoginAttempts + 1 &&
      (q.failedLoginAttempts >= LoginAttemptsLimit ==>
        r == LockedOut &&
        (forall t :: IsAccountLocked(q, t) <==> t < now + AccountLockMinutes)) &&
      (q.failedLoginAttempts < LoginAttemptsLimit ==>
        r == WrongPassword(LoginAttemptsLimit - q.failedLoginAttempts) && q.accountLockedUntil == p.accountLockedUntil)
  {
  }

  /** A locked or inactive account is refused and its row is left as it was. */
  lemma RefusedAttemptChangesNothing(p: Person, passwordMatches: bool, now: int)
    requires IsAccountLocked(p, now) || !p.isActive
    ensures Attempt(p, passwordMatches, now).1 == p
    ensures Attempt(p, passwordMatches, now).0 in {AccountLocked, AccountInactive}
  {
  }

  /**
   * Three wrong passwords in a row on a fresh, active account lock it: the
   * third attempt answers LockedOut and the account then stays locked for
   * thirty minutes.
   */
  lemma ThreeStrikes(p: Person, t1: int, t2: int, t3: int)
    requires p.failedLoginAttempts == 0 && p.accountLockedUntil.None? && p.isActive
    ensures var (r1, p1) := Attempt(p, false, t1);
      var (r2, p2) := Attempt(p1, false, t2);
      var (r3, p3) := Attempt(p2, false, t3);
      r1 == WrongPassword(2) && r2 == WrongPassword(1) && r3 == LockedOut &&
      IsAccountLocked(p3, t3 + AccountLockMinutes - 1) && !IsAccountLocked(p3, t3 + AccountLockMinutes)
  {
  }

  /**
   * After a lock expires the counter is not reset, so the next wrong password
   * locks the account again at once.
   */
  lemma RelockAfterExpiry(p: Person, now: int)
    requires p.failedLoginAttempts >= LoginAttemptsLimit && p.isActive && !IsAccountLocked(p, now)
    ensures Attempt(p, false, now).0 == LockedOut
  {
  }
}
