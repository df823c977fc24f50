/** Progressive lockout: how often wrong passwords can be compared against one user's hash. */
module Lockout {
  import opened Wrappers

  const MAX_FAILED_LOGIN_ATTEMPTS := 5
  const LOCKOUT_DURATION_MS := 15 * 60 * 1000

  datatype UserStatus = PENDING_VERIFICATION | ACTIVE | SUSPENDED | LOCKED | DEACTIVATED

  datatype Login = Login(status: UserStatus, failedLoginAttempts: nat, lockedUntil: Option<nat>)

  datatype LoginError = AccountLocked(until: nat) | UserNotActive | InvalidCredentials

  predicate StillLocked(u: Login, now: nat)
  {
    u.status == LOCKED && u.lockedUntil.Some? && u.lockedUntil.value > now
  }

  /** What `assertCanAttemptLogin` leaves in memory, or throws. */
  function Admitted(u: Login, now: nat): Result<Login, LoginError>
  {
    if StillLocked(u, now) then Failure(AccountLocked(u.lockedUntil.value))
    else if u.status == LOCKED then Success(Login(ACTIVE, 0, None))
    else if u.status == ACTIVE || u.status == PENDING_VERIFICATION then Success(u)
    else Failure(UserNotActive)
  }

  function Failed(u: Login, now: nat): Login
  {
    var attempts := u.failedLoginAttempts + 1;
    if attempts >= MAX_FAILED_LOGIN_ATTEMPTS
    then Login(LOCKED, attempts, Some(now + LOCKOUT_DURATION_MS))
    else u.(failedLoginAttempts := attempts)
  }

  function Succeeded(u: Login): Login
  {
    Login(if u.status == LOCKED then ACTIVE else u.status, 0, None)
  }

  /** One login with a wrong password: when the user is checked, the hash compared, the failure recorded. */
  datatype Attempt = Attempt(checked: nat, compared: nat, recorded: nat)

  /** Each login ends before the next begins. */
  predicate OneAtATime(attempts: seq<Attempt>)
  {
    (forall i :: 0 <= i < |attempts| ==>
      attempts[i].checked <= attempts[i].compared <= attempts[i].recorded) &&
    (forall i, j :: 0 <= i < j < |attempts| ==> attempts[i].recorded <= attempts[j].checked)
  }

  /** The stored user after one login with a wrong password. */
  function After(u: Login, a: Attempt): Login
  {
    if Admitted(u, a.checked).Success? then Failed(Admitted(u, a.checked).value, a.recorded) else u
  }

  /** The number of hash comparisons made at times within `[from, to]`. */
  function Comparisons(u: Login, attempts: seq<Attempt>, from: nat, to: nat): nat
    decreases |attempts|
  {
    if attempts == [] then 0
    else
      (if Admitted(u, attempts[0].checked).Success? && from <= attempts[0].compared <= to then 1 else 0) +
      Comparisons(After(u, attempts[0]), attempts[1..], from, to)
  }

  /** Every stored user is like this: unlocked users have failures to spare. */
  predicate Consistent(u: Login)
  {
    u.status != LOCKED ==> u.failedLoginAttempts < MAX_FAILED_LOGIN_ATTEMPTS
  }

  lemma ConsistentAlways(u: Login, now: nat, later: nat)
    requires Consistent(u)
    ensures Admitted(u, now).Success? ==>
      Consistent(Admitted(u, now).value) &&
      Consistent(Failed(Admitted(u, now).value, later)) &&
      Consistent(Succeeded(Admitted(u, now).value))
  {
  }

  /** The stored user after several logins with a wrong password. */
  function AfterAll(u: Login, attempts: seq<Attempt>): Login
  {
    if attempts == [] then u else After(AfterAll(u, attempts[..|attempts| - 1]), attempts[|attempts| - 1])
  }

  /** After a right password the count starts again: four wrong ones in a row never lock the user, the
      fifth always does, and for fifteen minutes. */
  lemma {:induction false} FifthFailureLocks(u: Login, at: nat, attempts: seq<Attempt>)
    requires Admitted(u, at).Success? && |attempts| <= 5
    ensures var after := AfterAll(Succeeded(Admitted(u, at).value), attempts);
            (after.status == LOCKED <==> |attempts| == 5)
            && (|attempts| == 5 ==> after.lockedUntil == Some(attempts[4].recorded + 900000))
            && (|attempts| < 5 ==> forall now :: Admitted(after, now) == Success(after))
            && after.failedLoginAttempts == |attempts|
  {
    if attempts != [] { FifthFailureLocks(u, at, attempts[..|attempts| - 1]); }
  }

  /** Users who are suspended or deactivated are never compared, and trying changes nothing. */
  lemma {:induction false} BarredNeverCompares(u: Login, attempts: seq<Attempt>, from: nat, to: nat)
    requires u.status == SUSPENDED || u.status == DEACTIVATED
    ensures Comparisons(u, attempts, from, to) == 0 && AfterAll(u, attempts) == u
    decreases |attempts|
  {
    if attempts != [] {
      BarredNeverCompares(u, attempts[1..], from, to);
      BarredNeverCompares(u, attempts[..|attempts| - 1], from, to);
    }
  }

  // ---- the bound

  /** Comparisons left until `to` for a user who can be compared from `from` on, `spent` failures into a round. */
  function Allowance(spent: nat, from: nat, to: nat): int
  {
    if from > to then 0
    else MAX_FAILED_LOGIN_ATTEMPTS - spent + MAX_FAILED_LOGIN_ATTEMPTS * ((to - from) / LOCKOUT_DURATION_MS)
  }

  function Budget(u: Login, from: nat, to: nat): int
  {
    if u.status != LOCKED then Allowance(u.failedLoginAttempts, from, to)
    else if u.lockedUntil.Some? && u.lockedUntil.value > from then Allowance(0, u.lockedUntil.value, to)
    else Allowance(0, from, to)
  }

  lemma DivisionGrows(a: nat, b: nat)
    requires a <= b
    ensures a / LOCKOUT_DURATION_MS <= b / LOCKOUT_DURATION_MS
    ensures (a + LOCKOUT_DURATION_MS) / LOCKOUT_DURATION_MS == a / LOCKOUT_DURATION_MS + 1
  {
  }

  lemma AllowanceShrinks(spent: nat, from: nat, later: nat, to: nat)
    requires from <= later && spent <= MAX_FAILED_LOGIN_ATTEMPTS
    ensures 0 <= Allowance(spent, later, to) <= Allowance(spent, from, to)
  {
    if later <= to { DivisionGrows(to - later, to - from); }
  }

  /** A whole lockout costs a whole round. */
  lemma AllowanceAfterLock(from: nat, locked: nat, to: nat)
    requires from <= to && from + LOCKOUT_DURATION_MS <= locked
    ensures Allowance(0, locked, to) + 1 <= Allowance(MAX_FAILED_LOGIN_ATTEMPTS - 1, from, to)
  {
    if locked <= to {
      DivisionGrows(to - locked, to - from - LOCKOUT_DURATION_MS);
      DivisionGrows(to - from - LOCKOUT_DURATION_MS, to - from - LOCKOUT_DURATION_MS);
    }
  }

  /** One login spends at least what it compares. */
  lemma SpendOne(u: Login, a: Attempt, from: nat, to: nat)
    requires Consistent(u) && a.checked <= a.compared <= a.recorded && from <= a.compared
    ensures Consistent(After(u, a))
    ensures (if Admitted(u, a.checked).Success? && a.compared <= to then 1 else 0) + Budget(After(u, a), a.compared, to)
         <= Budget(u, from, to)
  {
    var c := a.compared;
    if Admitted(u, a.checked).Failure? {
      if u.status != LOCKED {
        AllowanceShrinks(u.failedLoginAttempts, from, c, to);
      } else {
        AllowanceShrinks(0, from, c, to);
        AllowanceShrinks(0, u.lockedUntil.value, if c > u.lockedUntil.value then c else u.lockedUntil.value, to);
      }
    } else {
      var inside := Admitted(u, a.checked).value;
      assert Budget(u, from, to) >= Allowance(inside.failedLoginAttempts, c, to) by {
        AllowanceShrinks(inside.failedLoginAttempts, from, c, to);
        if u.status == LOCKED && u.lockedUntil.Some? {
          AllowanceShrinks(0, u.lockedUntil.value, c, to);
        }
      }
      if inside.failedLoginAttempts == MAX_FAILED_LOGIN_ATTEMPTS - 1 && c <= to {
        AllowanceAfterLock(c, a.recorded + LOCKOUT_DURATION_MS, to);
      }
    }
  }

  lemma {:induction false} WithinBudget(u: Login, attempts: seq<Attempt>, from: nat, to: nat)
    requires Consistent(u) && OneAtATime(attempts)
    requires attempts != [] ==> from <= attempts[0].compared
    ensures Comparisons(u, attempts, from, to) <= Budget(u, from, to)
    decreases |attempts|
  {
    if attempts == [] {
      if u.status == LOCKED && u.lockedUntil.Some? { AllowanceShrinks(0, u.lockedUntil.value, u.lockedUntil.value,
          to); }
      AllowanceShrinks(if u.status == LOCKED then 0 else u.failedLoginAttempts, from, from, to);
    } else {
      var a, rest := attempts[0], attempts[1..];
      SpendOne(u, a, from, to);
      Rest(attempts);
      WithinBudget(After(u, a), rest, a.compared, to);
      Narrow(After(u, a), rest, from, a.compared, to);
    }
  }

  lemma Rest(attempts: seq<Attempt>)
    requires attempts != [] && OneAtATime(attempts)
    ensures OneAtATime(attempts[1..])
    ensures attempts[1..] != [] ==> attempts[0].compared <= attempts[1..][0].compared
  {
    if |attempts| > 1 { assert attempts[0].recorded <= attempts[1].checked; }
  }

  /** Where nothing is compared before `later`, counting from `from` or from `later` is the same. */
  lemma {:induction false} Narrow(u: Login, attempts: seq<Attempt>, from: nat, later: nat, to: nat)
    requires OneAtATime(attempts) && from <= later
    requires attempts != [] ==> later <= attempts[0].compared
    ensures Comparisons(u, attempts, from, to) == Comparisons(u, attempts, later, to)
    decreases |attempts|
  {
    if attempts != [] {
      Rest(attempts);
      Narrow(After(u, attempts[0]), attempts[1..], from, later, to);
    }
  }

  /** In any run of wrong-password logins, one at a time, a window of `T` ms sees at most five
      comparisons, and five more for each whole lockout that fits in it. */
  lemma {:induction false} RateBound(u: Login, attempts: seq<Attempt>, from: nat, T: nat)
    requires Consistent(u) && OneAtATime(attempts)
    ensures Comparisons(u, attempts, from, from + T)
         <= 5 * (T / 900000 + 1)
    decreases |attempts|
  {
    if attempts == [] {
    } else if attempts[0].compared < from {
      Rest(attempts);
      ConsistentAlways(u, attempts[0].checked, attempts[0].recorded);
      RateBound(After(u, attempts[0]), attempts[1..], from, T);
    } else {
      WithinBudget(u, attempts, from, from + T);
      assert Allowance(0, from, from + T) == MAX_FAILED_LOGIN_ATTEMPTS * (T / LOCKOUT_DURATION_MS + 1);
      if u.status == LOCKED && u.lockedUntil.Some? && u.lockedUntil.value > from {
        AllowanceShrinks(0, from, u.lockedUntil.value, from + T);
      }
    }
  }

  // ---- the bound is reached

  function Burst(at: nat): seq<Attempt>
  {
    var a := Attempt(at, at, at);
    [a, a, a, a, a]
  }

  /** `n + 1` bursts of five, one lockout apart. */
  function Bursts(at: nat, n: nat): seq<Attempt>
    decreases n
  {
    Burst(at) + if n == 0 then [] else Bursts(at + LOCKOUT_DURATION_MS, n - 1)
  }

  lemma BurstComparesFive(u: Login, at: nat, rest: seq<Attempt>, from: nat, to: nat)
    requires Admitted(u, at).Success? && Admitted(u, at).value.failedLoginAttempts == 0
    requires Admitted(u, at).value.status == ACTIVE && from <= at <= to
    ensures Comparisons(u, Burst(at) + rest, from, to)
         == 5 + Comparisons(Login(LOCKED, 5, Some(at + LOCKOUT_DURATION_MS)), rest, from, to)
  {
    var a := Attempt(at, at, at);
    var inside := Admitted(u, at).value;
    CompareOne(u, a, [a, a, a, a] + rest, from, to);
    CompareOne(Login(ACTIVE, 1, inside.lockedUntil), a, [a, a, a] + rest, from, to);
    CompareOne(Login(ACTIVE, 2, inside.lockedUntil), a, [a, a] + rest, from, to);
    CompareOne(Login(ACTIVE, 3, inside.lockedUntil), a, [a] + rest, from, to);
    CompareOne(Login(ACTIVE, 4, inside.lockedUntil), a, rest, from, to);
    assert Burst(at) + rest == [a] + ([a, a, a, a] + rest);
    assert [a, a, a, a] + rest == [a] + ([a, a, a] + rest);
    assert [a, a, a] + rest == [a] + ([a, a] + rest);
    assert [a, a] + rest == [a] + ([a] + rest);
  }

  lemma CompareOne(u: Login, a: Attempt, rest: seq<Attempt>, from: nat, to: nat)
    requires Admitted(u, a.checked).Success? && from <= a.compared <= to
    ensures Comparisons(u, [a] + rest, from, to) == 1 + Comparisons(After(u, a), rest, from, to)
  {
    assert ([a] + rest)[1..] == rest;
  }

  lemma {:induction false} BurstsCompareAll(u: Login, at: nat, n: nat, from: nat, to: nat)
    requires Admitted(u, at).Success? && Admitted(u, at).value.failedLoginAttempts == 0
    requires Admitted(u, at).value.status == ACTIVE
    requires from <= at && at + n * LOCKOUT_DURATION_MS <= to
    ensures Comparisons(u, Bursts(at, n), from, to) == 5 * (n + 1)
    decreases n
  {
    if n == 0 {
      assert Bursts(at, n) == Burst(at) + [];
      BurstComparesFive(u, at, [], from, to);
    } else {
      var rest := Bursts(at + LOCKOUT_DURATION_MS, n - 1);
      BurstComparesFive(u, at, rest, from, to);
      BurstsCompareAll(Login(LOCKED, 5, Some(at + LOCKOUT_DURATION_MS)), at + LOCKOUT_DURATION_MS, n - 1, from, to);
    }
  }

  lemma {:induction false} BurstsAreInOrder(at: nat, n: nat)
    ensures OneAtATime(Bursts(at, n))
    ensures forall i :: 0 <= i < |Bursts(at, n)| ==> at <= Bursts(at, n)[i].checked
    decreases n
  {
    if n > 0 { BurstsAreInOrder(at + LOCKOUT_DURATION_MS, n - 1); }
  }

  /** For every window length some run reaches the bound, so no smaller one holds. */
  lemma RateBoundIsReached(T: nat)
    ensures exists attempts ::
      OneAtATime(attempts) &&
      Comparisons(Login(ACTIVE, 0, None), attempts, 0, T)
        == 5 * (T / 900000 + 1)
  {
    var n := T / LOCKOUT_DURATION_MS;
    BurstsAreInOrder(0, n);
    BurstsCompareAll(Login(ACTIVE, 0, None), 0, n, 0, T);
  }
}

/** The user aggregate and the login handler, as they update it. */
module LockoutEntity {
  import opened Wrappers
  import opened Lockout

  class User {
    var status: UserStatus
    var failedLoginAttempts: nat
    var lockedUntil: Option<nat>

    function Props(): Login
      reads this
    {
      Login(status, failedLoginAttempts, lockedUntil)
    }

    constructor Reconstitute(props: Login)
      ensures Props() == props
    {
      status, failedLoginAttempts, lockedUntil := props.status, props.failedLoginAttempts, props.lockedUntil;
    }

    method AssertCanAttemptLogin(now: nat) returns (thrown: Outcome<LoginError>)
      modifies this
      ensures match Admitted(old(Props()), now)
              case Success(u) => thrown == Pass && Props() == u
              case Failure(e) => thrown == Fail(e) && Props() == old(Props())
    {
      if status == LOCKED {
        if lockedUntil.Some? && lockedUntil.value > now { return Fail(AccountLocked(lockedUntil.value)); }
        status, failedLoginAttempts, lockedUntil := ACTIVE, 0, None;
        return Pass;
      }
      if status != ACTIVE && status != PENDING_VERIFICATION { return Fail(UserNotActive); }
      thrown := Pass;
    }

    method RecordSuccessfulLogin()
      modifies this
      ensures Props() == Succeeded(old(Props()))
    {
      failedLoginAttempts, lockedUntil := 0, None;
      if status == LOCKED { status := ACTIVE; }
    }

    method RecordFailedLogin(now: nat)
      modifies this
      ensures Props() == Failed(old(Props()), now)
    {
      failedLoginAttempts := failedLoginAttempts + 1;
      if failedLoginAttempts >= MAX_FAILED_LOGIN_ATTEMPTS {
        status := LOCKED;
        lockedUntil := Some(now + LOCKOUT_DURATION_MS);
      }
    }
  }

  /** The stored row of one user, and the handler's part that decides and records a login. */
  class Logins {
    var stored: Login

    constructor (stored: Login)
      ensures this.stored == stored
    {
      this.stored := stored;
    }

    method Execute(a: Attempt, passwordMatches: bool) returns (thrown: Outcome<LoginError>, compared: bool)
      modifies this
      ensures compared <==> Admitted(old(stored), a.checked).Success?
      ensures compared <==>
                match old(stored).status
                case ACTIVE => true
                case PENDING_VERIFICATION => true
                case LOCKED => old(stored).lockedUntil.None? || old(stored).lockedUntil.value <= a.checked
                case SUSPENDED => false
                case DEACTIVATED => false
      ensures !passwordMatches ==> stored == After(old(stored), a)
      ensures passwordMatches ==>
        stored == if compared then Succeeded(Admitted(old(stored), a.checked).value) else old(stored)
      ensures thrown == if !compared then Fail(Admitted(old(stored), a.checked).error)
                        else if passwordMatches then Pass else Fail(InvalidCredentials)
    {
      var user := new User.Reconstitute(stored);
      thrown := user.AssertCanAttemptLogin(a.checked);
      if thrown.Fail? { return thrown, false; }
      if !passwordMatches {
        user.RecordFailedLogin(a.recorded);
        stored := user.Props();
        return Fail(InvalidCredentials), true;
      }
      user.RecordSuccessfulLogin();
      stored := user.Props();
      return Pass, true;
    }
  }
}
