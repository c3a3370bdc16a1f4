/** The account-protection part of the application user model
    (app/Models/User.php): the failed-login counter with its 30-minute
    lockout, the lock and MFA predicates, and the last-login stamp. */
module UserAccount {
  import opened Common
  import Text

  /** The user status enum; only ACTIVE and LOCKED are distinguished by the model. */
  datatype UserStatus = Active | Locked | OtherStatus(name: string)

  datatype UserRecord = UserRecord(
    status: UserStatus,
    isAdmin: bool,
    failedLoginAttempts: nat,
    lockedUntil: Option<Instant>,
    lastLoginAt: Option<Instant>,
    mfaEnabled: bool,
    mfaSecret: Option<string>)

  /** The number of failures at which the account is locked. */
  const MaxFailedAttempts: nat := 5

  /** The length of a temporary lockout: 30 minutes. */
  const LockoutSeconds: int := 30 * SecondsPerMinute

  predicate IsAdmin(u: UserRecord)
  {
    u.isAdmin
  }

  predicate IsActive(u: UserRecord)
  {
    u.status == Active
  }

  /** Locked permanently by status, or temporarily while `locked_until` lies
      strictly in the future. */
  predicate IsLocked(u: UserRecord, now: Instant)
  {
    if u.status == Locked then true
    else u.lockedUntil.Some? && u.lockedUntil.value > now
  }

  /** MFA is on when the flag is set and the secret is not `empty()`. */
  predicate HasMfaEnabled(u: UserRecord)
  {
    u.mfaEnabled && !Text.PhpEmpty(u.mfaSecret)
  }

  /** The record after `incrementFailedLoginAttempts` at `now`. */
  function AfterFailedLogin(u: UserRecord, now: Instant): (r: UserRecord)
    ensures r.failedLoginAttempts == u.failedLoginAttempts + 1
    ensures r.failedLoginAttempts >= MaxFailedAttempts ==> r.lockedUntil == Some(now + LockoutSeconds)
    ensures r.failedLoginAttempts < MaxFailedAttempts ==> r.lockedUntil == u.lockedUntil
    ensures r.(failedLoginAttempts := u.failedLoginAttempts, lockedUntil := u.lockedUntil) == u
  {
    var attempts := u.failedLoginAttempts + 1;
    u.(failedLoginAttempts := attempts,
       lockedUntil := if attempts >= MaxFailedAttempts then Some(now + LockoutSeconds) else u.lockedUntil)
  }

  /** The record after `resetFailedLoginAttempts`. */
  function AfterReset(u: UserRecord): (r: UserRecord)
    ensures r.failedLoginAttempts == 0 && r.lockedUntil == None
    ensures r.(failedLoginAttempts := u.failedLoginAttempts, lockedUntil := u.lockedUntil) == u
  {
    u.(failedLoginAttempts := 0, lockedUntil := None)
  }

  /** The record after `updateLastLogin` at `now`. */
  function AfterLogin(u: UserRecord, now: Instant): (r: UserRecord)
    ensures r.lastLoginAt == Some(now) && r.(lastLoginAt := u.lastLoginAt) == u
  {
    u.(lastLoginAt := Some(now))
  }

  /** Failed logins at the given instants, in order. */
  function FailedLogins(u: UserRecord, times: seq<Instant>): UserRecord
    decreases |times|
  {
    if times == [] then u
    else AfterFailedLogin(FailedLogins(u, times[..|times| - 1]), times[|times| - 1])
  }

  // ----- properties

  /** A permanently locked status wins over any lockout timestamp. */
  lemma LockedStatusAlwaysLocked(u: UserRecord, now: Instant)
    requires u.status == Locked
    ensures IsLocked(u, now)
  {
  }

  /** Otherwise the account is locked exactly while `locked_until` is in the future. */
  lemma TemporaryLock(u: UserRecord, now: Instant)
    requires u.status != Locked
    ensures IsLocked(u, now) <==> u.lockedUntil.Some? && now < u.lockedUntil.value
  {
  }

  /** A reset clears every temporary lock. */
  lemma ResetUnlocks(u: UserRecord, now: Instant)
    requires u.status != Locked
    ensures !IsLocked(AfterReset(u), now)
  {
  }

  /** Each failure counts exactly once, and nothing but the counter and the
      lock timestamp ever changes. */
  lemma {:induction false} FailedLoginsCount(u: UserRecord, times: seq<Instant>)
    ensures FailedLogins(u, times).failedLoginAttempts == u.failedLoginAttempts + |times|
    ensures FailedLogins(u, times).(failedLoginAttempts := u.failedLoginAttempts, lockedUntil := u.lockedUntil) == u
    decreases |times|
  {
    if times != [] {
      FailedLoginsCount(u, times[..|times| - 1]);
    }
  }

  /** After a reset, fewer than five failures never set a lock, and from the
      fifth failure on the lock runs 30 minutes from the latest failure. */
  lemma {:induction false} LockAfterReset(u: UserRecord, times: seq<Instant>)
    ensures |times| < MaxFailedAttempts ==> FailedLogins(AfterReset(u), times).lockedUntil == None
    ensures |times| >= MaxFailedAttempts ==>
      FailedLogins(AfterReset(u), times).lockedUntil == Some(times[|times| - 1] + LockoutSeconds)
    decreases |times|
  {
    if times != [] {
      LockAfterReset(u, times[..|times| - 1]);
      FailedLoginsCount(AfterReset(u), times[..|times| - 1]);
    }
  }

  /** After a reset and then failures at `times`, an account whose status is
      not LOCKED is locked at `now` exactly when there were at least five
      failures and `now` is less than 30 minutes after the last one. */
  lemma LockedAfterFailures(u: UserRecord, times: seq<Instant>, now: Instant)
    requires u.status != Locked
    ensures IsLocked(FailedLogins(AfterReset(u), times), now) <==>
      |times| >= MaxFailedAttempts && now < times[|times| - 1] + LockoutSeconds
  {
    LockAfterReset(u, times);
    FailedLoginsCount(AfterReset(u), times);
  }

  /** Five failures at one instant `t` after a reset lock the account at every
      instant before `t` + 30 minutes. */
  lemma FiveFailuresLock(u: UserRecord, t: Instant, now: Instant)
    requires now < t + LockoutSeconds
    ensures IsLocked(FailedLogins(AfterReset(u), [t, t, t, t, t]), now)
  {
    LockAfterReset(u, [t, t, t, t, t]);
  }

  /** MFA counts as enabled exactly when the flag is set and the secret is
      present and neither "" nor "0". */
  lemma MfaCondition(u: UserRecord)
    ensures HasMfaEnabled(u) <==>
      u.mfaEnabled && u.mfaSecret.Some? && u.mfaSecret.value != "" && u.mfaSecret.value != "0"
  {
  }

  /** The user row with the fields the account-protection methods write. */
  class User {
    var status: UserStatus
    var isAdmin: bool
    var failedLoginAttempts: nat
    var lockedUntil: Option<Instant>
    var lastLoginAt: Option<Instant>
    var mfaEnabled: bool
    var mfaSecret: Option<string>

    function Record(): UserRecord
      reads this
    {
      UserRecord(status, isAdmin, failedLoginAttempts, lockedUntil, lastLoginAt, mfaEnabled, mfaSecret)
    }

    constructor (r: UserRecord)
      ensures Record() == r
    {
      status := r.status;
      isAdmin := r.isAdmin;
      failedLoginAttempts := r.failedLoginAttempts;
      lockedUntil := r.lockedUntil;
      lastLoginAt := r.lastLoginAt;
      mfaEnabled := r.mfaEnabled;
      mfaSecret := r.mfaSecret;
    }

    /** `incrementFailedLoginAttempts` at `now`. */
    method IncrementFailedLoginAttempts(now: Instant)
      modifies this
      ensures Record() == AfterFailedLogin(old(Record()), now)
    {
      failedLoginAttempts := failedLoginAttempts + 1;
      if failedLoginAttempts >= MaxFailedAttempts {
        lockedUntil := Some(now + LockoutSeconds);
      }
    }

    /** `resetFailedLoginAttempts`. */
    method ResetFailedLoginAttempts()
      modifies this
      ensures Record() == AfterReset(old(Record()))
    {
      failedLoginAttempts := 0;
      lockedUntil := None;
    }

    /** `updateLastLogin` at `now`. */
    method UpdateLastLogin(now: Instant)
      modifies this
      ensures Record() == AfterLogin(old(Record()), now)
    {
      lastLoginAt := Some(now);
    }
  }
}
