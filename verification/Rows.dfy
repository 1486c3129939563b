/**
 The rows the authentication service shares, and what each repository call does to
 them. One call is one atomic change; a change to a row that does not exist does
 nothing (the database client throws instead). Telemetry columns (last login, last
 use, audit logs) are not part of the rows here.
 */
module Rows {
  import opened Wrappers

  type Id = string
  type Time = int // milliseconds

  /** SHA-256 as a constructor: nothing is known of it but that it is injective. */
  datatype Hash = Sha256(text: string)

  datatype Role = USER | ADMIN

  datatype Status = ACTIVE | LOCKED | DISABLED | PENDING_VERIFICATION

  datatype User = User(
    email: string,
    passwordHash: Option<string>,
    role: Role,
    status: Status,
    emailVerified: bool,
    mfaEnabled: bool,
    totpEnabled: bool,
    webauthnEnabled: bool,
    failedLoginAttempts: nat,
    lockedUntil: Option<Time>)

  datatype SessionStatus = Active | Expired | Revoked

  datatype Session = Session(userId: Id, refreshTokenHash: Hash, status: SessionStatus, expiresAt: Time)

  datatype TotpRecord = TotpRecord(secret: string, verified: bool, enabled: bool)

  datatype RecoveryCode = RecoveryCode(userId: Id, usedAt: Option<Time>)

  datatype Credential = Credential(userId: Id, publicKey: string, signCount: int)

  datatype EmailVerification = EmailVerification(userId: Id, expiresAt: Time, usedAt: Option<Time>)

  /** The tables, each keyed by its unique column; `emails` is the unique index on user addresses. */
  datatype Tables = Tables(
    users: map<Id, User>,
    emails: map<string, Id>,
    sessions: map<Id, Session>,
    totp: map<Id, TotpRecord>,
    recovery: map<Hash, RecoveryCode>,
    credentials: map<string, Credential>,
    devices: set<(Id, Hash)>,
    verifications: map<Hash, EmailVerification>)

  // ---------------------------------------------------------------------------
  // Users
  // ---------------------------------------------------------------------------

  function WithUser(users: map<Id, User>, id: Id, change: User -> User): map<Id, User> {
    if id in users then users[id := change(users[id])] else users
  }

  function MarkEmailVerified(users: map<Id, User>, id: Id): map<Id, User> {
    WithUser(users, id, (u: User) => u.(emailVerified := true, status := ACTIVE))
  }

  function MarkLoginSuccess(users: map<Id, User>, id: Id): map<Id, User> {
    WithUser(users, id, (u: User) => u.(failedLoginAttempts := 0, lockedUntil := None))
  }

  function RecordFailedLogin(users: map<Id, User>, id: Id, attempts: nat, lockUntil: Option<Time>): map<Id, User> {
    WithUser(users, id, (u: User) =>
      u.(failedLoginAttempts := attempts, lockedUntil := lockUntil,
         status := if lockUntil.Some? then LOCKED else u.status))
  }

  function Unlock(users: map<Id, User>, id: Id): map<Id, User> {
    WithUser(users, id, (u: User) => u.(status := ACTIVE, lockedUntil := None, failedLoginAttempts := 0))
  }

  function SetRole(users: map<Id, User>, id: Id, role: Role): map<Id, User> {
    WithUser(users, id, (u: User) => u.(role := role))
  }

  function SetStatus(users: map<Id, User>, id: Id, status: Status, lockedUntil: Option<Time>): map<Id, User> {
    WithUser(users, id, (u: User) => u.(status := status, lockedUntil := lockedUntil))
  }

  /** The second-factor flags that one update writes; `None` leaves a flag as it is. */
  function SetFlags(users: map<Id, User>, id: Id, totp: Option<bool>, webauthn: Option<bool>, mfa: Option<bool>): map<Id, User> {
    WithUser(users, id, (u: User) =>
      u.(totpEnabled := if totp.Some? then totp.value else u.totpEnabled,
         webauthnEnabled := if webauthn.Some? then webauthn.value else u.webauthnEnabled,
         mfaEnabled := if mfa.Some? then mfa.value else u.mfaEnabled))
  }

  // ---------------------------------------------------------------------------
  // Sessions
  // ---------------------------------------------------------------------------

  /** The session and its user, provided the session is active. */
  function FindActive(db: Tables, id: Id): Option<(Session, User)> {
    if id in db.sessions && db.sessions[id].status.Active? && db.sessions[id].userId in db.users
    then Some((db.sessions[id], db.users[db.sessions[id].userId]))
    else None
  }

  function RotateToken(sessions: map<Id, Session>, id: Id, hash: Hash, expiresAt: Time): map<Id, Session> {
    if id in sessions then sessions[id := sessions[id].(refreshTokenHash := hash, expiresAt := expiresAt)] else sessions
  }

  function EndSession(sessions: map<Id, Session>, id: Id, status: SessionStatus): map<Id, Session> {
    if id in sessions then sessions[id := sessions[id].(status := status)] else sessions
  }

  function RevokeAllForUser(sessions: map<Id, Session>, userId: Id): map<Id, Session> {
    map id | id in sessions ::
      if sessions[id].userId == userId && sessions[id].status.Active?
      then sessions[id].(status := Revoked) else sessions[id]
  }

  /** What the authentication middleware asks of a session. */
  predicate SessionActive(sessions: map<Id, Session>, id: Id, userId: Id, now: Time) {
    id in sessions && sessions[id].userId == userId && sessions[id].status.Active? && sessions[id].expiresAt > now
  }

  // ---------------------------------------------------------------------------
  // Second factors
  // ---------------------------------------------------------------------------

  function UpsertPendingTotp(totp: map<Id, TotpRecord>, userId: Id, secret: string): map<Id, TotpRecord> {
    totp[userId := TotpRecord(secret, false, false)]
  }

  function EnableTotp(totp: map<Id, TotpRecord>, userId: Id): map<Id, TotpRecord> {
    if userId in totp then totp[userId := totp[userId].(verified := true, enabled := true)] else totp
  }

  predicate Unused(recovery: map<Hash, RecoveryCode>, userId: Id, hash: Hash) {
    hash in recovery && recovery[hash].userId == userId && recovery[hash].usedAt.None?
  }

  /** Claims an unused code in one conditional update; the flag says whether it was claimed. */
  function ConsumeRecoveryCode(recovery: map<Hash, RecoveryCode>, userId: Id, hash: Hash, now: Time)
    : (map<Hash, RecoveryCode>, bool)
  {
    if Unused(recovery, userId, hash)
    then (recovery[hash := recovery[hash].(usedAt := Some(now))], true)
    else (recovery, false)
  }

  function UnusedCodes(recovery: map<Hash, RecoveryCode>, userId: Id): set<Hash> {
    set h | h in recovery && Unused(recovery, userId, h)
  }

  function UsedCodes(recovery: map<Hash, RecoveryCode>, userId: Id): set<Hash> {
    set h | h in recovery && recovery[h].userId == userId && recovery[h].usedAt.Some?
  }

  function DeleteRecoveryCodes(recovery: map<Hash, RecoveryCode>, userId: Id): map<Hash, RecoveryCode> {
    map h | h in recovery && recovery[h].userId != userId :: recovery[h]
  }

  predicate Distinct(hashes: seq<Hash>) {
    forall i, j | 0 <= i < j < |hashes| :: hashes[i] != hashes[j]
  }

  /** The unique column refuses a batch that repeats a hash; then nothing is inserted. */
  predicate Insertable(recovery: map<Hash, RecoveryCode>, hashes: seq<Hash>) {
    Distinct(hashes) && forall i | 0 <= i < |hashes| :: hashes[i] !in recovery
  }

  function CreateRecoveryCodes(recovery: map<Hash, RecoveryCode>, userId: Id, hashes: seq<Hash>): map<Hash, RecoveryCode> {
    if Insertable(recovery, hashes) then recovery + (map h | h in hashes :: RecoveryCode(userId, None)) else recovery
  }

  function CredentialsOf(credentials: map<string, Credential>, userId: Id): set<string> {
    set c | c in credentials && credentials[c].userId == userId
  }

  function DeleteCredential(credentials: map<string, Credential>, userId: Id, id: string): map<string, Credential> {
    if id in credentials && credentials[id].userId == userId then credentials - {id} else credentials
  }

  function UpdateCounter(credentials: map<string, Credential>, id: string, signCount: int): map<string, Credential> {
    if id in credentials then credentials[id := credentials[id].(signCount := signCount)] else credentials
  }

  function RevokeAllTrustedDevices(devices: set<(Id, Hash)>, userId: Id): set<(Id, Hash)> {
    set d | d in devices && d.0 != userId
  }

  // ---------------------------------------------------------------------------
  // Email verification
  // ---------------------------------------------------------------------------

  function MarkUsed(verifications: map<Hash, EmailVerification>, hash: Hash, now: Time): map<Hash, EmailVerification> {
    if hash in verifications then verifications[hash := verifications[hash].(usedAt := Some(now))] else verifications
  }

  function RevokePending(verifications: map<Hash, EmailVerification>, userId: Id, now: Time): map<Hash, EmailVerification> {
    map h | h in verifications ::
      if verifications[h].userId == userId && verifications[h].usedAt.None?
      then verifications[h].(usedAt := Some(now)) else verifications[h]
  }
}
