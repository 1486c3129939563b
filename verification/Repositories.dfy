/** The repositories: objects over one shared database, each method one atomic row change. */
module Repositories {
  import opened Wrappers
  import opened Rows

  class Database {
    var users: map<Id, User>
    var emails: map<string, Id>
    var sessions: map<Id, Session>
    var totp: map<Id, TotpRecord>
    var recovery: map<Hash, RecoveryCode>
    var credentials: map<string, Credential>
    var devices: set<(Id, Hash)>
    var verifications: map<Hash, EmailVerification>

    constructor ()
      ensures Tables() == Rows.Tables(map[], map[], map[], map[], map[], map[], {}, map[])
    {
      users, emails, sessions, totp := map[], map[], map[], map[];
      recovery, credentials, devices, verifications := map[], map[], {}, map[];
    }

    function Tables(): Tables
      reads this
    {
      Rows.Tables(users, emails, sessions, totp, recovery, credentials, devices, verifications)
    }
  }

  class UserRepository {
    const db: Database

    constructor (db: Database)
      ensures this.db == db
    {
      this.db := db;
    }

    method FindByEmail(email: string) returns (r: Option<(Id, User)>)
      ensures r.Some? <==> email in db.emails && db.emails[email] in db.users
      ensures r.Some? ==> r.value.0 == db.emails[email] && r.value.1 == db.users[r.value.0]
    {
      if email !in db.emails || db.emails[email] !in db.users {
        return None;
      }
      return Some((db.emails[email], db.users[db.emails[email]]));
    }

    method FindById(id: Id) returns (r: Option<User>)
      ensures r == if id in db.users then Some(db.users[id]) else None
    {
      if id !in db.users {
        return None;
      }
      return Some(db.users[id]);
    }

    method Create(id: Id, user: User)
      requires id !in db.users && user.email !in db.emails
      modifies db`users, db`emails
      ensures db.users == old(db.users)[id := user] && db.emails == old(db.emails)[user.email := id]
    {
      db.users := db.users[id := user];
      db.emails := db.emails[user.email := id];
    }

    method SetFlags(id: Id, totp: Option<bool>, webauthn: Option<bool>, mfa: Option<bool>)
      modifies db`users
      ensures db.users == Rows.SetFlags(old(db.users), id, totp, webauthn, mfa)
    {
      if id in db.users {
        var u := db.users[id];
        if totp.Some? { u := u.(totpEnabled := totp.value); }
        if webauthn.Some? { u := u.(webauthnEnabled := webauthn.value); }
        if mfa.Some? { u := u.(mfaEnabled := mfa.value); }
        db.users := db.users[id := u];
      }
    }

    method MarkEmailVerified(id: Id)
      modifies db`users
      ensures db.users == Rows.MarkEmailVerified(old(db.users), id)
    {
      if id in db.users {
        db.users := db.users[id := db.users[id].(emailVerified := true, status := ACTIVE)];
      }
    }

    method MarkLoginSuccess(id: Id)
      modifies db`users
      ensures db.users == Rows.MarkLoginSuccess(old(db.users), id)
    {
      if id in db.users {
        db.users := db.users[id := db.users[id].(failedLoginAttempts := 0, lockedUntil := None)];
      }
    }

    method RecordFailedLogin(id: Id, failedAttempts: nat, lockUntil: Option<Time>)
      modifies db`users
      ensures db.users == Rows.RecordFailedLogin(old(db.users), id, failedAttempts, lockUntil)
    {
      if id in db.users {
        var u := db.users[id].(failedLoginAttempts := failedAttempts, lockedUntil := lockUntil);
        if lockUntil.Some? {
          u := u.(status := LOCKED);
        }
        db.users := db.users[id := u];
      }
    }

    method Unlock(id: Id)
      modifies db`users
      ensures db.users == Rows.Unlock(old(db.users), id)
    {
      if id in db.users {
        db.users := db.users[id := db.users[id].(status := ACTIVE, lockedUntil := None, failedLoginAttempts := 0)];
      }
    }

    method SetRole(id: Id, role: Role)
      modifies db`users
      ensures db.users == Rows.SetRole(old(db.users), id, role)
    {
      if id in db.users {
        db.users := db.users[id := db.users[id].(role := role)];
      }
    }

    method SetStatus(id: Id, status: Status, lockedUntil: Option<Time>)
      modifies db`users
      ensures db.users == Rows.SetStatus(old(db.users), id, status, lockedUntil)
    {
      if id in db.users {
        db.users := db.users[id := db.users[id].(status := status, lockedUntil := lockedUntil)];
      }
    }
  }

  class SessionRepository {
    const db: Database

    constructor (db: Database)
      ensures this.db == db
    {
      this.db := db;
    }

    method Create(id: Id, session: Session)
      requires id !in db.sessions
      modifies db`sessions
      ensures db.sessions == old(db.sessions)[id := session]
    {
      db.sessions := db.sessions[id := session];
    }

    method FindActiveById(id: Id) returns (r: Option<(Session, User)>)
      ensures r == FindActive(db.Tables(), id)
    {
      if id !in db.sessions || !db.sessions[id].status.Active? || db.sessions[id].userId !in db.users {
        return None;
      }
      return Some((db.sessions[id], db.users[db.sessions[id].userId]));
    }

    method IsSessionActive(id: Id, userId: Id, now: Time) returns (active: bool)
      ensures active == SessionActive(db.sessions, id, userId, now)
    {
      if id !in db.sessions {
        return false;
      }
      var s := db.sessions[id];
      return s.userId == userId && s.status.Active? && s.expiresAt > now;
    }

    method RotateToken(id: Id, hash: Hash, expiresAt: Time)
      modifies db`sessions
      ensures db.sessions == Rows.RotateToken(old(db.sessions), id, hash, expiresAt)
    {
      if id in db.sessions {
        db.sessions := db.sessions[id := db.sessions[id].(refreshTokenHash := hash, expiresAt := expiresAt)];
      }
    }

    method MarkExpired(id: Id)
      modifies db`sessions
      ensures db.sessions == EndSession(old(db.sessions), id, Expired)
    {
      if id in db.sessions {
        db.sessions := db.sessions[id := db.sessions[id].(status := Expired)];
      }
    }

    method Revoke(id: Id)
      modifies db`sessions
      ensures db.sessions == EndSession(old(db.sessions), id, Revoked)
    {
      if id in db.sessions {
        db.sessions := db.sessions[id := db.sessions[id].(status := Revoked)];
      }
    }

    /** Every active session of the user is revoked, but for the one to spare if there is one. */
    method RevokeAllForUser(userId: Id, exceptId: Option<Id>)
      modifies db`sessions
      ensures exceptId.None? ==> db.sessions == Rows.RevokeAllForUser(old(db.sessions), userId)
      ensures exceptId.Some? && exceptId.value in old(db.sessions) ==>
                db.sessions == Rows.RevokeAllForUser(old(db.sessions), userId)[exceptId.value := old(db.sessions)[exceptId.value]]
      ensures exceptId.Some? && exceptId.value !in old(db.sessions) ==>
                db.sessions == Rows.RevokeAllForUser(old(db.sessions), userId)
    {
      db.sessions := map id | id in db.sessions ::
        if db.sessions[id].userId == userId && db.sessions[id].status.Active? && exceptId != Some(id)
        then db.sessions[id].(status := Revoked) else db.sessions[id];
    }
  }

  class EmailVerificationRepository {
    const db: Database

    constructor (db: Database)
      ensures this.db == db
    {
      this.db := db;
    }

    method Create(userId: Id, hash: Hash, expiresAt: Time)
      requires hash !in db.verifications
      modifies db`verifications
      ensures db.verifications == old(db.verifications)[hash := EmailVerification(userId, expiresAt, None)]
    {
      db.verifications := db.verifications[hash := EmailVerification(userId, expiresAt, None)];
    }

    method FindActiveByHash(hash: Hash) returns (r: Option<(EmailVerification, User)>)
      ensures r.Some? <==> hash in db.verifications && db.verifications[hash].userId in db.users
      ensures r.Some? ==> r.value == (db.verifications[hash], db.users[db.verifications[hash].userId])
    {
      if hash !in db.verifications || db.verifications[hash].userId !in db.users {
        return None;
      }
      return Some((db.verifications[hash], db.users[db.verifications[hash].userId]));
    }

    method MarkUsed(hash: Hash, now: Time)
      modifies db`verifications
      ensures db.verifications == Rows.MarkUsed(old(db.verifications), hash, now)
    {
      if hash in db.verifications {
        db.verifications := db.verifications[hash := db.verifications[hash].(usedAt := Some(now))];
      }
    }

    method RevokePending(userId: Id, now: Time)
      modifies db`verifications
      ensures db.verifications == Rows.RevokePending(old(db.verifications), userId, now)
    {
      db.verifications := map h | h in db.verifications ::
        if db.verifications[h].userId == userId && db.verifications[h].usedAt.None?
        then db.verifications[h].(usedAt := Some(now)) else db.verifications[h];
    }
  }

  class MfaRepository {
    const db: Database

    constructor (db: Database)
      ensures this.db == db
    {
      this.db := db;
    }

    method GetTotpSecret(userId: Id) returns (r: Option<TotpRecord>)
      ensures r == if userId in db.totp then Some(db.totp[userId]) else None
    {
      if userId !in db.totp {
        return None;
      }
      return Some(db.totp[userId]);
    }

    method UpsertPendingTotpSecret(userId: Id, secret: string)
      modifies db`totp
      ensures db.totp == UpsertPendingTotp(old(db.totp), userId, secret)
    {
      db.totp := db.totp[userId := TotpRecord(secret, false, false)];
    }

    method EnableTotp(userId: Id)
      modifies db`totp
      ensures db.totp == Rows.EnableTotp(old(db.totp), userId)
    {
      if userId in db.totp {
        db.totp := db.totp[userId := db.totp[userId].(verified := true, enabled := true)];
      }
    }

    method DeleteTotpSecret(userId: Id)
      modifies db`totp
      ensures db.totp == old(db.totp) - {userId}
    {
      db.totp := db.totp - {userId};
    }

    /** Inserts a whole batch or, when a hash repeats, nothing. */
    method CreateRecoveryCodes(userId: Id, hashes: seq<Hash>) returns (ok: bool)
      modifies db`recovery
      ensures ok == Insertable(old(db.recovery), hashes)
      ensures db.recovery == Rows.CreateRecoveryCodes(old(db.recovery), userId, hashes)
    {
      var added: map<Hash, RecoveryCode> := map[];
      for i := 0 to |hashes|
        invariant forall j | 0 <= j < i :: hashes[j] !in db.recovery
        invariant Distinct(hashes[..i])
        invariant added == map h | h in hashes[..i] :: RecoveryCode(userId, None)
      {
        if hashes[i] in db.recovery || hashes[i] in added {
          assert !Insertable(db.recovery, hashes);
          return false;
        }
        added := added[hashes[i] := RecoveryCode(userId, None)];
        assert hashes[..i + 1] == hashes[..i] + [hashes[i]];
      }
      assert hashes[..|hashes|] == hashes;
      db.recovery := db.recovery + added;
      return true;
    }

    method ConsumeRecoveryCode(userId: Id, hash: Hash, now: Time) returns (consumed: bool)
      modifies db`recovery
      ensures (db.recovery, consumed) == Rows.ConsumeRecoveryCode(old(db.recovery), userId, hash, now)
    {
      if hash in db.recovery && db.recovery[hash].userId == userId && db.recovery[hash].usedAt.None? {
        db.recovery := db.recovery[hash := db.recovery[hash].(usedAt := Some(now))];
        return true;
      }
      return false;
    }

    method CountUnusedRecoveryCodes(userId: Id) returns (n: nat)
      ensures n == |UnusedCodes(db.recovery, userId)|
    {
      n := |UnusedCodes(db.recovery, userId)|;
    }

    method DeleteRecoveryCodes(userId: Id)
      modifies db`recovery
      ensures db.recovery == Rows.DeleteRecoveryCodes(old(db.recovery), userId)
    {
      db.recovery := map h | h in db.recovery && db.recovery[h].userId != userId :: db.recovery[h];
    }

    method GetCredentialForUser(userId: Id, credentialId: string) returns (r: Option<Credential>)
      ensures r == if credentialId in CredentialsOf(db.credentials, userId) then Some(db.credentials[credentialId]) else None
    {
      if credentialId !in db.credentials || db.credentials[credentialId].userId != userId {
        return None;
      }
      return Some(db.credentials[credentialId]);
    }

    /** The unique column refuses a credential id that exists. */
    method CreateCredential(credentialId: string, credential: Credential) returns (ok: bool)
      modifies db`credentials
      ensures ok == (credentialId !in old(db.credentials))
      ensures db.credentials == if ok then old(db.credentials)[credentialId := credential] else old(db.credentials)
    {
      ok := credentialId !in db.credentials;
      if ok {
        db.credentials := db.credentials[credentialId := credential];
      }
    }

    method UpdateCredentialCounter(credentialId: string, signCount: int)
      modifies db`credentials
      ensures db.credentials == UpdateCounter(old(db.credentials), credentialId, signCount)
    {
      if credentialId in db.credentials {
        db.credentials := db.credentials[credentialId := db.credentials[credentialId].(signCount := signCount)];
      }
    }

    method ListCredentials(userId: Id) returns (ids: set<string>)
      ensures ids == CredentialsOf(db.credentials, userId)
    {
      ids := CredentialsOf(db.credentials, userId);
    }

    method DeleteCredential(userId: Id, credentialId: string)
      modifies db`credentials
      ensures db.credentials == Rows.DeleteCredential(old(db.credentials), userId, credentialId)
    {
      if credentialId in db.credentials && db.credentials[credentialId].userId == userId {
        db.credentials := db.credentials - {credentialId};
      }
    }

    method GetTrustedDevice(userId: Id, fingerprint: Hash) returns (found: bool)
      ensures found == ((userId, fingerprint) in db.devices)
    {
      found := (userId, fingerprint) in db.devices;
    }

    method TrustDevice(userId: Id, fingerprint: Hash)
      modifies db`devices
      ensures db.devices == old(db.devices) + {(userId, fingerprint)}
    {
      db.devices := db.devices + {(userId, fingerprint)};
    }

    method RevokeAllTrustedDevices(userId: Id)
      modifies db`devices
      ensures db.devices == Rows.RevokeAllTrustedDevices(old(db.devices), userId)
    {
      db.devices := set d | d in db.devices && d.0 != userId;
    }
  }
}
