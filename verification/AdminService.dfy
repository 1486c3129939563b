/** Administrator operations on user rows, proved equal to their protocol functions. */
module AdminServices {
  import opened Wrappers
  import opened Rows
  import opened Repositories
  import P = Protocol

  class AdminService {
    const users: UserRepository
    const sessions: SessionRepository

    constructor (users: UserRepository, sessions: SessionRepository)
      requires users.db == sessions.db
      ensures this.users == users && this.sessions == sessions
    {
      this.users, this.sessions := users, sessions;
    }

    method SetUserRole(actorId: Id, userId: Id, role: Role) returns (r: Result<Role, P.Error>)
      requires users.db == sessions.db
      modifies users.db`users
      ensures (users.db.Tables(), r) == P.SetUserRole(old(users.db.Tables()), actorId, userId, role)
    {
      var user := users.FindById(userId);
      if user.None? {
        return Err(P.NotFound);
      }
      if userId == actorId && role != user.value.role {
        return Err(P.OwnRole);
      }
      users.SetRole(userId, role);
      return Ok(role);
    }

    method SetUserStatus(actorId: Id, userId: Id, status: Status) returns (r: Result<Status, P.Error>)
      requires users.db == sessions.db
      modifies users.db`users, users.db`sessions
      ensures (users.db.Tables(), r) == P.SetUserStatus(old(users.db.Tables()), actorId, userId, status)
    {
      var user := users.FindById(userId);
      if user.None? {
        return Err(P.NotFound);
      }
      if userId == actorId && status.DISABLED? {
        return Err(P.OwnAccount);
      }
      if status != user.value.status && status !in P.AllowedTransitions(user.value.status) {
        return Err(P.BadTransition);
      }
      if status.LOCKED? {
        users.SetStatus(userId, status, Some(P.FAR_FUTURE));
      } else {
        users.SetStatus(userId, status, None);
      }
      if status.DISABLED? || status.LOCKED? {
        sessions.RevokeAllForUser(userId, None);
      }
      return Ok(status);
    }
  }
}
