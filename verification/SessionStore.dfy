/**
 The `users` and `sessions` tables as the session endpoints see them, and one
 function for each SQL statement those endpoints issue.  Every statement is
 atomic; everything between two statements is local to one request.
 */
module SessionStore {
  import opened Wrappers

  type UserId = nat
  type SessionId = nat
  type Hash = nat

  datatype Status = Pending | Approved | Rejected | Disabled | Suspended | TakenDown | Deactivated

  datatype User = User(status: Status, version: nat, exported: bool)

  datatype Session = Session(user: UserId, hash: Hash, previous: Option<Hash>, expiresAt: int, revoked: bool)

  datatype Db = Db(users: map<UserId, User>, sessions: map<SessionId, Session>)

  /** Moderation blocks these two statuses from any session at all. */
  predicate Blocked(st: Status) { st == Suspended || st == TakenDown }

  /** Statuses `refreshSession` and `createSession` hand a token to. */
  predicate MayHoldSession(st: Status) { st == Approved || st == Deactivated }

  function ByHash(db: Db, h: Hash): set<SessionId> {
    set i | i in db.sessions && db.sessions[i].hash == h
  }

  function ByPrevious(db: Db, h: Hash): set<SessionId> {
    set i | i in db.sessions && db.sessions[i].previous == Some(h)
  }

  /** Rows an `UPDATE ... WHERE user_id = $1 AND revoked_at IS NULL` touches. */
  function LiveSessionsOf(db: Db, u: UserId): set<SessionId> {
    set i | i in db.sessions && db.sessions[i].user == u && !db.sessions[i].revoked
  }

  /** Rows with this hash that are not yet revoked. */
  function LiveByHash(db: Db, h: Hash): set<SessionId> {
    set i | i in db.sessions && db.sessions[i].hash == h && !db.sessions[i].revoked
  }

  function RevokeRows(db: Db, rows: set<SessionId>): Db {
    db.(sessions := map i | i in db.sessions ::
      if i in rows then db.sessions[i].(revoked := true) else db.sessions[i])
  }

  /** `token_version = token_version + 1`; no row, no effect. */
  function BumpVersion(db: Db, u: UserId): Db {
    if u in db.users then db.(users := db.users[u := db.users[u].(version := db.users[u].version + 1)]) else db
  }

  /** `status = ..., token_version = token_version + 1`, one statement. */
  function SetStatus(db: Db, u: UserId, st: Status): Db {
    if u in db.users
    then db.(users := db.users[u := db.users[u].(status := st, version := db.users[u].version + 1)])
    else db
  }

  /** The guard of the rotating UPDATE: still this hash, still not revoked. */
  predicate CanRotate(db: Db, i: SessionId, presented: Hash) {
    i in db.sessions && db.sessions[i].hash == presented && !db.sessions[i].revoked
  }

  function RotateRow(db: Db, i: SessionId, presented: Hash, successor: Hash, expiresAt: int): Db
    requires i in db.sessions
  {
    db.(sessions := db.sessions[i :=
      db.sessions[i].(hash := successor, previous := Some(presented), expiresAt := expiresAt)])
  }

  function InsertSession(db: Db, i: SessionId, u: UserId, h: Hash, expiresAt: int): Db {
    db.(sessions := db.sessions[i := Session(u, h, None, expiresAt, false)])
  }

  function DropSessionsOf(db: Db, u: UserId): Db {
    db.(sessions := map i | i in db.sessions && db.sessions[i].user != u :: db.sessions[i])
  }

  /** The hourly cleanup: expired or revoked rows go. */
  function PurgeSessions(db: Db, now: int): Db {
    db.(sessions := map i | i in db.sessions && db.sessions[i].expiresAt >= now && !db.sessions[i].revoked
      :: db.sessions[i])
  }
}
