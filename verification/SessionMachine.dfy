/**
 The session endpoints as a concurrent machine.  Any number of requests run at
 once; a request is a program counter, and one step of one request is one SQL
 statement together with the local code up to the next one.

 Beside the database the state carries history no endpoint reads: every hash
 ever generated, the owner of every session ever inserted, every access token
 signed, every token handed out by a refresh, every exchange of a refresh token
 for its successor, which request revoked which session, and for each request the
 last status it wrote.
 */
module SessionMachine {
  import opened Wrappers
  import opened SessionStore

  type Pid = nat

  datatype Request =
    | Refresh(presented: Hash)
    | Logout(presented: Hash)
    | Revoke(target: UserId, chosen: Option<set<SessionId>>)  // None: revokeAll; Some: ids matching the prefix
    | Login(user: UserId)
    | Moderate(target: UserId, takedown: Option<bool>, suspend: Option<bool>)
    | Deactivate(user: UserId)
    | Activate(user: UserId)
    | ChangePassword(user: UserId)

  datatype Token = Token(user: UserId, version: nat, session: SessionId)

  datatype Outcome =
    | Refused
    | Done
    | Refreshed(token: Token, successor: Hash)
    | LoggedIn(token: Token, refresh: Hash)

  /** What the next statement of a request is. `Start` is its first one. */
  datatype Pc =
    | Start
    | CheckReuse
    | RevokeFamily(user: UserId)
    | Bump(user: UserId)
    | ReadUser(session: SessionId, user: UserId)
    | Rotate(token: Token)
    | OpenSession(user: UserId, version: nat)
    | ModerateTakedown(seen: Status, exported: bool)
    | TakedownRevoke(seen: Status)
    | ModerateSuspend(seen: Status)
    | SuspendRevoke
    | WriteStatus(status: Status)
    | RevokeAfterStatus
    | WritePassword
    | ForgetSessions
    | Finished(outcome: Outcome)

  datatype Proc = Proc(req: Request, pc: Pc)

  datatype Exchange = Exchange(spent: Hash, successor: Hash, session: SessionId, claimant: Pid)

  /** A status write: the version it stored, and every token signed before it. */
  datatype StatusWrite = StatusWrite(user: UserId, version: nat, signedBefore: set<Token>)

  datatype State = State(
    db: Db,
    clock: int,
    procs: map<Pid, Proc>,
    issued: set<Hash>,
    owners: map<SessionId, UserId>,
    minted: set<Token>,
    returned: set<Token>,
    exchanges: seq<Exchange>,
    revokers: map<SessionId, Pid>,
    statusWrites: map<Pid, StatusWrite>)

  /**
   What the outside supplies to a step: which of several rows a SELECT returns
   first, fresh random values, how long the new session lasts, and whether a
   check made elsewhere (password, PLC directory, target is not an admin) passed.
   */
  datatype Pick = Pick(row: SessionId, freshHash: Hash, freshSession: SessionId, ttl: nat, passed: bool)

  datatype Event =
    | Arrive(pid: Pid, req: Request)
    | Advance(pid: Pid, pick: Pick)
    | Tick(ms: nat)
    | Purge

  /** What one statement does to the tables; `Read` and `Sign` leave them alone. */
  datatype Effect =
    | Read
    | Sign(token: Token)
    | RevokeRows(rows: set<SessionId>)
    | BumpVersion(user: UserId)
    | SetStatus(user: UserId, status: Status)
    | RotateRow(token: Token, presented: Hash, successor: Hash, expiresAt: int)
    | InsertSession(token: Token, hash: Hash, expiresAt: int)
    | DropSessions(user: UserId)

  /** The statement a request issues next and where it goes, or nothing to do. */
  datatype Move = Stuck | Move(effect: Effect, next: Pc)

  // ── refreshSession ────────────────────────────────────────────────

  function LookUp(s: State, presented: Hash, pick: Pick): Move {
    var rows := ByHash(s.db, presented);
    if rows == {} then Move(Read, CheckReuse)
    else if pick.row !in rows then Stuck
    else
      var row := s.db.sessions[pick.row];
      if row.revoked || row.expiresAt <= s.clock then Move(Read, Finished(Refused))
      else Move(Read, ReadUser(pick.row, row.user))
  }

  function ReuseCheck(s: State, presented: Hash, pick: Pick): Move {
    var rows := ByPrevious(s.db, presented);
    if rows == {} then Move(Read, Finished(Refused))
    else if pick.row !in rows then Stuck
    else Move(Read, RevokeFamily(s.db.sessions[pick.row].user))
  }

  function SignFor(s: State, i: SessionId, u: UserId): Move {
    if u !in s.db.users || !MayHoldSession(s.db.users[u].status) then Move(Read, Finished(Refused))
    else
      var token := Token(u, s.db.users[u].version, i);
      Move(Sign(token), Rotate(token))
  }

  function Exchanging(s: State, presented: Hash, token: Token, pick: Pick): Move {
    if !CanRotate(s.db, token.session, presented) then Move(Read, CheckReuse)
    else if pick.freshHash in s.issued then Stuck
    else Move(RotateRow(token, presented, pick.freshHash, s.clock + pick.ttl),
              Finished(Refreshed(token, pick.freshHash)))
  }

  // ── deleteSession, revokeSession ──────────────────────────────────

  function LoggingOut(s: State, presented: Hash, pick: Pick): Move {
    var rows := LiveByHash(s.db, presented);
    if rows == {} then Move(Read, Finished(Done))
    else if pick.row !in rows then Stuck
    else Move(RevokeRows(rows), Bump(s.db.sessions[pick.row].user))
  }

  function Revoking(s: State, target: UserId, chosen: Option<set<SessionId>>): Move {
    var live := LiveSessionsOf(s.db, target);
    var rows := if chosen.Some? then live * chosen.value else live;
    if rows != {} then Move(RevokeRows(rows), Bump(target))
    else Move(Read, Finished(if chosen.Some? then Refused else Done))
  }

  // ── createSession ─────────────────────────────────────────────────

  function LoggingIn(s: State, u: UserId, pick: Pick): Move {
    if u !in s.db.users || !pick.passed || !MayHoldSession(s.db.users[u].status)
    then Move(Read, Finished(Refused))
    else Move(Read, OpenSession(u, s.db.users[u].version))
  }

  function Opening(s: State, u: UserId, version: nat, pick: Pick): Move {
    if pick.freshHash in s.issued || pick.freshSession in s.owners then Stuck
    else
      var token := Token(u, version, pick.freshSession);
      Move(InsertSession(token, pick.freshHash, s.clock + pick.ttl), Finished(LoggedIn(token, pick.freshHash)))
  }

  // ── updateSubjectStatus ───────────────────────────────────────────

  function ReadingSubject(s: State, target: UserId, pick: Pick): Move {
    if target !in s.db.users || !pick.passed then Move(Read, Finished(Refused))
    else Move(Read, ModerateTakedown(s.db.users[target].status, s.db.users[target].exported))
  }

  /** Both branches judge the status read at the start, not the one stored now. */
  function TakingDown(target: UserId, takedown: Option<bool>, seen: Status, exported: bool): Move {
    match takedown
    case None => Move(Read, ModerateSuspend(seen))
    case Some(true) =>
      if seen == TakenDown || !exported then Move(Read, Finished(Refused))
      else Move(SetStatus(target, TakenDown), TakedownRevoke(seen))
    case Some(false) =>
      if seen != TakenDown then Move(Read, Finished(Refused))
      else Move(SetStatus(target, Approved), ModerateSuspend(seen))
  }

  function Suspending(target: UserId, suspend: Option<bool>, seen: Status): Move {
    match suspend
    case None => Move(Read, Finished(Done))
    case Some(true) =>
      if Blocked(seen) then Move(Read, Finished(Refused))
      else Move(SetStatus(target, Suspended), SuspendRevoke)
    case Some(false) =>
      if seen != Suspended then Move(Read, Finished(Refused))
      else Move(SetStatus(target, Approved), Finished(Done))
  }

  // ── deactivateAccount, activateAccount ────────────────────────────

  function ReadingStatus(s: State, u: UserId, expected: Status, next: Status, passed: bool): Move {
    if u in s.db.users && s.db.users[u].status == expected && passed
    then Move(Read, WriteStatus(next))
    else Move(Read, Finished(Refused))
  }

  function Starting(s: State, r: Request, pick: Pick): Move {
    match r
    case Refresh(h) => LookUp(s, h, pick)
    case Logout(h) => LoggingOut(s, h, pick)
    case Revoke(t, chosen) => Revoking(s, t, chosen)
    case Login(u) => LoggingIn(s, u, pick)
    case Moderate(t, _, _) => ReadingSubject(s, t, pick)
    case Deactivate(u) => ReadingStatus(s, u, Approved, Deactivated, true)
    case Activate(u) => ReadingStatus(s, u, Deactivated, Approved, pick.passed)
    case ChangePassword(u) =>
      if u in s.db.users && pick.passed then Move(Read, WritePassword) else Move(Read, Finished(Refused))
  }

  /** The user a request other than a refresh or logout acts on. */
  function Subject(r: Request): UserId {
    match r
    case Refresh(_) => 0
    case Logout(_) => 0
    case Revoke(t, _) => t
    case Login(u) => u
    case Moderate(t, _, _) => t
    case Deactivate(u) => u
    case Activate(u) => u
    case ChangePassword(u) => u
  }

  function Plan(s: State, proc: Proc, pick: Pick): Move {
    var r := proc.req;
    var u := Subject(r);
    match proc.pc
    case Start => Starting(s, r, pick)
    case CheckReuse => if r.Refresh? then ReuseCheck(s, r.presented, pick) else Stuck
    case RevokeFamily(v) => if r.Refresh? then Move(RevokeRows(LiveSessionsOf(s.db, v)), Bump(v)) else Stuck
    case Bump(v) => Move(BumpVersion(v), Finished(if r.Refresh? then Refused else Done))
    case ReadUser(i, v) => SignFor(s, i, v)
    case Rotate(token) => if r.Refresh? then Exchanging(s, r.presented, token, pick) else Stuck
    case OpenSession(v, version) => Opening(s, v, version, pick)
    case ModerateTakedown(seen, exported) => if r.Moderate? then TakingDown(u, r.takedown, seen, exported) else Stuck
    case TakedownRevoke(seen) =>
      if r.Moderate? then Move(RevokeRows(LiveSessionsOf(s.db, u)), ModerateSuspend(seen)) else Stuck
    case ModerateSuspend(seen) => if r.Moderate? then Suspending(u, r.suspend, seen) else Stuck
    case SuspendRevoke => if r.Moderate? then Move(RevokeRows(LiveSessionsOf(s.db, u)), Finished(Done)) else Stuck
    case WriteStatus(st) => Move(SetStatus(u, st), if st == Deactivated then RevokeAfterStatus else Finished(Done))
    case RevokeAfterStatus =>
      if r.Deactivate? then Move(RevokeRows(LiveSessionsOf(s.db, u)), Finished(Done)) else Stuck
    case WritePassword => Move(BumpVersion(u), ForgetSessions)
    case ForgetSessions => Move(DropSessions(u), Finished(Done))
    case Finished(_) => Stuck
  }

  /** One statement issued by request `p`. */
  function Perform(s: State, p: Pid, e: Effect): State {
    match e
    case Read => s
    case Sign(token) => s.(minted := s.minted + {token})
    case RevokeRows(rows) =>
      s.(db := SessionStore.RevokeRows(s.db, rows), revokers := s.revokers + map i | i in rows :: p)
    case BumpVersion(u) => s.(db := SessionStore.BumpVersion(s.db, u))
    case SetStatus(u, st) =>
      if u !in s.db.users then s
      else
        s.(db := SessionStore.SetStatus(s.db, u, st),
           statusWrites := s.statusWrites[p := StatusWrite(u, s.db.users[u].version + 1, s.minted)])
    case RotateRow(token, presented, successor, expiresAt) =>
      if token.session !in s.db.sessions then s
      else
        s.(db := SessionStore.RotateRow(s.db, token.session, presented, successor, expiresAt),
           issued := s.issued + {successor},
           returned := s.returned + {token},
           exchanges := s.exchanges + [Exchange(presented, successor, token.session, p)])
    case InsertSession(token, h, expiresAt) =>
      s.(db := SessionStore.InsertSession(s.db, token.session, token.user, h, expiresAt),
         issued := s.issued + {h},
         owners := s.owners[token.session := token.user],
         minted := s.minted + {token})
    case DropSessions(u) => s.(db := DropSessionsOf(s.db, u))
  }

  /** Run the next statement of request `p`. */
  function Step(s: State, p: Pid, pick: Pick): State
    requires p in s.procs
  {
    match Plan(s, s.procs[p], pick)
    case Stuck => s
    case Move(e, next) => Perform(s, p, e).(procs := s.procs[p := s.procs[p].(pc := next)])
  }

  function Next(s: State, e: Event): State {
    match e
    case Arrive(p, r) => if p in s.procs then s else s.(procs := s.procs[p := Proc(r, Start)])
    case Advance(p, pick) => if p in s.procs then Step(s, p, pick) else s
    case Tick(ms) => s.(clock := s.clock + ms)
    case Purge => s.(db := PurgeSessions(s.db, s.clock))
  }

  /** A run: any interleaving of arrivals, statements, clock ticks and cleanups. */
  function Run(s: State, es: seq<Event>): State
    decreases |es|
  {
    if es == [] then s else Next(Run(s, es[..|es|-1]), es[|es|-1])
  }

  /** No sessions, no requests; the accounts may be in any state. */
  function Initial(users: map<UserId, User>): State {
    State(Db(users, map[]), 0, map[], {}, map[], {}, {}, [], map[], map[])
  }

  /** `verifyAccessToken` accepts exactly the tokens carrying the stored version. */
  predicate Accepted(db: Db, t: Token) {
    t.user in db.users && db.users[t.user].version == t.version
  }
}
