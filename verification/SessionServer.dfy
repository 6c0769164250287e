/**
 The session endpoints in the order their code runs, over tables they update in
 place.  `Interference` stands between any two statements of a request: there any
 other requests may run.  Each endpoint's contract says that it is one request of
 the machine in `SessionMachine`, run to the answer it returns, so everything
 proved of every interleaving there holds of these bodies.
 */
module SessionServer {
  import opened Wrappers
  import opened SessionStore
  import opened SessionMachine
  import opened SessionReuse
  import SessionAnswers

  /** A run in which the check of request `p` comes out as `passed`. */
  ghost predicate ReachesBy(s: State, s': State, p: Pid, passed: bool) {
    exists es :: Run(s, es) == s' && ChecksSay(es, p, passed)
  }

  ghost predicate ChecksSay(es: seq<Event>, p: Pid, passed: bool) {
    forall i | 0 <= i < |es| && es[i].Advance? && es[i].pid == p :: es[i].pick.passed == passed
  }

  lemma BeginBy(start: State, p: Pid, req: Request, passed: bool)
    requires p !in start.procs
    ensures ReachesBy(start, start.(procs := start.procs[p := Proc(req, Start)]), p, passed)
  {
    var es := [Arrive(p, req)];
    assert es[..0] == [];
    assert Run(start, es) == Next(start, Arrive(p, req));
    assert ChecksSay(es, p, passed);
  }

  /** A run to `s` and then one statement of request `p`. */
  lemma Extend(start: State, s: State, p: Pid, passed: bool, pick: Pick, e: Effect, next: Pc)
    requires ReachesBy(start, s, p, passed) && pick.passed == passed && p in s.procs && Plan(s, s.procs[p], pick) == Move(e, next)
    ensures ReachesBy(start, At(Perform(s, p, e), p, next), p, passed)
  {
    hide Plan;
    hide Perform;
    var es :| Run(start, es) == s && ChecksSay(es, p, passed);
    var more := es + [Advance(p, pick)];
    assert more[..|more|-1] == es;
    StepIs(s, p, pick, e, next);
    assert Run(start, more) == Next(s, Advance(p, pick)) by { hide Next; }
    assert ChecksSay(more, p, passed);
  }

  lemma StepIs(s: State, p: Pid, pick: Pick, e: Effect, next: Pc)
    requires p in s.procs && Plan(s, s.procs[p], pick) == Move(e, next)
    ensures p in Perform(s, p, e).procs && Next(s, Advance(p, pick)) == At(Perform(s, p, e), p, next)
  {
    hide Plan;
  }

  class Server {
    var users: map<UserId, User>
    var sessions: map<SessionId, Session>
    var clock: int
    var nextHash: Hash
    var nextSession: SessionId
    ghost var machine: State
    ghost var passed: bool     // what the check made elsewhere says of the request being handled

    ghost predicate Valid()
      reads this
    {
      && machine.db == Db(users, sessions)
      && machine.clock == clock
      && (forall h | h in machine.issued :: h < nextHash)
      && (forall i | i in machine.owners :: i < nextSession)
    }

    /** The machine is valid, was reached from `start`, and request `pid` stands at `pc`. */
    ghost predicate Running(start: State, pid: Pid, req: Request, pc: Pc)
      reads this
    {
      && Valid() && ReachesBy(start, machine, pid, passed)
      && pid in machine.procs && machine.procs[pid] == Proc(req, pc)
    }

    /** The session of the token is stored, unrevoked, with this hash and `ttl` from now to live. */
    ghost predicate Opened(token: Token, refresh: Hash, user: UserId, ttl: nat)
      reads this
    {
      && token.user == user && token.session in sessions
      && sessions[token.session] == Session(user, refresh, None, clock + ttl, false)
    }

    /** ... or it just had its hash exchanged. */
    ghost predicate Exchanged(token: Token, presented: Hash, successor: Hash, ttl: nat)
      reads this
    {
      && token.session in sessions && sessions[token.session].hash == successor && sessions[token.session].previous == Some(presented)
      && sessions[token.session].expiresAt == clock + ttl && !sessions[token.session].revoked
    }

    constructor (accounts: map<UserId, User>)
      ensures Valid() && machine == Initial(accounts)
    {
      users, sessions, clock, nextHash, nextSession := accounts, map[], 0, 0, 0;
      machine := Initial(accounts);
    }

    /** Any number of statements of other requests; on this side nothing is known of them. */
    method Interference(ghost start: State, ghost pid: Pid, ghost req: Request, ghost pc: Pc)
      requires Running(start, pid, req, pc)
      modifies this
      ensures Running(start, pid, req, pc) && passed == old(passed)
    {
    }

    method Receive(ghost pid: Pid, ghost req: Request, ghost check: bool)
      requires Valid() && pid !in machine.procs
      modifies this`machine, this`passed
      ensures Running(old(machine), pid, req, Start) && passed == check
    {
      BeginBy(machine, pid, req, check);
      passed := check;
      machine := machine.(procs := machine.procs[pid := Proc(req, Start)]);
    }

    /** A SELECT, or local code only: the tables stay as they are. */
    ghost method Observe(start: State, pid: Pid, pick: Pick, next: Pc)
      requires Valid() && ReachesBy(start, machine, pid, passed) && pid in machine.procs
      requires pick.passed == passed && Plan(machine, machine.procs[pid], pick) == Move(Read, next)
      modifies this`machine
      ensures Running(start, pid, old(machine).procs[pid].req, next)
    {
      Extend(start, machine, pid, passed, pick, Read, next);
      machine := At(machine, pid, next);
    }

    ghost method Signed(start: State, pid: Pid, pick: Pick, token: Token, next: Pc)
      requires Valid() && ReachesBy(start, machine, pid, passed) && pid in machine.procs
      requires pick.passed == passed && Plan(machine, machine.procs[pid], pick) == Move(Sign(token), next)
      modifies this`machine
      ensures Running(start, pid, old(machine).procs[pid].req, next)
    {
      Extend(start, machine, pid, passed, pick, Sign(token), next);
      machine := At(Perform(machine, pid, Sign(token)), pid, next);
    }

    /** UPDATE sessions SET revoked_at = now WHERE ... on the rows the caller selected. */
    method RevokeWhere(ghost start: State, ghost pid: Pid, ghost pick: Pick, rows: set<SessionId>, ghost next: Pc)
      requires Valid() && ReachesBy(start, machine, pid, passed) && pid in machine.procs
      requires pick.passed == passed && Plan(machine, machine.procs[pid], pick) == Move(RevokeRows(rows), next)
      modifies this`sessions, this`machine
      ensures Running(start, pid, old(machine).procs[pid].req, next)
    {
      Extend(start, machine, pid, passed, pick, RevokeRows(rows), next);
      machine := At(Perform(machine, pid, RevokeRows(rows)), pid, next);
      sessions := map i | i in sessions :: if i in rows then sessions[i].(revoked := true) else sessions[i];
    }

    /** The same statement on all the user's live sessions. */
    method RevokeAll(ghost start: State, ghost pid: Pid, user: UserId, ghost next: Pc)
      requires Valid() && ReachesBy(start, machine, pid, passed) && pid in machine.procs
      requires passed && Plan(machine, machine.procs[pid], Pick(0, 0, 0, 0, true)) ==
        Move(RevokeRows(LiveSessionsOf(machine.db, user)), next)
      modifies this`sessions, this`machine
      ensures Running(start, pid, old(machine).procs[pid].req, next)
    {
      var live := set i | i in sessions && sessions[i].user == user && !sessions[i].revoked;
      assert live == LiveSessionsOf(machine.db, user);
      RevokeWhere(start, pid, Pick(0, 0, 0, 0, true), live, next);
    }

    /** UPDATE users SET token_version = token_version + 1 WHERE id = $1 */
    method IncrementVersion(ghost start: State, ghost pid: Pid, ghost pick: Pick, user: UserId, ghost next: Pc)
      requires Valid() && ReachesBy(start, machine, pid, passed) && pid in machine.procs
      requires pick.passed == passed && Plan(machine, machine.procs[pid], pick) == Move(BumpVersion(user), next)
      modifies this`users, this`machine
      ensures Running(start, pid, old(machine).procs[pid].req, next)
    {
      Extend(start, machine, pid, passed, pick, BumpVersion(user), next);
      machine := At(Perform(machine, pid, BumpVersion(user)), pid, next);
      assert machine.db == SessionStore.BumpVersion(old(machine).db, user);
      if user in users {
        users := users[user := users[user].(version := users[user].version + 1)];
      }
    }

    /** UPDATE users SET status = ..., token_version = token_version + 1 WHERE id = $1 */
    method ChangeStatus(ghost start: State, ghost pid: Pid, ghost pick: Pick, user: UserId, status: Status, ghost next: Pc)
      requires Valid() && ReachesBy(start, machine, pid, passed) && pid in machine.procs
      requires pick.passed == passed && Plan(machine, machine.procs[pid], pick) == Move(SetStatus(user, status), next)
      modifies this`users, this`machine
      ensures Running(start, pid, old(machine).procs[pid].req, next)
    {
      Extend(start, machine, pid, passed, pick, SetStatus(user, status), next);
      machine := At(Perform(machine, pid, SetStatus(user, status)), pid, next);
      assert machine.db == SessionStore.SetStatus(old(machine).db, user, status);
      if user in users {
        users := users[user := users[user].(status := status, version := users[user].version + 1)];
      }
    }

    /** The reuse branch of refreshSession, reached from a failed lookup or a failed rotation. */
    method DetectReuse(ghost start: State, ghost pid: Pid, presented: Hash) returns (outcome: Outcome)
      requires passed && Running(start, pid, Refresh(presented), CheckReuse)
      modifies this
      ensures passed && Running(start, pid, Refresh(presented), Finished(outcome))
      ensures outcome == Refused
    {
      outcome := Refused;
      Interference(start, pid, Refresh(presented), CheckReuse);
      var rows := set i | i in sessions && sessions[i].previous == Some(presented);
      assert rows == ByPrevious(machine.db, presented);
      if rows == {} {
        Observe(start, pid, Pick(0, 0, 0, 0, true), Finished(Refused));
        return;
      }
      var i :| i in rows;
      var user := sessions[i].user;
      Observe(start, pid, Pick(i, 0, 0, 0, true), RevokeFamily(user));
      Interference(start, pid, Refresh(presented), RevokeFamily(user));
      RevokeAll(start, pid, user, Bump(user));
      Interference(start, pid, Refresh(presented), Bump(user));
      IncrementVersion(start, pid, Pick(0, 0, 0, 0, true), user, Finished(Refused));
    }

    /** The rotating UPDATE, on the row it matched. */
    method RotateHash(ghost start: State, ghost pid: Pid, presented: Hash, token: Token, ttl: nat) returns (successor: Hash)
      requires passed && Running(start, pid, Refresh(presented), Rotate(token)) && CanRotate(Db(users, sessions), token.session, presented)
      modifies this`sessions, this`nextHash, this`machine
      ensures passed && Running(start, pid, Refresh(presented), Finished(Refreshed(token, successor)))
      ensures Exchanged(token, presented, successor, ttl)
    {
      successor := nextHash;
      ghost var pick := Pick(0, successor, 0, ttl, true);
      ghost var e := RotateRow(token, presented, successor, clock + ttl);
      Extend(start, machine, pid, passed, pick, e, Finished(Refreshed(token, successor)));
      machine := At(Perform(machine, pid, e), pid, Finished(Refreshed(token, successor)));
      sessions := sessions[token.session :=
        sessions[token.session].(hash := successor, previous := Some(presented), expiresAt := clock + ttl)];
      nextHash := nextHash + 1;
    }

    /** refreshSession from the lookup of the user on. */
    method SignAndRotate(ghost start: State, ghost pid: Pid, presented: Hash, i: SessionId, user: UserId, ttl: nat)
        returns (outcome: Outcome)
      requires passed && Running(start, pid, Refresh(presented), ReadUser(i, user))
      modifies this
      ensures passed && Running(start, pid, Refresh(presented), Finished(outcome))
      ensures outcome.Refused? || outcome.Refreshed?
      ensures outcome.Refreshed? ==> Exchanged(outcome.token, presented, outcome.successor, ttl)
    {
      Interference(start, pid, Refresh(presented), ReadUser(i, user));
      if user !in users || !MayHoldSession(users[user].status) {
        Observe(start, pid, Pick(i, 0, 0, 0, true), Finished(Refused));
        return Refused;
      }
      var token := Token(user, users[user].version, i);
      Signed(start, pid, Pick(i, 0, 0, 0, true), token, Rotate(token));
      Interference(start, pid, Refresh(presented), Rotate(token));
      if i in sessions && sessions[i].hash == presented && !sessions[i].revoked {
        var successor := RotateHash(start, pid, presented, token, ttl);
        return Refreshed(token, successor);
      }
      Observe(start, pid, Pick(i, 0, 0, 0, true), CheckReuse);
      outcome := DetectReuse(start, pid, presented);
    }

    method RefreshSession(ghost pid: Pid, presented: Hash, ttl: nat) returns (outcome: Outcome)
      requires Valid() && pid !in machine.procs
      modifies this
      ensures passed && Running(old(machine), pid, Refresh(presented), Finished(outcome))
      ensures outcome.Refused? || outcome.Refreshed?
      ensures outcome.Refreshed? ==> Exchanged(outcome.token, presented, outcome.successor, ttl)
    {
      ghost var start := machine;
      Receive(pid, Refresh(presented), true);
      Interference(start, pid, Refresh(presented), Start);
      var rows := set i | i in sessions && sessions[i].hash == presented;
      assert rows == ByHash(machine.db, presented);
      if rows == {} {
        Observe(start, pid, Pick(0, 0, 0, 0, true), CheckReuse);
        outcome := DetectReuse(start, pid, presented);
        return;
      }
      var i :| i in rows;
      var session := sessions[i];
      if session.revoked || session.expiresAt <= clock {
        Observe(start, pid, Pick(i, 0, 0, 0, true), Finished(Refused));
        return Refused;
      }
      Observe(start, pid, Pick(i, 0, 0, 0, true), ReadUser(i, session.user));
      outcome := SignAndRotate(start, pid, presented, i, session.user, ttl);
    }

    method DeleteSession(ghost pid: Pid, presented: Hash)
      requires Valid() && pid !in machine.procs
      modifies this
      ensures passed && Running(old(machine), pid, Logout(presented), Finished(Done))
    {
      ghost var start := machine;
      Receive(pid, Logout(presented), true);
      Interference(start, pid, Logout(presented), Start);
      var rows := set i | i in sessions && sessions[i].hash == presented && !sessions[i].revoked;
      assert rows == LiveByHash(machine.db, presented);
      if rows == {} {
        Observe(start, pid, Pick(0, 0, 0, 0, true), Finished(Done));
        return;
      }
      var i :| i in rows;
      var user := sessions[i].user;
      RevokeWhere(start, pid, Pick(i, 0, 0, 0, true), rows, Bump(user));
      Interference(start, pid, Logout(presented), Bump(user));
      IncrementVersion(start, pid, Pick(0, 0, 0, 0, true), user, Finished(Done));
    }

    method RevokeSession(ghost pid: Pid, target: UserId, chosen: Option<set<SessionId>>) returns (outcome: Outcome)
      requires Valid() && pid !in machine.procs
      modifies this
      ensures passed && Running(old(machine), pid, Revoke(target, chosen), Finished(outcome))
    {
      ghost var start := machine;
      Receive(pid, Revoke(target, chosen), true);
      Interference(start, pid, Revoke(target, chosen), Start);
      var live := set i | i in sessions && sessions[i].user == target && !sessions[i].revoked;
      var rows := if chosen.Some? then live * chosen.value else live;
      assert live == LiveSessionsOf(machine.db, target);
      if rows == {} {
        outcome := if chosen.Some? then Refused else Done;
        Observe(start, pid, Pick(0, 0, 0, 0, true), Finished(outcome));
        return;
      }
      RevokeWhere(start, pid, Pick(0, 0, 0, 0, true), rows, Bump(target));
      Interference(start, pid, Revoke(target, chosen), Bump(target));
      IncrementVersion(start, pid, Pick(0, 0, 0, 0, true), target, Finished(Done));
      outcome := Done;
    }

    /** The status check that opens deactivateAccount and activateAccount. */
    method CheckOwnStatus(ghost start: State, ghost pid: Pid, ghost req: Request, user: UserId,
                          expected: Status, next: Status, check: bool) returns (ok: bool)
      requires Running(start, pid, req, Start) && passed == check
      requires Starting(machine, req, Pick(0, 0, 0, 0, check)) == ReadingStatus(machine, user, expected, next, check)
      modifies this`machine
      ensures Running(start, pid, req, if ok then WriteStatus(next) else Finished(Refused)) && (ok ==> check)
    {
      ok := user in users && users[user].status == expected && check;
      Observe(start, pid, Pick(0, 0, 0, 0, check), if ok then WriteStatus(next) else Finished(Refused));
    }

    method DeactivateAccount(ghost pid: Pid, user: UserId) returns (outcome: Outcome)
      requires Valid() && pid !in machine.procs
      modifies this
      ensures passed && Running(old(machine), pid, Deactivate(user), Finished(outcome))
    {
      ghost var start, req := machine, Deactivate(user);
      Receive(pid, req, true);
      Interference(start, pid, req, Start);
      var ok := CheckOwnStatus(start, pid, req, user, Approved, Deactivated, true);
      if !ok { return Refused; }
      Interference(start, pid, req, WriteStatus(Deactivated));
      ChangeStatus(start, pid, Pick(0, 0, 0, 0, true), user, Deactivated, RevokeAfterStatus);
      FinishDeactivation(start, pid, user);
      outcome := Done;
    }

    method FinishDeactivation(ghost start: State, ghost pid: Pid, user: UserId)
      requires passed && Running(start, pid, Deactivate(user), RevokeAfterStatus)
      modifies this
      ensures passed && Running(start, pid, Deactivate(user), Finished(Done))
    {
      Interference(start, pid, Deactivate(user), RevokeAfterStatus);
      RevokeAll(start, pid, user, Finished(Done));
    }

    /** `pointsHere`: the PLC directory names this server and key, or does not know the DID. */
    method ActivateAccount(ghost pid: Pid, user: UserId, pointsHere: bool) returns (outcome: Outcome)
      requires Valid() && pid !in machine.procs
      modifies this
      ensures passed == pointsHere && Running(old(machine), pid, Activate(user), Finished(outcome))
      ensures !pointsHere ==> outcome == Refused
    {
      ghost var start, req := machine, Activate(user);
      Receive(pid, req, pointsHere);
      Interference(start, pid, req, Start);
      var ok := CheckOwnStatus(start, pid, req, user, Deactivated, Approved, pointsHere);
      if !ok { return Refused; }
      Interference(start, pid, req, WriteStatus(Approved));
      ChangeStatus(start, pid, Pick(0, 0, 0, 0, true), user, Approved, Finished(Done));
      outcome := Done;
    }

    /** The branch for `takedown`; `done` tells whether it has answered already. */
    method ApplyTakedown(ghost start: State, ghost pid: Pid, ghost req: Request, user: UserId,
                         takedown: Option<bool>, seen: Status, exported: bool) returns (done: bool)
      requires req.Moderate? && req.target == user && req.takedown == takedown
      requires passed && Running(start, pid, req, ModerateTakedown(seen, exported))
      modifies this
      ensures passed && Running(start, pid, req, if done then Finished(Refused) else ModerateSuspend(seen))
    {
      ghost var pick := Pick(0, 0, 0, 0, true);
      done := false;
      match takedown
      case None => Observe(start, pid, pick, ModerateSuspend(seen));
      case Some(true) =>
        if seen == TakenDown || !exported {
          Observe(start, pid, pick, Finished(Refused));
          return true;
        }
        ChangeStatus(start, pid, pick, user, TakenDown, TakedownRevoke(seen));
        Interference(start, pid, req, TakedownRevoke(seen));
        RevokeAll(start, pid, user, ModerateSuspend(seen));
      case Some(false) =>
        if seen != TakenDown {
          Observe(start, pid, pick, Finished(Refused));
          return true;
        }
        ChangeStatus(start, pid, pick, user, Approved, ModerateSuspend(seen));
    }

    /** The branch for `deactivated`, which ends the request. */
    method ApplySuspension(ghost start: State, ghost pid: Pid, ghost req: Request, user: UserId,
                           suspend: Option<bool>, seen: Status) returns (outcome: Outcome)
      requires req.Moderate? && req.target == user && req.suspend == suspend
      requires passed && Running(start, pid, req, ModerateSuspend(seen))
      modifies this
      ensures passed && Running(start, pid, req, Finished(outcome))
    {
      ghost var pick := Pick(0, 0, 0, 0, true);
      outcome := Done;
      match suspend
      case None => Observe(start, pid, pick, Finished(Done));
      case Some(true) =>
        if Blocked(seen) {
          Observe(start, pid, pick, Finished(Refused));
          return Refused;
        }
        ChangeStatus(start, pid, pick, user, Suspended, SuspendRevoke);
        Interference(start, pid, req, SuspendRevoke);
        RevokeAll(start, pid, user, Finished(Done));
      case Some(false) =>
        if seen != Suspended {
          Observe(start, pid, pick, Finished(Refused));
          return Refused;
        }
        ChangeStatus(start, pid, pick, user, Approved, Finished(Done));
    }

    /** `allowed`: the caller may moderate, and the target is no administrator. */
    method UpdateSubjectStatus(ghost pid: Pid, target: UserId, takedown: Option<bool>, suspend: Option<bool>, allowed: bool)
        returns (outcome: Outcome)
      requires Valid() && pid !in machine.procs
      modifies this
      ensures passed == allowed && Running(old(machine), pid, Moderate(target, takedown, suspend), Finished(outcome))
      ensures !allowed ==> outcome == Refused
    {
      ghost var start, req := machine, Moderate(target, takedown, suspend);
      Receive(pid, req, allowed);
      Interference(start, pid, req, Start);
      if target !in users || !allowed {
        Observe(start, pid, Pick(0, 0, 0, 0, allowed), Finished(Refused));
        return Refused;
      }
      var seen, exported := users[target].status, users[target].exported;
      Observe(start, pid, Pick(0, 0, 0, 0, allowed), ModerateTakedown(seen, exported));
      Interference(start, pid, req, ModerateTakedown(seen, exported));
      var done := ApplyTakedown(start, pid, req, target, takedown, seen, exported);
      if done { return Refused; }
      Interference(start, pid, req, ModerateSuspend(seen));
      outcome := ApplySuspension(start, pid, req, target, suspend, seen);
    }

    /** INSERT INTO sessions, after the access token was signed. */
    method InsertRow(ghost start: State, ghost pid: Pid, user: UserId, version: nat, ttl: nat) returns (outcome: Outcome)
      requires passed && Running(start, pid, Login(user), OpenSession(user, version))
      modifies this`sessions, this`nextHash, this`nextSession, this`machine
      ensures passed && Running(start, pid, Login(user), Finished(outcome))
      ensures outcome.LoggedIn? && Opened(outcome.token, outcome.refresh, user, ttl)
    {
      var token := Token(user, version, nextSession);
      ghost var pick := Pick(0, nextHash, nextSession, ttl, true);
      outcome := LoggedIn(token, nextHash);
      ghost var e := InsertSession(token, nextHash, clock + ttl);
      Extend(start, machine, pid, passed, pick, e, Finished(outcome));
      machine := At(Perform(machine, pid, e), pid, Finished(outcome));
      sessions := sessions[nextSession := Session(user, nextHash, None, clock + ttl, false)];
      nextHash, nextSession := nextHash + 1, nextSession + 1;
    }

    /** createSession from the point where the password has been checked. */
    method CreateSession(ghost pid: Pid, user: UserId, passwordOk: bool, ttl: nat) returns (outcome: Outcome)
      requires Valid() && pid !in machine.procs
      modifies this
      ensures passed == passwordOk && Running(old(machine), pid, Login(user), Finished(outcome))
      ensures outcome.Refused? || outcome.LoggedIn?
      ensures !passwordOk ==> outcome == Refused
      ensures outcome.LoggedIn? ==> Opened(outcome.token, outcome.refresh, user, ttl)
    {
      ghost var start := machine;
      Receive(pid, Login(user), passwordOk);
      Interference(start, pid, Login(user), Start);
      if user !in users || !passwordOk || !MayHoldSession(users[user].status) {
        Observe(start, pid, Pick(0, 0, 0, 0, passwordOk), Finished(Refused));
        return Refused;
      }
      var version := users[user].version;
      Observe(start, pid, Pick(0, 0, 0, 0, passwordOk), OpenSession(user, version));
      Interference(start, pid, Login(user), OpenSession(user, version));
      outcome := InsertRow(start, pid, user, version, ttl);
    }
  }

  /** So a login's answer says what its password check said: in no run that ends in a session did the check fail, and one whose check passed is refused only for its user's status. */
  lemma LoginAnswers(start: State, s: State, p: Pid, u: UserId, passed: bool, outcome: Outcome)
    requires p !in start.procs && ReachesBy(start, s, p, passed) && p in s.procs && s.procs[p] == Proc(Login(u), Finished(outcome))
    ensures outcome.LoggedIn? || outcome == Refused
    ensures outcome.LoggedIn? ==> passed
    ensures outcome == Refused && passed ==> exists es, n: nat :: (
      n <= |es| && Run(start, es) == s && !SessionAnswers.MayLogIn(Run(start, es[..n]), u))
  {
    hide Run;
    hide SessionAnswers.MayLogIn;
    var es: seq<Event> :| Run(start, es) == s && ChecksSay(es, p, passed);
    SessionAnswers.LoginRun(start, es, p, u);
    if outcome.LoggedIn? {
      var t := outcome.token;
      var k: nat :| SessionAnswers.Moves(start, es, k, p, Proc(Login(u), Start)) && es[k].pick.passed
        && SessionAnswers.MaySign(Run(start, es[..k]), Token(u, t.version, 0));
    } else {
      var k: nat :| SessionAnswers.Moves(start, es, k, p, Proc(Login(u), Start))
        && (!es[k].pick.passed || !SessionAnswers.MayLogIn(Run(start, es[..k]), u));
      assert passed ==> !SessionAnswers.MayLogIn(Run(start, es[..k]), u);
    }
  }
}
