/** What every interleaving of the session endpoints keeps. */
module SessionSafety {
  import opened Wrappers
  import opened SessionStore
  import opened SessionMachine

  // ── Refresh tokens ────────────────────────────────────────────────

  /** Each session has its own current hash, and it was generated here. */
  ghost predicate CurrentHashes(s: State) {
    && (forall i, j | i in s.db.sessions && j in s.db.sessions && s.db.sessions[i].hash == s.db.sessions[j].hash :: i == j)
    && (forall i | i in s.db.sessions :: s.db.sessions[i].hash in s.issued && i in s.owners)
    && (forall i | i in s.db.sessions :: s.owners[i] == s.db.sessions[i].user)
  }

  /** A hash is exchanged once, and is then no session's current hash again. */
  ghost predicate SpentHashes(s: State) {
    && (forall k | 0 <= k < |s.exchanges| :: s.exchanges[k].spent in s.issued && s.exchanges[k].successor in s.issued)
    && (forall k, i | 0 <= k < |s.exchanges| && i in s.db.sessions :: s.exchanges[k].spent != s.db.sessions[i].hash)
    && (forall k, l | 0 <= k < l < |s.exchanges| :: s.exchanges[k].spent != s.exchanges[l].spent)
    && (forall i | i in s.db.sessions && s.db.sessions[i].previous.Some? ::
          ExchangedBy(s, s.db.sessions[i].previous.value, i))
  }

  ghost predicate ExchangedBy(s: State, h: Hash, i: SessionId) {
    exists k :: 0 <= k < |s.exchanges| && s.exchanges[k].spent == h && s.exchanges[k].session == i
  }

  predicate Returned(s: State, p: Pid) {
    p in s.procs && s.procs[p].pc.Finished? && s.procs[p].pc.outcome.Refreshed?
  }

  /** A request that answered with a successor is in the log of exchanges. */
  ghost predicate Logged(s: State, p: Pid)
    requires p in s.procs
  {
    Returned(s, p) ==>
      && s.procs[p].req.Refresh?
      && exists k :: 0 <= k < |s.exchanges| && s.exchanges[k].claimant == p && s.exchanges[k].spent == s.procs[p].req.presented
  }

  ghost predicate HashInv(s: State) {
    CurrentHashes(s) && SpentHashes(s) && forall p | p in s.procs :: Logged(s, p)
  }

  /** What a planned statement says about the request that issues it. */
  ghost predicate Fits(s: State, proc: Proc, e: Effect, next: Pc) {
    && (next.OpenSession? ==>
          && e.Read? && next.user in s.db.users
          && s.db.users[next.user].version == next.version && MayHoldSession(s.db.users[next.user].status))
    && (next.Rotate? ==> e == Sign(next.token))
    && (next.Finished? && next.outcome.Refreshed? ==> e.RotateRow?)
    && match e
       case Read => true
       case Sign(t) =>
         && proc.pc == ReadUser(t.session, t.user) && t.user in s.db.users
         && s.db.users[t.user].version == t.version && MayHoldSession(s.db.users[t.user].status)
       case RevokeRows(rows) =>
         && rows <= s.db.sessions.Keys
         && (forall i | i in rows :: !s.db.sessions[i].revoked)
       case BumpVersion(u) => proc.pc == Bump(u) || proc.pc == WritePassword
       case SetStatus(u, st) => true
       case RotateRow(t, h, successor, _) =>
         && proc.pc == Rotate(t) && proc.req == Refresh(h)
         && CanRotate(s.db, t.session, h) && successor !in s.issued
         && next == Finished(Refreshed(t, successor))
       case InsertSession(t, h, _) =>
         proc.pc == OpenSession(t.user, t.version) && h !in s.issued && t.session !in s.owners
       case DropSessions(u) => true
  }

  lemma PlanFits(s: State, proc: Proc, pick: Pick)
    requires Plan(s, proc, pick).Move?
    ensures Fits(s, proc, Plan(s, proc, pick).effect, Plan(s, proc, pick).next)
  {
  }

  /** Effects that neither generate nor exchange a hash keep everything said about hashes. */
  ghost predicate KeepsHashes(s: State, s': State) {
    && s'.exchanges == s.exchanges
    && s'.issued == s.issued
    && s'.owners == s.owners
    && (forall i | i in s'.db.sessions ::
          && i in s.db.sessions
          && s'.db.sessions[i].hash == s.db.sessions[i].hash
          && s'.db.sessions[i].previous == s.db.sessions[i].previous
          && s'.db.sessions[i].user == s.db.sessions[i].user)
  }

  lemma KeepsTableInv(s: State, s': State)
    requires CurrentHashes(s) && SpentHashes(s) && KeepsHashes(s, s')
    ensures CurrentHashes(s') && SpentHashes(s')
  {
    forall i | i in s'.db.sessions && s'.db.sessions[i].previous.Some?
      ensures ExchangedBy(s', s'.db.sessions[i].previous.value, i)
    {
      assert ExchangedBy(s, s.db.sessions[i].previous.value, i);
    }
  }

  /** The log only grows, so what it shows it keeps showing. */
  lemma LogGrows(s: State, s': State, h: Hash, i: SessionId)
    requires s.exchanges <= s'.exchanges && ExchangedBy(s, h, i)
    ensures ExchangedBy(s', h, i)
  {
    var k :| 0 <= k < |s.exchanges| && s.exchanges[k].spent == h && s.exchanges[k].session == i;
    assert s'.exchanges[k] == s.exchanges[k];
  }

  lemma RotateTableInv(s: State, p: Pid, token: Token, h: Hash, successor: Hash, expiresAt: int)
    requires CurrentHashes(s) && SpentHashes(s) && CanRotate(s.db, token.session, h) && successor !in s.issued
    ensures CurrentHashes(Perform(s, p, RotateRow(token, h, successor, expiresAt)))
    ensures SpentHashes(Perform(s, p, RotateRow(token, h, successor, expiresAt)))
  {
    var s' := Perform(s, p, RotateRow(token, h, successor, expiresAt));
    assert s'.exchanges[|s.exchanges|] == Exchange(h, successor, token.session, p);
    forall i | i in s'.db.sessions && s'.db.sessions[i].previous.Some?
      ensures ExchangedBy(s', s'.db.sessions[i].previous.value, i)
    {
      if i != token.session { LogGrows(s, s', s.db.sessions[i].previous.value, i); }
    }
  }

  lemma InsertTableInv(s: State, p: Pid, token: Token, h: Hash, expiresAt: int)
    requires CurrentHashes(s) && SpentHashes(s) && h !in s.issued && token.session !in s.owners
    ensures CurrentHashes(Perform(s, p, InsertSession(token, h, expiresAt)))
    ensures SpentHashes(Perform(s, p, InsertSession(token, h, expiresAt)))
  {
    var s' := Perform(s, p, InsertSession(token, h, expiresAt));
    forall i | i in s'.db.sessions && s'.db.sessions[i].previous.Some?
      ensures ExchangedBy(s', s'.db.sessions[i].previous.value, i)
    {
      LogGrows(s, s', s.db.sessions[i].previous.value, i);
    }
  }

  lemma PerformTableInv(s: State, p: Pid, proc: Proc, e: Effect, next: Pc)
    requires CurrentHashes(s) && SpentHashes(s) && Fits(s, proc, e, next)
    ensures CurrentHashes(Perform(s, p, e)) && SpentHashes(Perform(s, p, e))
  {
    match e
    case RotateRow(t, h, successor, expiresAt) => RotateTableInv(s, p, t, h, successor, expiresAt);
    case InsertSession(t, h, expiresAt) => InsertTableInv(s, p, t, h, expiresAt);
    case _ => KeepsTableInv(s, Perform(s, p, e));
  }

  /** Only the request that claimed an exchange can answer with its successor. */
  lemma StepLogged(s: State, p: Pid, pick: Pick, q: Pid)
    requires p in s.procs && q in s.procs && forall r | r in s.procs :: Logged(s, r)
    ensures Logged(Step(s, p, pick), q)
  {
    var s' := Step(s, p, pick);
    if Plan(s, s.procs[p], pick).Move? {
      PlanFits(s, s.procs[p], pick);
      assert s.exchanges <= s'.exchanges;
      assert Logged(s, q);
      if q == p && Plan(s, s.procs[p], pick).effect.RotateRow? {
        assert s'.exchanges[|s.exchanges|].claimant == p;
      } else if Returned(s, q) {
        var k :| 0 <= k < |s.exchanges| && s.exchanges[k].claimant == q && s.exchanges[k].spent == s.procs[q].req.presented;
        assert s'.exchanges[k] == s.exchanges[k];
      }
    }
  }

  lemma HashInvNext(s: State, e: Event)
    requires HashInv(s)
    ensures HashInv(Next(s, e))
  {
    var s' := Next(s, e);
    match e
    case Advance(p, pick) =>
      if p in s.procs && Plan(s, s.procs[p], pick).Move? {
        var m := Plan(s, s.procs[p], pick);
        PlanFits(s, s.procs[p], pick);
        PerformTableInv(s, p, s.procs[p], m.effect, m.next);
        KeepsTableInv(Perform(s, p, m.effect), s');
        forall q | q in s'.procs ensures Logged(s', q) { StepLogged(s, p, pick, q); }
      }
    case Arrive(p, _) =>
      KeepsTableInv(s, s');
      forall q | q in s'.procs ensures Logged(s', q) { if q in s.procs { assert Logged(s, q); } }
    case Tick(_) =>
      KeepsTableInv(s, s');
      forall q | q in s'.procs ensures Logged(s', q) { assert Logged(s, q); }
    case Purge =>
      KeepsTableInv(s, s');
      forall q | q in s'.procs ensures Logged(s', q) { assert Logged(s, q); }
  }

  // ── Token versions ────────────────────────────────────────────────

  /** A version read for `u` is not ahead, and is behind while `u` is blocked. */
  ghost predicate NotAhead(db: Db, u: UserId, version: nat) {
    && u in db.users
    && version <= db.users[u].version
    && (Blocked(db.users[u].status) ==> version < db.users[u].version)
  }

  ghost predicate VersionInv(s: State) {
    && (forall t | t in s.minted :: NotAhead(s.db, t.user, t.version))
    && s.returned <= s.minted
    && (forall p | p in s.procs :: s.procs[p].pc.Rotate? ==> s.procs[p].pc.token in s.minted)
    && (forall p | p in s.procs :: s.procs[p].pc.OpenSession? ==>
          NotAhead(s.db, s.procs[p].pc.user, s.procs[p].pc.version))
  }

  /** No statement lowers a version, and none blocks an account without raising it. */
  ghost predicate UsersAdvance(db: Db, db': Db) {
    forall u | u in db.users ::
      && u in db'.users
      && db.users[u].version <= db'.users[u].version
      && (Blocked(db'.users[u].status) ==>
            Blocked(db.users[u].status) || db.users[u].version < db'.users[u].version)
  }

  lemma PerformAdvances(s: State, p: Pid, e: Effect)
    ensures UsersAdvance(s.db, Perform(s, p, e).db)
  {
  }

  lemma VersionStep(s: State, p: Pid, e: Effect, next: Pc)
    requires VersionInv(s) && p in s.procs && Fits(s, s.procs[p], e, next)
    ensures VersionInv(Perform(s, p, e).(procs := s.procs[p := s.procs[p].(pc := next)]))
  {
    PerformAdvances(s, p, e);
    assert Perform(s, p, e).minted >= s.minted;
  }

  lemma VersionInvNext(s: State, e: Event)
    requires VersionInv(s)
    ensures VersionInv(Next(s, e)) && UsersAdvance(s.db, Next(s, e).db)
  {
    hide Plan;
    hide Perform;
    hide Fits;
    if e.Advance? && e.pid in s.procs && Plan(s, s.procs[e.pid], e.pick).Move? {
      var m := Plan(s, s.procs[e.pid], e.pick);
      PlanFits(s, s.procs[e.pid], e.pick);
      PerformAdvances(s, e.pid, m.effect);
      VersionStep(s, e.pid, m.effect, m.next);
      ProcsKept(s, e.pid, m.effect);
    }
  }

  lemma ProcsKept(s: State, p: Pid, e: Effect)
    ensures Perform(s, p, e).procs == s.procs
  {
  }

  // ── Revoke first, bump second ─────────────────────────────────────

  /** Requests that revoke sessions and only then raise the version. */
  predicate RevokesFirst(r: Request) { r.Refresh? || r.Logout? || r.Revoke? }

  /** A session was inserted for this user. */
  ghost predicate Owns(s: State, i: SessionId, u: UserId) {
    i in s.owners && s.owners[i] == u
  }

  /** Who owns the sessions a request is about. */
  ghost predicate OwnersKnown(s: State) {
    && (forall t | t in s.returned :: Owns(s, t.session, t.user))
    && (forall p | p in s.procs && s.procs[p].pc.ReadUser? :: Owns(s, s.procs[p].pc.session, s.procs[p].pc.user))
    && (forall p | p in s.procs && s.procs[p].pc.Rotate? ::
          Owns(s, s.procs[p].pc.token.session, s.procs[p].pc.token.user))
  }

  /** Every revoked session has exactly one revoker, and no live session has one. */
  ghost predicate RevokersExact(s: State) {
    && (forall i | i in s.db.sessions :: s.db.sessions[i].revoked <==> i in s.revokers)
    && (forall i | i in s.revokers :: i in s.owners && s.revokers[i] in s.procs)
  }

  /** The revoker of `i` still owes a bump, or every token of `i` is behind. */
  ghost predicate Settled(s: State, i: SessionId)
    requires i in s.revokers && i in s.owners && s.revokers[i] in s.procs
  {
    RevokesFirst(s.procs[s.revokers[i]].req) ==>
      || s.procs[s.revokers[i]].pc == Bump(s.owners[i])
      || forall t | t in s.returned && t.session == i ::
           t.user in s.db.users && t.version < s.db.users[t.user].version
  }

  ghost predicate RevokerInv(s: State) {
    OwnersKnown(s) && RevokersExact(s) && forall i | i in s.revokers :: Settled(s, i)
  }

  /** A revoke-first request revokes sessions of one user and then owes that user a bump. */
  lemma RevokeFirstOwesBump(s: State, proc: Proc, pick: Pick)
    requires CurrentHashes(s) && RevokesFirst(proc.req)
    requires Plan(s, proc, pick).Move? && Plan(s, proc, pick).effect.RevokeRows?
    ensures Plan(s, proc, pick).next.Bump? && !proc.pc.Bump?
    ensures forall i | i in Plan(s, proc, pick).effect.rows :: i in s.owners && s.owners[i] == Plan(s, proc, pick).next.user
  {
  }

  lemma OwnersOnlyGrow(s: State, p: Pid, proc: Proc, e: Effect, next: Pc)
    requires Fits(s, proc, e, next)
    ensures forall i, u, procs | Owns(s, i, u) :: Owns(Perform(s, p, e).(procs := procs), i, u)
  {
  }

  lemma ReadUserOwned(s: State, proc: Proc, pick: Pick)
    requires CurrentHashes(s) && Plan(s, proc, pick).Move? && Plan(s, proc, pick).next.ReadUser?
    ensures Owns(s, Plan(s, proc, pick).next.session, Plan(s, proc, pick).next.user)
  {
  }

  lemma OwnersKnownNext(s: State, e: Event)
    requires CurrentHashes(s) && OwnersKnown(s)
    ensures OwnersKnown(Next(s, e))
  {
    if e.Advance? && e.pid in s.procs && Plan(s, s.procs[e.pid], e.pick).Move? {
      var m := Plan(s, s.procs[e.pid], e.pick);
      PlanFits(s, s.procs[e.pid], e.pick);
      if m.next.ReadUser? { ReadUserOwned(s, s.procs[e.pid], e.pick); }
      OwnersStep(s, e.pid, m.effect, m.next);
    }
  }

  lemma ReturnedBy(s: State, p: Pid, e: Effect)
    requires e.RotateRow? ==> e.token.session in s.db.sessions
    ensures Perform(s, p, e).returned == s.returned + (if e.RotateRow? then {e.token} else {})
    ensures Perform(s, p, e).procs == s.procs
  {
  }

  lemma TokenCameFrom(s: State, proc: Proc, e: Effect, next: Pc)
    requires Fits(s, proc, e, next)
    ensures next.Rotate? ==> proc.pc == ReadUser(next.token.session, next.token.user)
    ensures e.RotateRow? ==> proc.pc == Rotate(e.token) && e.token.session in s.db.sessions
  {
  }

  lemma OwnersStep(s: State, p: Pid, e: Effect, next: Pc)
    requires CurrentHashes(s) && OwnersKnown(s) && p in s.procs && Fits(s, s.procs[p], e, next)
    requires next.ReadUser? ==> Owns(s, next.session, next.user)
    ensures OwnersKnown(Perform(s, p, e).(procs := s.procs[p := s.procs[p].(pc := next)]))
  {
    hide Perform;
    hide Fits;
    hide CurrentHashes;
    TokenCameFrom(s, s.procs[p], e, next);
    OwnersOnlyGrow(s, p, s.procs[p], e, next);
    ReturnedBy(s, p, e);
    hide Owns;
  }

  lemma RevokersExactNext(s: State, e: Event)
    requires CurrentHashes(s) && RevokersExact(s)
    ensures RevokersExact(Next(s, e))
  {
    if e.Advance? && e.pid in s.procs && Plan(s, s.procs[e.pid], e.pick).Move? {
      PlanFits(s, s.procs[e.pid], e.pick);
    }
  }

  /** A session whose revoker was already known. */
  lemma SettledKept(s: State, p: Pid, pick: Pick, i: SessionId)
    requires CurrentHashes(s) && VersionInv(s) && OwnersKnown(s) && RevokersExact(s)
    requires i in s.revokers && Settled(s, i) && p in s.procs
    requires Plan(s, s.procs[p], pick).Move? && RevokersExact(Step(s, p, pick))
    ensures Settled(Step(s, p, pick), i)
  {
    var m := Plan(s, s.procs[p], pick);
    var s' := Step(s, p, pick);
    PlanFits(s, s.procs[p], pick);
    PerformAdvances(s, p, m.effect);
    assert s'.revokers[i] == s.revokers[i];
    assert forall t | t in s'.returned && t.session == i :: t in s.returned;
    assert s'.owners[i] == s.owners[i];
    if s.procs[s.revokers[i]].pc == Bump(s.owners[i]) && s.revokers[i] == p {
      assert m.effect == BumpVersion(s.owners[i]);
    }
  }

  /** A session revoked by this very statement. */
  lemma SettledNew(s: State, p: Pid, pick: Pick, i: SessionId)
    requires CurrentHashes(s) && p in s.procs && i !in s.revokers
    requires Plan(s, s.procs[p], pick).Move? && i in Step(s, p, pick).revokers && RevokersExact(Step(s, p, pick))
    ensures Settled(Step(s, p, pick), i)
  {
    var m := Plan(s, s.procs[p], pick);
    assert m.effect.RevokeRows?;
    if RevokesFirst(s.procs[p].req) { RevokeFirstOwesBump(s, s.procs[p], pick); }
  }

  lemma SettledNext(s: State, e: Event, i: SessionId)
    requires CurrentHashes(s) && VersionInv(s) && RevokerInv(s)
    requires i in Next(s, e).revokers && RevokersExact(Next(s, e))
    ensures Settled(Next(s, e), i)
  {
    if i in s.revokers { assert Settled(s, i); }
    if e.Advance? && e.pid in s.procs && Plan(s, s.procs[e.pid], e.pick).Move? {
      if i in s.revokers { SettledKept(s, e.pid, e.pick, i); } else { SettledNew(s, e.pid, e.pick, i); }
    }
  }

  // ── Every run ─────────────────────────────────────────────────────

  ghost predicate Inv(s: State) {
    HashInv(s) && VersionInv(s) && RevokerInv(s)
  }

  lemma InvNext(s: State, e: Event)
    requires Inv(s)
    ensures Inv(Next(s, e))
  {
    HashInvNext(s, e);
    VersionInvNext(s, e);
    OwnersKnownNext(s, e);
    RevokersExactNext(s, e);
    forall i | i in Next(s, e).revokers ensures Settled(Next(s, e), i) { SettledNext(s, e, i); }
  }

  lemma {:induction false} InvRun(s: State, es: seq<Event>)
    requires Inv(s)
    ensures Inv(Run(s, es))
    decreases |es|
  {
    if es != [] {
      InvRun(s, es[..|es|-1]);
      InvNext(Run(s, es[..|es|-1]), es[|es|-1]);
    }
  }

  /** Two requests never both answer with a successor of the same refresh token. */
  lemma ExchangedAtMostOnce(users: map<UserId, User>, es: seq<Event>, p: Pid, q: Pid)
    requires Returned(Run(Initial(users), es), p) && Returned(Run(Initial(users), es), q)
    requires Run(Initial(users), es).procs[p].req == Run(Initial(users), es).procs[q].req
    ensures p == q
  {
    InvRun(Initial(users), es);
    var s := Run(Initial(users), es);
    assert Logged(s, p) && Logged(s, q);
  }

  /** Current hashes are distinct. */
  lemma HashesStayDistinct(users: map<UserId, User>, es: seq<Event>)
    ensures CurrentHashes(Run(Initial(users), es))
  {
    InvRun(Initial(users), es);
  }

  /** An exchanged hash is current nowhere. */
  lemma SpentHashesStayRetired(users: map<UserId, User>, es: seq<Event>, h: Hash, i: SessionId)
    requires exists k :: 0 <= k < |Run(Initial(users), es).exchanges| && Run(Initial(users), es).exchanges[k].spent == h
    ensures var db := Run(Initial(users), es).db; i in db.sessions ==> db.sessions[i].hash != h
  {
    InvRun(Initial(users), es);
  }

  /** While an account is blocked no token ever signed for it is accepted. */
  lemma BlockedAccountHoldsNoToken(users: map<UserId, User>, es: seq<Event>, t: Token)
    requires t in Run(Initial(users), es).minted && t.user in Run(Initial(users), es).db.users
    requires Blocked(Run(Initial(users), es).db.users[t.user].status)
    ensures !Accepted(Run(Initial(users), es).db, t)
  {
    InvRun(Initial(users), es);
  }

  /** Once a revoke-first request is through, no token of a session it revoked is accepted. */
  lemma RevokedSessionTokensAreStale(users: map<UserId, User>, es: seq<Event>, t: Token)
    requires t in Run(Initial(users), es).returned
    requires t.session in Run(Initial(users), es).revokers
    requires var s := Run(Initial(users), es); var p := s.revokers[t.session];
      p in s.procs && RevokesFirst(s.procs[p].req) && s.procs[p].pc.Finished?
    ensures var s := Run(Initial(users), es);
      t.user in s.db.users && t.version < s.db.users[t.user].version && !Accepted(s.db, t)
  {
    InvRun(Initial(users), es);
    assert Settled(Run(Initial(users), es), t.session);
  }
}
