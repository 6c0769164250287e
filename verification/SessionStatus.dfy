/**
 Requests that write the status, and with it the version, before they revoke:
 deactivation and moderation.  A token of a session they revoked is stale exactly
 when it was signed before that write, or the version has risen once more since it
 was signed; so a refresh that slips in between leaves its token good.
 */
module SessionStatus {
  import opened Wrappers
  import opened SessionStore
  import opened SessionMachine
  import opened SessionSafety
  import opened SessionReuse

  predicate StatusFirst(r: Request) { r.Deactivate? || r.Moderate? }

  /** Where a request that writes statuses stands once it has found its subject. */
  predicate Underway(pc: Pc) {
    pc.ModerateTakedown? || pc.TakedownRevoke? || pc.ModerateSuspend? || pc.SuspendRevoke? || pc.WriteStatus? || pc.RevokeAfterStatus?
  }

  /** ... and once it has written a status and owes the revocation. */
  predicate Owing(pc: Pc) { pc.TakedownRevoke? || pc.SuspendRevoke? || pc.RevokeAfterStatus? }

  // ── What every run keeps about status writes ──────────────────────

  ghost predicate SubjectsKnown(s: State) {
    && (forall p | p in s.procs && s.procs[p].pc == WriteStatus(Deactivated) :: s.procs[p].req.Deactivate?)
    && (forall p | p in s.procs && Underway(s.procs[p].pc) :: Subject(s.procs[p].req) in s.db.users)
    && (forall p | p in s.procs && Owing(s.procs[p].pc) ::
          StatusFirst(s.procs[p].req) && p in s.statusWrites && s.statusWrites[p].user == Subject(s.procs[p].req))
  }

  /** The version stored has not gone back, and what was signed earlier is below it. */
  ghost predicate WritesRaise(s: State) {
    forall p | p in s.statusWrites ::
      var w := s.statusWrites[p];
      && w.user in s.db.users && w.version <= s.db.users[w.user].version
      && (forall t | t in w.signedBefore && t.user == w.user :: t.version < w.version)
  }

  /** A refresh signs with the version it finds, so what it signs later is not below. */
  ghost predicate SignedLater(s: State, t: Token) {
    forall p | p in s.statusWrites && s.statusWrites[p].user == t.user && t !in s.statusWrites[p].signedBefore ::
      t.version >= s.statusWrites[p].version
  }

  ghost predicate LaterSigned(s: State) {
    && (forall t | t in s.returned :: SignedLater(s, t))
    && (forall q | q in s.procs && s.procs[q].pc.Rotate? :: SignedLater(s, s.procs[q].pc.token))
  }

  /** Only these requests revoke; one that wrote a status revoked its own subject's sessions. */
  ghost predicate RevokersKnown(s: State) {
    forall i | i in s.revokers && s.revokers[i] in s.procs && i in s.owners ::
      var p := s.revokers[i];
      && (RevokesFirst(s.procs[p].req) || StatusFirst(s.procs[p].req))
      && (StatusFirst(s.procs[p].req) ==>
            p in s.statusWrites && s.statusWrites[p].user == Subject(s.procs[p].req) && s.owners[i] == Subject(s.procs[p].req))
  }

  ghost predicate StatusInv(s: State) {
    SubjectsKnown(s) && WritesRaise(s) && LaterSigned(s) && RevokersKnown(s)
  }

  /** A request that goes on to write a status has found its subject, and one that owes a revocation has just written. */
  lemma PlanSubject(s: State, proc: Proc, pick: Pick)
    requires Plan(s, proc, pick).Move? && (Underway(proc.pc) ==> Subject(proc.req) in s.db.users)
    requires proc.pc == WriteStatus(Deactivated) ==> proc.req.Deactivate?
    ensures var m := Plan(s, proc, pick);
      && (m.next == WriteStatus(Deactivated) ==> proc.req.Deactivate?)
      && (Underway(m.next) ==> Subject(proc.req) in s.db.users)
      && (Owing(m.next) ==>
            StatusFirst(proc.req) && m.effect.SetStatus? && m.effect.user == Subject(proc.req) && Subject(proc.req) in s.db.users)
      && (m.effect.SetStatus? ==> m.effect.user == Subject(proc.req))
  {
  }

  lemma UsersStay(s: State, p: Pid, e: Effect)
    ensures Perform(s, p, e).db.users.Keys == s.db.users.Keys && Perform(s, p, e).procs == s.procs
    ensures forall q | q in s.statusWrites ::
      q in Perform(s, p, e).statusWrites && (q != p ==> Perform(s, p, e).statusWrites[q] == s.statusWrites[q])
    ensures e.SetStatus? && e.user in s.db.users ==> p in Perform(s, p, e).statusWrites && Perform(s, p, e).statusWrites[p].user == e.user
    ensures !e.SetStatus? ==> Perform(s, p, e).statusWrites == s.statusWrites
  {
  }

  lemma SubjectsKnownNext(s: State, e: Event)
    requires SubjectsKnown(s)
    ensures SubjectsKnown(Next(s, e))
  {
    hide Plan;
    hide Perform;
    hide Subject;
    if e.Advance? && e.pid in s.procs && Plan(s, s.procs[e.pid], e.pick).Move? {
      PlanSubject(s, s.procs[e.pid], e.pick);
      UsersStay(s, e.pid, Plan(s, s.procs[e.pid], e.pick).effect);
    }
  }

  lemma PerformWritesRaise(s: State, p: Pid, e: Effect)
    requires VersionInv(s) && WritesRaise(s)
    ensures WritesRaise(Perform(s, p, e))
  {
    PerformAdvances(s, p, e);
  }

  lemma WritesRaiseNext(s: State, e: Event)
    requires VersionInv(s) && WritesRaise(s)
    ensures WritesRaise(Next(s, e))
  {
    hide Plan;
    hide Perform;
    hide VersionInv;
    if e.Advance? && e.pid in s.procs && Plan(s, s.procs[e.pid], e.pick).Move? {
      PerformWritesRaise(s, e.pid, Plan(s, s.procs[e.pid], e.pick).effect);
    }
  }

  /** What one statement does to what is signed: a refresh signs with the version it finds, a status write looks back on all that was signed. */
  lemma SignedStep(s: State, p: Pid, proc: Proc, e: Effect, next: Pc, t: Token)
    requires VersionInv(s) && WritesRaise(s) && Fits(s, proc, e, next) && SignedLater(s, t) && t in s.minted
    ensures SignedLater(Perform(s, p, e), t)
  {
  }

  lemma SignedNow(s: State, p: Pid, proc: Proc, e: Effect, next: Pc)
    requires VersionInv(s) && WritesRaise(s) && Fits(s, proc, e, next) && next.Rotate?
    ensures SignedLater(Perform(s, p, e), next.token)
  {
  }

  lemma SameLater(s: State, t: State, token: Token)
    requires t.statusWrites == s.statusWrites
    ensures SignedLater(t, token) <==> SignedLater(s, token)
  {
  }

  lemma LaterSignedNext(s: State, e: Event)
    requires VersionInv(s) && WritesRaise(s) && LaterSigned(s)
    ensures LaterSigned(Next(s, e))
  {
    hide Plan;
    hide Perform;
    hide Fits;
    hide SignedLater;
    hide WritesRaise;
    var s' := Next(s, e);
    if e.Advance? && e.pid in s.procs && Plan(s, s.procs[e.pid], e.pick).Move? {
      var m := Plan(s, s.procs[e.pid], e.pick);
      var proc := s.procs[e.pid];
      var done := Perform(s, e.pid, m.effect);
      PlanFits(s, proc, e.pick);
      TokenCameFrom(s, proc, m.effect, m.next);
      ReturnedBy(s, e.pid, m.effect);
      forall t | t in s'.returned ensures SignedLater(s', t) {
        SignedStep(s, e.pid, proc, m.effect, m.next, t);
        SameLater(done, s', t);
      }
      forall q | q in s'.procs && s'.procs[q].pc.Rotate? ensures SignedLater(s', s'.procs[q].pc.token) {
        if q == e.pid {
          SignedNow(s, e.pid, proc, m.effect, m.next);
        } else {
          SignedStep(s, e.pid, proc, m.effect, m.next, s.procs[q].pc.token);
        }
        SameLater(done, s', s'.procs[q].pc.token);
      }
    } else {
      forall t | SignedLater(s, t) ensures SignedLater(s', t) { SameLater(s, s', t); }
    }
  }

  /** Who revokes, and whose sessions. */
  lemma PlanRevokes(s: State, proc: Proc, pick: Pick)
    requires CurrentHashes(s) && Plan(s, proc, pick).Move? && Plan(s, proc, pick).effect.RevokeRows?
    ensures RevokesFirst(proc.req) || (StatusFirst(proc.req) && Owing(proc.pc))
    ensures StatusFirst(proc.req) ==> forall i | i in Plan(s, proc, pick).effect.rows :: Owns(s, i, Subject(proc.req))
  {
  }

  lemma RevokerStep(s: State, p: Pid, e: Effect, next: Pc, i: SessionId)
    requires RevokersExact(s) && RevokersKnown(s) && SubjectsKnown(s) && p in s.procs && Fits(s, s.procs[p], e, next)
    requires e.RevokeRows? ==>
      && (RevokesFirst(s.procs[p].req) || (StatusFirst(s.procs[p].req) && Owing(s.procs[p].pc)))
      && (StatusFirst(s.procs[p].req) ==> forall j | j in e.rows :: Owns(s, j, Subject(s.procs[p].req)))
    requires e.SetStatus? ==> e.user == Subject(s.procs[p].req)
    requires i in Perform(s, p, e).revokers && Perform(s, p, e).revokers[i] in s.procs && i in Perform(s, p, e).owners
    ensures var t, q := Perform(s, p, e), Perform(s, p, e).revokers[i];
      && (RevokesFirst(s.procs[q].req) || StatusFirst(s.procs[q].req))
      && (StatusFirst(s.procs[q].req) ==>
            q in t.statusWrites && t.statusWrites[q].user == Subject(s.procs[q].req) && t.owners[i] == Subject(s.procs[q].req))
  {
    hide Subject;
    UsersStay(s, p, e);
  }

  lemma RevokersKnownNext(s: State, e: Event)
    requires CurrentHashes(s) && RevokersExact(s) && SubjectsKnown(s) && RevokersKnown(s)
    ensures RevokersKnown(Next(s, e))
  {
    hide Plan;
    hide Perform;
    hide Fits;
    hide Subject;
    hide CurrentHashes;
    hide SubjectsKnown;
    if e.Advance? && e.pid in s.procs && Plan(s, s.procs[e.pid], e.pick).Move? {
      var m := Plan(s, s.procs[e.pid], e.pick);
      PlanFits(s, s.procs[e.pid], e.pick);
      if m.effect.RevokeRows? { PlanRevokes(s, s.procs[e.pid], e.pick); }
      SubjectOf(s, e.pid, e.pick);
      UsersStay(s, e.pid, m.effect);
      var t := Perform(s, e.pid, m.effect);
      forall i | i in t.revokers && t.revokers[i] in s.procs && i in t.owners
        ensures (RevokesFirst(s.procs[t.revokers[i]].req) || StatusFirst(s.procs[t.revokers[i]].req))
        ensures StatusFirst(s.procs[t.revokers[i]].req) ==>
            t.revokers[i] in t.statusWrites && t.statusWrites[t.revokers[i]].user == Subject(s.procs[t.revokers[i]].req)
            && t.owners[i] == Subject(s.procs[t.revokers[i]].req)
      {
        RevokerStep(s, e.pid, m.effect, m.next, i);
      }
    }
  }

  lemma SubjectOf(s: State, p: Pid, pick: Pick)
    requires SubjectsKnown(s) && p in s.procs && Plan(s, s.procs[p], pick).Move?
    ensures Plan(s, s.procs[p], pick).effect.SetStatus? ==> Plan(s, s.procs[p], pick).effect.user == Subject(s.procs[p].req)
  {
    PlanSubject(s, s.procs[p], pick);
  }

  lemma {:induction false} StatusInvRun(users: map<UserId, User>, es: seq<Event>)
    ensures Inv(Run(Initial(users), es)) && StatusInv(Run(Initial(users), es))
    decreases |es|
  {
    if es != [] {
      StatusInvRun(users, es[..|es|-1]);
      var s, e := Run(Initial(users), es[..|es|-1]), es[|es|-1];
      InvNext(s, e);
      SubjectsKnownNext(s, e);
      WritesRaiseNext(s, e);
      LaterSignedNext(s, e);
      RevokersKnownNext(s, e);
    }
  }

  // ── When the tokens of a revoked session are stale ────────────────

  /** Request `p` is through, wrote a status first, and revoked session `i`. */
  ghost predicate RevokedAfterWrite(s: State, i: SessionId, p: Pid) {
    && p in s.procs && StatusFirst(s.procs[p].req) && s.procs[p].pc.Finished?
    && i in s.revokers && s.revokers[i] == p
  }

  /**
   While the version stands as the write left it, a token of such a session is stale
   exactly when it was signed before the write; one signed later is never behind it.
   */
  lemma StatusFirstTokenIsStale(users: map<UserId, User>, es: seq<Event>, t: Token, p: Pid)
    requires var s := Run(Initial(users), es); t in s.returned && RevokedAfterWrite(s, t.session, p)
    ensures var s := Run(Initial(users), es);
      && p in s.statusWrites && s.statusWrites[p].user == t.user && t.user in s.db.users
      && (s.db.users[t.user].version == s.statusWrites[p].version ==>
            (!Accepted(s.db, t) <==> t in s.statusWrites[p].signedBefore))
      && (t !in s.statusWrites[p].signedBefore ==> t.version >= s.statusWrites[p].version)
  {
    hide Run;
    StatusInvRun(users, es);
    TokenIsStale(Run(Initial(users), es), t, p);
  }

  lemma TokenIsStale(s: State, t: Token, p: Pid)
    requires Inv(s) && StatusInv(s) && t in s.returned && RevokedAfterWrite(s, t.session, p)
    ensures p in s.statusWrites && s.statusWrites[p].user == t.user && t.user in s.db.users
    ensures !Accepted(s.db, t) <==> t in s.statusWrites[p].signedBefore || t.version < s.db.users[t.user].version
    ensures s.db.users[t.user].version == s.statusWrites[p].version ==>
      (!Accepted(s.db, t) <==> t in s.statusWrites[p].signedBefore)
    ensures t !in s.statusWrites[p].signedBefore ==> t.version >= s.statusWrites[p].version
  {
    hide HashInv;
    hide Settled;
    assert Owns(s, t.session, t.user);
    assert SignedLater(s, t);
    assert NotAhead(s.db, t.user, t.version);
  }

  /** A token of `i` was signed after `p` wrote the status, with the version still stored. */
  ghost predicate SignedSince(s: State, i: SessionId, p: Pid)
    requires p in s.statusWrites
  {
    exists t :: t in s.returned && t.session == i && t !in s.statusWrites[p].signedBefore
                && t.user in s.db.users && t.version == s.db.users[t.user].version
  }

  /** So such a request leaves every token of a session it revoked stale if and only if no refresh of the session slipped in behind its write. */
  lemma StatusFirstRevokesExactly(users: map<UserId, User>, es: seq<Event>, i: SessionId, p: Pid)
    requires RevokedAfterWrite(Run(Initial(users), es), i, p)
    ensures var s := Run(Initial(users), es);
      && p in s.statusWrites
      && ((forall t | t in s.returned && t.session == i :: !Accepted(s.db, t)) <==> !SignedSince(s, i, p))
  {
    hide Run;
    StatusInvRun(users, es);
    RevokesExactly(Run(Initial(users), es), i, p);
  }

  lemma RevokesExactly(s: State, i: SessionId, p: Pid)
    requires Inv(s) && StatusInv(s) && RevokedAfterWrite(s, i, p)
    ensures p in s.statusWrites
    ensures (forall t | t in s.returned && t.session == i :: !Accepted(s.db, t)) <==> !SignedSince(s, i, p)
  {
    hide HashInv;
    hide VersionInv;
    hide Settled;
    assert i in s.owners;
    hide StatusInv;
    forall t | t in s.returned && t.session == i ensures Accepted(s.db, t) ==> t !in s.statusWrites[p].signedBefore {
      TokenIsStale(s, t, p);
    }
  }

  /** Every revoked session was revoked by one of the two kinds of request, so the two staleness theorems cover them all. */
  lemma RevokedRowHasRevoker(users: map<UserId, User>, es: seq<Event>, i: SessionId)
    requires i in Run(Initial(users), es).db.sessions
    ensures var s := Run(Initial(users), es);
      && (s.db.sessions[i].revoked <==> i in s.revokers)
      && (i in s.revokers ==>
            && s.revokers[i] in s.procs
            && var p := s.revokers[i];
               RevokesFirst(s.procs[p].req) || (StatusFirst(s.procs[p].req) && Subject(s.procs[p].req) == s.db.sessions[i].user))
  {
    hide Run;
    hide Subject;
    StatusInvRun(users, es);
  }

  // ── A refresh behind the write ────────────────────────────────────

  function AfterRefresh(s: State, q: Pid, h: Hash, t: Token, successor: Hash): State {
    var s' := Perform(Perform(s, q, Sign(t)), q, RotateRow(t, h, successor, s.clock + 1));
    s'.(procs := s.procs[q := Proc(Refresh(h), Finished(Refreshed(t, successor)))])
  }

  ghost predicate Refreshable(s: State, q: Pid, h: Hash, t: Token) {
    && q !in s.procs && CanRotate(s.db, t.session, h)
    && s.clock < s.db.sessions[t.session].expiresAt && s.db.sessions[t.session].user == t.user
    && t.user in s.db.users && MayHoldSession(s.db.users[t.user].status) && s.db.users[t.user].version == t.version
  }

  function Signed(s: State, q: Pid, h: Hash, t: Token): State {
    s.(minted := s.minted + {t}, procs := s.procs[q := Proc(Refresh(h), Rotate(t))])
  }

  lemma RefreshSigns(s: State, q: Pid, h: Hash, t: Token)
    requires Refreshable(s, q, h, t)
    ensures Reaches(s, Signed(s, q, h, t))
  {
    var pick := Pick(t.session, 0, 0, 1, true);
    ArrivalReaches(s, q, Refresh(h));
    var s1 := s.(procs := s.procs[q := Proc(Refresh(h), Start)]);
    assert t.session in ByHash(s1.db, h);
    Statement(s1, q, pick, Read, ReadUser(t.session, t.user));
    var s2 := At(s1, q, ReadUser(t.session, t.user));
    Statement(s2, q, pick, Sign(t), Rotate(t));
    var s3 := At(Perform(s2, q, Sign(t)), q, Rotate(t));
    ReachesTransitive(s, s1, s2);
    ReachesTransitive(s, s2, s3);
    assert s3 == Signed(s, q, h, t);
  }

  lemma RefreshAlone(s: State, q: Pid, h: Hash, t: Token, successor: Hash)
    requires Refreshable(s, q, h, t) && successor !in s.issued
    ensures Reaches(s, AfterRefresh(s, q, h, t, successor))
  {
    RefreshSigns(s, q, h, t);
    var s3 := Signed(s, q, h, t);
    var e := RotateRow(t, h, successor, s.clock + 1);
    Statement(s3, q, Pick(0, successor, 0, 1, true), e, Finished(Refreshed(t, successor)));
    ReachesTransitive(s, s3, At(Perform(s3, q, e), q, Finished(Refreshed(t, successor))));
    assert At(Perform(s3, q, e), q, Finished(Refreshed(t, successor))) == AfterRefresh(s, q, h, t, successor);
  }

  /** Request `p` has just written the status and stands at `pc`. */
  function Wrote(s: State, p: Pid, r: Request, u: UserId, st: Status, pc: Pc): State {
    Perform(s, p, SetStatus(u, st)).(procs := s.procs[p := Proc(r, pc)])
  }

  /** The UPDATE of the status; the state does not remember where `p` stood before. */
  lemma StatusStatement(s: State, p: Pid, r: Request, before: Pc, pick: Pick, u: UserId, st: Status, pc: Pc)
    requires var t := s.(procs := s.procs[p := Proc(r, before)]); Plan(t, Proc(r, before), pick) == Move(SetStatus(u, st), pc)
    ensures Reaches(s.(procs := s.procs[p := Proc(r, before)]), Wrote(s, p, r, u, st, pc))
  {
    hide Reaches;
    hide Plan;
    hide SessionStore.SetStatus;
    var t := s.(procs := s.procs[p := Proc(r, before)]);
    Statement(t, p, pick, SetStatus(u, st), pc);
    assert t.procs[p := Proc(r, pc)] == s.procs[p := Proc(r, pc)];
  }

  lemma Observed(s: State, p: Pid, pick: Pick, next: Pc)
    requires p in s.procs && Plan(s, s.procs[p], pick) == Move(Read, next)
    ensures Reaches(s, At(s, p, next))
  {
    Statement(s, p, pick, Read, next);
  }

  lemma DeactivationWrites(s: State, p: Pid, u: UserId)
    requires p !in s.procs && u in s.db.users && s.db.users[u].status == Approved
    ensures Reaches(s, Wrote(s, p, Deactivate(u), u, Deactivated, RevokeAfterStatus))
  {
    hide Reaches;
    hide Perform;
    var pick := Pick(0, 0, 0, 0, true);
    ArrivalReaches(s, p, Deactivate(u));
    var s1 := s.(procs := s.procs[p := Proc(Deactivate(u), Start)]);
    Observed(s1, p, pick, WriteStatus(Deactivated));
    var s2 := At(s1, p, WriteStatus(Deactivated));
    assert s2.procs == s.procs[p := Proc(Deactivate(u), WriteStatus(Deactivated))];
    StatusStatement(s, p, Deactivate(u), WriteStatus(Deactivated), pick, u, Deactivated, RevokeAfterStatus);
    ReachesTransitive(s, s1, s2);
    ReachesTransitive(s, s2, Wrote(s, p, Deactivate(u), u, Deactivated, RevokeAfterStatus));
  }

  /** A suspension, or its lifting, up to and with its UPDATE of the status. */
  lemma SuspensionWrites(s: State, p: Pid, u: UserId, suspend: bool)
    requires p !in s.procs && u in s.db.users && s.db.users[u].status == if suspend then Approved else Suspended
    ensures Reaches(s, Wrote(s, p, Moderate(u, None, Some(suspend)), u, if suspend then Suspended else Approved,
                             if suspend then SuspendRevoke else Finished(Done)))
  {
    hide Reaches;
    hide Perform;
    var pick := Pick(0, 0, 0, 0, true);
    var r, st, pc := Moderate(u, None, Some(suspend)), if suspend then Suspended else Approved,
      if suspend then SuspendRevoke else Finished(Done);
    var seen, exported := s.db.users[u].status, s.db.users[u].exported;
    ArrivalReaches(s, p, r);
    var s1 := s.(procs := s.procs[p := Proc(r, Start)]);
    Observed(s1, p, pick, ModerateTakedown(seen, exported));
    var s2 := At(s1, p, ModerateTakedown(seen, exported));
    Observed(s2, p, pick, ModerateSuspend(seen));
    var s3 := At(s2, p, ModerateSuspend(seen));
    assert s3.procs == s.procs[p := Proc(r, ModerateSuspend(seen))];
    StatusStatement(s, p, r, ModerateSuspend(seen), pick, u, st, pc);
    ReachesTransitive(s, s1, s2);
    ReachesTransitive(s, s2, s3);
    ReachesTransitive(s, s3, Wrote(s, p, r, u, st, pc));
  }

  /** `p`, of `u`, is over, it revoked session `i` after its status write, and a token of `i` is still good. */
  ghost predicate Outlived(s: State, u: UserId, i: SessionId, p: Pid) {
    && RevokedAfterWrite(s, i, p) && Subject(s.procs[p].req) == u
    && exists t :: t in s.returned && t.session == i && Accepted(s.db, t)
  }

  /** A refresh of session `i`, and then the revocation that `p` owes. */
  lemma RefreshThenRevoke(s: State, p: Pid, u: UserId, i: SessionId, h: Hash, q: Pid, successor: Hash) returns (s': State)
    requires p in s.procs && q !in s.procs && successor !in s.issued && Subject(s.procs[p].req) == u
    requires s.procs[p].pc == if s.procs[p].req.Moderate? then SuspendRevoke else RevokeAfterStatus
    requires StatusFirst(s.procs[p].req)
    requires u in s.db.users && MayHoldSession(s.db.users[u].status)
    requires CanRotate(s.db, i, h) && s.db.sessions[i].user == u && s.clock < s.db.sessions[i].expiresAt
    ensures Reaches(s, s') && Outlived(s', u, i, p)
  {
    var t := Token(u, s.db.users[u].version, i);
    RefreshAlone(s, q, h, t, successor);
    var s2 := AfterRefresh(s, q, h, t, successor);
    assert i in LiveSessionsOf(s2.db, u) && t in s2.returned && Accepted(s2.db, t);
    Statement(s2, p, Pick(0, 0, 0, 0, true), RevokeRows(LiveSessionsOf(s2.db, u)), Finished(Done));
    s' := At(Perform(s2, p, RevokeRows(LiveSessionsOf(s2.db, u))), p, Finished(Done));
    assert t in s'.returned && Accepted(s'.db, t);
    ReachesTransitive(s, s2, s');
  }

  /** From any state with an approved user and a live session: a refresh between the two statements of a deactivation. */
  lemma DeactivationLeavesTokenCurrent(s: State, u: UserId, i: SessionId, h: Hash, p: Pid, q: Pid, successor: Hash)
    requires p != q && p !in s.procs && q !in s.procs && successor !in s.issued
    requires u in s.db.users && s.db.users[u].status == Approved
    requires CanRotate(s.db, i, h) && s.db.sessions[i].user == u && s.clock < s.db.sessions[i].expiresAt
    ensures exists s' :: Reaches(s, s') && Outlived(s', u, i, p)
  {
    DeactivationWrites(s, p, u);
    var s1 := Wrote(s, p, Deactivate(u), u, Deactivated, RevokeAfterStatus);
    var s2 := RefreshThenRevoke(s1, p, u, i, h, q, successor);
    ReachesTransitive(s, s1, s2);
  }

  /** The same for moderation: the suspension's first statement, its lifting by another moderator, a refresh, its second statement. */
  lemma ModerationLeavesTokenCurrent(s: State, u: UserId, i: SessionId, h: Hash, p: Pid, lifter: Pid, q: Pid, successor: Hash)
    requires p != q && p != lifter && lifter != q && p !in s.procs && q !in s.procs && lifter !in s.procs && successor !in s.issued
    requires u in s.db.users && s.db.users[u].status == Approved
    requires CanRotate(s.db, i, h) && s.db.sessions[i].user == u && s.clock < s.db.sessions[i].expiresAt
    ensures exists s' :: Reaches(s, s') && Outlived(s', u, i, p)
  {
    SuspensionWrites(s, p, u, true);
    var s1 := Wrote(s, p, Moderate(u, None, Some(true)), u, Suspended, SuspendRevoke);
    SuspensionWrites(s1, lifter, u, false);
    var s2 := Wrote(s1, lifter, Moderate(u, None, Some(false)), u, Approved, Finished(Done));
    var s3 := RefreshThenRevoke(s2, p, u, i, h, q, successor);
    ReachesTransitive(s, s1, s2);
    ReachesTransitive(s, s2, s3);
  }
}
