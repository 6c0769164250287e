/**
 What an answer of a session endpoint means, read off the tables: a refresh that was
 answered with a successor found a live session, a login that was answered with a
 session had passed its check, and each statement changes what its endpoint says and
 nothing else.
 */
module SessionAnswers {
  import opened Wrappers
  import opened SessionStore
  import opened SessionMachine
  import opened SessionSafety
  import opened SessionReuse

  // ── Points of a run ───────────────────────────────────────────────

  /** Request `p` makes its next statement at step `k`. */
  ghost predicate Moves(s: State, es: seq<Event>, k: nat, p: Pid, proc: Proc) {
    && k < |es| && es[k].Advance? && es[k].pid == p
    && p in Run(s, es[..k]).procs && Run(s, es[..k]).procs[p] == proc
  }

  lemma MovesEarlier(s: State, es: seq<Event>, e: Event, k: nat, p: Pid, proc: Proc)
    requires Moves(s, es, k, p, proc)
    ensures Moves(s, es + [e], k, p, proc) && (es + [e])[..k] == es[..k]
  {
    assert (es + [e])[..k] == es[..k];
  }

  // ── refreshSession ────────────────────────────────────────────────

  predicate LiveRow(s: State, i: SessionId, h: Hash, u: UserId) {
    && i in s.db.sessions && s.db.sessions[i].hash == h && s.db.sessions[i].user == u
    && !s.db.sessions[i].revoked && s.clock < s.db.sessions[i].expiresAt
  }

  /** At its lookup the request found its hash on this session, unrevoked and unexpired. */
  ghost predicate Found(s: State, es: seq<Event>, p: Pid, h: Hash, i: SessionId, u: UserId) {
    exists k: nat :: Moves(s, es, k, p, Proc(Refresh(h), Start)) && LiveRow(Run(s, es[..k]), i, h, u)
  }

  predicate MaySign(s: State, t: Token) {
    && t.user in s.db.users && s.db.users[t.user].version == t.version
    && (s.db.users[t.user].status == Approved || s.db.users[t.user].status == Deactivated)
  }

  /** When it signed, the user was approved or deactivated, and stood at this version. */
  ghost predicate Vouched(s: State, es: seq<Event>, p: Pid, h: Hash, t: Token) {
    exists k: nat :: Moves(s, es, k, p, Proc(Refresh(h), ReadUser(t.session, t.user))) && MaySign(Run(s, es[..k]), t)
  }

  predicate Rotates(s: State, s': State, t: Token, h: Hash, successor: Hash, ttl: nat) {
    && t.session in s.db.sessions && s.db.sessions[t.session].hash == h && !s.db.sessions[t.session].revoked
    && s'.db.users == s.db.users
    && s'.db.sessions == s.db.sessions[t.session :=
         Session(s.db.sessions[t.session].user, successor, Some(h), s.clock + ttl, false)]
  }

  /** When it exchanged the hash, the session still had it and was unrevoked, and now has the successor and a new end. */
  ghost predicate Exchanged(s: State, es: seq<Event>, p: Pid, h: Hash, t: Token, successor: Hash) {
    exists k: nat :: (
      && Moves(s, es, k, p, Proc(Refresh(h), Rotate(t)))
      && Rotates(Run(s, es[..k]), Next(Run(s, es[..k]), es[k]), t, h, successor, es[k].pick.ttl))
  }

  lemma FoundEarlier(s: State, es: seq<Event>, e: Event, p: Pid, h: Hash, i: SessionId, u: UserId)
    requires Found(s, es, p, h, i, u)
    ensures Found(s, es + [e], p, h, i, u)
  {
    hide Run;
    var k: nat :| Moves(s, es, k, p, Proc(Refresh(h), Start)) && LiveRow(Run(s, es[..k]), i, h, u);
    MovesEarlier(s, es, e, k, p, Proc(Refresh(h), Start));
  }

  lemma VouchedEarlier(s: State, es: seq<Event>, e: Event, p: Pid, h: Hash, t: Token)
    requires Vouched(s, es, p, h, t)
    ensures Vouched(s, es + [e], p, h, t)
  {
    hide Run;
    var k: nat :| Moves(s, es, k, p, Proc(Refresh(h), ReadUser(t.session, t.user))) && MaySign(Run(s, es[..k]), t);
    MovesEarlier(s, es, e, k, p, Proc(Refresh(h), ReadUser(t.session, t.user)));
  }

  lemma ExchangedEarlier(s: State, es: seq<Event>, e: Event, p: Pid, h: Hash, t: Token, successor: Hash)
    requires Exchanged(s, es, p, h, t, successor)
    ensures Exchanged(s, es + [e], p, h, t, successor)
  {
    hide Run;
    hide Rotates;
    hide Next;
    var k: nat :| Moves(s, es, k, p, Proc(Refresh(h), Rotate(t)))
      && Rotates(Run(s, es[..k]), Next(Run(s, es[..k]), es[k]), t, h, successor, es[k].pick.ttl);
    MovesEarlier(s, es, e, k, p, Proc(Refresh(h), Rotate(t)));
    assert (es + [e])[k] == es[k];
  }

  predicate OfRefresh(pc: Pc) {
    pc.Start? || pc.CheckReuse? || pc.RevokeFamily? || pc.Bump? || pc.ReadUser? || pc.Rotate? || pc.Finished?
  }

  /** What the place of a refresh tells about its past. */
  ghost predicate PlaceTells(s: State, es: seq<Event>, p: Pid, h: Hash, pc: Pc) {
    && OfRefresh(pc)
    && (pc.ReadUser? ==> Found(s, es, p, h, pc.session, pc.user))
    && (pc.Rotate? ==> Found(s, es, p, h, pc.token.session, pc.token.user) && Vouched(s, es, p, h, pc.token))
    && (pc.Finished? && pc.outcome.Refreshed? ==>
          && Found(s, es, p, h, pc.outcome.token.session, pc.outcome.token.user)
          && Vouched(s, es, p, h, pc.outcome.token)
          && Exchanged(s, es, p, h, pc.outcome.token, pc.outcome.successor))
    && (pc.Finished? ==> pc.outcome.Refused? || pc.outcome.Refreshed?)
  }

  lemma PlaceEarlier(s: State, es: seq<Event>, e: Event, p: Pid, h: Hash, pc: Pc)
    requires PlaceTells(s, es, p, h, pc)
    ensures PlaceTells(s, es + [e], p, h, pc)
  {
    hide Found;
    hide Vouched;
    hide Exchanged;
    if pc.ReadUser? { FoundEarlier(s, es, e, p, h, pc.session, pc.user); }
    if pc.Rotate? {
      FoundEarlier(s, es, e, p, h, pc.token.session, pc.token.user);
      VouchedEarlier(s, es, e, p, h, pc.token);
    }
    if pc.Finished? && pc.outcome.Refreshed? {
      FoundEarlier(s, es, e, p, h, pc.outcome.token.session, pc.outcome.token.user);
      VouchedEarlier(s, es, e, p, h, pc.outcome.token);
      ExchangedEarlier(s, es, e, p, h, pc.outcome.token, pc.outcome.successor);
    }
  }

  /** One statement of a refresh, in terms of the tables. */
  lemma RefreshStatement(s: State, p: Pid, h: Hash, pick: Pick)
    requires p in s.procs && s.procs[p].req == Refresh(h) && OfRefresh(s.procs[p].pc)
    ensures var s' := Next(s, Advance(p, pick));
      var (pc, pc') := (s.procs[p].pc, s'.procs[p].pc);
      && s'.procs[p].req == Refresh(h) && OfRefresh(pc')
      && (pc' == pc || !pc'.ReadUser? || (pc == Start && LiveRow(s, pc'.session, h, pc'.user)))
      && (pc' == pc || !pc'.Rotate? || (pc == ReadUser(pc'.token.session, pc'.token.user) && MaySign(s, pc'.token)))
      && (pc' == pc || !pc'.Finished? || !pc'.outcome.Refreshed?
          || (pc == Rotate(pc'.outcome.token) && Rotates(s, s', pc'.outcome.token, h, pc'.outcome.successor, pick.ttl)))
      && (pc' == pc || !pc'.Finished? || pc'.outcome.Refused? || pc'.outcome.Refreshed?)
      && (pc' != Start || pc == Start)
  {
  }

  lemma OthersStay(s: State, e: Event, p: Pid)
    requires p in s.procs && !(e.Advance? && e.pid == p)
    ensures p in Next(s, e).procs && Next(s, e).procs[p] == s.procs[p]
  {
  }

  lemma RunSnoc(s: State, es: seq<Event>)
    requires es != []
    ensures es[..|es|-1] + [es[|es|-1]] == es && Run(s, es) == Next(Run(s, es[..|es|-1]), es[|es|-1])
  {
    hide Next;
  }

  lemma PlaceNext(s: State, es: seq<Event>, p: Pid, h: Hash)
    requires es != []
    requires var s1, e := Run(s, es[..|es|-1]), es[|es|-1];
      p in s1.procs && s1.procs[p].req == Refresh(h) && PlaceTells(s, es[..|es|-1], p, h, s1.procs[p].pc)
    ensures p in Run(s, es).procs && Run(s, es).procs[p].req == Refresh(h) && PlaceTells(s, es, p, h, Run(s, es).procs[p].pc)
  {
    hide Run;
    hide Next;
    hide LiveRow;
    hide MaySign;
    hide Rotates;
    RunSnoc(s, es);
    var before, e := es[..|es|-1], es[|es|-1];
    var s1 := Run(s, before);
    PlaceEarlier(s, before, e, p, h, s1.procs[p].pc);
    if e.Advance? && e.pid == p {
      RefreshStatement(s1, p, h, e.pick);
      assert e == Advance(p, e.pick);
      assert Moves(s, es, |before|, p, s1.procs[p]) by { assert es[..|before|] == before; }
      StillThere(s1, e, p);
    } else {
      OthersStay(s1, e, p);
    }
  }

  lemma StillThere(s: State, e: Event, p: Pid)
    requires p in s.procs
    ensures p in Next(s, e).procs
  {
  }

  lemma {:induction false} PlaceRun(s: State, es: seq<Event>, p: Pid, h: Hash)
    requires p !in s.procs
    ensures p in Run(s, es).procs && Run(s, es).procs[p].req == Refresh(h) ==> PlaceTells(s, es, p, h, Run(s, es).procs[p].pc)
    decreases |es|
  {
    hide Run;
    hide Next;
    hide PlaceTells;
    if es == [] {
      NothingRun(s);
    } else {
      RunSnoc(s, es);
      var s1 := Run(s, es[..|es|-1]);
      PlaceRun(s, es[..|es|-1], p, h);
      if p in s1.procs {
        ReqStays(s1, es[|es|-1], p);
        if s1.procs[p].req == Refresh(h) { PlaceNext(s, es, p, h); }
      } else {
        Arrives(s1, es[|es|-1], p);
        StartTells(s, es, p, h);
      }
    }
  }

  lemma NothingRun(s: State)
    ensures Run(s, []) == s
  {
  }

  lemma StartTells(s: State, es: seq<Event>, p: Pid, h: Hash)
    ensures PlaceTells(s, es, p, h, Start)
  {
  }

  lemma ReqStays(s: State, e: Event, p: Pid)
    requires p in s.procs
    ensures p in Next(s, e).procs && Next(s, e).procs[p].req == s.procs[p].req
  {
  }

  lemma Arrives(s: State, e: Event, p: Pid)
    requires p !in s.procs
    ensures p in Next(s, e).procs ==> Next(s, e).procs[p].pc == Start && e == Arrive(p, Next(s, e).procs[p].req)
  {
  }

  /**
   A refresh is answered with a successor only if at its lookup it found the presented
   hash on an unrevoked, unexpired session; at its signing the session's user could hold
   one and stood at the version signed; and at its exchange the session was unrevoked
   with that hash, and got the successor.
   */
  lemma RefreshedWasLive(s: State, es: seq<Event>, p: Pid, h: Hash, t: Token, successor: Hash)
    requires p !in s.procs && p in Run(s, es).procs && Run(s, es).procs[p] == Proc(Refresh(h), Finished(Refreshed(t, successor)))
    ensures Found(s, es, p, h, t.session, t.user) && Vouched(s, es, p, h, t) && Exchanged(s, es, p, h, t, successor)
  {
    PlaceRun(s, es, p, h);
  }

  /** An expired or revoked session's token is refused at its lookup, and nothing changes; the answer stands whatever runs after. */
  lemma ExpiredIsRefused(s: State, p: Pid, h: Hash, pick: Pick)
    requires p in s.procs && s.procs[p] == Proc(Refresh(h), Start)
    requires pick.row in s.db.sessions && s.db.sessions[pick.row].hash == h
    requires s.db.sessions[pick.row].revoked || s.db.sessions[pick.row].expiresAt <= s.clock
    ensures var t := Next(s, Advance(p, pick));
      t.procs[p].pc == Finished(Refused) && t.db == s.db && t.returned == s.returned && t.minted == s.minted
  {
    assert pick.row in ByHash(s.db, h);
  }

  /** A token no session has or had is refused in two lookups. */
  lemma UnknownIsRefused(s: State, p: Pid, h: Hash, pick: Pick)
    requires p in s.procs && s.procs[p].req == Refresh(h)
    requires forall i | i in s.db.sessions :: s.db.sessions[i].hash != h && s.db.sessions[i].previous != Some(h)
    ensures s.procs[p].pc == Start ==> Next(s, Advance(p, pick)).procs[p].pc == CheckReuse && Next(s, Advance(p, pick)).db == s.db
    ensures s.procs[p].pc == CheckReuse ==> Next(s, Advance(p, pick)).procs[p].pc == Finished(Refused) && Next(s, Advance(p, pick)).db == s.db
  {
    assert ByHash(s.db, h) == {} && ByPrevious(s.db, h) == {};
  }

  lemma {:induction false} AnswerStands(s: State, es: seq<Event>, p: Pid)
    requires p in s.procs && s.procs[p].pc.Finished?
    ensures p in Run(s, es).procs && Run(s, es).procs[p] == s.procs[p]
    decreases |es|
  {
    hide Next;
    if es != [] {
      AnswerStands(s, es[..|es|-1], p);
      FinishedStays(Run(s, es[..|es|-1]), es[|es|-1], p);
    }
  }

  lemma FinishedStays(s: State, e: Event, p: Pid)
    requires p in s.procs && s.procs[p].pc.Finished?
    ensures p in Next(s, e).procs && Next(s, e).procs[p] == s.procs[p]
  {
  }

  lemma ClockStep(s: State, e: Event)
    ensures Next(s, e).clock == s.clock + if e.Tick? then e.ms else 0
    ensures e.Tick? ==> Next(s, e) == s.(clock := s.clock + e.ms)
  {
  }

  /** Time advances with ticks only, and never back: a session past its end stays past it. */
  lemma {:induction false} ClockAdvances(s: State, es: seq<Event>)
    ensures Run(s, es).clock >= s.clock
    decreases |es|
  {
    hide Next;
    if es != [] {
      ClockAdvances(s, es[..|es|-1]);
      ClockStep(Run(s, es[..|es|-1]), es[|es|-1]);
    }
  }

  predicate StillHas(s: State, i: SessionId, h: Hash) {
    i in s.db.sessions && s.db.sessions[i].hash == h && !s.db.sessions[i].revoked
  }

  /** A live session's token gets on: to the signing, to the exchange, and to its successor. */
  lemma LiveIsRefreshed(s: State, p: Pid, h: Hash, pick: Pick)
    requires p in s.procs && s.procs[p].req == Refresh(h)
    ensures var (pc, pc') := (s.procs[p].pc, Next(s, Advance(p, pick)).procs[p].pc);
      && (pc == Start && pick.row in s.db.sessions && LiveRow(s, pick.row, h, s.db.sessions[pick.row].user) ==>
            pc' == ReadUser(pick.row, s.db.sessions[pick.row].user))
      && (pc.ReadUser? && MayLogIn(s, pc.user) ==> pc' == Rotate(Token(pc.user, s.db.users[pc.user].version, pc.session)))
      && (pc.ReadUser? && !MayLogIn(s, pc.user) ==> pc' == Finished(Refused))
      && (pc.Rotate? && StillHas(s, pc.token.session, h) && pick.freshHash !in s.issued ==>
            pc' == Finished(Refreshed(pc.token, pick.freshHash)))
      && (pc.Rotate? && !StillHas(s, pc.token.session, h) ==> pc' == CheckReuse)
  {
    if pick.row in s.db.sessions && s.db.sessions[pick.row].hash == h { assert pick.row in ByHash(s.db, h); }
  }

  /** ... so that request is never answered with a successor. */
  lemma ExpiredNeverRefreshed(s: State, p: Pid, h: Hash, pick: Pick, es: seq<Event>)
    requires p in s.procs && s.procs[p] == Proc(Refresh(h), Start)
    requires pick.row in s.db.sessions && s.db.sessions[pick.row].hash == h
    requires s.db.sessions[pick.row].revoked || s.db.sessions[pick.row].expiresAt <= s.clock
    ensures var t := Run(Next(s, Advance(p, pick)), es); p in t.procs && t.procs[p] == Proc(Refresh(h), Finished(Refused))
  {
    hide Next;
    hide Run;
    ExpiredIsRefused(s, p, h, pick);
    ReqStays(s, Advance(p, pick), p);
    AnswerStands(Next(s, Advance(p, pick)), es, p);
  }

  // ── createSession ─────────────────────────────────────────────────

  /** Its password and its user's status were in order when it checked them, and this was the version. */
  ghost predicate Checked(s: State, es: seq<Event>, p: Pid, u: UserId, version: nat) {
    exists k: nat :: (
      && Moves(s, es, k, p, Proc(Login(u), Start)) && es[k].pick.passed
      && MaySign(Run(s, es[..k]), Token(u, version, 0)))
  }

  /** Its password was wrong, or its user could not hold a session, when it checked them. */
  ghost predicate Failed(s: State, es: seq<Event>, p: Pid, u: UserId) {
    exists k: nat :: (
      && Moves(s, es, k, p, Proc(Login(u), Start))
      && (!es[k].pick.passed || !MayLogIn(Run(s, es[..k]), u)))
  }

  predicate MayLogIn(s: State, u: UserId) {
    u in s.db.users && (s.db.users[u].status == Approved || s.db.users[u].status == Deactivated)
  }

  lemma FailedEarlier(s: State, es: seq<Event>, e: Event, p: Pid, u: UserId)
    requires Failed(s, es, p, u)
    ensures Failed(s, es + [e], p, u)
  {
    hide Run;
    hide MayLogIn;
    var k: nat :| Moves(s, es, k, p, Proc(Login(u), Start)) && (!es[k].pick.passed || !MayLogIn(Run(s, es[..k]), u));
    MovesEarlier(s, es, e, k, p, Proc(Login(u), Start));
    assert (es + [e])[k] == es[k];
  }

  predicate Opens(s: State, s': State, t: Token, refresh: Hash, ttl: nat) {
    && refresh !in s.issued && t.session !in s.owners && s'.db.users == s.db.users
    && s'.db.sessions == s.db.sessions[t.session := Session(t.user, refresh, None, s.clock + ttl, false)]
  }

  ghost predicate Opened(s: State, es: seq<Event>, p: Pid, t: Token, refresh: Hash) {
    exists k: nat :: (
      && Moves(s, es, k, p, Proc(Login(t.user), OpenSession(t.user, t.version)))
      && Opens(Run(s, es[..k]), Next(Run(s, es[..k]), es[k]), t, refresh, es[k].pick.ttl))
  }

  ghost predicate LoginTells(s: State, es: seq<Event>, p: Pid, u: UserId, pc: Pc) {
    && (pc.Start? || pc.OpenSession? || pc.Finished?)
    && (pc.OpenSession? ==> pc.user == u && Checked(s, es, p, u, pc.version))
    && (pc.Finished? ==> pc.outcome.Refused? || pc.outcome.LoggedIn?)
    && (pc == Finished(Refused) ==> Failed(s, es, p, u))
    && (pc.Finished? && pc.outcome.LoggedIn? ==>
          pc.outcome.token.user == u && Checked(s, es, p, u, pc.outcome.token.version) && Opened(s, es, p, pc.outcome.token, pc.outcome.refresh))
  }

  lemma CheckedEarlier(s: State, es: seq<Event>, e: Event, p: Pid, u: UserId, version: nat)
    requires Checked(s, es, p, u, version)
    ensures Checked(s, es + [e], p, u, version)
  {
    hide Run;
    var k: nat :| Moves(s, es, k, p, Proc(Login(u), Start)) && es[k].pick.passed && MaySign(Run(s, es[..k]), Token(u, version, 0));
    MovesEarlier(s, es, e, k, p, Proc(Login(u), Start));
    assert (es + [e])[k] == es[k];
  }

  lemma OpenedEarlier(s: State, es: seq<Event>, e: Event, p: Pid, t: Token, refresh: Hash)
    requires Opened(s, es, p, t, refresh)
    ensures Opened(s, es + [e], p, t, refresh)
  {
    hide Run;
    hide Next;
    hide Opens;
    var k: nat :| Moves(s, es, k, p, Proc(Login(t.user), OpenSession(t.user, t.version)))
      && Opens(Run(s, es[..k]), Next(Run(s, es[..k]), es[k]), t, refresh, es[k].pick.ttl);
    MovesEarlier(s, es, e, k, p, Proc(Login(t.user), OpenSession(t.user, t.version)));
    assert (es + [e])[k] == es[k];
  }

  lemma LoginEarlier(s: State, es: seq<Event>, e: Event, p: Pid, u: UserId, pc: Pc)
    requires LoginTells(s, es, p, u, pc)
    ensures LoginTells(s, es + [e], p, u, pc)
  {
    hide Checked;
    hide Opened;
    hide Failed;
    if pc == Finished(Refused) { FailedEarlier(s, es, e, p, u); }
    if pc.OpenSession? { CheckedEarlier(s, es, e, p, u, pc.version); }
    if pc.Finished? && pc.outcome.LoggedIn? {
      CheckedEarlier(s, es, e, p, u, pc.outcome.token.version);
      OpenedEarlier(s, es, e, p, pc.outcome.token, pc.outcome.refresh);
    }
  }

  /** One statement of a login, in terms of the tables. */
  lemma LoginStatement(s: State, p: Pid, u: UserId, pick: Pick)
    requires p in s.procs && s.procs[p].req == Login(u)
    requires s.procs[p].pc.Start? || s.procs[p].pc.OpenSession? || s.procs[p].pc.Finished?
    ensures var s' := Next(s, Advance(p, pick));
      var (pc, pc') := (s.procs[p].pc, s'.procs[p].pc);
      && s'.procs[p].req == Login(u) && (pc'.Start? || pc'.OpenSession? || pc'.Finished?)
      && (pc' == pc || !pc'.OpenSession? || (pc == Start && pick.passed && pc'.user == u && MaySign(s, Token(u, pc'.version, 0)) && s'.db == s.db))
      && (pc' == pc || !pc'.Finished?
          || (pc'.outcome.Refused? && pc == Start && s'.db == s.db && (!pick.passed || !MayLogIn(s, u)))
          || (pc'.outcome.LoggedIn? && pc == OpenSession(pc'.outcome.token.user, pc'.outcome.token.version)
              && Opens(s, s', pc'.outcome.token, pc'.outcome.refresh, pick.ttl)))
      && (pc == Start && !pick.passed ==> pc' == Finished(Refused) && s'.db == s.db)
  {
  }

  lemma LoginNext(s: State, es: seq<Event>, p: Pid, u: UserId)
    requires es != []
    requires var s1, e := Run(s, es[..|es|-1]), es[|es|-1];
      p in s1.procs && s1.procs[p].req == Login(u) && LoginTells(s, es[..|es|-1], p, u, s1.procs[p].pc)
    ensures p in Run(s, es).procs && Run(s, es).procs[p].req == Login(u) && LoginTells(s, es, p, u, Run(s, es).procs[p].pc)
  {
    hide Run;
    hide Next;
    hide MaySign;
    hide MayLogIn;
    hide Opens;
    RunSnoc(s, es);
    var before, e := es[..|es|-1], es[|es|-1];
    var s1 := Run(s, before);
    LoginEarlier(s, before, e, p, u, s1.procs[p].pc);
    if e.Advance? && e.pid == p {
      LoginStatement(s1, p, u, e.pick);
      assert e == Advance(p, e.pick);
      assert Moves(s, es, |before|, p, s1.procs[p]) by { assert es[..|before|] == before; }
      assert es[..|before|] == before && es[|before|] == e;
      StillThere(s1, e, p);
    } else {
      OthersStay(s1, e, p);
    }
  }

  lemma {:induction false} LoginRun(s: State, es: seq<Event>, p: Pid, u: UserId)
    requires p !in s.procs
    ensures p in Run(s, es).procs && Run(s, es).procs[p].req == Login(u) ==> LoginTells(s, es, p, u, Run(s, es).procs[p].pc)
    decreases |es|
  {
    hide Run;
    hide Next;
    hide LoginTells;
    if es == [] {
      NothingRun(s);
    } else {
      RunSnoc(s, es);
      var s1 := Run(s, es[..|es|-1]);
      LoginRun(s, es[..|es|-1], p, u);
      if p in s1.procs {
        ReqStays(s1, es[|es|-1], p);
        if s1.procs[p].req == Login(u) { LoginNext(s, es, p, u); }
      } else {
        Arrives(s1, es[|es|-1], p);
        LoginStarts(s, es, p, u);
      }
    }
  }

  lemma LoginStarts(s: State, es: seq<Event>, p: Pid, u: UserId)
    ensures LoginTells(s, es, p, u, Start)
  {
  }

  /**
   A login is answered with a session only if its password passed while its user could
   hold a session, at the version its token carries; and it opened that session, new and
   with a hash of its own, for that user.
   */
  lemma LoggedInPassed(s: State, es: seq<Event>, p: Pid, u: UserId, t: Token, refresh: Hash)
    requires p !in s.procs && p in Run(s, es).procs && Run(s, es).procs[p] == Proc(Login(u), Finished(LoggedIn(t, refresh)))
    ensures t.user == u && Checked(s, es, p, u, t.version) && Opened(s, es, p, t, refresh)
  {
    LoginRun(s, es, p, u);
  }

  /** ... and it is refused only if its password failed or its user could not hold a session. */
  lemma RefusedLoginFailed(s: State, es: seq<Event>, p: Pid, u: UserId)
    requires p !in s.procs && p in Run(s, es).procs && Run(s, es).procs[p] == Proc(Login(u), Finished(Refused))
    ensures Failed(s, es, p, u)
  {
    LoginRun(s, es, p, u);
  }

  /** A login whose check fails is refused, changes nothing, and stays refused. */
  lemma FailedLoginIsRefused(s: State, p: Pid, u: UserId, pick: Pick, es: seq<Event>)
    requires p in s.procs && s.procs[p] == Proc(Login(u), Start) && !pick.passed
    ensures Next(s, Advance(p, pick)).db == s.db
    ensures var t := Run(Next(s, Advance(p, pick)), es); p in t.procs && t.procs[p] == Proc(Login(u), Finished(Refused))
  {
    hide Next;
    hide Run;
    LoginStatement(s, p, u, pick);
    ReqStays(s, Advance(p, pick), p);
    AnswerStands(Next(s, Advance(p, pick)), es, p);
  }

  // ── The other statements ──────────────────────────────────────────

  /** Exactly these rows are revoked by the statement, and nothing else of the tables changes. */
  ghost predicate Revokes(s: State, s': State, gone: SessionId -> bool) {
    && s'.db.users == s.db.users && s'.db.sessions.Keys == s.db.sessions.Keys
    && forall i | i in s.db.sessions ::
         s'.db.sessions[i] == if gone(i) then s.db.sessions[i].(revoked := true) else s.db.sessions[i]
  }

  /** The user's version rises by one, with the status if one is given, and nothing else changes. */
  ghost predicate Raises(s: State, s': State, u: UserId, st: Option<Status>) {
    && s'.db.sessions == s.db.sessions && s'.db.users.Keys == s.db.users.Keys
    && forall v | v in s.db.users ::
         s'.db.users[v] == if v != u then s.db.users[v]
           else s.db.users[v].(version := s.db.users[v].version + 1, status := if st.Some? then st.value else s.db.users[v].status)
  }

  predicate Same(s: State, s': State) { s'.db == s.db }

  /** The reuse path: whose family, its revocation, its bump. */
  lemma ReuseStatements(s: State, p: Pid, h: Hash, pick: Pick)
    requires p in s.procs && s.procs[p].req == Refresh(h)
    ensures var s' := Next(s, Advance(p, pick));
      var (pc, pc') := (s.procs[p].pc, s'.procs[p].pc);
      && (pc == CheckReuse && pick.row in s.db.sessions && s.db.sessions[pick.row].previous == Some(h) ==>
            pc' == RevokeFamily(s.db.sessions[pick.row].user) && Same(s, s'))
      && (pc.RevokeFamily? ==>
            pc' == Bump(pc.user)
            && Revokes(s, s', i => i in s.db.sessions && s.db.sessions[i].user == pc.user && !s.db.sessions[i].revoked))
      && (pc.Bump? ==> pc' == Finished(Refused) && Raises(s, s', pc.user, None))
  {
    if s.procs[p].pc == CheckReuse && pick.row in s.db.sessions && s.db.sessions[pick.row].previous == Some(h) {
      assert pick.row in ByPrevious(s.db, h);
    }
  }

  /** A logout or a revocation ends by raising the version of the user it is about. */
  lemma BumpStatement(s: State, p: Pid, pick: Pick)
    requires p in s.procs && (s.procs[p].req.Logout? || s.procs[p].req.Revoke?) && s.procs[p].pc.Bump?
    ensures var s' := Next(s, Advance(p, pick)); s'.procs[p].pc == Finished(Done) && Raises(s, s', s.procs[p].pc.user, None)
  {
  }

  /** Logging out revokes the unrevoked rows with the hash, and goes on to raise the version of the row's user. */
  lemma LogoutStatements(s: State, p: Pid, h: Hash, pick: Pick)
    requires p in s.procs && s.procs[p].req == Logout(h)
    ensures var s' := Next(s, Advance(p, pick));
      var (pc, pc') := (s.procs[p].pc, s'.procs[p].pc);
      && (pc == Start && (forall i | i in s.db.sessions && s.db.sessions[i].hash == h :: s.db.sessions[i].revoked) ==>
            pc' == Finished(Done) && Same(s, s'))
      && (pc == Start && pick.row in s.db.sessions && s.db.sessions[pick.row].hash == h && !s.db.sessions[pick.row].revoked ==>
            pc' == Bump(s.db.sessions[pick.row].user)
            && Revokes(s, s', i => i in s.db.sessions && s.db.sessions[i].hash == h && !s.db.sessions[i].revoked))
  {
    if pick.row in s.db.sessions && s.db.sessions[pick.row].hash == h && !s.db.sessions[pick.row].revoked {
      assert pick.row in LiveByHash(s.db, h);
    }
    if forall i | i in s.db.sessions && s.db.sessions[i].hash == h :: s.db.sessions[i].revoked { assert LiveByHash(s.db, h) == {}; }
  }

  /** Revoking takes the target's live sessions, all or the chosen ones, and goes on to raise the version exactly if there were any. */
  lemma RevokeStatements(s: State, p: Pid, target: UserId, chosen: Option<set<SessionId>>, pick: Pick)
    requires p in s.procs && s.procs[p].req == Revoke(target, chosen)
    ensures var s' := Next(s, Advance(p, pick));
      var (pc, pc') := (s.procs[p].pc, s'.procs[p].pc);
      var gone := i => i in s.db.sessions && s.db.sessions[i].user == target && !s.db.sessions[i].revoked && (chosen.Some? ==> i in chosen.value);
      && (pc == Start && (exists i :: gone(i)) ==> pc' == Bump(target) && Revokes(s, s', gone))
      && (pc == Start && !(exists i :: gone(i)) ==> pc' == Finished(if chosen.Some? then Refused else Done) && Same(s, s'))
  {
    var gone := i => i in s.db.sessions && s.db.sessions[i].user == target && !s.db.sessions[i].revoked && (chosen.Some? ==> i in chosen.value);
    var live := LiveSessionsOf(s.db, target);
    var rows := if chosen.Some? then live * chosen.value else live;
    assert forall i :: i in rows <==> gone(i);
    if i :| gone(i) { assert i in rows; }
  }

  /** Moderation reads the status once, at the start. */
  lemma ModerationStarts(s: State, p: Pid, target: UserId, takedown: Option<bool>, suspend: Option<bool>, pick: Pick)
    requires p in s.procs && s.procs[p] == Proc(Moderate(target, takedown, suspend), Start)
    ensures var s' := Next(s, Advance(p, pick));
      Same(s, s') && s'.procs[p].pc == (
        if target in s.db.users && pick.passed then ModerateTakedown(s.db.users[target].status, s.db.users[target].exported)
        else Finished(Refused))
  {
  }

  /** It takes down only what was not taken down and has been exported, and reinstates only what was. */
  lemma TakedownStatement(s: State, p: Pid, target: UserId, takedown: Option<bool>, suspend: Option<bool>, pick: Pick)
    requires p in s.procs && s.procs[p].req == Moderate(target, takedown, suspend) && s.procs[p].pc.ModerateTakedown?
    ensures var s' := Next(s, Advance(p, pick));
      var (seen, pc') := (s.procs[p].pc.seen, s'.procs[p].pc);
      match takedown
      case None => Same(s, s') && pc' == ModerateSuspend(seen)
      case Some(true) =>
        if seen != TakenDown && s.procs[p].pc.exported then pc' == TakedownRevoke(seen) && Raises(s, s', target, Some(TakenDown))
        else pc' == Finished(Refused) && Same(s, s')
      case Some(false) =>
        if seen == TakenDown then pc' == ModerateSuspend(seen) && Raises(s, s', target, Some(Approved))
        else pc' == Finished(Refused) && Same(s, s')
  {
  }

  /** It suspends only what was neither suspended nor taken down, and lifts only a suspension. */
  lemma SuspensionStatement(s: State, p: Pid, target: UserId, takedown: Option<bool>, suspend: Option<bool>, pick: Pick)
    requires p in s.procs && s.procs[p].req == Moderate(target, takedown, suspend) && s.procs[p].pc.ModerateSuspend?
    ensures var s' := Next(s, Advance(p, pick));
      var (seen, pc') := (s.procs[p].pc.seen, s'.procs[p].pc);
      match suspend
      case None => Same(s, s') && pc' == Finished(Done)
      case Some(true) =>
        if seen != Suspended && seen != TakenDown then pc' == SuspendRevoke && Raises(s, s', target, Some(Suspended))
        else pc' == Finished(Refused) && Same(s, s')
      case Some(false) =>
        if seen == Suspended then pc' == Finished(Done) && Raises(s, s', target, Some(Approved))
        else pc' == Finished(Refused) && Same(s, s')
  {
  }

  /** ... and each time it has blocked, it revokes every live session of the target. */
  lemma ModerationRevokes(s: State, p: Pid, target: UserId, takedown: Option<bool>, suspend: Option<bool>, pick: Pick)
    requires p in s.procs && s.procs[p].req == Moderate(target, takedown, suspend)
    requires s.procs[p].pc.TakedownRevoke? || s.procs[p].pc == SuspendRevoke
    ensures var s' := Next(s, Advance(p, pick));
      && s'.procs[p].pc == (if s.procs[p].pc == SuspendRevoke then Finished(Done) else ModerateSuspend(s.procs[p].pc.seen))
      && Revokes(s, s', i => i in s.db.sessions && s.db.sessions[i].user == target && !s.db.sessions[i].revoked)
  {
  }

  /** Deactivation and activation check, then write; deactivation then revokes. */
  lemma DeactivationStatements(s: State, p: Pid, u: UserId, pick: Pick)
    requires p in s.procs && s.procs[p].req == Deactivate(u)
    ensures var s' := Next(s, Advance(p, pick));
      var (pc, pc') := (s.procs[p].pc, s'.procs[p].pc);
      && (pc == Start ==>
            Same(s, s') && pc' == (if u in s.db.users && s.db.users[u].status == Approved then WriteStatus(Deactivated) else Finished(Refused)))
      && (pc == WriteStatus(Deactivated) ==> pc' == RevokeAfterStatus && Raises(s, s', u, Some(Deactivated)))
      && (pc == RevokeAfterStatus ==>
            pc' == Finished(Done) && Revokes(s, s', i => i in s.db.sessions && s.db.sessions[i].user == u && !s.db.sessions[i].revoked))
  {
  }

  lemma ActivationStatements(s: State, p: Pid, u: UserId, pick: Pick)
    requires p in s.procs && s.procs[p].req == Activate(u)
    ensures var s' := Next(s, Advance(p, pick));
      var (pc, pc') := (s.procs[p].pc, s'.procs[p].pc);
      && (pc == Start ==>
            Same(s, s') && pc' == (if u in s.db.users && s.db.users[u].status == Deactivated && pick.passed then WriteStatus(Approved)
                                   else Finished(Refused)))
      && (pc == WriteStatus(Approved) ==> pc' == Finished(Done) && Raises(s, s', u, Some(Approved)))
  {
  }

  /** A new password raises the version and then forgets every session of the user. */
  lemma PasswordStatements(s: State, p: Pid, u: UserId, pick: Pick)
    requires p in s.procs && s.procs[p].req == ChangePassword(u)
    ensures var s' := Next(s, Advance(p, pick));
      var (pc, pc') := (s.procs[p].pc, s'.procs[p].pc);
      && (pc == Start ==> Same(s, s') && pc' == if u in s.db.users && pick.passed then WritePassword else Finished(Refused))
      && (pc == WritePassword ==> pc' == ForgetSessions && Raises(s, s', u, None))
      && (pc == ForgetSessions ==>
            && pc' == Finished(Done) && s'.db.users == s.db.users
            && (forall i :: i in s'.db.sessions <==> i in s.db.sessions && s.db.sessions[i].user != u)
            && forall i | i in s'.db.sessions :: s'.db.sessions[i] == s.db.sessions[i])
  {
  }

  /** The cleanup takes exactly the rows that are revoked or past their end. */
  lemma PurgeTakesTheDead(s: State)
    ensures var s' := Next(s, Purge);
      && s'.db.users == s.db.users && s'.procs == s.procs
      && (forall i :: i in s'.db.sessions <==> i in s.db.sessions && !s.db.sessions[i].revoked && s.db.sessions[i].expiresAt >= s.clock)
      && forall i | i in s'.db.sessions :: s'.db.sessions[i] == s.db.sessions[i]
  {
  }
}
