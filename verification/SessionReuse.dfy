/** Reuse detection, permanence of revocation, and reaching one state from another. */
module SessionReuse {
  import opened Wrappers
  import opened SessionStore
  import opened SessionMachine
  import opened SessionSafety

  /** Gone for good: deleted, or revoked with this hash. */
  ghost predicate Dead(s: State, i: SessionId, h: Hash) {
    i in s.owners && (i in s.db.sessions ==> s.db.sessions[i].revoked && s.db.sessions[i].hash == h)
  }

  lemma DeadNext(s: State, e: Event, i: SessionId, h: Hash)
    requires Dead(s, i, h)
    ensures Dead(Next(s, e), i, h)
  {
    if e.Advance? && e.pid in s.procs && Plan(s, s.procs[e.pid], e.pick).Move? {
      PlanFits(s, s.procs[e.pid], e.pick);
    }
  }

  /** Revocation is permanent: the row never comes back to life nor changes hash. */
  lemma {:induction false} DeadForGood(s: State, es: seq<Event>, i: SessionId, h: Hash)
    requires Dead(s, i, h)
    ensures Dead(Run(s, es), i, h)
    decreases |es|
  {
    if es != [] {
      DeadForGood(s, es[..|es|-1], i, h);
      DeadNext(Run(s, es[..|es|-1]), es[|es|-1], i, h);
    }
  }

  ghost predicate Spent(s: State, h: Hash) {
    exists k :: 0 <= k < |s.exchanges| && s.exchanges[k].spent == h
  }

  /** A spent token names no session, so neither lookup nor rotation can accept it. */
  lemma SpentNamesNoSession(s: State, h: Hash, i: SessionId)
    requires HashInv(s) && Spent(s, h)
    ensures ByHash(s.db, h) == {} && !CanRotate(s.db, i, h)
  {
  }

  lemma PreviousIsSpent(s: State, h: Hash)
    requires HashInv(s) && ByPrevious(s.db, h) != {}
    ensures Spent(s, h)
  {
    var i :| i in ByPrevious(s.db, h);
    assert ExchangedBy(s, h, i);
  }

  lemma StaysSpent(s: State, e: Event, h: Hash)
    requires Spent(s, h)
    ensures Spent(Next(s, e), h)
  {
    var k :| 0 <= k < |s.exchanges| && s.exchanges[k].spent == h;
    assert Next(s, e).exchanges[k] == s.exchanges[k];
  }

  lemma SpentNext(s: State, e: Event, p: Pid, h: Hash)
    requires Inv(s) && Spent(s, h) && p in s.procs && s.procs[p].req == Refresh(h) && !Returned(s, p)
    ensures Spent(Next(s, e), h) && p in Next(s, e).procs
    ensures Next(s, e).procs[p].req == Refresh(h) && !Returned(Next(s, e), p)
  {
    StaysSpent(s, e, h);
    if e.Advance? && e.pid == p && Plan(s, s.procs[p], e.pick).Move? {
      PlanFits(s, s.procs[p], e.pick);
      if s.procs[p].pc.Rotate? { SpentNamesNoSession(s, h, s.procs[p].pc.token.session); }
    }
  }

  /** A request presenting a spent token that has no answer yet never gets a successor. */
  lemma {:induction false} SpentTokenNeverExchanged(s: State, es: seq<Event>, p: Pid, h: Hash)
    requires Inv(s) && Spent(s, h) && p in s.procs && s.procs[p].req == Refresh(h) && !Returned(s, p)
    ensures p in Run(s, es).procs && !Returned(Run(s, es), p)
    ensures Spent(Run(s, es), h) && Run(s, es).procs[p].req == Refresh(h)
    decreases |es|
  {
    if es != [] {
      SpentTokenNeverExchanged(s, es[..|es|-1], p, h);
      InvRun(s, es[..|es|-1]);
      SpentNext(Run(s, es[..|es|-1]), es[|es|-1], p, h);
    }
  }

  /** The reuse path of `p` has not revoked `u` yet, or these sessions are all dead. */
  ghost predicate FamilyDoomed(s: State, p: Pid, h: Hash, u: UserId, family: set<SessionId>) {
    && p in s.procs && s.procs[p].req == Refresh(h)
    && (forall i | i in family :: i in s.owners && (i in s.db.sessions ==> s.db.sessions[i].user == u))
    && (|| s.procs[p].pc == RevokeFamily(u)
        || ((s.procs[p].pc.Bump? || s.procs[p].pc.Finished?)
            && forall i | i in family && i in s.db.sessions :: s.db.sessions[i].revoked))
  }

  lemma DoomedNext(s: State, e: Event, p: Pid, h: Hash, u: UserId, family: set<SessionId>)
    requires FamilyDoomed(s, p, h, u, family)
    ensures FamilyDoomed(Next(s, e), p, h, u, family)
  {
    if e.Advance? && e.pid in s.procs && Plan(s, s.procs[e.pid], e.pick).Move? {
      PlanFits(s, s.procs[e.pid], e.pick);
    }
  }

  lemma {:induction false} DoomedRun(s: State, es: seq<Event>, p: Pid, h: Hash, u: UserId, family: set<SessionId>)
    requires FamilyDoomed(s, p, h, u, family)
    ensures FamilyDoomed(Run(s, es), p, h, u, family)
    decreases |es|
  {
    if es != [] {
      DoomedRun(s, es[..|es|-1], p, h, u, family);
      DoomedNext(Run(s, es[..|es|-1]), es[|es|-1], p, h, u, family);
    }
  }

  /** Presenting a token that some row still remembers as its predecessor leads to the reuse check. */
  lemma ReuseIsLookedUp(s: State, p: Pid, h: Hash, pick: Pick)
    requires Inv(s) && p in s.procs && ByPrevious(s.db, h) != {}
    requires s.procs[p].req == Refresh(h)
    requires s.procs[p].pc == Start || s.procs[p].pc.Rotate?
    ensures Next(s, Advance(p, pick)).procs[p].pc == CheckReuse
    ensures Next(s, Advance(p, pick)).db == s.db
  {
    PreviousIsSpent(s, h);
    if s.procs[p].pc == Start {
      SpentNamesNoSession(s, h, 0);
    } else {
      SpentNamesNoSession(s, h, s.procs[p].pc.token.session);
    }
  }

  /**
   If the reuse check of request `p` still finds the presented hash as some row's
   predecessor, then by the time `p` has answered - whatever ran in between -
   every session that user had when the check ran is revoked or deleted, and `p`
   answered without a successor.
   */
  lemma ReuseRevokesFamily(s: State, p: Pid, h: Hash, pick: Pick, es: seq<Event>)
    requires Inv(s) && p in s.procs && s.procs[p] == Proc(Refresh(h), CheckReuse)
    requires pick.row in ByPrevious(s.db, h)
    requires var s2 := Run(Next(s, Advance(p, pick)), es); p in s2.procs && s2.procs[p].pc.Finished?
    ensures var s2 := Run(Next(s, Advance(p, pick)), es);
      var u := s.db.sessions[pick.row].user;
      && !Returned(s2, p)
      && forall i | i in s.db.sessions && s.db.sessions[i].user == u && i in s2.db.sessions :: s2.db.sessions[i].revoked
  {
    var u := s.db.sessions[pick.row].user;
    var family := set i | i in s.db.sessions && s.db.sessions[i].user == u;
    var s1 := Next(s, Advance(p, pick));
    PreviousIsSpent(s, h);
    InvNext(s, Advance(p, pick));
    SpentNext(s, Advance(p, pick), p, h);
    SpentTokenNeverExchanged(s1, es, p, h);
    assert FamilyDoomed(s1, p, h, u, family);
    DoomedRun(s1, es, p, h, u, family);
  }

  // ── Reaching one state from another ───────────────────────────────

  ghost predicate Reaches(s: State, s': State) {
    exists es :: Run(s, es) == s'
  }

  lemma ReachesNext(s: State, e: Event)
    ensures Reaches(s, Next(s, e))
  {
    assert [e][..0] == [];
    assert Run(s, [e]) == Next(s, e);
  }

  lemma {:induction false} RunAppend(s: State, es: seq<Event>, fs: seq<Event>)
    ensures Run(s, es + fs) == Run(Run(s, es), fs)
    decreases |fs|
  {
    if fs == [] {
      assert es + fs == es;
    } else {
      RunAppend(s, es, fs[..|fs|-1]);
      assert (es + fs)[..|es + fs|-1] == es + fs[..|fs|-1];
    }
  }

  lemma ReachesTransitive(a: State, b: State, c: State)
    requires Reaches(a, b) && Reaches(b, c)
    ensures Reaches(a, c)
  {
    var es :| Run(a, es) == b;
    var fs :| Run(b, fs) == c;
    RunAppend(a, es, fs);
  }

  function At(s: State, p: Pid, pc: Pc): State
    requires p in s.procs
  {
    s.(procs := s.procs[p := s.procs[p].(pc := pc)])
  }

  /** One statement of a request, once its plan is known. */
  lemma Statement(s: State, p: Pid, pick: Pick, e: Effect, next: Pc)
    requires p in s.procs && Plan(s, s.procs[p], pick) == Move(e, next)
    ensures Reaches(s, At(Perform(s, p, e), p, next))
  {
    ReachesNext(s, Advance(p, pick));
  }

  lemma ArrivalReaches(s: State, p: Pid, r: Request)
    requires p !in s.procs
    ensures Reaches(s, s.(procs := s.procs[p := Proc(r, Start)]))
  {
    ReachesNext(s, Arrive(p, r));
  }
}
