/**
 Elapsed windows are applied lazily: no scheduler runs, the next request sweeps.
 While the objection threshold stands, every status the lazy machine shows after a
 sweep, and every record no unswept change is about, is that of the eager machine of
 `EagerWindows` on the same requests.
 */
module LazyWindows {
  import opened Wrappers
  import opened DecisionRules
  import opened VoteTally
  import opened DelegationLoop
  import opened ProposalRecords
  import opened ProposalMachine
  import opened ProposalEvolution
  import opened ContestWindows
  import opened EagerWindows
  import opened LazyRequests

  // ── The clock ─────────────────────────────────────────────────────

  /** The windows about `k` that end while the clock moves. */
  function NewlyDue(s: State, ms: nat, k: Key): set<Rkey> {
    DueFor(s.(clock := s.clock + ms), k) - DueFor(s, k)
  }

  lemma NewlyDueIsLive(s: State, ms: nat, k: Key, r: Rkey)
    ensures r in NewlyDue(s, ms, k) <==>
      && ViewOf(s, r).Live? && ViewOf(s, r).entry.record.ProposalRecord?
      && IsDue(ViewOf(s, r).entry.record.proposal, s.clock + ms) && ViewOf(s, r).entry.record.proposal.target == k
  {
    EndedMeans(s, r);
    EndedMeans(s.(clock := s.clock + ms), r);
  }

  lemma TickFuture(s: State, ms: nat, k: Key)
    ensures Future(s.(clock := s.clock + ms), k) == Fold(s.records, NewlyDue(s, ms, k), Future(s, k))
  {
    var early, late := DueFor(s, k), NewlyDue(s, ms, k);
    forall r | r in early ensures r in DueFor(s.(clock := s.clock + ms), k) {
      EndedMeans(s, r);
      EndedMeans(s.(clock := s.clock + ms), r);
    }
    assert early + late == DueFor(s.(clock := s.clock + ms), k);
    forall a, b | a in early && b in late ensures Deadline(s.records, a) < Deadline(s.records, b) {
      NewlyDueIsLive(s, ms, k, b);
      EndedMeans(s, a);
    }
    FoldSplit(s.records, early, late, Content(s.records, k));
  }

  lemma TickView(s: State, t: State, ms: nat, r: Rkey)
    requires ViewOf(s, r) == ViewOf(t, r) && s.clock == t.clock
    ensures ViewOf(s.(clock := s.clock + ms), r) == ViewOf(t.(clock := t.clock + ms), r)
  {
  }

  lemma SameFutureLater(s: State, t: State, ms: nat, k: Key)
    requires Future(s, k) == Future(t, k) && s.clock == t.clock && forall r :: ViewOf(s, r) == ViewOf(t, r)
    ensures Future(s.(clock := s.clock + ms), k) == Future(t.(clock := t.clock + ms), k)
  {
    hide Future;
    hide ViewOf;
    hide Fold;
    hide NewlyDue;
    TickFuture(s, ms, k);
    TickFuture(t, ms, k);
    forall r ensures r in NewlyDue(s, ms, k) <==> r in NewlyDue(t, ms, k) {
      NewlyDueIsLive(s, ms, k, r);
      NewlyDueIsLive(t, ms, k, r);
    }
    forall r | r in NewlyDue(s, ms, k) ensures Lookup(s.records, r) == Lookup(t.records, r) {
      NewlyDueIsLive(s, ms, k, r);
      LiveIsSame(s, t, r);
    }
    assert NewlyDue(s, ms, k) == NewlyDue(t, ms, k);
    FoldSame(s.records, t.records, NewlyDue(s, ms, k), Future(s, k));
  }

  lemma TickAlike(s: State, t: State, ms: nat)
    requires Alike(s, t)
    ensures Alike(s.(clock := s.clock + ms), t.(clock := t.clock + ms))
  {
    hide ViewOf;
    hide Future;
    var s', t' := s.(clock := s.clock + ms), t.(clock := t.clock + ms);
    forall r ensures ViewOf(s', r) == ViewOf(t', r) { TickView(s, t, ms, r); }
    forall k: Key | !Reserved(k.collection) ensures Future(s', k) == Future(t', k) { SameFutureLater(s, t, ms, k); }
  }

  lemma NextIsNoMatter(s: State, t: State, n: nat)
    requires Alike(s, t)
    ensures Alike(s.(next := n), t.(next := n))
  {
    hide Future;
    hide ViewOf;
    var s', t' := s.(next := n), t.(next := n);
    forall r ensures ViewOf(s', r) == ViewOf(t', r) {
      NextUnseen(s, n, r);
      NextUnseen(t, n, r);
    }
    forall k: Key | !Reserved(k.collection) ensures Future(s', k) == Future(t', k) {
      FutureUnseen(s, n, k);
      FutureUnseen(t, n, k);
    }
  }

  lemma NextUnseen(s: State, n: nat, r: Rkey)
    ensures ViewOf(s.(next := n), r) == ViewOf(s, r)
  {
  }

  lemma FutureUnseen(s: State, n: nat, k: Key)
    ensures Future(s.(next := n), k) == Future(s, k)
  {
    assert DueFor(s.(next := n), k) == DueFor(s, k);
  }

  // ── One step of both machines ─────────────────────────────────────

  lemma NextIsCommit(s: State, e: Event)
    requires !e.Tick?
    ensures var t := if Done(s, e).commit.Some? then Commits(s, Done(s, e).commit.value) else s;
      Next(s, e).records == t.records && Next(s, e).clock == s.clock
  {
    hide PlanOf;
  }

  lemma NextRest(s: State, t: State, e: Event)
    requires Done(s, e) == Done(t, e) && DraftsAfter(s, e) == DraftsAfter(t, e)
    requires s.votes == t.votes && s.objections == t.objections && s.clock == t.clock && s.next == t.next
    ensures var a, b := Next(s, e), Next(t, e);
      a.votes == b.votes && a.objections == b.objections && a.clock == b.clock && a.next == b.next && a.drafts == b.drafts
  {
    hide PlanOf;
    hide DraftsAfter;
  }

  /** What is still pending on the eager machine is so on the lazy one. */
  ghost predicate PendingShared(s: State, t: State) {
    forall r | Lookup(t.records, r).Some? && Lookup(t.records, r).value.status == Pending :: Lookup(s.records, r) == Lookup(t.records, r)
  }

  lemma EagerPendingIsLive(s: State, t: State)
    requires Alike(s, t) && EndedOn(t) == {}
    ensures PendingShared(s, t)
  {
    hide Future;
    forall r | Lookup(t.records, r).Some? && Lookup(t.records, r).value.status == Pending ensures Lookup(s.records, r) == Lookup(t.records, r) {
      EndedMeans(t, r);
      assert ViewOf(s, r) == ViewOf(t, r);
    }
  }

  lemma SharedAfter(s: State, t: State, c: Commit)
    requires PendingShared(s, t) && Shaped(c)
    ensures PendingShared(Commits(s, c), Commits(t, c))
  {
    forall r ensures Lookup(Commits(t, c).records, r).Some? && Lookup(Commits(t, c).records, r).value.status == Pending ==>
      Lookup(Commits(s, c).records, r) == Lookup(Commits(t, c).records, r)
    {
      LandedProposals(s, c, r);
      LandedProposals(t, c, r);
    }
  }

  lemma SharedIsUnheld(s: State, t: State, st: Standing)
    requires PendingShared(s, t) && s.objections == t.objections && Windowed(s, st.threshold)
    ensures Unheld(t, st)
  {
    hide Objectors;
    forall r | Lookup(t.records, r).Some? && Lookup(t.records, r).value.status == Pending
      ensures |Objectors(t.objections, r, Lookup(t.records, r).value)| < st.threshold
    {
      assert NotYetHeld(s, st.threshold, r);
    }
  }

  /** A request whose handler sweeps first. */
  lemma RequestAlike(s: State, t: State, e: Event, threshold: int)
    requires Alike(s, t) && EndedOn(t) == {}
    requires BookKept(s) && Orderly(s, e) && Windowed(s, threshold) && Prompt(s, e) && Sweeping(e)
    ensures Alike(Next(s, e), Next(t, e)) && PendingShared(Next(s, e), Next(t, e))
  {
    hide Next;
    hide Done;
    hide DraftsAfter;
    hide BookKept;
    hide Orderly;
    hide Windowed;
    hide Prompt;
    hide ViewOf;
    hide Future;
    hide Lands;
    hide Proper;
    hide ApplyCommit;
    EagerPendingIsLive(s, t);
    PlansAreSame(s, t, e);
    NextIsCommit(s, e);
    NextIsCommit(t, e);
    NextRest(s, t, e);
    if Done(s, e).commit.Some? {
      var c := Done(s, e).commit.value;
      RequestLands(s, e, threshold);
      ProperIsShaped(s, c);
      CommitAlike(s, t, c);
      RestAlike(Commits(s, c), Commits(t, c), Next(s, e), Next(t, e));
      SharedAfter(s, t, c);
    } else {
      RestAlike(s, t, Next(s, e), Next(t, e));
    }
  }

  lemma UnsweptAlike(s: State, t: State, e: Event)
    requires Unswept(e) && Alike(s, t) && EndedOn(t) == {} && BookKept(s)
    ensures Alike(Next(s, e), Next(t, e)) <==> Prompt(s, e)
  {
    hide Next;
    hide Alike;
    hide BookKept;
    hide CreatesAlike;
    hide AmendsAlike;
    hide Commutes;
    if e.Create? { CreateExactly(s, t, e); } else if e.AmendRead? { AmendReadExactly(s, t, e); } else { WriteExactly(s, t, e); }
  }

  /** ... and no window ends by it, so the eager machine has nothing to close. */
  lemma UnsweptEndsNothing(t: State, st: Standing, e: Event)
    requires Unswept(e) && EndedOn(t) == {}
    ensures NextEager(t, st, e) == Next(t, e) && EndedOn(Next(t, e)) == {}
  {
    hide Next;
    forall r ensures r !in EndedOn(Next(t, e)) {
      EndedMeans(t, r);
      EndedMeans(Next(t, e), r);
      if e.Create? { CreatedBy(t, e); } else if e.AmendRead? { ReadLeaves(t, e); } else { WriteEffect(t, e, ProposalKey(r)); }
    }
    CatchUpIdle(Next(t, e), st);
  }

  lemma CatchUpIdle(s: State, st: Standing)
    requires EndedOn(s) == {}
    ensures CatchUp(s, st) == s
  {
  }

  /** A sweep of a proposal below its threshold, and of an elapsed round, closes it as the eager machine did. */
  lemma SweepCloses(s: State, e: Event, threshold: int)
    requires IsSweep(e) && Done(s, e).commit.Some? && Windowed(s, threshold) && Punctual(s, e, threshold)
    ensures Lookup(s.records, e.rkey).Some?
    ensures Closes(s, Done(s, e).commit.value, e.rkey, Lookup(s.records, e.rkey).value, s.next + 1)
    ensures IsDue(Lookup(s.records, e.rkey).value, s.clock) <==> e.ApplyDue?
  {
    hide Objectors;
    hide Lineage;
    hide ChangeOp;
    hide Unapplicable;
    assert NotYetHeld(s, threshold, e.rkey);
  }

  lemma SweepDone(s: State, e: Event)
    requires e.ApplyDue?
    ensures Done(s, e).commit.Some? <==>
      e.survived >= 1 && Lookup(s.records, e.rkey).Some? && IsDue(Lookup(s.records, e.rkey).value, s.clock)
  {
    hide Objectors;
    hide Lineage;
    hide ChangeOp;
    hide Unapplicable;
    hide Held;
  }

  /** A sweep changes nothing for the eager machine if and only if it comes in turn. */
  lemma SweepAlike(s: State, e: Event, threshold: int)
    requires IsSweep(e) && Windowed(s, threshold) && Punctual(s, e, threshold) && PlainEnds(s)
    ensures Alike(s.(next := s.next + IdsUsed(e)), Next(s, e)) <==> Prompt(s, e)
  {
    hide Done;
    hide Next;
    hide Windowed;
    hide Punctual;
    hide ViewOf;
    hide Future;
    hide Closes;
    hide ApplyCommit;
    hide Alike;
    hide InTurn;
    NextIsCommit(s, e);
    SweepWritesOnly(s, e);
    var bumped := s.(next := s.next + IdsUsed(e));
    if e.ApplyDue? { SweepDone(s, e); }
    if Done(s, e).commit.Some? {
      var c := Done(s, e).commit.value;
      SweepCloses(s, e, threshold);
      var p := Lookup(s.records, e.rkey).value;
      ClosingAlike(s, c, e.rkey, p, s.next + 1);
      AlikeRest(s, Commits(s, c), bumped, Next(s, e));
      NotDueInTurn(s, e.rkey, p);
    } else {
      AlikeItself(s);
      AlikeRest(s, s, bumped, Next(s, e));
      if Lookup(s.records, e.rkey).Some? { NotDueInTurn(s, e.rkey, Lookup(s.records, e.rkey).value); }
    }
  }

  lemma NotDueInTurn(s: State, r: Rkey, p: Proposal)
    ensures !IsDue(p, s.clock) ==> InTurn(s, r, p)
  {
  }

  /** What two states share is a matter of their records and clocks once the rest is the same. */
  lemma AlikeRest(s: State, t: State, s': State, t': State)
    requires s'.records == s.records && t'.records == t.records && s'.clock == s.clock && t'.clock == t.clock
    requires s'.votes == t'.votes && s'.objections == t'.objections && s'.next == t'.next && s'.drafts == t'.drafts
    requires s.votes == t.votes && s.objections == t.objections && s.next == t.next && s.drafts == t.drafts
    ensures Alike(s', t') <==> Alike(s, t)
  {
    if Alike(s, t) { RestAlike(s, t, s', t'); }
    if Alike(s', t') { RestAlike(s', t', s, t); }
  }

  lemma SweepWritesOnly(s: State, e: Event)
    requires IsSweep(e)
    ensures var t := Next(s, e);
      t.votes == s.votes && t.objections == s.objections && t.drafts == s.drafts && t.next == s.next + IdsUsed(e)
  {
    hide Objectors;
    hide Lineage;
    hide ChangeOp;
    hide Unapplicable;
  }

  lemma TickIsClock(s: State, ms: nat)
    ensures Next(s, Tick(ms)).records == s.records && Next(s, Tick(ms)).clock == s.clock + ms
    ensures var t := Next(s, Tick(ms)); t.votes == s.votes && t.objections == s.objections && t.drafts == s.drafts && t.next == s.next + 4
  {
  }

  lemma TicksAlike(s: State, t: State, ms: nat)
    requires Alike(s, t) && EndedOn(t) == {}
    ensures Alike(Next(s, Tick(ms)), Next(t, Tick(ms)))
    ensures PendingShared(Next(s, Tick(ms)), Next(t, Tick(ms)))
  {
    hide Next;
    EagerPendingIsLive(s, t);
    hide ViewOf;
    hide Future;
    TickIsClock(s, ms);
    TickIsClock(t, ms);
    TickAlike(s, t, ms);
    RestAlike(s.(clock := s.clock + ms), t.(clock := t.clock + ms), Next(s, Tick(ms)), Next(t, Tick(ms)));
  }

  /** One event, handled lazily by one machine and eagerly by the other. */
  lemma SharedIsPlain(s: State, t: State)
    requires PendingShared(s, t) && PlainEnds(s) && s.clock == t.clock
    ensures PlainEnds(t)
  {
    forall r | Lookup(t.records, r).Some? ensures ChangesPlainly(t, Lookup(t.records, r).value) {
      if IsDue(Lookup(t.records, r).value, t.clock) { assert ChangesPlainly(s, Lookup(s.records, r).value); }
    }
  }

  /** One event, handled lazily by one machine and eagerly by the other. */
  lemma SimulationStep(s: State, t: State, e: Event, st: Standing)
    requires Alike(s, t) && EndedOn(t) == {}
    requires BookKept(s) && Orderly(s, e) && Windowed(s, st.threshold) && Punctual(s, e, st.threshold) && Prompt(s, e)
    requires PlainEnds(s) && PlainEnds(Next(s, e))
    ensures Alike(Next(s, e), NextEager(t, st, e)) && EndedOn(NextEager(t, st, e)) == {}
  {
    hide Next;
    hide Alike;
    hide BookKept;
    hide Orderly;
    hide Windowed;
    hide Punctual;
    hide Prompt;
    hide PlainEnds;
    hide EndedOn;
    hide CatchUp;
    hide PendingShared;
    if IsSweep(e) {
      SweepAlike(s, e, st.threshold);
      BothNext(s, t, s.next + IdsUsed(e));
      AlikeBack(s.(next := s.next + IdsUsed(e)), Next(s, e));
      AlikeTransitive(Next(s, e), s.(next := s.next + IdsUsed(e)), NextEager(t, st, e));
    } else if Unswept(e) {
      UnsweptAlike(s, t, e);
      UnsweptEndsNothing(t, st, e);
    } else {
      if e.Tick? { TicksAlike(s, t, e.ms); } else { RequestAlike(s, t, e, st.threshold); }
      WindowedNext(s, e, st.threshold);
      SameBasics(Next(s, e), Next(t, e));
      SharedIsUnheld(Next(s, e), Next(t, e), st);
      SharedIsPlain(Next(s, e), Next(t, e));
      CatchUpAlike(Next(t, e), st);
      AlikeTransitive(Next(s, e), Next(t, e), NextEager(t, st, e));
    }
  }

  lemma SameBasics(s: State, t: State)
    requires Alike(s, t)
    ensures s.objections == t.objections && s.clock == t.clock
  {
  }

  lemma BothNext(s: State, t: State, n: nat)
    requires Alike(s, t) && EndedOn(t) == {}
    ensures s.next == t.next && Alike(s.(next := n), t.(next := n)) && EndedOn(t.(next := n)) == {}
  {
    hide ViewOf;
    hide Future;
    NextIsNoMatter(s, t, n);
  }

  /**
   A sweep, and a request whose handler does not sweep, leave the two machines alike if
   and only if the sweep comes in turn, or the pending changes make no difference to
   the request.
   */
  lemma StepAlikeExactly(s: State, t: State, st: Standing, e: Event)
    requires Alike(s, t) && EndedOn(t) == {} && BookKept(s) && PlainEnds(s)
    requires Unswept(e) || (e.ApplyDue? && Windowed(s, st.threshold) && Punctual(s, e, st.threshold))
    ensures Alike(Next(s, e), NextEager(t, st, e)) <==> Prompt(s, e)
  {
    hide Next;
    hide Alike;
    hide BookKept;
    hide Windowed;
    hide Punctual;
    hide Prompt;
    hide PlainEnds;
    hide EndedOn;
    hide CatchUp;
    if Unswept(e) {
      UnsweptAlike(s, t, e);
      UnsweptEndsNothing(t, st, e);
    } else {
      SweepAlike(s, e, st.threshold);
      BothNext(s, t, s.next + IdsUsed(e));
      var bumped := s.(next := s.next + IdsUsed(e));
      if Alike(Next(s, e), NextEager(t, st, e)) {
        AlikeBack(Next(s, e), NextEager(t, st, e));
        AlikeTransitive(bumped, NextEager(t, st, e), Next(s, e));
      }
      if Alike(bumped, Next(s, e)) {
        AlikeBack(bumped, Next(s, e));
        AlikeTransitive(Next(s, e), bumped, NextEager(t, st, e));
      }
    }
  }

  lemma AlikeBack(s: State, t: State)
    requires Alike(s, t)
    ensures Alike(t, s)
  {
  }

  /** A creation that comes while a due proposal to leave the voting model is unswept: stored lazily, refused eagerly. */
  lemma CreationOutlivesModel(s: State, t: State, st: Standing, e: Event)
    requires Alike(s, t) && EndedOn(t) == {} && WouldCreate(e)
    requires VotingModel(SettingsOf(s.records)) && !VotingModel(PendingSettings(s)) && Lookup(s.records, s.next).None?
    ensures Lookup(Next(s, e).records, s.next).Some? && Lookup(Next(s, e).records, s.next).value.status == Open
    ensures Lookup(NextEager(t, st, e).records, s.next).None?
  {
    hide Future;
    hide ViewOf;
    hide Next;
    hide NextEager;
    PendingIsEager(s, t);
    CreatedBy(s, e);
    CreatedBy(t, e);
    UnsweptEndsNothing(t, st, e);
    assert ViewOf(s, s.next) == ViewOf(t, s.next);
    AbsentIsAbsent(s, s.next);
    AbsentIsAbsent(t, s.next);
  }

  // ── Runs ──────────────────────────────────────────────────────────

  ghost predicate PromptRun(states: seq<State>, es: seq<Event>, threshold: int) {
    && PunctualRun(states, es, threshold)
    && (forall i {:trigger es[i]} | 0 <= i < |es| :: Prompt(states[i], es[i]))
    && (forall i {:trigger states[i]} | 0 <= i < |states| :: PlainEnds(states[i]))
  }

  /** Where the two runs start: the eager machine has caught up with the lazy one. */
  ghost predicate StartTogether(s: State, t: State, st: Standing) {
    BookKept(s) && Windowed(s, st.threshold) && t == CatchUp(s, st)
  }

  /** At every point the two machines differ only in the ended windows the lazy one has yet to close. */
  lemma {:induction false} LazyRefinesEager(lazy: seq<State>, eager: seq<State>, es: seq<Event>, st: Standing, n: nat)
    requires PromptRun(lazy, es, st.threshold) && IsEagerRun(eager, st, es) && StartTogether(lazy[0], eager[0], st) && n < |lazy|
    ensures Alike(lazy[n], eager[n]) && EndedOn(eager[n]) == {}
    decreases n
  {
    hide Next;
    hide NextEager;
    hide Alike;
    hide BookKept;
    hide Windowed;
    hide Orderly;
    hide Punctual;
    hide Prompt;
    hide EndedOn;
    hide PlainEnds;
    if n == 0 {
      SharedIsUnheld(lazy[0], lazy[0], st);
      CatchUpAlike(lazy[0], st);
    } else {
      LazyRefinesEager(lazy, eager, es, st, n - 1);
      BookKeptRun(lazy, es, n - 1);
      WindowedRun(lazy, es, st.threshold, n - 1);
      OrderlyStep(lazy, es, n - 1);
      var e := es[n - 1];
      SimulationStep(lazy[n - 1], eager[n - 1], e, st);
    }
  }

  /** A proposal the sweeps have nothing left to do for has the eager status; while it is open to anything, it is the eager proposal. */
  lemma SweptStatusIsEager(lazy: seq<State>, eager: seq<State>, es: seq<Event>, st: Standing, n: nat, r: Rkey)
    requires PromptRun(lazy, es, st.threshold) && IsEagerRun(eager, st, es) && StartTogether(lazy[0], eager[0], st) && n < |lazy|
    requires Lookup(lazy[n].records, r).Some? && r !in EndedOn(lazy[n])
    ensures Lookup(eager[n].records, r).Some?
    ensures Lookup(eager[n].records, r).value.status == Lookup(lazy[n].records, r).value.status
    ensures !Closed(Lookup(lazy[n].records, r).value.status) ==> Lookup(eager[n].records, r) == Lookup(lazy[n].records, r)
  {
    LazyRefinesEager(lazy, eager, es, st, n);
    SettledSame(lazy[n], eager[n], r);
  }

  lemma SettledSame(s: State, t: State, r: Rkey)
    requires Alike(s, t) && EndedOn(t) == {} && Lookup(s.records, r).Some? && r !in EndedOn(s)
    ensures Lookup(t.records, r).Some? && Lookup(t.records, r).value.status == Lookup(s.records, r).value.status
    ensures !Closed(Lookup(s.records, r).value.status) ==> Lookup(t.records, r) == Lookup(s.records, r)
  {
    hide Future;
    EndedMeans(s, r);
    EndedMeans(t, r);
    assert ViewOf(s, r) == ViewOf(t, r);
  }

  /** A record no ended window is about is the eager one: the same changes have been made to it, in the same order. */
  lemma SweptRecordIsEager(lazy: seq<State>, eager: seq<State>, es: seq<Event>, st: Standing, n: nat, k: Key)
    requires PromptRun(lazy, es, st.threshold) && IsEagerRun(eager, st, es) && StartTogether(lazy[0], eager[0], st) && n < |lazy|
    requires !Reserved(k.collection) && DueFor(lazy[n], k) == {}
    ensures Content(eager[n].records, k) == Content(lazy[n].records, k)
  {
    LazyRefinesEager(lazy, eager, es, st, n);
    SameContent(lazy[n], eager[n], k);
  }

  lemma ApplySettles(s: State, e: Event, threshold: int)
    requires e.ApplyDue? && e.survived >= 1 && BookKept(s) && Plain(s, e) && Windowed(s, threshold) && Punctual(s, e, threshold)
    ensures var q := Lookup(Next(s, e).records, e.rkey); q.Some? ==> !IsDue(q.value, Next(s, e).clock)
  {
    hide Next;
    hide Done;
    hide BookKept;
    hide Windowed;
    hide Punctual;
    hide ApplyCommit;
    StoredAfter(s, e, e.rkey);
    NextIsCommit(s, e);
    SweepDone(s, e);
    if Done(s, e).commit.Some? { SweepCloses(s, e, threshold); }
  }

  lemma CloseSettles(s: State, e: Event)
    requires e.CloseOverride? && e.survived >= 1 && BookKept(s) && Plain(s, e)
    ensures var p, q := Lookup(s.records, e.rkey), Lookup(Next(s, e).records, e.rkey);
      q.Some? ==> !RoundOver(q.value, Next(s, e).clock) && (p.Some? && !IsDue(p.value, s.clock) ==> !IsDue(q.value, Next(s, e).clock))
  {
    hide Lineage;
    hide BookKept;
    StoredAfter(s, e, e.rkey);
  }

  /** A read whose two sweeps finish returns the eager status. */
  lemma ReadIsEager(lazy: seq<State>, eager: seq<State>, es: seq<Event>, st: Standing, n: nat, r: Rkey)
    requires PromptRun(lazy, es, st.threshold) && IsEagerRun(eager, st, es) && StartTogether(lazy[0], eager[0], st) && n + 2 < |lazy|
    requires es[n].ApplyDue? && es[n].rkey == r && es[n].survived >= 1
    requires es[n + 1].CloseOverride? && es[n + 1].rkey == r && es[n + 1].survived >= 1
    requires Lookup(lazy[n].records, r).Some?
    ensures Lookup(lazy[n + 2].records, r).Some? && Lookup(eager[n + 2].records, r).Some?
    ensures Lookup(lazy[n + 2].records, r).value.status == Lookup(eager[n + 2].records, r).value.status
  {
    hide Next;
    hide NextEager;
    hide Orderly;
    hide BookKept;
    hide Windowed;
    hide Punctual;
    hide Prompt;
    hide EndedOn;
    BookKeptRun(lazy, es, n);
    BookKeptRun(lazy, es, n + 1);
    WindowedRun(lazy, es, st.threshold, n);
    OrderlyStep(lazy, es, n);
    OrderlyStep(lazy, es, n + 1);
    ProposalsAdvance(lazy, es, n, n + 1, r);
    ProposalsAdvance(lazy, es, n, n + 2, r);
    ApplySettles(lazy[n], es[n], st.threshold);
    CloseSettles(lazy[n + 1], es[n + 1]);
    EndedMeans(lazy[n + 2], r);
    SweptStatusIsEager(lazy, eager, es, st, n + 2, r);
  }
}
