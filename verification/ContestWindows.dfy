/**
 Contest windows.  While the objection threshold stands and every objection that
 reaches it brings the hold it causes, no pending proposal is ever over its threshold;
 so a window that ends unheld approves.
 */
module ContestWindows {
  import opened Wrappers
  import opened DecisionRules
  import opened VoteTally
  import opened DelegationLoop
  import opened ProposalRecords
  import opened ProposalMachine
  import opened ProposalEvolution

  // ── No due proposal is over its objection threshold ───────────────

  ghost predicate NotYetHeld(s: State, threshold: int, r: Rkey) {
    Lookup(s.records, r).Some? && Lookup(s.records, r).value.status == Pending ==>
      var p := Lookup(s.records, r).value;
      p.applyAt.Some? && p.decision.Some? && p.decision.value.rkey < s.next && |Objectors(s.objections, r, p)| < threshold
  }

  predicate DecidesOn(records: Records, k: Rkey, r: Rkey) {
    LookupDecision(records, k).Some? && LookupDecision(records, k).value.proposal == r
  }

  ghost predicate DecidedLater(s: State) {
    && (forall o | o in s.objections :: o.decisionRkey < s.next)
    && (forall k, r | DecidesOn(s.records, k, r) :: Lookup(s.records, r).Some? && Lookup(s.records, r).value.status != Open)
    && (forall pid | pid in s.drafts :: s.drafts[pid].proposal.status == Open)
  }

  ghost predicate Windowed(s: State, threshold: int) {
    DecidedLater(s) && forall r :: NotYetHeld(s, threshold, r)
  }

  /** The threshold stands, and no objection is recorded without the hold it causes. */
  ghost predicate Punctual(s: State, e: Event, threshold: int) {
    && ObjectionThresholdOf(SettingsOf(s.records)) == threshold
    && (e.Object? ==> Done(s, e) == PlanOf(s, e))
  }

  lemma NoDecisionWhileOpen(s: State, r: Rkey)
    requires DecidedLater(s) && Lookup(s.records, r).Some? && Lookup(s.records, r).value.status == Open
    ensures DecisionsOn(s.records, r) == {}
  {
    forall k | k in s.records && k.collection == Decisions && s.records[k].record.DecisionRecord?
               && s.records[k].record.decision.proposal == r
      ensures false
    {
      assert k == DecisionKey(k.rkey);
      assert DecidesOn(s.records, k.rkey, r);
    }
  }

  lemma CastPending(s: State, r: Rkey, p: Proposal, voter: Did, side: Side, rows: seq<DelegationRow>, repos: Repos, lost: set<Did>)
    requires Lookup(s.records, r) == Some(p) && (p.status == Open || p.status == Override)
    requires p.status == Open ==> DecisionsOn(s.records, r) == {}
    ensures var c := CastPlan(s, r, p, voter, side, rows, repos, lost).commit.value;
      && PutBy(c, r).Some?
      && (PutBy(c, r).value.status == Pending ==>
            && PutBy(c, r).value.applyAt.Some? && PutBy(c, r).value.decision.Some?
            && PutBy(c, r).value.decision.value.rkey == s.next + |NewNames(p, voter, rows, repos)|)
      && (c.decision.Some? ==>
            && PutBy(c, r).value.status != Open
            && c.decision.value.Put? && c.decision.value.record.DecisionRecord? && c.decision.value.record.decision.proposal == r)
  {
    hide NewNames;
    hide TallyOf;
    hide VoteRows;
    hide Lineage;
    hide ChangeOp;
    hide Unapplicable;
    hide WindowEnd;
    hide Ruling;
    var names := NewNames(p, voter, rows, repos);
    var counted := WithVotes(p, side, names);
    var current := s.records[ProposalKey(r)].cid;
    var t := TallyOf(s.votes + AsSet(VoteRows(names, side, r, current, s.clock, s.next, lost + repos.missing)), r, counted, current);
    var ruling := Ruling(p, counted, t, SettingsOf(s.records));
  }

  lemma NobodyObjectsYet(s: State, r: Rkey, q: Proposal)
    requires forall o | o in s.objections :: o.decisionRkey < s.next
    requires q.decision.Some? && q.decision.value.rkey >= s.next
    ensures Objectors(s.objections, r, q) == {}
  {
  }

  /** The vote, if the event is one that rewrote `r`, left its window unobjected. */
  lemma PutNotYetHeld(s: State, e: Event, threshold: int, r: Rkey)
    requires BookKept(s) && Orderly(s, e) && Windowed(s, threshold) && Punctual(s, e, threshold)
    requires Done(s, e).commit.Some? && PutBy(Done(s, e).commit.value, r).Some?
    ensures NotYetHeld(Next(s, e), threshold, r)
  {
    hide CastPlan;
    hide NewNames;
    hide Lineage;
    hide ChangeOp;
    hide Unapplicable;
    hide Objectors;
    hide DelegationRows;
    DoneIsProper(s, e);
    var c := Done(s, e).commit.value;
    ProperCommitStores(s, c, r);
    var q := PutBy(c, r).value;
    if q.status == Pending {
      PendingByVote(s, e, r);
      var p := Lookup(s.records, r).value;
      if p.status == Open { NoDecisionWhileOpen(s, r); }
      CastPending(s, r, p, e.voter, e.side, DelegationRows(s.records, e.order), e.repos, e.lost);
      NamesAreFew(s, e, p);
      NobodyObjectsYet(s, r, q);
      assert Next(s, e).objections == s.objections;
    }
  }

  lemma OnlyObjectionsObject(s: State, e: Event)
    requires PlanOf(s, e).objection.Some?
    ensures e.Object? && PlanOf(s, e).objection.value.proposal == e.rkey && Lookup(s.records, e.rkey).Some?
    ensures var p := Lookup(s.records, e.rkey).value;
      p.status == Pending && p.decision.Some? && PlanOf(s, e).objection.value.decisionRkey == p.decision.value.rkey
  {
    hide NewNames;
    hide VoteRows;
    hide Ruling;
    hide ResolutionCommit;
    hide Objectors;
    hide ChangeOp;
  }

  lemma PendingByVote(s: State, e: Event, r: Rkey)
    requires BookKept(s) && DecidedLater(s) && PlanOf(s, e).commit.Some? && PutBy(PlanOf(s, e).commit.value, r).Some?
    requires PutBy(PlanOf(s, e).commit.value, r).value.status == Pending
    ensures e.Vote? && e.rkey == r && Lookup(s.records, r).Some?
    ensures var p := Lookup(s.records, r).value;
      && (p.status == Open || p.status == Override)
      && PlanOf(s, e).commit == CastPlan(s, r, p, e.voter, e.side, DelegationRows(s.records, e.order), e.repos, e.lost).commit
      && PlanOf(s, e).objection.None?
  {
    hide CastPlan;
    hide Lineage;
    hide ChangeOp;
    hide Unapplicable;
    hide Objectors;
    hide NewNames;
    if PlanOf(s, e).objection.Some? { OnlyObjectionsObject(s, e); }
    if e.Vote? && Lookup(s.records, e.rkey).Some? {
      var p := Lookup(s.records, e.rkey).value;
      if e.rkey != r { CastPutsHere(s, e.rkey, p, e.voter, e.side, DelegationRows(s.records, e.order), e.repos, e.lost, r); }
    }
  }

  lemma CastPutsHere(s: State, r: Rkey, p: Proposal, voter: Did, side: Side, rows: seq<DelegationRow>, repos: Repos, lost: set<Did>, r': Rkey)
    requires ProposalKey(r) in s.records && r' != r
    ensures PutBy(CastPlan(s, r, p, voter, side, rows, repos, lost).commit.value, r').None?
  {
  }

  lemma KeptNotYetHeld(s: State, e: Event, threshold: int, r: Rkey)
    requires BookKept(s) && Orderly(s, e) && Windowed(s, threshold) && Punctual(s, e, threshold)
    requires Done(s, e).commit.Some? ==> PutBy(Done(s, e).commit.value, r).None?
    ensures NotYetHeld(Next(s, e), threshold, r)
  {
    hide PlanOf;
    hide Prefix;
    hide Proper;
    hide Objectors;
    hide Plain;
    hide BookKept;
    DoneIsProper(s, e);
    if Done(s, e).commit.Some? { ProperCommitStores(s, Done(s, e).commit.value, r); }
    assert NotYetHeld(s, threshold, r);
    if Lookup(s.records, r).Some? && Lookup(s.records, r).value.status == Pending {
      ObjectorsAfter(s, e, threshold, r, Lookup(s.records, r).value);
    }
  }

  lemma ObjectorsAfter(s: State, e: Event, threshold: int, r: Rkey, p: Proposal)
    requires Lookup(s.records, r) == Some(p) && Punctual(s, e, threshold)
    requires |Objectors(s.objections, r, p)| < threshold
    requires Done(s, e).commit.Some? ==> PutBy(Done(s, e).commit.value, r).None?
    ensures |Objectors(Next(s, e).objections, r, p)| < threshold
  {
    if e.Object? && e.rkey == r && PlanOf(s, e).objection.Some? {
      assert Next(s, e).objections == s.objections + {PlanOf(s, e).objection.value};
      assert PlanOf(s, e).commit.None?;
    } else {
      ObjectionsElsewhere(s, e, r, p);
    }
  }

  lemma ObjectionsElsewhere(s: State, e: Event, r: Rkey, p: Proposal)
    requires !(e.Object? && e.rkey == r && PlanOf(s, e).objection.Some?)
    ensures Objectors(Next(s, e).objections, r, p) == Objectors(s.objections, r, p)
  {
    hide CastPlan;
    var now := Next(s, e).objections;
    forall o | o in now && o.proposal == r ensures o in s.objections {
      if o !in s.objections {
        assert PlanOf(s, e).objection == Some(o);
        OnlyObjectionsObject(s, e);
      }
    }
  }

  lemma DecidedLaterNext(s: State, e: Event, threshold: int)
    requires BookKept(s) && Orderly(s, e) && Windowed(s, threshold)
    ensures DecidedLater(Next(s, e))
  {
    hide PlanOf;
    hide Plain;
    hide BookKept;
    DoneIsProper(s, e);
    forall k, r | DecidesOn(Next(s, e).records, k, r)
      ensures Lookup(Next(s, e).records, r).Some? && Lookup(Next(s, e).records, r).value.status != Open
    {
      if DecidesOn(s.records, k, r) {
        StepEvolves(s, e, r);
      } else {
        NewDecisionCloses(s, e, k, r);
      }
    }
    ObjectionsCitePast(s, e, threshold);
  }

  lemma OnlyNewDecision(s: State, c: Commit, k: Rkey, r: Rkey)
    requires Proper(s, c) && DecidesOn(ApplyCommit(s.records, c), k, r) && !DecidesOn(s.records, k, r)
    ensures c.decision.Some? && c.decision.value.Put? && c.decision.value.record.DecisionRecord?
    ensures c.decision.value.record.decision.proposal == r
  {
  }

  lemma NewDecisionCloses(s: State, e: Event, k: Rkey, r: Rkey)
    requires BookKept(s) && Orderly(s, e) && DecidedLater(s)
    requires DecidesOn(Next(s, e).records, k, r) && !DecidesOn(s.records, k, r)
    ensures Lookup(Next(s, e).records, r).Some? && Lookup(Next(s, e).records, r).value.status != Open
  {
    hide CastPlan;
    hide PlanOf;
    hide Done;
    hide DelegationRows;
    hide BookKept;
    hide Proper;
    DoneIsProper(s, e);
    StoredAfter(s, e, r);
    var c := Done(s, e).commit.value;
    OnlyNewDecision(s, c, k, r);
    DecisionByVote(s, e);
    var p := Lookup(s.records, e.rkey).value;
    if p.status == Open { NoDecisionWhileOpen(s, e.rkey); }
    CastPending(s, e.rkey, p, e.voter, e.side, DelegationRows(s.records, e.order), e.repos, e.lost);
  }

  lemma DecisionByVote(s: State, e: Event)
    requires PlanOf(s, e).commit.Some? && PlanOf(s, e).commit.value.decision.Some?
    ensures e.Vote? && Lookup(s.records, e.rkey).Some?
    ensures var p := Lookup(s.records, e.rkey).value;
      && (p.status == Open || p.status == Override)
      && PlanOf(s, e).commit == CastPlan(s, e.rkey, p, e.voter, e.side, DelegationRows(s.records, e.order), e.repos, e.lost).commit
  {
    hide CastPlan;
    hide Lineage;
    hide ChangeOp;
    hide Unapplicable;
    hide Objectors;
  }

  lemma ObjectionsCitePast(s: State, e: Event, threshold: int)
    requires BookKept(s) && Windowed(s, threshold)
    ensures forall o | o in Next(s, e).objections :: o.decisionRkey < Next(s, e).next
  {
    hide CastPlan;
    hide Objectors;
    forall o | o in Next(s, e).objections ensures o.decisionRkey < Next(s, e).next {
      if o !in s.objections {
        assert PlanOf(s, e).objection == Some(o);
        OnlyObjectionsObject(s, e);
        assert NotYetHeld(s, threshold, e.rkey);
      }
    }
  }

  lemma WindowedNext(s: State, e: Event, threshold: int)
    requires BookKept(s) && Orderly(s, e) && Windowed(s, threshold) && Punctual(s, e, threshold)
    ensures Windowed(Next(s, e), threshold)
  {
    hide Next;
    hide Orderly;
    hide Punctual;
    DecidedLaterNext(s, e, threshold);
    forall r ensures NotYetHeld(Next(s, e), threshold, r) {
      if Done(s, e).commit.Some? && PutBy(Done(s, e).commit.value, r).Some? {
        PutNotYetHeld(s, e, threshold, r);
      } else {
        KeptNotYetHeld(s, e, threshold, r);
      }
    }
  }

  lemma StoredAfter(s: State, e: Event, r: Rkey)
    requires BookKept(s) && Plain(s, e)
    ensures Next(s, e).clock >= s.clock
    ensures Next(s, e).log == s.log + (if Done(s, e).commit.Some? then [Done(s, e).commit.value] else [])
    ensures Lookup(Next(s, e).records, r) ==
      if Done(s, e).commit.Some? && PutBy(Done(s, e).commit.value, r).Some? then PutBy(Done(s, e).commit.value, r)
      else Lookup(s.records, r)
  {
    DoneIsProper(s, e);
    if Done(s, e).commit.Some? { ProperCommitStores(s, Done(s, e).commit.value, r); }
  }

  // ── Runs ──────────────────────────────────────────────────────────

  ghost predicate PunctualRun(states: seq<State>, es: seq<Event>, threshold: int) {
    && OrderlyRun(states, es)
    && forall i {:trigger es[i]} | 0 <= i < |es| :: Punctual(states[i], es[i], threshold)
  }

  lemma OrderlyStep(states: seq<State>, es: seq<Event>, i: nat)
    requires OrderlyRun(states, es) && i < |es|
    ensures states[i + 1] == Next(states[i], es[i]) && Orderly(states[i], es[i])
  {
    hide Next;
    hide Plain;
    hide AmendsOpen;
    StepOf(states, es, i);
    var e := es[i];
  }

  lemma {:induction false} WindowedRun(states: seq<State>, es: seq<Event>, threshold: int, n: nat)
    requires PunctualRun(states, es, threshold) && BookKept(states[0]) && Windowed(states[0], threshold) && n < |states|
    ensures Windowed(states[n], threshold)
    decreases n
  {
    hide Next;
    hide Orderly;
    hide BookKept;
    hide Punctual;
    hide Windowed;
    if n > 0 {
      WindowedRun(states, es, threshold, n - 1);
      BookKeptRun(states, es, n - 1);
      OrderlyStep(states, es, n - 1);
      var e := es[n - 1];
      WindowedNext(states[n - 1], e, threshold);
    }
  }
}
