/**
 The override round.  Its bar is frozen on the proposal when the round opens, and at
 every point of every run a round is carried exactly when the For list has reached
 that bar, whatever happens to the settings meanwhile.
 */
module OverrideRound {
  import opened Wrappers
  import opened DecisionRules
  import opened VoteTally
  import opened DelegationLoop
  import opened ProposalRecords
  import opened ProposalMachine
  import opened ProposalEvolution
  import ProposalHistory

  predicate Reached(p: Proposal) { p.round.Some? && |p.votesFor| as real >= p.round.value.bar }

  /** An open round is below its bar; a closed one was carried in time at the bar, or lapsed below it. */
  predicate AnswersBar(p: Proposal) {
    match p.status
    case Override => p.round.Some? && !Reached(p)
    case Decided(o) => p.round.Some? ==>
      && (o == Approved <==> Reached(p))
      && p.resolvedAt.Some?
      && (o == Approved ==> p.roundOutcome == Some(Carried) && p.resolvedAt.value < p.round.value.expiresAt)
      && (o == Rejected ==> p.roundOutcome == Some(Lapsed) && p.resolvedAt.value >= p.round.value.expiresAt)
    case _ => p.round.None?
  }

  ghost predicate AllAnswer(s: State) {
    && (forall r | Lookup(s.records, r).Some? :: AnswersBar(Lookup(s.records, r).value))
    && (forall pid | pid in s.drafts :: s.drafts[pid].proposal.round.None?)
  }

  /** This vote is counted in an override round, and leaves these lists. */
  ghost predicate CountsInRound(s: State, e: Event, p: Proposal) {
    && e.Vote? && Lookup(s.records, e.rkey) == Some(p) && p.status == Override
    && VoteGate(p, s.clock, e.voter, e.repos) == Accept && ListsDelegations(s.records, e.order, e.voter)
  }

  ghost function CountedBy(s: State, e: Event, p: Proposal): Proposal
    requires e.Vote?
  {
    WithVotes(p, e.side, NewNames(p, e.voter, DelegationRows(s.records, e.order), e.repos))
  }

  /** The tally this vote resolves on: the records as they are once its own are written. */
  ghost function TallyAt(s: State, e: Event, p: Proposal): map<Did, VoteRow>
    requires e.Vote? && Lookup(s.records, e.rkey) == Some(p)
  {
    var names := NewNames(p, e.voter, DelegationRows(s.records, e.order), e.repos);
    var current := s.records[ProposalKey(e.rkey)].cid;
    TallyOf(s.votes + AsSet(VoteRows(names, e.side, e.rkey, current, s.clock, s.next, e.lost + e.repos.missing)),
            e.rkey, CountedBy(s, e, p), current)
  }

  /** The signed records and the cached list are on the same side of the bar. */
  ghost predicate RecordsAgree(s: State, e: Event) {
    forall p | CountsInRound(s, e, p) && p.evidence ::
      |ForVoters(TallyAt(s, e, p))| as real >= p.round.value.bar <==> Reached(CountedBy(s, e, p))
  }

  /** A counted vote closes the round exactly when records and cache have both reached the bar. */
  lemma ClosesAtBar(s: State, e: Event, p: Proposal)
    requires CountsInRound(s, e, p)
    ensures var c := PlanOf(s, e).commit;
      && c.Some? && PutBy(c.value, e.rkey).Some?
      && var q := PutBy(c.value, e.rkey).value;
         && q.votesFor == CountedBy(s, e, p).votesFor && q.round == p.round
         && (q.status == Decided(Approved) <==>
               Reached(q) && (p.evidence ==> |ForVoters(TallyAt(s, e, p))| as real >= p.round.value.bar))
         && (q.status == Decided(Approved) ==>
               q.roundOutcome == Some(Carried) && q.resolvedAt == Some(s.clock) && s.clock < p.round.value.expiresAt)
         && (q.status != Decided(Approved) ==> q.status == Override)
  {
    CastAtBar(s, e.rkey, p, e.voter, e.side, DelegationRows(s.records, e.order), e.repos, e.lost);
  }

  lemma CastAtBar(s: State, r: Rkey, p: Proposal, voter: Did, side: Side, rows: seq<DelegationRow>, repos: Repos, lost: set<Did>)
    requires Lookup(s.records, r) == Some(p) && p.status == Override && p.round.Some?
    ensures var c := CastPlan(s, r, p, voter, side, rows, repos, lost).commit;
      var names := NewNames(p, voter, rows, repos);
      var counted := WithVotes(p, side, names);
      var current := s.records[ProposalKey(r)].cid;
      var t := TallyOf(s.votes + AsSet(VoteRows(names, side, r, current, s.clock, s.next, lost + repos.missing)), r, counted, current);
      && c.Some? && PutBy(c.value, r).Some?
      && var q := PutBy(c.value, r).value;
         && q.votesFor == counted.votesFor && q.round == p.round
         && (q.status == Decided(Approved) <==> Reached(q) && (p.evidence ==> |ForVoters(t)| as real >= p.round.value.bar))
         && (q.status == Decided(Approved) ==> q.roundOutcome == Some(Carried) && q.resolvedAt == Some(s.clock))
         && (q.status != Decided(Approved) ==> q.status == Override)
  {
    var names := NewNames(p, voter, rows, repos);
    var counted := WithVotes(p, side, names);
    var current := s.records[ProposalKey(r)].cid;
    var t := TallyOf(s.votes + AsSet(VoteRows(names, side, r, current, s.clock, s.next, lost + repos.missing)), r, counted, current);
    assert Rule(p, |counted.votesFor|, |counted.votesAgainst|, SettingsOf(s.records)) == DecideOverride(|counted.votesFor|, p.round.value.bar);
    assert Rule(p, |ForVoters(t)|, |AgainstVoters(t)|, SettingsOf(s.records)) == DecideOverride(|ForVoters(t)|, p.round.value.bar);
  }

  lemma CastAnswers(s: State, e: Event, p: Proposal)
    requires CountsInRound(s, e, p) && RecordsAgree(s, e)
    ensures PutBy(PlanOf(s, e).commit.value, e.rkey).Some?
    ensures AnswersBar(PutBy(PlanOf(s, e).commit.value, e.rkey).value)
  {
    ClosesAtBar(s, e, p);
    hide PlanOf;
    hide TallyAt;
  }

  lemma OpenCastAnswers(s: State, r: Rkey, p: Proposal, voter: Did, side: Side, rows: seq<DelegationRow>, repos: Repos, lost: set<Did>)
    requires Lookup(s.records, r) == Some(p) && p.status == Open && p.round.None?
    ensures var c := CastPlan(s, r, p, voter, side, rows, repos, lost).commit;
      c.Some? && PutBy(c.value, r).Some? && AnswersBar(PutBy(c.value, r).value)
  {
  }

  lemma HeldAnswers(s: State, p: Proposal, objectors: set<Did>, electorate: nat)
    requires p.status == Pending && p.round.None?
    ensures AnswersBar(Held(s, p, objectors, electorate))
  {
  }

  /**
   A hold starts the vote over.  The evidence for the approval and the end of its window
   stay; nobody has voted yet and no earlier record counts; and from here on only the
   bar frozen now decides, whatever the settings become.
   */
  lemma HoldStartsOver(s: State, p: Proposal, objectors: set<Did>, electorate: nat, later: Option<Settings>, v: VoteRow, known: set<Cid>)
    requires p.status == Pending && p.round.None?
    ensures var q := Held(s, p, objectors, electorate);
      && Evolves(p, q) && AnswersBar(q)
      && q.decision == p.decision && q.applyAt == p.applyAt && q.objectors == objectors
      && (q.status == Override <==> !HoldIsFinal(SettingsOf(s.records)))
      && (q.status == Override ==>
            && q.votesFor == [] && q.votesAgainst == []
            && (Before(v.createdAt, s.clock) ==> !IsCountable(v, known, Some(TallyEpoch(q))))
            && (forall votesFor: nat, votesAgainst: nat ::
                  Rule(q, votesFor, votesAgainst, later) == Some(Approved) <==> votesFor as real >= q.round.value.bar)
            && q.round.value.bar >= 1.0 && q.round.value.expiresAt >= s.clock)
  {
    var settings := SettingsOf(s.records);
    assert OverrideDaysOf(settings) * DAY_MS >= 0.0;
  }

  lemma VotePutsOnly(s: State, e: Event, r: Rkey)
    requires e.Vote? && PlanOf(s, e).commit.Some? && PutBy(PlanOf(s, e).commit.value, r).Some?
    ensures r == e.rkey
  {
  }

  lemma VotePutAnswers(s: State, e: Event, r: Rkey)
    requires e.Vote? && AllAnswer(s) && RecordsAgree(s, e)
    requires PlanOf(s, e).commit.Some? && PutBy(PlanOf(s, e).commit.value, r).Some?
    ensures AnswersBar(PutBy(PlanOf(s, e).commit.value, r).value)
  {
    VotePutsOnly(s, e, r);
    var p := Lookup(s.records, r).value;
    if VoteGate(p, s.clock, e.voter, e.repos) == Accept {
      if p.status == Override {
        CastAnswers(s, e, p);
      } else {
        OpenCastAnswers(s, r, p, e.voter, e.side, DelegationRows(s.records, e.order), e.repos, e.lost);
      }
    }
  }

  lemma ObjectPutAnswers(s: State, e: Event, r: Rkey)
    requires AllAnswer(s) && e.Object? && PlanOf(s, e).commit.Some? && PutBy(PlanOf(s, e).commit.value, r).Some?
    ensures AnswersBar(PutBy(PlanOf(s, e).commit.value, r).value)
  {
    hide Lineage;
    hide Objectors;
    hide Held;
    var p := Lookup(s.records, r).value;
    HeldAnswers(s, p, Objectors(s.objections + {PlanOf(s, e).objection.value}, r, p), e.electorate);
  }

  lemma ApplyPutAnswers(s: State, e: Event, r: Rkey)
    requires AllAnswer(s) && e.ApplyDue? && PlanOf(s, e).commit.Some? && PutBy(PlanOf(s, e).commit.value, r).Some?
    ensures AnswersBar(PutBy(PlanOf(s, e).commit.value, r).value)
  {
    hide Lineage;
    hide ChangeOp;
    hide Unapplicable;
    hide Objectors;
    hide Held;
    var p := Lookup(s.records, r).value;
    HeldAnswers(s, p, Objectors(s.objections, r, p), e.electorate);
  }

  lemma PutAnswers(s: State, e: Event, r: Rkey)
    requires AllAnswer(s) && BookKept(s) && RecordsAgree(s, e)
    requires PlanOf(s, e).commit.Some? && PutBy(PlanOf(s, e).commit.value, r).Some?
    ensures AnswersBar(PutBy(PlanOf(s, e).commit.value, r).value)
  {
    hide VotePlan;
    hide ObjectPlan;
    hide ApplyPlan;
    hide Lineage;
    hide RecordsAgree;
    match e
    case Vote(_, _, _, _, _, _, _) => VotePutAnswers(s, e, r);
    case Object(_, _, _, _, _) => ObjectPutAnswers(s, e, r);
    case ApplyDue(_, _, _) => ApplyPutAnswers(s, e, r);
    case AmendWrite(pid) => if pid in s.drafts { assert DraftKept(s, s.drafts[pid]); }
    case _ =>
  }

  lemma AnswersNext(s: State, e: Event)
    requires AllAnswer(s) && BookKept(s) && Plain(s, e) && RecordsAgree(s, e)
    ensures AllAnswer(Next(s, e))
  {
    hide PlanOf;
    hide Prefix;
    hide BookKept;
    hide Plain;
    hide RecordsAgree;
    hide Proper;
    DoneIsProper(s, e);
    forall r | Lookup(Next(s, e).records, r).Some? ensures AnswersBar(Lookup(Next(s, e).records, r).value) {
      if Done(s, e).commit.Some? {
        ProperCommitStores(s, Done(s, e).commit.value, r);
        if PutBy(Done(s, e).commit.value, r).Some? { PutAnswers(s, e, r); }
      }
    }
  }

  ghost predicate AgreeingRun(states: seq<State>, es: seq<Event>) {
    && PlainRun(states, es)
    && forall i {:trigger es[i]} | 0 <= i < |es| :: RecordsAgree(states[i], es[i])
  }

  /**
   While records and cache agree, an override round carries at exactly the first
   in-window vote after which the For list reaches the frozen bar: at every point an
   open round is below its bar, an approved one at it or above, a rejected one below.
   */
  lemma {:induction false} RoundsAnswerTheirBar(states: seq<State>, es: seq<Event>, n: nat)
    requires AgreeingRun(states, es) && BookKept(states[0]) && AllAnswer(states[0]) && n < |states|
    ensures AllAnswer(states[n])
    decreases n
  {
    hide Next;
    hide Plain;
    hide BookKept;
    hide AllAnswer;
    hide RecordsAgree;
    if n > 0 {
      RoundsAnswerTheirBar(states, es, n - 1);
      BookKeptRun(states, es, n - 1);
      StepOf(states, es, n - 1);
      var e := es[n - 1];
      AnswersNext(states[n - 1], e);
    }
  }

  // ── Waiting out the window ────────────────────────────────────────

  lemma AppliedByVote(s: State, e: Event, r: Rkey)
    requires e.Vote? && ProposalHistory.Applies(s, e, r) && Lookup(s.records, r).Some? && Lookup(s.records, r).value.status == Override
    ensures PutBy(Done(s, e).commit.value, r).Some? && Reached(PutBy(Done(s, e).commit.value, r).value)
    ensures PutBy(Done(s, e).commit.value, r).value.round == Lookup(s.records, r).value.round
  {
    hide CastPlan;
    hide TallyAt;
    hide Lineage;
    VotePutsOnly(s, e, r);
    var p := Lookup(s.records, r).value;
    ProposalHistory.ApplyingPutsClosed(s, e, r);
    assert VoteGate(p, s.clock, e.voter, e.repos) == Accept && ListsDelegations(s.records, e.order, e.voter);
    ClosesAtBar(s, e, p);
  }

  /**
   Once a proposal waits out its contest window, its change is made by a sweep at or
   after the window's end, with too few objections standing; or else it was held, and
   is made by the vote that brings the override round to its frozen bar.
   */
  lemma PendingChangeWaits(states: seq<State>, es: seq<Event>, i: nat, j: nat, r: Rkey)
    requires PlainRun(states, es) && BookKept(states[0]) && i <= j < |es| && AmendedOpen(states, es, i, j, r)
    requires Lookup(states[i].records, r).Some? && Lookup(states[i].records, r).value.status == Pending
    requires ProposalHistory.Applies(states[j], es[j], r)
    ensures var s, e, p := states[j], es[j], Lookup(states[i].records, r).value;
      || (e.ApplyDue? && Lookup(s.records, r) == Some(p) && p.applyAt.Some? && p.applyAt.value <= s.clock
          && |Objectors(s.objections, r, p)| < ObjectionThresholdOf(SettingsOf(s.records)))
      || (e.Vote? && Lookup(s.records, r).Some? && Lookup(s.records, r).value.status == Override
          && PutBy(Done(s, e).commit.value, r).Some? && Reached(PutBy(Done(s, e).commit.value, r).value)
          && PutBy(Done(s, e).commit.value, r).value.round == Lookup(s.records, r).value.round)
  {
    hide Next;
    hide PlanOf;
    hide BookKept;
    hide Objectors;
    var s, e := states[j], es[j];
    ProposalsAdvance(states, es, i, j, r);
    BookKeptRun(states, es, j);
    StepOf(states, es, j);
    ProposalHistory.ApplyingPutsClosed(s, e, r);
    if Lookup(s.records, r).value.status == Pending {
      ProposalHistory.PendingStepWaits(s, e, r);
    } else {
      AppliesByStep(s, e, r);
      AppliedByVote(s, e, r);
    }
  }

  lemma AppliesByStep(s: State, e: Event, r: Rkey)
    requires ProposalHistory.Applies(s, e, r) && Lookup(s.records, r).Some? && Lookup(s.records, r).value.status == Override
    ensures e.Vote?
  {
    hide Objectors;
    hide Lineage;
    hide CastPlan;
    hide ChangeOp;
    hide Unapplicable;
  }
}
