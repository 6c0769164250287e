/**
 What a vote does, read off the stored records before and after it: when it is taken,
 whom it counts, what it writes, and when it decides the proposal.
 */
module VoteRules {
  import opened Wrappers
  import opened DecisionRules
  import opened VoteTally
  import opened DelegationLoop
  import opened ProposalRecords
  import opened ProposalMachine
  import opened ProposalEvolution
  import opened StoredRules
  import ProposalHistory
  import OverrideRound

  // ── When a vote is taken ──────────────────────────────────────────

  /** Voting is open: on an open proposal that has not expired, or in an override round that has not ended. */
  predicate InTime(p: Proposal, now: Time) {
    || (p.status == Open && now <= p.expiresAt)
    || (p.status == Override && p.round.Some? && now < p.round.value.expiresAt)
  }

  predicate HasVoted(p: Proposal, d: Did) { d in p.votesFor || d in p.votesAgainst }

  predicate HasRepo(repos: Repos, d: Did) { d !in repos.missing && d !in repos.unknown }

  /** The vote comes in time, is the voter's first, and can be recorded where records are the evidence. */
  predicate MayVote(p: Proposal, now: Time, voter: Did, repos: Repos) {
    InTime(p, now) && !HasVoted(p, voter) && (p.evidence ==> HasRepo(repos, voter))
  }

  lemma GateExactly(p: Proposal, now: Time, voter: Did, repos: Repos)
    ensures VoteGate(p, now, voter, repos) == Accept <==> MayVote(p, now, voter, repos)
    ensures VoteGate(p, now, voter, repos) == Expire <==> p.status == Open && p.expiresAt < now
  {
  }

  /** A finished vote on a stored proposal, listing the voter's delegations. */
  ghost predicate VotesOn(s: State, e: Event, p: Proposal) {
    && e.Vote? && Lookup(s.records, e.rkey) == Some(p) && ListsDelegations(s.records, e.order, e.voter)
    && Done(s, e) == PlanOf(s, e) && BookKept(s) && Plain(s, e)
  }

  /** A vote that may not be taken changes nothing, except that it closes an open proposal that has expired. */
  lemma RefusedVote(s: State, e: Event, p: Proposal)
    requires VotesOn(s, e, p) && !MayVote(p, s.clock, e.voter, e.repos)
    ensures var t := Next(s, e);
      && t.votes == s.votes && t.objections == s.objections
      && if p.status == Open && p.expiresAt < s.clock
         then Lookup(t.records, e.rkey).Some? && Lookup(t.records, e.rkey).value.status == Expired
              && Lookup(t.records, e.rkey).value.votesFor == p.votesFor && Lookup(t.records, e.rkey).value.votesAgainst == p.votesAgainst
         else t.records == s.records
  {
    hide Lineage;
    hide BookKept;
    GateExactly(p, s.clock, e.voter, e.repos);
    if VoteGate(p, s.clock, e.voter, e.repos) == Expire { NextLookup(s, e, e.rkey); }
  }

  // ── Whom it counts ────────────────────────────────────────────────

  /** Some record on file delegates from `d` to the voter. */
  ghost predicate DelegatesTo(records: Records, d: Did, voter: Did) {
    exists k: Key :: k.collection == Delegations && k in records && records[k].record == DelegationRecord(Some(d), voter)
  }

  /** Counted with the voter: whoever delegates to them, has not voted, and has a repository to record it in, or one that could not be checked. */
  ghost predicate CountedWith(s: State, e: Event, p: Proposal, d: Did)
    requires e.Vote?
  {
    || d == e.voter
    || (DelegatesTo(s.records, d, e.voter) && !HasVoted(p, d) && (p.evidence ==> d !in e.repos.missing || d in e.repos.unknown))
  }

  lemma {:induction false} RowsName(records: Records, order: seq<Rkey>, d: Did)
    ensures d in Delegators(DelegationRows(records, order)) <==>
      exists r :: r in order && Key(Delegations, r) in records && records[Key(Delegations, r)].record.DelegationRecord?
                  && records[Key(Delegations, r)].record.delegator == Some(d)
    decreases |order|
  {
    if order != [] {
      RowsName(records, order[1..], d);
      assert order == [order[0]] + order[1..];
      var k := Key(Delegations, order[0]);
      var head := if k in records && records[k].record.DelegationRecord?
        then [DelegationRow(order[0], records[k].cid, records[k].record.delegator)] else [];
      var rest := DelegationRows(records, order[1..]);
      assert DelegationRows(records, order) == head + rest;
      DelegatorsConcat(head, rest);
      if k in records && records[k].record.DelegationRecord? { assert head[0] in head; }
    }
  }

  lemma DelegatorsConcat(a: seq<DelegationRow>, b: seq<DelegationRow>)
    ensures Delegators(a + b) == Delegators(a) + Delegators(b)
  {
    forall r | r in a || r in b ensures r in a + b { }
  }

  lemma ListedDelegators(records: Records, order: seq<Rkey>, voter: Did, d: Did)
    requires ListsDelegations(records, order, voter)
    ensures d in Delegators(DelegationRows(records, order)) <==> DelegatesTo(records, d, voter)
  {
    RowsName(records, order, d);
    if d in Delegators(DelegationRows(records, order)) {
      var r :| r in order && Key(Delegations, r) in records && records[Key(Delegations, r)].record.DelegationRecord?
               && records[Key(Delegations, r)].record.delegator == Some(d);
      assert Delegates(records, Key(Delegations, r), voter);
      assert records[Key(Delegations, r)].record == DelegationRecord(Some(d), voter);
    }
    if DelegatesTo(records, d, voter) {
      var k: Key :| k.collection == Delegations && k in records && records[k].record == DelegationRecord(Some(d), voter);
      assert Delegates(records, k, voter);
      assert k == Key(Delegations, k.rkey) && k.rkey in order;
    }
  }

  lemma NewNamesExactly(s: State, e: Event, p: Proposal, d: Did)
    requires e.Vote? && ListsDelegations(s.records, e.order, e.voter) && !HasVoted(p, e.voter)
    ensures d in NewNames(p, e.voter, DelegationRows(s.records, e.order), e.repos) <==> CountedWith(s, e, p, d)
    ensures NoRepeats(NewNames(p, e.voter, DelegationRows(s.records, e.order), e.repos))
  {
    var rows := DelegationRows(s.records, e.order);
    var already := (set x | x in p.votesFor) + (set x | x in p.votesAgainst) + {e.voter};
    AddedExactly(rows, already, p.evidence, e.repos);
    ProposalHistory.NewNamesAreNew(p, e.voter, rows, e.repos);
    ListedDelegators(s.records, e.order, e.voter, d);
    var added := Added(rows, already, p.evidence, e.repos);
    assert d in added <==> d in Members(added);
    forall x | x in added ensures x != e.voter { assert x in Members(added); }
  }

  /** A vote that is taken adds exactly those names, once each, to the list of its side, and leaves the other list. */
  lemma VoteCounts(s: State, e: Event, p: Proposal, d: Did)
    requires VotesOn(s, e, p) && MayVote(p, s.clock, e.voter, e.repos)
    ensures Lookup(Next(s, e).records, e.rkey).Some?
    ensures var q := Lookup(Next(s, e).records, e.rkey).value;
      && (if e.side == For then p.votesFor <= q.votesFor && q.votesAgainst == p.votesAgainst
          else p.votesAgainst <= q.votesAgainst && q.votesFor == p.votesFor)
      && var (before, after) := if e.side == For then (p.votesFor, q.votesFor) else (p.votesAgainst, q.votesAgainst);
         NoRepeats(after[|before|..]) && (d in after[|before|..] <==> CountedWith(s, e, p, d))
  {
    hide NewNames;
    hide CountedWith;
    hide BookKept;
    hide Plain;
    TakenVote(s, e, p);
    NewNamesExactly(s, e, p, d);
  }

  /** The parts of the plan of a vote that is taken. */
  lemma TakenVote(s: State, e: Event, p: Proposal)
    requires VotesOn(s, e, p) && MayVote(p, s.clock, e.voter, e.repos)
    ensures var names := NewNames(p, e.voter, DelegationRows(s.records, e.order), e.repos);
      var w := WithVotes(p, e.side, names);
      var q := Lookup(Next(s, e).records, e.rkey);
      && q.Some? && q.value.votesFor == w.votesFor && q.value.votesAgainst == w.votesAgainst
      && PlanOf(s, e).commit.Some? && PutBy(PlanOf(s, e).commit.value, e.rkey) == q
      && PlanOf(s, e).commit == CastPlan(s, e.rkey, p, e.voter, e.side, DelegationRows(s.records, e.order), e.repos, e.lost).commit
      && PlanOf(s, e).votes == VoteRows(names, e.side, e.rkey, s.records[ProposalKey(e.rkey)].cid, s.clock, s.next, e.lost + e.repos.missing)
      && PlanOf(s, e).seed.None? && PlanOf(s, e).objection.None?
  {
    hide NewNames;
    hide TallyOf;
    hide Ruling;
    hide VoteRows;
    hide Lineage;
    hide DecisionFor;
    hide ChangeOp;
    hide Unapplicable;
    hide BookKept;
    GateExactly(p, s.clock, e.voter, e.repos);
    NextLookup(s, e, e.rkey);
  }

  // ── What it writes ────────────────────────────────────────────────

  /** The record that `d` has cast this vote, on the state of the proposal as it is now. */
  predicate RecordOf(v: VoteRow, s: State, e: Event, d: Did)
    requires e.Vote? && ProposalKey(e.rkey) in s.records
  {
    && v.repo == d && v.proposal == e.rkey && v.citesProposal && v.cites == Some(s.records[ProposalKey(e.rkey)].cid)
    && v.side == Some(e.side) && v.createdAt == Some(s.clock) && v.rkey >= s.next
  }

  lemma {:induction false} RowsRecord(s: State, e: Event, names: seq<Did>, id: nat, lost: set<Did>, d: Did)
    requires e.Vote? && ProposalKey(e.rkey) in s.records && id >= s.next && NoRepeats(names)
    ensures var rows := VoteRows(names, e.side, e.rkey, s.records[ProposalKey(e.rkey)].cid, s.clock, id, lost);
      && (forall v | v in rows :: v.repo in names && v.repo !in lost && RecordOf(v, s, e, v.repo))
      && (d in names && d !in lost ==> exists v :: v in rows && RecordOf(v, s, e, d))
      && (forall a, b | a in rows && b in rows && a.repo == b.repo :: a == b)
    decreases |names|
  {
    if names != [] {
      RowsRecord(s, e, names[1..], id + 1, lost, d);
      var cid := s.records[ProposalKey(e.rkey)].cid;
      var rest := VoteRows(names[1..], e.side, e.rkey, cid, s.clock, id + 1, lost);
      var head := if names[0] in lost then [] else [NewVoteRow(names[0], e.side, e.rkey, cid, s.clock, id)];
      assert VoteRows(names, e.side, e.rkey, cid, s.clock, id, lost) == head + rest;
      assert names == [names[0]] + names[1..];
      assert names[0] !in names[1..];
      if d == names[0] && d !in lost { assert head[0] in head + rest && RecordOf(head[0], s, e, d); }
      if d in names[1..] && d !in lost {
        var v :| v in rest && RecordOf(v, s, e, d);
        assert v in head + rest;
      }
    }
  }

  /** It writes one record for each counted name whose write does not fail, and no other. */
  lemma VoteWrites(s: State, e: Event, p: Proposal, d: Did)
    requires VotesOn(s, e, p) && MayVote(p, s.clock, e.voter, e.repos)
    ensures var t := Next(s, e);
      && t.objections == s.objections && s.votes <= t.votes
      && (forall v | v in t.votes && v !in s.votes :: RecordOf(v, s, e, v.repo))
      && (CountedWith(s, e, p, d) && d !in e.lost && d !in e.repos.missing ==> exists v :: v in t.votes && RecordOf(v, s, e, d))
      && (forall v | v in t.votes && v !in s.votes && v.repo == d :: CountedWith(s, e, p, d) && d !in e.lost && d !in e.repos.missing)
      && (forall a, b | a in t.votes && a !in s.votes && b in t.votes && b !in s.votes && a.repo == b.repo :: a == b)
  {
    hide NewNames;
    hide CountedWith;
    hide BookKept;
    hide Plain;
    TakenVote(s, e, p);
    NewNamesExactly(s, e, p, d);
    var names := NewNames(p, e.voter, DelegationRows(s.records, e.order), e.repos);
    RowsRecord(s, e, names, s.next, e.lost + e.repos.missing, d);
    VotesAfter(s, e);
  }

  lemma VotesAfter(s: State, e: Event)
    requires Done(s, e) == PlanOf(s, e) && PlanOf(s, e).seed.None? && PlanOf(s, e).objection.None?
    ensures Next(s, e).votes == s.votes + (set v | v in PlanOf(s, e).votes)
    ensures Next(s, e).objections == s.objections
  {
    hide CastPlan;
  }

  // ── When it decides ───────────────────────────────────────────────

  /** The lists reach the quorum; and where records are the evidence, so do the records, with the same majority. */
  ghost predicate Decides(p: Proposal, w: Proposal, t: map<Did, VoteRow>, quorum: real) {
    var (pro, contra) := (|w.votesFor|, |w.votesAgainst|);
    && (pro + contra) as real >= quorum
    && (p.evidence ==>
          && (|ForVoters(t)| + |AgainstVoters(t)|) as real >= quorum
          && (|ForVoters(t)| > |AgainstVoters(t)| <==> pro > contra))
  }

  lemma OpenCast(s: State, r: Rkey, p: Proposal, voter: Did, side: Side, rows: seq<DelegationRow>, repos: Repos, lost: set<Did>, bar: real)
    requires Lookup(s.records, r) == Some(p) && p.status == Open && QuorumStands(s.records, bar)
    ensures var names := NewNames(p, voter, rows, repos);
      var w := WithVotes(p, side, names);
      var current := s.records[ProposalKey(r)].cid;
      var t := TallyOf(s.votes + AsSet(VoteRows(names, side, r, current, s.clock, s.next, lost + repos.missing)), r, w, current);
      var c := CastPlan(s, r, p, voter, side, rows, repos, lost).commit;
      && c.Some? && PutBy(c.value, r).Some?
      && var q := PutBy(c.value, r).value;
         && (q.status != Open <==> Decides(p, w, t, bar))
         && (q.status != Open ==>
               && q.resolvedAt == Some(s.clock)
               && (q.status == Decided(Rejected) <==> |w.votesFor| <= |w.votesAgainst|)
               && (q.status == Pending || q.status == Decided(Approved) <==> |w.votesFor| > |w.votesAgainst|)
               && (q.status == Pending ==> p.evidence && q.applyAt.Some? && WindowEnd(SettingsOf(s.records), s.clock) == q.applyAt)
               && (q.status == Decided(Approved) ==> !p.evidence || WindowEnd(SettingsOf(s.records), s.clock).None?))
  {
    hide NewNames;
    hide TallyOf;
    hide VoteRows;
    hide Lineage;
    hide ChangeOp;
    hide Unapplicable;
    hide WindowEnd;
    hide Reusable;
    hide NewDecision;
    hide QuorumStands;
    hide QuorumOf;
    QuorumRead(s.records, bar);
  }

  lemma WindowRead(records: Records, now: Time, hours: real)
    requires HoursStand(records, hours)
    ensures var end := WindowEnd(SettingsOf(records), now);
      (end.None? <==> hours == 0.0) && (end.Some? ==> Falls(end.value, now, hours * 3600000.0))
  {
    HoursRead(records, hours);
  }

  /**
   A vote on an open proposal decides it exactly when the two lists together reach the
   stored quorum and, where records are the evidence, so does the tally with the same
   majority.  It is then approved exactly when more are for it than against it; and an
   approval decided on records waits exactly the stored hours, unless those are zero.
   */
  lemma OpenVoteDecides(s: State, e: Event, p: Proposal, quorum: real, hours: real)
    requires VotesOn(s, e, p) && MayVote(p, s.clock, e.voter, e.repos) && p.status == Open
    requires QuorumStands(s.records, quorum) && HoursStand(s.records, hours)
    ensures Lookup(Next(s, e).records, e.rkey).Some?
    ensures var q := Lookup(Next(s, e).records, e.rkey).value;
      var t := OverrideRound.TallyAt(s, e, p);
      var (pro, contra) := (|q.votesFor|, |q.votesAgainst|);
      && (q.status != Open <==>
            && (pro + contra) as real >= quorum
            && (p.evidence ==>
                  (|ForVoters(t)| + |AgainstVoters(t)|) as real >= quorum && (|ForVoters(t)| > |AgainstVoters(t)| <==> pro > contra)))
      && (q.status != Open ==>
            && q.resolvedAt == Some(s.clock)
            && (q.status == Decided(Rejected) <==> pro <= contra)
            && (q.status == Pending <==> pro > contra && p.evidence && hours != 0.0)
            && (q.status == Decided(Approved) <==> pro > contra && (!p.evidence || hours == 0.0))
            && (q.status == Pending ==> q.applyAt.Some? && Falls(q.applyAt.value, s.clock, hours * 3600000.0)))
  {
    hide NewNames;
    hide TallyOf;
    hide VoteRows;
    hide CastPlan;
    hide PlanOf;
    hide Done;
    hide Next;
    hide MayVote;
    hide BookKept;
    hide QuorumStands;
    hide HoursStand;
    TakenVote(s, e, p);
    OpenCast(s, e.rkey, p, e.voter, e.side, DelegationRows(s.records, e.order), e.repos, e.lost, quorum);
    WindowRead(s.records, s.clock, hours);
  }

  /** What else a vote leaves on the proposal: what it replaces is the lists, and on a decision the fields that state it. */
  ghost predicate ClosedBy(s: State, p: Proposal, q: Proposal) {
    && q == p.(votesFor := q.votesFor, votesAgainst := q.votesAgainst, cidChain := q.cidChain, status := q.status, resolvedAt := q.resolvedAt,
               decision := q.decision, applyAt := q.applyAt, appliedAt := q.appliedAt, roundOutcome := q.roundOutcome)
    && if q.status == p.status
       then q.resolvedAt == p.resolvedAt && q.decision == p.decision && q.applyAt == p.applyAt && q.appliedAt == p.appliedAt
            && q.roundOutcome == p.roundOutcome
       else
         && q.resolvedAt == Some(s.clock)
         && (p.evidence ==> q.decision.Some?) && (!p.evidence ==> q.decision == p.decision)
         && (q.status != Pending ==> q.applyAt == p.applyAt)
         && (if p.status == Override
             then q.status == Decided(Approved) && q.roundOutcome == Some(Carried)
                  && q.appliedAt == (if Unapplicable(s.records, p) then p.appliedAt else Some(s.clock))
             else q.roundOutcome == p.roundOutcome && q.appliedAt == p.appliedAt)
  }

  lemma CastCloses(s: State, r: Rkey, p: Proposal, voter: Did, side: Side, rows: seq<DelegationRow>, repos: Repos, lost: set<Did>)
    requires Lookup(s.records, r) == Some(p) && (p.status == Open || (p.status == Override && p.round.Some?))
    ensures var c := CastPlan(s, r, p, voter, side, rows, repos, lost).commit;
      c.Some? && PutBy(c.value, r).Some? && ClosedBy(s, p, PutBy(c.value, r).value)
  {
    hide NewNames;
    hide TallyOf;
    hide VoteRows;
    hide Lineage;
    hide ChangeOp;
    hide Unapplicable;
    hide WindowEnd;
    hide Reusable;
    hide NewDecision;
    hide QuorumOf;
  }

  /** ... so an override round carried by a vote says that and when its change was made, unless it was refused. */
  lemma VoteCloses(s: State, e: Event, p: Proposal)
    requires VotesOn(s, e, p) && MayVote(p, s.clock, e.voter, e.repos)
    ensures Lookup(Next(s, e).records, e.rkey).Some? && ClosedBy(s, p, Lookup(Next(s, e).records, e.rkey).value)
  {
    hide CastPlan;
    hide NewNames;
    hide TallyOf;
    hide VoteRows;
    hide Next;
    hide Done;
    hide PlanOf;
    hide BookKept;
    hide ClosedBy;
    TakenVote(s, e, p);
    CastCloses(s, e.rkey, p, e.voter, e.side, DelegationRows(s.records, e.order), e.repos, e.lost);
  }

  /** Where the process dies: the records it got to write are there, in their order, and the lists and the decision only after all of them. */
  lemma CutVote(s: State, e: Event)
    requires e.Vote?
    ensures var (rows, t) := (PlanOf(s, e).votes, Next(s, e));
      if e.survived <= |rows|
      then t.votes == s.votes + (set v | v in rows[..e.survived]) && t.objections == s.objections && t.records == s.records && t.log == s.log
      else Done(s, e) == PlanOf(s, e)
  {
    VotePlanParts(s, e);
    hide PlanOf;
  }

  lemma VotePlanParts(s: State, e: Event)
    requires e.Vote?
    ensures PlanOf(s, e).seed.None? && PlanOf(s, e).objection.None?
  {
    hide NewNames;
    hide TallyOf;
    hide Ruling;
    hide VoteRows;
    hide Lineage;
    hide ResolutionCommit;
  }

  // ── The records that count ────────────────────────────────────────

  /** The tally starts with the override round, else with the last amendment, else with the proposal. */
  predicate StartsAt(p: Proposal, at: Time) {
    if p.round.Some? then at == p.round.value.openedAt
    else if |p.amendments| > 0 then at == p.amendments[|p.amendments| - 1].amendedAt
    else at == p.createdAt
  }

  /** The record is a vote on this proposal, on a state it has had, not from before its tally started. */
  ghost predicate Counts(v: VoteRow, r: Rkey, p: Proposal, current: Cid) {
    && v.proposal == r && v.citesProposal && v.side.Some?
    && v.cites.Some? && (v.cites.value == current || v.cites.value in p.cidChain)
    && v.createdAt.Some? && forall at | StartsAt(p, at) :: at <= v.createdAt.value
  }

  /** Dated no later, and on the same date under a key no greater. */
  predicate Earlier(v: VoteRow, w: VoteRow)
    requires v.createdAt.Some? && w.createdAt.Some?
  {
    v.createdAt.value < w.createdAt.value || (v.createdAt == w.createdAt && v.rkey <= w.rkey)
  }

  lemma CountsRead(v: VoteRow, r: Rkey, p: Proposal, current: Cid)
    ensures Counts(v, r, p, current) <==> v.proposal == r && IsCountable(v, KnownCids(p, current), Some(TallyEpoch(p)))
  {
    assert StartsAt(p, TallyEpoch(p));
    assert forall at | StartsAt(p, at) :: at == TallyEpoch(p);
  }

  /** The voter's record that counts, and none that counts is earlier. */
  ghost predicate IsEarliest(v: VoteRow, votes: set<VoteRow>, r: Rkey, p: Proposal, current: Cid, d: Did) {
    && v in votes && Counts(v, r, p, current) && v.repo == d
    && forall w | w in votes && Counts(w, r, p, current) && w.repo == d :: Earlier(v, w)
  }

  /** A voter is on a side of the tally exactly when the earliest of their records that count is on that side. */
  lemma TallyExactly(votes: set<VoteRow>, r: Rkey, p: Proposal, current: Cid, d: Did, side: Side)
    requires KeysUnique(votes)
    ensures var t := TallyOf(votes, r, p, current);
      d in (if side == For then ForVoters(t) else AgainstVoters(t)) <==>
      exists v :: IsEarliest(v, votes, r, p, current, d) && v.side == Some(side)
  {
    var t := TallyOf(votes, r, p, current);
    if d in t { WinnerCounts(votes, r, p, current, d); }
    hide TallyOf;
    if v :| IsEarliest(v, votes, r, p, current, d) && v.side == Some(side) {
      EarliestWins(votes, r, p, current, d, v);
    }
    if d in t { assert t[d].side.Some?; }
    hide IsEarliest;
  }

  lemma EarliestWins(votes: set<VoteRow>, r: Rkey, p: Proposal, current: Cid, d: Did, v: VoteRow)
    requires KeysUnique(votes) && IsEarliest(v, votes, r, p, current, d)
    ensures d in TallyOf(votes, r, p, current) && TallyOf(votes, r, p, current)[d] == v
  {
    var rows, known, epoch := RowsOn(votes, r), KnownCids(p, current), Some(TallyEpoch(p));
    CountsRead(v, r, p, current);
    assert v in rows && d in Voters(rows, known, epoch);
    WinnerCounts(votes, r, p, current, d);
    var w := TallyOf(votes, r, p, current)[d];
    hide Counts;
    hide KnownCids;
    hide TallyEpoch;
    hide TallyOf;
    assert Earlier(v, w) && Earlier(w, v);
  }

  lemma WinnerCounts(votes: set<VoteRow>, r: Rkey, p: Proposal, current: Cid, d: Did)
    requires d in TallyOf(votes, r, p, current)
    ensures IsEarliest(TallyOf(votes, r, p, current)[d], votes, r, p, current, d)
  {
    var rows, known, epoch := RowsOn(votes, r), KnownCids(p, current), Some(TallyEpoch(p));
    var v := TallyOf(votes, r, p, current)[d];
    assert v == Winner(rows, known, epoch, d);
    CountsRead(v, r, p, current);
    forall w | w in votes && Counts(w, r, p, current) && w.repo == d ensures Earlier(v, w) {
      CountsRead(w, r, p, current);
      assert w in CountableOf(rows, known, epoch, d);
      assert OrderedBefore(v, w);
    }
  }

  // ── What a decision states ────────────────────────────────────────

  /** The decision a vote writes names the votes of the tally, the bar they met, and the decision it supersedes. */
  ghost predicate Says(d: Decision, r: Rkey, p: Proposal, w: Proposal, t: map<Did, VoteRow>, records: Records, outcome: Outcome) {
    && d.proposal == r && d.outcome == outcome
    && d.votesFor == ForVoters(t) && d.votesAgainst == AgainstVoters(t)
    && d.cited == (set v | v in t :: t[v].cid)
    && (d.complete <==> forall x | HasVoted(w, x) :: x in t)
    && (if p.status == Override && p.round.Some? then d.overrideRound && d.bar == p.round.value.bar
        else !d.overrideRound && QuorumStands(records, d.bar))
    && IsLatest(records, r, d.supersedes)
  }

  predicate IsOn(records: Records, k: Rkey, r: Rkey) {
    LookupDecision(records, k).Some? && LookupDecision(records, k).value.proposal == r
  }

  /** The decision on `r` with the greatest key, or none where there is none. */
  ghost predicate IsLatest(records: Records, r: Rkey, latest: Option<Rkey>) {
    match latest
    case None => forall k: Rkey :: !IsOn(records, k, r)
    case Some(k) => IsOn(records, k, r) && forall j: Rkey | IsOn(records, j, r) :: j <= k
  }

  lemma LatestRead(records: Records, r: Rkey)
    ensures forall latest :: IsLatest(records, r, latest) <==> latest == Latest(DecisionsOn(records, r))
  {
    forall k ensures k in DecisionsOn(records, r) <==> IsOn(records, k, r) {
      if IsOn(records, k, r) { assert DecisionKey(k).rkey == k; }
      if k in DecisionsOn(records, r) {
        var key :| key in records && key.collection == Decisions && records[key].record.DecisionRecord?
                   && records[key].record.decision.proposal == r && key.rkey == k;
        assert key == DecisionKey(k);
      }
    }
  }

  lemma NewDecisionSays(s: State, r: Rkey, p: Proposal, w: Proposal, t: map<Did, VoteRow>, outcome: Outcome)
    ensures Says(NewDecision(s, r, p, w, t, outcome), r, p, w, t, s.records, outcome)
  {
    hide QuorumStands;
    QuorumRead(s.records, QuorumOf(SettingsOf(s.records)));
    LatestRead(s.records, r);
    hide DecisionsOn;
    hide IsLatest;
  }

  /** The decision the resolved proposal `q` cites: a new one that says what was counted, or the latest there was, with the same outcome from the same votes. */
  ghost predicate DecidedBy(before: Records, c: Commit, r: Rkey, p: Proposal, w: Proposal, t: map<Did, VoteRow>, q: Proposal) {
    && q.decision.Some?
    && var outcome := if q.status == Decided(Rejected) then Rejected else Approved;
       var k := q.decision.value.rkey;
       if c.decision.None?
       then
         && IsLatest(before, r, Some(k)) && LookupDecision(before, k).value.outcome == outcome
         && LookupDecision(before, k).value.cited == (set v | v in t :: t[v].cid)
         && before[DecisionKey(k)].cid == q.decision.value.cid
       else
         && c.decision.value.Put? && c.decision.value.key == DecisionKey(k) && c.decision.value.cid == q.decision.value.cid
         && c.decision.value.record.DecisionRecord?
         && Says(c.decision.value.record.decision, r, p, w, t, before, outcome)
  }

  lemma CastDecides(s: State, r: Rkey, p: Proposal, voter: Did, side: Side, rows: seq<DelegationRow>, repos: Repos, lost: set<Did>)
    requires Lookup(s.records, r) == Some(p) && p.evidence && (p.status == Open || p.status == Override)
    ensures var w := WithVotes(p, side, NewNames(p, voter, rows, repos));
      var current := s.records[ProposalKey(r)].cid;
      var t := TallyOf(s.votes + AsSet(VoteRows(NewNames(p, voter, rows, repos), side, r, current, s.clock, s.next, lost + repos.missing)), r, w, current);
      var c := CastPlan(s, r, p, voter, side, rows, repos, lost).commit.value;
      && PutBy(c, r).Some?
      && (PutBy(c, r).value.status != p.status ==> DecidedBy(s.records, c, r, p, w, t, PutBy(c, r).value))
  {
    hide NewNames;
    hide TallyOf;
    hide VoteRows;
    hide Lineage;
    hide ChangeOp;
    hide Unapplicable;
    hide WindowEnd;
    hide Says;
    hide Latest;
    hide DecisionsOn;
    hide NewDecision;
    hide Rule;
    hide IsLatest;
    var w := WithVotes(p, side, NewNames(p, voter, rows, repos));
    var current := s.records[ProposalKey(r)].cid;
    var t := TallyOf(s.votes + AsSet(VoteRows(NewNames(p, voter, rows, repos), side, r, current, s.clock, s.next, lost + repos.missing)), r, w, current);
    NewDecisionSays(s, r, p, w, t, Approved);
    NewDecisionSays(s, r, p, w, t, Rejected);
    LatestRead(s.records, r);
  }

  /** A vote that changes the status cites such a decision, of the tally it resolved on. */
  lemma DecisionStates(s: State, e: Event, p: Proposal)
    requires VotesOn(s, e, p) && MayVote(p, s.clock, e.voter, e.repos) && p.evidence
    ensures Lookup(Next(s, e).records, e.rkey).Some? && Done(s, e).commit.Some?
    ensures var q := Lookup(Next(s, e).records, e.rkey).value;
      q.status != p.status ==>
        DecidedBy(s.records, Done(s, e).commit.value, e.rkey, p, OverrideRound.CountedBy(s, e, p), OverrideRound.TallyAt(s, e, p), q)
  {
    hide NewNames;
    hide TallyOf;
    hide VoteRows;
    hide CastPlan;
    hide PlanOf;
    hide Done;
    hide Next;
    hide BookKept;
    hide DecidedBy;
    TakenVote(s, e, p);
    CastDecides(s, e.rkey, p, e.voter, e.side, DelegationRows(s.records, e.order), e.repos, e.lost);
  }
}
