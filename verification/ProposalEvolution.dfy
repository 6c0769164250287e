/**
 How a stored proposal may change.  Every status change lowers a rank, a closed
 proposal is never rewritten, amendments are only added, lists only grow between
 resets, and an override round keeps its frozen bar.  Two things can break this: an
 amendment, which takes no lock, and a proposal aimed at governance's own records.
 When exactly each does is at the end, and in `ProposalEvidence`.
 */
module ProposalEvolution {
  import opened Wrappers
  import opened DecisionRules
  import opened VoteTally
  import opened DelegationLoop
  import opened ProposalRecords
  import opened ProposalMachine

  function Rank(st: Status): nat {
    match st
    case Open => 3
    case Pending => 2
    case Override => 1
    case Objected => 0
    case Decided(_) => 0
    case Expired => 0
  }

  predicate Closed(st: Status) { Rank(st) == 0 }

  /** The parts of a proposal nothing rewrites. */
  predicate SameCharter(p: Proposal, q: Proposal) {
    && q.target == p.target && q.action == p.action && q.proposedBy == p.proposedBy
    && q.createdAt == p.createdAt && q.evidence == p.evidence
  }

  /** Nobody leaves a vote list. */
  predicate ListsGrow(p: Proposal, q: Proposal) {
    p.votesFor <= q.votesFor && p.votesAgainst <= q.votesAgainst
  }

  /** The status moves one way, what is closed stays, and what voting ended on stays as it was. */
  predicate Advances(p: Proposal, q: Proposal) {
    && SameCharter(p, q)
    && Rank(q.status) <= Rank(p.status)
    && (Rank(q.status) == Rank(p.status) ==> q.status == p.status)
    && (Closed(p.status) || (p.status == Pending && q.status == Pending) ==> q == p)
    && (p.status != Open ==> q.proposed == p.proposed && q.amendments == p.amendments && q.applyAt == p.applyAt)
    && (p.round.Some? ==> q.round == p.round)
    && (p.status == Override && q.status == Override ==> q.decision == p.decision)
  }

  /** ... and besides, no amendment is forgotten and no name dropped between resets. */
  predicate Evolves(p: Proposal, q: Proposal) {
    && Advances(p, q)
    && p.amendments <= q.amendments
    && (q.amendments == p.amendments && q.round == p.round ==> ListsGrow(p, q))
  }

  lemma AdvancesTransitive(p: Proposal, q: Proposal, r: Proposal)
    requires Advances(p, q) && Advances(q, r)
    ensures Advances(p, r)
  {
  }

  lemma EvolvesTransitive(p: Proposal, q: Proposal, r: Proposal)
    requires Evolves(p, q) && Evolves(q, r)
    ensures Evolves(p, r)
  {
  }

  /** The single steps between statuses; an open proposal is never overridden directly. */
  predicate Succeeds(from: Status, to: Status) {
    match from
    case Open => to == Open || to == Pending || to.Decided? || to == Expired
    case Pending => to == Objected || to == Override || to == Decided(Approved)
    case Override => to == Override || to.Decided?
    case _ => false
  }

  /** Only a held proposal has had an override round. */
  predicate RoundFits(p: Proposal) { p.round.Some? ==> p.status == Override || p.status.Decided? }

  /** A proposal a commit may put under `r`. */
  ghost predicate MayPut(s: State, r: Rkey, q: Proposal) {
    && RoundFits(q)
    && match Lookup(s.records, r)
       case Some(p) => SameCharter(p, q)
       case None => r == s.next && q.status == Open
  }

  /** The decision and the proposal of a commit are governance's own new or rewritten records. */
  ghost predicate Fits(s: State, c: Commit) {
    && (c.decision.Some? ==>
          && c.decision.value.Put? && c.decision.value.key.collection == Decisions
          && c.decision.value.key.rkey >= s.next && c.decision.value.record.DecisionRecord?)
    && (c.proposal.Some? ==>
          && c.proposal.value.Put? && c.proposal.value.key.collection == Proposals
          && c.proposal.value.record.ProposalRecord?
          && MayPut(s, c.proposal.value.key.rkey, c.proposal.value.record.proposal))
  }

  /** The commit's change, if it carries one, is on none of governance's own records. */
  predicate Spares(c: Commit) { c.change.Some? ==> !Reserved(c.change.value.key.collection) }

  ghost predicate Proper(s: State, c: Commit) { Fits(s, c) && Spares(c) }

  /** Keys are drawn once, rounds are where they belong, and drafts are of stored proposals. */
  ghost predicate BookKept(s: State) {
    && (forall k | k in s.records && Reserved(k.collection) :: k.rkey < s.next)
    && (forall r | Lookup(s.records, r).Some? :: RoundFits(Lookup(s.records, r).value))
    && (forall pid | pid in s.drafts :: DraftKept(s, s.drafts[pid]))
  }

  ghost predicate DraftKept(s: State, d: Draft) {
    && Lookup(s.records, d.rkey).Some?
    && SameCharter(Lookup(s.records, d.rkey).value, d.proposal)
    && d.proposal.status == Open && d.proposal.round.None?
    && d.proposal.votesFor == [] && d.proposal.votesAgainst == []
  }

  /** The event makes no change to governance's own records, whatever proposals may ask for. */
  ghost predicate Plain(s: State, e: Event) {
    Done(s, e).commit.Some? ==> Spares(Done(s, e).commit.value)
  }

  /** The draft was made from the history that is stored, and the proposal is still open. */
  predicate UpToDate(p: Proposal, d: Proposal) {
    && p.status == Open
    && (p.amendments < d.amendments || (p.amendments == d.amendments && p.votesFor == [] && p.votesAgainst == []))
  }

  /** An amendment's write finds the proposal still open. */
  ghost predicate AmendsOpen(s: State, e: Event) {
    e.AmendWrite? && e.pid in s.drafts && Lookup(s.records, s.drafts[e.pid].rkey).Some? ==>
      Lookup(s.records, s.drafts[e.pid].rkey).value.status == Open
  }

  ghost predicate Orderly(s: State, e: Event) {
    Plain(s, e) && AmendsOpen(s, e)
  }

  /** The proposal a commit puts under `r`, if it does. */
  function PutBy(c: Commit, r: Rkey): Option<Proposal> {
    if c.proposal.Some? && c.proposal.value.Put? && c.proposal.value.key == ProposalKey(r)
       && c.proposal.value.record.ProposalRecord?
    then Some(c.proposal.value.record.proposal) else None
  }

  // ── What each plan puts ───────────────────────────────────────────

  /** A commit without a decision that rewrites one stored proposal. */
  predicate Rewrites(c: Commit, records: Records, r: Rkey, q: Proposal, cid: Cid) {
    c.decision.None? && c.proposal == Some(PutProposal(records, r, q, cid))
  }

  /** A planned rewrite: what it does to the proposal, and where its change may go. */
  ghost predicate StepsTo(s: State, c: Commit, r: Rkey) {
    && Lookup(s.records, r).Some?
    && var p := Lookup(s.records, r).value;
       && (forall r' | PutBy(c, r').Some? :: r' == r)
       && PutBy(c, r).Some?
       && Evolves(p, PutBy(c, r).value) && Succeeds(p.status, PutBy(c, r).value.status)
       && Fits(s, c)
       && (c.change.Some? ==> c.change.value.key == p.target)
  }

  lemma RewriteSteps(s: State, c: Commit, r: Rkey, p: Proposal, q: Proposal, cid: Cid)
    requires Lookup(s.records, r) == Some(p) && Rewrites(c, s.records, r, q, cid)
    requires Evolves(p, q) && Succeeds(p.status, q.status) && RoundFits(q)
    requires p.status == Pending ==> q.status != Pending
    requires !Closed(p.status)
    requires c.change.Some? ==> c.change.value.key == p.target
    ensures StepsTo(s, c, r)
  {
    hide Lineage;
  }

  lemma ChangeIsOnTarget(s: State, p: Proposal, cid: Cid)
    ensures ChangeOp(s.records, p, cid).Some? ==> ChangeOp(s.records, p, cid).value.key == p.target
  {
  }

  lemma CountedEvolves(p: Proposal, side: Side, names: seq<Did>)
    requires p.status == Open || p.status == Override
    ensures Evolves(p, WithVotes(p, side, names))
  {
  }

  lemma ResolvedEvolves(s: State, p: Proposal, counted: Proposal, outcome: Outcome, ref: Option<DecisionRef>)
    requires p.status == Open || p.status == Override
    requires Evolves(p, counted) && counted.status == p.status && RoundFits(counted)
    ensures Evolves(p, Resolved(s, p, counted, outcome, ref))
    ensures Succeeds(p.status, Resolved(s, p, counted, outcome, ref).status)
    ensures RoundFits(Resolved(s, p, counted, outcome, ref))
  {
  }

  lemma CastSteps(s: State, r: Rkey, p: Proposal, voter: Did, side: Side, rows: seq<DelegationRow>, repos: Repos, lost: set<Did>)
    requires Lookup(s.records, r) == Some(p) && (p.status == Open || p.status == Override) && RoundFits(p)
    ensures StepsTo(s, CastPlan(s, r, p, voter, side, rows, repos, lost).commit.value, r)
  {
    hide NewNames;
    hide TallyOf;
    hide Ruling;
    hide VoteRows;
    hide Lineage;
    hide ResolutionCommit;
    hide StepsTo;
    var names := NewNames(p, voter, rows, repos);
    var counted := WithVotes(p, side, names);
    CountedEvolves(p, side, names);
    var current := s.records[ProposalKey(r)].cid;
    var written := VoteRows(names, side, r, current, s.clock, s.next, lost + repos.missing);
    var t := TallyOf(s.votes + AsSet(written), r, counted, current);
    var ruling := Ruling(p, counted, t, SettingsOf(s.records));
    var id := s.next + |names|;
    if ruling.Some? {
      ResolutionSteps(s, r, p, counted, t, ruling.value, id);
    } else {
      RewriteSteps(s, Rewrite(s, r, counted, id + 1), r, p, counted, id + 1);
    }
  }

  lemma ResolutionSteps(s: State, r: Rkey, p: Proposal, counted: Proposal, t: map<Did, VoteRow>, outcome: Outcome, id: nat)
    requires Lookup(s.records, r) == Some(p) && id >= s.next
    requires p.status == Open || p.status == Override
    requires Evolves(p, counted) && counted.status == p.status && RoundFits(counted)
    ensures StepsTo(s, ResolutionCommit(s, r, p, counted, t, outcome, id), r)
  {
    var (ref, write) := DecisionFor(s, r, p, counted, t, outcome, id);
    ResolvedEvolves(s, p, counted, outcome, ref);
    ChangeIsOnTarget(s, p, id + 2);
    var q := Resolved(s, p, counted, outcome, ref);
    var c := ResolutionCommit(s, r, p, counted, t, outcome, id);
    RewriteSteps(s, c.(decision := None), r, p, q, id + 1);
  }

  lemma HeldEvolves(s: State, p: Proposal, objectors: set<Did>, electorate: nat)
    requires p.status == Pending && RoundFits(p)
    ensures Evolves(p, Held(s, p, objectors, electorate)) && Succeeds(Pending, Held(s, p, objectors, electorate).status)
    ensures RoundFits(Held(s, p, objectors, electorate))
  {
  }

  lemma ApplySteps(s: State, r: Rkey, electorate: nat)
    requires BookKept(s)
    ensures var c := ApplyPlan(s, r, electorate).commit; c.Some? ==> StepsTo(s, c.value, r)
  {
    hide ChangeOp;
    hide Unapplicable;
    hide Objectors;
    hide Lineage;
    hide Held;
    hide StepsTo;
    var c := ApplyPlan(s, r, electorate).commit;
    if c.Some? {
      var p := Lookup(s.records, r).value;
      var standing := Objectors(s.objections, r, p);
      if |standing| >= ObjectionThresholdOf(SettingsOf(s.records)) {
        HeldEvolves(s, p, standing, electorate);
        RewriteSteps(s, c.value, r, p, Held(s, p, standing, electorate), s.next);
      } else if Unapplicable(s.records, p) {
        RewriteSteps(s, c.value, r, p, p.(status := Decided(Approved)), s.next);
      } else {
        ChangeIsOnTarget(s, p, s.next + 1);
        RewriteSteps(s, c.value, r, p, p.(status := Decided(Approved), appliedAt := Some(s.clock)), s.next);
      }
    }
  }

  lemma ObjectSteps(s: State, r: Rkey, objector: Did, repos: Repos, electorate: nat)
    requires BookKept(s)
    ensures var c := ObjectPlan(s, r, objector, repos, electorate).commit; c.Some? ==> StepsTo(s, c.value, r)
  {
    hide Objectors;
    hide Lineage;
    hide Held;
    hide StepsTo;
    var plan := ObjectPlan(s, r, objector, repos, electorate);
    if plan.commit.Some? {
      var p := Lookup(s.records, r).value;
      var standing := Objectors(s.objections + {plan.objection.value}, r, p);
      HeldEvolves(s, p, standing, electorate);
      RewriteSteps(s, plan.commit.value, r, p, Held(s, p, standing, electorate), s.next + 1);
    }
  }

  lemma CloseSteps(s: State, r: Rkey)
    ensures var c := ClosePlan(s, r).commit; c.Some? ==> StepsTo(s, c.value, r)
  {
    hide Lineage;
    hide StepsTo;
    var c := ClosePlan(s, r).commit;
    if c.Some? {
      var p := Lookup(s.records, r).value;
      RewriteSteps(s, c.value, r, p,
        p.(status := Decided(Rejected), resolvedAt := Some(s.clock), roundOutcome := Some(Lapsed)), s.next);
    }
  }

  /** The events that carry a stored proposal one step on; amending and creating are the other two. */
  predicate IsStep(e: Event) { e.Vote? || e.Object? || e.ApplyDue? || e.CloseOverride? }

  lemma VoteSteps(s: State, e: Event)
    requires BookKept(s) && e.Vote? && PlanOf(s, e).commit.Some?
    ensures StepsTo(s, PlanOf(s, e).commit.value, e.rkey)
  {
    hide CastPlan;
    hide Lineage;
    hide StepsTo;
    hide DelegationRows;
    var p := Lookup(s.records, e.rkey).value;
    if VoteGate(p, s.clock, e.voter, e.repos) == Accept {
      CastSteps(s, e.rkey, p, e.voter, e.side, DelegationRows(s.records, e.order), e.repos, e.lost);
    } else {
      RewriteSteps(s, PlanOf(s, e).commit.value, e.rkey, p, p.(status := Expired, resolvedAt := Some(s.clock)), s.next);
    }
  }

  lemma PlanSteps(s: State, e: Event)
    requires BookKept(s) && IsStep(e) && PlanOf(s, e).commit.Some?
    ensures StepsTo(s, PlanOf(s, e).commit.value, e.rkey)
  {
    hide CastPlan;
    hide ObjectPlan;
    hide ApplyPlan;
    hide ClosePlan;
    hide StepsTo;
    match e
    case Vote(_, _, _, _, _, _, _) => VoteSteps(s, e);
    case Object(r, objector, repos, electorate, _) => ObjectSteps(s, r, objector, repos, electorate);
    case ApplyDue(r, electorate, _) => ApplySteps(s, r, electorate);
    case CloseOverride(r, _) => CloseSteps(s, r);
    case _ =>
  }

  /** An amendment's write, whatever it finds stored. */
  lemma AmendFits(s: State, pid: Pid)
    requires BookKept(s) && pid in s.drafts
    ensures var c := AmendPlan(s, pid).commit.value;
      && Fits(s, c) && c.change.None? && c.decision.None?
      && PutBy(c, s.drafts[pid].rkey).Some?
      && (forall r' | PutBy(c, r').Some? :: r' == s.drafts[pid].rkey)
  {
    hide Lineage;
    assert DraftKept(s, s.drafts[pid]);
  }

  lemma PlanFits(s: State, e: Event)
    requires BookKept(s)
    ensures PlanOf(s, e).commit.Some? ==> Fits(s, PlanOf(s, e).commit.value)
  {
    hide CastPlan;
    hide ObjectPlan;
    hide ApplyPlan;
    hide ClosePlan;
    hide AmendPlan;
    if PlanOf(s, e).commit.Some? {
      if IsStep(e) {
        PlanSteps(s, e);
      } else if e.AmendWrite? {
        if e.pid in s.drafts { AmendFits(s, e.pid); }
        NoDraftNoPlan(s, e.pid);
      } else if e.Create? {
        assert Lookup(s.records, s.next).None? by { assert Reserved(ProposalKey(s.next).collection); }
      }
    }
  }

  lemma NoDraftNoPlan(s: State, pid: Pid)
    ensures AmendPlan(s, pid).commit.Some? ==> pid in s.drafts
  {
  }

  // ── One step ──────────────────────────────────────────────────────

  lemma ProperCommitStores(s: State, c: Commit, r: Rkey)
    requires Proper(s, c)
    ensures Lookup(ApplyCommit(s.records, c), r) == if PutBy(c, r).Some? then PutBy(c, r) else Lookup(s.records, r)
  {
  }

  lemma DoneIsPlanned(s: State, e: Event)
    ensures Done(s, e).commit.Some? ==> PlanOf(s, e).commit == Done(s, e).commit
  {
    hide PlanOf;
  }

  lemma DoneIsProper(s: State, e: Event)
    requires BookKept(s) && Plain(s, e)
    ensures Done(s, e).commit.Some? ==> Proper(s, Done(s, e).commit.value) && PlanOf(s, e).commit == Done(s, e).commit
  {
    hide PlanOf;
    hide Prefix;
    hide BookKept;
    hide Fits;
    hide Spares;
    DoneIsPlanned(s, e);
    PlanFits(s, e);
  }

  /** Only a step of a proposal that targets one of governance's own records can change one. */
  lemma PlainUnlessAsked(s: State, e: Event)
    requires BookKept(s)
    requires IsStep(e) && Lookup(s.records, e.rkey).Some? ==> !Reserved(Lookup(s.records, e.rkey).value.target.collection)
    ensures Plain(s, e)
  {
    hide VotePlan;
    hide ObjectPlan;
    hide ApplyPlan;
    hide ClosePlan;
    hide Lineage;
    DoneIsPlanned(s, e);
    if IsStep(e) && PlanOf(s, e).commit.Some? { PlanSteps(s, e); }
  }

  /** An event that writes no draft over `r` carries `r` one step on, or leaves it. */
  lemma PlannedEvolution(s: State, e: Event, r: Rkey)
    requires BookKept(s) && PlanOf(s, e).commit.Some? && PutBy(PlanOf(s, e).commit.value, r).Some?
    requires Lookup(s.records, r).Some? && !e.AmendWrite?
    ensures Evolves(Lookup(s.records, r).value, PutBy(PlanOf(s, e).commit.value, r).value)
    ensures Succeeds(Lookup(s.records, r).value.status, PutBy(PlanOf(s, e).commit.value, r).value.status)
    ensures IsStep(e) && e.rkey == r
  {
    hide CastPlan;
    hide ObjectPlan;
    hide ApplyPlan;
    hide ClosePlan;
    if IsStep(e) { PlanSteps(s, e); }
    assert r < s.next by { assert Reserved(ProposalKey(r).collection); }
  }

  /** What an amendment's write does to the proposal it lands on. */
  lemma AmendmentLands(s: State, pid: Pid)
    requires BookKept(s) && pid in s.drafts
    ensures var r := s.drafts[pid].rkey;
      var q := PutBy(PlanOf(s, AmendWrite(pid)).commit.value, r);
      && PlanOf(s, AmendWrite(pid)).commit.Some? && q.Some?
      && q.value.amendments == s.drafts[pid].proposal.amendments && q.value.status == Open
      && q.value.votesFor == [] && q.value.votesAgainst == []
      && (Evolves(Lookup(s.records, r).value, q.value) <==> UpToDate(Lookup(s.records, r).value, s.drafts[pid].proposal))
      && (Advances(Lookup(s.records, r).value, q.value) <==> Lookup(s.records, r).value.status == Open)
  {
    hide Lineage;
    assert DraftKept(s, s.drafts[pid]);
    assert RoundFits(Lookup(s.records, s.drafts[pid].rkey).value);
  }

  /** The event writes a draft of `r`. */
  predicate Amends(s: State, e: Event, r: Rkey) {
    e.AmendWrite? && e.pid in s.drafts && s.drafts[e.pid].rkey == r
  }

  lemma NextLookup(s: State, e: Event, r: Rkey)
    requires BookKept(s) && Plain(s, e)
    ensures Lookup(Next(s, e).records, r) ==
      if Done(s, e).commit.Some? && PutBy(Done(s, e).commit.value, r).Some? then PutBy(Done(s, e).commit.value, r)
      else Lookup(s.records, r)
    ensures Done(s, e).commit.Some? ==> PlanOf(s, e).commit == Done(s, e).commit
  {
    hide PlanOf;
    hide Proper;
    DoneIsProper(s, e);
    if Done(s, e).commit.Some? { ProperCommitStores(s, Done(s, e).commit.value, r); }
  }

  /**
   One event advances a proposal, unless it writes a draft over it; and then it does if
   and only if the proposal is still open.  It evolves the proposal if and only if,
   besides, its stored history is the one the draft was made from.
   */
  lemma StepEvolves(s: State, e: Event, r: Rkey)
    requires BookKept(s) && Plain(s, e) && Lookup(s.records, r).Some?
    ensures Lookup(Next(s, e).records, r).Some?
    ensures SameCharter(Lookup(s.records, r).value, Lookup(Next(s, e).records, r).value)
    ensures Advances(Lookup(s.records, r).value, Lookup(Next(s, e).records, r).value) <==>
      (Amends(s, e, r) ==> Lookup(s.records, r).value.status == Open)
    ensures Evolves(Lookup(s.records, r).value, Lookup(Next(s, e).records, r).value) <==>
      (Amends(s, e, r) ==> UpToDate(Lookup(s.records, r).value, s.drafts[e.pid].proposal))
  {
    hide PlanOf;
    hide Next;
    hide UpToDate;
    NextLookup(s, e, r);
    AmendAlwaysDone(s, e);
    if e.AmendWrite? && e.pid in s.drafts {
      AmendmentLands(s, e.pid);
      AmendPutsOnly(s, e.pid, r);
    } else if Done(s, e).commit.Some? && PutBy(Done(s, e).commit.value, r).Some? {
      if e.AmendWrite? { NoDraftNothing(s, e); }
      PlannedEvolution(s, e, r);
    }
  }

  lemma NoDraftNothing(s: State, e: Event)
    requires e.AmendWrite? && e.pid !in s.drafts
    ensures PlanOf(s, e).commit.None?
  {
  }

  lemma AmendAlwaysDone(s: State, e: Event)
    ensures e.AmendWrite? ==> Done(s, e).commit == PlanOf(s, e).commit
  {
  }

  lemma AmendPutsOnly(s: State, pid: Pid, r: Rkey)
    requires BookKept(s) && pid in s.drafts && Lookup(s.records, s.drafts[pid].rkey).Some?
    ensures PlanOf(s, AmendWrite(pid)).commit.Some?
    ensures var c := PlanOf(s, AmendWrite(pid)).commit.value;
      && (PutBy(c, r).Some? ==> r == s.drafts[pid].rkey)
      && (PutBy(c, r).Some? ==> SameCharter(Lookup(s.records, r).value, PutBy(c, r).value))
  {
    hide Lineage;
    assert DraftKept(s, s.drafts[pid]);
  }

  // ── Keys stay fresh ───────────────────────────────────────────────

  lemma {:induction false} RowsAreFew(records: Records, order: seq<Rkey>)
    ensures |DelegationRows(records, order)| <= |order|
    decreases |order|
  {
    if order != [] { RowsAreFew(records, order[1..]); }
  }

  lemma NamesAreFew(s: State, e: Event, p: Proposal)
    requires e.Vote?
    ensures |NewNames(p, e.voter, DelegationRows(s.records, e.order), e.repos)| <= 1 + |e.order|
  {
    RowsAreFew(s.records, e.order);
    AddedIsShort(DelegationRows(s.records, e.order), (set d | d in p.votesFor) + (set d | d in p.votesAgainst) + {e.voter},
      p.evidence, e.repos);
  }

  /** A new decision's key is one of those the event reserved. */
  lemma DecisionKeyReserved(s: State, e: Event)
    ensures var c := PlanOf(s, e).commit;
      c.Some? && c.value.decision.Some? && c.value.decision.value.Put? ==>
        c.value.decision.value.key.rkey < s.next + IdsUsed(e)
  {
    match e
    case Vote(r, voter, side, order, repos, lost, _) =>
      var p := Lookup(s.records, r);
      if p.Some? && VoteGate(p.value, s.clock, voter, repos) == Accept {
        var rows := DelegationRows(s.records, order);
        RowsAreFew(s.records, order);
        AddedIsShort(rows, (set d | d in p.value.votesFor) + (set d | d in p.value.votesAgainst) + {voter}, p.value.evidence, repos);
        CastDecisionKey(s, r, p.value, voter, side, rows, repos, lost);
      }
    case _ =>
  }

  lemma CastDecisionKey(s: State, r: Rkey, p: Proposal, voter: Did, side: Side, rows: seq<DelegationRow>, repos: Repos, lost: set<Did>)
    requires Lookup(s.records, r) == Some(p)
    ensures var c := CastPlan(s, r, p, voter, side, rows, repos, lost).commit.value;
      c.decision.Some? && c.decision.value.Put? ==> c.decision.value.key.rkey == s.next + |NewNames(p, voter, rows, repos)|
  {
  }

  /** A fitting commit adds a reserved key only for its decision or for a new proposal. */
  lemma ProperCommitKeys(s: State, c: Commit, k: Key)
    requires Proper(s, c) && k in ApplyCommit(s.records, c) && Reserved(k.collection)
    ensures k in s.records || (c.decision.Some? && k == c.decision.value.key) || k == ProposalKey(s.next)
  {
    if c.proposal.Some? && k == c.proposal.value.key && k !in s.records {
      assert Lookup(s.records, k.rkey).None?;
    }
  }

  lemma KeysStayFresh(s: State, e: Event, k: Key)
    requires BookKept(s) && Plain(s, e) && k in Next(s, e).records && Reserved(k.collection)
    ensures k.rkey < Next(s, e).next
  {
    DoneIsProper(s, e);
    DecisionKeyReserved(s, e);
    if Done(s, e).commit.Some? {
      ProperCommitKeys(s, Done(s, e).commit.value, k);
    }
  }

  /** What is in a draft is what an open proposal's amendment leaves. */
  lemma AmendedIsKept(s: State, r: Rkey, editor: Did, proposed: Record)
    requires BookKept(s) && AmendDraft(s, r, editor, proposed).Some?
    ensures DraftKept(s, AmendDraft(s, r, editor, proposed).value)
  {
    assert RoundFits(Lookup(s.records, r).value);
  }

  lemma DraftStaysKept(s: State, e: Event, pid: Pid)
    requires BookKept(s) && Plain(s, e) && pid in Next(s, e).drafts
    ensures DraftKept(Next(s, e), Next(s, e).drafts[pid])
  {
    hide PlanOf;
    var d := Next(s, e).drafts[pid];
    if pid in s.drafts && s.drafts[pid] == d {
      assert DraftKept(s, d);
    } else {
      AmendedIsKept(s, e.rkey, e.editor, e.amended);
    }
    StepEvolves(s, e, d.rkey);
  }

  lemma PutIsProposal(c: Commit, r: Rkey)
    requires PutBy(c, r).Some?
    ensures c.proposal.Some? && c.proposal.value.Put? && c.proposal.value.record == ProposalRecord(PutBy(c, r).value)
  {
  }

  lemma StoredStaysKept(s: State, e: Event, r: Rkey)
    requires BookKept(s) && Plain(s, e) && Lookup(Next(s, e).records, r).Some?
    ensures RoundFits(Lookup(Next(s, e).records, r).value)
  {
    hide PlanOf;
    NextLookup(s, e, r);
    DoneIsProper(s, e);
    if Done(s, e).commit.Some? && PutBy(Done(s, e).commit.value, r).Some? {
      PutIsProposal(Done(s, e).commit.value, r);
    }
  }

  lemma BookKeptNext(s: State, e: Event)
    requires BookKept(s) && Plain(s, e)
    ensures BookKept(Next(s, e))
  {
    hide Next;
    hide DraftKept;
    hide RoundFits;
    forall r | Lookup(Next(s, e).records, r).Some?
      ensures RoundFits(Lookup(Next(s, e).records, r).value)
    {
      StoredStaysKept(s, e, r);
    }
    forall k | k in Next(s, e).records && Reserved(k.collection) ensures k.rkey < Next(s, e).next { KeysStayFresh(s, e, k); }
    forall pid | pid in Next(s, e).drafts ensures DraftKept(Next(s, e), Next(s, e).drafts[pid]) { DraftStaysKept(s, e, pid); }
  }

  // ── Every run ─────────────────────────────────────────────────────

  /** A run that makes no change to governance's own records. */
  ghost predicate PlainRun(states: seq<State>, es: seq<Event>) {
    IsRun(states, es) && forall i {:trigger es[i]} | 0 <= i < |es| :: Plain(states[i], es[i])
  }

  /** ... and in which, besides, amendments land on open proposals. */
  ghost predicate OrderlyRun(states: seq<State>, es: seq<Event>) {
    && PlainRun(states, es)
    && forall i {:trigger es[i]} | 0 <= i < |es| :: AmendsOpen(states[i], es[i])
  }

  /** No draft is written over `r` at step `k` unless `r` is open. */
  ghost predicate OpenAt(states: seq<State>, es: seq<Event>, k: nat, r: Rkey)
    requires |states| == |es| + 1 && k < |es|
  {
    Amends(states[k], es[k], r) ==> Lookup(states[k].records, r).Some? && Lookup(states[k].records, r).value.status == Open
  }

  /** ... unless it was read as `r` is stored. */
  ghost predicate CurrentAt(states: seq<State>, es: seq<Event>, k: nat, r: Rkey)
    requires |states| == |es| + 1 && k < |es|
  {
    Amends(states[k], es[k], r) ==>
      Lookup(states[k].records, r).Some? && UpToDate(Lookup(states[k].records, r).value, states[k].drafts[es[k].pid].proposal)
  }

  ghost predicate AmendedOpen(states: seq<State>, es: seq<Event>, i: nat, j: nat, r: Rkey)
    requires |states| == |es| + 1 && i <= j < |states|
  {
    forall k | i <= k < j :: OpenAt(states, es, k, r)
  }

  ghost predicate AmendedCurrent(states: seq<State>, es: seq<Event>, i: nat, j: nat, r: Rkey)
    requires |states| == |es| + 1 && i <= j < |states|
  {
    forall k | i <= k < j :: CurrentAt(states, es, k, r)
  }

  lemma StepOf(states: seq<State>, es: seq<Event>, i: nat)
    requires PlainRun(states, es) && i < |es|
    ensures states[i + 1] == Next(states[i], es[i]) && Plain(states[i], es[i])
  {
    hide Next;
    hide Plain;
    var e := es[i];
  }

  lemma {:induction false} BookKeptRun(states: seq<State>, es: seq<Event>, n: nat)
    requires PlainRun(states, es) && BookKept(states[0]) && n < |states|
    ensures BookKept(states[n])
    decreases n
  {
    hide Next;
    hide Plain;
    hide BookKept;
    if n > 0 {
      BookKeptRun(states, es, n - 1);
      StepOf(states, es, n - 1);
      BookKeptNext(states[n - 1], es[n - 1]);
    }
  }

  ghost predicate AdvancesAt(states: seq<State>, k: nat, r: Rkey)
    requires k + 1 < |states|
  {
    var (p, q) := (Lookup(states[k].records, r), Lookup(states[k + 1].records, r));
    p.Some? && q.Some? && Advances(p.value, q.value)
  }

  ghost predicate EvolvesAt(states: seq<State>, k: nat, r: Rkey)
    requires k + 1 < |states|
  {
    var (p, q) := (Lookup(states[k].records, r), Lookup(states[k + 1].records, r));
    p.Some? && q.Some? && Evolves(p.value, q.value)
  }

  lemma StepOfRun(states: seq<State>, es: seq<Event>, k: nat, r: Rkey)
    requires PlainRun(states, es) && BookKept(states[0]) && k < |es| && Lookup(states[k].records, r).Some?
    ensures Lookup(states[k + 1].records, r).Some?
    ensures AdvancesAt(states, k, r) <==> OpenAt(states, es, k, r)
    ensures EvolvesAt(states, k, r) <==> CurrentAt(states, es, k, r)
  {
    hide Next;
    hide Plain;
    hide BookKept;
    hide UpToDate;
    hide Advances;
    hide Evolves;
    BookKeptRun(states, es, k);
    StepOf(states, es, k);
    StepEvolves(states[k], es[k], r);
  }

  /**
   Between two points of a run a stored proposal stays stored.  It only ever advances
   from one to the other if and only if no draft was written over it unless it was open.
   */
  lemma {:induction false} ProposalsAdvance(states: seq<State>, es: seq<Event>, i: nat, j: nat, r: Rkey)
    requires PlainRun(states, es) && BookKept(states[0]) && i <= j < |states| && Lookup(states[i].records, r).Some?
    ensures Lookup(states[j].records, r).Some?
    ensures AmendedOpen(states, es, i, j, r) ==> Advances(Lookup(states[i].records, r).value, Lookup(states[j].records, r).value)
    ensures AmendedOpen(states, es, i, j, r) <==> forall k | i <= k < j :: AdvancesAt(states, k, r)
    decreases j
  {
    hide Next;
    hide Plain;
    hide BookKept;
    hide Advances;
    hide AdvancesAt;
    hide OpenAt;
    if i < j {
      ProposalsAdvance(states, es, i, j - 1, r);
      StepOfRun(states, es, j - 1, r);
      if AmendedOpen(states, es, i, j, r) { AdvancesOn(states, i, j, r); }
    } else {
      EvolvesToItself(Lookup(states[i].records, r).value);
    }
  }

  lemma AdvancesOn(states: seq<State>, i: nat, j: nat, r: Rkey)
    requires i < j < |states| && Lookup(states[i].records, r).Some? && AdvancesAt(states, j - 1, r)
    requires Advances(Lookup(states[i].records, r).value, Lookup(states[j - 1].records, r).value)
    ensures Advances(Lookup(states[i].records, r).value, Lookup(states[j].records, r).value)
  {
    hide Advances;
    AdvancesTransitive(Lookup(states[i].records, r).value, Lookup(states[j - 1].records, r).value, Lookup(states[j].records, r).value);
  }

  lemma EvolvesOn(states: seq<State>, i: nat, j: nat, r: Rkey)
    requires i < j < |states| && Lookup(states[i].records, r).Some? && EvolvesAt(states, j - 1, r)
    requires Evolves(Lookup(states[i].records, r).value, Lookup(states[j - 1].records, r).value)
    ensures Evolves(Lookup(states[i].records, r).value, Lookup(states[j].records, r).value)
  {
    hide Evolves;
    EvolvesTransitive(Lookup(states[i].records, r).value, Lookup(states[j - 1].records, r).value, Lookup(states[j].records, r).value);
  }

  /** ... and it evolves, its history never cut and its lists growing between resets, if and only if whatever draft was written over it was read from what was stored. */
  lemma {:induction false} ProposalsEvolve(states: seq<State>, es: seq<Event>, i: nat, j: nat, r: Rkey)
    requires PlainRun(states, es) && BookKept(states[0]) && i <= j < |states| && Lookup(states[i].records, r).Some?
    ensures Lookup(states[j].records, r).Some?
    ensures AmendedCurrent(states, es, i, j, r) ==> Evolves(Lookup(states[i].records, r).value, Lookup(states[j].records, r).value)
    ensures AmendedCurrent(states, es, i, j, r) <==> forall k | i <= k < j :: EvolvesAt(states, k, r)
    decreases j
  {
    hide Next;
    hide Plain;
    hide BookKept;
    hide Evolves;
    hide EvolvesAt;
    hide CurrentAt;
    if i < j {
      ProposalsEvolve(states, es, i, j - 1, r);
      StepOfRun(states, es, j - 1, r);
      if AmendedCurrent(states, es, i, j, r) { EvolvesOn(states, i, j, r); }
    } else {
      EvolvesToItself(Lookup(states[i].records, r).value);
    }
  }

  lemma EvolvesToItself(p: Proposal)
    ensures Advances(p, p) && Evolves(p, p)
  {
  }

  lemma ClosedStep(s: State, e: Event, r: Rkey)
    requires BookKept(s) && Plain(s, e) && Lookup(s.records, r).Some? && Closed(Lookup(s.records, r).value.status)
    ensures Lookup(Next(s, e).records, r) == Lookup(s.records, r) <==> !Amends(s, e, r)
  {
    hide PlanOf;
    hide Next;
    StepEvolves(s, e, r);
    if Amends(s, e, r) {
      NextLookup(s, e, r);
      AmendAlwaysDone(s, e);
      AmendmentLands(s, e.pid);
    }
  }

  /** The proposal is the same at every point from `i` to `j`. */
  ghost predicate Unchanged(states: seq<State>, i: nat, j: nat, r: Rkey)
    requires i <= j < |states|
  {
    forall k | i <= k <= j :: Lookup(states[k].records, r) == Lookup(states[i].records, r)
  }

  ghost predicate Unamended(states: seq<State>, es: seq<Event>, i: nat, j: nat, r: Rkey)
    requires |states| == |es| + 1 && i <= j < |states|
  {
    forall k | i <= k < j :: !Amends(states[k], es[k], r)
  }

  /** A closed proposal stays identical, from one point of a run to any later one, if and only if no draft is written over it between them. */
  lemma {:induction false} ClosedIsFinal(states: seq<State>, es: seq<Event>, i: nat, j: nat, r: Rkey)
    requires PlainRun(states, es) && BookKept(states[0]) && i <= j < |states|
    requires Lookup(states[i].records, r).Some? && Closed(Lookup(states[i].records, r).value.status)
    ensures Unchanged(states, i, j, r) <==> Unamended(states, es, i, j, r)
    decreases j
  {
    hide Next;
    hide Plain;
    hide BookKept;
    hide Amends;
    if i < j {
      ClosedIsFinal(states, es, i, j - 1, r);
      BookKeptRun(states, es, j - 1);
      StepOf(states, es, j - 1);
      if Unchanged(states, i, j - 1, r) {
        ClosedStep(states[j - 1], es[j - 1], r);
      } else {
        assert !Unchanged(states, i, j, r);
      }
    }
  }

  // ── Amending takes no lock ────────────────────────────────────────

  /**
   An amendment read and written with nothing in between keeps the whole history: the
   new record, the one it replaced, and no vote for either.
   */
  lemma AmendmentKeepsHistory(s: State, pid: Pid, r: Rkey, editor: Did, amended: Record)
    requires BookKept(s) && Lookup(s.records, r).Some? && Lookup(s.records, r).value.status == Open
    ensures var p := Lookup(s.records, r).value;
      var q := Lookup(Next(Next(s, AmendRead(pid, r, editor, amended)), AmendWrite(pid)).records, r);
      && q.Some? && q.value.status == Open && q.value.proposed == Some(amended)
      && q.value.amendments == p.amendments + [Amendment(editor, p.proposed, s.clock)]
      && q.value.votesFor == [] && q.value.votesAgainst == []
  {
    hide Lineage;
    hide BookKept;
    var t := Next(s, AmendRead(pid, r, editor, amended));
    assert t.drafts[pid].rkey == r && t.records == s.records;
    assert PlanOf(t, AmendWrite(pid)) == AmendPlan(t, pid);
  }

  /** Read while open, decided meanwhile, written back: the proposal is open again. */
  lemma StaleAmendmentReopens(s: State, pid: Pid)
    requires BookKept(s) && pid in s.drafts && Lookup(s.records, s.drafts[pid].rkey).value.status == Decided(Approved)
    ensures var q := Lookup(Next(s, AmendWrite(pid)).records, s.drafts[pid].rkey);
      q.Some? && q.value.status == Open && q.value.votesFor == [] && q.value.votesAgainst == []
  {
    hide PlanOf;
    hide Next;
    PlainUnlessAsked(s, AmendWrite(pid));
    NextLookup(s, AmendWrite(pid), s.drafts[pid].rkey);
    AmendAlwaysDone(s, AmendWrite(pid));
    AmendmentLands(s, pid);
  }

  /** Two amendments read before either is written: the second drops the first from the history. */
  lemma SecondAmendmentDropsFirst(s: State, pid: Pid, qid: Pid, r: Rkey, a: Did, b: Did, first: Record, second: Record)
    requires BookKept(s) && Lookup(s.records, r).Some? && Lookup(s.records, r).value.status == Open && pid != qid && a != b
    ensures var p := Lookup(s.records, r).value;
      var read := Next(Next(s, AmendRead(pid, r, a, first)), AmendRead(qid, r, b, second));
      var once := Lookup(Next(read, AmendWrite(pid)).records, r);
      var twice := Lookup(Next(Next(read, AmendWrite(pid)), AmendWrite(qid)).records, r);
      && once.Some? && once.value.amendments == p.amendments + [Amendment(a, p.proposed, s.clock)]
      && twice.Some? && twice.value.amendments == p.amendments + [Amendment(b, p.proposed, s.clock)]
      && !Evolves(once.value, twice.value)
  {
    hide Next;
    hide BookKept;
    hide Evolves;
    var p := Lookup(s.records, r).value;
    var s1 := Next(s, AmendRead(pid, r, a, first));
    ReadLeavesDraft(s, pid, r, a, first);
    ReadLeavesDraft(s1, qid, r, b, second);
    var read := Next(s1, AmendRead(qid, r, b, second));
    BookKeptNext(s, AmendRead(pid, r, a, first));
    BookKeptNext(s1, AmendRead(qid, r, b, second));
    WriteLands(read, pid);
    BookKeptNext(read, AmendWrite(pid));
    WriteLands(Next(read, AmendWrite(pid)), qid);
    NotExtended(Lookup(Next(read, AmendWrite(pid)).records, r).value,
      Lookup(Next(Next(read, AmendWrite(pid)), AmendWrite(qid)).records, r).value, p.amendments,
      Amendment(a, p.proposed, s.clock), Amendment(b, p.proposed, s.clock));
  }

  lemma NotExtended(p: Proposal, q: Proposal, history: seq<Amendment>, a: Amendment, b: Amendment)
    requires p.amendments == history + [a] && q.amendments == history + [b] && a != b
    ensures !Evolves(p, q)
  {
    assert p.amendments[|history|] == a && q.amendments[|history|] == b;
  }

  lemma ReadLeavesDraft(s: State, pid: Pid, r: Rkey, editor: Did, amended: Record)
    requires Lookup(s.records, r).Some? && Lookup(s.records, r).value.status == Open
    ensures Next(s, AmendRead(pid, r, editor, amended)) ==
      s.(drafts := s.drafts[pid := Draft(r, Amended(s, Lookup(s.records, r).value, editor, amended))], next := s.next + 4)
  {
  }

  lemma WriteLands(s: State, pid: Pid)
    requires BookKept(s) && pid in s.drafts
    ensures var q := Lookup(Next(s, AmendWrite(pid)).records, s.drafts[pid].rkey);
      q.Some? && q.value.amendments == s.drafts[pid].proposal.amendments
    ensures Next(s, AmendWrite(pid)).drafts == s.drafts - {pid}
  {
    NextLookup(s, AmendWrite(pid), s.drafts[pid].rkey);
    AmendAlwaysDone(s, AmendWrite(pid));
    AmendmentLands(s, pid);
  }
}
