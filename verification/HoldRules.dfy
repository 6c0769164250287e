/**
 What objecting and sweeping do to a proposal in its contest window, read off the
 stored records: whose objections stand, when they hold it, what round a hold opens,
 and which vote carries that round.
 */
module HoldRules {
  import opened Wrappers
  import opened DecisionRules
  import opened VoteTally
  import opened DelegationLoop
  import opened ProposalRecords
  import opened ProposalMachine
  import opened ProposalEvolution
  import opened StoredRules
  import OverrideRound

  // ── Whose objections stand ────────────────────────────────────────

  /** The record objects to this very decision, from when it fell until its change is due. */
  predicate Stands(o: ObjectionRow, r: Rkey, p: Proposal) {
    && p.decision.Some? && p.resolvedAt.Some? && p.applyAt.Some? && o.createdAt.Some?
    && o.proposal == r && o.citesProposal && o.decisionRkey == p.decision.value.rkey && o.decisionCid == p.decision.value.cid
    && p.resolvedAt.value <= o.createdAt.value && o.createdAt.value < p.applyAt.value
  }

  /** `standing` is everyone with such a record. */
  ghost predicate StandingAre(standing: set<Did>, objections: set<ObjectionRow>, r: Rkey, p: Proposal) {
    forall d :: d in standing <==> exists o :: o in objections && o.repo == d && Stands(o, r, p)
  }

  lemma StandingRead(standing: set<Did>, objections: set<ObjectionRow>, r: Rkey, p: Proposal)
    requires StandingAre(standing, objections, r, p)
    ensures standing == Objectors(objections, r, p)
  {
    forall d ensures d in Objectors(objections, r, p) <==> d in standing {
      if d in standing {
        var o :| o in objections && o.repo == d && Stands(o, r, p);
        assert o.repo in Objectors(objections, r, p);
      }
      if d in Objectors(objections, r, p) {
        var o :| o in objections && o.proposal == r && o.repo == d
          && CountsAsObjection(o, p.decision.value.rkey, p.decision.value.cid, p.resolvedAt.value, p.applyAt.value);
        assert Stands(o, r, p);
      }
    }
  }

  // ── What a hold makes of the proposal ─────────────────────────────

  /** Final where the settings say so; else an override round, with empty lists, its bar and its end frozen. */
  ghost predicate HeldFrom(records: Records, now: Time, electorate: nat, standing: set<Did>, p: Proposal, q: Proposal) {
    && q.objectors == standing && q.decision == p.decision && q.applyAt == p.applyAt && q.resolvedAt == p.resolvedAt
    && q.proposed == p.proposed && q.target == p.target && q.action == p.action && q.amendments == p.amendments
    && q.appliedAt == p.appliedAt && q.roundOutcome == p.roundOutcome
    && if States(records, ObjectionReview, Text(0))
       then q.status == Objected && q.round == p.round && q.votesFor == p.votesFor && q.votesAgainst == p.votesAgainst
       else
         && q.status == Override && q.votesFor == [] && q.votesAgainst == [] && q.round.Some?
         && q.round.value.openedAt == now && q.round.value.electorate == electorate
         && BarStands(records, electorate, q.round.value.bar)
         && forall days | DaysStand(records, days) :: Falls(q.round.value.expiresAt, now, days * 86400000.0)
  }

  lemma HeldRead(s: State, p: Proposal, standing: set<Did>, electorate: nat)
    ensures HeldFrom(s.records, s.clock, electorate, standing, p, Held(s, p, standing, electorate))
  {
    var settings := SettingsOf(s.records);
    hide BarStands;
    hide DaysStand;
    BarRead(s.records, electorate, OverrideBar(settings, QuorumOf(settings), electorate));
    forall days | DaysStand(s.records, days) ensures days == OverrideDaysOf(settings) { DaysRead(s.records, days); }
    ReadsText(s.records, ObjectionReview, Text(0));
    hide OverrideBar;
    hide States;
  }

  // ── objectToProposal ──────────────────────────────────────────────

  predicate HasRepo(repos: Repos, d: Did) { d !in repos.missing && d !in repos.unknown }

  /** A finished objection to a stored proposal. */
  ghost predicate ObjectsTo(s: State, e: Event, p: Proposal) {
    e.Object? && Lookup(s.records, e.rkey) == Some(p) && Done(s, e) == PlanOf(s, e) && BookKept(s)
  }

  /** The window is open, the objector can sign and has not objected yet. */
  predicate MayObjectNow(p: Proposal, now: Time, objector: Did, standing: set<Did>, repos: Repos) {
    && p.status == Pending && p.applyAt.Some? && now < p.applyAt.value && p.decision.Some?
    && objector !in standing && objector !in p.objectors && HasRepo(repos, objector)
  }

  lemma ObjectPlanExactly(s: State, e: Event, p: Proposal, standing: set<Did>)
    requires e.Object? && Lookup(s.records, e.rkey) == Some(p) && standing == Objectors(s.objections, e.rkey, p)
    ensures PlanOf(s, e).votes == [] && PlanOf(s, e).seed.None?
    ensures PlanOf(s, e).objection.Some? <==> MayObjectNow(p, s.clock, e.objector, standing, e.repos)
    ensures PlanOf(s, e).objection.None? ==> PlanOf(s, e).commit.None?
    ensures PlanOf(s, e).objection.Some? ==>
      var row := PlanOf(s, e).objection.value;
      var after := Objectors(s.objections + {row}, e.rkey, p);
      && row == ObjectionRow(e.objector, s.next, e.rkey, true, p.decision.value.rkey, p.decision.value.cid, Some(s.clock))
      && (PlanOf(s, e).commit.Some? <==> |after| >= ObjectionThresholdOf(SettingsOf(s.records)))
      && (PlanOf(s, e).commit.Some? ==>
            PlanOf(s, e).commit.value == Rewrite(s, e.rkey, Held(s, p, after, e.electorate), s.next + 1))
  {
    hide Objectors;
    hide Held;
    hide Lineage;
  }

  lemma RewriteStores(s: State, r: Rkey, q: Proposal, cid: Cid)
    ensures Lookup(ApplyCommit(s.records, Rewrite(s, r, q, cid)), r).Some?
    ensures var q' := Lookup(ApplyCommit(s.records, Rewrite(s, r, q, cid)), r).value; q' == q.(cidChain := q'.cidChain)
  {
    hide Lineage;
  }

  /**
   An objection is recorded exactly when the window is open and the objector can sign
   and has not objected yet; and it holds the proposal exactly when those standing with
   it reach the stored threshold.
   */
  lemma ObjectionHolds(s: State, e: Event, p: Proposal, standing: set<Did>, after: set<Did>, threshold: nat)
    requires ObjectsTo(s, e, p) && ThresholdStands(s.records, threshold)
    requires StandingAre(standing, s.objections, e.rkey, p) && StandingAre(after, Next(s, e).objections, e.rkey, p)
    ensures var t := Next(s, e);
      && t.votes == s.votes
      && if !MayObjectNow(p, s.clock, e.objector, standing, e.repos) then t.objections == s.objections && t.records == s.records
         else
           && t.objections == s.objections
                + {ObjectionRow(e.objector, s.next, e.rkey, true, p.decision.value.rkey, p.decision.value.cid, Some(s.clock))}
           && Lookup(t.records, e.rkey).Some?
           && if |after| < threshold then t.records == s.records
              else HeldFrom(s.records, s.clock, e.electorate, after, p, Lookup(t.records, e.rkey).value)
  {
    hide PlanOf;
    hide Objectors;
    hide Lineage;
    hide Held;
    hide HeldFrom;
    hide StandingAre;
    hide ThresholdStands;
    hide BookKept;
    hide ApplyCommit;
    StandingRead(standing, s.objections, e.rkey, p);
    StandingRead(after, Next(s, e).objections, e.rkey, p);
    ThresholdRead(s.records, threshold);
    ObjectPlanExactly(s, e, p, standing);
    if PlanOf(s, e).commit.Some? {
      HeldRead(s, p, after, e.electorate);
      RewriteStores(s, e.rkey, Held(s, p, after, e.electorate), s.next + 1);
      SameHeld(s, p, after, e.electorate, Lookup(Next(s, e).records, e.rkey).value);
    }
  }

  lemma SameHeld(s: State, p: Proposal, standing: set<Did>, electorate: nat, q: Proposal)
    requires HeldFrom(s.records, s.clock, electorate, standing, p, Held(s, p, standing, electorate))
    requires q == Held(s, p, standing, electorate).(cidChain := q.cidChain)
    ensures HeldFrom(s.records, s.clock, electorate, standing, p, q)
  {
    hide Held;
    hide BarStands;
    hide DaysStand;
  }

  /** Where the process dies: before anything, or between the objection's record and the hold it may cause. */
  lemma CutObjection(s: State, e: Event, p: Proposal, standing: set<Did>)
    requires e.Object? && Lookup(s.records, e.rkey) == Some(p) && StandingAre(standing, s.objections, e.rkey, p)
    ensures var t := Next(s, e);
      if e.survived >= 2 then Done(s, e) == PlanOf(s, e)
      else
        && t.votes == s.votes && t.records == s.records && t.log == s.log
        && t.objections == s.objections + (
             if e.survived == 1 && MayObjectNow(p, s.clock, e.objector, standing, e.repos)
             then {ObjectionRow(e.objector, s.next, e.rkey, true, p.decision.value.rkey, p.decision.value.cid, Some(s.clock))} else {})
  {
    hide PlanOf;
    hide Objectors;
    hide StandingAre;
    StandingRead(standing, s.objections, e.rkey, p);
    ObjectPlanExactly(s, e, p, standing);
  }

  // ── applyIfDue and closeExpiredOverride ───────────────────────────

  /** A finished sweep of a stored proposal. */
  ghost predicate Sweeps(s: State, e: Event, p: Proposal) {
    (e.ApplyDue? || e.CloseOverride?) && Lookup(s.records, e.rkey) == Some(p) && BookKept(s) && Plain(s, e)
  }

  lemma ApplyPlanExactly(s: State, e: Event, p: Proposal, standing: set<Did>)
    requires e.ApplyDue? && e.survived >= 1 && Lookup(s.records, e.rkey) == Some(p) && standing == Objectors(s.objections, e.rkey, p)
    ensures Done(s, e) == PlanOf(s, e) && PlanOf(s, e).votes == [] && PlanOf(s, e).seed.None? && PlanOf(s, e).objection.None?
    ensures PlanOf(s, e).commit.Some? <==> p.status == Pending && p.applyAt.Some? && p.applyAt.value <= s.clock
    ensures PlanOf(s, e).commit.Some? && |standing| >= ObjectionThresholdOf(SettingsOf(s.records)) ==>
      PlanOf(s, e).commit.value == Rewrite(s, e.rkey, Held(s, p, standing, e.electorate), s.next)
    ensures PlanOf(s, e).commit.Some? && |standing| < ObjectionThresholdOf(SettingsOf(s.records)) ==>
      && PutBy(PlanOf(s, e).commit.value, e.rkey).Some?
      && var q := PutBy(PlanOf(s, e).commit.value, e.rkey).value;
         q == p.(status := Decided(Approved), appliedAt := if Unapplicable(s.records, p) then p.appliedAt else Some(s.clock), cidChain := q.cidChain)
  {
    hide Objectors;
    hide Held;
    hide Lineage;
    hide Unapplicable;
    hide ChangeOp;
  }

  /**
   A sweep leaves a proposal alone until its window has ended.  Then it holds it exactly
   when the standing objections reach the stored threshold, and otherwise approves it.
   */
  lemma SweepDecides(s: State, e: Event, p: Proposal, standing: set<Did>, threshold: nat)
    requires e.ApplyDue? && e.survived >= 1 && Sweeps(s, e, p) && ThresholdStands(s.records, threshold)
    requires StandingAre(standing, s.objections, e.rkey, p)
    ensures var t := Next(s, e);
      && t.votes == s.votes && t.objections == s.objections && Lookup(t.records, e.rkey).Some?
      && var q := Lookup(t.records, e.rkey).value;
         if !(p.status == Pending && p.applyAt.Some? && p.applyAt.value <= s.clock) then t.records == s.records
         else if |standing| >= threshold then HeldFrom(s.records, s.clock, e.electorate, standing, p, q)
         else q == p.(status := Decided(Approved), cidChain := q.cidChain,
                      appliedAt := if Unapplicable(s.records, p) then p.appliedAt else Some(s.clock))
  {
    hide PlanOf;
    hide Objectors;
    hide Lineage;
    hide Held;
    hide HeldFrom;
    hide StandingAre;
    hide ThresholdStands;
    hide BookKept;
    hide Plain;
    hide Unapplicable;
    StandingRead(standing, s.objections, e.rkey, p);
    ThresholdRead(s.records, threshold);
    ApplyPlanExactly(s, e, p, standing);
    NextLookup(s, e, e.rkey);
    if PlanOf(s, e).commit.Some? && |standing| >= threshold {
      HeldRead(s, p, standing, e.electorate);
      PutOfRewrite(s, e.rkey, Held(s, p, standing, e.electorate), s.next);
      SameHeld(s, p, standing, e.electorate, Lookup(Next(s, e).records, e.rkey).value);
    }
  }

  lemma PutOfRewrite(s: State, r: Rkey, q: Proposal, cid: Cid)
    ensures PutBy(Rewrite(s, r, q, cid), r).Some?
    ensures var q' := PutBy(Rewrite(s, r, q, cid), r).value; q' == q.(cidChain := q'.cidChain)
  {
    hide Lineage;
  }

  /** A round that has ended uncarried is rejected, as lapsed; any other proposal is left alone. */
  lemma RoundLapses(s: State, e: Event, p: Proposal)
    requires e.CloseOverride? && e.survived >= 1 && Sweeps(s, e, p)
    ensures var t := Next(s, e);
      && t.votes == s.votes && t.objections == s.objections && Lookup(t.records, e.rkey).Some?
      && var q := Lookup(t.records, e.rkey).value;
         if p.status == Override && p.round.Some? && p.round.value.expiresAt <= s.clock
         then q == p.(status := Decided(Rejected), resolvedAt := Some(s.clock), roundOutcome := Some(Lapsed), cidChain := q.cidChain)
         else t.records == s.records
  {
    hide Lineage;
    hide BookKept;
    NextLookup(s, e, e.rkey);
  }

  // ── Carrying the round ────────────────────────────────────────────

  /** A round keeps the bar it was opened with. */
  lemma BarIsFrozen(states: seq<State>, es: seq<Event>, i: nat, j: nat, r: Rkey)
    requires PlainRun(states, es) && BookKept(states[0]) && i <= j < |states| && AmendedOpen(states, es, i, j, r)
    requires Lookup(states[i].records, r).Some? && Lookup(states[i].records, r).value.round.Some?
    ensures Lookup(states[j].records, r).Some? && Lookup(states[j].records, r).value.round == Lookup(states[i].records, r).value.round
  {
    ProposalsAdvance(states, es, i, j, r);
  }

  /**
   A round opened by a hold, over any run: a later vote counted in it carries the change
   exactly when the For list, and where records are the evidence the tally too, reaches
   the bar the settings stated when the round opened, whatever they state by then.
   */
  lemma HeldRoundCarries(states: seq<State>, es: seq<Event>, i: nat, j: nat, r: Rkey, p: Proposal, standing: set<Did>, electorate: nat, bar: real)
    requires PlainRun(states, es) && BookKept(states[0]) && 0 < i <= j < |es| && AmendedOpen(states, es, i, j, r)
    requires Lookup(states[i].records, r).Some? && Lookup(states[i].records, r).value.status == Override
    requires HeldFrom(states[i - 1].records, states[i - 1].clock, electorate, standing, p, Lookup(states[i].records, r).value)
    requires Lookup(states[j].records, r).Some? && OverrideRound.CountsInRound(states[j], es[j], Lookup(states[j].records, r).value)
    requires es[j].rkey == r && BarStands(states[i - 1].records, electorate, bar)
    ensures var (s, e) := (states[j], es[j]);
      var now, c := Lookup(s.records, r).value, PlanOf(s, e).commit;
      && c.Some? && PutBy(c.value, r).Some?
      && var q := PutBy(c.value, r).value;
         && (q.status == Decided(Approved) || q.status == Override)
         && (q.status == Decided(Approved) <==>
               |q.votesFor| as real >= bar && (now.evidence ==> |ForVoters(OverrideRound.TallyAt(s, e, now))| as real >= bar))
  {
    hide PlanOf;
    hide BarStands;
    hide DaysStand;
    hide BookKept;
    hide Next;
    hide Plain;
    hide OverrideRound.TallyAt;
    BarIsFrozen(states, es, i, j, r);
    OverrideRound.ClosesAtBar(states[j], es[j], Lookup(states[j].records, r).value);
    var held := Lookup(states[i].records, r).value;
    BarRead(states[i - 1].records, electorate, bar);
    BarRead(states[i - 1].records, electorate, held.round.value.bar);
  }
}
