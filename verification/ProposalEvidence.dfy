/**
 Crash consistency of decisions.  At every durable point of every run a proposal that
 left voting cites a decision record that exists, was justified by the votes it
 counts, and is never touched again; and an approved proposal was closed by one commit
 that also carried its change, unless the change was refused.
 */
module ProposalEvidence {
  import opened Wrappers
  import opened DecisionRules
  import opened VoteTally
  import opened DelegationLoop
  import opened ProposalRecords
  import opened ProposalMachine
  import opened ProposalEvolution

  /** The counts a decision records do reach its outcome against its bar. */
  predicate Justified(d: Decision) {
    if d.overrideRound then DecideOverride(|d.votesFor|, d.bar) == Some(d.outcome)
    else DecideOutcome(|d.votesFor|, |d.votesAgainst|, d.bar) == Some(d.outcome)
  }

  /** `ref` names a stored, justified decision on `r` with this outcome. */
  predicate Attests(records: Records, r: Rkey, ref: DecisionRef, outcome: Outcome) {
    && LookupDecision(records, ref.rkey).Some?
    && records[DecisionKey(ref.rkey)].cid == ref.cid
    && var d := LookupDecision(records, ref.rkey).value;
       d.proposal == r && d.outcome == outcome && Justified(d)
  }

  /** The outcome the cited decision must have; a lapsed round keeps the approval it failed to confirm. */
  function AttestedOutcome(p: Proposal): Option<Outcome> {
    match p.status
    case Open => None
    case Expired => None
    case Decided(o) => Some(if p.roundOutcome == Some(Lapsed) then Approved else o)
    case _ => Some(Approved)
  }

  predicate Evidenced(records: Records, r: Rkey, p: Proposal) {
    && (p.roundOutcome == Some(Lapsed) ==> p.status == Decided(Rejected))
    && (p.evidence && AttestedOutcome(p).Some? ==>
          p.decision.Some? && Attests(records, r, p.decision.value, AttestedOutcome(p).value))
  }

  /** The commit that closed an approved proposal carried its change, unless that was refused. */
  ghost predicate Enacts(before: Records, c: Commit, r: Rkey, p: Proposal) {
    && PutBy(c, r) == Some(p)
    && (if Unapplicable(before, p) then c.change.None? else exists cid :: c.change == ChangeOp(before, p, cid))
  }

  ghost predicate Consistent(s: State) {
    && (forall r | Lookup(s.records, r).Some? :: Evidenced(s.records, r, Lookup(s.records, r).value))
    && (forall k | LookupDecision(s.records, k).Some? :: Justified(LookupDecision(s.records, k).value))
  }

  /** A commit without the change it carries. */
  function Bare(c: Commit): Commit { c.(change := None) }

  /** What a commit must bring for the records to stay consistent, apart from its change. */
  ghost predicate Vouches(s: State, c: Commit) {
    && (c.decision.Some? && c.decision.value.Put? && c.decision.value.record.DecisionRecord? ==>
          Justified(c.decision.value.record.decision))
    && (forall r | PutBy(c, r).Some? ::
          && Evidenced(ApplyCommit(s.records, Bare(c)), r, PutBy(c, r).value)
          && (PutBy(c, r).value.status == Decided(Approved) ==> Enacts(s.records, c, r, PutBy(c, r).value)))
  }

  // ── Decisions are permanent ───────────────────────────────────────

  lemma BareKeepsDecisions(s: State, c: Commit, k: Rkey)
    requires BookKept(s) && Fits(s, c) && DecisionKey(k) in s.records
    ensures DecisionKey(k) in ApplyCommit(s.records, Bare(c))
    ensures ApplyCommit(s.records, Bare(c))[DecisionKey(k)] == s.records[DecisionKey(k)]
  {
    assert Reserved(DecisionKey(k).collection);
  }

  lemma AttestationKept(s: State, c: Commit, r: Rkey, ref: DecisionRef, outcome: Outcome)
    requires BookKept(s) && Fits(s, c) && Attests(s.records, r, ref, outcome)
    ensures Attests(ApplyCommit(s.records, Bare(c)), r, ref, outcome)
  {
    BareKeepsDecisions(s, c, ref.rkey);
  }

  /** A change to any other record leaves governance's own records as the rest of the commit makes them. */
  lemma PlainChangeSpares(s: State, c: Commit, k: Key)
    requires Proper(s, c) && Reserved(k.collection)
    ensures var bare, after := ApplyCommit(s.records, Bare(c)), ApplyCommit(s.records, c);
      (k in after <==> k in bare) && (k in bare ==> after[k] == bare[k])
  {
  }

  /** Rewriting a proposal without a new decision keeps it evidenced. */
  lemma RewriteVouches(s: State, c: Commit, r: Rkey, p: Proposal, q: Proposal)
    requires BookKept(s) && Fits(s, c) && c.decision.None? && PutBy(c, r) == Some(q)
    requires Evidenced(s.records, r, p)
    requires q.evidence == p.evidence && q.decision == p.decision
    requires AttestedOutcome(q).Some? ==> AttestedOutcome(q) == AttestedOutcome(p)
    requires q.roundOutcome == Some(Lapsed) ==> q.status == Decided(Rejected)
    requires q.status == Decided(Approved) ==> Enacts(s.records, c, r, q)
    ensures Vouches(s, c)
  {
    if p.evidence && AttestedOutcome(q).Some? {
      AttestationKept(s, c, r, p.decision.value, AttestedOutcome(q).value);
    }
  }

  // ── A resolution brings its own evidence ──────────────────────────

  lemma NewDecisionJustified(s: State, r: Rkey, p: Proposal, counted: Proposal, t: map<Did, VoteRow>, outcome: Outcome)
    requires p.evidence && Ruling(p, counted, t, SettingsOf(s.records)) == Some(outcome)
    ensures Justified(NewDecision(s, r, p, counted, t, outcome))
  {
  }

  lemma ReusedDecisionAttests(s: State, r: Rkey, outcome: Outcome, cited: set<Cid>)
    requires Consistent(s) && Reusable(s.records, r, outcome, cited).Some?
    ensures var k := Reusable(s.records, r, outcome, cited).value;
      DecisionKey(k) in s.records && Attests(s.records, r, DecisionRef(k, s.records[DecisionKey(k)].cid), outcome)
  {
    var k := Latest(DecisionsOn(s.records, r)).value;
    assert k in DecisionsOn(s.records, r);
    var key :| key in s.records && key.collection == Decisions && s.records[key].record.DecisionRecord?
               && s.records[key].record.decision.proposal == r && key.rkey == k;
    assert key == DecisionKey(k);
  }

  /** The decision a resolution cites is in the repository once its commit is. */
  lemma CitedDecisionAttests(s: State, r: Rkey, p: Proposal, counted: Proposal, t: map<Did, VoteRow>, outcome: Outcome, id: nat)
    requires BookKept(s) && Consistent(s) && p.evidence
    requires Ruling(p, counted, t, SettingsOf(s.records)) == Some(outcome)
    requires Fits(s, ResolutionCommit(s, r, p, counted, t, outcome, id))
    ensures var ref := DecisionFor(s, r, p, counted, t, outcome, id).0;
      ref.Some? && Attests(ApplyCommit(s.records, Bare(ResolutionCommit(s, r, p, counted, t, outcome, id))), r, ref.value, outcome)
  {
    var c := ResolutionCommit(s, r, p, counted, t, outcome, id);
    var (ref, write) := DecisionFor(s, r, p, counted, t, outcome, id);
    if write.None? {
      ReusedDecisionAttests(s, r, outcome, Cited(t));
      AttestationKept(s, c, r, ref.value, outcome);
    } else {
      NewDecisionJustified(s, r, p, counted, t, outcome);
      FreshDecisionAttests(s, c, r, id, NewDecision(s, r, p, counted, t, outcome));
    }
  }

  lemma FreshDecisionAttests(s: State, c: Commit, r: Rkey, id: nat, d: Decision)
    requires Fits(s, c) && c.decision == Some(Put(DecisionKey(id), DecisionRecord(d), id))
    requires d.proposal == r && Justified(d)
    ensures Attests(ApplyCommit(s.records, Bare(c)), r, DecisionRef(id, id), d.outcome)
  {
  }

  lemma ResolutionEnacts(s: State, r: Rkey, p: Proposal, counted: Proposal, t: map<Did, VoteRow>, outcome: Outcome, id: nat)
    requires SameCharter(p, counted) && counted.proposed == p.proposed
    ensures var c := ResolutionCommit(s, r, p, counted, t, outcome, id);
      && PutBy(c, r).Some?
      && (PutBy(c, r).value.status == Decided(Approved) ==> Enacts(s.records, c, r, PutBy(c, r).value))
  {
    var c := ResolutionCommit(s, r, p, counted, t, outcome, id);
    var q := PutBy(c, r).value;
    assert q.target == p.target && q.action == p.action && q.proposed == p.proposed;
    if !Unapplicable(s.records, p) && q.status == Decided(Approved) {
      assert c.change == ChangeOp(s.records, q, id + 2);
    }
  }

  lemma ResolutionVouches(s: State, r: Rkey, p: Proposal, counted: Proposal, t: map<Did, VoteRow>, outcome: Outcome, id: nat)
    requires BookKept(s) && Consistent(s) && Lookup(s.records, r) == Some(p) && (p.status == Open || p.status == Override)
    requires SameCharter(p, counted) && counted.proposed == p.proposed && counted.roundOutcome == p.roundOutcome
    requires Ruling(p, counted, t, SettingsOf(s.records)) == Some(outcome)
    requires Fits(s, ResolutionCommit(s, r, p, counted, t, outcome, id))
    ensures Vouches(s, ResolutionCommit(s, r, p, counted, t, outcome, id))
  {
    var c := ResolutionCommit(s, r, p, counted, t, outcome, id);
    assert Evidenced(s.records, r, p);
    ResolutionEnacts(s, r, p, counted, t, outcome, id);
    if p.evidence {
      CitedDecisionAttests(s, r, p, counted, t, outcome, id);
      NewDecisionJustified(s, r, p, counted, t, outcome);
    }
    ResolvedStatus(s, p, counted, outcome, DecisionFor(s, r, p, counted, t, outcome, id).0);
  }

  lemma ResolvedStatus(s: State, p: Proposal, counted: Proposal, outcome: Outcome, ref: Option<DecisionRef>)
    requires p.roundOutcome != Some(Lapsed) && counted.roundOutcome == p.roundOutcome
    ensures var q := Resolved(s, p, counted, outcome, ref);
      && q.roundOutcome != Some(Lapsed)
      && AttestedOutcome(q) == Some(outcome)
      && (ref.Some? ==> q.decision == ref)
  {
  }

  // ── Every planned commit vouches for itself ───────────────────────

  lemma CastVouches(s: State, r: Rkey, p: Proposal, voter: Did, side: Side, rows: seq<DelegationRow>, repos: Repos, lost: set<Did>)
    requires BookKept(s) && Consistent(s) && Lookup(s.records, r) == Some(p) && (p.status == Open || p.status == Override)
    requires Fits(s, CastPlan(s, r, p, voter, side, rows, repos, lost).commit.value)
    ensures Vouches(s, CastPlan(s, r, p, voter, side, rows, repos, lost).commit.value)
  {
    hide NewNames;
    hide VoteRows;
    hide TallyOf;
    hide Ruling;
    hide Lineage;
    hide ResolutionCommit;
    hide Vouches;
    hide BookKept;
    var names := NewNames(p, voter, rows, repos);
    var counted := WithVotes(p, side, names);
    var current := s.records[ProposalKey(r)].cid;
    var written := VoteRows(names, side, r, current, s.clock, s.next, lost + repos.missing);
    var t := TallyOf(s.votes + AsSet(written), r, counted, current);
    var ruling := Ruling(p, counted, t, SettingsOf(s.records));
    var id := s.next + |names|;
    assert Evidenced(s.records, r, p);
    if ruling.Some? {
      ResolutionVouches(s, r, p, counted, t, ruling.value, id);
    } else {
      var c := Rewrite(s, r, counted, id + 1);
      RewriteVouches(s, c, r, p, PutBy(c, r).value);
    }
  }

  lemma ObjectVouches(s: State, r: Rkey, objector: Did, repos: Repos, electorate: nat)
    requires BookKept(s) && Consistent(s)
    requires var c := ObjectPlan(s, r, objector, repos, electorate).commit; c.Some? ==> Fits(s, c.value)
    ensures var c := ObjectPlan(s, r, objector, repos, electorate).commit; c.Some? ==> Vouches(s, c.value)
  {
    var plan := ObjectPlan(s, r, objector, repos, electorate);
    if plan.commit.Some? {
      var p := Lookup(s.records, r).value;
      assert Evidenced(s.records, r, p);
      RewriteVouches(s, plan.commit.value, r, p, PutBy(plan.commit.value, r).value);
    }
  }

  lemma ApplyVouches(s: State, r: Rkey, electorate: nat)
    requires BookKept(s) && Consistent(s)
    requires var c := ApplyPlan(s, r, electorate).commit; c.Some? ==> Fits(s, c.value)
    ensures var c := ApplyPlan(s, r, electorate).commit; c.Some? ==> Vouches(s, c.value)
  {
    var plan := ApplyPlan(s, r, electorate);
    if plan.commit.Some? {
      var c := plan.commit.value;
      var p := Lookup(s.records, r).value;
      var q := PutBy(c, r).value;
      assert Evidenced(s.records, r, p);
      ApplyEnacts(s, r, electorate);
      RewriteVouches(s, c, r, p, q);
    }
  }

  lemma ApplyEnacts(s: State, r: Rkey, electorate: nat)
    ensures var c := ApplyPlan(s, r, electorate).commit;
      c.Some? ==>
        && PutBy(c.value, r).Some?
        && (PutBy(c.value, r).value.status == Decided(Approved) ==> Enacts(s.records, c.value, r, PutBy(c.value, r).value))
  {
    var plan := ApplyPlan(s, r, electorate);
    if plan.commit.Some? {
      var p := Lookup(s.records, r).value;
      var q := PutBy(plan.commit.value, r).value;
      assert q.target == p.target && q.action == p.action && q.proposed == p.proposed;
      if q.status == Decided(Approved) && !Unapplicable(s.records, p) {
        assert plan.commit.value.change == ChangeOp(s.records, q, s.next + 1);
      }
    }
  }

  lemma CloseVouches(s: State, r: Rkey)
    requires BookKept(s) && Consistent(s)
    requires ClosePlan(s, r).commit.Some? && Fits(s, ClosePlan(s, r).commit.value)
    ensures Vouches(s, ClosePlan(s, r).commit.value)
  {
    var c := ClosePlan(s, r).commit.value;
    var p := Lookup(s.records, r).value;
    assert Evidenced(s.records, r, p);
    RewriteVouches(s, c, r, p, PutBy(c, r).value);
  }

  lemma VoteVouches(s: State, e: Event)
    requires BookKept(s) && Consistent(s) && e.Vote? && PlanOf(s, e).commit.Some? && Fits(s, PlanOf(s, e).commit.value)
    ensures Vouches(s, PlanOf(s, e).commit.value)
  {
    hide CastPlan;
    hide Lineage;
    hide BookKept;
    var p := Lookup(s.records, e.rkey).value;
    assert Evidenced(s.records, e.rkey, p);
    if VoteGate(p, s.clock, e.voter, e.repos) == Accept {
      CastVouches(s, e.rkey, p, e.voter, e.side, DelegationRows(s.records, e.order), e.repos, e.lost);
    }
  }

  lemma AmendVouches(s: State, pid: Pid)
    requires BookKept(s) && DraftsUndecided(s) && pid in s.drafts
    ensures Vouches(s, AmendPlan(s, pid).commit.value)
  {
    hide Lineage;
    assert DraftKept(s, s.drafts[pid]);
  }

  lemma PlanVouches(s: State, e: Event)
    requires BookKept(s) && Consistent(s) && DraftsUndecided(s)
    ensures PlanOf(s, e).commit.Some? ==> Vouches(s, PlanOf(s, e).commit.value)
  {
    hide VotePlan;
    hide ObjectPlan;
    hide ApplyPlan;
    hide ClosePlan;
    hide Consistent;
    hide BookKept;
    PlanFits(s, e);
    if PlanOf(s, e).commit.Some? {
      match e
      case Vote(_, _, _, _, _, _, _) => VoteVouches(s, e);
      case Object(r, objector, repos, electorate, _) => ObjectVouches(s, r, objector, repos, electorate);
      case ApplyDue(r, electorate, _) => ApplyVouches(s, r, electorate);
      case CloseOverride(r, _) => CloseVouches(s, r);
      case AmendWrite(pid) => if pid in s.drafts { AmendVouches(s, pid); }
      case _ =>
    }
  }

  /** A draft is of an open proposal, which no round has touched. */
  ghost predicate DraftsUndecided(s: State) {
    forall pid | pid in s.drafts :: s.drafts[pid].proposal.roundOutcome != Some(Lapsed)
  }

  // ── Steps and runs ────────────────────────────────────────────────

  /** Without its change, a vouched commit leaves every proposal evidenced. */
  lemma BareIsEvidenced(s: State, c: Commit, r: Rkey)
    requires BookKept(s) && Consistent(s) && Fits(s, c) && Vouches(s, c)
    ensures var bare := ApplyCommit(s.records, Bare(c));
      && Lookup(bare, r) == (if PutBy(c, r).Some? then PutBy(c, r) else Lookup(s.records, r))
      && (Lookup(bare, r).Some? ==> Evidenced(bare, r, Lookup(bare, r).value))
  {
    if PutBy(c, r).None? && Lookup(s.records, r).Some? {
      var p := Lookup(s.records, r).value;
      assert Evidenced(s.records, r, p);
      if p.evidence && AttestedOutcome(p).Some? {
        AttestationKept(s, c, r, p.decision.value, AttestedOutcome(p).value);
      }
    }
  }

  lemma VouchedCommitKeepsConsistency(s: State, c: Commit)
    requires BookKept(s) && Consistent(s) && Proper(s, c) && Vouches(s, c)
    ensures Consistent(s.(records := ApplyCommit(s.records, c)))
  {
    var after := ApplyCommit(s.records, c);
    forall r | Lookup(after, r).Some? ensures Evidenced(after, r, Lookup(after, r).value) {
      var p := Lookup(after, r).value;
      BareIsEvidenced(s, c, r);
      PlainChangeSpares(s, c, ProposalKey(r));
      if p.decision.Some? { PlainChangeSpares(s, c, DecisionKey(p.decision.value.rkey)); }
    }
    forall k | LookupDecision(after, k).Some? ensures Justified(LookupDecision(after, k).value) {
      PlainChangeSpares(s, c, DecisionKey(k));
      if DecisionKey(k) in s.records {
        BareKeepsDecisions(s, c, k);
        assert LookupDecision(s.records, k) == LookupDecision(after, k);
      }
    }
  }

  lemma ConsistentNext(s: State, e: Event)
    requires BookKept(s) && Consistent(s) && DraftsUndecided(s) && Plain(s, e)
    ensures Consistent(Next(s, e))
  {
    DoneIsProper(s, e);
    PlanVouches(s, e);
    if Done(s, e).commit.Some? {
      VouchedCommitKeepsConsistency(s, Done(s, e).commit.value);
    }
  }

  lemma DraftsStayUndecided(s: State, e: Event)
    requires Consistent(s) && DraftsUndecided(s)
    ensures DraftsUndecided(Next(s, e))
  {
    if e.AmendRead? && Lookup(s.records, e.rkey).Some? {
      assert Evidenced(s.records, e.rkey, Lookup(s.records, e.rkey).value);
    }
  }

  /** The repository is what its commit log says, and every approval in it was enacted by one commit. */
  ghost predicate Audited(initial: Records, s: State) {
    && s.records == Replay(initial, s.log)
    && forall r | Lookup(s.records, r).Some? && Lookup(s.records, r).value.status == Decided(Approved) ::
         EnactedIn(initial, s.log, r, Lookup(s.records, r).value)
  }

  ghost predicate EnactedIn(initial: Records, log: seq<Commit>, r: Rkey, p: Proposal) {
    exists i :: 0 <= i < |log| && Enacts(Replay(initial, log[..i]), log[i], r, p)
  }

  lemma EnactedStays(initial: Records, log: seq<Commit>, c: Commit, r: Rkey, p: Proposal)
    requires EnactedIn(initial, log, r, p)
    ensures EnactedIn(initial, log + [c], r, p)
  {
    var i :| 0 <= i < |log| && Enacts(Replay(initial, log[..i]), log[i], r, p);
    assert (log + [c])[..i] == log[..i] && (log + [c])[i] == log[i];
  }

  lemma AuditedCommit(initial: Records, s: State, c: Commit)
    requires BookKept(s) && Audited(initial, s) && Proper(s, c) && Vouches(s, c)
    ensures Audited(initial, s.(records := ApplyCommit(s.records, c), log := s.log + [c]))
  {
    var log := s.log + [c];
    assert log[..|s.log|] == s.log;
    var after := ApplyCommit(s.records, c);
    forall r | Lookup(after, r).Some? && Lookup(after, r).value.status == Decided(Approved)
      ensures EnactedIn(initial, log, r, Lookup(after, r).value)
    {
      ProperCommitStores(s, c, r);
      if PutBy(c, r).Some? {
        assert Enacts(Replay(initial, log[..|s.log|]), log[|s.log|], r, PutBy(c, r).value);
      } else {
        EnactedStays(initial, s.log, c, r, Lookup(s.records, r).value);
      }
    }
  }

  lemma AuditedNext(initial: Records, s: State, e: Event)
    requires BookKept(s) && Consistent(s) && DraftsUndecided(s) && Plain(s, e) && Audited(initial, s)
    ensures Audited(initial, Next(s, e))
  {
    DoneIsProper(s, e);
    PlanVouches(s, e);
    if Done(s, e).commit.Some? {
      AuditedCommit(initial, s, Done(s, e).commit.value);
    }
  }

  /** Where runs begin: voting is open on every proposal and nothing has been decided. */
  ghost predicate Initial(s: State) {
    && BookKept(s) && s.log == [] && s.drafts == map[]
    && (forall r | Lookup(s.records, r).Some? ::
          Lookup(s.records, r).value.status == Open && Lookup(s.records, r).value.roundOutcome.None?)
    && (forall k | LookupDecision(s.records, k).Some? :: Justified(LookupDecision(s.records, k).value))
  }

  lemma InitialIsConsistent(s: State)
    requires Initial(s)
    ensures BookKept(s) && Consistent(s) && Audited(s.records, s) && DraftsUndecided(s)
  {
  }

  /**
   Whatever requests run, in whatever order, wherever each of them dies between two
   durable writes: every decided proposal is evidenced, and every approval enacted.
   */
  lemma {:induction false} CrashConsistency(states: seq<State>, es: seq<Event>, n: nat)
    requires PlainRun(states, es) && Initial(states[0]) && n < |states|
    ensures Consistent(states[n]) && Audited(states[0].records, states[n])
    ensures DraftsUndecided(states[n])
    decreases n
  {
    hide Next;
    hide Plain;
    hide BookKept;
    hide Consistent;
    hide Audited;
    hide DraftsUndecided;
    if n == 0 {
      InitialIsConsistent(states[0]);
    } else {
      CrashConsistency(states, es, n - 1);
      InitialIsConsistent(states[0]);
      BookKeptRun(states, es, n - 1);
      StepOf(states, es, n - 1);
      ConsistentNext(states[n - 1], es[n - 1]);
      DraftsStayUndecided(states[n - 1], es[n - 1]);
      AuditedNext(states[0].records, states[n - 1], es[n - 1]);
    }
  }

  lemma DecisionStays(s: State, e: Event, k: Rkey)
    requires BookKept(s) && Plain(s, e) && DecisionKey(k) in s.records
    ensures DecisionKey(k) in Next(s, e).records && Next(s, e).records[DecisionKey(k)] == s.records[DecisionKey(k)]
  {
    DoneIsProper(s, e);
    if Done(s, e).commit.Some? {
      BareKeepsDecisions(s, Done(s, e).commit.value, k);
      PlainChangeSpares(s, Done(s, e).commit.value, DecisionKey(k));
    }
  }

  /** A decision record is never overwritten or removed. */
  lemma {:induction false} DecisionsArePermanent(states: seq<State>, es: seq<Event>, i: nat, j: nat, k: Rkey)
    requires PlainRun(states, es) && BookKept(states[0]) && i <= j < |states| && DecisionKey(k) in states[i].records
    ensures DecisionKey(k) in states[j].records && states[j].records[DecisionKey(k)] == states[i].records[DecisionKey(k)]
    decreases j
  {
    hide Next;
    hide Plain;
    if i < j {
      DecisionsArePermanent(states, es, i, j - 1, k);
      BookKeptRun(states, es, j - 1);
      StepOf(states, es, j - 1);
      DecisionStays(states[j - 1], es[j - 1], k);
    }
  }

  // ── A proposal aimed at governance's own records ───────────────────

  /** The change replaces the proposal `p` under `q` by something it could not evolve to. */
  predicate Displaces(op: Op, q: Rkey, p: Proposal) {
    op.key == ProposalKey(q) && !(op.Put? && op.record.ProposalRecord? && Evolves(p, op.record.proposal))
  }

  /** The change replaces the decision that `p` cites by something that does not attest its outcome. */
  predicate Strips(op: Op, q: Rkey, p: Proposal) {
    && p.evidence && AttestedOutcome(p).Some? && p.decision.Some? && op.key == DecisionKey(p.decision.value.rkey)
    && !(op.Put? && Attests(map[op.key := Entry(op.record, op.cid)], q, p.decision.value, AttestedOutcome(p).value))
  }

  /** The change is the one this proposal asks for, on a reserved record. */
  predicate AskedBy(op: Op, p: Proposal) {
    && op.key == p.target
    && match p.action
       case Write => op.Put? && Some(op.record) == p.proposed
       case Delete => op.Remove?
  }

  /** Creation refuses no target: any record may be proposed for governance's own collections. */
  lemma ReservedTargetsAccepted(s: State, target: Key, proposed: Record)
    requires Reserved(target.collection)
    ensures MayCreate(s, target, Write, Some(proposed)) <==> VotingModel(SettingsOf(s.records))
    ensures MayCreate(s, target, Delete, None) <==> VotingModel(SettingsOf(s.records))
  {
  }

  /** The commit puts `r` and carries the change `p` asks for exactly when it closes `r` as approved and there is such a change. */
  ghost predicate CarriesChange(records: Records, c: Commit, r: Rkey, p: Proposal) {
    && (c.change.Some? ==> AskedBy(c.change.value, p))
    && PutBy(c, r).Some?
    && (c.change.Some? <==>
          && PutBy(c, r).value.status == Decided(Approved)
          && (if p.action == Write then p.proposed.Some? else p.target in records))
  }

  lemma ReservedChangeOp(records: Records, p: Proposal, cid: Cid)
    requires Reserved(p.target.collection)
    ensures !Unapplicable(records, p)
    ensures var op := ChangeOp(records, p, cid);
      && (op.Some? ==> AskedBy(op.value, p))
      && (op.Some? <==> if p.action == Write then p.proposed.Some? else p.target in records)
  {
  }

  lemma CastCarries(s: State, r: Rkey, p: Proposal, voter: Did, side: Side, rows: seq<DelegationRow>, repos: Repos, lost: set<Did>)
    requires Lookup(s.records, r) == Some(p) && (p.status == Open || p.status == Override) && Reserved(p.target.collection)
    ensures CarriesChange(s.records, CastPlan(s, r, p, voter, side, rows, repos, lost).commit.value, r, p)
  {
    hide NewNames;
    hide TallyOf;
    hide VoteRows;
    hide Lineage;
    hide ChangeOp;
    hide Unapplicable;
    hide WindowEnd;
    hide Ruling;
    hide DecisionFor;
    hide AskedBy;
    var names := NewNames(p, voter, rows, repos);
    ReservedChangeOp(s.records, p, s.next + |names| + 2);
  }

  lemma ApplyCarries(s: State, r: Rkey, electorate: nat)
    requires ApplyPlan(s, r, electorate).commit.Some? && Reserved(Lookup(s.records, r).value.target.collection)
    ensures CarriesChange(s.records, ApplyPlan(s, r, electorate).commit.value, r, Lookup(s.records, r).value)
  {
    hide Objectors;
    hide Lineage;
    hide ChangeOp;
    hide Unapplicable;
    hide AskedBy;
    ReservedChangeOp(s.records, Lookup(s.records, r).value, s.next + 1);
  }

  /** A step carries a change to a reserved record exactly when it closes as approved a proposal that asks for one. */
  lemma ChangeOfStep(s: State, e: Event)
    requires BookKept(s) && IsStep(e) && PlanOf(s, e).commit.Some? && Reserved(Lookup(s.records, e.rkey).value.target.collection)
    ensures CarriesChange(s.records, PlanOf(s, e).commit.value, e.rkey, Lookup(s.records, e.rkey).value)
  {
    hide CastPlan;
    hide ApplyPlan;
    hide Lineage;
    hide Objectors;
    PlanSteps(s, e);
    var p := Lookup(s.records, e.rkey).value;
    match e
    case Vote(r, voter, side, order, repos, lost, _) =>
      if VoteGate(p, s.clock, voter, repos) == Accept { CastCarries(s, r, p, voter, side, DelegationRows(s.records, order), repos, lost); }
    case ApplyDue(r, electorate, _) => ApplyCarries(s, r, electorate);
    case _ =>
  }

  /**
   One step of any proposal, whichever way its change takes effect.  Every stored
   proposal `q` evolves if and only if the change does not displace it.
   */
  lemma ReservedChangeEvolves(s: State, e: Event, q: Rkey)
    requires BookKept(s) && IsStep(e) && Done(s, e).commit.Some? && Lookup(s.records, q).Some?
    ensures var p, after := Lookup(s.records, q).value, Lookup(Next(s, e).records, q);
      after.Some? && Evolves(p, after.value) <==>
      !(Done(s, e).commit.value.change.Some? && Displaces(Done(s, e).commit.value.change.value, q, p))
  {
    hide PlanOf;
    hide Evolves;
    PlanSteps(s, e);
    EvolvesToItself(Lookup(s.records, q).value);
  }

  /** ... and while its own record is not what is changed, it stays evidenced if and only if the change does not strip it of its decision. */
  lemma ReservedChangeEvidence(s: State, e: Event, q: Rkey)
    requires BookKept(s) && Consistent(s) && DraftsUndecided(s) && IsStep(e) && Done(s, e).commit.Some? && Lookup(s.records, q).Some?
    requires Done(s, e).commit.value.change.Some? ==> Done(s, e).commit.value.change.value.key != ProposalKey(q)
    ensures var c, p := Done(s, e).commit.value, Lookup(Next(s, e).records, q);
      && p.Some?
      && (Evidenced(Next(s, e).records, q, p.value) <==> !(c.change.Some? && Strips(c.change.value, q, p.value)))
  {
    hide PlanOf;
    hide Vouches;
    hide Consistent;
    var c := Done(s, e).commit.value;
    PlanFits(s, e);
    PlanVouches(s, e);
    BareIsEvidenced(s, c, q);
    ChangeAfterBare(s, c, q);
  }

  lemma ChangeAfterBare(s: State, c: Commit, q: Rkey)
    requires c.change.Some? ==> c.change.value.key != ProposalKey(q)
    requires var bare := ApplyCommit(s.records, Bare(c)); Lookup(bare, q).Some? && Evidenced(bare, q, Lookup(bare, q).value)
    ensures var after := ApplyCommit(s.records, c);
      && Lookup(after, q) == Lookup(ApplyCommit(s.records, Bare(c)), q)
      && (Evidenced(after, q, Lookup(after, q).value) <==> !(c.change.Some? && Strips(c.change.value, q, Lookup(after, q).value)))
  {
  }

  /** A record written over a proposal is itself evidenced if and only if the decisions stored without it attest what it claims. */
  lemma ForgedIsEvidenced(s: State, c: Commit, q: Rkey, forged: Proposal, cid: Cid)
    requires c.change == Some(Put(ProposalKey(q), ProposalRecord(forged), cid))
    ensures var after := ApplyCommit(s.records, c);
      && Lookup(after, q) == Some(forged)
      && (Evidenced(after, q, forged) <==> Evidenced(ApplyCommit(s.records, Bare(c)), q, forged))
  {
    var bare, after := ApplyCommit(s.records, Bare(c)), ApplyCommit(s.records, c);
    assert forall k :: LookupDecision(after, k) == LookupDecision(bare, k);
  }

  /** Everything up to point `n` of the run left governance's own records to governance. */
  ghost predicate PlainUntil(states: seq<State>, es: seq<Event>, n: nat) {
    IsRun(states, es) && n <= |es| && PlainRun(states[..n + 1], es[..n])
  }

  /**
   In every run, up to and with the first change to one of governance's own records:
   each stored proposal evolves at that step if and only if the change does not displace
   it, and, unless its own record is what is changed, it stays evidenced if and only if
   the change does not strip it of its decision.
   */
  lemma FirstReservedChange(states: seq<State>, es: seq<Event>, n: nat, q: Rkey)
    requires PlainUntil(states, es, n) && Initial(states[0]) && n < |es| && IsStep(es[n]) && Done(states[n], es[n]).commit.Some?
    requires Lookup(states[n].records, q).Some?
    ensures var c, p, after := Done(states[n], es[n]).commit.value, Lookup(states[n].records, q).value, Lookup(states[n + 1].records, q);
      && (after.Some? && Evolves(p, after.value) <==> !(c.change.Some? && Displaces(c.change.value, q, p)))
      && (!(c.change.Some? && c.change.value.key == ProposalKey(q)) ==>
            after.Some? && (Evidenced(states[n + 1].records, q, after.value) <==>
                              !(c.change.Some? && Strips(c.change.value, q, after.value))))
  {
    hide Next;
    hide Plain;
    hide Evolves;
    hide Evidenced;
    hide BookKept;
    hide Consistent;
    hide DraftsUndecided;
    InitialIsConsistent(states[0]);
    BookKeptRun(states[..n + 1], es[..n], n);
    CrashConsistency(states[..n + 1], es[..n], n);
    var s, e := states[n], es[n];
    assert states[n + 1] == Next(s, e);
    ReservedChangeEvolves(s, e, q);
    if !(Done(s, e).commit.value.change.Some? && Done(s, e).commit.value.change.value.key == ProposalKey(q)) {
      ReservedChangeEvidence(s, e, q);
    }
  }

  /** A due proposal to write an open proposal over a closed one opens that one again. */
  lemma WrittenOverReopens(s: State, r: Rkey, q: Rkey, forged: Proposal, electorate: nat)
    requires BookKept(s) && Lookup(s.records, r).Some? && Lookup(s.records, q).Some? && q != r
    requires var p := Lookup(s.records, r).value;
      && IsDue(p, s.clock) && p.action == Write && p.target == ProposalKey(q) && p.proposed == Some(ProposalRecord(forged))
      && |Objectors(s.objections, r, p)| < ObjectionThresholdOf(SettingsOf(s.records))
    requires Closed(Lookup(s.records, q).value.status) && forged.status == Open
    ensures Lookup(Next(s, ApplyDue(r, electorate, 1)).records, q) == Some(forged)
    ensures !Evolves(Lookup(s.records, q).value, forged)
  {
    hide Objectors;
    hide Lineage;
  }
}
