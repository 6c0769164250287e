/**
 How long a vote record counts.  A proposal remembers the last 500 states it replaced,
 and a record counts only while the state it cites is remembered.
 */
module LineageLimit {
  import opened Wrappers
  import opened DecisionRules
  import opened VoteTally
  import opened DelegationLoop
  import opened ProposalRecords
  import opened ProposalMachine
  import opened ProposalEvolution
  import opened RecordAgreement

  /** A lineage is of distinct past states, no more than it may hold. */
  ghost predicate Sound(chain: seq<Cid>, next: nat) {
    NoRepeats(chain) && |chain| <= MAX_CID_CHAIN && forall c | c in chain :: c < next
  }

  ghost predicate LineageSound(s: State, r: Rkey) {
    Lookup(s.records, r).Some? ==>
      var p, current := Lookup(s.records, r).value, s.records[ProposalKey(r)].cid;
      Sound(p.cidChain, s.next) && current < s.next && current !in p.cidChain
  }

  ghost predicate LineagesSound(s: State) {
    && (forall r :: LineageSound(s, r))
    && (forall pid | pid in s.drafts :: Sound(s.drafts[pid].proposal.cidChain, s.next))
  }

  lemma SoundLonger(chain: seq<Cid>, current: Cid, next: nat)
    requires Sound(chain, next) && current < next
    ensures Sound(Lineage(chain, Some(current)), next)
  {
    LineageOnlyOld(chain, Some(current));
  }

  // ── What a step does to a lineage ─────────────────────────────────

  /** The commit rewrites `r` as a proposal of this lineage, under a new CID the event drew. */
  ghost predicate Extends(s: State, e: Event, c: Commit, r: Rkey, p: Proposal) {
    exists q, cid: nat :: c.proposal == Some(PutProposal(s.records, r, q, cid))
      && q.cidChain == p.cidChain && q.evidence == p.evidence && s.next <= cid < s.next + IdsUsed(e)
  }

  lemma ExtendedBy(s: State, e: Event, c: Commit, r: Rkey, p: Proposal, q: Proposal, cid: Cid)
    requires c.proposal == Some(PutProposal(s.records, r, q, cid)) && q.cidChain == p.cidChain && q.evidence == p.evidence
    requires s.next <= cid < s.next + IdsUsed(e)
    ensures Extends(s, e, c, r, p)
  {
  }

  lemma VoteExtends(s: State, e: Event)
    requires e.Vote? && PlanOf(s, e).commit.Some?
    ensures Lookup(s.records, e.rkey).Some? && Extends(s, e, PlanOf(s, e).commit.value, e.rkey, Lookup(s.records, e.rkey).value)
  {
    hide CastPlan;
    hide PutProposal;
    var p := Lookup(s.records, e.rkey).value;
    var c := PlanOf(s, e).commit.value;
    if VoteGate(p, s.clock, e.voter, e.repos) == Accept {
      var q := CastPut(s, e.rkey, p, e.voter, e.side, DelegationRows(s.records, e.order), e.repos, e.lost);
      NamesAreFew(s, e, p);
      ExtendedBy(s, e, c, e.rkey, p, q, s.next + |NewNames(p, e.voter, DelegationRows(s.records, e.order), e.repos)| + 1);
    } else {
      ExtendedBy(s, e, c, e.rkey, p, p.(status := Expired, resolvedAt := Some(s.clock)), s.next);
    }
  }

  lemma ObjectExtends(s: State, e: Event)
    requires e.Object? && PlanOf(s, e).commit.Some?
    ensures Lookup(s.records, e.rkey).Some? && Extends(s, e, PlanOf(s, e).commit.value, e.rkey, Lookup(s.records, e.rkey).value)
  {
    hide PutProposal;
    hide Objectors;
    var p := Lookup(s.records, e.rkey).value;
    var standing := Objectors(s.objections + {PlanOf(s, e).objection.value}, e.rkey, p);
    ExtendedBy(s, e, PlanOf(s, e).commit.value, e.rkey, p, Held(s, p, standing, e.electorate), s.next + 1);
  }

  lemma ApplyExtends(s: State, e: Event)
    requires e.ApplyDue? && PlanOf(s, e).commit.Some?
    ensures Lookup(s.records, e.rkey).Some? && Extends(s, e, PlanOf(s, e).commit.value, e.rkey, Lookup(s.records, e.rkey).value)
  {
    hide PutProposal;
    hide Objectors;
    hide Unapplicable;
    hide ChangeOp;
    var p := Lookup(s.records, e.rkey).value;
    var c := PlanOf(s, e).commit.value;
    var standing := Objectors(s.objections, e.rkey, p);
    if |standing| >= ObjectionThresholdOf(SettingsOf(s.records)) {
      ExtendedBy(s, e, c, e.rkey, p, Held(s, p, standing, e.electorate), s.next);
    } else if Unapplicable(s.records, p) {
      ExtendedBy(s, e, c, e.rkey, p, p.(status := Decided(Approved)), s.next);
    } else {
      ExtendedBy(s, e, c, e.rkey, p, p.(status := Decided(Approved), appliedAt := Some(s.clock)), s.next);
    }
  }

  lemma CloseExtends(s: State, e: Event)
    requires e.CloseOverride? && PlanOf(s, e).commit.Some?
    ensures Lookup(s.records, e.rkey).Some? && Extends(s, e, PlanOf(s, e).commit.value, e.rkey, Lookup(s.records, e.rkey).value)
  {
    hide PutProposal;
    var p := Lookup(s.records, e.rkey).value;
    ExtendedBy(s, e, PlanOf(s, e).commit.value, e.rkey, p,
      p.(status := Decided(Rejected), resolvedAt := Some(s.clock), roundOutcome := Some(Lapsed)), s.next);
  }

  lemma StepExtends(s: State, e: Event)
    requires IsStep(e) && PlanOf(s, e).commit.Some?
    ensures Lookup(s.records, e.rkey).Some? && Extends(s, e, PlanOf(s, e).commit.value, e.rkey, Lookup(s.records, e.rkey).value)
  {
    hide PlanOf;
    hide Extends;
    match e
    case Vote(_, _, _, _, _, _, _) => VoteExtends(s, e);
    case Object(_, _, _, _, _) => ObjectExtends(s, e);
    case ApplyDue(_, _, _) => ApplyExtends(s, e);
    case CloseOverride(_, _) => CloseExtends(s, e);
  }

  /** `r` is stored as before, or as the next state of its lineage. */
  ghost predicate SameOrNext(s: State, t: State, r: Rkey) {
    && Lookup(s.records, r).Some? && Lookup(t.records, r).Some?
    && var (p, q) := (Lookup(s.records, r).value, Lookup(t.records, r).value);
       var (before, after) := (s.records[ProposalKey(r)].cid, t.records[ProposalKey(r)].cid);
       q.evidence == p.evidence
       && (if after == before then q.cidChain == p.cidChain
           else s.next <= after < t.next && q.cidChain == if p.evidence then Lineage(p.cidChain, Some(before)) else p.cidChain)
  }

  lemma ProperCommitEntry(s: State, c: Commit, r: Rkey)
    requires Proper(s, c)
    ensures PutBy(c, r).None? && Lookup(s.records, r).Some? ==>
      ProposalKey(r) in ApplyCommit(s.records, c) && ApplyCommit(s.records, c)[ProposalKey(r)] == s.records[ProposalKey(r)]
    ensures PutBy(c, r).Some? ==>
      ProposalKey(r) in ApplyCommit(s.records, c)
      && ApplyCommit(s.records, c)[ProposalKey(r)] == Entry(ProposalRecord(PutBy(c, r).value), c.proposal.value.cid)
  {
  }

  lemma ExtendsEntry(s: State, e: Event, c: Commit, r: Rkey, p: Proposal)
    requires Extends(s, e, c, r, p) && ProposalKey(r) in s.records
    ensures PutBy(c, r).Some? && s.next <= c.proposal.value.cid < s.next + IdsUsed(e)
    ensures PutBy(c, r).value.evidence == p.evidence
    ensures PutBy(c, r).value.cidChain == if p.evidence then Lineage(p.cidChain, Some(s.records[ProposalKey(r)].cid)) else p.cidChain
  {
  }

  lemma NextEntry(s: State, e: Event, r: Rkey)
    requires BookKept(s) && Plain(s, e) && Lookup(s.records, r).Some?
    ensures var c := Done(s, e).commit;
      && ProposalKey(r) in Next(s, e).records
      && Next(s, e).records[ProposalKey(r)] ==
           if c.Some? && PutBy(c.value, r).Some? then Entry(ProposalRecord(PutBy(c.value, r).value), c.value.proposal.value.cid)
           else s.records[ProposalKey(r)]
  {
    hide PlanOf;
    hide Prefix;
    hide Proper;
    DoneIsProper(s, e);
    if Done(s, e).commit.Some? { ProperCommitEntry(s, Done(s, e).commit.value, r); }
  }

  /** Every event but an amendment's write keeps a proposal's lineage or extends it by one state. */
  lemma StepKeepsLineage(s: State, e: Event, r: Rkey)
    requires BookKept(s) && Plain(s, e) && Lookup(s.records, r).Some? && LineageSound(s, r) && !Amends(s, e, r)
    ensures SameOrNext(s, Next(s, e), r)
  {
    hide PlanOf;
    hide BookKept;
    hide Extends;
    hide Lineage;
    NextEntry(s, e, r);
    DoneIsProper(s, e);
    var c := Done(s, e).commit;
    if c.Some? && PutBy(c.value, r).Some? {
      PutIsStep(s, e, r);
      StepExtends(s, e);
      ExtendsEntry(s, e, c.value, r, Lookup(s.records, r).value);
    }
  }

  lemma PutIsStep(s: State, e: Event, r: Rkey)
    requires BookKept(s) && Lookup(s.records, r).Some? && !Amends(s, e, r)
    requires PlanOf(s, e).commit.Some? && PutBy(PlanOf(s, e).commit.value, r).Some?
    ensures IsStep(e) && e.rkey == r
  {
    hide PlanOf;
    if e.AmendWrite? {
      if e.pid !in s.drafts { NoDraftNothing(s, e); }
      assert DraftKept(s, s.drafts[e.pid]);
      AmendPutsOnly(s, e.pid, r);
    } else {
      PlannedEvolution(s, e, r);
    }
  }

  lemma NextLineageSound(s: State, t: State, r: Rkey)
    requires LineageSound(s, r) && SameOrNext(s, t, r) && t.next >= s.next
    ensures LineageSound(t, r)
  {
    hide Lineage;
    var p, current := Lookup(s.records, r).value, s.records[ProposalKey(r)].cid;
    SoundLonger(p.cidChain, current, s.next);
    LineageOnlyOld(p.cidChain, Some(current));
  }

  // ── Counting rewrites ─────────────────────────────────────────────

  /** The event gave `r` a new state. */
  function Rewritten(s: State, t: State, r: Rkey): nat {
    if ProposalKey(r) in s.records && ProposalKey(r) in t.records && s.records[ProposalKey(r)].cid == t.records[ProposalKey(r)].cid
    then 0 else 1
  }

  function RewritesOf(states: seq<State>, i: nat, j: nat, r: Rkey): nat
    requires i <= j < |states|
    decreases j
  {
    if i == j then 0 else RewritesOf(states, i, j - 1, r) + Rewritten(states[j - 1], states[j], r)
  }

  /** Where `c` is in the lineage when `n` states have followed it. */
  ghost predicate Placed(p: Proposal, current: Cid, c: Cid, n: nat) {
    if n == 0 then c == current
    else if n <= MAX_CID_CHAIN then c != current && n <= |p.cidChain| && p.cidChain[|p.cidChain| - n] == c
    else c != current && c !in p.cidChain
  }

  lemma PlacedIsKnown(p: Proposal, current: Cid, c: Cid, n: nat)
    requires Placed(p, current, c, n)
    ensures c in KnownCids(p, current) <==> n <= MAX_CID_CHAIN
  {
  }

  lemma PlacedNext(p: Proposal, current: Cid, q: Proposal, next: Cid, c: Cid, n: nat)
    requires Placed(p, current, c, n) && NoRepeats(p.cidChain) && |p.cidChain| <= MAX_CID_CHAIN && current !in p.cidChain
    requires next != c && q.cidChain == Lineage(p.cidChain, Some(current))
    ensures Placed(q, next, c, n + 1)
  {
    var grown := p.cidChain + [current];
    assert q.cidChain == if |grown| <= MAX_CID_CHAIN then grown else grown[1..];
    if n == MAX_CID_CHAIN {
      assert p.cidChain[0] == c;
      assert c !in grown[1..];
    }
  }

  /** While no draft is written over `r`, the state it had at `i` moves back one place with every rewrite. */
  lemma {:induction false} PlacedRun(states: seq<State>, es: seq<Event>, i: nat, j: nat, r: Rkey)
    requires PlainRun(states, es) && BookKept(states[0]) && i <= j < |states| && Unamended(states, es, i, j, r)
    requires Lookup(states[i].records, r).Some? && Lookup(states[i].records, r).value.evidence && LineageSound(states[i], r)
    ensures Lookup(states[j].records, r).Some? && Lookup(states[j].records, r).value.evidence && LineageSound(states[j], r)
    ensures states[i].next <= states[j].next
    ensures Placed(Lookup(states[j].records, r).value, states[j].records[ProposalKey(r)].cid,
                   states[i].records[ProposalKey(r)].cid, RewritesOf(states, i, j, r))
    decreases j
  {
    hide Next;
    hide Plain;
    hide BookKept;
    hide Amends;
    hide Lineage;
    hide Placed;
    if i < j {
      PlacedRun(states, es, i, j - 1, r);
      BookKeptRun(states, es, j - 1);
      StepOf(states, es, j - 1);
      var s, t, e := states[j - 1], states[j], es[j - 1];
      assert !Amends(s, e, r);
      StepKeepsLineage(s, e, r);
      NextGrows(s, e);
      NextLineageSound(s, t, r);
      PlacedStep(s, t, r, states[i].records[ProposalKey(r)].cid, RewritesOf(states, i, j - 1, r));
    } else {
      PlacedFirst(Lookup(states[i].records, r).value, states[i].records[ProposalKey(r)].cid);
    }
  }

  lemma PlacedFirst(p: Proposal, current: Cid)
    ensures Placed(p, current, current, 0)
  {
  }

  lemma NextGrows(s: State, e: Event)
    ensures s.next <= Next(s, e).next
  {
  }

  lemma PlacedStep(s: State, t: State, r: Rkey, c: Cid, n: nat)
    requires LineageSound(s, r) && SameOrNext(s, t, r) && Lookup(s.records, r).value.evidence && c < s.next
    requires Placed(Lookup(s.records, r).value, s.records[ProposalKey(r)].cid, c, n)
    ensures Placed(Lookup(t.records, r).value, t.records[ProposalKey(r)].cid, c, n + Rewritten(s, t, r))
  {
    hide Lineage;
    if Rewritten(s, t, r) == 1 {
      PlacedNext(Lookup(s.records, r).value, s.records[ProposalKey(r)].cid, Lookup(t.records, r).value, t.records[ProposalKey(r)].cid, c, n);
    }
  }

  /**
   A vote record cites the state its proposal had when it was cast.  Later, unless the
   proposal was amended or its tally started over, the record counts if and only if no
   more than 500 rewrites have followed that state.
   */
  lemma RecordCountsWhileRemembered(states: seq<State>, es: seq<Event>, i: nat, j: nat, r: Rkey, v: VoteRow)
    requires PlainRun(states, es) && BookKept(states[0]) && i <= j < |states| && Unamended(states, es, i, j, r)
    requires LineagesSound(states[0]) && Lookup(states[i].records, r).Some? && Lookup(states[i].records, r).value.evidence
    requires v.cites == Some(states[i].records[ProposalKey(r)].cid) && v.citesProposal && v.side.Some?
    ensures Lookup(states[j].records, r).Some?
    ensures var p, current := Lookup(states[j].records, r).value, states[j].records[ProposalKey(r)].cid;
      !Before(v.createdAt, TallyEpoch(p)) ==>
        (IsCountable(v, KnownCids(p, current), Some(TallyEpoch(p))) <==> RewritesOf(states, i, j, r) <= MAX_CID_CHAIN)
  {
    hide Next;
    hide Plain;
    hide BookKept;
    hide Amends;
    hide KnownCids;
    hide RewritesOf;
    LineagesStaySound(states, es, i);
    assert LineageSound(states[i], r);
    PlacedRun(states, es, i, j, r);
    PlacedIsKnown(Lookup(states[j].records, r).value, states[j].records[ProposalKey(r)].cid,
      states[i].records[ProposalKey(r)].cid, RewritesOf(states, i, j, r));
  }

  // ── Every run has sound lineages ──────────────────────────────────

  lemma NewLineageSound(s: State, e: Event, r: Rkey)
    requires BookKept(s) && Plain(s, e) && Lookup(s.records, r).None?
    ensures LineageSound(Next(s, e), r)
  {
    hide PlanOf;
    hide Next;
    hide Lineage;
    NextLookup(s, e, r);
    if Lookup(Next(s, e).records, r).Some? {
      PutWhereNone(s, e, r);
      CreatedLineage(s, e);
    }
  }

  lemma PutWhereNone(s: State, e: Event, r: Rkey)
    requires BookKept(s) && Lookup(s.records, r).None? && PlanOf(s, e).commit.Some? && PutBy(PlanOf(s, e).commit.value, r).Some?
    ensures e.Create? && r == s.next
  {
    hide Lineage;
    hide VotePlan;
    hide ObjectPlan;
    hide ApplyPlan;
    hide ClosePlan;
    if IsStep(e) { PlanSteps(s, e); }
  }

  lemma CreatedLineage(s: State, e: Event)
    requires e.Create? && BookKept(s) && Plain(s, e) && Done(s, e).commit.Some?
    ensures LineageSound(Next(s, e), s.next)
  {
  }

  lemma AmendedLineageSound(s: State, e: Event, r: Rkey)
    requires BookKept(s) && Lookup(s.records, r).Some? && LineagesSound(s) && Amends(s, e, r)
    ensures LineageSound(Next(s, e), r)
  {
    hide Lineage;
    hide PlanOf;
    hide BookKept;
    hide Next;
    var q := s.drafts[e.pid].proposal;
    AmendPlanned(s, e.pid);
    PutIsStored(s, e, r, q, s.next);
    assert LineageSound(s, r);
    SoundLonger(q.cidChain, s.records[ProposalKey(r)].cid, s.next);
    NextGrows(s, e);
    IdsGrow(s, e);
  }

  lemma IdsGrow(s: State, e: Event)
    ensures Next(s, e).next > s.next
  {
  }

  lemma LineageStays(s: State, e: Event, r: Rkey)
    requires BookKept(s) && Plain(s, e) && LineagesSound(s)
    ensures LineageSound(Next(s, e), r)
  {
    hide PlanOf;
    hide BookKept;
    hide Lineage;
    hide Next;
    hide Amends;
    NextGrows(s, e);
    assert LineageSound(s, r);
    if Lookup(s.records, r).None? {
      NewLineageSound(s, e, r);
    } else if Amends(s, e, r) {
      AmendedLineageSound(s, e, r);
    } else {
      StepKeepsLineage(s, e, r);
      NextLineageSound(s, Next(s, e), r);
    }
  }

  lemma DraftsStaySound(s: State, e: Event, pid: Pid)
    requires LineagesSound(s) && pid in Next(s, e).drafts
    ensures Sound(Next(s, e).drafts[pid].proposal.cidChain, Next(s, e).next)
  {
    hide PlanOf;
    NextGrows(s, e);
    if e.AmendRead? { assert LineageSound(s, e.rkey); }
  }

  /** At every point of every run without reserved targets, lineages are of distinct past states. */
  lemma {:induction false} LineagesStaySound(states: seq<State>, es: seq<Event>, n: nat)
    requires PlainRun(states, es) && BookKept(states[0]) && LineagesSound(states[0]) && n < |states|
    ensures LineagesSound(states[n])
    decreases n
  {
    hide Next;
    hide Plain;
    hide BookKept;
    hide LineageSound;
    hide Sound;
    if n > 0 {
      LineagesStaySound(states, es, n - 1);
      BookKeptRun(states, es, n - 1);
      StepOf(states, es, n - 1);
      var s, e := states[n - 1], es[n - 1];
      forall r ensures LineageSound(Next(s, e), r) { LineageStays(s, e, r); }
      forall pid | pid in Next(s, e).drafts ensures Sound(Next(s, e).drafts[pid].proposal.cidChain, Next(s, e).next) {
        DraftsStaySound(s, e, pid);
      }
    }
  }
}
