/**
 What the lazy and the eager machine make of one and the same request.  A request
 whose handler sweeps first plans and stores the same on both; one whose handler does
 not sweep leaves them alike exactly when the changes still pending make no difference
 to it.
 */
module LazyRequests {
  import opened Wrappers
  import opened DecisionRules
  import opened VoteTally
  import opened DelegationLoop
  import opened ProposalRecords
  import opened ProposalMachine
  import opened ProposalEvolution
  import opened ContestWindows
  import opened EagerWindows

  // ── What a request reads is the same ──────────────────────────────

  /** The records outside its own proposal that a vote or an objection reads or writes. */
  predicate Touches(s: State, e: Event, k: Key) {
    match e
    case Vote(r, voter, _, _, repos, _, _) =>
      && Lookup(s.records, r).Some? && VoteGate(Lookup(s.records, r).value, s.clock, voter, repos) == Accept
      && (k == SETTINGS_KEY || k.collection == Delegations || k == Lookup(s.records, r).value.target)
    case Object(_, _, _, _, _) => k == SETTINGS_KEY
    case _ => false
  }

  function SettingsIn(content: Option<Record>): Option<Settings> {
    if content.Some? && content.value.SettingsRecord? then Some(content.value.settings) else None
  }

  /** The settings once every window that has ended is closed. */
  ghost function PendingSettings(s: State): Option<Settings> { SettingsIn(Future(s, SETTINGS_KEY)) }

  function OpenUntil(now: Time, settings: Option<Settings>): Time { After(now, TtlDays(settings) * DAY_MS) }

  /** A creation that only the voting model can still refuse. */
  predicate WouldCreate(e: Event) {
    && e.Create? && e.survived >= 1 && (e.action == Write ==> e.proposed.Some?)
    && (e.target.collection == SettingsRecords && e.action == Write ==> SettingsSound(e.proposed.value))
    && CheckRepo(e.repos, e.proposer) != CheckFailed
  }

  /** The pending settings changes leave the voting model, and how long a proposal is open. */
  ghost predicate CreatesAlike(s: State, e: Event) {
    var (now, later) := (SettingsOf(s.records), PendingSettings(s));
    WouldCreate(e) ==>
      (VotingModel(now) <==> VotingModel(later)) && (VotingModel(now) ==> OpenUntil(s.clock, now) == OpenUntil(s.clock, later))
  }

  /** ... or, for an amendment, only the latter. */
  ghost predicate AmendsAlike(s: State, r: Rkey) {
    Lookup(s.records, r).Some? && Lookup(s.records, r).value.status == Open ==>
      OpenUntil(s.clock, SettingsOf(s.records)) == OpenUntil(s.clock, PendingSettings(s))
  }

  /** Requests that write one record outside proposals and decisions, directly. */
  predicate IsWrite(e: Event) { e.DropDelegation? || e.PutDelegation? || e.OtherWrite? }

  function OwnKey(s: State, e: Event): Key
    requires IsWrite(e)
  {
    match e
    case DropDelegation(_, k) => Key(Delegations, k)
    case PutDelegation(_, _) => Key(Delegations, s.next)
    case OtherWrite(op) => op.key
  }

  /** What such a request makes of that record. */
  function Own(e: Event, content: Option<Record>): Option<Record>
    requires IsWrite(e)
  {
    match e
    case DropDelegation(delegator, _) =>
      if content.Some? && content.value.DelegationRecord? && content.value.delegator == Some(delegator) then None else content
    case PutDelegation(delegator, delegate) =>
      if delegator == delegate then content else Some(DelegationRecord(Some(delegator), delegate))
    case OtherWrite(op) =>
      if Reserved(op.key.collection) then content else if op.Put? then Some(op.record) else None
  }

  /** The write and the pending changes to its record give the same in either order. */
  ghost predicate Commutes(s: State, e: Event)
    requires IsWrite(e)
  {
    var k := OwnKey(s, e);
    !Reserved(k.collection) ==> Fold(s.records, DueFor(s, k), Own(e, Content(s.records, k))) == Own(e, Future(s, k))
  }

  /**
   A vote or objection comes after the sweeps that it needs; a sweep comes in turn;
   and to a request that never sweeps the pending changes make no difference.
   */
  ghost predicate Prompt(s: State, e: Event) {
    match e
    case ApplyDue(r, _, n) => Lookup(s.records, r).Some? && n >= 1 ==> InTurn(s, r, Lookup(s.records, r).value)
    case Vote(_, _, _, _, _, _, _) => forall k {:trigger DueFor(s, k)} | Touches(s, e, k) :: DueFor(s, k) == {}
    case Object(_, _, _, _, _) => forall k {:trigger DueFor(s, k)} | Touches(s, e, k) :: DueFor(s, k) == {}
    case Create(_, _, _, _, _, _, _) => CreatesAlike(s, e)
    case AmendRead(_, r, _, _) => AmendsAlike(s, r)
    case _ => IsWrite(e) ==> Commutes(s, e)
  }

  ghost predicate SameGround(s: State, t: State) {
    && s.votes == t.votes && s.objections == t.objections && s.clock == t.clock && s.next == t.next && s.drafts == t.drafts
    && SettingsOf(s.records) == SettingsOf(t.records)
    && (forall k: Key | k.collection == Decisions :: EntryAt(s.records, k) == EntryAt(t.records, k))
  }

  ghost predicate SameDelegations(a: Records, b: Records) {
    forall k: Key | k.collection == Delegations :: Content(a, k) == Content(b, k)
  }

  lemma NothingDue(s: State, k: Key)
    requires DueFor(s, k) == {}
    ensures Future(s, k) == Content(s.records, k)
  {
  }

  /** Where nothing is due, the two machines hold the same record. */
  lemma SameContent(s: State, t: State, k: Key)
    requires Alike(s, t) && EndedOn(t) == {} && DueFor(s, k) == {} && !Reserved(k.collection)
    ensures Content(s.records, k) == Content(t.records, k)
  {
    hide Future;
    NothingDue(s, k);
    NothingDue(t, k);
  }

  lemma GroundIsSame(s: State, t: State)
    requires Alike(s, t) && EndedOn(t) == {} && DueFor(s, SETTINGS_KEY) == {}
    ensures SameGround(s, t)
  {
    hide Future;
    hide ViewOf;
    SameContent(s, t, SETTINGS_KEY);
  }

  lemma DelegationsAreSame(s: State, t: State)
    requires Alike(s, t) && EndedOn(t) == {} && forall k: Key | k.collection == Delegations :: DueFor(s, k) == {}
    ensures SameDelegations(s.records, t.records)
  {
    hide Future;
    hide ViewOf;
    forall k: Key | k.collection == Delegations ensures Content(s.records, k) == Content(t.records, k) { SameContent(s, t, k); }
  }

  lemma SameStored(s: State, t: State, k: Key)
    requires Alike(s, t) && EndedOn(t) == {} && DueFor(s, k) == {}
    ensures k in s.records <==> k in t.records
  {
    hide Future;
    hide ViewOf;
    if !Reserved(k.collection) {
      SameContent(s, t, k);
    } else if k.collection == Decisions {
      assert EntryAt(s.records, k) == EntryAt(t.records, k);
    } else {
      assert k == ProposalKey(k.rkey);
    }
  }

  lemma DecisionsSame(a: Records, b: Records, r: Rkey, outcome: Outcome, cited: set<Cid>)
    requires forall k: Key | k.collection == Decisions :: EntryAt(a, k) == EntryAt(b, k)
    ensures DecisionsOn(a, r) == DecisionsOn(b, r) && Reusable(a, r, outcome, cited) == Reusable(b, r, outcome, cited)
    ensures var k := Reusable(a, r, outcome, cited);
      k.Some? ==> DecisionKey(k.value) in a && DecisionKey(k.value) in b && a[DecisionKey(k.value)].cid == b[DecisionKey(k.value)].cid
  {
    forall k: Key | k.collection == Decisions ensures k in a <==> k in b { assert EntryAt(a, k) == EntryAt(b, k); }
    forall k: Key | k.collection == Decisions && k in a ensures a[k] == b[k] { assert EntryAt(a, k) == EntryAt(b, k); }
    assert DecisionsOn(a, r) == DecisionsOn(b, r);
  }

  lemma ChangeSame(a: Records, b: Records, p: Proposal, cid: Cid)
    requires SettingsOf(a) == SettingsOf(b) && (p.target in a <==> p.target in b)
    ensures ChangeOp(a, p, cid) == ChangeOp(b, p, cid) && (Unapplicable(a, p) <==> Unapplicable(b, p))
  {
  }

  lemma PutSame(a: Records, b: Records, r: Rkey, q: Proposal, cid: Cid)
    requires EntryAt(a, ProposalKey(r)) == EntryAt(b, ProposalKey(r))
    ensures PutProposal(a, r, q, cid) == PutProposal(b, r, q, cid)
  {
    hide Lineage;
  }

  lemma {:induction false} RowsSame(a: Records, b: Records, order: seq<Rkey>)
    requires SameDelegations(a, b)
    ensures var x, y := DelegationRows(a, order), DelegationRows(b, order);
      |x| == |y| && forall i | 0 <= i < |x| :: x[i].delegator == y[i].delegator
    decreases |order|
  {
    if order != [] {
      RowsSame(a, b, order[1..]);
      assert Content(a, Key(Delegations, order[0])) == Content(b, Key(Delegations, order[0]));
    }
  }

  lemma {:induction false} AddedReadsDelegators(x: seq<DelegationRow>, y: seq<DelegationRow>, already: set<Did>, evidence: bool, repos: Repos)
    requires |x| == |y| && forall i | 0 <= i < |x| :: x[i].delegator == y[i].delegator
    ensures Added(x, already, evidence, repos) == Added(y, already, evidence, repos)
    decreases |x|
  {
    if x != [] {
      var d := x[0].delegator;
      AddedReadsDelegators(x[1..], y[1..], if d.None? then already else already + {d.value}, evidence, repos);
      AddedReadsDelegators(x[1..], y[1..], already, evidence, repos);
    }
  }

  lemma NamesSame(a: Records, b: Records, p: Proposal, voter: Did, order: seq<Rkey>, repos: Repos)
    requires SameDelegations(a, b)
    ensures NewNames(p, voter, DelegationRows(a, order), repos) == NewNames(p, voter, DelegationRows(b, order), repos)
    ensures ListsDelegations(a, order, voter) <==> ListsDelegations(b, order, voter)
  {
    RowsSame(a, b, order);
    AddedReadsDelegators(DelegationRows(a, order), DelegationRows(b, order),
      (set d | d in p.votesFor) + (set d | d in p.votesAgainst) + {voter}, p.evidence, repos);
    forall k: Key | k.collection == Delegations ensures Delegates(a, k, voter) <==> Delegates(b, k, voter) {
      assert Content(a, k) == Content(b, k);
    }
    assert forall k: Key :: Delegates(a, k, voter) ==> k in a;
    assert forall k: Key :: Delegates(b, k, voter) ==> k in b;
  }

  lemma ResolutionSame(s: State, t: State, r: Rkey, p: Proposal, counted: Proposal, tally: map<Did, VoteRow>, outcome: Outcome, id: nat)
    requires SameGround(s, t) && EntryAt(s.records, ProposalKey(r)) == EntryAt(t.records, ProposalKey(r))
    requires p.target in s.records <==> p.target in t.records
    ensures ResolutionCommit(s, r, p, counted, tally, outcome, id) == ResolutionCommit(t, r, p, counted, tally, outcome, id)
  {
    hide Lineage;
    hide Latest;
    hide Reusable;
    hide DecisionsOn;
    hide ChangeOp;
    hide Unapplicable;
    hide WindowEnd;
    hide PutProposal;
    DecisionsSame(s.records, t.records, r, outcome, Cited(tally));
    ChangeSame(s.records, t.records, p, id + 2);
    var ref := DecisionFor(s, r, p, counted, tally, outcome, id).0;
    assert DecisionFor(s, r, p, counted, tally, outcome, id) == DecisionFor(t, r, p, counted, tally, outcome, id);
    PutSame(s.records, t.records, r, Resolved(s, p, counted, outcome, ref), id + 1);
  }

  lemma CastSame(s: State, t: State, e: Event, p: Proposal)
    requires e.Vote? && SameGround(s, t) && SameDelegations(s.records, t.records) && Lookup(s.records, e.rkey) == Some(p)
    requires EntryAt(s.records, ProposalKey(e.rkey)) == EntryAt(t.records, ProposalKey(e.rkey))
    requires p.target in s.records <==> p.target in t.records
    ensures ProposalKey(e.rkey) in t.records
    ensures CastPlan(s, e.rkey, p, e.voter, e.side, DelegationRows(s.records, e.order), e.repos, e.lost)
      == CastPlan(t, e.rkey, p, e.voter, e.side, DelegationRows(t.records, e.order), e.repos, e.lost)
  {
    hide NewNames;
    hide DelegationRows;
    hide TallyOf;
    hide Ruling;
    hide VoteRows;
    hide PutProposal;
    hide ResolutionCommit;
    var r := e.rkey;
    NamesSame(s.records, t.records, p, e.voter, e.order, e.repos);
    var names := NewNames(p, e.voter, DelegationRows(s.records, e.order), e.repos);
    var counted := WithVotes(p, e.side, names);
    var current := s.records[ProposalKey(r)].cid;
    var tally := TallyOf(s.votes + AsSet(VoteRows(names, e.side, r, current, s.clock, s.next, e.lost + e.repos.missing)), r, counted, current);
    var ruling := Ruling(p, counted, tally, SettingsOf(s.records));
    var id := s.next + |names|;
    if ruling.Some? {
      ResolutionSame(s, t, r, p, counted, tally, ruling.value, id);
    } else {
      PutSame(s.records, t.records, r, counted, id + 1);
    }
  }

  /** What has ended takes no request. */
  lemma EndedRefuses(s: State, e: Event, r: Rkey)
    requires !ViewOf(s, r).Live?
    ensures e.Vote? && e.rkey == r ==> PlanOf(s, e) == NOTHING
    ensures e.Object? && e.rkey == r ==> PlanOf(s, e) == NOTHING
    ensures e.AmendRead? && e.rkey == r ==> AmendDraft(s, r, e.editor, e.amended) == None
  {
    hide CastPlan;
    hide Lineage;
    hide Objectors;
  }

  lemma LiveIsSame(s: State, t: State, r: Rkey)
    requires ViewOf(s, r) == ViewOf(t, r) && ViewOf(s, r).Live?
    ensures Lookup(s.records, r).Some? && Lookup(s.records, r) == Lookup(t.records, r)
    ensures EntryAt(s.records, ProposalKey(r)) == EntryAt(t.records, ProposalKey(r)) && EntryAt(s.records, ProposalKey(r)).Some?
  {
  }

  lemma VoteSame(s: State, t: State, e: Event)
    requires e.Vote? && Alike(s, t) && EndedOn(t) == {} && Prompt(s, e)
    ensures PlanOf(s, e) == PlanOf(t, e)
  {
    hide Future;
    hide ViewOf;
    hide CastPlan;
    hide PutProposal;
    hide DelegationRows;
    assert ViewOf(s, e.rkey) == ViewOf(t, e.rkey);
    if !ViewOf(s, e.rkey).Live? {
      EndedRefuses(s, e, e.rkey);
      EndedRefuses(t, e, e.rkey);
    } else {
      LiveIsSame(s, t, e.rkey);
      var p := Lookup(s.records, e.rkey).value;
      PutSame(s.records, t.records, e.rkey, p.(status := Expired, resolvedAt := Some(s.clock)), s.next);
      if VoteGate(p, s.clock, e.voter, e.repos) == Accept {
        assert Touches(s, e, p.target) && Touches(s, e, SETTINGS_KEY);
        GroundIsSame(s, t);
        forall k: Key | k.collection == Delegations ensures DueFor(s, k) == {} { assert Touches(s, e, k); }
        DelegationsAreSame(s, t);
        SameStored(s, t, p.target);
        CastSame(s, t, e, p);
        NamesSame(s.records, t.records, p, e.voter, e.order, e.repos);
      }
    }
  }

  lemma ObjectSame(s: State, t: State, e: Event)
    requires e.Object? && Alike(s, t) && EndedOn(t) == {} && Prompt(s, e)
    ensures PlanOf(s, e) == PlanOf(t, e)
  {
    hide Future;
    hide ViewOf;
    hide PutProposal;
    hide Objectors;
    assert Touches(s, e, SETTINGS_KEY);
    GroundIsSame(s, t);
    assert ViewOf(s, e.rkey) == ViewOf(t, e.rkey);
    if ViewOf(s, e.rkey).Live? {
      LiveIsSame(s, t, e.rkey);
      var id := s.next + 1;
      forall q ensures PutProposal(s.records, e.rkey, q, id) == PutProposal(t.records, e.rkey, q, id) {
        PutSame(s.records, t.records, e.rkey, q, id);
      }
    } else {
      EndedRefuses(s, e, e.rkey);
      EndedRefuses(t, e, e.rkey);
    }
  }

  lemma OpenIsLive(s: State, r: Rkey)
    requires Lookup(s.records, r).Some? && Lookup(s.records, r).value.status == Open
    ensures ViewOf(s, r).Live?
  {
  }

  lemma AmendSame(s: State, t: State, e: Event)
    requires e.AmendWrite? && Alike(s, t) && BookKept(s) && AmendsOpen(s, e)
    ensures PlanOf(s, e) == PlanOf(t, e)
  {
    hide Future;
    hide ViewOf;
    hide PutProposal;
    if e.pid in s.drafts {
      var r := s.drafts[e.pid].rkey;
      assert DraftKept(s, s.drafts[e.pid]);
      OpenIsLive(s, r);
      LiveIsSame(s, t, r);
      PutSame(s.records, t.records, r, s.drafts[e.pid].proposal, s.next);
    }
  }

  /** The requests whose handlers sweep first, and the amendment's write, which reads nothing but its proposal. */
  predicate Sweeping(e: Event) { e.Vote? || e.Object? || e.AmendWrite? }

  /** They plan the same writes on both machines. */
  lemma PlansAreSame(s: State, t: State, e: Event)
    requires Alike(s, t) && EndedOn(t) == {} && BookKept(s) && Orderly(s, e) && Prompt(s, e) && Sweeping(e)
    ensures PlanOf(s, e) == PlanOf(t, e) && Done(s, e) == Done(t, e) && DraftsAfter(s, e) == DraftsAfter(t, e)
  {
    hide Alike;
    hide Prompt;
    hide VotePlan;
    hide ObjectPlan;
    match e
    case Vote(_, _, _, _, _, _, _) => VoteSame(s, t, e); SameDrafts(s, t);
    case Object(_, _, _, _, _) => ObjectSame(s, t, e); SameDrafts(s, t);
    case AmendWrite(_) => AmendSame(s, t, e); SameDrafts(s, t);
  }

  lemma SameDrafts(s: State, t: State)
    requires Alike(s, t)
    ensures s.drafts == t.drafts
  {
  }

  // ── What a request writes lands the same ──────────────────────────

  /** The parts of a commit are about governance's own records, except its change. */
  predicate Shaped(c: Commit) {
    && (c.decision.Some? ==> c.decision.value.Put? && c.decision.value.key.collection == Decisions)
    && (c.proposal.Some? ==>
          && c.proposal.value.Put? && c.proposal.value.key.collection == Proposals && c.proposal.value.record.ProposalRecord?)
    && (c.change.Some? ==> !Reserved(c.change.value.key.collection))
  }

  function PutEntry(c: Commit, r: Rkey): Option<Entry> {
    if PutBy(c, r).Some? then Some(Entry(c.proposal.value.record, c.proposal.value.cid)) else None
  }

  /** The commit rewrites no ended proposal and touches no record an ended window is about. */
  ghost predicate Lands(s: State, c: Commit) {
    && Shaped(c)
    && (forall r | PutBy(c, r).Some? :: r !in EndedOn(s) && (IsDue(PutBy(c, r).value, s.clock) ==> DueFor(s, PutBy(c, r).value.target) == {}))
    && (c.change.Some? ==> DueFor(s, c.change.value.key) == {})
  }

  lemma LandedProposals(s: State, c: Commit, r: Rkey)
    requires Shaped(c)
    ensures EntryAt(ApplyCommit(s.records, c), ProposalKey(r)) ==
      if PutBy(c, r).Some? then PutEntry(c, r) else EntryAt(s.records, ProposalKey(r))
    ensures Lookup(ApplyCommit(s.records, c), r) == if PutBy(c, r).Some? then PutBy(c, r) else Lookup(s.records, r)
  {
  }

  lemma LandedDecisions(s: State, t: State, c: Commit, k: Key)
    requires Shaped(c) && k.collection == Decisions && EntryAt(s.records, k) == EntryAt(t.records, k)
    ensures EntryAt(ApplyCommit(s.records, c), k) == EntryAt(ApplyCommit(t.records, c), k)
  {
  }

  lemma LandedContent(s: State, c: Commit, k: Key)
    requires Shaped(c) && !Reserved(k.collection)
    ensures Content(ApplyCommit(s.records, c), k) == Overwritten(c, k, Content(s.records, k))
  {
  }

  function Overwritten(c: Commit, k: Key, content: Option<Record>): Option<Record> {
    if c.change.None? || c.change.value.key != k then content
    else if c.change.value.Put? then Some(c.change.value.record) else None
  }

  /** The windows about `k` that are ended already when the commit opens them. */
  function OpenedDue(c: Commit, now: Time, k: Key): set<Rkey> {
    if c.proposal.Some? && PutBy(c, c.proposal.value.key.rkey).Some?
       && IsDue(PutBy(c, c.proposal.value.key.rkey).value, now) && PutBy(c, c.proposal.value.key.rkey).value.target == k
    then {c.proposal.value.key.rkey} else {}
  }

  lemma LandedDue(s: State, c: Commit, k: Key)
    requires Lands(s, c)
    ensures DueFor(Commits(s, c), k) == DueFor(s, k) + OpenedDue(c, s.clock, k)
  {
    hide Lands;
    assert Shaped(c) by { LandsIsShaped(s, c); }
    forall r ensures r in DueFor(Commits(s, c), k) <==> r in DueFor(s, k) + OpenedDue(c, s.clock, k) {
      LandedProposals(s, c, r);
      EndedMeans(s, r);
      EndedMeans(Commits(s, c), r);
      if PutBy(c, r).Some? { assert r !in EndedOn(s) by { LandsIsShaped(s, c); } }
    }
  }

  lemma LandsIsShaped(s: State, c: Commit)
    requires Lands(s, c)
    ensures Shaped(c) && forall r | PutBy(c, r).Some? :: r !in EndedOn(s)
  {
  }

  /** What becomes of a record depends on what was to become of it, and on the commit. */
  lemma LandedFuture(s: State, c: Commit, k: Key)
    requires Lands(s, c) && !Reserved(k.collection)
    ensures Future(Commits(s, c), k) == LaterContent(c, s.clock, k, Future(s, k))
  {
    hide Fold;
    hide First;
    hide Changed;
    LandedDue(s, c, k);
    LandedContent(s, c, k);
    var after := Commits(s, c).records;
    if OpenedDue(c, s.clock, k) == {} {
      assert DueFor(s, k) + {} == DueFor(s, k);
      if c.change.Some? && c.change.value.key == k {
        FoldNothing(s.records, Content(s.records, k));
        FoldNothing(after, Content(after, k));
      } else {
        forall r | r in DueFor(s, k) ensures Lookup(s.records, r) == Lookup(after, r) { LandedProposals(s, c, r); }
        FoldSame(s.records, after, DueFor(s, k), Content(s.records, k));
      }
    } else {
      var r := c.proposal.value.key.rkey;
      assert DueFor(s, k) == {};
      assert {} + {r} == {r};
      FoldNothing(s.records, Content(s.records, k));
      LandedProposals(s, c, r);
      FoldOne(after, r, Content(after, k));
    }
  }

  function LaterContent(c: Commit, now: Time, k: Key, content: Option<Record>): Option<Record> {
    if OpenedDue(c, now, k) == {} then Overwritten(c, k, content)
    else Changed(Overwritten(c, k, content), PutBy(c, c.proposal.value.key.rkey))
  }

  lemma FoldNothing(records: Records, content: Option<Record>)
    ensures Fold(records, {}, content) == content
  {
  }

  lemma FoldOne(records: Records, r: Rkey, content: Option<Record>)
    ensures Fold(records, {r}, content) == Changed(content, Lookup(records, r))
  {
    assert {r} - {r} == {};
  }

  lemma LandedView(s: State, t: State, c: Commit, r: Rkey)
    requires Shaped(c) && s.clock == t.clock && ViewOf(s, r) == ViewOf(t, r)
    ensures ViewOf(Commits(s, c), r) == ViewOf(Commits(t, c), r)
  {
    LandedProposals(s, c, r);
    LandedProposals(t, c, r);
  }

  lemma CommitAlike(s: State, t: State, c: Commit)
    requires Alike(s, t) && Lands(s, c) && EndedOn(t) == {}
    ensures Alike(Commits(s, c), Commits(t, c))
  {
    hide Lands;
    hide Shaped;
    hide ViewOf;
    hide Future;
    LandsIsShaped(s, c);
    LandsCaughtUp(t, c);
    forall r ensures ViewOf(Commits(s, c), r) == ViewOf(Commits(t, c), r) { LandedView(s, t, c, r); }
    forall k: Key | k.collection == Decisions ensures EntryAt(Commits(s, c).records, k) == EntryAt(Commits(t, c).records, k) {
      LandedDecisions(s, t, c, k);
    }
    forall r ensures ProposalKey(r) in Commits(s, c).records <==> ProposalKey(r) in Commits(t, c).records {
      LandedStored(s, t, c, r);
    }
    forall k: Key | !Reserved(k.collection) ensures Future(Commits(s, c), k) == Future(Commits(t, c), k) {
      LandedFuture(s, c, k);
      LandedFuture(t, c, k);
    }
  }

  lemma LandedStored(s: State, t: State, c: Commit, r: Rkey)
    requires Shaped(c) && (ProposalKey(r) in s.records <==> ProposalKey(r) in t.records)
    ensures ProposalKey(r) in ApplyCommit(s.records, c) <==> ProposalKey(r) in ApplyCommit(t.records, c)
  {
    LandedProposals(s, c, r);
    LandedProposals(t, c, r);
  }

  lemma LandsCaughtUp(t: State, c: Commit)
    requires Shaped(c) && EndedOn(t) == {}
    ensures Lands(t, c)
  {
  }

  /** The rest of a request's writes: records in members' repositories, keys, drafts. */
  lemma RestAlike(s: State, t: State, s': State, t': State)
    requires Alike(s, t) && s'.records == s.records && t'.records == t.records && s'.clock == s.clock && t'.clock == t.clock
    requires s'.votes == t'.votes && s'.objections == t'.objections && s'.next == t'.next && s'.drafts == t'.drafts
    ensures Alike(s', t')
  {
    hide Future;
    hide ViewOf;
    forall r ensures ViewOf(s', r) == ViewOf(t', r) {
      ViewReads(s, s', r);
      ViewReads(t, t', r);
    }
    forall k: Key | !Reserved(k.collection) ensures Future(s', k) == Future(t', k) {
      FutureReads(s, s', k);
      FutureReads(t, t', k);
    }
  }

  lemma ViewReads(s: State, s': State, r: Rkey)
    requires s'.records == s.records && s'.clock == s.clock
    ensures ViewOf(s', r) == ViewOf(s, r)
  {
  }

  lemma FutureReads(s: State, s': State, k: Key)
    requires s'.records == s.records && s'.clock == s.clock
    ensures Future(s', k) == Future(s, k)
  {
    assert DueFor(s', k) == DueFor(s, k);
  }

  // ── Requests land ─────────────────────────────────────────────────

  lemma ProperIsShaped(s: State, c: Commit)
    requires Proper(s, c)
    ensures Shaped(c)
  {
  }

  /** A sweeping request rewrites a proposal only while that is live. */
  lemma RequestsFindItLive(s: State, e: Event, r: Rkey)
    requires BookKept(s) && AmendsOpen(s, e) && Sweeping(e)
    requires PlanOf(s, e).commit.Some? && PutBy(PlanOf(s, e).commit.value, r).Some?
    ensures r !in EndedOn(s)
  {
    hide PlanOf;
    EndedMeans(s, r);
    if e.AmendWrite? {
      if e.pid !in s.drafts { NoDraftNothing(s, e); }
      assert DraftKept(s, s.drafts[e.pid]);
      AmendPutsOnly(s, e.pid, r);
    } else {
      PlanSteps(s, e);
      StepFindsItLive(s, e);
    }
  }

  lemma StepFindsItLive(s: State, e: Event)
    requires (e.Vote? || e.Object?) && PlanOf(s, e).commit.Some? && Lookup(s.records, e.rkey).Some?
    ensures !Ended(Lookup(s.records, e.rkey).value, s.clock)
  {
    hide CastPlan;
    hide Objectors;
    hide Lineage;
  }

  /** Its change is on a record it touches. */
  lemma ChangeIsTouched(s: State, e: Event)
    requires BookKept(s) && Sweeping(e) && PlanOf(s, e).commit.Some? && PlanOf(s, e).commit.value.change.Some?
    ensures Touches(s, e, PlanOf(s, e).commit.value.change.value.key) && !e.AmendWrite?
  {
    hide CastPlan;
    hide Objectors;
    hide Lineage;
    if e.Vote? { PlanSteps(s, e); }
  }

  /** A window it opens is a vote's, on a record the vote touches. */
  lemma OpenedIsTouched(s: State, e: Event, threshold: int, r: Rkey)
    requires BookKept(s) && Windowed(s, threshold) && PlanOf(s, e).commit.Some? && PutBy(PlanOf(s, e).commit.value, r).Some?
    requires PutBy(PlanOf(s, e).commit.value, r).value.status == Pending
    ensures Touches(s, e, PutBy(PlanOf(s, e).commit.value, r).value.target) && e.Vote?
  {
    hide PlanOf;
    hide VoteGate;
    PendingByVote(s, e, r);
    PlanSteps(s, e);
    VoteThatPends(s, e, r);
  }

  lemma VoteThatPends(s: State, e: Event, r: Rkey)
    requires e.Vote? && e.rkey == r && PlanOf(s, e).commit.Some? && PutBy(PlanOf(s, e).commit.value, r).Some?
    requires PutBy(PlanOf(s, e).commit.value, r).value.status == Pending
    ensures Lookup(s.records, r).Some? && VoteGate(Lookup(s.records, r).value, s.clock, e.voter, e.repos) == Accept
  {
    hide CastPlan;
    hide Lineage;
  }

  lemma RequestLands(s: State, e: Event, threshold: int)
    requires BookKept(s) && Orderly(s, e) && Windowed(s, threshold) && Prompt(s, e) && Sweeping(e)
    requires Done(s, e).commit.Some?
    ensures Lands(s, Done(s, e).commit.value) && Proper(s, Done(s, e).commit.value)
  {
    hide PlanOf;
    hide BookKept;
    hide Windowed;
    hide Touches;
    hide Proper;
    hide Shaped;
    hide AmendsOpen;
    DoneIsProper(s, e);
    var c := Done(s, e).commit.value;
    ProperIsShaped(s, c);
    if c.change.Some? { ChangeIsTouched(s, e); }
    forall r | PutBy(c, r).Some? ensures r !in EndedOn(s) && (IsDue(PutBy(c, r).value, s.clock) ==> DueFor(s, PutBy(c, r).value.target) == {}) {
      RequestsFindItLive(s, e, r);
      if IsDue(PutBy(c, r).value, s.clock) { OpenedIsTouched(s, e, threshold, r); }
    }
  }

  // ── Requests that never sweep ─────────────────────────────────────

  predicate Unswept(e: Event) { e.Create? || e.AmendRead? || IsWrite(e) }

  lemma PendingIsEager(s: State, t: State)
    requires Alike(s, t) && EndedOn(t) == {}
    ensures PendingSettings(s) == SettingsOf(t.records)
  {
    hide Future;
    hide ViewOf;
    EagerFuture(t, SETTINGS_KEY);
  }

  lemma EagerFuture(t: State, k: Key)
    requires EndedOn(t) == {}
    ensures DueFor(t, k) == {} && Future(t, k) == Content(t.records, k)
  {
  }

  /** All that a creation depends on. */
  lemma CreatedBy(s: State, e: Event)
    requires e.Create?
    ensures Next(s, e).clock == s.clock && Next(s, e).next == s.next + 4 && Next(s, e).drafts == s.drafts && Next(s, e).objections == s.objections
    ensures var settings := SettingsOf(s.records);
      if WouldCreate(e) && VotingModel(settings)
      then
        && Next(s, e).records == s.records[ProposalKey(s.next) := Entry(ProposalRecord(Created(s, e, OpenUntil(s.clock, settings))), s.next + 1)]
        && Next(s, e).votes == s.votes + Seeded(s, e)
      else Next(s, e).records == s.records && Next(s, e).votes == s.votes
  {
  }

  /** The proposal a creation stores, and the vote record that seeds it. */
  function Created(s: State, e: Event, expiresAt: Time): Proposal
    requires e.Create?
  {
    Proposal(e.target, e.action, e.proposed, e.proposer, Open, if CheckRepo(e.repos, e.proposer) == CanRecord then [e.proposer] else [], [],
      s.clock, expiresAt, None, true, [], [], None, None, None, {}, None, None)
  }

  function Seeded(s: State, e: Event): set<VoteRow>
    requires e.Create?
  {
    if CheckRepo(e.repos, e.proposer) == CanRecord && e.proposer !in e.lost && e.survived >= 2
    then {NewVoteRow(e.proposer, For, s.next, s.next + 1, s.clock, s.next + 2)} else {}
  }

  /** Storing the same open proposal on both machines. */
  lemma StoredAlike(s: State, t: State, r: Rkey, entry: Entry)
    requires Alike(s, t) && Lookup(s.records, r).None? && entry.record.ProposalRecord? && entry.record.proposal.status == Open
    ensures Alike(s.(records := s.records[ProposalKey(r) := entry]), t.(records := t.records[ProposalKey(r) := entry]))
  {
    hide Future;
    hide ViewOf;
    var s', t' := s.(records := s.records[ProposalKey(r) := entry]), t.(records := t.records[ProposalKey(r) := entry]);
    StoredSees(s, r, entry, r);
    StoredSees(t, r, entry, r);
    assert ViewOf(t, r) == ViewOf(s, r);
    AbsentIsAbsent(s, r);
    AbsentIsAbsent(t, r);
    forall q ensures ViewOf(s', q) == ViewOf(t', q) {
      StoredSees(s, r, entry, q);
      StoredSees(t, r, entry, q);
    }
    forall k: Key | k.collection == Decisions ensures EntryAt(s'.records, k) == EntryAt(t'.records, k) {
      assert EntryAt(s.records, k) == EntryAt(t.records, k);
    }
    forall k: Key | !Reserved(k.collection) ensures Future(s', k) == Future(t', k) {
      StoredFuture(s, r, entry, k);
      StoredFuture(t, r, entry, k);
    }
  }

  lemma AbsentIsAbsent(s: State, r: Rkey)
    ensures ViewOf(s, r).Absent? <==> Lookup(s.records, r).None?
  {
  }

  lemma StoredSees(s: State, r: Rkey, entry: Entry, q: Rkey)
    requires entry.record.ProposalRecord? && entry.record.proposal.status == Open
    ensures ViewOf(s.(records := s.records[ProposalKey(r) := entry]), q) == if q == r then Live(entry) else ViewOf(s, q)
  {
  }

  lemma StoredFuture(s: State, r: Rkey, entry: Entry, k: Key)
    requires Lookup(s.records, r).None? && entry.record.ProposalRecord? && entry.record.proposal.status == Open && !Reserved(k.collection)
    ensures Future(s.(records := s.records[ProposalKey(r) := entry]), k) == Future(s, k)
  {
    hide Fold;
    var s' := s.(records := s.records[ProposalKey(r) := entry]);
    forall q ensures q in EndedOn(s') <==> q in EndedOn(s) {
      EndedMeans(s, q);
      EndedMeans(s', q);
    }
    forall q ensures q in DueFor(s', k) <==> q in DueFor(s, k) {
      EndedMeans(s, q);
    }
    assert DueFor(s', k) == DueFor(s, k);
    FoldSame(s.records, s'.records, DueFor(s, k), Content(s.records, k));
  }

  lemma CreateExactly(s: State, t: State, e: Event)
    requires e.Create? && Alike(s, t) && EndedOn(t) == {} && BookKept(s)
    ensures Alike(Next(s, e), Next(t, e)) <==> CreatesAlike(s, e)
  {
    hide Future;
    hide ViewOf;
    hide Next;
    hide BookKept;
    PendingIsEager(s, t);
    CreatedBy(s, e);
    CreatedBy(t, e);
    Unstored(s);
    var (now, later) := (SettingsOf(s.records), SettingsOf(t.records));
    var entryNow := Entry(ProposalRecord(Created(s, e, OpenUntil(s.clock, now))), s.next + 1);
    var entryLater := Entry(ProposalRecord(Created(t, e, OpenUntil(t.clock, later))), t.next + 1);
    assert ViewOf(s, s.next) == ViewOf(t, s.next);
    AbsentIsAbsent(s, s.next);
    AbsentIsAbsent(t, s.next);
    AfterCreate(s, e, entryNow, VotingModel(now));
    AfterCreate(t, e, entryLater, VotingModel(later));
    if CreatesAlike(s, e) {
      if WouldCreate(e) && VotingModel(now) {
        StoredAlike(s, t, s.next, entryNow);
        RestAlike(s.(records := s.records[ProposalKey(s.next) := entryNow]), t.(records := t.records[ProposalKey(s.next) := entryNow]),
          Next(s, e), Next(t, e));
      } else {
        RestAlike(s, t, Next(s, e), Next(t, e));
      }
    } else {
      assert ViewOf(Next(s, e), s.next) != ViewOf(Next(t, e), s.next);
    }
  }

  lemma Unstored(s: State)
    requires BookKept(s)
    ensures Lookup(s.records, s.next).None?
  {
    assert Reserved(ProposalKey(s.next).collection);
  }

  lemma AfterCreate(s: State, e: Event, entry: Entry, voting: bool)
    requires e.Create? && entry.record.ProposalRecord? && entry.record.proposal.status == Open && Next(s, e).clock == s.clock
    requires Next(s, e).records == if WouldCreate(e) && voting then s.records[ProposalKey(s.next) := entry] else s.records
    ensures ViewOf(Next(s, e), s.next) == if WouldCreate(e) && voting then Live(entry) else ViewOf(s, s.next)
  {
    hide Next;
  }

  lemma AmendReadExactly(s: State, t: State, e: Event)
    requires e.AmendRead? && Alike(s, t) && EndedOn(t) == {}
    ensures Alike(Next(s, e), Next(t, e)) <==> AmendsAlike(s, e.rkey)
  {
    hide Future;
    hide ViewOf;
    hide Next;
    PendingIsEager(s, t);
    ReadLeaves(s, e);
    ReadLeaves(t, e);
    assert ViewOf(s, e.rkey) == ViewOf(t, e.rkey);
    if ViewOf(s, e.rkey).Live? {
      LiveIsSame(s, t, e.rkey);
    } else {
      EndedRefuses(s, e, e.rkey);
      EndedRefuses(t, e, e.rkey);
    }
    if AmendsAlike(s, e.rkey) {
      RestAlike(s, t, Next(s, e), Next(t, e));
    } else {
      assert Next(s, e).drafts[e.pid].proposal.expiresAt != Next(t, e).drafts[e.pid].proposal.expiresAt;
    }
  }

  lemma ReadLeaves(s: State, e: Event)
    requires e.AmendRead?
    ensures var d, t := AmendDraft(s, e.rkey, e.editor, e.amended), Next(s, e);
      && t.records == s.records && t.clock == s.clock && t.votes == s.votes && t.objections == s.objections && t.next == s.next + 4
      && t.drafts == (if d.Some? then s.drafts[e.pid := d.value] else s.drafts)
    ensures AmendDraft(s, e.rkey, e.editor, e.amended).Some? <==>
      Lookup(s.records, e.rkey).Some? && Lookup(s.records, e.rkey).value.status == Open
    ensures AmendDraft(s, e.rkey, e.editor, e.amended).Some? ==>
      AmendDraft(s, e.rkey, e.editor, e.amended).value.proposal.expiresAt == OpenUntil(s.clock, SettingsOf(s.records))
  {
  }

  lemma WriteEffect(s: State, e: Event, k: Key)
    requires IsWrite(e)
    ensures var t := Next(s, e);
      && t.clock == s.clock && t.votes == s.votes && t.objections == s.objections && t.drafts == s.drafts && t.next == s.next + 4
      && (Reserved(k.collection) ==> EntryAt(t.records, k) == EntryAt(s.records, k))
      && Content(t.records, k) == (if k == OwnKey(s, e) then Own(e, Content(s.records, k)) else Content(s.records, k))
  {
  }

  lemma WrittenFuture(s: State, e: Event, k: Key)
    requires IsWrite(e) && !Reserved(k.collection)
    ensures Future(Next(s, e), k) ==
      if k == OwnKey(s, e) then Fold(s.records, DueFor(s, k), Own(e, Content(s.records, k))) else Future(s, k)
  {
    hide Fold;
    hide Next;
    hide Own;
    var t := Next(s, e);
    WriteEffect(s, e, k);
    forall q ensures Lookup(t.records, q) == Lookup(s.records, q) { WriteEffect(s, e, ProposalKey(q)); }
    forall q ensures q in DueFor(t, k) <==> q in DueFor(s, k) {
      EndedMeans(s, q);
      EndedMeans(t, q);
    }
    assert DueFor(t, k) == DueFor(s, k);
    FoldSame(s.records, t.records, DueFor(s, k), Content(t.records, k));
  }

  lemma WrittenView(s: State, e: Event, r: Rkey)
    requires IsWrite(e)
    ensures ViewOf(Next(s, e), r) == ViewOf(s, r)
  {
    hide Next;
    WriteEffect(s, e, ProposalKey(r));
  }

  lemma WriteExactly(s: State, t: State, e: Event)
    requires IsWrite(e) && Alike(s, t) && EndedOn(t) == {}
    ensures Alike(Next(s, e), Next(t, e)) <==> Commutes(s, e)
  {
    hide Future;
    hide ViewOf;
    hide Next;
    hide Own;
    var own := OwnKey(s, e);
    assert OwnKey(t, e) == own;
    WriteEffect(s, e, own);
    WriteEffect(t, e, own);
    EagerFuture(t, own);
    FoldNothing(t.records, Own(e, Content(t.records, own)));
    forall r ensures ViewOf(Next(s, e), r) == ViewOf(Next(t, e), r) {
      WrittenView(s, e, r);
      WrittenView(t, e, r);
    }
    forall k: Key | Reserved(k.collection)
      ensures EntryAt(Next(s, e).records, k) == EntryAt(s.records, k) && EntryAt(Next(t, e).records, k) == EntryAt(t.records, k)
    {
      WriteEffect(s, e, k);
      WriteEffect(t, e, k);
    }
    forall r ensures ProposalKey(r) in Next(s, e).records <==> ProposalKey(r) in Next(t, e).records {
      assert EntryAt(Next(s, e).records, ProposalKey(r)) == EntryAt(s.records, ProposalKey(r));
      assert EntryAt(Next(t, e).records, ProposalKey(r)) == EntryAt(t.records, ProposalKey(r));
    }
    forall k: Key | !Reserved(k.collection) && k != own ensures Future(Next(s, e), k) == Future(Next(t, e), k) {
      WrittenFuture(s, e, k);
      WrittenFuture(t, e, k);
    }
    if !Reserved(own.collection) {
      WrittenFuture(s, e, own);
      WrittenFuture(t, e, own);
    }
  }
}
