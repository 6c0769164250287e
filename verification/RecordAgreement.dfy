/**
 When the vote records and the cached lists agree.  A proposal is decided only when
 they do, so a divergence defers it.  In a run where requests finish, every record
 write succeeds, resets happen strictly after the votes they discard, and no proposal
 is rewritten more often than its lineage can remember, they always agree; past that
 many rewrites they need not.
 */
module RecordAgreement {
  import opened Wrappers
  import opened DecisionRules
  import opened VoteTally
  import opened DelegationLoop
  import opened ProposalRecords
  import opened ProposalMachine
  import opened ProposalEvolution
  import ProposalHistory
  import OverrideRound

  // ── The tally, when each voter has one countable record ───────────

  ghost function Counted(rows: set<VoteRow>, known: set<Cid>, epoch: Time): set<VoteRow> {
    set v | v in rows && IsCountable(v, known, Some(epoch))
  }

  ghost predicate OneEach(rows: set<VoteRow>) {
    forall a, b | a in rows && b in rows && a.repo == b.repo :: a == b
  }

  ghost function On(rows: set<VoteRow>, side: Side): set<Did> {
    set v | v in rows && v.side == Some(side) :: v.repo
  }

  lemma TallyOfOneEach(rows: set<VoteRow>, known: set<Cid>, epoch: Time)
    requires OneEach(Counted(rows, known, epoch))
    ensures ForVoters(Tally(rows, known, Some(epoch))) == On(Counted(rows, known, epoch), For)
    ensures AgainstVoters(Tally(rows, known, Some(epoch))) == On(Counted(rows, known, epoch), Against)
  {
    var t := Tally(rows, known, Some(epoch));
    var counted := Counted(rows, known, epoch);
    forall v | v in counted ensures v.repo in t && t[v.repo] == v {
      assert v.repo in Voters(rows, known, Some(epoch));
      assert t[v.repo] in counted;
    }
    assert forall d | d in t :: t[d] in counted && t[d].repo == d;
  }

  lemma OnUnion(a: set<VoteRow>, b: set<VoteRow>, side: Side)
    ensures On(a + b, side) == On(a, side) + On(b, side)
  {
  }

  /** The cached lists are exactly the countable records, one record a voter. */
  ghost predicate Matches(counted: set<VoteRow>, p: Proposal) {
    OneEach(counted) && On(counted, For) == Members(p.votesFor) && On(counted, Against) == Members(p.votesAgainst)
  }

  // ── The records a vote writes ─────────────────────────────────────

  lemma {:induction false} WrittenRows(names: seq<Did>, side: Side, r: Rkey, cites: Cid, now: Time, id: nat, lost: set<Did>)
    requires NoRepeats(names) && forall d | d in names :: d !in lost
    ensures var rows := AsSet(VoteRows(names, side, r, cites, now, id, lost));
      && OneEach(rows)
      && On(rows, side) == Members(names)
      && forall v | v in rows :: v.repo in names && WrittenAt(v, side, r, cites, now)
    decreases |names|
  {
    if names != [] {
      var rest := VoteRows(names[1..], side, r, cites, now, id + 1, lost);
      var first := NewVoteRow(names[0], side, r, cites, now, id);
      WrittenRows(names[1..], side, r, cites, now, id + 1, lost);
      assert names == [names[0]] + names[1..];
      assert AsSet(VoteRows(names, side, r, cites, now, id, lost)) == {first} + AsSet(rest);
      assert names[0] !in names[1..];
      OnUnion({first}, AsSet(rest), side);
      assert first in {first};
      assert On({first}, side) == {names[0]};
      assert Members(names) == {names[0]} + Members(names[1..]);
    }
  }

  predicate WrittenAt(v: VoteRow, side: Side, r: Rkey, cites: Cid, now: Time) {
    v.proposal == r && v.citesProposal && v.cites == Some(cites) && v.side == Some(side) && v.createdAt == Some(now)
  }

  lemma MatchesWithNew(counted: set<VoteRow>, p: Proposal, rows: set<VoteRow>, side: Side, names: seq<Did>)
    requires Matches(counted, p) && OneEach(rows) && On(rows, side) == Members(names)
    requires forall v | v in rows :: v.repo in names && v.side == Some(side)
    requires forall d | d in names :: d !in p.votesFor && d !in p.votesAgainst
    requires forall v | v in counted :: v.side.Some?
    ensures Matches(counted + rows, WithVotes(p, side, names))
  {
    var q := WithVotes(p, side, names);
    forall a, b | a in counted && b in rows ensures a.repo != b.repo {
      assert a.repo in On(counted, For) + On(counted, Against) by {
        assert a.side.value == For || a.side.value == Against;
      }
    }
    OnUnion(counted, rows, For);
    OnUnion(counted, rows, Against);
    var other := if side == For then Against else For;
    assert On(rows, other) == {};
    assert Members(q.votesFor) == Members(p.votesFor) + (if side == For then Members(names) else {});
    assert Members(q.votesAgainst) == Members(p.votesAgainst) + (if side == Against then Members(names) else {});
  }

  // ── The invariant ─────────────────────────────────────────────────

  ghost function CountedOn(s: State, r: Rkey, p: Proposal, current: Cid): set<VoteRow> {
    Counted(RowsOn(s.votes, r), KnownCids(p, current), TallyEpoch(p))
  }

  /** Records were written in the past and cite states already stored. */
  ghost predicate RowsPast(s: State) {
    forall v | v in s.votes ::
      && v.proposal < s.next && v.cites.Some? && v.cites.value < s.next && v.createdAt.Some? && v.createdAt.value <= s.clock
      && v.citesProposal && v.side.Some?
  }

  ghost predicate LineagePast(s: State, r: Rkey, p: Proposal) {
    && ProposalKey(r) in s.records && s.records[ProposalKey(r)].cid < s.next
    && (forall c | c in p.cidChain :: c < s.next)
    && TallyEpoch(p) <= s.clock
  }

  predicate Voting(p: Proposal) { p.evidence && (p.status == Open || p.status == Override) }

  ghost predicate AgreesOn(s: State, r: Rkey) {
    Lookup(s.records, r).Some? ==>
      var p := Lookup(s.records, r).value;
      && LineagePast(s, r, p)
      && NoRepeats(p.votesFor) && NoRepeats(p.votesAgainst)
      && (Voting(p) ==> Matches(CountedOn(s, r, p, s.records[ProposalKey(r)].cid), p))
  }

  ghost predicate DraftsPast(s: State) {
    forall pid | pid in s.drafts ::
      var q := s.drafts[pid].proposal;
      && q.votesFor == [] && q.votesAgainst == [] && TallyEpoch(q) <= s.clock
      && forall c | c in q.cidChain :: c < s.next
  }

  ghost predicate Agreement(s: State) {
    RowsPast(s) && DraftsPast(s) && forall r :: AgreesOn(s, r)
  }

  // ── Clean events ──────────────────────────────────────────────────

  /** No vote record on `r` dated at or after `epoch` cites one of these states: a tally starting then starts empty. */
  ghost predicate NothingCarries(s: State, r: Rkey, chain: seq<Cid>, epoch: Time) {
    forall v | v in s.votes && v.proposal == r && v.cites.Some? && v.cites.value in chain :: Before(v.createdAt, epoch)
  }

  /** The proposal an event puts under `r` without counting a vote starts from an empty tally. */
  ghost predicate StartsEmpty(s: State, e: Event, r: Rkey) {
    PlanOf(s, e).commit.Some? && PutBy(PlanOf(s, e).commit.value, r).Some? ==>
      var q := PutBy(PlanOf(s, e).commit.value, r).value;
      Voting(q) ==> NothingCarries(s, r, q.cidChain, TallyEpoch(q))
  }

  ghost predicate RoomLeft(s: State, r: Rkey) {
    Lookup(s.records, r).Some? ==> |Lookup(s.records, r).value.cidChain| < MAX_CID_CHAIN
  }

  ghost predicate Clean(s: State, e: Event) {
    && Done(s, e) == PlanOf(s, e)
    && match e
       case Create(proposer, _, _, _, _, lost, _) => proposer !in lost
       case Vote(r, _, _, _, repos, lost, _) =>
         Lookup(s.records, r).Some? && Casts(s, e, Lookup(s.records, r).value) ==>
           lost == {} && repos.missing !! repos.unknown && RoomLeft(s, r)
       case Object(r, _, _, _, _) => StartsEmpty(s, e, r)
       case ApplyDue(r, _, _) => StartsEmpty(s, e, r)
       case AmendWrite(pid) => pid in s.drafts ==> StartsEmpty(s, e, s.drafts[pid].rkey)
       case _ => true
  }

  // ── Steps that leave a proposal's records alone ────────────────────

  /** New records for other proposals, or none, leave the countable ones as they were. */
  lemma SameRowsSameCount(s: State, s': State, r: Rkey, p: Proposal, q: Proposal, current: Cid, current': Cid)
    requires RowsPast(s) && RowsOn(s'.votes, r) == RowsOn(s.votes, r)
    requires TallyEpoch(q) == TallyEpoch(p)
    requires forall c | c < s.next :: c in KnownCids(q, current') <==> c in KnownCids(p, current)
    ensures CountedOn(s', r, q, current') == CountedOn(s, r, p, current)
  {
    forall v | v in RowsOn(s.votes, r)
      ensures IsCountable(v, KnownCids(q, current'), Some(TallyEpoch(q))) <==> IsCountable(v, KnownCids(p, current), Some(TallyEpoch(p)))
    {
    }
  }

  /** While there is room, a rewrite knows what the state it replaces knew, and itself. */
  lemma LineageKeepsKnown(chain: seq<Cid>, current: Cid, next: Cid)
    requires |chain| < MAX_CID_CHAIN
    ensures forall c :: (c in Lineage(chain, Some(current)) || c == next) <==> (c in chain || c == current || c == next)
  {
  }

  /** A tally that starts afresh starts empty if and only if no record carries over. */
  lemma ResetCounts(s: State, r: Rkey, q: Proposal, current: Cid)
    requires RowsPast(s)
    requires forall v | v in s.votes && v.proposal == r :: v.cites.value != current
    ensures CountedOn(s, r, q, current) == {} <==> NothingCarries(s, r, q.cidChain, TallyEpoch(q))
  {
    if CountedOn(s, r, q, current) == {} {
      forall v | v in s.votes && v.proposal == r && v.cites.value in q.cidChain ensures Before(v.createdAt, TallyEpoch(q)) {
        assert v !in CountedOn(s, r, q, current);
      }
    }
  }

  // ── A counted vote ────────────────────────────────────────────────

  lemma NewNamesRecordable(p: Proposal, voter: Did, rows: seq<DelegationRow>, repos: Repos)
    requires p.evidence && CheckRepo(repos, voter) == CanRecord && repos.missing !! repos.unknown
    ensures forall d | d in NewNames(p, voter, rows, repos) :: d !in repos.missing
  {
    var already := (set d | d in p.votesFor) + (set d | d in p.votesAgainst) + {voter};
    AddedExactly(rows, already, p.evidence, repos);
    forall d | d in Added(rows, already, p.evidence, repos) ensures d !in repos.missing {
      assert d in Members(Added(rows, already, p.evidence, repos));
    }
  }

  lemma NewRowsCount(s: State, r: Rkey, p: Proposal, written: set<VoteRow>, side: Side, current: Cid, known: set<Cid>)
    requires RowsPast(s) && TallyEpoch(p) <= s.clock && current in known
    requires forall v | v in written :: WrittenAt(v, side, r, current, s.clock)
    requires forall c | c < s.next :: c in known <==> c in KnownCids(p, current)
    ensures Counted(RowsOn(s.votes + written, r), known, TallyEpoch(p)) == CountedOn(s, r, p, current) + written
  {
    var counted := Counted(RowsOn(s.votes + written, r), known, TallyEpoch(p));
    forall v | v in s.votes && v.proposal == r
      ensures IsCountable(v, known, Some(TallyEpoch(p))) <==> IsCountable(v, KnownCids(p, current), Some(TallyEpoch(p)))
    {
    }
    forall v | v in written ensures v in counted {
      assert IsCountable(v, known, Some(TallyEpoch(p)));
    }
  }

  /** The rows this vote writes when nobody's write is lost. */
  ghost function Written(s: State, r: Rkey, p: Proposal, voter: Did, side: Side, rows: seq<DelegationRow>, repos: Repos): set<VoteRow>
    requires ProposalKey(r) in s.records
  {
    AsSet(VoteRows(NewNames(p, voter, rows, repos), side, r, s.records[ProposalKey(r)].cid, s.clock, s.next, {} + repos.missing))
  }

  /** After a counted vote the records match the lists again, for any lineage that kept the old states. */
  lemma VoteKeepsMatch(s: State, r: Rkey, p: Proposal, voter: Did, side: Side, rows: seq<DelegationRow>, repos: Repos, known: set<Cid>)
    requires RowsPast(s) && AgreesOn(s, r) && Lookup(s.records, r) == Some(p) && Voting(p)
    requires VoteGate(p, s.clock, voter, repos) == Accept && repos.missing !! repos.unknown
    requires var current := s.records[ProposalKey(r)].cid;
      current in known && forall c | c < s.next :: c in known <==> c in KnownCids(p, current)
    ensures Matches(Counted(RowsOn(s.votes + Written(s, r, p, voter, side, rows, repos), r), known, TallyEpoch(p)),
                    WithVotes(p, side, NewNames(p, voter, rows, repos)))
  {
    var names := NewNames(p, voter, rows, repos);
    var current := s.records[ProposalKey(r)].cid;
    var written := Written(s, r, p, voter, side, rows, repos);
    ProposalHistory.NewNamesAreNew(p, voter, rows, repos);
    NewNamesRecordable(p, voter, rows, repos);
    WrittenRows(names, side, r, current, s.clock, s.next, {} + repos.missing);
    NewRowsCount(s, r, p, written, side, current, known);
    MatchesWithNew(CountedOn(s, r, p, current), p, written, side, names);
  }

  /** Such a vote is never deferred: the tally it resolves on is the cached lists. */
  lemma NeverDeferred(s: State, r: Rkey, p: Proposal, voter: Did, side: Side, rows: seq<DelegationRow>, repos: Repos)
    requires RowsPast(s) && AgreesOn(s, r) && Lookup(s.records, r) == Some(p) && Voting(p)
    requires VoteGate(p, s.clock, voter, repos) == Accept && repos.missing !! repos.unknown
    ensures var counted := WithVotes(p, side, NewNames(p, voter, rows, repos));
      var t := TallyOf(s.votes + Written(s, r, p, voter, side, rows, repos), r, counted, s.records[ProposalKey(r)].cid);
      ForVoters(t) == Members(counted.votesFor) && AgainstVoters(t) == Members(counted.votesAgainst)
      && |ForVoters(t)| == |counted.votesFor| && |AgainstVoters(t)| == |counted.votesAgainst|
  {
    hide Written;
    hide NewNames;
    hide Matches;
    hide AgreesOn;
    hide RowsPast;
    hide VoteGate;
    hide Members;
    AcceptedIsNew(s, r, p, voter, repos);
    var counted := WithVotes(p, side, NewNames(p, voter, rows, repos));
    var known := KnownCids(counted, s.records[ProposalKey(r)].cid);
    VoteKeepsMatch(s, r, p, voter, side, rows, repos, known);
    VotedListsDistinct(p, voter, side, rows, repos);
    MatchedTally(RowsOn(s.votes + Written(s, r, p, voter, side, rows, repos), r), known, TallyEpoch(p), counted);
  }

  lemma AcceptedIsNew(s: State, r: Rkey, p: Proposal, voter: Did, repos: Repos)
    requires AgreesOn(s, r) && Lookup(s.records, r) == Some(p) && VoteGate(p, s.clock, voter, repos) == Accept
    ensures ProposalKey(r) in s.records && s.records[ProposalKey(r)].cid < s.next
    ensures NoRepeats(p.votesFor) && NoRepeats(p.votesAgainst) && voter !in p.votesFor && voter !in p.votesAgainst
  {
    hide Matches;
    hide CountedOn;
  }

  lemma MatchedTally(rows: set<VoteRow>, known: set<Cid>, epoch: Time, p: Proposal)
    requires Matches(Counted(rows, known, epoch), p) && NoRepeats(p.votesFor) && NoRepeats(p.votesAgainst)
    ensures var t := Tally(rows, known, Some(epoch));
      ForVoters(t) == Members(p.votesFor) && AgainstVoters(t) == Members(p.votesAgainst)
      && |ForVoters(t)| == |p.votesFor| && |AgainstVoters(t)| == |p.votesAgainst|
  {
    TallyOfOneEach(rows, known, epoch);
    LengthIsCount(p.votesFor);
    LengthIsCount(p.votesAgainst);
  }

  lemma VotedListsDistinct(p: Proposal, voter: Did, side: Side, rows: seq<DelegationRow>, repos: Repos)
    requires NoRepeats(p.votesFor) && NoRepeats(p.votesAgainst) && voter !in p.votesFor && voter !in p.votesAgainst
    ensures var q := WithVotes(p, side, NewNames(p, voter, rows, repos)); NoRepeats(q.votesFor) && NoRepeats(q.votesAgainst)
  {
    ProposalHistory.NewNamesAreNew(p, voter, rows, repos);
    ProposalHistory.AppendNoRepeats(ProposalHistory.Names(p, side), NewNames(p, voter, rows, repos));
  }

  // ── What each event stores ────────────────────────────────────────

  lemma {:induction false} RowsAreWritten(names: seq<Did>, side: Side, r: Rkey, cites: Cid, now: Time, id: nat, lost: set<Did>)
    ensures forall v | v in VoteRows(names, side, r, cites, now, id, lost) :: WrittenAt(v, side, r, cites, now)
    decreases |names|
  {
    if names != [] {
      RowsAreWritten(names[1..], side, r, cites, now, id + 1, lost);
    }
  }

  lemma PlannedRows(s: State, e: Event, v: VoteRow)
    requires v in PlanOf(s, e).votes || PlanOf(s, e).seed == Some(v)
    ensures v.createdAt == Some(s.clock) && v.citesProposal && v.side.Some?
    ensures e.Create? ==> v.proposal == s.next && v.cites == Some(s.next + 1)
    ensures !e.Create? ==> (
      && e.Vote? && v.proposal == e.rkey && ProposalKey(e.rkey) in s.records
      && v.cites == Some(s.records[ProposalKey(e.rkey)].cid))
  {
    if e.Vote? && Lookup(s.records, e.rkey).Some? {
      var p := Lookup(s.records, e.rkey).value;
      var current := s.records[ProposalKey(e.rkey)].cid;
      RowsAreWritten(NewNames(p, e.voter, DelegationRows(s.records, e.order), e.repos), e.side, e.rkey, current, s.clock, s.next,
        e.lost + e.repos.missing);
    }
  }

  lemma RowsPastNext(s: State, e: Event)
    requires Agreement(s) && BookKept(s)
    ensures RowsPast(Next(s, e))
  {
    forall v | v in Next(s, e).votes
      ensures v.proposal < Next(s, e).next && v.cites.Some? && v.cites.value < Next(s, e).next
        && v.createdAt.Some? && v.createdAt.value <= Next(s, e).clock && v.citesProposal && v.side.Some?
    {
      if v !in s.votes {
        PlannedRows(s, e, v);
        if e.Vote? {
          assert AgreesOn(s, e.rkey);
          assert Reserved(ProposalKey(e.rkey).collection);
        }
      }
    }
  }

  lemma DraftsPastNext(s: State, e: Event)
    requires Agreement(s)
    ensures DraftsPast(Next(s, e))
  {
    if e.AmendRead? { assert AgreesOn(s, e.rkey); }
  }

  /** A proposal the event does not rewrite gets no new records either. */
  lemma UntouchedAgrees(s: State, e: Event, r: Rkey)
    requires Agreement(s) && BookKept(s) && Plain(s, e) && Clean(s, e)
    requires PlanOf(s, e).commit.Some? ==> PutBy(PlanOf(s, e).commit.value, r).None?
    requires r != s.next || !e.Create?
    ensures AgreesOn(Next(s, e), r)
  {
    DoneIsProper(s, e);
    var s' := Next(s, e);
    if PlanOf(s, e).commit.Some? { ProperCommitStores(s, PlanOf(s, e).commit.value, r); }
    if Lookup(s'.records, r).Some? {
      var p := Lookup(s.records, r).value;
      assert AgreesOn(s, r);
      EntryKept(s, e, r);
      NoRowsWithoutPut(s, e, r);
      SameRowsSameCount(s, s', r, p, p, s.records[ProposalKey(r)].cid, s.records[ProposalKey(r)].cid);
    }
  }

  lemma EntryKept(s: State, e: Event, r: Rkey)
    requires BookKept(s) && Plain(s, e) && Done(s, e) == PlanOf(s, e) && ProposalKey(r) in s.records
    requires PlanOf(s, e).commit.Some? ==> PutBy(PlanOf(s, e).commit.value, r).None?
    ensures ProposalKey(r) in Next(s, e).records && Next(s, e).records[ProposalKey(r)] == s.records[ProposalKey(r)]
  {
    hide PlanOf;
    hide BookKept;
    hide Fits;
    DoneIsProper(s, e);
    var c := Done(s, e).commit;
    if c.Some? { ProperKeepsEntry(s, c.value, r); }
  }

  lemma ProperKeepsEntry(s: State, c: Commit, r: Rkey)
    requires Proper(s, c) && PutBy(c, r).None? && ProposalKey(r) in s.records
    ensures ProposalKey(r) in ApplyCommit(s.records, c) && ApplyCommit(s.records, c)[ProposalKey(r)] == s.records[ProposalKey(r)]
  {
  }

  lemma NoRowsWithoutPut(s: State, e: Event, r: Rkey)
    requires Done(s, e) == PlanOf(s, e)
    requires PlanOf(s, e).commit.Some? ==> PutBy(PlanOf(s, e).commit.value, r).None?
    ensures RowsOn(Next(s, e).votes, r) == RowsOn(s.votes, r)
  {
    forall v | v in Next(s, e).votes && v.proposal == r ensures v in s.votes {
      if v !in s.votes {
        PlannedRows(s, e, v);
        RowsComeWithPut(s, e);
      }
    }
  }

  lemma RowsComeWithPut(s: State, e: Event)
    requires PlanOf(s, e).votes != [] || PlanOf(s, e).seed.Some?
    ensures PlanOf(s, e).commit.Some?
    ensures e.Create? ==> PutBy(PlanOf(s, e).commit.value, s.next).Some?
    ensures e.Vote? ==> PutBy(PlanOf(s, e).commit.value, e.rkey).Some?
  {
  }

  // ── A rewritten proposal ──────────────────────────────────────────

  function WithLineage(records: Records, r: Rkey, q: Proposal): Proposal {
    if q.evidence then q.(cidChain := Lineage(q.cidChain, CurrentCid(records, r))) else q
  }

  lemma LineageOnlyOld(chain: seq<Cid>, replaced: Option<Cid>)
    ensures forall c | c in Lineage(chain, replaced) :: c in chain || replaced == Some(c)
  {
  }

  lemma PutIsStored(s: State, e: Event, r: Rkey, q: Proposal, cid: Cid)
    requires BookKept(s) && Plain(s, e) && Done(s, e) == PlanOf(s, e) && PlanOf(s, e).commit.Some?
    requires PlanOf(s, e).commit.value.proposal == Some(PutProposal(s.records, r, q, cid))
    ensures ProposalKey(r) in Next(s, e).records
    ensures Next(s, e).records[ProposalKey(r)] == Entry(ProposalRecord(WithLineage(s.records, r, q)), cid)
  {
    DoneIsProper(s, e);
  }

  lemma PutIsPast(s: State, s': State, r: Rkey, q: Proposal, cid: Cid)
    requires s'.next >= s.next && s'.next > cid && s'.clock >= s.clock
    requires ProposalKey(r) in s.records && s.records[ProposalKey(r)].cid < s.next
    requires (forall c | c in q.cidChain :: c < s.next) && TallyEpoch(q) <= s.clock
    requires ProposalKey(r) in s'.records
    requires s'.records[ProposalKey(r)] == Entry(ProposalRecord(WithLineage(s.records, r, q)), cid)
    ensures LineagePast(s', r, WithLineage(s.records, r, q))
  {
    LineageOnlyOld(q.cidChain, CurrentCid(s.records, r));
  }

  /** No record can cite a state not yet stored. */
  lemma NothingNew(s: State, e: Event, r: Rkey, cid: Cid)
    requires RowsPast(s) && PlanOf(s, e).votes == [] && PlanOf(s, e).seed.None? && Done(s, e) == PlanOf(s, e) && cid >= s.next
    ensures Next(s, e).votes == s.votes && RowsPast(Next(s, e)) && forall v | v in s.votes :: v.cites.value != cid
  {
    hide PlanOf;
  }

  /** A rewrite that writes no vote record: voting is over, or starts afresh. */
  lemma PlainPutAgrees(s: State, e: Event, r: Rkey, p: Proposal, q: Proposal, cid: Cid)
    requires Agreement(s) && BookKept(s) && Plain(s, e) && Clean(s, e) && PlanOf(s, e).commit.Some?
    requires PlanOf(s, e).votes == [] && PlanOf(s, e).seed.None?
    requires PlanOf(s, e).commit.value.proposal == Some(PutProposal(s.records, r, q, cid)) && cid < s.next + 2
    requires Lookup(s.records, r) == Some(p) && (forall c | c in q.cidChain :: c < s.next) && TallyEpoch(q) <= s.clock
    requires NoRepeats(q.votesFor) && NoRepeats(q.votesAgainst)
    requires Voting(q) ==> q.votesFor == [] && q.votesAgainst == []
    requires Voting(q) ==> NothingCarries(s, r, WithLineage(s.records, r, q).cidChain, TallyEpoch(q))
    requires cid >= s.next
    ensures AgreesOn(Next(s, e), r)
  {
    hide PlanOf;
    hide Plain;
    hide BookKept;
    hide Lineage;
    hide RowsPast;
    hide DraftsPast;
    PutIsStored(s, e, r, q, cid);
    assert AgreesOn(s, r);
    PutIsPast(s, Next(s, e), r, q, cid);
    if Voting(q) {
      NothingNew(s, e, r, cid);
      ResetCounts(Next(s, e), r, WithLineage(s.records, r, q), cid);
    }
  }

  lemma ObjectAgrees(s: State, e: Event)
    requires e.Object? && Agreement(s) && BookKept(s) && Clean(s, e) && PlanOf(s, e).commit.Some?
    ensures AgreesOn(Next(s, e), e.rkey)
  {
    var p := Lookup(s.records, e.rkey).value;
    assert AgreesOn(s, e.rkey);
    var standing := Objectors(s.objections + {PlanOf(s, e).objection.value}, e.rkey, p);
    PlainPutAgrees(s, e, e.rkey, p, Held(s, p, standing, e.electorate), s.next + 1);
  }

  lemma ApplyAgrees(s: State, e: Event)
    requires e.ApplyDue? && Agreement(s) && BookKept(s) && Plain(s, e) && Clean(s, e) && PlanOf(s, e).commit.Some?
    ensures AgreesOn(Next(s, e), e.rkey)
  {
    var p := Lookup(s.records, e.rkey).value;
    assert AgreesOn(s, e.rkey);
    var standing := Objectors(s.objections, e.rkey, p);
    if |standing| >= ObjectionThresholdOf(SettingsOf(s.records)) {
      PlainPutAgrees(s, e, e.rkey, p, Held(s, p, standing, e.electorate), s.next);
    } else if Unapplicable(s.records, p) {
      PlainPutAgrees(s, e, e.rkey, p, p.(status := Decided(Approved)), s.next);
    } else {
      PlainPutAgrees(s, e, e.rkey, p, p.(status := Decided(Approved), appliedAt := Some(s.clock)), s.next);
    }
  }

  lemma CloseAgrees(s: State, e: Event)
    requires e.CloseOverride? && Agreement(s) && BookKept(s) && Clean(s, e) && PlanOf(s, e).commit.Some?
    ensures AgreesOn(Next(s, e), e.rkey)
  {
    var p := Lookup(s.records, e.rkey).value;
    assert AgreesOn(s, e.rkey);
    PlainPutAgrees(s, e, e.rkey, p,
      p.(status := Decided(Rejected), resolvedAt := Some(s.clock), roundOutcome := Some(Lapsed)), s.next);
  }

  lemma AmendAgrees(s: State, e: Event)
    requires e.AmendWrite? && Agreement(s) && BookKept(s) && Plain(s, e) && Clean(s, e) && e.pid in s.drafts
    ensures AgreesOn(Next(s, e), s.drafts[e.pid].rkey)
  {
    var d := s.drafts[e.pid];
    assert DraftKept(s, d);
    PlainPutAgrees(s, e, d.rkey, Lookup(s.records, d.rkey).value, d.proposal, s.next);
  }

  lemma CreateStored(s: State, e: Event)
    requires e.Create? && BookKept(s) && Plain(s, e) && Done(s, e) == PlanOf(s, e) && PlanOf(s, e).commit.Some?
    ensures MayCreate(s, e.target, e.action, e.proposed) && CheckRepo(e.repos, e.proposer) != CheckFailed
    ensures var q := NewProposal(s, e.proposer, e.target, e.action, e.proposed, CheckRepo(e.repos, e.proposer) == CanRecord);
      && ProposalKey(s.next) in Next(s, e).records
      && Next(s, e).records[ProposalKey(s.next)] == Entry(ProposalRecord(q), s.next + 1)
      && Next(s, e).clock == s.clock && Next(s, e).next == s.next + 4
  {
  }

  lemma NothingCreated(s: State, e: Event)
    requires e.Create? && BookKept(s) && Plain(s, e) && Done(s, e) == PlanOf(s, e) && PlanOf(s, e).commit.None?
    ensures Lookup(Next(s, e).records, s.next).None?
  {
    assert Lookup(s.records, s.next).None? by { assert Reserved(ProposalKey(s.next).collection); }
  }

  lemma CreateAgrees(s: State, e: Event)
    requires e.Create? && Agreement(s) && BookKept(s) && Plain(s, e) && Clean(s, e)
    ensures AgreesOn(Next(s, e), s.next)
  {
    hide PlanOf;
    hide Next;
    hide Matches;
    hide BookKept;
    hide CountedOn;
    if PlanOf(s, e).commit.Some? {
      CreateStored(s, e);
      var q := NewProposal(s, e.proposer, e.target, e.action, e.proposed, CheckRepo(e.repos, e.proposer) == CanRecord);
      assert forall v | v in s.votes :: v.proposal != s.next;
      SeedMatches(s, e, q);
    } else {
      NothingCreated(s, e);
    }
  }

  lemma SeedMatches(s: State, e: Event, q: Proposal)
    requires e.Create? && e.proposer !in e.lost && MayCreate(s, e.target, e.action, e.proposed) && CheckRepo(e.repos, e.proposer) != CheckFailed
    requires Done(s, e) == PlanOf(s, e) && forall v | v in s.votes :: v.proposal != s.next
    requires q == NewProposal(s, e.proposer, e.target, e.action, e.proposed, CheckRepo(e.repos, e.proposer) == CanRecord)
    ensures Matches(CountedOn(Next(s, e), s.next, q, s.next + 1), q)
  {
    var counted := CountedOn(Next(s, e), s.next, q, s.next + 1);
    if CheckRepo(e.repos, e.proposer) == CanRecord {
      var row := NewVoteRow(e.proposer, For, s.next, s.next + 1, s.clock, s.next + 2);
      assert IsCountable(row, KnownCids(q, s.next + 1), Some(TallyEpoch(q)));
      assert counted == {row};
      assert row in counted;
      assert On(counted, For) == {e.proposer} && On(counted, Against) == {};
    } else {
      assert counted == {};
    }
  }

  // ── A vote's own rewrite ──────────────────────────────────────────

  /** What a counted vote stores: the grown lists, still open for voting or closed. */
  lemma CastPut(s: State, r: Rkey, p: Proposal, voter: Did, side: Side, rows: seq<DelegationRow>, repos: Repos, lost: set<Did>)
      returns (q: Proposal)
    requires ProposalKey(r) in s.records && (p.status == Open || p.status == Override)
    ensures var names := NewNames(p, voter, rows, repos);
      var counted := WithVotes(p, side, names);
      && CastPlan(s, r, p, voter, side, rows, repos, lost).commit.Some?
      && CastPlan(s, r, p, voter, side, rows, repos, lost).commit.value.proposal
           == Some(PutProposal(s.records, r, q, s.next + |names| + 1))
      && q.votesFor == counted.votesFor && q.votesAgainst == counted.votesAgainst
      && q.cidChain == p.cidChain && TallyEpoch(q) == TallyEpoch(p) && q.evidence == p.evidence
      && (q == counted || !Voting(q))
  {
    hide NewNames;
    hide TallyOf;
    hide Ruling;
    hide DecisionFor;
    hide VoteRows;
    hide Lineage;
    hide ChangeOp;
    hide Unapplicable;
    var names := NewNames(p, voter, rows, repos);
    var counted := WithVotes(p, side, names);
    var current := s.records[ProposalKey(r)].cid;
    var t := TallyOf(s.votes + AsSet(VoteRows(names, side, r, current, s.clock, s.next, lost + repos.missing)), r, counted, current);
    var ruling := Ruling(p, counted, t, SettingsOf(s.records));
    q := counted;
    if ruling.Some? {
      q := Resolved(s, p, counted, ruling.value, DecisionFor(s, r, p, counted, t, ruling.value, s.next + |names|).0);
    }
  }

  /** The event is a vote that is counted on `p`. */
  ghost predicate Casts(s: State, e: Event, p: Proposal) {
    && e.Vote? && Lookup(s.records, e.rkey) == Some(p)
    && VoteGate(p, s.clock, e.voter, e.repos) == Accept && ListsDelegations(s.records, e.order, e.voter)
  }

  lemma CastRows(s: State, e: Event, p: Proposal)
    requires Casts(s, e, p) && Clean(s, e)
    ensures Next(s, e).votes == s.votes + Written(s, e.rkey, p, e.voter, e.side, DelegationRows(s.records, e.order), e.repos)
  {
    assert {} + e.repos.missing == e.lost + e.repos.missing;
    assert PlanOf(s, e).seed.None?;
  }

  lemma CastAgrees(s: State, e: Event, p: Proposal)
    requires Casts(s, e, p) && Agreement(s) && BookKept(s) && Plain(s, e) && Clean(s, e)
    ensures AgreesOn(Next(s, e), e.rkey)
  {
    hide NewNames;
    hide Written;
    hide Lineage;
    hide CastPlan;
    hide IsCountable;
    var r, rows := e.rkey, DelegationRows(s.records, e.order);
    var names := NewNames(p, e.voter, rows, e.repos);
    var q := CastPut(s, r, p, e.voter, e.side, rows, e.repos, e.lost);
    NamesAreFew(s, e, p);
    var cid := s.next + |names| + 1;
    PutIsStored(s, e, r, q, cid);
    assert AgreesOn(s, r);
    PutIsPast(s, Next(s, e), r, q, cid);
    VotedListsDistinct(p, e.voter, e.side, rows, e.repos);
    if Voting(q) {
      CastRows(s, e, p);
      GrownListsMatch(s, e, p, WithLineage(s.records, r, q), cid);
    }
  }

  lemma GrownListsMatch(s: State, e: Event, p: Proposal, q: Proposal, cid: Cid)
    requires Casts(s, e, p) && RowsPast(s) && AgreesOn(s, e.rkey) && Voting(p) && cid >= s.next
    requires RoomLeft(s, e.rkey) && e.repos.missing !! e.repos.unknown
    requires q == WithLineage(s.records, e.rkey, WithVotes(p, e.side, NewNames(p, e.voter, DelegationRows(s.records, e.order), e.repos)))
    ensures Matches(Counted(RowsOn(s.votes + Written(s, e.rkey, p, e.voter, e.side, DelegationRows(s.records, e.order), e.repos), e.rkey),
                            KnownCids(q, cid), TallyEpoch(q)), q)
  {
    hide Written;
    hide NewNames;
    hide Matches;
    hide Lineage;
    hide DelegationRows;
    hide VoteGate;
    hide RowsPast;
    hide AgreesOn;
    hide ListsDelegations;
    hide CountedOn;
    LineageKeepsKnown(p.cidChain, s.records[ProposalKey(e.rkey)].cid, cid);
    VoteKeepsMatch(s, e.rkey, p, e.voter, e.side, DelegationRows(s.records, e.order), e.repos, KnownCids(q, cid));
    MatchesByLists(Counted(RowsOn(s.votes + Written(s, e.rkey, p, e.voter, e.side, DelegationRows(s.records, e.order), e.repos), e.rkey),
                           KnownCids(q, cid), TallyEpoch(p)),
                   WithVotes(p, e.side, NewNames(p, e.voter, DelegationRows(s.records, e.order), e.repos)), q);
  }

  lemma MatchesByLists(counted: set<VoteRow>, p: Proposal, q: Proposal)
    requires Matches(counted, p) && q.votesFor == p.votesFor && q.votesAgainst == p.votesAgainst
    ensures Matches(counted, q)
  {
  }

  lemma VoteAgrees(s: State, e: Event)
    requires e.Vote? && Agreement(s) && BookKept(s) && Plain(s, e) && Clean(s, e) && PlanOf(s, e).commit.Some?
    ensures AgreesOn(Next(s, e), e.rkey)
  {
    var p := Lookup(s.records, e.rkey).value;
    assert AgreesOn(s, e.rkey);
    if VoteGate(p, s.clock, e.voter, e.repos) == Accept {
      CastAgrees(s, e, p);
    } else {
      PlainPutAgrees(s, e, e.rkey, p, p.(status := Expired, resolvedAt := Some(s.clock)), s.next);
    }
  }

  // ── Steps and runs ────────────────────────────────────────────────

  lemma AgreesOnNext(s: State, e: Event, r: Rkey)
    requires Agreement(s) && BookKept(s) && Plain(s, e) && Clean(s, e)
    ensures AgreesOn(Next(s, e), r)
  {
    hide AgreesOn;
    hide Next;
    hide Agreement;
    hide Clean;
    hide Plain;
    hide BookKept;
    if e.Create? && r == s.next {
      CreateAgrees(s, e);
    } else if PlanOf(s, e).commit.None? || PutBy(PlanOf(s, e).commit.value, r).None? {
      UntouchedAgrees(s, e, r);
    } else {
      PutAgrees(s, e, r);
    }
  }

  lemma PutAgrees(s: State, e: Event, r: Rkey)
    requires Agreement(s) && BookKept(s) && Plain(s, e) && Clean(s, e)
    requires PlanOf(s, e).commit.Some? && PutBy(PlanOf(s, e).commit.value, r).Some? && !(e.Create? && r == s.next)
    ensures AgreesOn(Next(s, e), r)
  {
    hide AgreesOn;
    hide Next;
    hide Agreement;
    hide Clean;
    hide Plain;
    hide BookKept;
    match e
    case Vote(_, _, _, _, _, _, _) => OverrideRound.VotePutsOnly(s, e, r); VoteAgrees(s, e);
    case Object(_, _, _, _, _) => ObjectAgrees(s, e);
    case ApplyDue(_, _, _) => ApplyAgrees(s, e);
    case CloseOverride(_, _) => CloseAgrees(s, e);
    case AmendWrite(_) => AmendAgrees(s, e);
    case _ =>
  }

  lemma AgreementNext(s: State, e: Event)
    requires Agreement(s) && BookKept(s) && Plain(s, e) && Clean(s, e)
    ensures Agreement(Next(s, e))
  {
    hide Next;
    hide Plain;
    hide Clean;
    hide BookKept;
    RowsPastNext(s, e);
    DraftsPastNext(s, e);
    forall r ensures AgreesOn(Next(s, e), r) {
      AgreesOnNext(s, e, r);
    }
  }

  ghost predicate CleanRun(states: seq<State>, es: seq<Event>) {
    && PlainRun(states, es)
    && forall i {:trigger es[i]} | 0 <= i < |es| :: Clean(states[i], es[i])
  }

  /** In a clean run the signed records and the cached lists agree at every point, on every proposal still voting. */
  lemma {:induction false} RecordsMatchCache(states: seq<State>, es: seq<Event>, n: nat)
    requires CleanRun(states, es) && BookKept(states[0]) && Agreement(states[0]) && n < |states|
    ensures Agreement(states[n])
    decreases n
  {
    hide Next;
    hide Plain;
    hide BookKept;
    hide Clean;
    hide Agreement;
    if n > 0 {
      RecordsMatchCache(states, es, n - 1);
      BookKeptRun(states, es, n - 1);
      StepOf(states, es, n - 1);
      var e := es[n - 1];
      AgreementNext(states[n - 1], e);
    }
  }

  /** ... so no vote is deferred for divergence, and every override round meets the agreement its theorem assumes. */
  lemma AgreementIsEnough(s: State, e: Event)
    requires Agreement(s) && Clean(s, e)
    ensures OverrideRound.RecordsAgree(s, e)
  {
    forall p | OverrideRound.CountsInRound(s, e, p) && p.evidence
      ensures (|ForVoters(OverrideRound.TallyAt(s, e, p))| as real >= p.round.value.bar
               <==> OverrideRound.Reached(OverrideRound.CountedBy(s, e, p)))
    {
      assert AgreesOn(s, e.rkey);
      assert {} + e.repos.missing == e.lost + e.repos.missing;
      NeverDeferred(s, e.rkey, p, e.voter, e.side, DelegationRows(s.records, e.order), e.repos);
    }
  }

  lemma CleanRunsAgree(states: seq<State>, es: seq<Event>)
    requires CleanRun(states, es) && BookKept(states[0]) && Agreement(states[0])
    ensures OverrideRound.AgreeingRun(states, es)
  {
    hide Next;
    hide Plain;
    hide Clean;
    hide Agreement;
    hide BookKept;
    forall i {:trigger es[i]} | 0 <= i < |es| ensures OverrideRound.RecordsAgree(states[i], es[i]) {
      RecordsMatchCache(states, es, i);
      AgreementIsEnough(states[i], es[i]);
    }
  }

  // ── Amending while people vote ────────────────────────────────────

  lemma EmptyMatches(counted: set<VoteRow>, q: Proposal)
    requires q.votesFor == [] && q.votesAgainst == [] && forall v | v in counted :: v.side.Some?
    ensures Matches(counted, q) <==> counted == {}
  {
    if v :| v in counted {
      var side := v.side.value;
      assert v.repo in On(counted, side);
      assert side == For || side == Against;
      assert Members(q.votesFor) == {} && Members(q.votesAgainst) == {};
    }
  }

  /** A rewrite that empties the lists and starts the tally over: records and cache agree if and only if no record carries over. */
  lemma ResetAgreesExactly(s: State, e: Event, r: Rkey, q: Proposal, cid: Cid)
    requires BookKept(s) && Plain(s, e) && RowsPast(s) && Done(s, e) == PlanOf(s, e) && PlanOf(s, e).commit.Some?
    requires PlanOf(s, e).votes == [] && PlanOf(s, e).seed.None? && cid >= s.next
    requires PlanOf(s, e).commit.value.proposal == Some(PutProposal(s.records, r, q, cid))
    requires Voting(q) && q.votesFor == [] && q.votesAgainst == []
    requires LineagePast(Next(s, e), r, WithLineage(s.records, r, q))
    ensures AgreesOn(Next(s, e), r) <==> NothingCarries(s, r, WithLineage(s.records, r, q).cidChain, TallyEpoch(q))
  {
    hide Lineage;
    hide Matches;
    hide RowsPast;
    hide NothingCarries;
    hide CountedOn;
    hide LineagePast;
    hide PlanOf;
    hide Next;
    var t := Next(s, e);
    var q' := WithLineage(s.records, r, q);
    PutIsStored(s, e, r, q, cid);
    NothingNew(s, e, r, cid);
    ResetCounts(t, r, q', cid);
    NothingCarriesSame(s, t, r, q'.cidChain, TallyEpoch(q'));
    CountedHaveSides(t, r, q', cid);
    EmptyMatches(CountedOn(t, r, q', cid), q');
    AgreementIsMatch(t, r, q', cid);
  }

  /** The hold that opens an override round leaves records and cache in agreement if and only if no vote record dated at or after it cites a state the proposal knows. */
  lemma HoldAgreesExactly(s: State, e: Event, q: Proposal)
    requires Agreement(s) && BookKept(s) && (e.Object? || e.ApplyDue?) && Done(s, e) == PlanOf(s, e)
    requires PlanOf(s, e).commit.Some? && PutBy(PlanOf(s, e).commit.value, e.rkey) == Some(q) && q.status == Override && q.evidence
    ensures AgreesOn(Next(s, e), e.rkey) <==> NothingCarries(s, e.rkey, q.cidChain, s.clock)
  {
    hide Lineage;
    hide Objectors;
    hide NothingCarries;
    hide AgreesOn;
    var r := e.rkey;
    HeldPlan(s, e, q);
    var p := Lookup(s.records, r).value;
    var standing := Objectors(if e.Object? then s.objections + {PlanOf(s, e).objection.value} else s.objections, r, p);
    var held := Held(s, p, standing, e.electorate);
    var cid := if e.Object? then s.next + 1 else s.next;
    PutIsStored(s, e, r, held, cid);
    HeldPast(s, e, r, held, cid);
    ResetAgreesExactly(s, e, r, held, cid);
  }

  lemma HeldPlan(s: State, e: Event, q: Proposal)
    requires (e.Object? || e.ApplyDue?) && PlanOf(s, e).commit.Some? && PutBy(PlanOf(s, e).commit.value, e.rkey) == Some(q) && q.status == Override
    ensures Lookup(s.records, e.rkey).Some? && (e.Object? ==> PlanOf(s, e).objection.Some?)
    ensures var p := Lookup(s.records, e.rkey).value;
      var standing := Objectors(if e.Object? then s.objections + {PlanOf(s, e).objection.value} else s.objections, e.rkey, p);
      var held := Held(s, p, standing, e.electorate);
      && PlanOf(s, e).votes == [] && PlanOf(s, e).seed.None?
      && PlanOf(s, e).commit.value.proposal == Some(PutProposal(s.records, e.rkey, held, if e.Object? then s.next + 1 else s.next))
      && WithLineage(s.records, e.rkey, held) == q && held.status == Override && TallyEpoch(held) == s.clock
      && held.votesFor == [] && held.votesAgainst == [] && held.cidChain == p.cidChain
  {
    hide Lineage;
    hide Objectors;
    hide ChangeOp;
    hide Unapplicable;
  }

  lemma HeldPast(s: State, e: Event, r: Rkey, held: Proposal, cid: Cid)
    requires Agreement(s) && Lookup(s.records, r).Some? && held.cidChain == Lookup(s.records, r).value.cidChain && TallyEpoch(held) == s.clock
    requires (e.Object? || e.ApplyDue?) && cid < s.next + 2 && ProposalKey(r) in Next(s, e).records
    requires Next(s, e).records[ProposalKey(r)] == Entry(ProposalRecord(WithLineage(s.records, r, held)), cid)
    ensures LineagePast(Next(s, e), r, WithLineage(s.records, r, held))
  {
    hide Lineage;
    hide PlanOf;
    hide Matches;
    assert AgreesOn(s, r);
    PutIsPast(s, Next(s, e), r, held, cid);
  }

  /**
   An amendment's write leaves records and cache in agreement if and only if no vote
   record dated at or after the amendment cites a state the amended proposal knows: one
   in the lineage its draft was read with, or the one it overwrites.
   */
  lemma AmendmentAgreesExactly(s: State, pid: Pid)
    requires BookKept(s) && RowsPast(s) && DraftsPast(s) && pid in s.drafts && s.drafts[pid].proposal.evidence
    requires var r := s.drafts[pid].rkey; Lookup(s.records, r).Some? && LineagePast(s, r, Lookup(s.records, r).value)
    ensures var d := s.drafts[pid];
      AgreesOn(Next(s, AmendWrite(pid)), d.rkey) <==>
      NothingCarries(s, d.rkey, Lineage(d.proposal.cidChain, CurrentCid(s.records, d.rkey)), TallyEpoch(d.proposal))
  {
    hide Lineage;
    hide NothingCarries;
    hide AgreesOn;
    hide LineagePast;
    hide PlanOf;
    hide Next;
    var d := s.drafts[pid];
    assert DraftKept(s, d);
    AmendPlanned(s, pid);
    AmendmentPast(s, pid);
    ResetAgreesExactly(s, AmendWrite(pid), d.rkey, d.proposal, s.next);
  }

  lemma AmendmentPast(s: State, pid: Pid)
    requires BookKept(s) && DraftsPast(s) && pid in s.drafts
    requires var r := s.drafts[pid].rkey; Lookup(s.records, r).Some? && LineagePast(s, r, Lookup(s.records, r).value)
    ensures var d := s.drafts[pid];
      LineagePast(Next(s, AmendWrite(pid)), d.rkey, WithLineage(s.records, d.rkey, d.proposal))
  {
    hide Lineage;
    var d := s.drafts[pid];
    AmendPlanned(s, pid);
    PutIsStored(s, AmendWrite(pid), d.rkey, d.proposal, s.next);
    PutIsPast(s, Next(s, AmendWrite(pid)), d.rkey, d.proposal, s.next);
  }

  lemma NothingCarriesSame(s: State, t: State, r: Rkey, chain: seq<Cid>, epoch: Time)
    requires t.votes == s.votes
    ensures NothingCarries(t, r, chain, epoch) <==> NothingCarries(s, r, chain, epoch)
  {
  }

  lemma CountedHaveSides(s: State, r: Rkey, p: Proposal, current: Cid)
    requires RowsPast(s)
    ensures forall v | v in CountedOn(s, r, p, current) :: v.side.Some?
  {
  }

  /** With empty lists, agreement is that the records match. */
  lemma AgreementIsMatch(t: State, r: Rkey, q: Proposal, cid: Cid)
    requires ProposalKey(r) in t.records && t.records[ProposalKey(r)] == Entry(ProposalRecord(q), cid)
    requires LineagePast(t, r, q) && Voting(q) && q.votesFor == [] && q.votesAgainst == []
    ensures AgreesOn(t, r) <==> Matches(CountedOn(t, r, q, cid), q)
  {
  }

  lemma AmendPlanned(s: State, pid: Pid)
    requires pid in s.drafts
    ensures var plan := PlanOf(s, AmendWrite(pid));
      && plan == Only(Rewrite(s, s.drafts[pid].rkey, s.drafts[pid].proposal, s.next)) && Done(s, AmendWrite(pid)) == plan
  {
    hide Lineage;
  }

  /** The voter's own record. */
  function OwnRow(s: State, e: Event): VoteRow
    requires e.Vote? && ProposalKey(e.rkey) in s.records
  {
    NewVoteRow(e.voter, e.side, e.rkey, s.records[ProposalKey(e.rkey)].cid, s.clock, s.next)
  }

  lemma OwnRowFirst(s: State, e: Event, p: Proposal)
    requires Casts(s, e, p) && e.voter !in e.lost && e.voter !in e.repos.missing
    ensures PlanOf(s, e).votes != [] && PlanOf(s, e).votes[0] == OwnRow(s, e)
    ensures PlanOf(s, e).objection.None? && PlanOf(s, e).commit.Some?
  {
    hide TallyOf;
    hide Ruling;
    hide ResolutionCommit;
    hide Lineage;
  }

  /** What the amendment's write leaves of a vote record. */
  lemma AfterAmendment(s: State, pid: Pid, v: VoteRow)
    requires BookKept(s) && RowsPast(s) && pid in s.drafts && s.drafts[pid].proposal.evidence && v in s.votes
    requires v.proposal == s.drafts[pid].rkey && TallyEpoch(s.drafts[pid].proposal) <= v.createdAt.value
    requires ProposalKey(s.drafts[pid].rkey) in s.records && |s.drafts[pid].proposal.cidChain| < MAX_CID_CHAIN
    ensures var d := s.drafts[pid];
      var t := Next(s, AmendWrite(pid));
      && v in t.votes && Lookup(t.records, d.rkey).Some?
      && var q := Lookup(t.records, d.rkey).value;
         && q.votesFor == [] && q.votesAgainst == []
         && (IsCountable(v, KnownCids(q, t.records[ProposalKey(d.rkey)].cid), Some(TallyEpoch(q))) <==>
               v.cites.value in d.proposal.cidChain || v.cites == CurrentCid(s.records, d.rkey))
  {
    var d := s.drafts[pid];
    assert DraftKept(s, d);
    AmendPlanned(s, pid);
    PutIsStored(s, AmendWrite(pid), d.rkey, d.proposal, s.next);
    LineageKeepsKnown(d.proposal.cidChain, s.records[ProposalKey(d.rkey)].cid, s.next);
  }

  /**
   A vote counted between an amendment's read and its write is erased twice over: the
   name is gone from the list, and the record cites a state the amended proposal never
   heard of - unless its draft's lineage has that state.
   */
  lemma VoteDuringAmendmentIsErased(s: State, pid: Pid, e: Event, p: Proposal)
    requires Agreement(s) && BookKept(s) && Plain(s, e) && Casts(s, e, p) && Done(s, e) == PlanOf(s, e)
    requires e.voter !in e.lost && e.voter !in e.repos.missing
    requires pid in s.drafts && s.drafts[pid].rkey == e.rkey && s.drafts[pid].proposal.evidence
    requires |s.drafts[pid].proposal.cidChain| < MAX_CID_CHAIN
    ensures var t := Next(Next(s, e), AmendWrite(pid));
      && OwnRow(s, e) in t.votes && Lookup(t.records, e.rkey).Some?
      && var q := Lookup(t.records, e.rkey).value;
         && q.votesFor == [] && q.votesAgainst == []
         && (IsCountable(OwnRow(s, e), KnownCids(q, t.records[ProposalKey(e.rkey)].cid), Some(TallyEpoch(q))) <==>
               s.records[ProposalKey(e.rkey)].cid in s.drafts[pid].proposal.cidChain)
  {
    hide PlanOf;
    hide AgreesOn;
    hide IsCountable;
    hide KnownCids;
    OwnRowFirst(s, e, p);
    BookKeptNext(s, e);
    CastCurrent(s, e, p);
    assert AgreesOn(s, e.rkey);
    OwnRowPast(s, e, Next(s, e));
    AfterAmendment(Next(s, e), pid, OwnRow(s, e));
  }

  lemma OwnRowPast(s: State, e: Event, t: State)
    requires Agreement(s) && e.Vote? && ProposalKey(e.rkey) in s.records
    ensures OwnRow(s, e).createdAt == Some(s.clock) && OwnRow(s, e).cites == Some(s.records[ProposalKey(e.rkey)].cid)
  {
  }

  /** A counted vote gives its proposal a new state, and keeps the records past. */
  lemma CastCurrent(s: State, e: Event, p: Proposal)
    requires Casts(s, e, p) && Agreement(s) && BookKept(s) && Plain(s, e) && Done(s, e) == PlanOf(s, e)
    ensures var t := Next(s, e);
      && RowsPast(t) && t.drafts == s.drafts && t.votes >= s.votes + AsSet(PlanOf(s, e).votes)
      && ProposalKey(e.rkey) in t.records && t.records[ProposalKey(e.rkey)].cid >= s.next
      && s.records[ProposalKey(e.rkey)].cid < s.next
  {
    hide CastPlan;
    hide NewNames;
    hide Lineage;
    var rows := DelegationRows(s.records, e.order);
    var q := CastPut(s, e.rkey, p, e.voter, e.side, rows, e.repos, e.lost);
    PutIsStored(s, e, e.rkey, q, s.next + |NewNames(p, e.voter, rows, e.repos)| + 1);
    RowsPastNext(s, e);
    assert AgreesOn(s, e.rkey);
  }

  /**
   A vote that dies between its record and its commit, while an amendment is under way,
   counts toward the amended text though no list names the voter: records and cache part.
   */
  lemma CutVoteOutlivesAmendment(s: State, pid: Pid, e: Event, p: Proposal)
    requires Agreement(s) && BookKept(s) && Casts(s, e, p) && e.survived == 1
    requires e.voter !in e.lost && e.voter !in e.repos.missing
    requires pid in s.drafts && s.drafts[pid].rkey == e.rkey && s.drafts[pid].proposal.evidence
    requires |s.drafts[pid].proposal.cidChain| < MAX_CID_CHAIN
    ensures var t := Next(Next(s, e), AmendWrite(pid));
      && OwnRow(s, e) in t.votes && Lookup(t.records, e.rkey).Some?
      && var q := Lookup(t.records, e.rkey).value;
         && q.votesFor == [] && q.votesAgainst == []
         && IsCountable(OwnRow(s, e), KnownCids(q, t.records[ProposalKey(e.rkey)].cid), Some(TallyEpoch(q)))
    ensures !AgreesOn(Next(Next(s, e), AmendWrite(pid)), e.rkey)
  {
    hide PlanOf;
    hide AgreesOn;
    hide IsCountable;
    hide KnownCids;
    hide Lineage;
    OwnRowFirst(s, e, p);
    var t := Next(s, e);
    assert t == s.(votes := s.votes + {OwnRow(s, e)}, next := t.next) by { CutVote(s, e); }
    BookKeptNext(s, e);
    OwnRowPast(s, e, t);
    CutPast(s, e, t);
    AfterAmendment(t, pid, OwnRow(s, e));
    AmendmentAgreesExactly(t, pid);
    LineageKeepsKnown(s.drafts[pid].proposal.cidChain, s.records[ProposalKey(e.rkey)].cid, t.next);
    assert OwnRow(s, e).cites.value in Lineage(s.drafts[pid].proposal.cidChain, CurrentCid(t.records, e.rkey));
  }

  lemma CutVote(s: State, e: Event)
    requires e.Vote? && e.survived == 1 && PlanOf(s, e).votes != [] && PlanOf(s, e).objection.None?
    ensures Next(s, e) == s.(votes := s.votes + {PlanOf(s, e).votes[0]}, next := s.next + IdsUsed(e))
  {
    hide PlanOf;
    var done := Done(s, e);
    assert done == Plan([PlanOf(s, e).votes[0]], None, None, None);
    assert (set v | v in done.votes) == {PlanOf(s, e).votes[0]};
  }

  lemma CutPast(s: State, e: Event, t: State)
    requires Agreement(s) && BookKept(s) && e.Vote? && Lookup(s.records, e.rkey).Some?
    requires t == s.(votes := s.votes + {OwnRow(s, e)}, next := t.next) && t.next >= s.next
    ensures RowsPast(t) && DraftsPast(t) && LineagePast(t, e.rkey, Lookup(t.records, e.rkey).value)
  {
    assert AgreesOn(s, e.rkey);
    assert Reserved(ProposalKey(e.rkey).collection);
  }
}
