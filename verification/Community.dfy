/**
 The governance endpoints as they run: a community's repository, the vote and
 objection records in its members' repositories, and one method per handler, which
 reads, loops and writes in the handler's own order.  Each method ends in exactly the
 state the proposal machine gives for its event, run to completion.
 */
module Community {
  import opened Wrappers
  import opened DecisionRules
  import opened VoteTally
  import opened DelegationLoop
  import opened ProposalRecords
  import opened ProposalMachine

  /** More durable writes than any request makes besides its vote records. */
  const ALL_WRITES := 4

  /** What a caller is told: nothing happened, or the status the proposal now has. */
  datatype Reply = Refused | Recorded(status: Status)

  /** The status a plan leaves its proposal in, if it rewrites one. */
  function ReplyOf(plan: Plan): Reply {
    if plan.commit.Some? && plan.commit.value.proposal.Some? && plan.commit.value.proposal.value.Put?
       && plan.commit.value.proposal.value.record.ProposalRecord?
    then Recorded(plan.commit.value.proposal.value.record.proposal.status) else Refused
  }

  /** A finished request: its whole plan happened. */
  lemma Completed(s: State, e: Event, plan: Plan)
    requires PlanOf(s, e) == plan && Survived(e) >= |plan.votes| + ALL_WRITES
    ensures Next(s, e) == Perform(s, plan).(clock := s.clock + (if e.Tick? then e.ms else 0),
                                            next := s.next + IdsUsed(e), drafts := DraftsAfter(s, e))
  {
    hide PlanOf;
    hide Perform;
    assert Prefix(plan, Survived(e)) == plan;
  }

  lemma {:induction false} VoteRowsSnoc(names: seq<Did>, d: Did, side: Side, r: Rkey, cites: Cid, now: Time, id: nat, lost: set<Did>)
    ensures VoteRows(names + [d], side, r, cites, now, id, lost)
      == VoteRows(names, side, r, cites, now, id, lost)
         + (if d in lost then [] else [NewVoteRow(d, side, r, cites, now, id + |names|)])
    decreases |names|
  {
    if names == [] {
      assert [] + [d] == [d] && [d][1..] == [];
    } else {
      assert (names + [d])[0] == names[0] && (names + [d])[1..] == names[1..] + [d];
      VoteRowsSnoc(names[1..], d, side, r, cites, now, id + 1, lost);
    }
  }

  lemma {:induction false} DelegationRowsSnoc(records: Records, order: seq<Rkey>, k: Rkey)
    ensures DelegationRows(records, order + [k]) == DelegationRows(records, order) + DelegationRows(records, [k])
    decreases |order|
  {
    if order == [] {
      assert [] + [k] == [k];
    } else {
      assert (order + [k])[0] == order[0] && (order + [k])[1..] == order[1..] + [k];
      DelegationRowsSnoc(records, order[1..], k);
    }
  }

  lemma NewRow(votes: set<VoteRow>, row: VoteRow, voter: Did, side: Side, r: Rkey, cites: Cid, now: Time, id: nat)
    requires KeysUnique(votes) && forall v | v in votes :: v.rkey < id
    requires row == NewVoteRow(voter, side, r, cites, now, id)
    ensures row.rkey == id && KeysUnique(votes + {row})
  {
  }

  lemma NoVoteRows(side: Side, r: Rkey, cites: Cid, now: Time, id: nat, lost: set<Did>)
    ensures VoteRows([], side, r, cites, now, id, lost) == []
  {
  }

  lemma {:induction false} RowsAreMany(records: Records, order: seq<Rkey>, voter: Did)
    requires forall r | r in order :: Delegates(records, Key(Delegations, r), voter)
    ensures |DelegationRows(records, order)| == |order|
    decreases |order|
  {
    if order != [] { RowsAreMany(records, order[1..], voter); }
  }

  /** A vote on an expired proposal is refused, though it closes the proposal. */
  ghost function VoteReply(s: State, e: Event): Reply {
    if ReplyOf(PlanOf(s, e)) == Recorded(Expired) then Refused else ReplyOf(PlanOf(s, e))
  }

  lemma Nothing(s: State, e: Event)
    requires e.Vote? && e.order == [] && e.survived >= ALL_WRITES && Lookup(s.records, e.rkey).None?
    ensures Next(s, e) == s.(next := s.next + 4) && VoteReply(s, e) == Refused
  {
    Completed(s, e, NOTHING);
  }

  lemma VoteRefused(s: State, e: Event, p: Proposal)
    requires e.Vote? && e.order == [] && e.survived >= ALL_WRITES && Lookup(s.records, e.rkey) == Some(p)
    requires VoteGate(p, s.clock, e.voter, e.repos) == Refuse
    ensures Next(s, e) == s.(next := s.next + 4) && VoteReply(s, e) == Refused
  {
    Completed(s, e, NOTHING);
  }

  lemma VoteExpires(s: State, e: Event, p: Proposal)
    requires e.Vote? && e.order == [] && e.survived >= ALL_WRITES && Lookup(s.records, e.rkey) == Some(p)
    requires VoteGate(p, s.clock, e.voter, e.repos) == Expire
    ensures var c := Rewrite(s, e.rkey, p.(status := Expired, resolvedAt := Some(s.clock)), s.next);
      Next(s, e) == s.(records := ApplyCommit(s.records, c), log := s.log + [c], next := s.next + 4)
    ensures VoteReply(s, e) == Refused
  {
    var c := Rewrite(s, e.rkey, p.(status := Expired, resolvedAt := Some(s.clock)), s.next);
    Completed(s, e, Only(c));
  }

  lemma VoteCounts(s: State, e: Event, p: Proposal)
    requires e.Vote? && Lookup(s.records, e.rkey) == Some(p) && ListsDelegations(s.records, e.order, e.voter)
    requires VoteGate(p, s.clock, e.voter, e.repos) == Accept && e.survived >= 1 + |e.order| + ALL_WRITES
    ensures var plan := CastPlan(s, e.rkey, p, e.voter, e.side, DelegationRows(s.records, e.order), e.repos, e.lost);
      && plan.commit.Some?
      && Next(s, e) == s.(votes := s.votes + AsSet(plan.votes), records := ApplyCommit(s.records, plan.commit.value),
                          log := s.log + [plan.commit.value], next := s.next + 4 + |e.order|)
      && VoteReply(s, e) == ReplyOf(plan)
  {
    hide CastPlan;
    hide Prefix;
    hide DelegationRows;
    hide ListsDelegations;
    hide ReplyOf;
    var plan := CastPlan(s, e.rkey, p, e.voter, e.side, DelegationRows(s.records, e.order), e.repos, e.lost);
    FewVotes(s, e, p);
    CastShape(s, e.rkey, p, e.voter, e.side, DelegationRows(s.records, e.order), e.repos, e.lost);
    Completed(s, e, plan);
  }

  lemma CastShape(s: State, r: Rkey, p: Proposal, voter: Did, side: Side, rows: seq<DelegationRow>, repos: Repos, lost: set<Did>)
    requires ProposalKey(r) in s.records && (p.status == Open || p.status == Override)
    ensures var plan := CastPlan(s, r, p, voter, side, rows, repos, lost);
      && plan.objection.None? && plan.seed.None? && plan.commit.Some?
      && ReplyOf(plan) != Recorded(Expired)
  {
  }

  lemma {:induction false} VoteRowsFew(names: seq<Did>, side: Side, r: Rkey, cites: Cid, now: Time, id: nat, lost: set<Did>)
    ensures |VoteRows(names, side, r, cites, now, id, lost)| <= |names|
    decreases |names|
  {
    if names != [] { VoteRowsFew(names[1..], side, r, cites, now, id + 1, lost); }
  }

  lemma FewVotes(s: State, e: Event, p: Proposal)
    requires e.Vote? && Lookup(s.records, e.rkey) == Some(p) && ListsDelegations(s.records, e.order, e.voter)
    ensures var plan := CastPlan(s, e.rkey, p, e.voter, e.side, DelegationRows(s.records, e.order), e.repos, e.lost);
      |plan.votes| <= 1 + |e.order|
  {
    var rows := DelegationRows(s.records, e.order);
    RowsAreMany(s.records, e.order, e.voter);
    AddedIsShort(rows, (set d | d in p.votesFor) + (set d | d in p.votesAgainst) + {e.voter}, p.evidence, e.repos);
    VoteRowsFew(NewNames(p, e.voter, rows, e.repos), e.side, e.rkey, s.records[ProposalKey(e.rkey)].cid, s.clock, s.next,
      e.lost + e.repos.missing);
  }

  // ── Sweeps ────────────────────────────────────────────────────────

  /** The events of a sweep, one after another. */
  ghost function Sweep(s: State, es: seq<Event>): State
    decreases |es|
  {
    if es == [] then s else Next(Sweep(s, es[..|es|-1]), es[|es|-1])
  }

  ghost function ApplyEvents(due: seq<Rkey>, electorate: nat, failing: set<Rkey>): seq<Event> {
    seq(|due|, n requires 0 <= n < |due| => ApplyDue(due[n], electorate, if due[n] in failing then 0 else ALL_WRITES))
  }

  ghost function CloseEvents(over: seq<Rkey>, failing: set<Rkey>): seq<Event> {
    seq(|over|, n requires 0 <= n < |over| => CloseOverride(over[n], if over[n] in failing then 0 else ALL_WRITES))
  }

  lemma SweepNothing(s: State)
    ensures Sweep(s, []) == s
  {
  }

  lemma SweepOne(s: State, es: seq<Event>, e: Event)
    ensures Sweep(s, es + [e]) == Next(Sweep(s, es), e)
  {
    hide Next;
    assert (es + [e])[..|es|] == es;
  }

  lemma {:induction false} HasMinimum(ks: set<Rkey>, x: Rkey)
    requires x in ks
    ensures exists k :: k in ks && forall j | j in ks :: k <= j
    decreases x
  {
    if j :| j in ks && j < x {
      HasMinimum(ks, j);
    } else {
      assert forall j | j in ks :: x <= j;
    }
  }

  function DueSet(records: Records, now: Time): set<Rkey> {
    set k | k in records && k.collection == Proposals
            && Lookup(records, k.rkey).Some? && IsDue(Lookup(records, k.rkey).value, now) :: k.rkey
  }

  function OverSet(records: Records, now: Time): set<Rkey> {
    set k | k in records && k.collection == Proposals
            && Lookup(records, k.rkey).Some? && RoundOver(Lookup(records, k.rkey).value, now) :: k.rkey
  }

  lemma SweptKeys(records: Records, now: Time)
    ensures forall r :: r in DueSet(records, now) <==> Lookup(records, r).Some? && IsDue(Lookup(records, r).value, now)
    ensures forall r :: r in OverSet(records, now) <==> Lookup(records, r).Some? && RoundOver(Lookup(records, r).value, now)
  {
    forall r | Lookup(records, r).Some? && IsDue(Lookup(records, r).value, now) ensures r in DueSet(records, now) {
      assert ProposalKey(r) in records && ProposalKey(r).rkey == r;
    }
    forall r | Lookup(records, r).Some? && RoundOver(Lookup(records, r).value, now) ensures r in OverSet(records, now) {
      assert ProposalKey(r) in records && ProposalKey(r).rkey == r;
    }
  }

  lemma ExistingDelegations(records: Records, delegator: Did, keys: seq<Rkey>)
    requires forall r :: r in keys <==> r in (set k | k in records && k.collection == Delegations && DelegatesFrom(records, k, delegator) :: k.rkey)
    ensures forall r | r in keys :: DelegatesFrom(records, Key(Delegations, r), delegator)
    ensures keys == [] ==> forall k | k in records && k.collection == Delegations :: !DelegatesFrom(records, k, delegator)
  {
    forall r | r in keys ensures DelegatesFrom(records, Key(Delegations, r), delegator) {
      var k :| k in records && k.collection == Delegations && DelegatesFrom(records, k, delegator) && k.rkey == r;
      assert k == Key(Delegations, r);
    }
    if k :| k in records && k.collection == Delegations && DelegatesFrom(records, k, delegator) { assert k.rkey in keys; }
  }

  // ── What single events do when they finish, or fail ───────────────

  /** A sweep that raises before its commit changes nothing. */
  lemma Failed(s: State, e: Event)
    requires (e.ApplyDue? || e.CloseOverride?) && e.survived == 0
    ensures Next(s, e) == s.(next := s.next + 4)
  {
    hide ApplyPlan;
    hide ClosePlan;
    SweepsOnlyCommit(s, e);
  }

  lemma SweepsOnlyCommit(s: State, e: Event)
    requires e.ApplyDue? || e.CloseOverride?
    ensures PlanOf(s, e).votes == [] && PlanOf(s, e).objection.None? && PlanOf(s, e).seed.None?
  {
    hide Lineage;
    hide Objectors;
    hide ChangeOp;
  }

  lemma SameHold(s: State, t: State, p: Proposal, objectors: set<Did>, electorate: nat)
    requires t.records == s.records && t.clock == s.clock
    ensures Held(t, p, objectors, electorate) == Held(s, p, objectors, electorate)
  {
  }

  lemma ChangesOnly(s: State, e: Event, op: Op)
    requires e.DropDelegation? || e.PutDelegation?
    requires PlanOf(s, e) == Change(op)
    ensures Next(s, e) == s.(records := ApplyCommit(s.records, Commit(None, None, Some(op))),
                             log := s.log + [Commit(None, None, Some(op))], next := s.next + 4)
  {
  }

  lemma AmendingReads(s: State, e: Event)
    requires e.AmendRead?
    ensures Next(s, e) == s.(drafts := DraftsAfter(s, e), next := s.next + 4)
  {
  }

  lemma AmendingWrites(s: State, e: Event)
    requires e.AmendWrite?
    ensures Next(s, e) ==
      if e.pid in s.drafts then
        var c := Rewrite(s, s.drafts[e.pid].rkey, s.drafts[e.pid].proposal, s.next);
        s.(records := ApplyCommit(s.records, c), log := s.log + [c], drafts := s.drafts - {e.pid}, next := s.next + 4)
      else s.(next := s.next + 4)
  {
    hide Lineage;
    assert s.drafts - {e.pid} == s.drafts || e.pid in s.drafts;
  }

  lemma ObjectRefused(s: State, e: Event)
    requires e.Object? && e.survived == ALL_WRITES
    requires Lookup(s.records, e.rkey).Some? && MayObject(Lookup(s.records, e.rkey).value, s.clock) ==>
      var p := Lookup(s.records, e.rkey).value;
      e.objector in Objectors(s.objections, e.rkey, p) || e.objector in p.objectors || CheckRepo(e.repos, e.objector) != CanRecord
    ensures Next(s, e) == s.(next := s.next + 4)
  {
    Completed(s, e, NOTHING);
  }

  /** A counted objection is recorded, and holds the change once enough stand. */
  lemma ObjectCounts(s: State, e: Event, p: Proposal, row: ObjectionRow)
    requires e.Object? && e.survived == ALL_WRITES && Lookup(s.records, e.rkey) == Some(p) && MayObject(p, s.clock)
    requires e.objector !in Objectors(s.objections, e.rkey, p) && e.objector !in p.objectors && CheckRepo(e.repos, e.objector) == CanRecord
    requires row == ObjectionRow(e.objector, s.next, e.rkey, true, p.decision.value.rkey, p.decision.value.cid, Some(s.clock))
    ensures var standing := Objectors(s.objections + {row}, e.rkey, p);
      var after := s.(objections := s.objections + {row}, next := s.next + 4);
      Next(s, e) ==
        if |standing| >= ObjectionThresholdOf(SettingsOf(s.records)) then
          var c := Rewrite(s, e.rkey, Held(s, p, standing, e.electorate), s.next + 1);
          after.(records := ApplyCommit(s.records, c), log := s.log + [c])
        else after
  {
    hide Held;
    hide Lineage;
    hide Objectors;
    Completed(s, e, ObjectPlan(s, e.rkey, e.objector, e.repos, e.electorate));
  }

  lemma CreateRefused(s: State, e: Event)
    requires e.Create? && e.survived == ALL_WRITES
    requires !MayCreate(s, e.target, e.action, e.proposed) || CheckRepo(e.repos, e.proposer) == CheckFailed
    ensures Next(s, e) == s.(next := s.next + 4)
  {
    Completed(s, e, NOTHING);
  }

  lemma Created(s: State, e: Event)
    requires e.Create? && e.survived == ALL_WRITES
    requires MayCreate(s, e.target, e.action, e.proposed) && CheckRepo(e.repos, e.proposer) != CheckFailed
    ensures var seeded := CheckRepo(e.repos, e.proposer) == CanRecord;
      var put := Put(ProposalKey(s.next), ProposalRecord(NewProposal(s, e.proposer, e.target, e.action, e.proposed, seeded)), s.next + 1);
      var c := Commit(None, Some(put), None);
      Next(s, e) == s.(records := ApplyCommit(s.records, c), log := s.log + [c], next := s.next + 4,
        votes := if seeded && e.proposer !in e.lost
                 then s.votes + {NewVoteRow(e.proposer, For, s.next, s.next + 1, s.clock, s.next + 2)} else s.votes)
  {
    hide NewProposal;
    Completed(s, e, CreatePlan(s, e.proposer, e.target, e.action, e.proposed, e.repos, e.lost));
  }

  class Community {
    var records: Records
    var log: seq<Commit>
    var votes: set<VoteRow>
    var objections: set<ObjectionRow>
    var clock: Time
    var next: nat
    var drafts: map<Pid, Draft>

    ghost function Contents(): State reads this {
      State(records, log, votes, objections, clock, next, drafts)
    }

    /** Record keys are unique in every voter's repository, and keys are drawn once. */
    ghost predicate Valid() reads this {
      KeysUnique(votes) && forall v | v in votes :: v.rkey < next
    }

    // ── The durable writes ──────────────────────────────────────────

    /** `applyWrites`: one signed commit. */
    method ApplyWrites(c: Commit)
      modifies this`records, this`log
      ensures records == ApplyCommit(old(records), c) && log == old(log) + [c]
    {
      if c.decision.Some? { records := ApplyOp(records, c.decision.value); }
      if c.proposal.Some? { records := ApplyOp(records, c.proposal.value); }
      if c.change.Some? { records := ApplyOp(records, c.change.value); }
      log := log + [c];
    }

    /** One record per counted name, in the name's own repository; a failed write is only logged. */
    method WriteVoteRecords(names: seq<Did>, side: Side, r: Rkey, cites: Cid, id: nat, lost: set<Did>)
        returns (written: seq<VoteRow>)
      requires KeysUnique(votes) && forall v | v in votes :: v.rkey < id
      modifies this`votes
      ensures written == VoteRows(names, side, r, cites, clock, id, lost)
      ensures votes == old(votes) + AsSet(written)
      ensures KeysUnique(votes) && forall v | v in votes :: v.rkey < id + |names|
    {
      hide NewVoteRow;
      hide VoteRows;
      hide KeysUnique;
      NoVoteRows(side, r, cites, clock, id, lost);
      assert names[..0] == [];
      written := [];
      for n := 0 to |names|
        invariant written == VoteRows(names[..n], side, r, cites, clock, id, lost)
        invariant votes == old(votes) + AsSet(written)
        invariant KeysUnique(votes) && forall v | v in votes :: v.rkey < id + n
      {
        VoteRowsSnoc(names[..n], names[n], side, r, cites, clock, id, lost);
        assert names[..n + 1] == names[..n] + [names[n]];
        if names[n] !in lost {
          var row := NewVoteRow(names[n], side, r, cites, clock, id + n);
          NewRow(votes, row, names[n], side, r, cites, clock, id + n);
          votes := votes + {row};
          assert AsSet(written + [row]) == AsSet(written) + {row};
          written := written + [row];
        }
      }
      assert names[..|names|] == names;
    }

    // ── The queries ─────────────────────────────────────────────────

    /** The rows of a query, in whatever order the database gives them. */
    static method Rows<T(==)>(all: set<T>) returns (rows: seq<T>)
      ensures forall x :: x in rows <==> x in all
      ensures forall i, j | 0 <= i < j < |rows| :: rows[i] != rows[j]
    {
      rows := [];
      var left := all;
      while left != {}
        invariant left <= all
        invariant forall x :: x in rows <==> x in all - left
        invariant forall i, j | 0 <= i < j < |rows| :: rows[i] != rows[j]
        decreases |left|
      {
        var x :| x in left;
        forall i | 0 <= i < |rows| ensures rows[i] != x { assert rows[i] in rows; }
        left := left - {x};
        rows := rows + [x];
      }
    }

    /** Every delegation naming this voter as delegate. */
    method DelegationsTo(voter: Did) returns (rows: seq<DelegationRow>, ghost order: seq<Rkey>)
      ensures ListsDelegations(records, order, voter) && rows == DelegationRows(records, order)
    {
      var keys := Rows(set k | k in records && k.collection == Delegations && Delegates(records, k, voter) :: k.rkey);
      rows, order := [], keys;
      for n := 0 to |keys|
        invariant rows == DelegationRows(records, keys[..n])
      {
        var k := Key(Delegations, keys[n]);
        assert keys[n] in keys;
        rows := rows + [DelegationRow(keys[n], records[k].cid, records[k].record.delegator)];
        DelegationRowsSnoc(records, keys[..n], keys[n]);
        assert keys[..n + 1] == keys[..n] + [keys[n]];
        assert [keys[n]][1..] == [];
      }
      assert keys[..|keys|] == keys;
      forall r | r in order ensures Delegates(records, Key(Delegations, r), voter) {
      }
    }

    /** The tally of a proposal's vote records. */
    method TallyVotes(r: Rkey, known: set<Cid>, epoch: Time) returns (counted: map<Did, VoteRow>)
      requires KeysUnique(votes)
      ensures counted == Tally(RowsOn(votes, r), known, Some(epoch))
    {
      var rows := Rows(set v | v in votes && v.proposal == r);
      assert AsSet(rows) == RowsOn(votes, r);
      var rejected;
      counted, rejected := TallyFromVoteRecords(rows, known, Some(epoch));
    }

    /** The decision a proposal already has; record keys are time-ordered, so the largest is the latest. */
    method LatestDecision(r: Rkey) returns (latest: Option<Rkey>)
      ensures latest == Latest(DecisionsOn(records, r))
    {
      var keys := Rows(DecisionsOn(records, r));
      latest := None;
      for n := 0 to |keys|
        invariant latest.None? <==> n == 0
        invariant latest.Some? ==> latest.value in keys[..n] && forall j | j in keys[..n] :: j <= latest.value
      {
        assert keys[..n + 1] == keys[..n] + [keys[n]];
        if latest.None? || latest.value < keys[n] { latest := Some(keys[n]); }
      }
      assert keys[..|keys|] == keys;
      if keys != [] { assert keys[0] in DecisionsOn(records, r); }
    }

    /** `countableObjections`: each objector with a record that counts, once. */
    method CountableObjections(r: Rkey, p: Proposal) returns (objectors: set<Did>)
      ensures objectors == Objectors(objections, r, p)
    {
      objectors := {};
      if p.decision.None? || p.resolvedAt.None? || p.applyAt.None? { return; }
      var rows := Rows(set o | o in objections && o.proposal == r);
      for n := 0 to |rows|
        invariant objectors == set o | o in rows[..n]
          && CountsAsObjection(o, p.decision.value.rkey, p.decision.value.cid, p.resolvedAt.value, p.applyAt.value) :: o.repo
      {
        assert rows[..n + 1] == rows[..n] + [rows[n]];
        if !CountsAsObjection(rows[n], p.decision.value.rkey, p.decision.value.cid, p.resolvedAt.value, p.applyAt.value) { continue; }
        objectors := objectors + {rows[n].repo};
      }
      assert rows[..|rows|] == rows;
    }

    // ── Resolution ──────────────────────────────────────────────────

    /** `prepareDecisionRecord`: reuse the latest decision when it says the same, else supersede it. */
    method PrepareDecision(ghost s: State, r: Rkey, p: Proposal, counted: Proposal, tally: map<Did, VoteRow>, outcome: Outcome, id: nat)
        returns (ref: DecisionRef, write: Option<Op>)
      requires s.records == records && p.evidence
      ensures (Some(ref), write) == DecisionFor(s, r, p, counted, tally, outcome, id)
    {
      var latest := LatestDecision(r);
      if latest.Some? {
        var existing := records[DecisionKey(latest.value)];
        var d := LookupDecision(records, latest.value);
        if d.Some? && d.value.outcome == outcome && d.value.cited == Cited(tally) {
          return DecisionRef(latest.value, existing.cid), None;
        }
      }
      var complete := forall d | d in counted.votesFor + counted.votesAgainst :: d in tally;
      var decision := Decision(r, outcome, BarOf(p, SettingsOf(records)), p.status == Override && p.round.Some?,
        ForVoters(tally), AgainstVoters(tally), Cited(tally), complete, latest);
      assert decision == NewDecision(s, r, p, counted, tally, outcome);
      return DecisionRef(id, id), Some(Put(DecisionKey(id), DecisionRecord(decision), id));
    }

    /** Decided only when the signed records and the cached lists give the same outcome. */
    method Decide(r: Rkey, p: Proposal, counted: Proposal, current: Cid)
        returns (outcome: Option<Outcome>, deferred: bool, tally: map<Did, VoteRow>)
      requires KeysUnique(votes)
      ensures p.evidence ==> tally == TallyOf(votes, r, counted, current)
      ensures outcome == Ruling(p, counted, TallyOf(votes, r, counted, current), SettingsOf(records))
      ensures deferred ==> outcome.None?
    {
      var settings := SettingsOf(records);
      var overrideRound := p.status == Override && p.round.Some?;
      var quorum := QuorumOf(settings);
      deferred, tally := false, map[];
      var cacheOutcome := if overrideRound then DecideOverride(|counted.votesFor|, p.round.value.bar)
                          else DecideOutcome(|counted.votesFor|, |counted.votesAgainst|, quorum);
      outcome := cacheOutcome;
      if p.evidence {
        tally := TallyVotes(r, KnownCids(counted, current), TallyEpoch(counted));
        var recordOutcome := if overrideRound then DecideOverride(|ForVoters(tally)|, p.round.value.bar)
                             else DecideOutcome(|ForVoters(tally)|, |AgainstVoters(tally)|, quorum);
        deferred := recordOutcome != cacheOutcome;
        outcome := if deferred then None else recordOutcome;
      }
    }

    /** Close the proposal, or start its contest window: decision, proposal and change in one commit. */
    method Resolve(ghost s: State, r: Rkey, p: Proposal, counted: Proposal, tally: map<Did, VoteRow>, ghost t: map<Did, VoteRow>,
                   outcome: Outcome, id: nat)
        returns (status: Status)
      requires s.records == records && s.clock == clock && (p.evidence ==> tally == t)
      modifies this`records, this`log
      ensures var c := ResolutionCommit(s, r, p, counted, t, outcome, id);
        records == ApplyCommit(s.records, c) && log == old(log) + [c]
      ensures status == ResolvedStatusOf(s, r, p, counted, t, outcome, id)
    {
      var settings := SettingsOf(records);
      var overrideRound := p.status == Override;
      var decision: Option<DecisionRef> := None;
      var decisionWrite: Option<Op> := None;
      if p.evidence {
        var ref;
        ref, decisionWrite := PrepareDecision(s, r, p, counted, tally, outcome, id);
        decision := Some(ref);
      }
      var updated := counted.(status := Decided(outcome), resolvedAt := Some(clock));
      if decision.Some? { updated := updated.(decision := decision); }
      var window: Option<Time> := None;
      if outcome == Approved && decision.Some? && !overrideRound { window := WindowEnd(settings, clock); }
      if overrideRound && outcome == Approved { updated := updated.(roundOutcome := Some(Carried)); }
      if window.Some? { updated := updated.(status := Pending, applyAt := window); }
      var change: Option<Op> := None;
      if outcome == Approved && window.None? && !Unapplicable(records, p) {
        change := ChangeOp(records, p, id + 2);
        if overrideRound { updated := updated.(appliedAt := Some(clock)); }
      }
      assert (decision, decisionWrite) == DecisionFor(s, r, p, counted, t, outcome, id);
      assert updated == Resolved(s, p, counted, outcome, decision);
      status := updated.status;
      ApplyWrites(Commit(decisionWrite, Some(PutProposal(records, r, updated, id + 1)), change));
    }

    // ── voteOnProposal ──────────────────────────────────────────────

    /** Everyone this vote counts, and the proposal with them on its list. */
    method GatherVotes(p: Proposal, voter: Did, side: Side, repos: Repos)
        returns (names: seq<Did>, counted: Proposal, ghost order: seq<Rkey>, delegations: nat)
      ensures ListsDelegations(records, order, voter) && delegations == |order| && |names| <= 1 + delegations
      ensures names == NewNames(p, voter, DelegationRows(records, order), repos)
      ensures counted == WithVotes(p, side, names)
    {
      var rows;
      rows, order := DelegationsTo(voter);
      var newFor, newAgainst, inputs := CountDelegations(rows, voter, side, p.votesFor, p.votesAgainst, p.evidence, repos);
      counted := p.(votesFor := newFor, votesAgainst := newAgainst);
      names := seq(|inputs|, n requires 0 <= n < |inputs| => inputs[n].voter);
      delegations := |rows|;
      RowsAreMany(records, order, voter);
      AddedIsShort(rows, Members(p.votesFor) + Members(p.votesAgainst) + {voter}, p.evidence, repos);
      assert names == NewNames(p, voter, rows, repos);
    }

    /** The handler's locked part past its gates: count, record, tally, decide, commit. */
    method CountVote(ghost s: State, r: Rkey, p: Proposal, voter: Did, side: Side, repos: Repos, lost: set<Did>)
        returns (reply: Reply, ghost order: seq<Rkey>)
      requires s == Contents() && Valid() && Lookup(records, r) == Some(p)
      modifies this`records, this`log, this`votes, this`next
      ensures Valid()
      ensures ListsDelegations(s.records, order, voter)
      ensures var plan := CastPlan(s, r, p, voter, side, DelegationRows(s.records, order), repos, lost);
        && plan.commit.Some?
        && votes == s.votes + AsSet(plan.votes)
        && records == ApplyCommit(s.records, plan.commit.value) && log == s.log + [plan.commit.value]
        && next == s.next + 4 + |order|
        && reply == ReplyOf(plan)
    {
      hide NewNames;
      hide VoteRows;
      hide TallyOf;
      hide Ruling;
      hide ListsDelegations;
      hide DelegationRows;
      hide Lineage;
      hide DecisionFor;
      hide Resolved;
      hide ChangeOp;
      var names, counted, delegations;
      names, counted, order, delegations := GatherVotes(p, voter, side, repos);
      var id, current := next, records[ProposalKey(r)].cid;
      var written := WriteVoteRecords(names, side, r, current, id, lost + repos.missing);
      next := next + 4 + delegations;
      var outcome, deferred, tally := Decide(r, p, counted, current);
      if outcome.Some? {
        var status := Resolve(s, r, p, counted, tally, TallyOf(votes, r, counted, current), outcome.value, id + |names|);
        reply := Recorded(status);
      } else {
        ApplyWrites(Commit(None, Some(PutProposal(records, r, counted, id + |names| + 1)), None));
        reply := Recorded(counted.status);
      }
    }

    /** The handler under the proposal's lock. */
    method CastVote(r: Rkey, voter: Did, side: Side, repos: Repos, lost: set<Did>) returns (reply: Reply, ghost order: seq<Rkey>)
      requires Valid()
      modifies this
      ensures Valid()
      ensures var e := Vote(r, voter, side, order, repos, lost, 1 + |order| + ALL_WRITES);
        Contents() == Next(old(Contents()), e) && reply == VoteReply(old(Contents()), e)
    {
      hide PlanOf;
      hide Next;
      hide CastPlan;
      ghost var s := Contents();
      reply, order := Refused, [];
      var stored := Lookup(records, r);
      if stored.None? {
        Nothing(s, Vote(r, voter, side, order, repos, lost, 1 + |order| + ALL_WRITES));
        next := next + 4;
        return;
      }
      var proposal := stored.value;
      var overrideRound := proposal.status == Override;
      var open := true;
      if proposal.status != Open && !overrideRound { open := false; }
      else if overrideRound && (proposal.round.None? || clock >= proposal.round.value.expiresAt) { open := false; }
      else if !overrideRound && proposal.expiresAt < clock {
        VoteExpires(s, Vote(r, voter, side, order, repos, lost, 1 + |order| + ALL_WRITES), proposal);
        ApplyWrites(Commit(None, Some(PutProposal(records, r, proposal.(status := Expired, resolvedAt := Some(clock)), next)), None));
        next := next + 4;
        return;
      }
      else if voter in proposal.votesFor || voter in proposal.votesAgainst { open := false; }
      else if proposal.evidence && CheckRepo(repos, voter) != CanRecord { open := false; }
      if !open {
        VoteRefused(s, Vote(r, voter, side, order, repos, lost, 1 + |order| + ALL_WRITES), proposal);
        next := next + 4;
        return;
      }
      reply, order := CountVote(s, r, proposal, voter, side, repos, lost);
      VoteCounts(s, Vote(r, voter, side, order, repos, lost, 1 + |order| + ALL_WRITES), proposal);
    }

    // ── objectToProposal and the sweeps ─────────────────────────────

    /** `heldProposalState`: final, or the opening of the override round. */
    method HeldProposalState(p: Proposal, objectors: set<Did>, electorate: nat) returns (held: Proposal)
      ensures held == Held(Contents(), p, objectors, electorate)
    {
      var settings := SettingsOf(records);
      if HoldIsFinal(settings) { return p.(status := Objected, objectors := objectors); }
      var quorum := OverrideBar(settings, QuorumOf(settings), electorate);
      var expiresAt := OverrideExpiresAt(clock, OverrideDaysOf(settings));
      held := p.(status := Override, objectors := objectors, votesFor := [], votesAgainst := [],
                 round := Some(Round(clock, expiresAt, quorum, electorate)));
    }

    /** The handler under the proposal's lock. */
    method CastObjection(r: Rkey, objector: Did, repos: Repos, electorate: nat) returns (reply: Reply)
      requires Valid()
      modifies this
      ensures Valid() && Contents() == Next(old(Contents()), Object(r, objector, repos, electorate, ALL_WRITES))
    {
      hide Next;
      hide Held;
      hide Lineage;
      hide PlanOf;
      hide Objectors;
      ghost var s, e := Contents(), Object(r, objector, repos, electorate, ALL_WRITES);
      var id := next;
      reply, next := Refused, next + 4;
      var stored := Lookup(records, r);
      if stored.None? || !MayObject(stored.value, clock) { ObjectRefused(s, e); return; }
      var proposal := stored.value;
      var standing := CountableObjections(r, proposal);
      if objector in standing || objector in proposal.objectors { ObjectRefused(s, e); return; }
      if CheckRepo(repos, objector) != CanRecord { ObjectRefused(s, e); return; }
      var row := ObjectionRow(objector, id, r, true, proposal.decision.value.rkey, proposal.decision.value.cid, Some(clock));
      objections := objections + {row};
      var recounted := CountableObjections(r, proposal);
      ObjectCounts(s, e, proposal, row);
      reply := Recorded(Pending);
      var threshold := ObjectionThresholdOf(SettingsOf(records));
      if |recounted| >= threshold {
        var held := HeldProposalState(proposal, recounted, electorate);
        SameHold(s, Contents(), proposal, recounted, electorate);
        ApplyWrites(Commit(None, Some(PutProposal(records, r, held, id + 1)), None));
        reply := Recorded(held.status);
      }
    }

    /** `applyIfDue`, for one proposal; `fails` when the sweep's attempt at it raises. */
    method ApplyIfDue(r: Rkey, electorate: nat, fails: bool)
      requires Valid()
      modifies this
      ensures Valid() && Contents() == Next(old(Contents()), ApplyDue(r, electorate, if fails then 0 else ALL_WRITES))
    {
      hide Next;
      hide Held;
      hide Lineage;
      hide ChangeOp;
      hide Unapplicable;
      ghost var s, e := Contents(), ApplyDue(r, electorate, if fails then 0 else ALL_WRITES);
      var id := next;
      next := next + 4;
      if fails { Failed(s, e); return; }
      var stored := Lookup(records, r);
      if stored.None? || stored.value.status != Pending { Completed(s, e, NOTHING); return; }
      var proposal := stored.value;
      if proposal.applyAt.None? || clock < proposal.applyAt.value { Completed(s, e, NOTHING); return; }
      var standing := CountableObjections(r, proposal);
      if |standing| >= ObjectionThresholdOf(SettingsOf(records)) {
        var held := HeldProposalState(proposal, standing, electorate);
        SameHold(s, Contents(), proposal, standing, electorate);
        Completed(s, e, Only(Rewrite(s, r, held, id)));
        ApplyWrites(Commit(None, Some(PutProposal(records, r, held, id)), None));
        return;
      }
      if Unapplicable(records, proposal) {
        Completed(s, e, Only(Rewrite(s, r, proposal.(status := Decided(Approved)), id)));
        ApplyWrites(Commit(None, Some(PutProposal(records, r, proposal.(status := Decided(Approved)), id)), None));
        return;
      }
      var applied := proposal.(status := Decided(Approved), appliedAt := Some(clock));
      var change := ChangeOp(records, proposal, id + 1);
      Completed(s, e, Only(Commit(None, Some(PutProposal(records, r, applied, id)), change)));
      ApplyWrites(Commit(None, Some(PutProposal(records, r, applied, id)), change));
    }

    method CloseExpiredOverride(r: Rkey, fails: bool)
      requires Valid()
      modifies this
      ensures Valid() && Contents() == Next(old(Contents()), CloseOverride(r, if fails then 0 else ALL_WRITES))
    {
      hide Next;
      hide Lineage;
      ghost var s, e := Contents(), CloseOverride(r, if fails then 0 else ALL_WRITES);
      var id := next;
      next := next + 4;
      if fails { Failed(s, e); return; }
      var stored := Lookup(records, r);
      if stored.None? || !RoundOver(stored.value, clock) { Completed(s, e, NOTHING); return; }
      var closed := stored.value.(status := Decided(Rejected), resolvedAt := Some(clock), roundOutcome := Some(Lapsed));
      Completed(s, e, Only(Rewrite(s, r, closed, id)));
      ApplyWrites(Commit(None, Some(PutProposal(records, r, closed, id)), None));
    }

    static method Smallest(keys: set<Rkey>) returns (k: Rkey)
      requires keys != {}
      ensures k in keys && forall j | j in keys :: k <= j
    {
      var x :| x in keys;
      HasMinimum(keys, x);
      k :| k in keys && forall j | j in keys :: k <= j;
    }

    /** The keys of a sweep's query, in ascending order. */
    static method Ascending(keys: set<Rkey>) returns (sorted: seq<Rkey>)
      ensures forall k :: k in sorted <==> k in keys
      ensures forall i, j | 0 <= i < j < |sorted| :: sorted[i] < sorted[j]
    {
      sorted := [];
      var left := keys;
      while left != {}
        invariant left <= keys && forall k :: k in sorted <==> k in keys - left
        invariant forall k, j | k in sorted && j in left :: k < j
        invariant forall i, j | 0 <= i < j < |sorted| :: sorted[i] < sorted[j]
        decreases |left|
      {
        var k := Smallest(left);
        forall i | 0 <= i < |sorted| ensures sorted[i] < k { assert sorted[i] in sorted; }
        left := left - {k};
        sorted := sorted + [k];
      }
    }

    /** `applyDueProposals`: every due proposal, by record key, one failing sweep not stopping the next. */
    method ApplyDueProposals(electorate: nat, failing: set<Rkey>) returns (ghost due: seq<Rkey>)
      requires Valid()
      modifies this
      ensures Valid() && Contents() == Sweep(old(Contents()), ApplyEvents(due, electorate, failing))
      ensures forall r :: r in due <==> Lookup(old(records), r).Some? && IsDue(Lookup(old(records), r).value, old(clock))
      ensures forall i, j | 0 <= i < j < |due| :: due[i] < due[j]
    {
      hide Next;
      hide Sweep;
      var keys := Ascending(DueSet(records, clock));
      due := keys;
      SweptKeys(records, clock);
      ghost var s := Contents();
      SweepNothing(s);
      assert ApplyEvents(keys[..0], electorate, failing) == [];
      for n := 0 to |keys|
        invariant Valid()
        invariant Contents() == Sweep(s, ApplyEvents(keys[..n], electorate, failing))
      {
        SweepOne(s, ApplyEvents(keys[..n], electorate, failing),
          ApplyDue(keys[n], electorate, if keys[n] in failing then 0 else ALL_WRITES));
        assert ApplyEvents(keys[..n + 1], electorate, failing) == ApplyEvents(keys[..n], electorate, failing)
          + [ApplyDue(keys[n], electorate, if keys[n] in failing then 0 else ALL_WRITES)];
        ApplyIfDue(keys[n], electorate, keys[n] in failing);
      }
      assert keys[..|keys|] == keys;
    }

    method CloseExpiredOverrides(failing: set<Rkey>) returns (ghost over: seq<Rkey>)
      requires Valid()
      modifies this
      ensures Valid() && Contents() == Sweep(old(Contents()), CloseEvents(over, failing))
      ensures forall r :: r in over <==> Lookup(old(records), r).Some? && RoundOver(Lookup(old(records), r).value, old(clock))
    {
      hide Next;
      hide Sweep;
      var keys := Ascending(OverSet(records, clock));
      over := keys;
      SweptKeys(records, clock);
      ghost var s := Contents();
      SweepNothing(s);
      assert CloseEvents(keys[..0], failing) == [];
      for n := 0 to |keys|
        invariant Valid()
        invariant Contents() == Sweep(s, CloseEvents(keys[..n], failing))
      {
        SweepOne(s, CloseEvents(keys[..n], failing), CloseOverride(keys[n], if keys[n] in failing then 0 else ALL_WRITES));
        assert CloseEvents(keys[..n + 1], failing) == CloseEvents(keys[..n], failing)
          + [CloseOverride(keys[n], if keys[n] in failing then 0 else ALL_WRITES)];
        CloseExpiredOverride(keys[n], keys[n] in failing);
      }
      assert keys[..|keys|] == keys;
    }

    // ── createProposal, amendProposal, setDelegation, getProposal ───

    method CreateProposal(proposer: Did, target: Key, action: Action, proposed: Option<Record>, repos: Repos, lost: set<Did>)
        returns (rkey: Option<Rkey>)
      requires Valid()
      modifies this
      ensures Valid() && Contents() == Next(old(Contents()), Create(proposer, target, action, proposed, repos, lost, ALL_WRITES))
      ensures rkey.Some? ==> Lookup(records, rkey.value).Some? && Lookup(records, rkey.value).value.status == Open
    {
      hide Next;
      hide PlanOf;
      ghost var s, e := Contents(), Create(proposer, target, action, proposed, repos, lost, ALL_WRITES);
      var id := next;
      rkey, next := None, next + 4;
      if action == Write && proposed.None? { CreateRefused(s, e); return; }
      if target.collection == SettingsRecords && action == Write && !SettingsSound(proposed.value) { CreateRefused(s, e); return; }
      var settings := SettingsOf(records);
      if !VotingModel(settings) { CreateRefused(s, e); return; }
      var check := CheckRepo(repos, proposer);
      if check == CheckFailed { CreateRefused(s, e); return; }
      var seedVote := check == CanRecord;
      var record := Proposal(target, action, proposed, proposer, Open, if seedVote then [proposer] else [], [],
        clock, DecisionRules.After(clock, TtlDays(settings) * DAY_MS), None, true, [], [], None, None, None, {}, None, None);
      var put := Put(ProposalKey(id), ProposalRecord(record), id + 1);
      var seed := NewVoteRow(proposer, For, id, id + 1, clock, id + 2);
      Created(s, e);
      ApplyWrites(Commit(None, Some(put), None));
      if seedVote && proposer !in lost { votes := votes + {seed}; }
      rkey := Some(id);
    }

    /** The read half of amending: nothing locks the proposal until the write. */
    method ReadForAmendment(pid: Pid, r: Rkey, editor: Did, amended: Record) returns (ok: bool)
      requires Valid()
      modifies this`drafts, this`next
      ensures Valid() && Contents() == Next(old(Contents()), AmendRead(pid, r, editor, amended))
      ensures ok <==> Lookup(records, r).Some? && Lookup(records, r).value.status == Open
    {
      hide Next;
      ghost var s, e := Contents(), AmendRead(pid, r, editor, amended);
      AmendingReads(s, e);
      next := next + 4;
      var stored := Lookup(records, r);
      ok := stored.Some? && stored.value.status == Open;
      if ok {
        var p := stored.value;
        var draft := p.(proposed := Some(amended), votesFor := [], votesAgainst := [],
                        expiresAt := DecisionRules.After(clock, TtlDays(SettingsOf(records)) * DAY_MS),
                        amendments := p.amendments + [Amendment(editor, p.proposed, clock)]);
        drafts := drafts[pid := Draft(r, draft)];
      }
    }

    method WriteAmendment(pid: Pid)
      requires Valid()
      modifies this`drafts, this`next, this`records, this`log
      ensures Valid() && Contents() == Next(old(Contents()), AmendWrite(pid))
    {
      hide Next;
      hide Lineage;
      ghost var s, e := Contents(), AmendWrite(pid);
      AmendingWrites(s, e);
      var id := next;
      next := next + 4;
      if pid in drafts {
        ApplyWrites(Commit(None, Some(PutProposal(records, drafts[pid].rkey, drafts[pid].proposal, id)), None));
        drafts := drafts - {pid};
      }
    }

    /** Replace, then insert: two commits, the old delegation's delete and the new one's write. */
    method SetDelegation(delegator: Did, delegate: Did) returns (ok: bool, ghost dropped: Option<Rkey>)
      requires Valid()
      modifies this
      ensures Valid() && (ok <==> delegate != delegator)
      ensures !ok ==> Contents() == old(Contents())
      ensures ok && dropped.Some? ==> DelegatesFrom(old(records), Key(Delegations, dropped.value), delegator)
      ensures ok && dropped.None? ==> forall k | k in old(records) && k.collection == Delegations :: !DelegatesFrom(old(records), k, delegator)
      ensures ok ==> Contents() == Next(if dropped.Some? then Next(old(Contents()), DropDelegation(delegator, dropped.value))
                                        else old(Contents()), PutDelegation(delegator, delegate))
    {
      hide Next;
      hide ApplyCommit;
      ok, dropped := delegate != delegator, None;
      if !ok { return; }
      ghost var s := Contents();
      var existing := Rows(set k | k in records && k.collection == Delegations && DelegatesFrom(records, k, delegator) :: k.rkey);
      ExistingDelegations(records, delegator, existing);
      if |existing| > 0 {
        var k := existing[0];
        dropped := Some(k);
        assert k in existing;
        ChangesOnly(s, DropDelegation(delegator, k), Remove(Key(Delegations, k)));
        ApplyWrites(Commit(None, None, Some(Remove(Key(Delegations, k)))));
        next := next + 4;
      }
      ghost var t := Contents();
      var put := Put(Key(Delegations, next), DelegationRecord(Some(delegator), delegate), next);
      ChangesOnly(t, PutDelegation(delegator, delegate), put);
      ApplyWrites(Commit(None, None, Some(put)));
      next := next + 4;
    }

    /** The read applies or closes its own proposal first, and reports the objections a hold is forming from. */
    method GetProposal(r: Rkey, electorate: nat, applyFails: bool, closeFails: bool)
        returns (p: Option<Proposal>, standing: set<Did>)
      requires Valid()
      modifies this
      ensures Valid() && p == Lookup(records, r)
      ensures standing == if p.Some? && p.value.status == Pending then Objectors(objections, r, p.value) else {}
      ensures Contents() == Next(Next(old(Contents()), ApplyDue(r, electorate, if applyFails then 0 else ALL_WRITES)),
                                 CloseOverride(r, if closeFails then 0 else ALL_WRITES))
    {
      hide Next;
      ApplyIfDue(r, electorate, applyFails);
      CloseExpiredOverride(r, closeFails);
      p := Lookup(records, r);
      standing := {};
      if p.Some? && p.value.status == Pending { standing := CountableObjections(r, p.value); }
    }

    method VoteOnProposal(r: Rkey, voter: Did, side: Side, repos: Repos, lost: set<Did>, electorate: nat, failing: set<Rkey>)
        returns (reply: Reply, ghost due: seq<Rkey>, ghost over: seq<Rkey>, ghost order: seq<Rkey>)
      requires Valid()
      modifies this
      ensures Valid()
      ensures var swept := Sweep(Sweep(old(Contents()), ApplyEvents(due, electorate, failing)), CloseEvents(over, failing));
        var e := Vote(r, voter, side, order, repos, lost, 1 + |order| + ALL_WRITES);
        Contents() == Next(swept, e) && reply == VoteReply(swept, e)
    {
      hide Next;
      hide Sweep;
      hide VoteReply;
      due := ApplyDueProposals(electorate, failing);
      over := CloseExpiredOverrides(failing);
      reply, order := CastVote(r, voter, side, repos, lost);
    }

    method ObjectToProposal(r: Rkey, objector: Did, repos: Repos, electorate: nat, failing: set<Rkey>)
        returns (reply: Reply, ghost due: seq<Rkey>, ghost over: seq<Rkey>)
      requires Valid()
      modifies this
      ensures Valid()
      ensures Contents() == Next(Sweep(Sweep(old(Contents()), ApplyEvents(due, electorate, failing)), CloseEvents(over, failing)),
                                 Object(r, objector, repos, electorate, ALL_WRITES))
    {
      hide Next;
      hide Sweep;
      due := ApplyDueProposals(electorate, failing);
      over := CloseExpiredOverrides(failing);
      reply := CastObjection(r, objector, repos, electorate);
    }
  }

  ghost function ResolvedStatusOf(s: State, r: Rkey, p: Proposal, counted: Proposal, t: map<Did, VoteRow>, outcome: Outcome, id: nat): Status {
    Resolved(s, p, counted, outcome, DecisionFor(s, r, p, counted, t, outcome, id).0).status
  }
}
