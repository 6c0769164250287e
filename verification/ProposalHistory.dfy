/**
 What the history of a run says about a stored proposal: statuses are never
 re-entered, a change is applied at most once, and every counted name got there by
 a vote.
 */
module ProposalHistory {
  import opened Wrappers
  import opened DecisionRules
  import opened VoteTally
  import opened DelegationLoop
  import opened ProposalRecords
  import opened ProposalMachine
  import opened ProposalEvolution

  /** A status once left is never entered again: at most one hold, one override round, one close. */
  lemma StatusNeverReturns(states: seq<State>, es: seq<Event>, i: nat, j: nat, k: nat, r: Rkey)
    requires PlainRun(states, es) && BookKept(states[0]) && i <= j <= k < |states| && AmendedOpen(states, es, i, k, r)
    requires Lookup(states[i].records, r).Some? && Lookup(states[k].records, r).Some?
    requires Lookup(states[i].records, r).value.status == Lookup(states[k].records, r).value.status
    ensures Lookup(states[j].records, r).Some?
    ensures Lookup(states[j].records, r).value.status == Lookup(states[i].records, r).value.status
  {
    ProposalsAdvance(states, es, i, j, r);
    ProposalsAdvance(states, es, j, k, r);
  }

  /** The event's commit both rewrites proposal `r` and makes a change. */
  ghost predicate Applies(s: State, e: Event, r: Rkey) {
    Done(s, e).commit.Some? && Done(s, e).commit.value.change.Some? && PutBy(Done(s, e).commit.value, r).Some?
  }

  lemma ApplyingCloses(s: State, e: Event, r: Rkey)
    requires BookKept(s) && Plain(s, e) && Applies(s, e, r)
    ensures Lookup(s.records, r).Some? && !Closed(Lookup(s.records, r).value.status)
    ensures Lookup(Next(s, e).records, r).Some? && Closed(Lookup(Next(s, e).records, r).value.status)
  {
    DoneIsProper(s, e);
    ProperCommitStores(s, Done(s, e).commit.value, r);
    ApplyingPutsClosed(s, e, r);
  }

  lemma ApplyingPutsClosed(s: State, e: Event, r: Rkey)
    requires var c := PlanOf(s, e).commit; c.Some? && c.value.change.Some? && PutBy(c.value, r).Some?
    ensures Lookup(s.records, r).Some? && !Closed(Lookup(s.records, r).value.status)
    ensures PutBy(PlanOf(s, e).commit.value, r).value.status == Decided(Approved)
  {
    hide CastPlan;
    hide ChangeOp;
    hide Unapplicable;
    hide Lineage;
    hide Objectors;
    match e
    case Vote(r', voter, side, order, repos, lost, _) =>
      CastPutsOnly(s, r', Lookup(s.records, r').value, voter, side, DelegationRows(s.records, order), repos, lost);
    case _ =>
  }

  lemma CastPutsOnly(s: State, r: Rkey, p: Proposal, voter: Did, side: Side, rows: seq<DelegationRow>, repos: Repos, lost: set<Did>)
    requires ProposalKey(r) in s.records
    ensures var c := CastPlan(s, r, p, voter, side, rows, repos, lost).commit.value;
      && (forall r' | PutBy(c, r').Some? :: r' == r)
      && (c.change.Some? ==> PutBy(c, r).Some? && PutBy(c, r).value.status == Decided(Approved))
  {
  }

  /** A pending change is made only by a sweep, once its window has ended with too few objections standing. */
  lemma PendingStepWaits(s: State, e: Event, r: Rkey)
    requires Applies(s, e, r) && Lookup(s.records, r).Some? && Lookup(s.records, r).value.status == Pending
    ensures var p := Lookup(s.records, r).value;
      && e.ApplyDue? && p.applyAt.Some? && p.applyAt.value <= s.clock
      && |Objectors(s.objections, r, p)| < ObjectionThresholdOf(SettingsOf(s.records))
  {
    hide ChangeOp;
    hide Unapplicable;
    hide Lineage;
    hide Objectors;
    if e.Vote? {
      ApplyingPutsClosed(s, e, r);
      VoteAppliesItsOwn(s, e, r);
    }
  }

  lemma VoteAppliesItsOwn(s: State, e: Event, r: Rkey)
    requires e.Vote? && Applies(s, e, r)
    ensures e.rkey == r && Lookup(s.records, r).Some? && Lookup(s.records, r).value.status != Pending
  {
    if Lookup(s.records, e.rkey).Some? {
      CastPutsOnly(s, e.rkey, Lookup(s.records, e.rkey).value, e.voter, e.side, DelegationRows(s.records, e.order), e.repos, e.lost);
    }
  }

  /** A commit that rewrites proposal `r` together with a change. */
  predicate MakesChange(c: Commit, r: Rkey) { c.change.Some? && PutBy(c, r).Some? }

  /** Whatever a logged commit applied is closed, and was applied by that commit alone. */
  ghost predicate AppliedOnce(s: State, r: Rkey) {
    && (forall i | 0 <= i < |s.log| && MakesChange(s.log[i], r) ::
          Lookup(s.records, r).Some? && Closed(Lookup(s.records, r).value.status))
    && (forall i, j | 0 <= i < j < |s.log| && MakesChange(s.log[i], r) :: !MakesChange(s.log[j], r))
  }

  lemma AppliedOnceNext(s: State, e: Event, r: Rkey)
    requires BookKept(s) && Plain(s, e) && AppliedOnce(s, r)
    requires Amends(s, e, r) ==> Lookup(s.records, r).Some? && Lookup(s.records, r).value.status == Open
    ensures AppliedOnce(Next(s, e), r)
  {
    hide PlanOf;
    hide Prefix;
    if Lookup(s.records, r).Some? { StepEvolves(s, e, r); }
    if Applies(s, e, r) { ApplyingCloses(s, e, r); }
  }

  /** No two commits of a run make one proposal's change. */
  lemma {:induction false} AppliedAtMostOnce(states: seq<State>, es: seq<Event>, n: nat, r: Rkey)
    requires PlainRun(states, es) && BookKept(states[0]) && states[0].log == [] && n < |states| && AmendedOpen(states, es, 0, n, r)
    ensures AppliedOnce(states[n], r)
    decreases n
  {
    hide Next;
    hide Plain;
    hide BookKept;
    if n > 0 {
      AppliedAtMostOnce(states, es, n - 1, r);
      BookKeptRun(states, es, n - 1);
      StepOf(states, es, n - 1);
      assert OpenAt(states, es, n - 1, r);
      AppliedOnceNext(states[n - 1], es[n - 1], r);
    }
  }

  // ── Who is on the vote lists ──────────────────────────────────────

  function Names(p: Proposal, side: Side): seq<Did> {
    match side
    case For => p.votesFor
    case Against => p.votesAgainst
  }

  /** Nobody is listed twice, on one side or on both. */
  ghost predicate ListsSound(p: Proposal) {
    NoRepeats(p.votesFor) && NoRepeats(p.votesAgainst) && Members(p.votesFor) !! Members(p.votesAgainst)
  }

  lemma NewNamesAreNew(p: Proposal, voter: Did, rows: seq<DelegationRow>, repos: Repos)
    requires voter !in p.votesFor && voter !in p.votesAgainst
    ensures NoRepeats(NewNames(p, voter, rows, repos))
    ensures forall d | d in NewNames(p, voter, rows, repos) :: d !in p.votesFor && d !in p.votesAgainst
  {
    var already := (set d | d in p.votesFor) + (set d | d in p.votesAgainst) + {voter};
    var added := Added(rows, already, p.evidence, repos);
    AddedExactly(rows, already, p.evidence, repos);
    forall d | d in added ensures d !in already {
      assert d in Members(added);
    }
  }

  lemma AppendNoRepeats(a: seq<Did>, b: seq<Did>)
    requires NoRepeats(a) && NoRepeats(b) && forall d | d in b :: d !in a
    ensures NoRepeats(a + b)
  {
    forall i, j | 0 <= i < j < |a + b| ensures (a + b)[i] != (a + b)[j] {
      if j >= |a| {
        assert b[j - |a|] in b;
        if i >= |a| { assert b[i - |a|] != b[j - |a|]; }
      }
    }
  }

  lemma AppendKeepsSound(p: Proposal, side: Side, names: seq<Did>)
    requires ListsSound(p) && NoRepeats(names)
    requires forall d | d in names :: d !in p.votesFor && d !in p.votesAgainst
    ensures ListsSound(WithVotes(p, side, names))
  {
    var q := WithVotes(p, side, names);
    AppendNoRepeats(Names(p, side), names);
    forall d | d in Members(q.votesFor) ensures d !in Members(q.votesAgainst) {
      assert d in p.votesFor ==> d in Members(p.votesFor);
      assert d in p.votesAgainst ==> d in Members(p.votesAgainst);
    }
  }

  /** How an event may have changed a proposal's lists. */
  ghost predicate ListsStep(s: State, e: Event, r: Rkey, q: Proposal) {
    || (q.votesFor == [] && q.votesAgainst == [])
    || (Lookup(s.records, r).Some?
        && q.votesFor == Lookup(s.records, r).value.votesFor && q.votesAgainst == Lookup(s.records, r).value.votesAgainst)
    || (e.Create? && r == s.next && q.votesFor == [e.proposer] && q.votesAgainst == [] && CheckRepo(e.repos, e.proposer) == CanRecord)
    || (e.Vote? && e.rkey == r && Lookup(s.records, r).Some? && ListsDelegations(s.records, e.order, e.voter)
        && var p := Lookup(s.records, r).value;
           && VoteGate(p, s.clock, e.voter, e.repos) == Accept
           && var w := WithVotes(p, e.side, NewNames(p, e.voter, DelegationRows(s.records, e.order), e.repos));
              q.votesFor == w.votesFor && q.votesAgainst == w.votesAgainst)
  }

  lemma CastLists(s: State, r: Rkey, p: Proposal, voter: Did, side: Side, rows: seq<DelegationRow>, repos: Repos, lost: set<Did>)
    requires ProposalKey(r) in s.records
    ensures var c := CastPlan(s, r, p, voter, side, rows, repos, lost).commit.value;
      var w := WithVotes(p, side, NewNames(p, voter, rows, repos));
      && PutBy(c, r).Some? && PutBy(c, r).value.votesFor == w.votesFor && PutBy(c, r).value.votesAgainst == w.votesAgainst
      && forall r' | r' != r :: PutBy(c, r').None?
  {
  }

  lemma PutLists(s: State, e: Event, r: Rkey)
    requires DraftsEmpty(s) && PlanOf(s, e).commit.Some? && PutBy(PlanOf(s, e).commit.value, r).Some?
    ensures ListsStep(s, e, r, PutBy(PlanOf(s, e).commit.value, r).value)
  {
    hide CastPlan;
    hide ChangeOp;
    hide Unapplicable;
    hide Lineage;
    hide Objectors;
    hide NewNames;
    hide VoteGate;
    hide DelegationRows;
    hide ListsDelegations;
    hide OverrideBar;
    hide OverrideExpiresAt;
    match e
    case Vote(r', voter, side, order, repos, lost, _) =>
      var p := Lookup(s.records, r').value;
      if VoteGate(p, s.clock, voter, repos) == Accept {
        CastLists(s, r', p, voter, side, DelegationRows(s.records, order), repos, lost);
      }
    case _ =>
  }

  /** Drafts hold amended proposals, whose lists are empty. */
  ghost predicate DraftsEmpty(s: State) {
    forall pid | pid in s.drafts :: s.drafts[pid].proposal.votesFor == [] && s.drafts[pid].proposal.votesAgainst == []
  }

  lemma DraftsStayEmpty(s: State, e: Event)
    requires DraftsEmpty(s)
    ensures DraftsEmpty(Next(s, e))
  {
  }

  lemma StoredLists(s: State, e: Event, r: Rkey)
    requires BookKept(s) && Plain(s, e) && DraftsEmpty(s) && Lookup(Next(s, e).records, r).Some?
    ensures ListsStep(s, e, r, Lookup(Next(s, e).records, r).value)
  {
    DoneIsProper(s, e);
    if Done(s, e).commit.Some? {
      ProperCommitStores(s, Done(s, e).commit.value, r);
      if PutBy(Done(s, e).commit.value, r).Some? { PutLists(s, e, r); }
    }
  }

  lemma SoundStep(s: State, e: Event, r: Rkey, q: Proposal)
    requires ListsStep(s, e, r, q)
    requires Lookup(s.records, r).Some? ==> ListsSound(Lookup(s.records, r).value)
    ensures ListsSound(q)
  {
    if e.Vote? && Lookup(s.records, r).Some? {
      var p := Lookup(s.records, r).value;
      if VoteGate(p, s.clock, e.voter, e.repos) == Accept {
        var names := NewNames(p, e.voter, DelegationRows(s.records, e.order), e.repos);
        NewNamesAreNew(p, e.voter, DelegationRows(s.records, e.order), e.repos);
        AppendKeepsSound(p, e.side, names);
      }
    }
  }

  ghost predicate AllListsSound(s: State) {
    forall r | Lookup(s.records, r).Some? :: ListsSound(Lookup(s.records, r).value)
  }

  lemma ListsSoundNext(s: State, e: Event)
    requires BookKept(s) && Plain(s, e) && DraftsEmpty(s) && AllListsSound(s)
    ensures AllListsSound(Next(s, e)) && DraftsEmpty(Next(s, e))
  {
    hide Next;
    hide Plain;
    DraftsStayEmpty(s, e);
    forall r | Lookup(Next(s, e).records, r).Some? ensures ListsSound(Lookup(Next(s, e).records, r).value) {
      StoredLists(s, e, r);
      SoundStep(s, e, r, Lookup(Next(s, e).records, r).value);
    }
  }

  /** At every point of a run, no name is listed twice. */
  lemma {:induction false} ListsStaySound(states: seq<State>, es: seq<Event>, n: nat)
    requires PlainRun(states, es) && BookKept(states[0]) && DraftsEmpty(states[0]) && AllListsSound(states[0]) && n < |states|
    ensures AllListsSound(states[n]) && DraftsEmpty(states[n])
    decreases n
  {
    hide Next;
    hide Plain;
    hide BookKept;
    hide DraftsEmpty;
    hide AllListsSound;
    if n > 0 {
      ListsStaySound(states, es, n - 1);
      BookKeptRun(states, es, n - 1);
      StepOf(states, es, n - 1);
      ListsSoundNext(states[n - 1], es[n - 1]);
    }
  }

  // ── Provenance ────────────────────────────────────────────────────

  ghost predicate Listed(s: State, r: Rkey, side: Side, d: Did) {
    Lookup(s.records, r).Some? && d in Names(Lookup(s.records, r).value, side)
  }

  /** Some delegation record on file names `delegate` for `delegator`. */
  ghost predicate Delegated(records: Records, delegator: Did, delegate: Did) {
    exists k :: DelegatesFrom(records, k, delegator) && records[k].record.delegate == delegate
  }

  /** This event is `d` voting `side` on `r`: as its seeded proposer, directly, or through a delegate. */
  ghost predicate CastBy(s: State, e: Event, r: Rkey, side: Side, d: Did) {
    || (e.Create? && r == s.next && side == For && d == e.proposer)
    || (e.Vote? && e.rkey == r && e.side == side && (d == e.voter || Delegated(s.records, d, e.voter)))
  }

  lemma {:induction false} RowsComeFromRecords(records: Records, order: seq<Rkey>, row: DelegationRow, d: Did)
    requires row in DelegationRows(records, order) && row.delegator == Some(d)
    ensures exists k :: k in order && DelegatesFrom(records, Key(Delegations, k), d)
    decreases |order|
  {
    if row in DelegationRows(records, order[1..]) {
      RowsComeFromRecords(records, order[1..], row, d);
      var k :| k in order[1..] && DelegatesFrom(records, Key(Delegations, k), d);
      assert k in order;
    } else {
      assert DelegatesFrom(records, Key(Delegations, order[0]), d);
    }
  }

  lemma NewNameIsCast(s: State, e: Event, r: Rkey, p: Proposal, d: Did)
    requires e.Vote? && e.rkey == r && ListsDelegations(s.records, e.order, e.voter)
    requires d in NewNames(p, e.voter, DelegationRows(s.records, e.order), e.repos)
    ensures CastBy(s, e, r, e.side, d)
  {
    var rows := DelegationRows(s.records, e.order);
    var already := (set x | x in p.votesFor) + (set x | x in p.votesAgainst) + {e.voter};
    if d != e.voter {
      AddedExactly(rows, already, p.evidence, e.repos);
      assert d in Members(Added(rows, already, p.evidence, e.repos));
      var row :| row in rows && row.delegator.Some? && row.delegator.value == d;
      RowsComeFromRecords(s.records, e.order, row, d);
      var k :| k in e.order && DelegatesFrom(s.records, Key(Delegations, k), d);
      assert Delegates(s.records, Key(Delegations, k), e.voter);
    }
  }

  lemma ListedOnlyByVoting(s: State, e: Event, r: Rkey, side: Side, d: Did)
    requires BookKept(s) && Plain(s, e) && DraftsEmpty(s)
    requires Listed(Next(s, e), r, side, d) && !Listed(s, r, side, d)
    ensures CastBy(s, e, r, side, d)
  {
    var q := Lookup(Next(s, e).records, r).value;
    StoredLists(s, e, r);
    if e.Vote? && e.rkey == r && ListsDelegations(s.records, e.order, e.voter) && Lookup(s.records, r).Some? {
      var p := Lookup(s.records, r).value;
      if d in NewNames(p, e.voter, DelegationRows(s.records, e.order), e.repos) {
        NewNameIsCast(s, e, r, p, d);
      }
    }
  }

  /** `d` voted at step `i` and has been on the list ever since, so nothing has reset it. */
  ghost predicate VotedAt(states: seq<State>, es: seq<Event>, n: nat, i: nat, r: Rkey, side: Side, d: Did)
    requires |states| == |es| + 1 && n < |states|
  {
    && i < n
    && CastBy(states[i], es[i], r, side, d)
    && forall j | i < j <= n :: Listed(states[j], r, side, d)
  }

  lemma NothingListed(s: State, r: Rkey, side: Side, d: Did)
    ensures Lookup(s.records, r).None? ==> !Listed(s, r, side, d)
  {
  }

  lemma StillListed(states: seq<State>, es: seq<Event>, n: nat, i: nat, r: Rkey, side: Side, d: Did)
    requires |states| == |es| + 1 && 0 < n < |states|
    requires VotedAt(states, es, n - 1, i, r, side, d) && Listed(states[n], r, side, d)
    ensures VotedAt(states, es, n, i, r, side, d)
  {
    hide CastBy;
    hide Listed;
  }

  /** Every name on a vote list was put there by its own vote, or a delegate's vote on the same side. */
  lemma {:induction false} EveryNameWasCast(states: seq<State>, es: seq<Event>, n: nat, r: Rkey, side: Side, d: Did)
    requires PlainRun(states, es) && BookKept(states[0]) && DraftsEmpty(states[0]) && AllListsSound(states[0]) && n < |states|
    requires Lookup(states[0].records, r).None? && Listed(states[n], r, side, d)
    ensures exists i :: VotedAt(states, es, n, i, r, side, d)
    decreases n
  {
    hide Next;
    hide Plain;
    hide BookKept;
    hide DraftsEmpty;
    hide AllListsSound;
    hide CastBy;
    hide Listed;
    if n == 0 {
      NothingListed(states[0], r, side, d);
    } else {
      var before := states[n - 1];
      BookKeptRun(states, es, n - 1);
      ListsStaySound(states, es, n - 1);
      StepOf(states, es, n - 1);
      if Listed(before, r, side, d) {
        EveryNameWasCast(states, es, n - 1, r, side, d);
        var i :| VotedAt(states, es, n - 1, i, r, side, d);
        StillListed(states, es, n, i, r, side, d);
      } else {
        ListedOnlyByVoting(before, es[n - 1], r, side, d);
        assert VotedAt(states, es, n, n - 1, r, side, d);
      }
    }
  }
}
