/**
 The proposal endpoints as a machine over durable writes.  Each request plans the
 writes it will make, in order; `survived` says how many it made before the process
 died, so a crash can fall between any two of them.  Handlers holding a proposal's
 advisory lock are one event; amending takes no lock and is two, a read and a write.
 The lazy sweeps are events of their own, so a sweep may come late, fail, or not come.
 */
module ProposalMachine {
  import opened Wrappers
  import opened DecisionRules
  import opened VoteTally
  import opened DelegationLoop
  import opened ProposalRecords

  type Pid = nat

  /**
   The durable writes a request makes, in this order: vote records in the voters'
   repos, an objection record in the objector's repo, one commit in the community's
   repo, and last the proposer's seed vote.
   */
  datatype Plan = Plan(votes: seq<VoteRow>, objection: Option<ObjectionRow>, commit: Option<Commit>, seed: Option<VoteRow>)

  const NOTHING := Plan([], None, None, None)

  /** What `amendProposal` holds between its read and its write. */
  datatype Draft = Draft(rkey: Rkey, proposal: Proposal)

  datatype State = State(
    records: Records,
    log: seq<Commit>,
    votes: set<VoteRow>,
    objections: set<ObjectionRow>,
    clock: Time,
    next: nat,                 // record keys and CIDs are drawn from here, never twice
    drafts: map<Pid, Draft>)

  datatype Event =
    | Tick(ms: nat)
    | Create(proposer: Did, target: Key, action: Action, proposed: Option<Record>, repos: Repos, lost: set<Did>, survived: nat)
    | Vote(rkey: Rkey, voter: Did, side: Side, order: seq<Rkey>, repos: Repos, lost: set<Did>, survived: nat)
    | Object(rkey: Rkey, objector: Did, repos: Repos, electorate: nat, survived: nat)
    | ApplyDue(rkey: Rkey, electorate: nat, survived: nat)
    | CloseOverride(rkey: Rkey, survived: nat)
    | AmendRead(pid: Pid, rkey: Rkey, editor: Did, amended: Record)
    | AmendWrite(pid: Pid)
    | DropDelegation(delegator: Did, existing: Rkey)        // the delete of setDelegation
    | PutDelegation(delegator: Did, delegate: Did)          // ... and its write, a commit of its own
    | OtherWrite(op: Op)       // any endpoint outside governance

  function Rewrite(s: State, r: Rkey, p: Proposal, cid: Cid): Commit {
    Commit(None, Some(PutProposal(s.records, r, p, cid)), None)
  }

  function Only(c: Commit): Plan { Plan([], None, Some(c), None) }

  // ── createProposal ────────────────────────────────────────────────

  predicate VotingModel(settings: Option<Settings>) {
    settings.Some? && (settings.value.model == Some(SimpleMajority) || settings.value.model == Some(OnChain))
  }

  predicate MayCreate(s: State, target: Key, action: Action, proposed: Option<Record>) {
    && (action == Write ==> proposed.Some?)
    && (target.collection == SettingsRecords && action == Write ==> SettingsSound(proposed.value))
    && VotingModel(SettingsOf(s.records))
  }

  function TtlDays(settings: Option<Settings>): real {
    match Get(settings, ProposalTtlDays)
    case Num(n) => if n == 0.0 then 7.0 else n
    case _ => 7.0
  }

  function NewProposal(s: State, proposer: Did, target: Key, action: Action, proposed: Option<Record>, seeded: bool): Proposal {
    Proposal(target, action, proposed, proposer, Open, if seeded then [proposer] else [], [],
      s.clock, After(s.clock, TtlDays(SettingsOf(s.records)) * DAY_MS), None,
      true, [], [], None, None, None, {}, None, None)
  }

  function NewVoteRow(voter: Did, side: Side, r: Rkey, cites: Cid, now: Time, id: nat): VoteRow {
    VoteRow(voter, id, id, r, true, Some(cites), Some(side), Some(now))
  }

  function CreatePlan(s: State, proposer: Did, target: Key, action: Action, proposed: Option<Record>,
                      repos: Repos, lost: set<Did>): Plan {
    if !MayCreate(s, target, action, proposed) || CheckRepo(repos, proposer) == CheckFailed then NOTHING
    else
      var seeded := CheckRepo(repos, proposer) == CanRecord;
      var put := Put(ProposalKey(s.next), ProposalRecord(NewProposal(s, proposer, target, action, proposed, seeded)), s.next + 1);
      Plan([], None, Some(Commit(None, Some(put), None)),
        if seeded && proposer !in lost
        then Some(NewVoteRow(proposer, For, s.next, s.next + 1, s.clock, s.next + 2)) else None)
  }

  // ── voteOnProposal ────────────────────────────────────────────────

  datatype Gate = Refuse | Expire | Accept

  function VoteGate(p: Proposal, now: Time, voter: Did, repos: Repos): Gate {
    if p.status != Open && p.status != Override then Refuse
    else if p.status == Override && (p.round.None? || p.round.value.expiresAt <= now) then Refuse
    else if p.status == Open && p.expiresAt < now then Expire
    else if voter in p.votesFor || voter in p.votesAgainst then Refuse
    else if p.evidence && CheckRepo(repos, voter) != CanRecord then Refuse
    else Accept
  }

  /** The delegation rows naming `voter`, in the order the query returned them. */
  function DelegationRows(records: Records, order: seq<Rkey>): seq<DelegationRow> {
    if order == [] then []
    else
      var k := Key(Delegations, order[0]);
      (if k in records && records[k].record.DelegationRecord?
       then [DelegationRow(order[0], records[k].cid, records[k].record.delegator)] else [])
      + DelegationRows(records, order[1..])
  }

  predicate Delegates(records: Records, k: Key, voter: Did) {
    k in records && records[k].record.DelegationRecord? && records[k].record.delegate == voter
  }

  /** `order` lists every delegation to `voter` exactly once. */
  ghost predicate ListsDelegations(records: Records, order: seq<Rkey>, voter: Did) {
    && (forall i, j | 0 <= i < j < |order| :: order[i] != order[j])
    && (forall r | r in order :: Delegates(records, Key(Delegations, r), voter))
    && (forall k | k in records && k.collection == Delegations && Delegates(records, k, voter) :: k.rkey in order)
  }

  /** Everyone this vote counts: the voter, then the delegators the loop adds. */
  function NewNames(p: Proposal, voter: Did, rows: seq<DelegationRow>, repos: Repos): seq<Did> {
    [voter] + Added(rows, (set d | d in p.votesFor) + (set d | d in p.votesAgainst) + {voter}, p.evidence, repos)
  }

  function WithVotes(p: Proposal, side: Side, names: seq<Did>): Proposal {
    match side
    case For => p.(votesFor := p.votesFor + names)
    case Against => p.(votesAgainst := p.votesAgainst + names)
  }

  /** The vote records that get written; a voter in `lost` fails to write one. */
  function VoteRows(names: seq<Did>, side: Side, r: Rkey, cites: Cid, now: Time, id: nat, lost: set<Did>): seq<VoteRow> {
    if names == [] then []
    else
      (if names[0] in lost then [] else [NewVoteRow(names[0], side, r, cites, now, id)])
      + VoteRows(names[1..], side, r, cites, now, id + 1, lost)
  }

  /** The bar of this round: frozen on the proposal in an override round, else the quorum as configured now. */
  function BarOf(p: Proposal, settings: Option<Settings>): real {
    if p.status == Override && p.round.Some? then p.round.value.bar else QuorumOf(settings)
  }

  function Rule(p: Proposal, votesFor: nat, votesAgainst: nat, settings: Option<Settings>): Option<Outcome> {
    if p.status == Override && p.round.Some? then DecideOverride(votesFor, p.round.value.bar)
    else DecideOutcome(votesFor, votesAgainst, QuorumOf(settings))
  }

  ghost function RowsOn(votes: set<VoteRow>, r: Rkey): set<VoteRow> {
    set v | v in votes && v.proposal == r
  }

  ghost function TallyOf(votes: set<VoteRow>, r: Rkey, p: Proposal, current: Cid): map<Did, VoteRow> {
    Tally(RowsOn(votes, r), KnownCids(p, current), Some(TallyEpoch(p)))
  }

  /** Decided only when the records and the cache agree. */
  ghost function Ruling(p: Proposal, counted: Proposal, t: map<Did, VoteRow>, settings: Option<Settings>): Option<Outcome> {
    var cached := Rule(p, |counted.votesFor|, |counted.votesAgainst|, settings);
    if !p.evidence then cached
    else
      var recorded := Rule(p, |ForVoters(t)|, |AgainstVoters(t)|, settings);
      if recorded == cached then recorded else None
  }

  function DecisionsOn(records: Records, r: Rkey): set<Rkey> {
    set k | k in records && k.collection == Decisions && records[k].record.DecisionRecord?
            && records[k].record.decision.proposal == r :: k.rkey
  }

  lemma {:induction false} HasMaximum(ks: set<Rkey>)
    requires ks != {}
    ensures exists k :: k in ks && forall j | j in ks :: j <= k
    decreases |ks|
  {
    var x :| x in ks;
    if ks == {x} {
      assert forall j | j in ks :: j <= x;
    } else {
      assert ks - {x} != {};
      HasMaximum(ks - {x});
      var k :| k in ks - {x} && forall j | j in ks - {x} :: j <= k;
      var m := if x <= k then k else x;
      forall j | j in ks ensures j <= m {
        if j != x { assert j in ks - {x}; }
      }
    }
  }

  /** The latest decision on this proposal: record keys are time-ordered. */
  ghost function Latest(ks: set<Rkey>): (latest: Option<Rkey>)
    ensures latest.None? <==> ks == {}
    ensures latest.Some? ==> latest.value in ks && forall j | j in ks :: j <= latest.value
  {
    if ks == {} then None
    else
      HasMaximum(ks);
      var k :| k in ks && forall j | j in ks :: j <= k;
      Some(k)
  }

  function Cited(t: map<Did, VoteRow>): set<Cid> { set v | v in t :: t[v].cid }

  /** An existing decision is reused when it has this outcome and cites the same votes. */
  ghost function Reusable(records: Records, r: Rkey, outcome: Outcome, cited: set<Cid>): Option<Rkey> {
    match Latest(DecisionsOn(records, r))
    case None => None
    case Some(k) =>
      var d := LookupDecision(records, k);
      if d.Some? && d.value.outcome == outcome && d.value.cited == cited then Some(k) else None
  }

  ghost function NewDecision(s: State, r: Rkey, p: Proposal, counted: Proposal, t: map<Did, VoteRow>, outcome: Outcome): Decision {
    Decision(r, outcome, BarOf(p, SettingsOf(s.records)), p.status == Override && p.round.Some?,
      ForVoters(t), AgainstVoters(t), Cited(t),
      (forall d | d in counted.votesFor || d in counted.votesAgainst :: d in t),
      Latest(DecisionsOn(s.records, r)))
  }

  /** The decision a resolution cites, and the write it needs, if any. */
  ghost function DecisionFor(s: State, r: Rkey, p: Proposal, counted: Proposal, t: map<Did, VoteRow>, outcome: Outcome, id: nat)
      : (result: (Option<DecisionRef>, Option<Op>)) {
    if !p.evidence then (None, None)
    else
      match Reusable(s.records, r, outcome, Cited(t))
      case Some(k) => (Some(DecisionRef(k, s.records[DecisionKey(k)].cid)), None)
      case None =>
        (Some(DecisionRef(id, id)), Some(Put(DecisionKey(id), DecisionRecord(NewDecision(s, r, p, counted, t, outcome)), id)))
  }

  /** The proposal as a vote closes it; an approved change may have a window to wait out. */
  function Resolved(s: State, p: Proposal, counted: Proposal, outcome: Outcome, ref: Option<DecisionRef>): Proposal {
    var overriding := p.status == Override;
    var window := if outcome == Approved && ref.Some? && !overriding then WindowEnd(SettingsOf(s.records), s.clock) else None;
    var immediate := outcome == Approved && window.None? && !Unapplicable(s.records, p);
    counted.(
      status := if window.Some? then Pending else Decided(outcome),
      resolvedAt := Some(s.clock),
      decision := if ref.Some? then ref else counted.decision,
      applyAt := if window.Some? then window else counted.applyAt,
      appliedAt := if immediate && overriding then Some(s.clock) else counted.appliedAt,
      roundOutcome := if overriding && outcome == Approved then Some(Carried) else counted.roundOutcome)
  }

  ghost function ResolutionCommit(s: State, r: Rkey, p: Proposal, counted: Proposal, t: map<Did, VoteRow>,
                                  outcome: Outcome, id: nat): Commit {
    var (ref, write) := DecisionFor(s, r, p, counted, t, outcome, id);
    var closed := Resolved(s, p, counted, outcome, ref);
    Commit(write, Some(PutProposal(s.records, r, closed, id + 1)),
      if closed.status == Decided(Approved) && !Unapplicable(s.records, p) then ChangeOp(s.records, p, id + 2) else None)
  }

  ghost function CastPlan(s: State, r: Rkey, p: Proposal, voter: Did, side: Side, rows: seq<DelegationRow>,
                          repos: Repos, lost: set<Did>): Plan
    requires ProposalKey(r) in s.records
  {
    var current := s.records[ProposalKey(r)].cid;
    var names := NewNames(p, voter, rows, repos);
    var counted := WithVotes(p, side, names);
    var written := VoteRows(names, side, r, current, s.clock, s.next, lost + repos.missing);
    var t := TallyOf(s.votes + AsSet(written), r, counted, current);
    var ruling := Ruling(p, counted, t, SettingsOf(s.records));
    var id := s.next + |names|;
    Plan(written, None,
      Some(if ruling.Some? then ResolutionCommit(s, r, p, counted, t, ruling.value, id) else Rewrite(s, r, counted, id + 1)),
      None)
  }

  ghost function VotePlan(s: State, r: Rkey, voter: Did, side: Side, order: seq<Rkey>, repos: Repos, lost: set<Did>): Plan {
    match Lookup(s.records, r)
    case None => NOTHING
    case Some(p) =>
      match VoteGate(p, s.clock, voter, repos)
      case Refuse => NOTHING
      case Expire => Only(Rewrite(s, r, p.(status := Expired, resolvedAt := Some(s.clock)), s.next))
      case Accept =>
        if !ListsDelegations(s.records, order, voter) then NOTHING
        else CastPlan(s, r, p, voter, side, DelegationRows(s.records, order), repos, lost)
  }

  // ── objectToProposal and the contest window ───────────────────────

  ghost function Objectors(objections: set<ObjectionRow>, r: Rkey, p: Proposal): set<Did> {
    if p.decision.None? || p.resolvedAt.None? || p.applyAt.None? then {}
    else set o | o in objections && o.proposal == r
                 && CountsAsObjection(o, p.decision.value.rkey, p.decision.value.cid, p.resolvedAt.value, p.applyAt.value) :: o.repo
  }

  /** `heldProposalState`: final when review is off, else an override round with empty vote lists. */
  function Held(s: State, p: Proposal, objectors: set<Did>, electorate: nat): Proposal {
    var settings := SettingsOf(s.records);
    if HoldIsFinal(settings) then p.(status := Objected, objectors := objectors)
    else
      p.(status := Override, objectors := objectors, votesFor := [], votesAgainst := [],
         round := Some(Round(s.clock, OverrideExpiresAt(s.clock, OverrideDaysOf(settings)),
                             OverrideBar(settings, QuorumOf(settings), electorate), electorate)))
  }

  predicate MayObject(p: Proposal, now: Time) {
    p.status == Pending && p.applyAt.Some? && p.decision.Some? && now < p.applyAt.value
  }

  ghost function ObjectPlan(s: State, r: Rkey, objector: Did, repos: Repos, electorate: nat): Plan {
    match Lookup(s.records, r)
    case None => NOTHING
    case Some(p) =>
      if !MayObject(p, s.clock) || objector in Objectors(s.objections, r, p) || objector in p.objectors
         || CheckRepo(repos, objector) != CanRecord then NOTHING
      else
        var row := ObjectionRow(objector, s.next, r, true, p.decision.value.rkey, p.decision.value.cid, Some(s.clock));
        var standing := Objectors(s.objections + {row}, r, p);
        Plan([], Some(row),
          if |standing| >= ObjectionThresholdOf(SettingsOf(s.records))
          then Some(Rewrite(s, r, Held(s, p, standing, electorate), s.next + 1)) else None,
          None)
  }

  predicate IsDue(p: Proposal, now: Time) {
    p.status == Pending && p.applyAt.Some? && p.applyAt.value <= now
  }

  /** `applyIfDue`: hold it, close it without a change, or close it with the change. */
  ghost function ApplyPlan(s: State, r: Rkey, electorate: nat): Plan {
    match Lookup(s.records, r)
    case None => NOTHING
    case Some(p) =>
      if !IsDue(p, s.clock) then NOTHING
      else
        var standing := Objectors(s.objections, r, p);
        if |standing| >= ObjectionThresholdOf(SettingsOf(s.records))
        then Only(Rewrite(s, r, Held(s, p, standing, electorate), s.next))
        else if Unapplicable(s.records, p)
        then Only(Rewrite(s, r, p.(status := Decided(Approved)), s.next))
        else Only(Commit(None,
               Some(PutProposal(s.records, r, p.(status := Decided(Approved), appliedAt := Some(s.clock)), s.next)),
               ChangeOp(s.records, p, s.next + 1)))
  }

  predicate RoundOver(p: Proposal, now: Time) {
    p.status == Override && p.round.Some? && p.round.value.expiresAt <= now
  }

  /** `closeExpiredOverride`: a round nobody carried is a rejection. */
  function ClosePlan(s: State, r: Rkey): Plan {
    match Lookup(s.records, r)
    case None => NOTHING
    case Some(p) =>
      if !RoundOver(p, s.clock) then NOTHING
      else Only(Rewrite(s, r,
             p.(status := Decided(Rejected), resolvedAt := Some(s.clock), roundOutcome := Some(Lapsed)), s.next))
  }

  // ── amendProposal, setDelegation ──────────────────────────────────

  function Amended(s: State, p: Proposal, editor: Did, proposed: Record): Proposal {
    p.(proposed := Some(proposed), votesFor := [], votesAgainst := [],
       expiresAt := After(s.clock, TtlDays(SettingsOf(s.records)) * DAY_MS),
       amendments := p.amendments + [Amendment(editor, p.proposed, s.clock)])
  }

  /** What the read leaves in hand: nothing unless the proposal was open. */
  function AmendDraft(s: State, r: Rkey, editor: Did, proposed: Record): Option<Draft> {
    match Lookup(s.records, r)
    case None => None
    case Some(p) => if p.status == Open then Some(Draft(r, Amended(s, p, editor, proposed))) else None
  }

  function AmendPlan(s: State, pid: Pid): Plan {
    if pid !in s.drafts then NOTHING else Only(Rewrite(s, s.drafts[pid].rkey, s.drafts[pid].proposal, s.next))
  }

  predicate DelegatesFrom(records: Records, k: Key, delegator: Did) {
    k in records && records[k].record.DelegationRecord? && records[k].record.delegator == Some(delegator)
  }

  function Change(op: Op): Plan { Only(Commit(None, None, Some(op))) }

  // ── Steps ─────────────────────────────────────────────────────────

  /** Collections only the governance endpoints write; the generic mutation endpoints refuse them. */
  predicate Reserved(c: Collection) { c == Proposals || c == Decisions }

  ghost function PlanOf(s: State, e: Event): Plan {
    match e
    case Tick(_) => NOTHING
    case Create(proposer, target, action, proposed, repos, lost, _) => CreatePlan(s, proposer, target, action, proposed, repos, lost)
    case Vote(r, voter, side, order, repos, lost, _) => VotePlan(s, r, voter, side, order, repos, lost)
    case Object(r, objector, repos, electorate, _) => ObjectPlan(s, r, objector, repos, electorate)
    case ApplyDue(r, electorate, _) => ApplyPlan(s, r, electorate)
    case CloseOverride(r, _) => ClosePlan(s, r)
    case AmendRead(_, _, _, _) => NOTHING
    case AmendWrite(pid) => AmendPlan(s, pid)
    case DropDelegation(delegator, k) =>
      if DelegatesFrom(s.records, Key(Delegations, k), delegator) then Change(Remove(Key(Delegations, k))) else NOTHING
    case PutDelegation(delegator, delegate) =>
      if delegator == delegate then NOTHING
      else Change(Put(Key(Delegations, s.next), DelegationRecord(Some(delegator), delegate), s.next))
    case OtherWrite(op) => if Reserved(op.key.collection) then NOTHING else Change(op)
  }

  /** How many durable writes a request survived to make. */
  function Survived(e: Event): nat {
    match e
    case Create(_, _, _, _, _, _, n) => n
    case Vote(_, _, _, _, _, _, n) => n
    case Object(_, _, _, _, n) => n
    case ApplyDue(_, _, n) => n
    case CloseOverride(_, n) => n
    case _ => 1
  }

  /** What of a plan happened when its first `n` writes did. */
  function Prefix(plan: Plan, n: nat): Plan {
    var before := |plan.votes| + if plan.objection.Some? then 1 else 0;
    Plan(if n <= |plan.votes| then plan.votes[..n] else plan.votes,
         if n <= |plan.votes| then None else plan.objection,
         if n <= before then None else plan.commit,
         if n <= before + 1 then None else plan.seed)
  }

  function Perform(s: State, done: Plan): State {
    s.(votes := s.votes + (set v | v in done.votes) + (if done.seed.Some? then {done.seed.value} else {}),
       objections := s.objections + (if done.objection.Some? then {done.objection.value} else {}),
       records := if done.commit.Some? then ApplyCommit(s.records, done.commit.value) else s.records,
       log := if done.commit.Some? then s.log + [done.commit.value] else s.log)
  }

  /** Record keys and CIDs an event may have used. */
  function IdsUsed(e: Event): nat {
    4 + if e.Vote? then |e.order| else 0
  }

  function DraftsAfter(s: State, e: Event): map<Pid, Draft> {
    match e
    case AmendRead(pid, r, editor, proposed) =>
      var d := AmendDraft(s, r, editor, proposed);
      if d.Some? then s.drafts[pid := d.value] else s.drafts
    case AmendWrite(pid) => s.drafts - {pid}
    case _ => s.drafts
  }

  /** The part of the request's plan that happened. */
  ghost function Done(s: State, e: Event): Plan {
    Prefix(PlanOf(s, e), Survived(e))
  }

  ghost function Next(s: State, e: Event): State {
    Perform(s, Done(s, e)).(clock := s.clock + (if e.Tick? then e.ms else 0),
                            next := s.next + IdsUsed(e),
                            drafts := DraftsAfter(s, e))
  }

  /** A run: the events and the states between them, first and last included. */
  ghost predicate IsRun(states: seq<State>, es: seq<Event>) {
    && |states| == |es| + 1
    && forall i {:trigger es[i]} | 0 <= i < |es| :: states[i + 1] == Next(states[i], es[i])
  }
}
