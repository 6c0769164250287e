/** The records of a community's repository that governance reads and writes. */
module ProposalRecords {
  import opened Wrappers
  import opened DecisionRules

  datatype Collection = Proposals | Decisions | Delegations | SettingsRecords | Elsewhere(name: nat)

  datatype Key = Key(collection: Collection, rkey: Rkey)

  /** rkey `self` of the settings record. */
  const SELF: Rkey := 0
  const SETTINGS_KEY := Key(SettingsRecords, SELF)

  datatype Action = Write | Delete

  datatype Status = Open | Pending | Objected | Override | Decided(outcome: Outcome) | Expired

  datatype Amendment = Amendment(amendedBy: Did, previous: Option<Record>, amendedAt: Time)

  datatype DecisionRef = DecisionRef(rkey: Rkey, cid: Cid)

  /** The override round a hold opens; its bar is frozen here. */
  datatype Round = Round(openedAt: Time, expiresAt: Time, bar: real, electorate: nat)

  datatype RoundOutcome = Carried | Lapsed

  datatype Proposal = Proposal(
    target: Key, action: Action, proposed: Option<Record>, proposedBy: Did,
    status: Status, votesFor: seq<Did>, votesAgainst: seq<Did>,
    createdAt: Time, expiresAt: Time, resolvedAt: Option<Time>,
    evidence: bool, cidChain: seq<Cid>, amendments: seq<Amendment>,
    decision: Option<DecisionRef>, applyAt: Option<Time>, appliedAt: Option<Time>,
    objectors: set<Did>, round: Option<Round>, roundOutcome: Option<RoundOutcome>)

  /** A decision record: which votes it counts, against what bar, with what outcome. */
  datatype Decision = Decision(
    proposal: Rkey, outcome: Outcome, bar: real, overrideRound: bool,
    votesFor: set<Did>, votesAgainst: set<Did>, cited: set<Cid>, complete: bool, supersedes: Option<Rkey>)

  datatype Record =
    | ProposalRecord(proposal: Proposal)
    | DecisionRecord(decision: Decision)
    | DelegationRecord(delegator: Option<Did>, delegate: Did)
    | SettingsRecord(settings: Settings)
    | OpaqueRecord(content: nat)

  datatype Entry = Entry(record: Record, cid: Cid)

  type Records = map<Key, Entry>

  function ProposalKey(r: Rkey): Key { Key(Proposals, r) }
  function DecisionKey(r: Rkey): Key { Key(Decisions, r) }

  /** The proposal stored under `r`, if the record there is one. */
  function Lookup(records: Records, r: Rkey): Option<Proposal> {
    if ProposalKey(r) in records && records[ProposalKey(r)].record.ProposalRecord?
    then Some(records[ProposalKey(r)].record.proposal) else None
  }

  function LookupDecision(records: Records, r: Rkey): Option<Decision> {
    if DecisionKey(r) in records && records[DecisionKey(r)].record.DecisionRecord?
    then Some(records[DecisionKey(r)].record.decision) else None
  }

  function SettingsOf(records: Records): Option<Settings> {
    if SETTINGS_KEY in records && records[SETTINGS_KEY].record.SettingsRecord?
    then Some(records[SETTINGS_KEY].record.settings) else None
  }

  /** One write or delete inside a commit. */
  datatype Op = Put(key: Key, record: Record, cid: Cid) | Remove(key: Key)

  function ApplyOp(records: Records, op: Op): Records {
    match op
    case Put(key, record, cid) => records[key := Entry(record, cid)]
    case Remove(key) => records - {key}
  }

  /**
   One signed commit.  Resolution batches the decision, the proposal's new state and
   the change it authorizes, in this order; every other commit here is one of the
   three alone.
   */
  datatype Commit = Commit(decision: Option<Op>, proposal: Option<Op>, change: Option<Op>)

  function ApplyMaybe(records: Records, op: Option<Op>): Records {
    if op.Some? then ApplyOp(records, op.value) else records
  }

  function ApplyCommit(records: Records, c: Commit): Records {
    ApplyMaybe(ApplyMaybe(ApplyMaybe(records, c.decision), c.proposal), c.change)
  }

  /** The records after the commits of a log, from an initial set. */
  function Replay(initial: Records, log: seq<Commit>): Records {
    if log == [] then initial else ApplyCommit(Replay(initial, log[..|log|-1]), log[|log|-1])
  }

  // ── CID lineage ───────────────────────────────────────────────────

  const MAX_CID_CHAIN := 500

  function LastOf(chain: seq<Cid>, n: nat): seq<Cid> {
    if |chain| <= n then chain else chain[|chain| - n..]
  }

  /** The lineage a rewrite stores: the state it replaces joins, the oldest fall off. */
  function Lineage(chain: seq<Cid>, replaced: Option<Cid>): seq<Cid> {
    LastOf(if replaced.Some? && replaced.value !in chain then chain + [replaced.value] else chain, MAX_CID_CHAIN)
  }

  function CurrentCid(records: Records, r: Rkey): Option<Cid> {
    if ProposalKey(r) in records then Some(records[ProposalKey(r)].cid) else None
  }

  /** `proposalWriteOp`: proposals under the vote-record model keep their lineage. */
  function PutProposal(records: Records, r: Rkey, p: Proposal, cid: Cid): Op {
    Put(ProposalKey(r),
        ProposalRecord(if p.evidence then p.(cidChain := Lineage(p.cidChain, CurrentCid(records, r))) else p),
        cid)
  }

  function KnownCids(p: Proposal, current: Cid): set<Cid> {
    (set c | c in p.cidChain) + {current}
  }

  /** Where the tally starts: the override round, else the last amendment, else creation. */
  function TallyEpoch(p: Proposal): Time {
    if p.round.Some? then p.round.value.openedAt
    else if p.amendments != [] then p.amendments[|p.amendments|-1].amendedAt
    else p.createdAt
  }

  // ── The change a proposal authorizes ──────────────────────────────

  /** `recordToWrite`: a settings proposal is merged, anything else is written as it is. */
  function RecordToWrite(records: Records, target: Key, proposed: Record): Record {
    if target == SETTINGS_KEY && SettingsOf(records).Some? && proposed.SettingsRecord?
    then SettingsRecord(MergeSettings(SettingsOf(records).value, proposed.settings))
    else proposed
  }

  predicate SettingsSound(record: Record) {
    record.SettingsRecord? ==> GovernanceSound(record.settings)
  }

  /** `proposalApplicationProblem`: a settings change that would leave nothing recognizable. */
  predicate Unapplicable(records: Records, p: Proposal) {
    && p.action == Write && p.proposed.Some? && p.target.collection == SettingsRecords
    && !SettingsSound(RecordToWrite(records, p.target, p.proposed.value))
  }

  /** `proposedChangeOps`, where the proposal is applicable. */
  function ChangeOp(records: Records, p: Proposal, cid: Cid): Option<Op> {
    match p.action
    case Write =>
      if p.proposed.Some? then Some(Put(p.target, RecordToWrite(records, p.target, p.proposed.value), cid)) else None
    case Delete =>
      if p.target in records then Some(Remove(p.target)) else None
  }
}
