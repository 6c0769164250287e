/**
 The governance rules that decide a vote, a contest window and an override round,
 as functions of a community's settings and of counts.  Times are milliseconds;
 configured numbers are reals, because the settings admit any JSON number.
 */
module DecisionRules {
  import opened Wrappers

  type Did = nat
  type Cid = nat
  type Rkey = nat
  type Time = int

  datatype Side = For | Against
  datatype Outcome = Approved | Rejected

  /** A value of `governanceConfig`; JSON null is kept apart from absence. */
  datatype Value = Num(n: real) | Text(id: nat) | Null

  datatype ConfigKey =
    | Quorum | VoterRole | TimelockHours | ObjectionThreshold | ObjectionReview
    | ObjectionOverrideDays | ObjectionOverrideQuorum | ProposalTtlDays | ChainId | OtherKey(name: nat)

  datatype Model = BenevolentDictator | SimpleMajority | OnChain | Unrecognized(name: nat)

  type Config = map<ConfigKey, Value>

  datatype Settings = Settings(model: Option<Model>, config: Option<Config>, rest: map<nat, nat>)

  /** `settings?.governanceConfig?.key`, with absence read as null. */
  function Get(settings: Option<Settings>, key: ConfigKey): Value {
    if settings.Some? && settings.value.config.Some? && key in settings.value.config.value
    then settings.value.config.value[key] else Null
  }

  /** `quorum || 3`: zero counts as absent, as does anything that is no number. */
  function QuorumOf(settings: Option<Settings>): real {
    match Get(settings, Quorum)
    case Num(n) => if n == 0.0 then 3.0 else n
    case _ => 3.0
  }

  function TimelockHoursOf(settings: Option<Settings>): (hours: real)
    ensures hours >= 0.0
  {
    match Get(settings, TimelockHours)
    case Num(n) => if n < 0.0 then 24.0 else n
    case _ => 24.0
  }

  predicate IsInteger(n: real) { n.Floor as real == n }

  function ObjectionThresholdOf(settings: Option<Settings>): (threshold: int)
    ensures threshold >= 1
  {
    match Get(settings, ObjectionThreshold)
    case Num(n) => if IsInteger(n) && n >= 1.0 then n.Floor else 1
    case _ => 1
  }

  const REVIEW_NONE: Value := Text(0)

  predicate HoldIsFinal(settings: Option<Settings>) {
    Get(settings, ObjectionReview) == REVIEW_NONE
  }

  function OverrideDaysOf(settings: Option<Settings>): (days: real)
    ensures days > 0.0
  {
    match Get(settings, ObjectionOverrideDays)
    case Num(n) => if n <= 0.0 then 7.0 else n
    case _ => 7.0
  }

  const HOUR_MS := 3600000.0
  const DAY_MS := 86400000.0

  function After(at: Time, ms: real): Time { (at as real + ms).Floor }

  function ApplyAtFrom(resolvedAt: Time, hours: real): Time { After(resolvedAt, hours * HOUR_MS) }

  function OverrideExpiresAt(openedAt: Time, days: real): Time { After(openedAt, days * DAY_MS) }

  /** The end of the contest window, or none when the settings state zero hours. */
  function WindowEnd(settings: Option<Settings>, resolvedAt: Time): Option<Time> {
    if TimelockHoursOf(settings) <= 0.0 then None else Some(ApplyAtFrom(resolvedAt, TimelockHoursOf(settings)))
  }

  function DecideOutcome(votesFor: nat, votesAgainst: nat, quorum: real): Option<Outcome> {
    if (votesFor + votesAgainst) as real < quorum then None
    else Some(if votesFor > votesAgainst then Approved else Rejected)
  }

  /**
   The majority rule: a tie is a rejection, so the same votes never approve both a
   proposal and its opposite; and one more vote for it never undoes an approval.
   */
  lemma MajorityRule(votesFor: nat, votesAgainst: nat, quorum: real)
    ensures DecideOutcome(votesFor, votesAgainst, quorum) == Some(Approved) ==>
      DecideOutcome(votesAgainst, votesFor, quorum) == Some(Rejected)
      && DecideOutcome(votesFor + 1, votesAgainst, quorum) == Some(Approved)
    ensures DecideOutcome(votesFor, votesFor, quorum) != Some(Approved)
    ensures DecideOutcome(votesFor, votesAgainst, quorum).Some? ==>
      DecideOutcome(votesFor, votesAgainst + 1, quorum).Some? && DecideOutcome(votesFor + 1, votesAgainst, quorum).Some?
  {
  }

  /** A contest window exists unless the settings say zero hours, and lasts the configured hours to the millisecond. */
  lemma WindowLasts(settings: Option<Settings>, resolvedAt: Time)
    ensures WindowEnd(settings, resolvedAt).None? <==> Get(settings, TimelockHours) == Num(0.0)
    ensures var end := WindowEnd(settings, resolvedAt);
      end.Some? ==> resolvedAt as real + TimelockHoursOf(settings) * 3600000.0 - 1.0 < end.value as real
                      <= resolvedAt as real + TimelockHoursOf(settings) * 3600000.0
  {
  }

  function DecideOverride(votesFor: nat, bar: real): Option<Outcome> {
    if votesFor as real >= bar then Some(Approved) else None
  }

  function Max(a: real, b: real): real { if a >= b then a else b }
  function Min(a: real, b: real): real { if a <= b then a else b }

  /** `Math.ceil(eligible * 2 / 3)` */
  function TwoThirds(eligible: nat): nat { (2 * eligible + 2) / 3 }

  function OverrideBar(settings: Option<Settings>, quorum: real, eligible: nat): (bar: real)
    ensures bar >= 1.0
  {
    var configured := Get(settings, ObjectionOverrideQuorum);
    if configured.Num? && IsInteger(configured.n) && configured.n >= 1.0 then configured.n
    else
      var target := Max(quorum + 1.0, TwoThirds(eligible) as real);
      Max(1.0, Min(target, eligible as real))
  }

  /**
   Without a configured bar: an electorate of at least one can reach it, it is at
   least two thirds of the electorate, and it is above the ordinary quorum exactly
   when the electorate itself is.
   */
  lemma OverrideBarIsStronger(settings: Option<Settings>, quorum: real, eligible: nat)
    requires Get(settings, ObjectionOverrideQuorum) == Null && quorum >= 1.0
    ensures eligible >= 1 ==> OverrideBar(settings, quorum, eligible) <= eligible as real
    ensures 3.0 * OverrideBar(settings, quorum, eligible) >= 2.0 * eligible as real
    ensures OverrideBar(settings, quorum, eligible) > quorum <==> eligible as real > quorum
  {
    assert 3 * TwoThirds(eligible) >= 2 * eligible;
    assert 3.0 * (TwoThirds(eligible) as real) >= 2.0 * eligible as real by {
      assert (3 * TwoThirds(eligible)) as real == 3.0 * (TwoThirds(eligible) as real);
      assert (2 * eligible) as real == 2.0 * eligible as real;
    }
  }

  // ── Settings records ──────────────────────────────────────────────

  predicate Positive(v: Value) { v.Num? && v.n >= 1.0 }

  predicate FieldsSound(c: Config, simpleMajority: bool) {
    var f := k => if k in c then c[k] else Null;
    && (if simpleMajority then Positive(f(Quorum)) && f(VoterRole).Text? else f(Quorum) == Null || Positive(f(Quorum)))
    && (f(TimelockHours) == Null || (f(TimelockHours).Num? && f(TimelockHours).n >= 0.0))
    && (f(ObjectionThreshold) == Null || (Positive(f(ObjectionThreshold)) && IsInteger(f(ObjectionThreshold).n)))
    && (f(ObjectionReview) == Null || f(ObjectionReview) == REVIEW_NONE || f(ObjectionReview) == Text(1))
    && (f(ObjectionOverrideQuorum) == Null
        || (Positive(f(ObjectionOverrideQuorum)) && IsInteger(f(ObjectionOverrideQuorum).n)))
    && (f(ObjectionOverrideDays) == Null || (f(ObjectionOverrideDays).Num? && f(ObjectionOverrideDays).n > 0.0))
    && (simpleMajority || f(ChainId).Text?)
  }

  /** What `checkGovernanceSettings` accepts; nulls count as removals. */
  predicate GovernanceSound(s: Settings) {
    match if s.model.Some? then s.model.value else BenevolentDictator
    case BenevolentDictator => true
    case SimpleMajority => s.config.Some? && FieldsSound(s.config.value, true)
    case OnChain => s.config.Some? && FieldsSound(s.config.value, false)
    case Unrecognized(_) => false
  }

  /** A proposed config over the current one: null removes, absence keeps. */
  function PatchConfig(current: Config, patch: Config): Config {
    map k | k in current.Keys + patch.Keys && (k in patch ==> patch[k] != Null) ::
      if k in patch then patch[k] else current[k]
  }

  /** A settings proposal over the settings as they stand. */
  function MergeSettings(current: Settings, proposed: Settings): Settings {
    Settings(
      if proposed.model.Some? then proposed.model else current.model,
      if proposed.config.None? then current.config
      else if current.config.None? then proposed.config
      else Some(PatchConfig(current.config.value, proposed.config.value)),
      current.rest + proposed.rest)
  }

  /** A decision changes exactly the fields it names. */
  lemma MergeChangesOnlyWhatItNames(current: Settings, proposed: Settings, key: ConfigKey)
    requires current.config.Some? && proposed.config.Some?
    ensures var merged := Some(MergeSettings(current, proposed));
      Get(merged, key) ==
        if key in proposed.config.value then proposed.config.value[key] else Get(Some(current), key)
    ensures forall k | k in current.rest && k !in proposed.rest ::
      k in MergeSettings(current, proposed).rest && MergeSettings(current, proposed).rest[k] == current.rest[k]
  {
  }

  // ── Which vote and objection records count ────────────────────────

  /** A vote record, in the voter's own repo. */
  datatype VoteRow = VoteRow(
    repo: Did, rkey: Rkey, cid: Cid,
    proposal: Rkey,          // record.proposalRkey
    citesProposal: bool,     // record.proposal.uri and proposalCollection name this very proposal
    cites: Option<Cid>,      // record.proposal.cid
    side: Option<Side>,      // record.vote
    createdAt: Option<Time>)

  datatype Verdict = Countable(side: Side) | InvalidVoteValue | ProposalUriMismatch | UnknownProposalCid | StaleVoteRecord

  /** `createdAt < epoch` on ISO strings; a record without a date sorts first. */
  predicate Before(createdAt: Option<Time>, epoch: Time) {
    createdAt.None? || createdAt.value < epoch
  }

  function CheckVote(row: VoteRow, known: set<Cid>, epoch: Option<Time>): Verdict {
    if row.side.None? then InvalidVoteValue
    else if !row.citesProposal then ProposalUriMismatch
    else if row.cites.None? || row.cites.value !in known then UnknownProposalCid
    else if epoch.Some? && Before(row.createdAt, epoch.value) then StaleVoteRecord
    else Countable(row.side.value)
  }

  /** An objection record, in the objector's own repo. */
  datatype ObjectionRow = ObjectionRow(
    repo: Did, rkey: Rkey, proposal: Rkey, citesProposal: bool,
    decisionRkey: Rkey, decisionCid: Cid, createdAt: Option<Time>)

  predicate CountsAsObjection(row: ObjectionRow, decisionRkey: Rkey, decisionCid: Cid, resolvedAt: Time, applyAt: Time) {
    && row.citesProposal
    && row.decisionRkey == decisionRkey && row.decisionCid == decisionCid
    && row.createdAt.Some? && resolvedAt <= row.createdAt.value < applyAt
  }
}
