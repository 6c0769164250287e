/**
 What settings are recognized, field by field, and what follows for the endpoints: which
 proposals are accepted, which settings changes take effect, and what is stored at every
 point of every run.
 */
module SettingsRules {
  import opened Wrappers
  import opened DecisionRules
  import opened DelegationLoop
  import opened ProposalRecords
  import opened ProposalMachine
  import opened ProposalEvolution
  import opened StoredRules
  import opened EagerWindows
  import SettingsSafety
  import SweepOrder

  // ── Field by field ────────────────────────────────────────────────

  ghost predicate Names(st: Settings, key: ConfigKey, v: Value) {
    st.config.Some? && key in st.config.value && st.config.value[key] == v
  }

  /** Every value under `key` but null, which removes, is in range. */
  ghost predicate OnlyNumbers(st: Settings, key: ConfigKey, least: real, whole: bool) {
    forall v | Names(st, key, v) && v != Null :: v.Num? && v.n >= least && (whole ==> v.n.Floor as real == v.n)
  }

  ghost predicate HasNumber(st: Settings, key: ConfigKey, least: real) { exists n: real :: Names(st, key, Num(n)) && n >= least }

  ghost predicate HasText(st: Settings, key: ConfigKey) { exists t: nat :: Names(st, key, Text(t)) }

  ghost predicate DaysPositive(st: Settings) {
    forall v | Names(st, ObjectionOverrideDays, v) && v != Null :: v.Num? && v.n > 0.0
  }

  ghost predicate ReviewKnown(st: Settings) {
    forall v | Names(st, ObjectionReview, v) && v != Null :: v == Text(0) || v == Text(1)
  }

  /** A known model or none; and under a voting model, what it needs and everything it reads in range. */
  ghost predicate Recognized(st: Settings) {
    && (st.model.None? || st.model == Some(BenevolentDictator) || st.model == Some(SimpleMajority) || st.model == Some(OnChain))
    && (st.model == Some(SimpleMajority) ==> HasNumber(st, Quorum, 1.0) && HasText(st, VoterRole))
    && (st.model == Some(OnChain) ==> HasText(st, ChainId))
    && (st.model == Some(SimpleMajority) || st.model == Some(OnChain) ==>
          && OnlyNumbers(st, Quorum, 1.0, false) && OnlyNumbers(st, TimelockHours, 0.0, false)
          && OnlyNumbers(st, ObjectionThreshold, 1.0, true) && OnlyNumbers(st, ObjectionOverrideQuorum, 1.0, true)
          && DaysPositive(st) && ReviewKnown(st))
  }

  lemma NamesRead(st: Settings, key: ConfigKey)
    ensures st.config.Some? && key in st.config.value ==> Names(st, key, st.config.value[key])
  {
  }

  lemma NeedsRead(st: Settings)
    requires st.config.Some?
    ensures var c := st.config.value;
      && (HasNumber(st, Quorum, 1.0) <==> Quorum in c && c[Quorum].Num? && c[Quorum].n >= 1.0)
      && (HasText(st, VoterRole) <==> VoterRole in c && c[VoterRole].Text?)
      && (HasText(st, ChainId) <==> ChainId in c && c[ChainId].Text?)
  {
    var c := st.config.value;
    if Quorum in c && c[Quorum].Num? && c[Quorum].n >= 1.0 { assert Names(st, Quorum, Num(c[Quorum].n)); }
    if VoterRole in c && c[VoterRole].Text? { assert Names(st, VoterRole, Text(c[VoterRole].id)); }
    if ChainId in c && c[ChainId].Text? { assert Names(st, ChainId, Text(c[ChainId].id)); }
  }

  lemma SoundRead(st: Settings)
    ensures GovernanceSound(st) <==> Recognized(st)
  {
    if st.config.Some? {
      NeedsRead(st);
      hide HasNumber;
      hide HasText;
      NamesRead(st, Quorum);
      NamesRead(st, TimelockHours);
      NamesRead(st, ObjectionThreshold);
      NamesRead(st, ObjectionOverrideQuorum);
      NamesRead(st, ObjectionOverrideDays);
      NamesRead(st, ObjectionReview);
    }
  }

  // ── Every run ─────────────────────────────────────────────────────

  /** The stored settings, if there are any, are recognized. */
  ghost predicate StoredRecognized(records: Records) {
    var at := Key(SettingsRecords, 0);
    at in records && records[at].record.SettingsRecord? ==> Recognized(records[at].record.settings)
  }

  /** Another endpoint writes only recognized settings. */
  ghost predicate RecognizedElsewhere(e: Event) {
    e.OtherWrite? && e.op.Put? && e.op.key == Key(SettingsRecords, 0) && e.op.record.SettingsRecord? ==> Recognized(e.op.record.settings)
  }

  lemma StoredRead(records: Records)
    ensures SettingsSafety.SoundSettings(records) <==> StoredRecognized(records)
  {
    hide GovernanceSound;
    hide Recognized;
    if SettingsOf(records).Some? { SoundRead(SettingsOf(records).value); }
  }

  lemma ElsewhereRead(e: Event)
    ensures SettingsSafety.SoundElsewhere(e) <==> RecognizedElsewhere(e)
  {
    hide GovernanceSound;
    hide Recognized;
    if e.OtherWrite? && e.op.Put? && e.op.record.SettingsRecord? { SoundRead(e.op.record.settings); }
  }

  /** At every point of every run the settings stored are recognized: whatever proposals were voted through, nothing unrecognized took effect. */
  lemma SettingsStayRecognized(states: seq<State>, es: seq<Event>, n: nat)
    requires IsRun(states, es) && StoredRecognized(states[0].records) && n < |states|
    requires forall i | 0 <= i < |es| :: RecognizedElsewhere(es[i])
    ensures StoredRecognized(states[n].records)
  {
    hide Next;
    hide StoredRecognized;
    hide RecognizedElsewhere;
    hide SettingsSafety.SoundSettings;
    hide SettingsSafety.SoundElsewhere;
    StoredRead(states[0].records);
    StoredRead(states[n].records);
    forall i | 0 <= i < |es| ensures SettingsSafety.SoundElsewhere(es[i]) { ElsewhereRead(es[i]); }
    SettingsSafety.SettingsStaySound(states, es, n);
  }

  // ── createProposal ────────────────────────────────────────────────

  ghost predicate Governs(records: Records, m: Model) {
    var at := Key(SettingsRecords, 0);
    at in records && records[at].record.SettingsRecord? && records[at].record.settings.model == Some(m)
  }

  /** The community votes, a write says what to write, proposed settings are recognized, and the proposer's repository could be checked. */
  ghost predicate MayPropose(s: State, e: Event)
    requires e.Create?
  {
    && (Governs(s.records, SimpleMajority) || Governs(s.records, OnChain))
    && (e.action == Write ==> e.proposed.Some?)
    && (e.action == Write && e.target.collection == SettingsRecords && e.proposed.value.SettingsRecord? ==>
          Recognized(e.proposed.value.settings))
    && e.proposer !in e.repos.unknown
  }

  /** A new open proposal, which is all that is stored besides the seed vote if it can be recorded. */
  ghost predicate Proposes(s: State, e: Event, t: State, days: real)
    requires e.Create?
  {
    && t.objections == s.objections
    && Lookup(s.records, s.next).None? && Lookup(t.records, s.next).Some?
    && (forall k: Key | k != ProposalKey(s.next) :: k in t.records <==> k in s.records)
    && (forall k: Key | k != ProposalKey(s.next) && k in s.records :: t.records[k] == s.records[k])
    && StartsOpen(s, e, Lookup(t.records, s.next).value, days)
    && t.votes == s.votes + (if e.proposer in e.repos.missing || e.proposer in e.lost then {}
         else {VoteRow(e.proposer, s.next + 2, s.next + 2, s.next, true, Some(t.records[ProposalKey(s.next)].cid), Some(For), Some(s.clock))})
  }

  lemma MayProposeRead(s: State, e: Event)
    requires e.Create?
    ensures MayPropose(s, e) <==>
      VotingModel(SettingsOf(s.records)) && (e.action == Write ==> e.proposed.Some?)
      && (e.action == Write && e.target.collection == SettingsRecords && e.proposed.value.SettingsRecord? ==>
            GovernanceSound(e.proposed.value.settings))
      && e.proposer !in e.repos.unknown
  {
    hide Recognized;
    hide GovernanceSound;
    if e.proposed.Some? && e.proposed.value.SettingsRecord? { SoundRead(e.proposed.value.settings); }
    CreatePlanRead(s, e);
  }

  /** Creation stores a new open proposal with the stored days to run, or it changes nothing. */
  lemma CreationExactly(s: State, e: Event, days: real)
    requires e.Create? && BookKept(s) && Done(s, e) == PlanOf(s, e) && OpenDaysStand(s.records, days)
    ensures var t := Next(s, e);
      if MayPropose(s, e) then Proposes(s, e, t, days)
      else t.records == s.records && t.votes == s.votes && t.objections == s.objections
  {
    hide GovernanceSound;
    hide TtlDays;
    hide OpenDaysStand;
    OpenDaysRead(s.records, days);
    MayProposeRead(s, e);
    NextKeyIsNew(s);
    hide VotingModel;
    hide MayPropose;
    hide BookKept;
  }

  /** Where the process dies: before anything, or between the proposal and its seed vote. */
  lemma CutCreation(s: State, e: Event)
    requires e.Create?
    ensures var t := Next(s, e);
      && (e.survived == 0 ==> t.records == s.records && t.votes == s.votes && t.log == s.log)
      && (e.survived == 1 ==> Done(s, e) == PlanOf(s, e).(seed := None))
      && (e.survived >= 2 ==> Done(s, e) == PlanOf(s, e))
  {
    hide MayCreate;
    hide NewProposal;
  }

  lemma NextKeyIsNew(s: State)
    requires BookKept(s)
    ensures Lookup(s.records, s.next).None? && ProposalKey(s.next) !in s.records
  {
    assert Reserved(ProposalKey(s.next).collection);
  }

  predicate StartsOpen(s: State, e: Event, p: Proposal, days: real)
    requires e.Create?
  {
    && p.target == e.target && p.action == e.action && p.proposed == e.proposed && p.proposedBy == e.proposer
    && p.status == Open && p.votesFor == (if e.proposer in e.repos.missing then [] else [e.proposer]) && p.votesAgainst == []
    && p.createdAt == s.clock && Falls(p.expiresAt, s.clock, days * 86400000.0)
    && p.evidence && p.cidChain == [] && p.amendments == [] && p.resolvedAt.None? && p.decision.None? && p.applyAt.None?
    && p.appliedAt.None? && p.objectors == {} && p.round.None? && p.roundOutcome.None?
  }

  lemma OpenDaysRead(records: Records, days: real)
    ensures OpenDaysStand(records, days) <==> days == TtlDays(SettingsOf(records))
  {
    Reads(records, ProposalTtlDays);
    hide Stored;
    var v := Get(SettingsOf(records), ProposalTtlDays);
    assert v.Num? ==> Stored(records, ProposalTtlDays, v.n);
  }

  lemma CreatePlanRead(s: State, e: Event)
    requires e.Create?
    ensures VotingModel(SettingsOf(s.records)) <==> Governs(s.records, SimpleMajority) || Governs(s.records, OnChain)
  {
  }

  // ── A settings change ─────────────────────────────────────────────

  /** The field is what the proposal names, removed if that is null, and otherwise as it was. */
  ghost predicate FieldAfter(before: Settings, proposed: Settings, after: Settings, key: ConfigKey) {
    forall v :: Names(after, key, v) <==>
      if exists w :: Names(proposed, key, w) then Names(proposed, key, v) && v != Null else Names(before, key, v)
  }

  ghost predicate MergedInto(before: Settings, proposed: Settings, after: Settings) {
    && after.config.Some?
    && after.model == (if proposed.model.Some? then proposed.model else before.model)
    && (forall key :: FieldAfter(before, proposed, after, key))
    && (forall k :: k in after.rest <==> k in before.rest || k in proposed.rest)
    && (forall k | k in after.rest :: after.rest[k] == if k in proposed.rest then proposed.rest[k] else before.rest[k])
  }

  lemma MergeRead(before: Settings, proposed: Settings)
    requires before.config.Some?
    ensures MergedInto(before, proposed, MergeSettings(before, proposed))
  {
    SweepOrder.MergedFields(before, proposed);
    var after := MergeSettings(before, proposed);
    forall key ensures FieldAfter(before, proposed, after, key) {
      assert SweepOrder.At(after.config.value, key) == SweepOrder.Patched(SweepOrder.At(before.config.value, key), SweepOrder.Named(proposed), key);
      NamesRead(proposed, key);
    }
    forall k ensures k in after.rest <==> k in before.rest || k in proposed.rest { }
  }

  /** Where the settings have no configuration yet, the proposed one is stored as it is; and a proposal without one leaves it. */
  lemma MergeWithoutConfig(before: Settings, proposed: Settings)
    ensures before.config.None? || proposed.config.None? ==>
      MergeSettings(before, proposed).config == (if proposed.config.None? then before.config else proposed.config)
  {
  }

  /**
   A sweep that approves a settings proposal stores the merged settings exactly when
   they are recognized, and otherwise leaves the settings as they were.
   */
  lemma SettingsChangeExactly(s: State, e: Event, p: Proposal, before: Settings, proposed: Settings)
    requires SweepOrder.Approves(s, e) && Lookup(s.records, e.rkey) == Some(p)
    requires p.action == Write && p.target == Key(SettingsRecords, 0) && p.proposed == Some(SettingsRecord(proposed))
    requires SettingsOf(s.records) == Some(before) && before.config.Some?
    ensures exists merged :: (
      MergedInto(before, proposed, merged) && SettingsOf(Next(s, e).records) == Some(if Recognized(merged) then merged else before))
  {
    hide Recognized;
    hide GovernanceSound;
    hide MergedInto;
    hide Next;
    SweepOrder.ApprovedIsDue(s, e);
    hide SweepOrder.Approves;
    MergeRead(before, proposed);
    var merged := MergeSettings(before, proposed);
    SoundRead(merged);
    SweepOrder.SweepChanges(s, e, e.rkey);
    SweepOrder.ChangedByMerge(before, p);
    hide Changed;
    hide MergeSettings;
  }

  /** Any other approved write stores what it proposes, and an approved deletion leaves nothing. */
  lemma PlainChangeExactly(s: State, e: Event, p: Proposal)
    requires SweepOrder.Approves(s, e) && Lookup(s.records, e.rkey) == Some(p) && p.target.collection != SettingsRecords
    ensures Content(Next(s, e).records, p.target) ==
      match p.action
      case Delete => None
      case Write => if p.proposed.Some? then p.proposed else Content(s.records, p.target)
  {
    hide Next;
    SweepOrder.SweepChanges(s, e, e.rkey);
    SweepOrder.ChangedOutright(Content(s.records, p.target), p);
  }
}
