/**
 A community's settings under governance: whatever proposals are voted through, no
 proposal's change leaves behind a governance model that nothing recognizes.
 */
module SettingsSafety {
  import opened Wrappers
  import opened DecisionRules
  import opened VoteTally
  import opened DelegationLoop
  import opened ProposalRecords
  import opened ProposalMachine

  predicate SoundSettings(records: Records) {
    SettingsOf(records).Some? ==> GovernanceSound(SettingsOf(records).value)
  }

  /** Endpoints outside governance write settings only when they are sound. */
  predicate SoundElsewhere(e: Event) {
    e.OtherWrite? && e.op.Put? && e.op.key == SETTINGS_KEY ==> SettingsSound(e.op.record)
  }

  /** The change of a commit, when it writes the settings, writes sound ones. */
  predicate SoundChange(c: Commit) {
    c.change.Some? && c.change.value.Put? && c.change.value.key == SETTINGS_KEY ==> SettingsSound(c.change.value.record)
  }

  lemma ApplicableChangeIsSound(records: Records, p: Proposal, cid: Cid)
    requires !Unapplicable(records, p)
    ensures SoundChange(Commit(None, None, ChangeOp(records, p, cid)))
  {
  }

  lemma CastChangeIsSound(s: State, r: Rkey, p: Proposal, voter: Did, side: Side, rows: seq<DelegationRow>, repos: Repos, lost: set<Did>)
    requires ProposalKey(r) in s.records
    ensures SoundChange(CastPlan(s, r, p, voter, side, rows, repos, lost).commit.value)
  {
    hide Unapplicable;
    hide ChangeOp;
    hide SettingsSound;
    var names := NewNames(p, voter, rows, repos);
    if !Unapplicable(s.records, p) { ApplicableChangeIsSound(s.records, p, s.next + |names| + 2); }
  }

  lemma PlannedChangeIsSound(s: State, e: Event)
    requires SoundElsewhere(e)
    ensures PlanOf(s, e).commit.Some? ==> SoundChange(PlanOf(s, e).commit.value)
  {
    hide CastPlan;
    hide Unapplicable;
    hide ChangeOp;
    hide Lineage;
    hide Objectors;
    match e
    case Vote(r, voter, side, order, repos, lost, _) =>
      if Lookup(s.records, r).Some? {
        CastChangeIsSound(s, r, Lookup(s.records, r).value, voter, side, DelegationRows(s.records, order), repos, lost);
      }
    case ApplyDue(r, _, _) =>
      var p := Lookup(s.records, r);
      if p.Some? && !Unapplicable(s.records, p.value) { ApplicableChangeIsSound(s.records, p.value, s.next + 1); }
    case _ =>
  }

  /** Besides its change a commit writes only decisions and proposals. */
  predicate AtHome(c: Commit) {
    && (c.decision.Some? ==> c.decision.value.key.collection == Decisions)
    && (c.proposal.Some? ==> c.proposal.value.key.collection == Proposals)
  }

  lemma PlannedAtHome(s: State, e: Event)
    ensures PlanOf(s, e).commit.Some? ==> AtHome(PlanOf(s, e).commit.value)
  {
    hide NewNames;
    hide TallyOf;
    hide Ruling;
    hide VoteRows;
    hide Lineage;
    hide Objectors;
    hide ChangeOp;
    hide Unapplicable;
  }

  lemma SoundCommit(records: Records, c: Commit)
    requires SoundSettings(records) && AtHome(c) && SoundChange(c)
    ensures SoundSettings(ApplyCommit(records, c))
  {
  }

  lemma SoundNext(s: State, e: Event)
    requires SoundSettings(s.records) && SoundElsewhere(e)
    ensures SoundSettings(Next(s, e).records)
  {
    hide PlanOf;
    hide SoundSettings;
    PlannedChangeIsSound(s, e);
    PlannedAtHome(s, e);
    if Done(s, e).commit.Some? { SoundCommit(s.records, Done(s, e).commit.value); }
  }

  /** At every point of every run, whatever proposals aim at, the settings record, if there is one, is one the rules recognize. */
  lemma {:induction false} SettingsStaySound(states: seq<State>, es: seq<Event>, n: nat)
    requires IsRun(states, es) && SoundSettings(states[0].records) && n < |states|
    requires forall i | 0 <= i < |es| :: SoundElsewhere(es[i])
    ensures SoundSettings(states[n].records)
    decreases n
  {
    hide Next;
    hide SoundSettings;
    hide SoundElsewhere;
    if n > 0 {
      SettingsStaySound(states, es, n - 1);
      var e := es[n - 1];
      SoundNext(states[n - 1], e);
    }
  }
}
