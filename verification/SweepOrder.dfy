/**
 When the order of two changes to one record shows.  A sweep takes due proposals by
 record key, not by when they fell due; and handlers of two proposals can each compute
 a settings change from the record as it was before the other.  Both come to nothing
 exactly under conditions on the fields the two changes name and on which of them the
 settings rules refuse.
 */
module SweepOrder {
  import opened Wrappers
  import opened DecisionRules
  import opened ProposalRecords
  import opened ProposalMachine
  import opened ProposalEvolution
  import opened ContestWindows
  import opened EagerWindows
  import LazyRequests
  import LazyWindows

  // ── Merging, field by field ───────────────────────────────────────

  function At<K, V>(m: map<K, V>, k: K): Option<V> { if k in m then Some(m[k]) else None }

  lemma SameMap<K, V>(m: map<K, V>, n: map<K, V>)
    ensures m == n <==> forall k :: At(m, k) == At(n, k)
  {
    if forall k :: At(m, k) == At(n, k) {
      forall k ensures (k in m <==> k in n) && (k in m ==> m[k] == n[k]) { assert At(m, k) == At(n, k); }
    }
  }

  /** The configuration keys a proposal names. */
  function Named(a: Settings): Config { if a.config.Some? then a.config.value else map[] }

  /** What a patch makes of one value; null removes it. */
  function Patched(v: Option<Value>, patch: Config, k: ConfigKey): Option<Value> {
    if k !in patch then v else if patch[k] == Null then None else Some(patch[k])
  }

  function Rest(v: Option<nat>, patch: map<nat, nat>, k: nat): Option<nat> { if k in patch then Some(patch[k]) else v }

  function ModelAfter(c: Settings, a: Settings): Option<Model> { if a.model.Some? then a.model else c.model }

  lemma MergedFields(c: Settings, a: Settings)
    requires c.config.Some?
    ensures var m := MergeSettings(c, a);
      && m.config.Some? && m.model == ModelAfter(c, a)
      && (forall k :: At(m.config.value, k) == Patched(At(c.config.value, k), Named(a), k))
      && (forall k :: At(m.rest, k) == Rest(At(c.rest, k), a.rest, k))
  {
  }

  lemma SameSettings(x: Settings, y: Settings)
    requires x.config.Some? && y.config.Some?
    ensures x == y <==>
      && x.model == y.model
      && (forall k :: At(x.config.value, k) == At(y.config.value, k))
      && (forall k :: At(x.rest, k) == At(y.rest, k))
  {
    SameMap(x.config.value, y.config.value);
    SameMap(x.rest, y.rest);
  }

  /** `a` would change no field of `x`. */
  ghost predicate Idle(x: Settings, a: Settings)
    requires x.config.Some?
  {
    && (a.model.Some? ==> a.model == x.model)
    && (forall k | k in Named(a) :: Patched(At(x.config.value, k), Named(a), k) == At(x.config.value, k))
    && (forall k | k in a.rest :: At(x.rest, k) == Some(a.rest[k]))
  }

  /** Whatever `a` would change of `c`, `b` names too. */
  ghost predicate Covered(c: Settings, a: Settings, b: Settings)
    requires c.config.Some?
  {
    && (a.model.Some? && b.model.None? ==> a.model == c.model)
    && (forall k | k in Named(a) && k !in Named(b) :: Patched(At(c.config.value, k), Named(a), k) == At(c.config.value, k))
    && (forall k | k in a.rest && k !in b.rest :: At(c.rest, k) == Some(a.rest[k]))
  }

  /** `a` and `b` make the same of every field either names. */
  ghost predicate SameEffect(c: Settings, a: Settings, b: Settings)
    requires c.config.Some?
  {
    && ModelAfter(c, a) == ModelAfter(c, b)
    && (forall k | k in Named(a) || k in Named(b) ::
          Patched(At(c.config.value, k), Named(a), k) == Patched(At(c.config.value, k), Named(b), k))
    && (forall k | k in a.rest || k in b.rest :: Rest(At(c.rest, k), a.rest, k) == Rest(At(c.rest, k), b.rest, k))
  }

  /** `a` and `b` agree on every field both name. */
  ghost predicate Agree(a: Settings, b: Settings) {
    && (a.model.Some? && b.model.Some? ==> a.model == b.model)
    && (forall k | k in Named(a) && k in Named(b) :: Named(a)[k] == Named(b)[k])
    && (forall k | k in a.rest && k in b.rest :: a.rest[k] == b.rest[k])
  }

  lemma IdleByFields(c: Settings, a: Settings)
    requires c.config.Some?
    ensures MergeSettings(c, a) == c <==> Idle(c, a)
  {
    MergedFields(c, a);
    SameSettings(MergeSettings(c, a), c);
  }

  lemma SameEffectByFields(c: Settings, a: Settings, b: Settings)
    requires c.config.Some?
    ensures MergeSettings(c, a) == MergeSettings(c, b) <==> SameEffect(c, a, b)
  {
    MergedFields(c, a);
    MergedFields(c, b);
    SameSettings(MergeSettings(c, a), MergeSettings(c, b));
  }

  lemma CoveredByFields(c: Settings, a: Settings, b: Settings)
    requires c.config.Some?
    ensures MergeSettings(MergeSettings(c, a), b) == MergeSettings(c, b) <==> Covered(c, a, b)
  {
    hide MergeSettings;
    MergedFields(c, a);
    MergedFields(MergeSettings(c, a), b);
    MergedFields(c, b);
    SameSettings(MergeSettings(MergeSettings(c, a), b), MergeSettings(c, b));
  }

  lemma AgreeByFields(c: Settings, a: Settings, b: Settings)
    requires c.config.Some?
    ensures MergeSettings(MergeSettings(c, a), b) == MergeSettings(MergeSettings(c, b), a) <==> Agree(a, b)
  {
    hide MergeSettings;
    MergedFields(c, a);
    MergedFields(c, b);
    MergedFields(MergeSettings(c, a), b);
    MergedFields(MergeSettings(c, b), a);
    var ab, ba := MergeSettings(MergeSettings(c, a), b), MergeSettings(MergeSettings(c, b), a);
    SameSettings(ab, ba);
    if ab == ba {
      forall k | k in Named(a) && k in Named(b) ensures Named(a)[k] == Named(b)[k] { assert At(ab.config.value, k) == At(ba.config.value, k); }
      forall k | k in a.rest && k in b.rest ensures a.rest[k] == b.rest[k] { assert At(ab.rest, k) == At(ba.rest, k); }
    }
    if Agree(a, b) {
      forall k ensures At(ab.config.value, k) == At(ba.config.value, k) { }
      forall k ensures At(ab.rest, k) == At(ba.rest, k) { }
    }
  }

  // ── Two changes in either order ───────────────────────────────────

  /** The change merges into the settings as they stand; any other puts the same whatever it finds. */
  predicate Merges(p: Proposal) {
    p.action == Write && p.target == SETTINGS_KEY && p.proposed.Some? && p.proposed.value.SettingsRecord?
  }

  /** A change that does not merge, and is not refused. */
  predicate Acts(p: Proposal) {
    p.action == Delete || (p.proposed.Some? && (p.target.collection == SettingsRecords ==> SettingsSound(p.proposed.value)))
  }

  function Outcome(p: Proposal): Option<Record> { if p.action == Delete then None else p.proposed }

  /** Two merges: which the rules refuse, in which order, and then what they leave. */
  ghost predicate MergeOrderInvisible(c: Settings, a: Settings, b: Settings)
    requires c.config.Some?
  {
    var (ma, mb) := (MergeSettings(c, a), MergeSettings(c, b));
    var (both, other) := (GovernanceSound(MergeSettings(ma, b)), GovernanceSound(MergeSettings(mb, a)));
    if !GovernanceSound(ma) && !GovernanceSound(mb) then true
    else if !GovernanceSound(ma) then other ==> Idle(MergedConfigured(c, b), a)
    else if !GovernanceSound(mb) then both ==> Idle(MergedConfigured(c, a), b)
    else if both && other then Agree(a, b)
    else if both then Covered(c, a, b)
    else if other then Covered(c, b, a)
    else SameEffect(c, a, b)
  }

  function MergedConfigured(c: Settings, a: Settings): (m: Settings)
    requires c.config.Some?
    ensures m == MergeSettings(c, a) && m.config.Some?
  {
    MergeSettings(c, a)
  }

  /** The record ends the same in either order. */
  ghost predicate OrderInvisible(content: Option<Record>, p: Proposal, q: Proposal)
    requires Merges(p) && Merges(q) ==> Configured(content)
  {
    if Merges(p) && Merges(q) then MergeOrderInvisible(content.value.settings, p.proposed.value.settings, q.proposed.value.settings)
    else if Merges(p) then !Acts(q) || !SettingsSound(p.proposed.value)
    else if Merges(q) then !Acts(p) || !SettingsSound(q.proposed.value)
    else !Acts(p) || !Acts(q) || Outcome(p) == Outcome(q)
  }

  /** Settings with a configuration, as every voting community has. */
  predicate Configured(content: Option<Record>) {
    content.Some? && content.value.SettingsRecord? && content.value.settings.config.Some?
  }

  lemma ChangedByMerge(c: Settings, p: Proposal)
    requires Merges(p)
    ensures var m := MergeSettings(c, p.proposed.value.settings);
      Changed(Some(SettingsRecord(c)), Some(p)) == Some(SettingsRecord(if GovernanceSound(m) then m else c))
  {
  }

  lemma ChangedOutright(content: Option<Record>, p: Proposal)
    ensures !Merges(p) ==> Changed(content, Some(p)) == if Acts(p) then Outcome(p) else content
    ensures Merges(p) && !(content.Some? && content.value.SettingsRecord?) ==>
      Changed(content, Some(p)) == if SettingsSound(p.proposed.value) then p.proposed else content
  {
    hide GovernanceSound;
    hide MergeSettings;
  }

  lemma MergeOrder(c: Settings, p: Proposal, q: Proposal)
    requires c.config.Some? && Merges(p) && Merges(q)
    ensures var content := Some(SettingsRecord(c));
      Changed(Changed(content, Some(p)), Some(q)) == Changed(Changed(content, Some(q)), Some(p)) <==>
      MergeOrderInvisible(c, p.proposed.value.settings, q.proposed.value.settings)
  {
    hide GovernanceSound;
    hide MergeSettings;
    hide Changed;
    hide Idle;
    hide Covered;
    hide SameEffect;
    hide Agree;
    var a, b := p.proposed.value.settings, q.proposed.value.settings;
    var ma, mb := MergedConfigured(c, a), MergedConfigured(c, b);
    ChangedByMerge(c, p);
    ChangedByMerge(c, q);
    ChangedByMerge(ma, q);
    ChangedByMerge(mb, p);
    IdleByFields(ma, b);
    IdleByFields(mb, a);
    CoveredByFields(c, a, b);
    CoveredByFields(c, b, a);
    AgreeByFields(c, a, b);
    SameEffectByFields(c, a, b);
  }

  /** Two changes to one record come to the same in either order if and only if their guards and fields say so. */
  lemma OrderExactly(content: Option<Record>, p: Proposal, q: Proposal)
    requires p.target == q.target && (Merges(p) && Merges(q) ==> Configured(content))
    ensures Changed(Changed(content, Some(p)), Some(q)) == Changed(Changed(content, Some(q)), Some(p)) <==>
      OrderInvisible(content, p, q)
  {
    hide MergeOrderInvisible;
    hide Changed;
    hide GovernanceSound;
    if Merges(p) && Merges(q) {
      MergeOrder(content.value.settings, p, q);
    } else {
      ChangedOutright(content, p);
      ChangedOutright(content, q);
      ChangedOutright(Outcome(p), q);
      ChangedOutright(Outcome(q), p);
      if Merges(p) && !Acts(q) { assert Changed(Changed(content, Some(p)), Some(q)) == Changed(content, Some(p)) by { ChangedOutright(Changed(content, Some(p)), q); } }
      if Merges(q) && !Acts(p) { assert Changed(Changed(content, Some(q)), Some(p)) == Changed(content, Some(q)) by { ChangedOutright(Changed(content, Some(q)), p); } }
      if Merges(p) && Acts(q) { ChangedOutright(Changed(content, Some(p)), q); }
      if Merges(q) && Acts(p) { ChangedOutright(Changed(content, Some(q)), p); }
    }
  }

  // ── Two sweeps ────────────────────────────────────────────────────

  /** The sweep finds its proposal due, below the threshold, and about no record of governance's own. */
  ghost predicate Approves(s: State, e: Event) {
    && e.ApplyDue? && e.survived >= 1 && Lookup(s.records, e.rkey).Some?
    && var p := Lookup(s.records, e.rkey).value;
       && IsDue(p, s.clock) && !Reserved(p.target.collection)
       && |Objectors(s.objections, e.rkey, p)| < ObjectionThresholdOf(SettingsOf(s.records))
  }

  lemma ApprovalCloses(s: State, e: Event)
    requires Approves(s, e)
    ensures Done(s, e).commit.Some? && Closes(s, Done(s, e).commit.value, e.rkey, Lookup(s.records, e.rkey).value, s.next + 1)
    ensures Next(s, e).records == ApplyCommit(s.records, Done(s, e).commit.value)
  {
    hide Objectors;
    hide Lineage;
    hide ChangeOp;
    hide Unapplicable;
  }

  /** One sweep: its own record changes, and no other proposal. */
  lemma SweepChanges(s: State, e: Event, q: Rkey)
    requires Approves(s, e)
    ensures var p, k := Lookup(s.records, e.rkey).value, Lookup(s.records, e.rkey).value.target;
      && Content(Next(s, e).records, k) == Changed(Content(s.records, k), Some(p))
      && (q != e.rkey ==> Lookup(Next(s, e).records, q) == Lookup(s.records, q))
  {
    hide Approves;
    hide Closes;
    hide Changed;
    ApprovedIsDue(s, e);
    var p := Lookup(s.records, e.rkey).value;
    ApprovalCloses(s, e);
    var c := Done(s, e).commit.value;
    ClosedContent(s, c, e.rkey, p, s.next + 1, p.target);
    ClosedProposals(s, c, e.rkey, p, s.next + 1, q);
  }

  lemma ApprovedIsDue(s: State, e: Event)
    requires Approves(s, e)
    ensures e.ApplyDue? && Lookup(s.records, e.rkey).Some? && IsDue(Lookup(s.records, e.rkey).value, s.clock)
    ensures !Reserved(Lookup(s.records, e.rkey).value.target.collection)
  {
  }

  /**
   A sweep takes due proposals by record key, not by when they fell due.  For two that
   are about one record, the record shows the difference if and only if their changes
   do not come to the same in either order, refusals included.
   */
  lemma SweepOrderInvisible(s: State, e: Event, f: Event)
    requires Approves(s, e) && Approves(s, f) && Approves(Next(s, e), f) && Approves(Next(s, f), e) && e.rkey != f.rkey
    requires var p, q := Lookup(s.records, e.rkey).value, Lookup(s.records, f.rkey).value;
      p.target == q.target && (Merges(p) && Merges(q) ==> Configured(Content(s.records, p.target)))
    ensures var p, q := Lookup(s.records, e.rkey).value, Lookup(s.records, f.rkey).value;
      Content(Next(Next(s, e), f).records, p.target) == Content(Next(Next(s, f), e).records, p.target) <==>
      OrderInvisible(Content(s.records, p.target), p, q)
  {
    hide Next;
    hide Approves;
    hide Changed;
    hide OrderInvisible;
    ApprovedIsDue(s, e);
    ApprovedIsDue(s, f);
    var p, q := Lookup(s.records, e.rkey).value, Lookup(s.records, f.rkey).value;
    SweepChanges(s, e, f.rkey);
    SweepChanges(s, f, e.rkey);
    SweepChanges(Next(s, e), f, e.rkey);
    SweepChanges(Next(s, f), e, f.rkey);
    OrderExactly(Content(s.records, p.target), p, q);
  }

  /** The same as the condition of the refinement: of two due windows about one record, the later may be closed first. */
  lemma OutOfTurnExactly(s: State, r: Rkey, p: Proposal, q: Rkey, later: Proposal)
    requires Lookup(s.records, r) == Some(p) && Lookup(s.records, q) == Some(later) && r != q && IsDue(later, s.clock)
    requires DueFor(s, later.target) == {r, q} && IsFirst(s.records, {r, q}, r)
    requires p.target == later.target && (Merges(p) && Merges(later) ==> Configured(Content(s.records, later.target)))
    ensures InTurn(s, q, later) <==> OrderInvisible(Content(s.records, later.target), p, later)
  {
    hide Changed;
    hide OrderInvisible;
    hide Fold;
    var content := Content(s.records, later.target);
    assert {r, q} - {q} == {r} && {r, q} - {r} == {q};
    FoldHead(s.records, {r, q}, r, content);
    LazyRequests.FoldOne(s.records, q, Changed(content, Some(p)));
    LazyRequests.FoldOne(s.records, r, Changed(content, Some(later)));
    OrderExactly(content, p, later);
  }

  const ON_CHAIN := Settings(Some(OnChain), Some(map[ChainId := Text(7), Quorum := Num(3.0), VoterRole := Text(9)]), map[])
  const LEAVE_CHAIN := Settings(Some(SimpleMajority), Some(map[Quorum := Num(3.0), VoterRole := Text(9)]), map[])
  const DROP_CHAIN_ID := Settings(None, Some(map[ChainId := Null]), map[])

  lemma LeavingFirst()
    ensures MergeSettings(ON_CHAIN, LEAVE_CHAIN) == ON_CHAIN.(model := Some(SimpleMajority))
    ensures GovernanceSound(MergeSettings(ON_CHAIN, LEAVE_CHAIN))
  {
    assert PatchConfig(ON_CHAIN.config.value, LEAVE_CHAIN.config.value) == ON_CHAIN.config.value;
  }

  lemma DroppingSecond()
    ensures GovernanceSound(MergeSettings(ON_CHAIN.(model := Some(SimpleMajority)), DROP_CHAIN_ID))
    ensures !Idle(ON_CHAIN.(model := Some(SimpleMajority)), DROP_CHAIN_ID)
  {
    var m := MergeSettings(ON_CHAIN.(model := Some(SimpleMajority)), DROP_CHAIN_ID);
    assert m.config.value == map[Quorum := Num(3.0), VoterRole := Text(9)];
    assert ChainId in Named(DROP_CHAIN_ID);
  }

  lemma DroppingFirst()
    ensures !GovernanceSound(MergeSettings(ON_CHAIN, DROP_CHAIN_ID))
  {
    assert ChainId !in MergeSettings(ON_CHAIN, DROP_CHAIN_ID).config.value;
  }

  /**
   Agreeing on every shared field is not enough.  A proposal to drop the chain id is
   refused while the community votes on chain, and applies once another proposal has
   moved it to a simple majority.
   */
  lemma AgreementIsNotEnough()
    ensures Agree(LEAVE_CHAIN, DROP_CHAIN_ID) && !MergeOrderInvisible(ON_CHAIN, LEAVE_CHAIN, DROP_CHAIN_ID)
  {
    hide GovernanceSound;
    hide MergeSettings;
    hide Idle;
    LeavingFirst();
    DroppingSecond();
    DroppingFirst();
  }

  // ── Two handlers at once ──────────────────────────────────────────

  /** Nothing of the first change is lost when the second was computed without it. */
  ghost predicate NothingLost(c: Settings, a: Settings, b: Settings)
    requires c.config.Some?
  {
    var ma := MergedConfigured(c, a);
    var both := GovernanceSound(MergeSettings(ma, b));
    if !GovernanceSound(ma) then true
    else if !GovernanceSound(MergeSettings(c, b)) then both ==> Idle(ma, b)
    else if both then Covered(c, a, b)
    else SameEffect(c, a, b)
  }

  /** What the second of two commits leaves of the settings when both were computed from the same records. */
  function Interleaved(c: Settings, a: Settings, b: Settings): Settings {
    if GovernanceSound(MergeSettings(c, b)) then MergeSettings(c, b)
    else if GovernanceSound(MergeSettings(c, a)) then MergeSettings(c, a) else c
  }

  lemma LostByFields(c: Settings, p: Proposal, q: Proposal)
    requires c.config.Some? && Merges(p) && Merges(q)
    ensures var a, b := p.proposed.value.settings, q.proposed.value.settings;
      Some(SettingsRecord(Interleaved(c, a, b))) == Changed(Changed(Some(SettingsRecord(c)), Some(p)), Some(q)) <==> NothingLost(c, a, b)
  {
    hide GovernanceSound;
    hide MergeSettings;
    hide Changed;
    hide Idle;
    hide Covered;
    hide SameEffect;
    var a, b := p.proposed.value.settings, q.proposed.value.settings;
    var ma := MergedConfigured(c, a);
    ChangedByMerge(c, p);
    ChangedByMerge(c, q);
    ChangedByMerge(ma, q);
    IdleByFields(ma, b);
    CoveredByFields(c, a, b);
    SameEffectByFields(c, a, b);
  }

  lemma StaleCommit(s: State, e: Event, records: Records)
    requires Approves(s, e) && Merges(Lookup(s.records, e.rkey).value) && SettingsOf(s.records).Some?
    ensures var m := MergeSettings(SettingsOf(s.records).value, Lookup(s.records, e.rkey).value.proposed.value.settings);
      Content(ApplyCommit(records, Done(s, e).commit.value), SETTINGS_KEY) ==
        if GovernanceSound(m) then Some(SettingsRecord(m)) else Content(records, SETTINGS_KEY)
  {
    hide MergeSettings;
    hide GovernanceSound;
    hide Done;
    hide Approves;
    ApprovalCloses(s, e);
    ApprovedIsDue(s, e);
  }

  /**
   The lock is per proposal, so two handlers can each compute a settings change from
   the same records.  The commit that comes second then loses the first change, unless
   the second names whatever the first would change, or one of them is refused.
   */
  lemma InterleavedUpdateLost(s: State, e: Event, f: Event)
    requires Approves(s, e) && Approves(s, f) && Approves(Next(s, e), f) && e.rkey != f.rkey
    requires Merges(Lookup(s.records, e.rkey).value) && Merges(Lookup(s.records, f.rkey).value)
    requires Configured(Content(s.records, SETTINGS_KEY))
    ensures var c := SettingsOf(s.records).value;
      var a, b := Lookup(s.records, e.rkey).value.proposed.value.settings, Lookup(s.records, f.rkey).value.proposed.value.settings;
      Content(ApplyCommit(ApplyCommit(s.records, Done(s, e).commit.value), Done(s, f).commit.value), SETTINGS_KEY)
        == Content(Next(Next(s, e), f).records, SETTINGS_KEY) <==>
      NothingLost(c, a, b)
  {
    hide Next;
    hide Done;
    hide Approves;
    hide Changed;
    hide NothingLost;
    hide MergeSettings;
    hide GovernanceSound;
    ApprovedIsDue(s, e);
    ApprovedIsDue(s, f);
    ApprovalCloses(s, e);
    ApprovalCloses(s, f);
    SweepChanges(s, e, f.rkey);
    SweepChanges(Next(s, e), f, e.rkey);
    StaleCommit(s, e, s.records);
    StaleCommit(s, f, ApplyCommit(s.records, Done(s, e).commit.value));
    LostByFields(SettingsOf(s.records).value, Lookup(s.records, e.rkey).value, Lookup(s.records, f.rkey).value);
  }
}
