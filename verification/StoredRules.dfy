/**
 What the settings record of a repository says a number is, read off the record
 itself: the stored value where it is one the rules accept, and the default where no
 such value is stored.
 */
module StoredRules {
  import opened Wrappers
  import opened DecisionRules
  import opened ProposalRecords

  /** The settings record states this value under `governanceConfig.key`. */
  ghost predicate States(records: Records, key: ConfigKey, v: Value) {
    var at := Key(SettingsRecords, 0);
    && at in records && records[at].record.SettingsRecord?
    && records[at].record.settings.config.Some?
    && key in records[at].record.settings.config.value
    && records[at].record.settings.config.value[key] == v
  }

  ghost predicate Stored(records: Records, key: ConfigKey, n: real) { States(records, key, Num(n)) }

  /** Any nonzero number stands as it is; the default is 3. */
  ghost predicate QuorumStands(records: Records, q: real) {
    (q != 0.0 && Stored(records, Quorum, q)) || (q == 3.0 && forall n | Stored(records, Quorum, n) :: n == 0.0)
  }

  /** Hours to wait before a change: any number from zero on; the default is 24. */
  ghost predicate HoursStand(records: Records, h: real) {
    (h >= 0.0 && Stored(records, TimelockHours, h)) || (h == 24.0 && forall n | Stored(records, TimelockHours, n) :: n < 0.0)
  }

  /** Objections that hold a change: any positive integer; the default is 1. */
  ghost predicate ThresholdStands(records: Records, n: nat) {
    || (n >= 1 && Stored(records, ObjectionThreshold, n as real))
    || (n == 1 && forall x | Stored(records, ObjectionThreshold, x) :: x < 1.0 || x.Floor as real != x)
  }

  /** Days an override round lasts: any positive number; the default is 7. */
  ghost predicate DaysStand(records: Records, d: real) {
    (d > 0.0 && Stored(records, ObjectionOverrideDays, d)) || (d == 7.0 && forall n | Stored(records, ObjectionOverrideDays, n) :: n <= 0.0)
  }

  /** Days a proposal is open: any nonzero number; the default is 7. */
  ghost predicate OpenDaysStand(records: Records, d: real) {
    (d != 0.0 && Stored(records, ProposalTtlDays, d)) || (d == 7.0 && forall n | Stored(records, ProposalTtlDays, n) :: n == 0.0)
  }

  /** The bar of an override round: any positive integer; else two thirds of the electorate, more than the quorum, at most all, at least one. */
  ghost predicate BarStands(records: Records, electorate: nat, bar: real) {
    || (bar >= 1.0 && bar.Floor as real == bar && Stored(records, ObjectionOverrideQuorum, bar))
    || ((forall n | Stored(records, ObjectionOverrideQuorum, n) :: n < 1.0 || n.Floor as real != n)
        && forall q, thirds: nat | QuorumStands(records, q) && IsTwoThirds(electorate, thirds) ::
             bar == Clamped(if q + 1.0 > thirds as real then q + 1.0 else thirds as real, electorate))
  }

  /** The least whole number that is two thirds of the electorate or more. */
  predicate IsTwoThirds(electorate: nat, thirds: nat) { 2 * electorate <= 3 * thirds < 2 * electorate + 3 }

  function Clamped(target: real, electorate: nat): real {
    if electorate == 0 then 1.0
    else if target > electorate as real then electorate as real
    else if target < 1.0 then 1.0 else target
  }

  /** `t` is the millisecond `ms` after `start`, rounded down. */
  predicate Falls(t: Time, start: Time, ms: real) { t as real <= start as real + ms < t as real + 1.0 }

  // ── The rules read the same ───────────────────────────────────────

  lemma Reads(records: Records, key: ConfigKey)
    ensures forall n :: Stored(records, key, n) <==> Get(SettingsOf(records), key) == Num(n)
  {
  }

  lemma ReadsText(records: Records, key: ConfigKey, v: Value)
    ensures v != Null ==> (States(records, key, v) <==> Get(SettingsOf(records), key) == v)
  {
  }

  lemma QuorumRead(records: Records, q: real)
    ensures QuorumStands(records, q) <==> q == QuorumOf(SettingsOf(records))
  {
    Reads(records, Quorum);
    hide Stored;
    assert Get(SettingsOf(records), Quorum).Num? ==> Stored(records, Quorum, Get(SettingsOf(records), Quorum).n);
  }

  lemma HoursRead(records: Records, h: real)
    ensures HoursStand(records, h) <==> h == TimelockHoursOf(SettingsOf(records))
  {
    Reads(records, TimelockHours);
    hide Stored;
    assert Get(SettingsOf(records), TimelockHours).Num? ==> Stored(records, TimelockHours, Get(SettingsOf(records), TimelockHours).n);
  }

  lemma ThresholdRead(records: Records, n: nat)
    ensures ThresholdStands(records, n) <==> n == ObjectionThresholdOf(SettingsOf(records))
  {
    Reads(records, ObjectionThreshold);
    hide Stored;
    var v := Get(SettingsOf(records), ObjectionThreshold);
    assert v.Num? ==> Stored(records, ObjectionThreshold, v.n);
    assert v.Num? && v.n.Floor as real == v.n && v.n.Floor == n ==> n as real == v.n;
  }

  lemma DaysRead(records: Records, d: real)
    ensures DaysStand(records, d) <==> d == OverrideDaysOf(SettingsOf(records))
  {
    Reads(records, ObjectionOverrideDays);
    hide Stored;
    var v := Get(SettingsOf(records), ObjectionOverrideDays);
    assert v.Num? ==> Stored(records, ObjectionOverrideDays, v.n);
  }

  lemma ThirdsRead(electorate: nat, thirds: nat)
    ensures IsTwoThirds(electorate, thirds) <==> thirds == TwoThirds(electorate)
  {
  }

  lemma BarRead(records: Records, electorate: nat, bar: real)
    ensures BarStands(records, electorate, bar) <==>
      bar == OverrideBar(SettingsOf(records), QuorumOf(SettingsOf(records)), electorate)
  {
    Reads(records, ObjectionOverrideQuorum);
    hide Stored;
    var v := Get(SettingsOf(records), ObjectionOverrideQuorum);
    assert v.Num? ==> Stored(records, ObjectionOverrideQuorum, v.n);
    var q, thirds := QuorumOf(SettingsOf(records)), TwoThirds(electorate);
    QuorumRead(records, q);
    ThirdsRead(electorate, thirds);
    forall x | QuorumStands(records, x) ensures x == q { QuorumRead(records, x); }
    forall n: nat | IsTwoThirds(electorate, n) ensures n == thirds { ThirdsRead(electorate, n); }
    hide QuorumStands;
    ClampedRead(q, thirds, electorate);
  }

  lemma ClampedRead(q: real, thirds: nat, electorate: nat)
    ensures Max(1.0, Min(Max(q + 1.0, thirds as real), electorate as real)) ==
      Clamped(if q + 1.0 > thirds as real then q + 1.0 else thirds as real, electorate)
  {
  }
}
