/**
 An objection cut off between its record and the hold it causes.  The eager machine
 holds the proposal at the end of its window, the lazy one whenever it sweeps, and only
 then starts the clock of the override round.
 */
module LateHolds {
  import opened Wrappers
  import opened DecisionRules
  import opened ProposalRecords
  import opened ProposalMachine
  import opened ProposalEvolution
  import opened ContestWindows
  import opened EagerWindows
  import LazyWindows

  lemma CutObjection(s: State, e: Event)
    requires e.Object? && e.survived == 1 && PlanOf(s, e).objection.Some?
    ensures Next(s, e).records == s.records && Next(s, e).clock == s.clock
    ensures Lookup(s.records, e.rkey).Some? && MayObject(Lookup(s.records, e.rkey).value, s.clock)
    ensures PlanOf(s, e).commit.None? <==>
      |Objectors(Next(s, e).objections, e.rkey, Lookup(s.records, e.rkey).value)| < ObjectionThresholdOf(SettingsOf(s.records))
  {
    hide Objectors;
    hide Lineage;
    hide Held;
    assert Next(s, e).objections == s.objections + {PlanOf(s, e).objection.value};
  }

  /** What a sweep makes of a due proposal: approved below the threshold, else held, from now. */
  lemma SweepHolds(s: State, r: Rkey, electorate: nat)
    requires BookKept(s) && Lookup(s.records, r).Some? && IsDue(Lookup(s.records, r).value, s.clock)
    requires !Reserved(Lookup(s.records, r).value.target.collection)
    ensures var p, q := Lookup(s.records, r).value, Lookup(Next(s, ApplyDue(r, electorate, 1)).records, r);
      q.Some? && q.value.status ==
        (if |Objectors(s.objections, r, p)| < ObjectionThresholdOf(SettingsOf(s.records)) then Decided(Approved)
         else if HoldIsFinal(SettingsOf(s.records)) then Objected else Override)
  {
    hide Objectors;
    hide OverrideBar;
    hide OverrideExpiresAt;
    hide Lineage;
    hide ChangeOp;
    hide Unapplicable;
    hide BookKept;
    PlainUnlessAsked(s, ApplyDue(r, electorate, 1));
    StoredAfter(s, ApplyDue(r, electorate, 1), r);
  }

  /** Held at the end of its window, and its round over by now. */
  predicate LapsedBy(settings: Option<Settings>, applyAt: Time, now: Time) {
    !HoldIsFinal(settings) && OverrideExpiresAt(applyAt, OverrideDaysOf(settings)) <= now
  }

  lemma CloseHolds(s: State, st: Standing, r: Rkey, p: Proposal)
    requires Lookup(s.records, r) == Some(p) && IsDue(p, s.clock) && !Reserved(p.target.collection)
    ensures var t, settings := Close(s, st, r), SettingsOf(s.records);
      var q := Lookup(t.records, r);
      && t.clock == s.clock && q.Some? && !IsDue(q.value, t.clock)
      && (|Objectors(s.objections, r, p)| < st.threshold ==> q.value.status == Decided(Approved))
      && (|Objectors(s.objections, r, p)| >= st.threshold ==>
            && q.value.status == (if HoldIsFinal(settings) then Objected else Override)
            && (RoundOver(q.value, t.clock) <==> LapsedBy(settings, p.applyAt.value, s.clock)))
    ensures forall k | k != r :: Lookup(Close(s, st, r).records, k) == Lookup(s.records, k)
  {
    hide Objectors;
    hide Lineage;
    hide ChangeOp;
    hide Unapplicable;
    ChangeIsOnTarget(s, p, s.next + 1);
  }

  lemma CloseLapses(s: State, st: Standing, r: Rkey)
    requires Lookup(s.records, r).Some? && RoundOver(Lookup(s.records, r).value, s.clock)
    ensures var q := Lookup(Close(s, st, r).records, r); q.Some? && q.value.status == Decided(Rejected)
  {
    hide Lineage;
  }

  // ── Closing the others ────────────────────────────────────────────

  /** No window that ends by `now` is about the settings, or about governance's own records. */
  ghost predicate QuietBy(s: State, now: Time) {
    forall q | Lookup(s.records, q).Some? && IsDue(Lookup(s.records, q).value, now) ::
      var k := Lookup(s.records, q).value.target;
      !Reserved(k.collection) && k != SETTINGS_KEY
  }

  /** What matters to the hold of `r` is as it was. */
  ghost predicate Keeps(s: State, t: State, r: Rkey, now: Time) {
    && t.clock == s.clock && t.objections == s.objections && SettingsOf(t.records) == SettingsOf(s.records)
    && Lookup(t.records, r) == Lookup(s.records, r) && QuietBy(t, now)
  }

  /** A closed proposal is due no longer, and its change is on a quiet record. */
  lemma CloseIsQuiet(s: State, st: Standing, q: Rkey, now: Time)
    requires QuietBy(s, now) && s.clock <= now
    ensures var t := Close(s, st, q);
      t.clock == s.clock && t.objections == s.objections && SettingsOf(t.records) == SettingsOf(s.records)
    ensures forall k | k != q :: Lookup(Close(s, st, q).records, k) == Lookup(s.records, k)
    ensures Lookup(Close(s, st, q).records, q) == Lookup(s.records, q)
      || (Lookup(Close(s, st, q).records, q).Some? && Lookup(Close(s, st, q).records, q).value.status != Pending)
  {
    hide Objectors;
    hide Lineage;
    hide ChangeOp;
    hide Unapplicable;
    hide OverrideBar;
    hide OverrideExpiresAt;
    if Lookup(s.records, q).Some? { ChangeIsOnTarget(s, Lookup(s.records, q).value, s.next + 1); }
  }

  lemma CloseKeeps(s: State, st: Standing, q: Rkey, r: Rkey, now: Time)
    requires QuietBy(s, now) && s.clock <= now && q != r
    ensures Keeps(s, Close(s, st, q), r, now)
  {
    hide Close;
    CloseIsQuiet(s, st, q, now);
  }

  lemma {:induction false} CloseAllKeeps(s: State, st: Standing, rs: set<Rkey>, r: Rkey, now: Time)
    requires QuietBy(s, now) && s.clock <= now && r !in rs
    ensures Keeps(s, CloseAll(s, st, rs), r, now)
    decreases |rs|
  {
    hide Close;
    hide QuietBy;
    if rs != {} {
      var q := First(s.records, rs);
      CloseKeeps(s, st, q, r, now);
      CloseAllKeeps(Close(s, st, q), st, rs - {q}, r, now);
    }
  }

  /** `r` as the end of its window leaves it, whatever else is closed around it. */
  ghost predicate HeldOrApproved(s: State, st: Standing, r: Rkey, p: Proposal, t: State)
    requires p.applyAt.Some?
  {
    var q, settings := Lookup(t.records, r), SettingsOf(s.records);
    && t.clock == s.clock && q.Some? && !IsDue(q.value, t.clock)
    && (|Objectors(s.objections, r, p)| < st.threshold ==> q.value.status == Decided(Approved))
    && (|Objectors(s.objections, r, p)| >= st.threshold ==>
          && q.value.status == (if HoldIsFinal(settings) then Objected else Override)
          && (RoundOver(q.value, t.clock) <==> LapsedBy(settings, p.applyAt.value, s.clock)))
  }

  lemma CloseReaches(s: State, st: Standing, r: Rkey, p: Proposal, now: Time)
    requires QuietBy(s, now) && s.clock <= now && Lookup(s.records, r) == Some(p) && IsDue(p, s.clock)
    ensures HeldOrApproved(s, st, r, p, Close(s, st, r)) && QuietBy(Close(s, st, r), now)
  {
    hide Close;
    hide LapsedBy;
    CloseIsQuiet(s, st, r, now);
    CloseHolds(s, st, r, p);
  }

  lemma {:induction false} CloseAllReaches(s: State, st: Standing, rs: set<Rkey>, r: Rkey, p: Proposal, now: Time)
    requires QuietBy(s, now) && s.clock <= now && r in rs && Lookup(s.records, r) == Some(p) && IsDue(p, s.clock)
    ensures HeldOrApproved(s, st, r, p, CloseAll(s, st, rs)) && QuietBy(CloseAll(s, st, rs), now)
    decreases |rs|
  {
    hide Close;
    hide QuietBy;
    hide LapsedBy;
    hide Objectors;
    var q := First(s.records, rs);
    if q == r {
      CloseReaches(s, st, r, p, now);
      CloseAllKeeps(Close(s, st, r), st, rs - {r}, r, now);
    } else {
      CloseKeeps(s, st, q, r, now);
      CloseAllReaches(Close(s, st, q), st, rs - {q}, r, p, now);
    }
  }

  lemma {:induction false} CloseAllLapses(s: State, st: Standing, rs: set<Rkey>, r: Rkey, now: Time)
    requires QuietBy(s, now) && s.clock <= now && r in rs && Lookup(s.records, r).Some? && RoundOver(Lookup(s.records, r).value, s.clock)
    ensures var q := Lookup(CloseAll(s, st, rs).records, r); q.Some? && q.value.status == Decided(Rejected)
    decreases |rs|
  {
    hide Close;
    hide QuietBy;
    var q := First(s.records, rs);
    if q == r {
      CloseLapses(s, st, r);
      CloseRoundKeeps(s, st, r, now);
      CloseAllKeeps(Close(s, st, r), st, rs - {r}, r, now);
    } else {
      CloseKeeps(s, st, q, r, now);
      CloseAllLapses(Close(s, st, q), st, rs - {q}, r, now);
    }
  }

  lemma CloseRoundKeeps(s: State, st: Standing, r: Rkey, now: Time)
    requires QuietBy(s, now) && s.clock <= now
    ensures QuietBy(Close(s, st, r), now) && Close(s, st, r).clock == s.clock
  {
    hide Close;
    CloseIsQuiet(s, st, r, now);
  }

  lemma CatchUpKeeps(s: State, st: Standing, r: Rkey, now: Time)
    requires QuietBy(s, now) && s.clock <= now
    requires Lookup(s.records, r).Some? && !Ended(Lookup(s.records, r).value, s.clock)
    ensures Keeps(s, CatchUp(s, st), r, now)
  {
    hide CloseAll;
    hide QuietBy;
    EndedMeans(s, r);
    CloseAllKeeps(s, st, EndedOn(s), r, now);
    var t := CloseAll(s, st, EndedOn(s));
    EndedMeans(t, r);
    CloseAllKeeps(t, st, EndedOn(t), r, now);
  }

  /** Catching up holds or approves `r`, and lapses the round of a hold that is over by now. */
  lemma CatchUpHolds(s: State, st: Standing, r: Rkey, p: Proposal)
    requires QuietBy(s, s.clock) && Lookup(s.records, r) == Some(p) && IsDue(p, s.clock)
    ensures var q := Lookup(CatchUp(s, st).records, r);
      q.Some? && q.value.status ==
        (if |Objectors(s.objections, r, p)| < st.threshold then Decided(Approved)
         else if HoldIsFinal(SettingsOf(s.records)) then Objected
         else if LapsedBy(SettingsOf(s.records), p.applyAt.value, s.clock) then Decided(Rejected) else Override)
  {
    hide Objectors;
    hide CloseAll;
    hide QuietBy;
    hide OverrideExpiresAt;
    EndedMeans(s, r);
    CloseAllReaches(s, st, EndedOn(s), r, p, s.clock);
    var t := CloseAll(s, st, EndedOn(s));
    EndedMeans(t, r);
    if r in EndedOn(t) {
      CloseAllLapses(t, st, EndedOn(t), r, s.clock);
    } else {
      CloseAllKeeps(t, st, EndedOn(t), r, s.clock);
    }
  }

  // ── The two machines ──────────────────────────────────────────────

  /**
   When no window that ends meanwhile is about the settings, the two machines' statuses
   of the objected proposal agree after the late sweep if and only if the objection
   caused no hold, or the hold is final, or the round the eager machine opened is not
   over when the sweep comes.
   */
  lemma CutObjectionDiverges(s: State, st: Standing, e: Event, ms: nat)
    requires BookKept(s) && e.Object? && e.survived == 1 && PlanOf(s, e).objection.Some?
    requires st.threshold == ObjectionThresholdOf(SettingsOf(s.records))
    requires Lookup(s.records, e.rkey).Some? && IsDue(Lookup(s.records, e.rkey).value, s.clock + ms)
    requires QuietBy(s, s.clock + ms)
    ensures var sweep := ApplyDue(e.rkey, st.electorate, 1);
      var lazy := Lookup(Next(Next(Next(s, e), Tick(ms)), sweep).records, e.rkey);
      var eager := Lookup(NextEager(NextEager(NextEager(s, st, e), st, Tick(ms)), st, sweep).records, e.rkey);
      && lazy.Some? && eager.Some?
      && (lazy.value.status == eager.value.status <==>
            || PlanOf(s, e).commit.None?
            || !LapsedBy(SettingsOf(s.records), Lookup(s.records, e.rkey).value.applyAt.value, s.clock + ms))
  {
    hide Next;
    hide PlanOf;
    hide BookKept;
    hide Objectors;
    hide CatchUp;
    hide OverrideExpiresAt;
    var r, p := e.rkey, Lookup(s.records, e.rkey).value;
    var s1 := Next(s, e);
    var s2 := Next(s1, Tick(ms));
    CutObjection(s, e);
    LazyWindows.TickIsClock(s1, ms);
    KeptTwice(s, e, ms);
    SweepHolds(s2, r, st.electorate);
    QuietSame(s, s1, s.clock + ms);
    CatchUpKeeps(s1, st, r, s.clock + ms);
    var t1 := CatchUp(s1, st);
    var t2 := Next(t1, Tick(ms));
    LazyWindows.TickIsClock(t1, ms);
    QuietSame(t1, t2, s.clock + ms);
    CatchUpHolds(t2, st, r, p);
    assert NextEager(NextEager(s, st, e), st, Tick(ms)) == CatchUp(t2, st);
    var lazy := Lookup(Next(s2, ApplyDue(r, st.electorate, 1)).records, r);
    var eager := Lookup(CatchUp(t2, st).records, r);
    assert lazy.Some? && eager.Some?;
    assert Objectors(t2.objections, r, p) == Objectors(s1.objections, r, p) == Objectors(s2.objections, r, p);
  }

  lemma KeptTwice(s: State, e: Event, ms: nat)
    requires BookKept(s) && e.Object? && e.survived == 1 && PlanOf(s, e).objection.Some?
    ensures BookKept(Next(Next(s, e), Tick(ms)))
  {
    hide PlanOf;
    hide BookKept;
    hide Next;
    CutIsPlain(s, e);
    BookKeptNext(s, e);
    TickIsPlain(Next(s, e), ms);
    BookKeptNext(Next(s, e), Tick(ms));
  }

  lemma CutIsPlain(s: State, e: Event)
    requires e.Object? && e.survived == 1 && PlanOf(s, e).objection.Some?
    ensures Plain(s, e)
  {
    hide PlanOf;
  }

  lemma TickIsPlain(s: State, ms: nat)
    ensures Plain(s, Tick(ms))
  {
  }

  lemma QuietSame(s: State, t: State, now: Time)
    requires t.records == s.records
    ensures QuietBy(t, now) <==> QuietBy(s, now)
  {
  }
}
