/**
 The eager machine: the same requests through the same handlers, but no sweeps.
 Whatever window or round has ended is closed at once, the one that ended first
 going first, each at its own last moment.
 */
module EagerWindows {
  import opened Wrappers
  import opened DecisionRules
  import opened ProposalRecords
  import opened ProposalMachine
  import opened ProposalEvolution

  // ── Closing on time ───────────────────────────────────────────────

  /** What stands throughout, as far as the eager machine is concerned. */
  datatype Standing = Standing(threshold: int, electorate: nat)

  /** The end of a window: held, approved with its change refused, or approved with it. */
  ghost function EndOfWindow(s: State, st: Standing, r: Rkey, p: Proposal): Commit
    requires p.applyAt.Some?
  {
    var objectors := Objectors(s.objections, r, p);
    if |objectors| >= st.threshold
    then Rewrite(s, r, Held(s.(clock := p.applyAt.value), p, objectors, st.electorate), s.next)
    else if Unapplicable(s.records, p) then Rewrite(s, r, p.(status := Decided(Approved)), s.next)
    else Commit(None, Some(PutProposal(s.records, r, p.(status := Decided(Approved), appliedAt := p.applyAt), s.next)),
                ChangeOp(s.records, p, s.next + 1))
  }

  /** The end of a round nobody carried. */
  function EndOfRound(s: State, r: Rkey, p: Proposal): Commit
    requires p.round.Some?
  {
    Rewrite(s, r, p.(status := Decided(Rejected), resolvedAt := Some(p.round.value.expiresAt), roundOutcome := Some(Lapsed)), s.next)
  }

  /** It is what the sweeps commit when they come at the very end. */
  lemma ClosingIsTheSweeps(s: State, st: Standing, r: Rkey, p: Proposal)
    requires Lookup(s.records, r) == Some(p)
    ensures IsDue(p, s.clock) && ObjectionThresholdOf(SettingsOf(s.records)) == st.threshold ==>
      ApplyPlan(s.(clock := p.applyAt.value), r, st.electorate).commit == Some(EndOfWindow(s, st, r, p))
    ensures RoundOver(p, s.clock) ==> ClosePlan(s.(clock := p.round.value.expiresAt), r).commit == Some(EndOfRound(s, r, p))
  {
    hide Objectors;
    hide Lineage;
    hide ChangeOp;
    hide Unapplicable;
  }

  function Commits(s: State, c: Commit): State {
    s.(records := ApplyCommit(s.records, c), log := s.log + [c])
  }

  ghost function Close(s: State, st: Standing, r: Rkey): State {
    match Lookup(s.records, r)
    case None => s
    case Some(p) =>
      if IsDue(p, s.clock) then Commits(s, EndOfWindow(s, st, r, p))
      else if RoundOver(p, s.clock) then Commits(s, EndOfRound(s, r, p))
      else s
  }

  predicate Ended(p: Proposal, now: Time) { IsDue(p, now) || RoundOver(p, now) }

  function EndedOn(s: State): set<Rkey> {
    set k | k in s.records && k.collection == Proposals && Lookup(s.records, k.rkey).Some?
            && Ended(Lookup(s.records, k.rkey).value, s.clock) :: k.rkey
  }

  lemma EndedMeans(s: State, r: Rkey)
    ensures r in EndedOn(s) <==> Lookup(s.records, r).Some? && Ended(Lookup(s.records, r).value, s.clock)
  {
    if Lookup(s.records, r).Some? && Ended(Lookup(s.records, r).value, s.clock) {
      assert ProposalKey(r) in s.records && ProposalKey(r).rkey == r;
    }
  }

  // ── In the order they ended ───────────────────────────────────────

  function Deadline(records: Records, r: Rkey): Time {
    match Lookup(records, r)
    case None => 0
    case Some(p) =>
      if p.status == Pending && p.applyAt.Some? then p.applyAt.value else if p.round.Some? then p.round.value.expiresAt else 0
  }

  predicate Precedes(records: Records, a: Rkey, b: Rkey) {
    Deadline(records, a) < Deadline(records, b) || (Deadline(records, a) == Deadline(records, b) && a <= b)
  }

  ghost predicate IsFirst(records: Records, rs: set<Rkey>, r: Rkey) {
    r in rs && forall q | q in rs :: Precedes(records, r, q)
  }

  lemma {:induction false} FirstExists(records: Records, rs: set<Rkey>)
    requires rs != {}
    ensures exists r :: IsFirst(records, rs, r)
    decreases |rs|
  {
    var x :| x in rs;
    if rs == {x} {
      assert IsFirst(records, rs, x);
    } else {
      assert rs - {x} != {};
      FirstExists(records, rs - {x});
      var r :| IsFirst(records, rs - {x}, r);
      var m := if Precedes(records, x, r) then x else r;
      forall q | q in rs ensures Precedes(records, m, q) {
        if q != x { assert q in rs - {x}; }
      }
      assert IsFirst(records, rs, m);
    }
  }

  ghost function First(records: Records, rs: set<Rkey>): (r: Rkey)
    requires rs != {}
    ensures IsFirst(records, rs, r)
  {
    FirstExists(records, rs);
    var r :| IsFirst(records, rs, r);
    r
  }

  ghost function CloseAll(s: State, st: Standing, rs: set<Rkey>): State
    decreases |rs|
  {
    if rs == {} then s
    else
      var r := First(s.records, rs);
      CloseAll(Close(s, st, r), st, rs - {r})
  }

  /** Windows and rounds, and then the rounds that a hold opened at the end of a window and that have ended since. */
  ghost function CatchUp(s: State, st: Standing): State {
    var t := CloseAll(s, st, EndedOn(s));
    CloseAll(t, st, EndedOn(t))
  }

  predicate IsSweep(e: Event) { e.ApplyDue? || e.CloseOverride? }

  /** A sweep is no request: the eager machine only lets its record keys pass. */
  ghost function NextEager(s: State, st: Standing, e: Event): State {
    if IsSweep(e) then s.(next := s.next + IdsUsed(e)) else CatchUp(Next(s, e), st)
  }

  ghost predicate IsEagerRun(states: seq<State>, st: Standing, es: seq<Event>) {
    && |states| == |es| + 1
    && forall i {:trigger es[i]} | 0 <= i < |es| :: states[i + 1] == NextEager(states[i], st, es[i])
  }

  // ── What two machines must share ──────────────────────────────────

  /** A proposal once its window or round, if that has ended, is closed. */
  datatype View = Absent | Live(entry: Entry) | Over(status: Status)

  function ViewOf(s: State, r: Rkey): View {
    match Lookup(s.records, r)
    case None => Absent
    case Some(p) =>
      if IsDue(p, s.clock) then Over(Decided(Approved))
      else if RoundOver(p, s.clock) then Over(Decided(Rejected))
      else if Closed(p.status) then Over(p.status)
      else Live(s.records[ProposalKey(r)])
  }

  function EntryAt(records: Records, k: Key): Option<Entry> {
    if k in records then Some(records[k]) else None
  }

  function Content(records: Records, k: Key): Option<Record> {
    if k in records then Some(records[k].record) else None
  }

  /** What a proposal's change makes of the record it targets. */
  function Changed(content: Option<Record>, p: Option<Proposal>): Option<Record> {
    if p.None? then content
    else
      match p.value.action
      case Delete => None
      case Write =>
        if p.value.proposed.None? then content
        else
          var onto := if content.Some? && content.value.SettingsRecord? then map[SETTINGS_KEY := Entry(content.value, 0)] else map[];
          var written := RecordToWrite(onto, p.value.target, p.value.proposed.value);
          if p.value.target.collection == SettingsRecords && !SettingsSound(written) then content else Some(written)
  }

  /** The due proposals whose change is about `k`. */
  function DueFor(s: State, k: Key): set<Rkey> {
    set r | r in EndedOn(s) && Lookup(s.records, r).Some? && IsDue(Lookup(s.records, r).value, s.clock)
            && Lookup(s.records, r).value.target == k
  }

  ghost function Fold(records: Records, rs: set<Rkey>, content: Option<Record>): Option<Record>
    decreases |rs|
  {
    if rs == {} then content
    else
      var r := First(records, rs);
      Fold(records, rs - {r}, Changed(content, Lookup(records, r)))
  }

  /** The record under `k` once every window that has ended is closed, in order. */
  ghost function Future(s: State, k: Key): Option<Record> {
    Fold(s.records, DueFor(s, k), Content(s.records, k))
  }

  /** Two states that differ only in which ended windows they have closed. */
  ghost predicate Alike(s: State, t: State) {
    && s.votes == t.votes && s.objections == t.objections && s.clock == t.clock && s.next == t.next && s.drafts == t.drafts
    && (forall r :: ViewOf(s, r) == ViewOf(t, r))
    && (forall k: Key | k.collection == Decisions :: EntryAt(s.records, k) == EntryAt(t.records, k))
    && (forall r :: ProposalKey(r) in s.records <==> ProposalKey(r) in t.records)
    && (forall k: Key | !Reserved(k.collection) :: Future(s, k) == Future(t, k))
  }

  lemma AlikeTransitive(s: State, t: State, u: State)
    requires Alike(s, t) && Alike(t, u)
    ensures Alike(s, u) && Alike(u, s)
  {
  }

  // ── Folding due changes ───────────────────────────────────────────

  lemma FirstIsUnique(records: Records, rs: set<Rkey>, r: Rkey)
    requires IsFirst(records, rs, r)
    ensures r == First(records, rs)
  {
  }

  lemma {:induction false} FoldSame(a: Records, b: Records, rs: set<Rkey>, content: Option<Record>)
    requires forall r | r in rs :: Lookup(a, r) == Lookup(b, r)
    ensures Fold(a, rs, content) == Fold(b, rs, content)
    decreases |rs|
  {
    if rs != {} {
      var r := First(a, rs);
      assert IsFirst(b, rs, r);
      FirstIsUnique(b, rs, r);
      FoldSame(a, b, rs - {r}, Changed(content, Lookup(a, r)));
    }
  }

  lemma FoldHead(records: Records, rs: set<Rkey>, r: Rkey, content: Option<Record>)
    requires IsFirst(records, rs, r)
    ensures Fold(records, rs, content) == Fold(records, rs - {r}, Changed(content, Lookup(records, r)))
  {
    FirstIsUnique(records, rs, r);
  }

  /** Earlier ends first: a fold may be split where the clock stood. */
  lemma {:induction false} FoldSplit(records: Records, early: set<Rkey>, late: set<Rkey>, content: Option<Record>)
    requires early !! late && forall a, b | a in early && b in late :: Deadline(records, a) < Deadline(records, b)
    ensures Fold(records, early + late, content) == Fold(records, late, Fold(records, early, content))
    decreases |early|
  {
    if early == {} {
      assert early + late == late;
    } else {
      var r := First(records, early);
      assert IsFirst(records, early + late, r);
      FoldHead(records, early + late, r, content);
      assert (early + late) - {r} == (early - {r}) + late;
      FoldSplit(records, early - {r}, late, Changed(content, Lookup(records, r)));
    }
  }

  // ── Closing one ───────────────────────────────────────────────────

  /** The commit closes `r` and, if a due window, makes its change. */
  ghost predicate Closes(s: State, c: Commit, r: Rkey, p: Proposal, cid: Cid) {
    && Lookup(s.records, r) == Some(p) && Ended(p, s.clock)
    && c.decision.None? && PutBy(c, r).Some? && c.proposal.value.key == ProposalKey(r)
    && PutBy(c, r).value.status == Decided(if IsDue(p, s.clock) then Approved else Rejected)
    && PutBy(c, r).value.target == p.target
    && c.change == (if !IsDue(p, s.clock) || Unapplicable(s.records, p) then None else ChangeOp(s.records, p, cid))
  }

  /** A change that takes effect now is on none of governance's own records. */
  predicate ChangesPlainly(s: State, p: Proposal) { IsDue(p, s.clock) ==> !Reserved(p.target.collection) }

  lemma ClosedProposals(s: State, c: Commit, r: Rkey, p: Proposal, cid: Cid, q: Rkey)
    requires Closes(s, c, r, p, cid) && ChangesPlainly(s, p)
    ensures var after := ApplyCommit(s.records, c);
      && Lookup(after, q) == (if q == r then PutBy(c, r) else Lookup(s.records, q))
      && (q != r ==> EntryAt(after, ProposalKey(q)) == EntryAt(s.records, ProposalKey(q)))
      && (ProposalKey(q) in after <==> ProposalKey(q) in s.records)
  {
  }

  lemma ClosedDecisions(s: State, c: Commit, r: Rkey, p: Proposal, cid: Cid, k: Key)
    requires Closes(s, c, r, p, cid) && ChangesPlainly(s, p) && k.collection == Decisions
    ensures EntryAt(ApplyCommit(s.records, c), k) == EntryAt(s.records, k)
  {
  }

  /** The change reads no record but the one it writes. */
  lemma ClosedContent(s: State, c: Commit, r: Rkey, p: Proposal, cid: Cid, k: Key)
    requires Closes(s, c, r, p, cid) && ChangesPlainly(s, p) && !Reserved(k.collection)
    ensures Content(ApplyCommit(s.records, c), k) ==
      if IsDue(p, s.clock) && k == p.target then Changed(Content(s.records, k), Some(p)) else Content(s.records, k)
  {
    if IsDue(p, s.clock) && k == p.target {
      ChangeReadsTarget(s.records, p);
    }
  }

  lemma ChangeReadsTarget(records: Records, p: Proposal)
    ensures var content := Content(records, p.target);
      var onto := if content.Some? && content.value.SettingsRecord? then map[SETTINGS_KEY := Entry(content.value, 0)] else map[];
      p.proposed.Some? ==> RecordToWrite(onto, p.target, p.proposed.value) == RecordToWrite(records, p.target, p.proposed.value)
  {
  }

  lemma ClosedViews(s: State, c: Commit, r: Rkey, p: Proposal, cid: Cid, q: Rkey)
    requires Closes(s, c, r, p, cid) && ChangesPlainly(s, p)
    ensures ViewOf(Commits(s, c), q) == ViewOf(s, q)
    ensures q in EndedOn(Commits(s, c)) <==> q in EndedOn(s) && q != r
  {
    ClosedProposals(s, c, r, p, cid, q);
    EndedMeans(s, q);
    EndedMeans(Commits(s, c), q);
  }

  lemma ClosedDue(s: State, c: Commit, r: Rkey, p: Proposal, cid: Cid, k: Key)
    requires Closes(s, c, r, p, cid) && ChangesPlainly(s, p)
    ensures DueFor(Commits(s, c), k) == DueFor(s, k) - {r}
  {
    hide Closes;
    forall q ensures q in DueFor(Commits(s, c), k) <==> q in DueFor(s, k) && q != r {
      ClosedViews(s, c, r, p, cid, q);
      ClosedProposals(s, c, r, p, cid, q);
    }
  }

  /** What becomes of a record when `r` is closed now and the other windows about it later. */
  lemma ClosedFuture(s: State, c: Commit, r: Rkey, p: Proposal, cid: Cid, k: Key)
    requires Closes(s, c, r, p, cid) && ChangesPlainly(s, p) && !Reserved(k.collection)
    ensures Future(Commits(s, c), k) == if IsDue(p, s.clock) && k == p.target then FutureAfter(s, r, p) else Future(s, k)
  {
    hide Changed;
    hide Fold;
    hide First;
    ClosedDue(s, c, r, p, cid, k);
    ClosedContent(s, c, r, p, cid, k);
    var due := DueFor(s, k);
    if !(IsDue(p, s.clock) && k == p.target) {
      assert r !in due;
      assert due - {r} == due;
    }
    forall q | q in due - {r} ensures Lookup(s.records, q) == Lookup(Commits(s, c).records, q) {
      ClosedProposals(s, c, r, p, cid, q);
    }
    FoldSame(s.records, Commits(s, c).records, due - {r}, Content(Commits(s, c).records, k));
  }

  ghost function FutureAfter(s: State, r: Rkey, p: Proposal): Option<Record> {
    Fold(s.records, DueFor(s, p.target) - {r}, Changed(Content(s.records, p.target), Some(p)))
  }

  /** Closing `r` before the other windows about its target comes to the same. */
  ghost predicate InTurn(s: State, r: Rkey, p: Proposal) {
    IsDue(p, s.clock) ==> FutureAfter(s, r, p) == Future(s, p.target)
  }

  lemma FirstIsInTurn(s: State, r: Rkey, p: Proposal)
    requires IsFirst(s.records, EndedOn(s), r) && Lookup(s.records, r) == Some(p)
    ensures InTurn(s, r, p)
  {
    if IsDue(p, s.clock) {
      assert IsFirst(s.records, DueFor(s, p.target), r);
      FoldHead(s.records, DueFor(s, p.target), r, Content(s.records, p.target));
    }
  }

  /** Closing a window leaves what the machines share if and only if it comes in turn. */
  lemma ClosingAlike(s: State, c: Commit, r: Rkey, p: Proposal, cid: Cid)
    requires Closes(s, c, r, p, cid) && ChangesPlainly(s, p)
    ensures Alike(s, Commits(s, c)) <==> InTurn(s, r, p)
    ensures EndedOn(Commits(s, c)) == EndedOn(s) - {r}
  {
    hide Closes;
    hide ViewOf;
    hide Future;
    hide FutureAfter;
    forall q ensures ViewOf(Commits(s, c), q) == ViewOf(s, q) && (q in EndedOn(Commits(s, c)) <==> q in EndedOn(s) && q != r) {
      ClosedViews(s, c, r, p, cid, q);
    }
    forall k: Key | k.collection == Decisions ensures EntryAt(Commits(s, c).records, k) == EntryAt(s.records, k) {
      ClosedDecisions(s, c, r, p, cid, k);
    }
    forall q ensures ProposalKey(q) in Commits(s, c).records <==> ProposalKey(q) in s.records { ClosedProposals(s, c, r, p, cid, q); }
    forall k: Key | !Reserved(k.collection)
      ensures Future(Commits(s, c), k) == if IsDue(p, s.clock) && k == p.target then FutureAfter(s, r, p) else Future(s, k)
    {
      ClosedFuture(s, c, r, p, cid, k);
    }
  }

  // ── Closing all ───────────────────────────────────────────────────

  /** No pending proposal is over the threshold. */
  ghost predicate Unheld(s: State, st: Standing) {
    forall r | Lookup(s.records, r).Some? && Lookup(s.records, r).value.status == Pending ::
      |Objectors(s.objections, r, Lookup(s.records, r).value)| < st.threshold
  }

  lemma CloseCloses(s: State, st: Standing, r: Rkey, p: Proposal)
    requires Lookup(s.records, r) == Some(p) && Ended(p, s.clock) && Unheld(s, st)
    ensures var c := if IsDue(p, s.clock) then EndOfWindow(s, st, r, p) else EndOfRound(s, r, p);
      Close(s, st, r) == Commits(s, c) && Closes(s, c, r, p, s.next + 1)
  {
    hide Objectors;
    hide Lineage;
    hide Unapplicable;
    hide ChangeOp;
  }

  /** No window that has ended is about governance's own records. */
  ghost predicate PlainEnds(s: State) {
    forall r | Lookup(s.records, r).Some? :: ChangesPlainly(s, Lookup(s.records, r).value)
  }

  lemma PlainStays(s: State, st: Standing, c: Commit, r: Rkey, p: Proposal, cid: Cid)
    requires Closes(s, c, r, p, cid) && PlainEnds(s) && Unheld(s, st)
    ensures PlainEnds(Commits(s, c)) && Unheld(Commits(s, c), st)
  {
    hide Objectors;
    forall q | Lookup(Commits(s, c).records, q).Some?
      ensures ChangesPlainly(Commits(s, c), Lookup(Commits(s, c).records, q).value)
    {
      ClosedProposals(s, c, r, p, cid, q);
    }
    forall q | Lookup(Commits(s, c).records, q).Some? && Lookup(Commits(s, c).records, q).value.status == Pending
      ensures |Objectors(Commits(s, c).objections, q, Lookup(Commits(s, c).records, q).value)| < st.threshold
    {
      ClosedProposals(s, c, r, p, cid, q);
    }
  }

  /** Where no hold is due, closing all closes everything that has ended and changes nothing else. */
  lemma {:induction false} CloseAllAlike(s: State, st: Standing, rs: set<Rkey>)
    requires rs == EndedOn(s) && PlainEnds(s) && Unheld(s, st)
    ensures var t := CloseAll(s, st, rs); Alike(s, t) && EndedOn(t) == {}
    decreases |rs|
  {
    hide Alike;
    hide Closes;
    hide Close;
    hide Commits;
    hide Unheld;
    if rs == {} {
      AlikeItself(s);
    } else {
      var r := First(s.records, rs);
      EndedMeans(s, r);
      var p := Lookup(s.records, r).value;
      CloseCloses(s, st, r, p);
      var c := if IsDue(p, s.clock) then EndOfWindow(s, st, r, p) else EndOfRound(s, r, p);
      FirstIsInTurn(s, r, p);
      ClosingAlike(s, c, r, p, s.next + 1);
      PlainStays(s, st, c, r, p, s.next + 1);
      CloseAllAlike(Close(s, st, r), st, rs - {r});
      AlikeTransitive(s, Close(s, st, r), CloseAll(s, st, rs));
    }
  }

  lemma AlikeItself(s: State)
    ensures Alike(s, s)
  {
  }

  lemma CatchUpAlike(s: State, st: Standing)
    requires PlainEnds(s) && Unheld(s, st)
    ensures var t := CatchUp(s, st); Alike(s, t) && EndedOn(t) == {}
  {
    hide Alike;
    hide Unheld;
    CloseAllAlike(s, st, EndedOn(s));
  }
}
