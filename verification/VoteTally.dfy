/**
 The authoritative tally: one vote per voter, taken from the vote records in the
 voters' own repos, the earliest countable record winning.
 */
module VoteTally {
  import opened Wrappers
  import opened DecisionRules

  /** `voteOrderKey`: by date, then by record key. */
  predicate OrderedBefore(a: VoteRow, b: VoteRow) {
    match (a.createdAt, b.createdAt)
    case (None, None) => a.rkey <= b.rkey
    case (None, Some(_)) => true
    case (Some(_), None) => false
    case (Some(x), Some(y)) => x < y || (x == y && a.rkey <= b.rkey)
  }

  /** Record keys are unique within one repo. */
  ghost predicate KeysUnique(rows: set<VoteRow>) {
    forall a, b | a in rows && b in rows && a.repo == b.repo && a.rkey == b.rkey :: a == b
  }

  predicate IsCountable(row: VoteRow, known: set<Cid>, epoch: Option<Time>) {
    CheckVote(row, known, epoch).Countable?
  }

  function CountableOf(rows: set<VoteRow>, known: set<Cid>, epoch: Option<Time>, v: Did): set<VoteRow> {
    set r | r in rows && r.repo == v && IsCountable(r, known, epoch)
  }

  /** Voters with at least one record that counts. */
  function Voters(rows: set<VoteRow>, known: set<Cid>, epoch: Option<Time>): set<Did> {
    set r | r in rows && IsCountable(r, known, epoch) :: r.repo
  }

  lemma {:induction false} EarliestExists(rows: set<VoteRow>)
    requires rows != {}
    ensures exists m :: m in rows && forall r | r in rows :: OrderedBefore(m, r)
    decreases |rows|
  {
    var x :| x in rows;
    if rows == {x} {
      assert forall r | r in {x} :: OrderedBefore(x, r);
    } else {
      assert rows - {x} != {};
      EarliestExists(rows - {x});
      var m :| m in rows - {x} && forall r | r in rows - {x} :: OrderedBefore(m, r);
      if OrderedBefore(m, x) {
        assert forall r | r in rows :: OrderedBefore(m, r);
      } else {
        forall r | r in rows ensures OrderedBefore(x, r) {
          if r != x { assert OrderedBefore(x, m) && OrderedBefore(m, r); }
        }
      }
    }
  }

  ghost function Earliest(rows: set<VoteRow>): (m: VoteRow)
    requires rows != {}
    ensures m in rows && forall r | r in rows :: OrderedBefore(m, r)
  {
    EarliestExists(rows);
    var m :| m in rows && forall r | r in rows :: OrderedBefore(m, r);
    m
  }

  /** The record that counts for each voter who has one. */
  ghost function Tally(rows: set<VoteRow>, known: set<Cid>, epoch: Option<Time>): (t: map<Did, VoteRow>)
    ensures t.Keys == Voters(rows, known, epoch)
    ensures forall v | v in t :: t[v] in CountableOf(rows, known, epoch, v)
  {
    map v | v in Voters(rows, known, epoch) :: Winner(rows, known, epoch, v)
  }

  ghost function Winner(rows: set<VoteRow>, known: set<Cid>, epoch: Option<Time>, v: Did): (m: VoteRow)
    requires v in Voters(rows, known, epoch)
    ensures m in CountableOf(rows, known, epoch, v)
    ensures forall r | r in CountableOf(rows, known, epoch, v) :: OrderedBefore(m, r)
  {
    assert CountableOf(rows, known, epoch, v) != {} by {
      var r :| r in rows && IsCountable(r, known, epoch) && r.repo == v;
      assert r in CountableOf(rows, known, epoch, v);
    }
    Earliest(CountableOf(rows, known, epoch, v))
  }

  function ForVoters(t: map<Did, VoteRow>): set<Did> {
    set v | v in t && t[v].side == Some(For)
  }

  function AgainstVoters(t: map<Did, VoteRow>): set<Did> {
    set v | v in t && t[v].side == Some(Against)
  }

  lemma WinnerIsUnique(rows: set<VoteRow>, known: set<Cid>, epoch: Option<Time>, v: Did, m: VoteRow)
    requires KeysUnique(rows) && v in Voters(rows, known, epoch)
    requires m in CountableOf(rows, known, epoch, v)
    requires forall r | r in CountableOf(rows, known, epoch, v) :: OrderedBefore(m, r)
    ensures m == Winner(rows, known, epoch, v)
  {
    var w := Winner(rows, known, epoch, v);
    assert OrderedBefore(m, w) && OrderedBefore(w, m);
  }

  /** What the scan knows after the rows `seen`. */
  ghost predicate Scanned(seen: seq<VoteRow>, known: set<Cid>, epoch: Option<Time>,
                          counted: map<Did, VoteRow>, rejected: map<Did, Verdict>) {
    && (forall v | v in counted :: v !in rejected && counted[v] in seen && counted[v].repo == v
          && IsCountable(counted[v], known, epoch))
    && (forall r | r in seen && IsCountable(r, known, epoch) :: r.repo in counted && OrderedBefore(counted[r.repo], r))
    && (forall r | r in seen :: r.repo in counted || r.repo in rejected)
    && (forall v | v in rejected :: exists i :: FirstOf(seen, v, i) && rejected[v] == CheckVote(seen[i], known, epoch))
  }

  /** `i` is the first row of voter `v`. */
  ghost predicate FirstOf(seen: seq<VoteRow>, v: Did, i: int) {
    && 0 <= i < |seen| && seen[i].repo == v
    && forall j | 0 <= j < i :: seen[j].repo != v
  }

  lemma ScanOne(seen: seq<VoteRow>, row: VoteRow, known: set<Cid>, epoch: Option<Time>,
                counted: map<Did, VoteRow>, rejected: map<Did, Verdict>)
    requires Scanned(seen, known, epoch, counted, rejected) && !IsCountable(row, known, epoch)
    ensures Scanned(seen + [row], known, epoch, counted,
      if row.repo !in counted && row.repo !in rejected
      then rejected[row.repo := CheckVote(row, known, epoch)] else rejected)
  {
    var rejected' := if row.repo !in counted && row.repo !in rejected
      then rejected[row.repo := CheckVote(row, known, epoch)] else rejected;
    forall v | v in rejected'
      ensures exists i :: FirstOf(seen + [row], v, i) && rejected'[v] == CheckVote((seen + [row])[i], known, epoch)
    {
      if v in rejected {
        var i :| FirstOf(seen, v, i) && rejected[v] == CheckVote(seen[i], known, epoch);
        assert FirstOf(seen + [row], v, i);
      } else {
        assert FirstOf(seen + [row], v, |seen|);
      }
    }
  }

  lemma ScanCountable(seen: seq<VoteRow>, row: VoteRow, known: set<Cid>, epoch: Option<Time>,
                      counted: map<Did, VoteRow>, rejected: map<Did, Verdict>)
    requires Scanned(seen, known, epoch, counted, rejected) && IsCountable(row, known, epoch)
    ensures Scanned(seen + [row], known, epoch,
      if row.repo in counted && OrderedBefore(counted[row.repo], row) then counted else counted[row.repo := row],
      if row.repo in counted && OrderedBefore(counted[row.repo], row) then rejected else rejected - {row.repo})
  {
    var keep := row.repo in counted && OrderedBefore(counted[row.repo], row);
    var rejected' := if keep then rejected else rejected - {row.repo};
    forall v | v in rejected'
      ensures exists i :: FirstOf(seen + [row], v, i) && rejected'[v] == CheckVote((seen + [row])[i], known, epoch)
    {
      var i :| FirstOf(seen, v, i) && rejected[v] == CheckVote(seen[i], known, epoch);
      assert FirstOf(seen + [row], v, i);
    }
  }

  ghost function AsSet(rows: seq<VoteRow>): set<VoteRow> { set r | r in rows }

  /**
   The scan of `tallyFromVoteRecords`.  Whatever order the rows come in, the
   result is the tally of the rows as a set; a voter without a countable record is
   listed with the verdict on the first of that voter's records.
   */
  method TallyFromVoteRecords(rows: seq<VoteRow>, known: set<Cid>, epoch: Option<Time>)
      returns (counted: map<Did, VoteRow>, rejected: map<Did, Verdict>)
    requires KeysUnique(AsSet(rows))
    ensures counted == Tally(AsSet(rows), known, epoch)
    ensures forall v :: v in rejected <==> (exists r :: r in rows && r.repo == v) && v !in counted
    ensures forall v | v in rejected ::
      exists i :: FirstOf(rows, v, i) && rejected[v] == CheckVote(rows[i], known, epoch)
  {
    counted, rejected := map[], map[];
    for n := 0 to |rows|
      invariant Scanned(rows[..n], known, epoch, counted, rejected)
    {
      var row := rows[n];
      assert rows[..n+1] == rows[..n] + [row];
      if !IsCountable(row, known, epoch) {
        ScanOne(rows[..n], row, known, epoch, counted, rejected);
        if row.repo !in counted && row.repo !in rejected {
          rejected := rejected[row.repo := CheckVote(row, known, epoch)];
        }
        continue;
      }
      ScanCountable(rows[..n], row, known, epoch, counted, rejected);
      if row.repo in counted && OrderedBefore(counted[row.repo], row) { continue; }
      rejected := rejected - {row.repo};
      counted := counted[row.repo := row];
    }
    assert rows[..|rows|] == rows;
    ScanIsTally(rows, known, epoch, counted, rejected);
  }

  lemma ScanIsTally(rows: seq<VoteRow>, known: set<Cid>, epoch: Option<Time>,
                    counted: map<Did, VoteRow>, rejected: map<Did, Verdict>)
    requires KeysUnique(AsSet(rows)) && Scanned(rows, known, epoch, counted, rejected)
    ensures counted == Tally(AsSet(rows), known, epoch)
  {
    var all := AsSet(rows);
    assert counted.Keys == Voters(all, known, epoch);
    forall v | v in counted ensures counted[v] == Winner(all, known, epoch, v) {
      WinnerIsUnique(all, known, epoch, v, counted[v]);
    }
  }

  lemma ScanRejects(rows: seq<VoteRow>, known: set<Cid>, epoch: Option<Time>,
                    counted: map<Did, VoteRow>, rejected: map<Did, Verdict>)
    requires Scanned(rows, known, epoch, counted, rejected)
    ensures rejected.Keys == (set r | r in AsSet(rows) :: r.repo) - counted.Keys
  {
    var repos := set r | r in AsSet(rows) :: r.repo;
    forall v | v in rejected ensures v in repos {
      var i :| FirstOf(rows, v, i) && rejected[v] == CheckVote(rows[i], known, epoch);
      assert rows[i] in AsSet(rows);
    }
  }

  /** Two scans of the same records agree, however they are ordered or repeated. */
  lemma TallyIgnoresOrder(rows: seq<VoteRow>, other: seq<VoteRow>, known: set<Cid>, epoch: Option<Time>,
                          c1: map<Did, VoteRow>, r1: map<Did, Verdict>, c2: map<Did, VoteRow>, r2: map<Did, Verdict>)
    requires AsSet(rows) == AsSet(other) && KeysUnique(AsSet(rows))
    requires Scanned(rows, known, epoch, c1, r1) && Scanned(other, known, epoch, c2, r2)
    ensures c1 == c2 && r1.Keys == r2.Keys
  {
    ScanIsTally(rows, known, epoch, c1, r1);
    ScanIsTally(other, known, epoch, c2, r2);
    ScanRejects(rows, known, epoch, c1, r1);
    ScanRejects(other, known, epoch, c2, r2);
  }

  /** No voter is counted twice, on either side or on both. */
  lemma OneVotePerVoter(rows: set<VoteRow>, known: set<Cid>, epoch: Option<Time>)
    ensures var t := Tally(rows, known, epoch);
      && ForVoters(t) !! AgainstVoters(t)
      && ForVoters(t) + AgainstVoters(t) == Voters(rows, known, epoch)
  {
    var t := Tally(rows, known, epoch);
    forall v | v in t ensures v in ForVoters(t) + AgainstVoters(t) {
      assert IsCountable(t[v], known, epoch);
      assert t[v].side.Some? && (t[v].side.value == For || t[v].side.value == Against);
    }
  }
}
