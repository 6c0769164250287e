/**
 Counting the members who delegated to a voter: the loop of `voteOnProposal` that
 pushes onto the vote arrays and onto the list of vote records to write.
 */
module DelegationLoop {
  import opened Wrappers
  import opened DecisionRules

  /** A delegation record naming this voter as delegate; the delegator may be missing. */
  datatype DelegationRow = DelegationRow(rkey: Rkey, cid: Cid, delegator: Option<Did>)

  /** The answer of `canRecordVote`: yes, no repository, or the check itself failed. */
  datatype Check = CanRecord | NoRepo | CheckFailed

  /** Who has no repository, and for whom the lookup fails. */
  datatype Repos = Repos(missing: set<Did>, unknown: set<Did>)

  function CheckRepo(repos: Repos, d: Did): Check {
    if d in repos.unknown then CheckFailed else if d in repos.missing then NoRepo else CanRecord
  }

  datatype DelegationRef = DelegationRef(rkey: Rkey, cid: Cid)

  datatype VoteInput = VoteInput(voter: Did, side: Side, castBy: Option<Did>, delegation: Option<DelegationRef>)

  /** A failed check keeps the delegator; only a missing repository drops one, and only under vote-record evidence. */
  predicate Countable(d: Did, evidence: bool, repos: Repos) {
    !evidence || CheckRepo(repos, d) != NoRepo
  }

  /** The delegators the loop adds, in the order it adds them. */
  function Added(rows: seq<DelegationRow>, already: set<Did>, evidence: bool, repos: Repos): seq<Did> {
    if rows == [] then []
    else
      var d := rows[0].delegator;
      if d.None? || d.value in already || !Countable(d.value, evidence, repos)
      then Added(rows[1..], already, evidence, repos)
      else [d.value] + Added(rows[1..], already + {d.value}, evidence, repos)
  }

  ghost function Members(s: seq<Did>): set<Did> { set d | d in s }

  ghost predicate NoRepeats(s: seq<Did>) {
    forall i, j | 0 <= i < j < |s| :: s[i] != s[j]
  }

  /** Everyone some row names as delegator. */
  ghost function Delegators(rows: seq<DelegationRow>): set<Did> {
    set r | r in rows && r.delegator.Some? :: r.delegator.value
  }

  ghost function Eligible(rows: seq<DelegationRow>, already: set<Did>, evidence: bool, repos: Repos): set<Did> {
    set d | d in Delegators(rows) && d !in already && Countable(d, evidence, repos)
  }

  /**
   As a set the loop adds exactly the recordable delegators who had not voted, each
   once; duplicate rows of one delegator are harmless.
   */
  lemma {:induction false} AddedExactly(rows: seq<DelegationRow>, already: set<Did>, evidence: bool, repos: Repos)
    ensures Members(Added(rows, already, evidence, repos)) == Eligible(rows, already, evidence, repos)
    ensures NoRepeats(Added(rows, already, evidence, repos))
    decreases |rows|
  {
    if rows != [] {
      var d := rows[0].delegator;
      assert rows == [rows[0]] + rows[1..];
      assert Delegators(rows) == Delegators(rows[1..]) + (if d.Some? then {d.value} else {});
      if d.None? || d.value in already || !Countable(d.value, evidence, repos) {
        AddedExactly(rows[1..], already, evidence, repos);
      } else {
        var rest := Added(rows[1..], already + {d.value}, evidence, repos);
        AddedExactly(rows[1..], already + {d.value}, evidence, repos);
        assert Members([d.value] + rest) == {d.value} + Members(rest);
        assert d.value !in Members(rest);
      }
    }
  }

  /** The order in which the rows arrive changes no tally. */
  lemma AddedIgnoresOrder(rows: seq<DelegationRow>, other: seq<DelegationRow>, already: set<Did>, evidence: bool, repos: Repos)
    requires Delegators(rows) == Delegators(other)
    ensures Members(Added(rows, already, evidence, repos)) == Members(Added(other, already, evidence, repos))
    ensures |Added(rows, already, evidence, repos)| == |Added(other, already, evidence, repos)|
  {
    AddedExactly(rows, already, evidence, repos);
    AddedExactly(other, already, evidence, repos);
    LengthIsCount(Added(rows, already, evidence, repos));
    LengthIsCount(Added(other, already, evidence, repos));
  }

  lemma {:induction false} LengthIsCount(s: seq<Did>)
    requires NoRepeats(s)
    ensures |s| == |Members(s)|
    decreases |s|
  {
    if s != [] {
      LengthIsCount(s[1..]);
      assert s == [s[0]] + s[1..];
      assert Members(s) == {s[0]} + Members(s[1..]);
      assert s[0] !in Members(s[1..]);
    }
  }

  lemma {:induction false} AddedSnoc(rows: seq<DelegationRow>, row: DelegationRow, already: set<Did>, evidence: bool, repos: Repos)
    ensures var before := Added(rows, already, evidence, repos);
      var d := row.delegator;
      Added(rows + [row], already, evidence, repos) ==
        if d.None? || d.value in already || d.value in before || !Countable(d.value, evidence, repos)
        then before else before + [d.value]
    decreases |rows|
  {
    if rows == [] {
      assert [] + [row] == [row] && [row][1..] == [];
    } else {
      assert (rows + [row])[0] == rows[0] && (rows + [row])[1..] == rows[1..] + [row];
      var d := rows[0].delegator;
      if d.None? || d.value in already || !Countable(d.value, evidence, repos) {
        AddedSnoc(rows[1..], row, already, evidence, repos);
      } else {
        AddedSnoc(rows[1..], row, already + {d.value}, evidence, repos);
      }
    }
  }

  lemma {:induction false} AddedIsShort(rows: seq<DelegationRow>, already: set<Did>, evidence: bool, repos: Repos)
    ensures |Added(rows, already, evidence, repos)| <= |rows|
    decreases |rows|
  {
    if rows != [] {
      var d := rows[0].delegator;
      if d.None? || d.value in already || !Countable(d.value, evidence, repos) {
        AddedIsShort(rows[1..], already, evidence, repos);
      } else {
        AddedIsShort(rows[1..], already + {d.value}, evidence, repos);
      }
    }
  }

  /** Each record to write is for one added delegator, on the same side, citing a row of that delegator. */
  ghost predicate Evidences(inputs: seq<VoteInput>, added: seq<Did>, rows: seq<DelegationRow>, voter: Did, side: Side) {
    && |inputs| == 1 + |added|
    && inputs[0] == VoteInput(voter, side, None, None)
    && forall k | 0 <= k < |added| ::
         && inputs[k + 1].voter == added[k] && inputs[k + 1].side == side && inputs[k + 1].castBy == Some(voter)
         && inputs[k + 1].delegation.Some?
         && DelegationRow(inputs[k + 1].delegation.value.rkey, inputs[k + 1].delegation.value.cid, Some(added[k])) in rows
  }

  lemma EvidencesSnoc(inputs: seq<VoteInput>, added: seq<Did>, rows: seq<DelegationRow>, voter: Did, side: Side,
                      row: DelegationRow, d: Did)
    requires Evidences(inputs, added, rows, voter, side) && row in rows && row.delegator == Some(d)
    ensures Evidences(inputs + [VoteInput(d, side, Some(voter), Some(DelegationRef(row.rkey, row.cid)))],
                      added + [d], rows, voter, side)
  {
    assert DelegationRow(row.rkey, row.cid, Some(d)) == row;
  }

  lemma AddedFromNothing(already: set<Did>, evidence: bool, repos: Repos)
    ensures Added([], already, evidence, repos) == []
  {
  }

  lemma EvidencesAlone(rows: seq<DelegationRow>, voter: Did, side: Side)
    ensures Evidences([VoteInput(voter, side, None, None)], [], rows, voter, side)
  {
  }

  /** The direct vote and every delegated vote it carries. */
  method CountDelegations(rows: seq<DelegationRow>, voter: Did, side: Side, votesFor: seq<Did>, votesAgainst: seq<Did>,
                          evidence: bool, repos: Repos)
      returns (newFor: seq<Did>, newAgainst: seq<Did>, inputs: seq<VoteInput>)
    ensures var already := Members(votesFor) + Members(votesAgainst) + {voter};
      var added := [voter] + Added(rows, already, evidence, repos);
      && newFor == votesFor + (if side == For then added else [])
      && newAgainst == votesAgainst + (if side == Against then added else [])
      && Evidences(inputs, Added(rows, already, evidence, repos), rows, voter, side)
  {
    hide Added;
    hide Evidences;
    ghost var already := Members(votesFor) + Members(votesAgainst) + {voter};
    newFor := if side == For then votesFor + [voter] else votesFor;
    newAgainst := if side == Against then votesAgainst + [voter] else votesAgainst;
    inputs := [VoteInput(voter, side, None, None)];
    ghost var added: seq<Did> := [];
    AddedFromNothing(already, evidence, repos);
    assert rows[..0] == [];
    EvidencesAlone(rows, voter, side);
    for n := 0 to |rows|
      invariant added == Added(rows[..n], already, evidence, repos)
      invariant newFor == votesFor + (if side == For then [voter] + added else [])
      invariant newAgainst == votesAgainst + (if side == Against then [voter] + added else [])
      invariant Evidences(inputs, added, rows, voter, side)
    {
      var row := rows[n];
      AddedSnoc(rows[..n], row, already, evidence, repos);
      assert rows[..n+1] == rows[..n] + [row];
      if row.delegator.None? { continue; }
      var d := row.delegator.value;
      assert d in newFor || d in newAgainst <==> d in already || d in added;
      if d in newFor || d in newAgainst { continue; }
      if evidence && CheckRepo(repos, d) == NoRepo { continue; }
      EvidencesSnoc(inputs, added, rows, voter, side, row, d);
      added := added + [d];
      if side == For {
        newFor := newFor + [d];
      } else {
        newAgainst := newAgainst + [d];
      }
      inputs := inputs + [VoteInput(d, side, Some(voter), Some(DelegationRef(row.rkey, row.cid)))];
    }
    assert rows[..|rows|] == rows;
  }
}
