/**
 Partner registration under its hourly quota.  Each SQL statement is one step, any
 number of transactions interleave, and the partner key's row lock serializes the
 part between counting and committing.  A user's creation time is its transaction's
 start, so creation times need not follow commit order.
 */
module PartnerQuota {
  import opened Wrappers

  type Time = int
  type Tx = nat

  const HOUR := 3600000

  /** How far a transaction has come; all but the first and last hold the row lock. */
  datatype Stage = Begun | Locked | Approved | Inserted | Ended

  datatype Transaction = Transaction(start: Time, stage: Stage)

  /** `users` are the committed registrations in commit order, `alive` those not deleted since. */
  datatype State = State(users: seq<Time>, alive: set<nat>, limit: nat, active: bool, holder: Option<Tx>, txs: map<Tx, Transaction>, clock: Time)

  datatype Event =
    | Tick(ms: nat)
    | Begin(tx: Tx)
    | LockKey(tx: Tx)          // SELECT ... FOR UPDATE
    | CountUsers(tx: Tx)       // SELECT COUNT(*), and the comparison with the limit
    | InsertUser(tx: Tx)
    | Commit(tx: Tx)
    | Abort(tx: Tx)
    | DeleteUser(user: nat)
    | EditKey(limit: nat, active: bool)

  /** `created_at > CURRENT_TIMESTAMP - INTERVAL '1 hour'`, among committed users that still exist. */
  function Recent(users: seq<Time>, alive: set<nat>, start: Time): set<nat> {
    set i | i in alive && i < |users| && users[i] > start - HOUR
  }

  predicate At(s: State, tx: Tx, stage: Stage) { tx in s.txs && s.txs[tx].stage == stage }

  function Advance(s: State, tx: Tx, stage: Stage): State
    requires tx in s.txs
  {
    s.(txs := s.txs[tx := s.txs[tx].(stage := stage)], holder := if stage == Ended && s.holder == Some(tx) then None else s.holder)
  }

  function Next(s: State, e: Event): State {
    match e
    case Tick(ms) => s.(clock := s.clock + ms)
    case Begin(tx) => if tx in s.txs then s else s.(txs := s.txs[tx := Transaction(s.clock, Begun)])
    case LockKey(tx) =>
      if !At(s, tx, Begun) || s.holder.Some? then s          // a held lock makes it wait
      else if !s.active then Advance(s, tx, Ended)
      else Advance(s, tx, Locked).(holder := Some(tx))
    case CountUsers(tx) =>
      if !At(s, tx, Locked) then s
      else if |Recent(s.users, s.alive, s.txs[tx].start)| >= s.limit then Advance(s, tx, Ended)
      else Advance(s, tx, Approved)
    case InsertUser(tx) => if At(s, tx, Approved) then Advance(s, tx, Inserted) else s
    case Commit(tx) =>
      if !At(s, tx, Inserted) then s
      else Advance(s, tx, Ended).(users := s.users + [s.txs[tx].start], alive := s.alive + {|s.users|})
    case Abort(tx) => if tx in s.txs then Advance(s, tx, Ended) else s
    case DeleteUser(user) => s.(alive := s.alive - {user})
    case EditKey(limit, active) => if s.holder.Some? then s else s.(limit := limit, active := active)
  }

  function Run(s: State, es: seq<Event>): State {
    if es == [] then s else Next(Run(s, es[..|es|-1]), es[|es|-1])
  }

  // ── ... statement by statement ────────────────────────────────────

  /** Users of the last hour before the transaction began, that are there and not deleted. */
  ghost predicate CountsNow(s: State, start: Time, i: nat) { i < |s.users| && i in s.alive && start < s.users[i] + 3600000 }

  /** The key's row is locked by one transaction at a time, and an inactive key ends it. */
  lemma LockExactly(s: State, tx: Tx)
    ensures var t := Next(s, LockKey(tx));
      t == if tx !in s.txs || s.txs[tx].stage != Begun || s.holder.Some? then s
           else if s.active then s.(txs := s.txs[tx := Transaction(s.txs[tx].start, Locked)], holder := Some(tx))
           else s.(txs := s.txs[tx := Transaction(s.txs[tx].start, Ended)])
  {
  }

  /** The count lets a transaction on exactly when there is room under the limit, and else ends it and gives up the lock. */
  lemma CountExactly(s: State, tx: Tx, recent: set<nat>)
    requires forall i: nat :: i in recent <==> tx in s.txs && CountsNow(s, s.txs[tx].start, i)
    ensures var t := Next(s, CountUsers(tx));
      t == if tx !in s.txs || s.txs[tx].stage != Locked then s
           else if |recent| < s.limit then s.(txs := s.txs[tx := Transaction(s.txs[tx].start, Approved)])
           else s.(txs := s.txs[tx := Transaction(s.txs[tx].start, Ended)], holder := if s.holder == Some(tx) then None else s.holder)
  {
    if tx in s.txs {
      forall i: nat ensures i in recent <==> i in Recent(s.users, s.alive, s.txs[tx].start) { }
      assert recent == Recent(s.users, s.alive, s.txs[tx].start);
    }
  }

  /** Inserting and committing adds the one user, created when its transaction began; aborting adds none. */
  lemma EndExactly(s: State, tx: Tx)
    ensures Next(s, InsertUser(tx)) ==
      if tx in s.txs && s.txs[tx].stage == Approved then s.(txs := s.txs[tx := Transaction(s.txs[tx].start, Inserted)]) else s
    ensures Next(s, Commit(tx)) ==
      if tx !in s.txs || s.txs[tx].stage != Inserted then s
      else s.(txs := s.txs[tx := Transaction(s.txs[tx].start, Ended)], holder := if s.holder == Some(tx) then None else s.holder,
              users := s.users + [s.txs[tx].start], alive := s.alive + {|s.users|})
    ensures Next(s, Abort(tx)) ==
      if tx !in s.txs then s
      else s.(txs := s.txs[tx := Transaction(s.txs[tx].start, Ended)], holder := if s.holder == Some(tx) then None else s.holder)
  {
  }

  /** The rest: the clock, new transactions, deletions, and edits of the key, which wait for its row. */
  lemma SurroundingsExactly(s: State, ms: nat, tx: Tx, user: nat, limit: nat, active: bool)
    ensures Next(s, Tick(ms)).clock == s.clock + ms && Next(s, Tick(ms)) == s.(clock := s.clock + ms)
    ensures Next(s, Begin(tx)) == if tx in s.txs then s else s.(txs := s.txs[tx := Transaction(s.clock, Begun)])
    ensures Next(s, DeleteUser(user)) == s.(alive := s.alive - {user})
    ensures Next(s, EditKey(limit, active)) == if s.holder.None? then s.(limit := limit, active := active) else s
  {
  }

  // ── The quota ─────────────────────────────────────────────────────

  /** The users created in one half-open hour. */
  function InWindow(s: State, from: Time): set<nat> {
    set i | i in s.alive && i < |s.users| && from <= s.users[i] < from + HOUR
  }

  /** What each committed user found when it was counted, as far as it survives. */
  function EarlierRecent(s: State, i: nat): set<nat>
    requires i < |s.users|
  {
    set j | j in s.alive && j < i && s.users[j] > s.users[i] - HOUR
  }

  ghost predicate LockKept(s: State) {
    forall tx | tx in s.txs :: s.holder == Some(tx) <==>
      s.txs[tx].stage == Locked || s.txs[tx].stage == Approved || s.txs[tx].stage == Inserted
  }

  ghost predicate Inv(s: State, cap: nat) {
    && s.limit <= cap && LockKept(s) && (s.holder.Some? ==> s.holder.value in s.txs)
    && (forall i | i in s.alive :: i < |s.users|)
    && (forall i | 0 <= i < |s.users| :: |EarlierRecent(s, i)| < cap)
    && (forall tx | tx in s.txs && (s.txs[tx].stage == Approved || s.txs[tx].stage == Inserted) ::
          |Recent(s.users, s.alive, s.txs[tx].start)| < cap)
  }

  lemma SubsetSmaller(a: set<nat>, b: set<nat>)
    requires a <= b
    ensures |a| <= |b|
  {
    assert b == a + (b - a);
  }

  lemma CommitInv(s: State, tx: Tx, cap: nat)
    requires Inv(s, cap) && At(s, tx, Inserted)
    ensures Inv(Next(s, Commit(tx)), cap)
  {
    var t := Next(s, Commit(tx));
    forall i | 0 <= i < |t.users| ensures |EarlierRecent(t, i)| < cap {
      if i < |s.users| {
        assert EarlierRecent(t, i) == EarlierRecent(s, i);
      } else {
        assert EarlierRecent(t, i) == Recent(s.users, s.alive, s.txs[tx].start);
      }
    }
    assert t.holder.None?;
  }

  lemma DeleteInv(s: State, user: nat, cap: nat)
    requires Inv(s, cap)
    ensures Inv(Next(s, DeleteUser(user)), cap)
  {
    var t := Next(s, DeleteUser(user));
    forall i | 0 <= i < |t.users| ensures |EarlierRecent(t, i)| < cap {
      SubsetSmaller(EarlierRecent(t, i), EarlierRecent(s, i));
    }
    forall tx | tx in t.txs && (t.txs[tx].stage == Approved || t.txs[tx].stage == Inserted)
      ensures |Recent(t.users, t.alive, t.txs[tx].start)| < cap
    {
      SubsetSmaller(Recent(t.users, t.alive, t.txs[tx].start), Recent(s.users, s.alive, s.txs[tx].start));
    }
  }

  /** Steps that touch neither users nor deletions. */
  lemma QuietInv(s: State, e: Event, cap: nat)
    requires Inv(s, cap) && !e.Commit? && !e.DeleteUser? && (e.EditKey? ==> e.limit <= cap)
    ensures Inv(Next(s, e), cap)
  {
    var t := Next(s, e);
    forall i | 0 <= i < |t.users| ensures |EarlierRecent(t, i)| < cap {
      assert EarlierRecent(t, i) == EarlierRecent(s, i);
    }
  }

  lemma InvNext(s: State, e: Event, cap: nat)
    requires Inv(s, cap) && (e.EditKey? ==> e.limit <= cap)
    ensures Inv(Next(s, e), cap)
  {
    match e
    case Commit(tx) => if At(s, tx, Inserted) { CommitInv(s, tx, cap); }
    case DeleteUser(user) => DeleteInv(s, user, cap);
    case _ => QuietInv(s, e, cap);
  }

  ghost predicate Initial(s: State) {
    s.users == [] && s.alive == {} && s.txs == map[] && s.holder.None?
  }

  /** No edit of the key raises its limit above `cap`. */
  predicate Capped(es: seq<Event>, cap: nat) {
    forall i | 0 <= i < |es| :: es[i].EditKey? ==> es[i].limit <= cap
  }

  lemma {:induction false} InvRun(s: State, es: seq<Event>, cap: nat)
    requires Initial(s) && s.limit <= cap && Capped(es, cap)
    ensures Inv(Run(s, es), cap)
    decreases |es|
  {
    if es != [] {
      InvRun(s, es[..|es|-1], cap);
      assert es[|es|-1] == es[..][|es|-1];
      InvNext(Run(s, es[..|es|-1]), es[|es|-1], cap);
    }
  }

  lemma {:induction false} LastOf(ids: set<nat>, bound: nat, x: nat)
    requires x in ids && forall i | i in ids :: i < bound
    ensures exists m :: m in ids && forall i | i in ids :: i <= m
    decreases bound - x
  {
    if j :| j in ids && j > x {
      LastOf(ids, bound, j);
    } else {
      assert forall i | i in ids :: i <= x;
    }
  }

  lemma WindowWithin(s: State, cap: nat, from: Time)
    requires Inv(s, cap)
    ensures |InWindow(s, from)| <= cap
  {
    var w := InWindow(s, from);
    if w != {} {
      var x :| x in w;
      LastOf(w, |s.users|, x);
      var m :| m in w && forall i | i in w :: i <= m;
      SubsetSmaller(w - {m}, EarlierRecent(s, m));
      assert |w - {m}| == |w| - 1;
    }
  }

  /**
   However transactions interleave, commit out of creation order, abort, and users are
   deleted: no hour ever holds more surviving registrations than the key's highest limit.
   */
  lemma EveryHourWithinQuota(s: State, es: seq<Event>, cap: nat, from: Time)
    requires Initial(s) && s.limit <= cap && Capped(es, cap)
    ensures |InWindow(Run(s, es), from)| <= cap
  {
    InvRun(s, es, cap);
    WindowWithin(Run(s, es), cap, from);
  }

  // ── The endpoint's statements ─────────────────────────────────────

  class PartnerKey {
    var users: seq<Time>
    var alive: set<nat>
    var limit: nat
    var active: bool
    var holder: Option<Tx>
    var txs: map<Tx, Transaction>
    var clock: Time

    ghost function Contents(): State reads this {
      State(users, alive, limit, active, holder, txs, clock)
    }

    method CountRecent(start: Time) returns (count: nat)
      ensures count == |Recent(users, alive, start)|
    {
      count := 0;
      ghost var seen: set<nat> := {};
      for i := 0 to |users|
        invariant seen == set k | k in alive && k < i && users[k] > start - HOUR
        invariant count == |seen|
      {
        if i in alive && users[i] > start - HOUR {
          count := count + 1;
          seen := seen + {i};
        }
      }
      assert seen == Recent(users, alive, start);
    }

    method Move(tx: Tx, stage: Stage)
      requires tx in txs
      modifies this`txs, this`holder
      ensures Contents() == Advance(old(Contents()), tx, stage)
    {
      txs := txs[tx := txs[tx].(stage := stage)];
      if stage == Ended && holder == Some(tx) { holder := None; }
    }

    method BeginTransaction(tx: Tx)
      modifies this`txs
      ensures Contents() == Next(old(Contents()), Begin(tx))
      ensures tx !in old(txs) ==> At(Contents(), tx, Begun) && txs[tx].start == clock
    {
      if tx !in txs { txs := txs[tx := Transaction(clock, Begun)]; }
    }

    /** Whether this transaction now holds the key's row, and the key is active. */
    method LockKeyRow(tx: Tx) returns (locked: bool)
      modifies this`txs, this`holder
      ensures Contents() == Next(old(Contents()), LockKey(tx))
      ensures locked ==> At(Contents(), tx, Locked)
      ensures locked <==> At(old(Contents()), tx, Begun) && old(holder).None? && active
      ensures tx in txs && tx in old(txs) ==> txs[tx].start == old(txs)[tx].start
      ensures !locked ==> !At(Contents(), tx, Locked) || At(old(Contents()), tx, Locked)
    {
      locked := false;
      if tx !in txs || txs[tx].stage != Begun || holder.Some? { return; }
      if !active { Move(tx, Ended); return; }
      Move(tx, Locked);
      holder, locked := Some(tx), true;
    }

    method CheckQuota(tx: Tx) returns (ok: bool)
      modifies this`txs, this`holder
      ensures Contents() == Next(old(Contents()), CountUsers(tx))
      ensures ok <==> At(old(Contents()), tx, Locked) && At(Contents(), tx, Approved)
      ensures ok <==> At(old(Contents()), tx, Locked) && |Recent(users, alive, old(txs)[tx].start)| < limit
    {
      ok := false;
      if tx !in txs || txs[tx].stage != Locked { return; }
      var count := CountRecent(txs[tx].start);
      if count >= limit { Move(tx, Ended); return; }
      Move(tx, Approved);
      ok := true;
    }

    method InsertAndCommit(tx: Tx)
      requires At(Contents(), tx, Approved)
      modifies this`txs, this`holder, this`users, this`alive
      ensures Contents() == Next(Next(old(Contents()), InsertUser(tx)), Commit(tx))
      ensures users == old(users) + [old(txs)[tx].start]
    {
      Move(tx, Inserted);
      Move(tx, Ended);
      users, alive := users + [txs[tx].start], alive + {|users|};
    }

    method Rollback(tx: Tx)
      modifies this`txs, this`holder
      ensures Contents() == Next(old(Contents()), Abort(tx))
    {
      if tx in txs { Move(tx, Ended); }
    }

    /** The handler's transaction; `taken` when the handle or the email is not available. */
    method PartnerRegister(tx: Tx, taken: bool) returns (registered: bool)
      modifies this`users, this`alive, this`holder, this`txs
      ensures registered ==> Contents() == Run(old(Contents()), [Begin(tx), LockKey(tx), CountUsers(tx), InsertUser(tx), Commit(tx)])
      ensures !registered ==> Contents() == Run(old(Contents()), [Begin(tx), LockKey(tx), CountUsers(tx), Abort(tx)])
      ensures registered ==> |users| == |old(users)| + 1
      ensures tx !in old(txs) ==>
        (registered <==> !taken && old(active) && old(holder).None? && |Recent(old(users), old(alive), old(clock))| < old(limit))
    {
      hide Next;
      hide Run;
      ghost var s := Contents();
      RegisterSteps(s, tx);
      BeginTransaction(tx);
      var locked := LockKeyRow(tx);
      var ok := CheckQuota(tx);
      if !ok || taken {
        Rollback(tx);
        return false;
      }
      InsertAndCommit(tx);
      return true;
    }
  }

  lemma RunSnoc(s: State, es: seq<Event>, e: Event)
    ensures Run(s, es + [e]) == Next(Run(s, es), e)
  {
    hide Next;
    assert (es + [e])[..|es|] == es;
  }

  lemma RegisterSteps(s: State, tx: Tx)
    ensures var counted := Next(Next(Next(s, Begin(tx)), LockKey(tx)), CountUsers(tx));
      && Run(s, [Begin(tx), LockKey(tx), CountUsers(tx), Abort(tx)]) == Next(counted, Abort(tx))
      && Run(s, [Begin(tx), LockKey(tx), CountUsers(tx), InsertUser(tx), Commit(tx)]) == Next(Next(counted, InsertUser(tx)), Commit(tx))
  {
    hide Next;
    var head := [Begin(tx), LockKey(tx), CountUsers(tx)];
    RunSnoc(s, [], Begin(tx));
    RunSnoc(s, [Begin(tx)], LockKey(tx));
    RunSnoc(s, [Begin(tx), LockKey(tx)], CountUsers(tx));
    RunSnoc(s, head, Abort(tx));
    RunSnoc(s, head, InsertUser(tx));
    RunSnoc(s, head + [InsertUser(tx)], Commit(tx));
    assert [] + [Begin(tx)] == [Begin(tx)] && [Begin(tx)] + [LockKey(tx)] + [CountUsers(tx)] == head;
    assert head + [Abort(tx)] == [Begin(tx), LockKey(tx), CountUsers(tx), Abort(tx)];
    assert head + [InsertUser(tx)] + [Commit(tx)] == [Begin(tx), LockKey(tx), CountUsers(tx), InsertUser(tx), Commit(tx)];
  }
}
