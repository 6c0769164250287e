/**
 Creation tokens and reserved signing keys.  Both are taken inside transactions that
 may commit or abort: a token by inserting its hash, a key by deleting its row.  A
 claim another open transaction has on the same row makes a statement wait.
 */
module CreationTokens {
  import opened Wrappers

  type Did = nat
  type User = nat
  type Epoch = nat
  type Token = nat
  type KeyId = nat
  type Tx = nat

  /** Rows of `reserved_signing_keys`, oldest first. */
  datatype Reservation = Reservation(key: KeyId, did: Option<Did>)

  const MAX_RESERVATIONS := 10000

  /** An account being made: the token it spends, the rows it deletes, the key it will sign with. */
  datatype Opening = Opening(did: Did, token: Option<Token>, taken: set<KeyId>, key: Option<KeyId>)

  /** `accounts` records every account ever committed; `alive` those not removed since. */
  datatype State = State(
    reserved: seq<Reservation>, spent: set<Token>, issued: set<Token>, batches: set<(User, Epoch)>,
    accounts: seq<Opening>, alive: set<nat>, txs: map<Tx, Opening>, nextKey: KeyId)

  datatype Event =
    | Reserve(forDid: Option<Did>)
    | Trim
    | Collect(user: User, epoch: Epoch, tokens: set<Token>)   // the tokens the batch's signatures unblind to
    | Begin(tx: Tx, did: Did)
    | Redeem(tx: Tx, token: Token)
    | TakeKey(tx: Tx, key: KeyId)
    | TakeForDid(tx: Tx)
    | Commit(tx: Tx)
    | Abort(tx: Tx)
    | RemoveAccount(account: nat)    // compensation after a failed repository, or deletion

  function Keys(rows: seq<Reservation>): set<KeyId> { set r | r in rows :: r.key }

  /** The rows that stay when some keys, or some DID's rows, go. */
  function Without(rows: seq<Reservation>, keys: set<KeyId>): seq<Reservation> {
    if rows == [] then []
    else (if rows[0].key in keys then [] else [rows[0]]) + Without(rows[1..], keys)
  }

  function ForDid(rows: seq<Reservation>, did: Did): set<KeyId> {
    set r | r in rows && r.did == Some(did) :: r.key
  }

  /** Rows some open transaction has already claimed. */
  function Claimed(s: State): set<KeyId> {
    set tx, k | tx in s.txs && k in s.txs[tx].taken :: k
  }

  function Redeeming(s: State): set<Token> {
    set tx | tx in s.txs && s.txs[tx].token.Some? :: s.txs[tx].token.value
  }

  predicate HasAccount(s: State, did: Did) {
    exists i :: i in s.alive && i < |s.accounts| && s.accounts[i].did == did
  }

  function End(s: State, tx: Tx): State { s.(txs := s.txs - {tx}) }

  function Next(s: State, e: Event, perEpoch: nat): State {
    match e
    case Reserve(did) =>
      var gone := if did.Some? then ForDid(s.reserved, did.value) else {};
      if gone * Claimed(s) != {} then s
      else s.(reserved := Without(s.reserved, gone) + [Reservation(s.nextKey, did)], nextKey := s.nextKey + 1)
    case Trim =>
      var kept := if |s.reserved| <= MAX_RESERVATIONS then s.reserved else s.reserved[|s.reserved| - MAX_RESERVATIONS..];
      if (Keys(s.reserved) - Keys(kept)) * Claimed(s) != {} then s else s.(reserved := kept)
    case Collect(user, epoch, tokens) =>
      if (user, epoch) in s.batches || |tokens| > perEpoch || !(tokens !! s.issued) then s
      else s.(batches := s.batches + {(user, epoch)}, issued := s.issued + tokens)
    case Begin(tx, did) =>
      if tx in s.txs || HasAccount(s, did) then s else s.(txs := s.txs[tx := Opening(did, None, {}, None)])
    case Redeem(tx, token) =>
      if tx !in s.txs || s.txs[tx].token.Some? then s
      else if token !in s.issued || token in s.spent then End(s, tx)
      else if token in Redeeming(s) then s
      else s.(txs := s.txs[tx := s.txs[tx].(token := Some(token))])
    case TakeKey(tx, key) =>
      if tx !in s.txs || s.txs[tx].key.Some? then s
      else if key !in Keys(s.reserved) then End(s, tx)
      else if key in Claimed(s) then s
      else s.(txs := s.txs[tx := s.txs[tx].(taken := {key}, key := Some(key))])
    case TakeForDid(tx) =>
      if tx !in s.txs || s.txs[tx].key.Some? then s
      else
        var mine := ForDid(s.reserved, s.txs[tx].did);
        if mine * Claimed(s) != {} then s
        else if mine == {} then s.(txs := s.txs[tx := s.txs[tx].(key := Some(s.nextKey))], nextKey := s.nextKey + 1)
        else s.(txs := s.txs[tx := s.txs[tx].(taken := mine, key := Some(FirstFor(s.reserved, s.txs[tx].did)))])
    case Commit(tx) =>
      if tx !in s.txs || s.txs[tx].key.None? then s
      else if HasAccount(s, s.txs[tx].did) then End(s, tx)
      else
        var o := s.txs[tx];
        End(s, tx).(reserved := Without(s.reserved, o.taken), accounts := s.accounts + [o], alive := s.alive + {|s.accounts|},
                    spent := if o.token.Some? then s.spent + {o.token.value} else s.spent)
    case Abort(tx) => End(s, tx)
    case RemoveAccount(account) => s.(alive := s.alive - {account})
  }

  /** The first row returned for a DID; 0 when there is none. */
  function FirstFor(rows: seq<Reservation>, did: Did): KeyId {
    if rows == [] then 0 else if rows[0].did == Some(did) then rows[0].key else FirstFor(rows[1..], did)
  }

  /** A run: the events and the states between them. */
  ghost predicate IsRun(states: seq<State>, es: seq<Event>, perEpoch: nat) {
    && |states| == |es| + 1 && states[0] == NOTHING_YET
    && forall i {:trigger es[i]} | 0 <= i < |es| :: states[i + 1] == Next(states[i], es[i], perEpoch)
  }

  // ── ... statement by statement ────────────────────────────────────

  /** Some open transaction has claimed the row. */
  ghost predicate ClaimedRow(s: State, key: KeyId) { exists tx :: tx in s.txs && key in s.txs[tx].taken }

  ghost predicate ReservedFor(s: State, did: Did, key: KeyId) { exists r :: r in s.reserved && r.did == Some(did) && r.key == key }

  /** An account that exists has this DID. */
  ghost predicate Taken(s: State, did: Did) { exists i: nat :: i in s.alive && i < |s.accounts| && s.accounts[i].did == did }

  lemma ClaimedMeans(s: State)
    ensures forall key :: key in Claimed(s) <==> ClaimedRow(s, key)
  {
  }

  lemma ForDidMeans(s: State, did: Did)
    ensures forall key :: key in ForDid(s.reserved, did) <==> ReservedFor(s, did, key)
    ensures ForDid(s.reserved, did) != {} <==> exists key :: ReservedFor(s, did, key)
    ensures ForDid(s.reserved, did) * Claimed(s) != {} <==> exists key :: ReservedFor(s, did, key) && ClaimedRow(s, key)
  {
    ClaimedMeans(s);
    var mine := ForDid(s.reserved, did);
    assert forall key :: key in mine <==> ReservedFor(s, did, key);
    hide Claimed;
    hide ForDid;
    hide ReservedFor;
    hide ClaimedRow;
    if key :| ReservedFor(s, did, key) { assert key in mine; }
    if key :| ReservedFor(s, did, key) && ClaimedRow(s, key) { assert key in mine * Claimed(s); }
    if key :| key in mine * Claimed(s) { assert ReservedFor(s, did, key) && ClaimedRow(s, key); }
    if key :| key in mine { assert ReservedFor(s, did, key); }
  }

  /** Creation begins once, for a DID no existing account has. */
  lemma BeginExactly(s: State, tx: Tx, did: Did, perEpoch: nat)
    ensures Next(s, Begin(tx, did), perEpoch) ==
      if tx in s.txs || Taken(s, did) then s else s.(txs := s.txs[tx := Opening(did, None, {}, None)])
  {
  }

  /** A transaction spends one token: issued, unspent, and in no other transaction, for which it waits; a bad one ends it. */
  lemma RedeemExactly(s: State, tx: Tx, token: Token, perEpoch: nat)
    ensures Next(s, Redeem(tx, token), perEpoch) ==
      if tx !in s.txs || s.txs[tx].token.Some? then s
      else if token !in s.issued || token in s.spent then s.(txs := s.txs - {tx})
      else if exists ty :: ty in s.txs && s.txs[ty].token == Some(token) then s
      else s.(txs := s.txs[tx := s.txs[tx].(token := Some(token))])
  {
    if ty :| ty in s.txs && s.txs[ty].token == Some(token) { assert token in Redeeming(s); }
  }

  /** It takes one reserved key that no other transaction has claimed; a key that is not reserved ends it. */
  lemma TakeKeyExactly(s: State, tx: Tx, key: KeyId, perEpoch: nat)
    ensures Next(s, TakeKey(tx, key), perEpoch) ==
      if tx !in s.txs || s.txs[tx].key.Some? then s
      else if forall r | r in s.reserved :: r.key != key then s.(txs := s.txs - {tx})
      else if ClaimedRow(s, key) then s
      else s.(txs := s.txs[tx := s.txs[tx].(taken := {key}, key := Some(key))])
  {
    assert key in Keys(s.reserved) <==> exists r :: r in s.reserved && r.key == key;
    assert key in Claimed(s) <==> ClaimedRow(s, key);
  }

  /** ... or all that are reserved for its DID, to sign with the first of them; and if there is none, a key of its own. */
  lemma TakeForDidExactly(s: State, tx: Tx, perEpoch: nat)
    ensures var t := Next(s, TakeForDid(tx), perEpoch);
      if tx !in s.txs || s.txs[tx].key.Some? then t == s
      else
        var did := s.txs[tx].did;
        if exists key :: ReservedFor(s, did, key) && ClaimedRow(s, key) then t == s
        else
          && t == s.(txs := t.txs, nextKey := t.nextKey) && t.txs.Keys == s.txs.Keys
          && (forall ty | ty in s.txs && ty != tx :: t.txs[ty] == s.txs[ty])
          && t.txs[tx] == s.txs[tx].(taken := t.txs[tx].taken, key := t.txs[tx].key) && t.txs[tx].key.Some?
          && if exists key :: ReservedFor(s, did, key)
             then t.nextKey == s.nextKey && ReservedFor(s, did, t.txs[tx].key.value)
                  && (forall key :: key in t.txs[tx].taken <==> ReservedFor(s, did, key))
             else t.nextKey > s.nextKey && t.txs[tx].key == Some(s.nextKey) && t.txs[tx].taken == s.txs[tx].taken
  {
    hide FirstFor;
    if tx in s.txs {
      ForDidMeans(s, s.txs[tx].did);
      hide Claimed;
      hide ForDid;
      hide ReservedFor;
      hide ClaimedRow;
      if ForDid(s.reserved, s.txs[tx].did) != {} { FirstForTaken(s.reserved, s.txs[tx].did); }
    }
  }

  lemma {:induction false} WithoutExactly(rows: seq<Reservation>, keys: set<KeyId>, r: Reservation)
    ensures r in Without(rows, keys) <==> r in rows && r.key !in keys
    decreases |rows|
  {
    if rows != [] {
      WithoutExactly(rows[1..], keys, r);
      assert rows == [rows[0]] + rows[1..];
    }
  }

  /** Committing spends the token, deletes the taken rows and adds the account, unless its DID has one by now. */
  lemma CommitExactly(s: State, tx: Tx, perEpoch: nat, r: Reservation)
    ensures var t := Next(s, Commit(tx), perEpoch);
      if tx !in s.txs || s.txs[tx].key.None? then t == s
      else if Taken(s, s.txs[tx].did) then t == s.(txs := s.txs - {tx})
      else
        && t == s.(txs := s.txs - {tx}, reserved := t.reserved, accounts := s.accounts + [s.txs[tx]], alive := s.alive + {|s.accounts|},
                   spent := s.spent + (if s.txs[tx].token.Some? then {s.txs[tx].token.value} else {}))
        && (r in t.reserved <==> r in s.reserved && r.key !in s.txs[tx].taken)
  {
    if tx in s.txs { WithoutExactly(s.reserved, s.txs[tx].taken, r); }
    assert forall did :: HasAccount(s, did) <==> Taken(s, did);
    hide HasAccount;
    hide Taken;
    hide Without;
  }

  /** A reservation replaces those its DID had, under a new key; a batch is one for its user and epoch, no larger than allowed, of new tokens. */
  lemma SuppliesExactly(s: State, did: Option<Did>, user: User, epoch: Epoch, tokens: set<Token>, perEpoch: nat, r: Reservation)
    ensures var t := Next(s, Reserve(did), perEpoch);
      if exists key :: did.Some? && ReservedFor(s, did.value, key) && ClaimedRow(s, key) then t == s
      else
        && t == s.(reserved := t.reserved, nextKey := t.nextKey) && t.nextKey > s.nextKey
        && (r in t.reserved <==> r == Reservation(s.nextKey, did) || (r in s.reserved && !(did.Some? && ReservedFor(s, did.value, r.key))))
    ensures Next(s, Collect(user, epoch, tokens), perEpoch) ==
      if (user, epoch) in s.batches || |tokens| > perEpoch || (exists x :: x in tokens && x in s.issued) then s
      else s.(batches := s.batches + {(user, epoch)}, issued := s.issued + tokens)
  {
    var gone := if did.Some? then ForDid(s.reserved, did.value) else {};
    WithoutExactly(s.reserved, gone, r);
    if did.Some? { ForDidMeans(s, did.value); }
    hide Without;
    hide Claimed;
    hide ForDid;
    hide ReservedFor;
    hide ClaimedRow;
  }

  lemma EndingsExactly(s: State, tx: Tx, account: nat, perEpoch: nat)
    ensures Next(s, Abort(tx), perEpoch) == s.(txs := s.txs - {tx})
    ensures Next(s, RemoveAccount(account), perEpoch) == s.(alive := s.alive - {account})
  {
  }

  // ── ... creation by creation ──────────────────────────────────────

  /** A token a new transaction can spend at once. */
  ghost predicate Usable(s: State, token: Token) {
    token in s.issued && token !in s.spent && !exists ty :: ty in s.txs && s.txs[ty].token == Some(token)
  }

  /** A key reserved and unclaimed. */
  ghost predicate Available(s: State, key: KeyId) { (exists r :: r in s.reserved && r.key == key) && !ClaimedRow(s, key) }

  /** A pseudonym's creation has all it needs. */
  ghost predicate CanOpen(s: State, did: Did, token: Token, key: KeyId) {
    !Taken(s, did) && Usable(s, token) && Available(s, key)
  }

  /** A migration needs a token only when it brings one, and no key of its DID may be claimed. */
  ghost predicate CanMigrate(s: State, did: Did, token: Option<Token>) {
    && !Taken(s, did) && (token.Some? ==> Usable(s, token.value))
    && !exists key :: ReservedFor(s, did, key) && ClaimedRow(s, key)
  }

  /** An open transaction that has yet to get the token or the key it asked for. */
  predicate Waiting(s: State, tx: Tx, token: bool) {
    tx in s.txs && ((token && s.txs[tx].token.None?) || s.txs[tx].key.None?)
  }

  predicate Ready(s: State, tx: Tx, token: bool) { tx in s.txs && !Waiting(s, tx, token) }

  /** The first two statements: the transaction is open with its token exactly when the DID is free and the token usable. */
  lemma TokenWhenUsable(s: State, tx: Tx, did: Did, token: Token, perEpoch: nat)
    requires tx !in s.txs
    ensures var t := Next(Next(s, Begin(tx, did), perEpoch), Redeem(tx, token), perEpoch);
      && t == s.(txs := t.txs) && t.txs - {tx} == s.txs
      && (tx in t.txs && t.txs[tx].token.Some? <==> !Taken(s, did) && Usable(s, token))
      && (tx in t.txs ==> t.txs[tx] == Opening(did, t.txs[tx].token, {}, None) && (t.txs[tx].token.Some? ==> t.txs[tx].token == Some(token)))
  {
    var b := Next(s, Begin(tx, did), perEpoch);
    BeginExactly(s, tx, did, perEpoch);
    RedeemExactly(b, tx, token, perEpoch);
    hide Next;
    hide Taken;
    if ty :| ty in s.txs && s.txs[ty].token == Some(token) { assert tx in b.txs ==> b.txs[ty].token == Some(token); }
    assert b.txs - {tx} == s.txs;
  }

  lemma KeyWhenAvailable(s: State, t: State, tx: Tx, key: KeyId, perEpoch: nat)
    requires t == s.(txs := t.txs) && t.txs - {tx} == s.txs && (tx in t.txs ==> t.txs[tx].key.None? && t.txs[tx].taken == {})
    ensures var u := Next(t, TakeKey(tx, key), perEpoch);
      && u == s.(txs := u.txs) && u.txs - {tx} == s.txs
      && (tx in u.txs && u.txs[tx].key.Some? <==> tx in t.txs && Available(s, key))
      && (tx in u.txs ==> tx in t.txs && u.txs[tx].did == t.txs[tx].did && u.txs[tx].token == t.txs[tx].token
                          && (u.txs[tx].key.Some? ==> u.txs[tx].key == Some(key) && u.txs[tx].taken == {key}))
  {
    TakeKeyExactly(t, tx, key, perEpoch);
    SameClaims(s, t, tx, key);
    hide Next;
    hide ClaimedRow;
  }

  /** A transaction that has taken nothing claims nothing. */
  lemma SameClaims(s: State, t: State, tx: Tx, key: KeyId)
    requires t.txs - {tx} == s.txs && (tx in t.txs ==> t.txs[tx].taken == {})
    ensures ClaimedRow(t, key) <==> ClaimedRow(s, key)
  {
    forall ty | ty in s.txs ensures ty in t.txs && t.txs[ty] == s.txs[ty] { assert ty in t.txs - {tx}; }
    if ty :| ty in t.txs && key in t.txs[ty].taken { assert ty in t.txs - {tx}; }
    if ty :| ty in s.txs && key in s.txs[ty].taken { assert key in t.txs[ty].taken; }
  }

  lemma PseudonymReady(s: State, tx: Tx, did: Did, token: Token, key: KeyId, perEpoch: nat)
    requires tx !in s.txs
    ensures var u := Next(Next(Next(s, Begin(tx, did), perEpoch), Redeem(tx, token), perEpoch), TakeKey(tx, key), perEpoch);
      && u == s.(txs := u.txs) && u.txs - {tx} == s.txs
      && (Ready(u, tx, true) <==> CanOpen(s, did, token, key))
      && (Ready(u, tx, true) ==> u.txs[tx] == Opening(did, Some(token), {key}, Some(key)))
  {
    TokenWhenUsable(s, tx, did, token, perEpoch);
    var t := Next(Next(s, Begin(tx, did), perEpoch), Redeem(tx, token), perEpoch);
    KeyWhenAvailable(s, t, tx, key, perEpoch);
    hide Next;
    hide Usable;
    hide Available;
    hide Taken;
  }

  /** Begun, and with its token if it brings one. */
  function Redeemed(s: State, tx: Tx, did: Did, token: Option<Token>, perEpoch: nat): State {
    var begun := Next(s, Begin(tx, did), perEpoch);
    if token.Some? then Next(begun, Redeem(tx, token.value), perEpoch) else begun
  }

  lemma MigrationReady(s: State, tx: Tx, did: Did, token: Option<Token>, perEpoch: nat)
    requires tx !in s.txs
    ensures var u := Next(Redeemed(s, tx, did, token, perEpoch), TakeForDid(tx), perEpoch);
      && u == s.(txs := u.txs, nextKey := u.nextKey) && u.txs - {tx} == s.txs
      && (Ready(u, tx, token.Some?) <==> CanMigrate(s, did, token))
      && (tx in u.txs ==> u.txs[tx].did == did)
      && (Ready(u, tx, token.Some?) ==> u.txs[tx].token == token)
  {
    var t := Redeemed(s, tx, did, token, perEpoch);
    BeginExactly(s, tx, did, perEpoch);
    if token.Some? { TokenWhenUsable(s, tx, did, token.value, perEpoch); }
    TakeForDidExactly(t, tx, perEpoch);
    hide Next;
    hide Usable;
    hide Taken;
    hide ReservedFor;
    assert t.txs - {tx} == s.txs;
    SameReservations(s, t, did);
    forall key ensures ClaimedRow(t, key) <==> ClaimedRow(s, key) { SameClaims(s, t, tx, key); }
    hide ClaimedRow;
  }

  lemma SameReservations(s: State, t: State, did: Did)
    requires t.reserved == s.reserved
    ensures forall key :: ReservedFor(t, did, key) <==> ReservedFor(s, did, key)
  {
  }

  // ── Invariants ────────────────────────────────────────────────────

  /** The accounts a token opened. */
  function TokenOpened(accounts: seq<Opening>): set<nat> {
    set i | 0 <= i < |accounts| && accounts[i].token.Some?
  }

  /** Spent tokens and token-opened accounts match one to one. */
  ghost predicate SpentOnce(accounts: seq<Opening>, spent: set<Token>) {
    && (forall i | 0 <= i < |accounts| && accounts[i].token.Some? :: accounts[i].token.value in spent)
    && (forall i, j | 0 <= i < j < |accounts| && accounts[i].token.Some? :: accounts[i].token != accounts[j].token)
    && |TokenOpened(accounts)| == |spent|
  }

  /** Tokens in open transactions are valid, unspent and all different. */
  ghost predicate PendingTokens(txs: map<Tx, Opening>, issued: set<Token>, spent: set<Token>) {
    && (forall tx | tx in txs && txs[tx].token.Some? :: txs[tx].token.value in issued && txs[tx].token.value !in spent)
    && (forall tx, ty | tx in txs && ty in txs && tx != ty && txs[tx].token.Some? :: txs[tx].token != txs[ty].token)
  }

  ghost predicate TokenInv(s: State, perEpoch: nat) {
    && s.spent <= s.issued && |s.issued| <= perEpoch * |s.batches|
    && SpentOnce(s.accounts, s.spent)
    && PendingTokens(s.txs, s.issued, s.spent)
  }

  ghost predicate KeyInv(s: State) {
    && (forall k | k in Keys(s.reserved) :: k < s.nextKey)
    && (forall i | 0 <= i < |s.accounts| ::
          s.accounts[i].key.Some? && s.accounts[i].key.value < s.nextKey && s.accounts[i].key.value !in Keys(s.reserved))
    && (forall i, j | 0 <= i < j < |s.accounts| :: s.accounts[i].key != s.accounts[j].key)
    && (forall tx | tx in s.txs && s.txs[tx].key.Some? :: PendingKey(s, s.txs[tx]))
    && (forall tx, ty | tx in s.txs && ty in s.txs && tx != ty :: s.txs[tx].taken !! s.txs[ty].taken)
    && (forall tx, ty | tx in s.txs && ty in s.txs && tx != ty && s.txs[tx].key.Some? :: s.txs[tx].key != s.txs[ty].key)
    && (forall tx | tx in s.txs && s.txs[tx].key.None? :: s.txs[tx].taken == {})
    && (forall tx | tx in s.txs :: s.txs[tx].taken <= Keys(s.reserved))
  }

  /** The key of an account being made is nobody's yet, and off the table once its rows are deleted. */
  ghost predicate PendingKey(s: State, o: Opening)
    requires o.key.Some?
  {
    && o.key.value < s.nextKey
    && (o.key.value in o.taken || o.key.value !in Keys(s.reserved))
    && forall i | 0 <= i < |s.accounts| :: s.accounts[i].key != o.key
  }

  // ── Tokens ────────────────────────────────────────────────────────

  lemma CollectTokens(s: State, user: User, epoch: Epoch, tokens: set<Token>, perEpoch: nat)
    requires TokenInv(s, perEpoch) && (user, epoch) !in s.batches && |tokens| <= perEpoch && tokens !! s.issued
    ensures TokenInv(Next(s, Collect(user, epoch, tokens), perEpoch), perEpoch)
  {
    hide SpentOnce;
    var t := Next(s, Collect(user, epoch, tokens), perEpoch);
    assert |t.batches| == |s.batches| + 1;
    assert |t.issued| == |s.issued| + |tokens|;
    assert perEpoch * (|s.batches| + 1) == perEpoch * |s.batches| + perEpoch;
  }

  lemma RedeemTokens(s: State, tx: Tx, token: Token, perEpoch: nat)
    requires TokenInv(s, perEpoch) && tx in s.txs && s.txs[tx].token.None?
    requires token in s.issued && token !in s.spent && token !in Redeeming(s)
    ensures TokenInv(Next(s, Redeem(tx, token), perEpoch), perEpoch)
  {
    hide SpentOnce;
    var t := Next(s, Redeem(tx, token), perEpoch);
    forall ty | ty in t.txs && ty != tx ensures t.txs[ty].token != Some(token) {
      if s.txs[ty].token.Some? { assert s.txs[ty].token.value in Redeeming(s); }
    }
  }

  lemma OneMore(accounts: seq<Opening>, o: Opening)
    ensures TokenOpened(accounts + [o]) == TokenOpened(accounts) + (if o.token.Some? then {|accounts|} else {})
    ensures |TokenOpened(accounts + [o])| == |TokenOpened(accounts)| + (if o.token.Some? then 1 else 0)
  {
    assert |accounts| !in TokenOpened(accounts);
  }

  lemma SpendOne(accounts: seq<Opening>, spent: set<Token>, o: Opening)
    requires SpentOnce(accounts, spent) && (o.token.Some? ==> o.token.value !in spent)
    ensures SpentOnce(accounts + [o], if o.token.Some? then spent + {o.token.value} else spent)
  {
    hide TokenOpened;
    OneMore(accounts, o);
  }

  lemma CommitTokens(s: State, tx: Tx, perEpoch: nat)
    requires TokenInv(s, perEpoch) && tx in s.txs && s.txs[tx].key.Some? && !HasAccount(s, s.txs[tx].did)
    ensures TokenInv(Next(s, Commit(tx), perEpoch), perEpoch)
  {
    hide HasAccount;
    hide Without;
    hide SpentOnce;
    SpendOne(s.accounts, s.spent, s.txs[tx]);
  }

  /** Transactions come and go; no token moves. */
  lemma TokensUnchanged(s: State, t: State, perEpoch: nat)
    requires TokenInv(s, perEpoch)
    requires t.accounts == s.accounts && t.spent == s.spent && t.issued == s.issued && t.batches == s.batches
    requires forall tx | tx in t.txs :: if tx in s.txs then t.txs[tx].token == s.txs[tx].token else t.txs[tx].token.None?
    ensures TokenInv(t, perEpoch)
  {
    hide SpentOnce;
  }

  lemma TokenInvNext(s: State, e: Event, perEpoch: nat)
    requires TokenInv(s, perEpoch)
    ensures TokenInv(Next(s, e, perEpoch), perEpoch)
  {
    hide TokenInv;
    hide Without;
    hide HasAccount;
    hide FirstFor;
    hide ForDid;
    hide Claimed;
    var t := Next(s, e, perEpoch);
    match e
    case Collect(user, epoch, tokens) =>
      if t != s { CollectTokens(s, user, epoch, tokens, perEpoch); }
    case Redeem(tx, token) =>
      if tx in t.txs && t != s { RedeemTokens(s, tx, token, perEpoch); } else { TokensUnchanged(s, t, perEpoch); }
    case Commit(tx) =>
      if t.accounts != s.accounts { CommitTokens(s, tx, perEpoch); } else { TokensUnchanged(s, t, perEpoch); }
    case _ => TokensUnchanged(s, t, perEpoch);
  }

  // ── Keys ──────────────────────────────────────────────────────────

  lemma {:induction false} WithoutKeys(rows: seq<Reservation>, keys: set<KeyId>)
    ensures Keys(Without(rows, keys)) == Keys(rows) - keys
    decreases |rows|
  {
    if rows != [] {
      WithoutKeys(rows[1..], keys);
      assert rows == [rows[0]] + rows[1..];
      KeysConcat([rows[0]], rows[1..]);
      KeysConcat(if rows[0].key in keys then [] else [rows[0]], Without(rows[1..], keys));
      assert Keys([rows[0]]) == {rows[0].key};
    }
  }

  lemma KeysConcat(a: seq<Reservation>, b: seq<Reservation>)
    ensures Keys(a + b) == Keys(a) + Keys(b)
  {
    forall r | r in a || r in b ensures r in a + b { }
  }

  lemma {:induction false} FirstForTaken(rows: seq<Reservation>, did: Did)
    requires ForDid(rows, did) != {}
    ensures FirstFor(rows, did) in ForDid(rows, did)
    decreases |rows|
  {
    if rows != [] && rows[0].did != Some(did) {
      var r :| r in rows && r.did == Some(did);
      assert rows == [rows[0]] + rows[1..];
      assert r in rows[1..];
      assert r.key in ForDid(rows[1..], did);
      FirstForTaken(rows[1..], did);
    }
  }

  /** Rows may go, new ones come with new keys, as long as no claimed row is touched. */
  lemma TableChange(s: State, t: State)
    requires KeyInv(s) && t.accounts == s.accounts && t.txs == s.txs && t.nextKey >= s.nextKey
    requires forall k | k in Keys(t.reserved) :: k < t.nextKey && (k in Keys(s.reserved) || k >= s.nextKey)
    requires forall tx | tx in s.txs :: s.txs[tx].taken <= Keys(t.reserved)
    ensures KeyInv(t)
  {
    forall tx | tx in t.txs && t.txs[tx].key.Some? ensures PendingKey(t, t.txs[tx]) {
      assert PendingKey(s, s.txs[tx]);
    }
  }

  lemma ReserveKeys(s: State, did: Option<Did>, perEpoch: nat)
    requires KeyInv(s)
    ensures KeyInv(Next(s, Reserve(did), perEpoch))
  {
    var t := Next(s, Reserve(did), perEpoch);
    if t != s {
      var gone := if did.Some? then ForDid(s.reserved, did.value) else {};
      WithoutKeys(s.reserved, gone);
      KeysConcat(Without(s.reserved, gone), [Reservation(s.nextKey, did)]);
      assert Keys([Reservation(s.nextKey, did)]) == {s.nextKey};
      forall tx | tx in s.txs ensures s.txs[tx].taken <= Keys(t.reserved) {
        forall k | k in s.txs[tx].taken ensures k in Keys(t.reserved) { assert k in Claimed(s); }
      }
      TableChange(s, t);
    }
  }

  lemma TrimKeys(s: State, perEpoch: nat)
    requires KeyInv(s)
    ensures KeyInv(Next(s, Trim, perEpoch))
  {
    var t := Next(s, Trim, perEpoch);
    if t != s {
      forall k | k in Keys(t.reserved) ensures k in Keys(s.reserved) {
        var r :| r in t.reserved && r.key == k;
        assert r in s.reserved;
      }
      forall tx | tx in s.txs ensures s.txs[tx].taken <= Keys(t.reserved) {
        forall k | k in s.txs[tx].taken ensures k in Keys(t.reserved) { assert k in Claimed(s); }
      }
      TableChange(s, t);
    }
  }

  /** One transaction takes rows, or a new key. */
  lemma TakeKeys(s: State, t: State, tx: Tx, o: Opening)
    requires KeyInv(s) && tx in s.txs && s.txs[tx].key.None? && o.key.Some?
    requires t == s.(txs := s.txs[tx := o], nextKey := t.nextKey) && t.nextKey >= s.nextKey
    requires o.taken <= Keys(s.reserved) && o.taken * Claimed(s) == {}
    requires o.key.value in o.taken || (o.taken == {} && o.key.value == s.nextKey && t.nextKey > s.nextKey)
    ensures KeyInv(t)
  {
    forall ty | ty in s.txs && ty != tx ensures s.txs[ty].taken !! o.taken && s.txs[ty].key != o.key {
      forall k | k in s.txs[ty].taken ensures k !in o.taken { assert k in Claimed(s); }
      if s.txs[ty].key.Some? { assert PendingKey(s, s.txs[ty]); }
    }
    forall ty | ty in t.txs && t.txs[ty].key.Some? ensures PendingKey(t, t.txs[ty]) {
      if ty != tx { assert PendingKey(s, s.txs[ty]); }
    }
  }

  lemma CommitKeys(s: State, tx: Tx, perEpoch: nat)
    requires KeyInv(s) && tx in s.txs && s.txs[tx].key.Some? && !HasAccount(s, s.txs[tx].did)
    ensures KeyInv(Next(s, Commit(tx), perEpoch))
  {
    var t := Next(s, Commit(tx), perEpoch);
    var o := s.txs[tx];
    WithoutKeys(s.reserved, o.taken);
    assert PendingKey(s, o);
    forall ty | ty in t.txs && t.txs[ty].key.Some? ensures PendingKey(t, t.txs[ty]) {
      assert PendingKey(s, s.txs[ty]);
      assert s.txs[ty].key != o.key;
    }
  }

  lemma EndKeys(s: State, tx: Tx)
    requires KeyInv(s)
    ensures KeyInv(End(s, tx))
  {
    var t := End(s, tx);
    forall ty | ty in t.txs && t.txs[ty].key.Some? ensures PendingKey(t, t.txs[ty]) {
      assert PendingKey(s, s.txs[ty]);
    }
  }

  /** Everything a key depends on is the same, save the accounts' tokens. */
  lemma KeysUnchanged(s: State, t: State)
    requires KeyInv(s) && t.reserved == s.reserved && t.accounts == s.accounts && t.nextKey == s.nextKey
    requires forall tx | tx in t.txs ::
      if tx in s.txs then t.txs[tx].taken == s.txs[tx].taken && t.txs[tx].key == s.txs[tx].key
      else t.txs[tx].taken == {} && t.txs[tx].key.None?
    ensures KeyInv(t)
  {
    forall tx | tx in t.txs && t.txs[tx].key.Some? ensures PendingKey(t, t.txs[tx]) {
      assert PendingKey(s, s.txs[tx]);
    }
  }

  lemma KeyInvNext(s: State, e: Event, perEpoch: nat)
    requires KeyInv(s)
    ensures KeyInv(Next(s, e, perEpoch))
  {
    hide KeyInv;
    hide Without;
    var t := Next(s, e, perEpoch);
    match e
    case Reserve(did) => ReserveKeys(s, did, perEpoch);
    case Trim => TrimKeys(s, perEpoch);
    case Collect(_, _, _) => KeysUnchanged(s, t);
    case Begin(_, _) => KeysUnchanged(s, t);
    case Redeem(tx, _) => if t == End(s, tx) { EndKeys(s, tx); } else { KeysUnchanged(s, t); }
    case TakeKey(tx, key) =>
      if t == End(s, tx) { EndKeys(s, tx); }
      else if t != s { TakeKeys(s, t, tx, t.txs[tx]); }
    case TakeForDid(tx) =>
      if t != s {
        if ForDid(s.reserved, s.txs[tx].did) != {} { FirstForTaken(s.reserved, s.txs[tx].did); }
        NothingTaken(s, tx);
        TakeKeys(s, t, tx, t.txs[tx]);
      }
    case Commit(tx) =>
      if t == End(s, tx) { EndKeys(s, tx); }
      else if t != s { CommitKeys(s, tx, perEpoch); }
    case Abort(tx) => EndKeys(s, tx);
    case RemoveAccount(_) => KeysUnchanged(s, t);
  }

  lemma NothingTaken(s: State, tx: Tx)
    requires KeyInv(s) && tx in s.txs && s.txs[tx].key.None?
    ensures s.txs[tx].taken == {}
  {
  }

  // ── Every run ─────────────────────────────────────────────────────

  const NOTHING_YET := State([], {}, {}, {}, [], {}, map[], 0)

  lemma {:induction false} InvRun(states: seq<State>, es: seq<Event>, perEpoch: nat, n: nat)
    requires IsRun(states, es, perEpoch) && n < |states|
    ensures TokenInv(states[n], perEpoch) && KeyInv(states[n])
    decreases n
  {
    hide Next;
    if n == 0 {
      assert TokenOpened([]) == {};
    } else {
      InvRun(states, es, perEpoch, n - 1);
      var e := es[n - 1];
      TokenInvNext(states[n - 1], e, perEpoch);
      KeyInvNext(states[n - 1], e, perEpoch);
    }
  }

  /** No token ever opens two accounts, and no reserved key ends in two. */
  lemma TokensAndKeysOpenOnce(states: seq<State>, es: seq<Event>, perEpoch: nat, n: nat, i: nat, j: nat)
    requires IsRun(states, es, perEpoch) && n < |states| && i < j < |states[n].accounts|
    ensures var accounts := states[n].accounts;
      && (accounts[i].token.Some? ==> accounts[i].token != accounts[j].token)
      && accounts[i].key.Some? && accounts[i].key != accounts[j].key
      && accounts[i].key.value !in Keys(states[n].reserved)
  {
    InvRun(states, es, perEpoch, n);
  }

  /** No two accounts that exist have one DID. */
  ghost predicate OneAccountEach(s: State) {
    && (forall i | i in s.alive :: i < |s.accounts|)
    && forall i: nat, j: nat | i in s.alive && j in s.alive && i < |s.accounts| && j < |s.accounts| && i != j :: s.accounts[i].did != s.accounts[j].did
  }

  lemma OneAccountNext(s: State, e: Event, perEpoch: nat)
    requires OneAccountEach(s)
    ensures OneAccountEach(Next(s, e, perEpoch))
  {
    hide Without;
    hide FirstFor;
    if e.Commit? { CommitExactly(s, e.tx, perEpoch, Reservation(0, None)); }
  }

  /** However transactions interleave, a DID never has two accounts at once. */
  lemma {:induction false} DidsStayUnique(states: seq<State>, es: seq<Event>, perEpoch: nat, n: nat)
    requires IsRun(states, es, perEpoch) && n < |states|
    ensures OneAccountEach(states[n])
    decreases n
  {
    hide Next;
    hide OneAccountEach;
    if n == 0 {
      NoAccountsYet();
    } else {
      DidsStayUnique(states, es, perEpoch, n - 1);
      var e := es[n - 1];
      OneAccountNext(states[n - 1], e, perEpoch);
    }
  }

  lemma NoAccountsYet()
    ensures OneAccountEach(NOTHING_YET)
  {
  }

  /**
   Token-opened accounts that still exist are no more than tokens spent; tokens spent are
   exactly those that opened an account, and no more than were handed out.
   */
  lemma TokensAreConserved(states: seq<State>, es: seq<Event>, perEpoch: nat, n: nat)
    requires IsRun(states, es, perEpoch) && n < |states|
    ensures var s := states[n];
      && |TokenOpened(s.accounts) * s.alive| <= |s.spent|
      && |TokenOpened(s.accounts)| == |s.spent|
      && |s.spent| <= |s.issued| <= perEpoch * |s.batches|
  {
    InvRun(states, es, perEpoch, n);
    var s := states[n];
    Fewer(TokenOpened(s.accounts) * s.alive, TokenOpened(s.accounts));
    Fewer(s.spent, s.issued);
  }

  lemma Fewer(a: set<nat>, b: set<nat>)
    requires a <= b
    ensures |a| <= |b|
  {
    assert b == a + (b - a);
  }

  /** The cap keeps the newest reservations. */
  lemma TrimKeepsNewest(s: State, perEpoch: nat)
    requires Claimed(s) == {}
    ensures var kept := Next(s, Trim, perEpoch).reserved;
      && |kept| <= MAX_RESERVATIONS && |kept| <= |s.reserved|
      && kept == s.reserved[|s.reserved| - |kept|..]
      && (|s.reserved| <= MAX_RESERVATIONS ==> kept == s.reserved)
      && (|s.reserved| > MAX_RESERVATIONS ==> |kept| == MAX_RESERVATIONS)
  {
  }

  // ── The endpoints ─────────────────────────────────────────────────

  datatype Reply = Created | Refused

  class Registry {
    const tokensPerEpoch: nat
    var reserved: seq<Reservation>
    var spent: set<Token>
    var issued: set<Token>
    var batches: set<(User, Epoch)>
    var accounts: seq<Opening>
    var alive: set<nat>
    var txs: map<Tx, Opening>
    var nextKey: KeyId

    function Contents(): State reads this {
      State(reserved, spent, issued, batches, accounts, alive, txs, nextKey)
    }

    /** `DELETE FROM reserved_signing_keys`, for the rows with these keys. */
    method DeleteRows(keys: set<KeyId>)
      modifies this`reserved
      ensures reserved == Without(old(reserved), keys)
    {
      var rows, kept := reserved, [];
      for i := 0 to |rows|
        invariant kept == Without(rows[..i], keys)
      {
        assert rows[..i + 1] == rows[..i] + [rows[i]];
        WithoutConcat(rows[..i], rows[i], keys);
        if rows[i].key !in keys { kept := kept + [rows[i]]; }
      }
      assert rows[..|rows|] == rows;
      reserved := kept;
    }

    /** One reservation a DID; the cap is enforced afterwards, outside the transaction. */
    method ReserveSigningKey(did: Option<Did>) returns (key: KeyId)
      requires Claimed(Contents()) == {}
      modifies this`reserved, this`nextKey
      ensures Contents() == Next(Next(old(Contents()), Reserve(did), tokensPerEpoch), Trim, tokensPerEpoch)
      ensures key == old(nextKey) && |reserved| <= MAX_RESERVATIONS
      ensures reserved != [] && reserved[|reserved|-1] == Reservation(key, did)
    {
      key := nextKey;
      var gone := if did.Some? then ForDid(reserved, did.value) else {};
      DeleteRows(gone);
      reserved, nextKey := reserved + [Reservation(key, did)], nextKey + 1;
      if |reserved| > MAX_RESERVATIONS { reserved := reserved[|reserved| - MAX_RESERVATIONS..]; }
    }

    method CollectTokens(user: User, epoch: Epoch, tokens: set<Token>) returns (signed: bool)
      requires |tokens| <= tokensPerEpoch && tokens !! issued
      modifies this`batches, this`issued
      ensures Contents() == Next(old(Contents()), Collect(user, epoch, tokens), tokensPerEpoch)
      ensures signed <==> (user, epoch) !in old(batches)
    {
      signed := (user, epoch) !in batches;
      if signed { batches, issued := batches + {(user, epoch)}, issued + tokens; }
    }

    method BeginOpening(tx: Tx, did: Did)
      modifies this`txs
      ensures Contents() == Next(old(Contents()), Begin(tx, did), tokensPerEpoch)
    {
      if tx !in txs && !HasAccount(Contents(), did) { txs := txs[tx := Opening(did, None, {}, None)]; }
    }

    /** Valid and unspent, or the transaction rolls back. */
    method RedeemToken(tx: Tx, token: Token)
      modifies this`txs
      ensures Contents() == Next(old(Contents()), Redeem(tx, token), tokensPerEpoch)
    {
      if tx !in txs || txs[tx].token.Some? { return; }
      if token !in issued || token in spent { txs := txs - {tx}; return; }
      if token in Redeeming(Contents()) { return; }
      txs := txs[tx := txs[tx].(token := Some(token))];
    }

    method ConsumeReservedSigningKey(tx: Tx, key: KeyId)
      modifies this`txs
      ensures Contents() == Next(old(Contents()), TakeKey(tx, key), tokensPerEpoch)
    {
      if tx !in txs || txs[tx].key.Some? { return; }
      if key !in Keys(reserved) { txs := txs - {tx}; return; }
      if key in Claimed(Contents()) { return; }
      txs := txs[tx := txs[tx].(taken := {key}, key := Some(key))];
    }

    /** The reservation made for this DID, or a key made on the spot. */
    method ConsumeReservedSigningKeyForDid(tx: Tx)
      modifies this`txs, this`nextKey
      ensures Contents() == Next(old(Contents()), TakeForDid(tx), tokensPerEpoch)
    {
      if tx !in txs || txs[tx].key.Some? { return; }
      var mine := ForDid(reserved, txs[tx].did);
      if mine * Claimed(Contents()) != {} { return; }
      if mine == {} {
        txs, nextKey := txs[tx := txs[tx].(key := Some(nextKey))], nextKey + 1;
      } else {
        txs := txs[tx := txs[tx].(taken := mine, key := Some(FirstFor(reserved, txs[tx].did)))];
      }
    }

    method CommitOpening(tx: Tx) returns (account: Option<nat>)
      modifies this`txs, this`reserved, this`accounts, this`alive, this`spent
      ensures Contents() == Next(old(Contents()), Commit(tx), tokensPerEpoch)
      ensures account.Some? ==> account.value == |old(accounts)| && |accounts| == |old(accounts)| + 1
      ensures account.None? ==> accounts == old(accounts)
    {
      account := None;
      if tx !in txs || txs[tx].key.None? { return; }
      var o := txs[tx];
      if HasAccount(Contents(), o.did) { txs := txs - {tx}; return; }
      account := Some(|accounts|);
      DeleteRows(o.taken);
      txs, accounts, alive := txs - {tx}, accounts + [o], alive + {|accounts|};
      if o.token.Some? { spent := spent + {o.token.value}; }
    }

    method RollBack(tx: Tx)
      modifies this`txs
      ensures Contents() == Next(old(Contents()), Abort(tx), tokensPerEpoch)
    {
      txs := txs - {tx};
    }

    method DeleteAccount(account: nat)
      modifies this`alive
      ensures Contents() == Next(old(Contents()), RemoveAccount(account), tokensPerEpoch)
    {
      alive := alive - {account};
    }

    /**
     Pseudonym creation: token spend, key consumption and account commit or roll back together.
     Where a statement would wait for another transaction, this one gives up.
     */
    method CreatePseudonym(tx: Tx, did: Did, token: Token, key: KeyId, fails: bool) returns (reply: Reply)
      requires tx !in txs
      modifies this
      ensures var taken := Next(Next(Next(old(Contents()), Begin(tx, did), tokensPerEpoch), Redeem(tx, token), tokensPerEpoch),
                                TakeKey(tx, key), tokensPerEpoch);
        Contents() == Next(taken, if fails || Waiting(taken, tx, true) then Abort(tx) else Commit(tx), tokensPerEpoch)
      ensures reply == Created <==> !fails && CanOpen(old(Contents()), did, token, key)
      ensures reply == Created ==>
        accounts == old(accounts) + [Opening(did, Some(token), {key}, Some(key))] && spent == old(spent) + {token}
      ensures reply == Refused ==> Contents() == old(Contents())
    {
      hide Next;
      ghost var before := Contents();
      BeginOpening(tx, did);
      RedeemToken(tx, token);
      ConsumeReservedSigningKey(tx, key);
      PseudonymReady(before, tx, did, token, key, tokensPerEpoch);
      ghost var taken := Contents();
      SameAccounts(before, taken, did);
      reply := Refused;
      if fails || Waiting(Contents(), tx, true) {
        RollBack(tx);
        EndingsExactly(taken, tx, 0, tokensPerEpoch);
        return;
      }
      var account := CommitOpening(tx);
      CommitExactly(taken, tx, tokensPerEpoch, Reservation(key, None));
      if account.Some? { reply := Created; }
    }

    /** Migration: the same resources, and a compensating delete when the repository cannot be created. */
    method CreateMigrated(tx: Tx, did: Did, token: Option<Token>, repoFails: bool) returns (reply: Reply, ghost account: Option<nat>)
      requires tx !in txs
      modifies this
      ensures var taken := Next(Redeemed(old(Contents()), tx, did, token, tokensPerEpoch), TakeForDid(tx), tokensPerEpoch);
        var ended := Next(taken, if Waiting(taken, tx, token.Some?) then Abort(tx) else Commit(tx), tokensPerEpoch);
        Contents() == if account.Some? && repoFails then Next(ended, RemoveAccount(account.value), tokensPerEpoch) else ended
      ensures account.Some? <==> CanMigrate(old(Contents()), did, token)
      ensures account.Some? ==> account.value == |old(accounts)| && |accounts| == |old(accounts)| + 1 && accounts[account.value].did == did
      ensures account.None? ==> accounts == old(accounts)
      ensures reply == Created <==> account.Some? && !repoFails
    {
      hide Next;
      ghost var before := Contents();
      BeginOpening(tx, did);
      if token.Some? { RedeemToken(tx, token.value); }
      ConsumeReservedSigningKeyForDid(tx);
      MigrationReady(before, tx, did, token, tokensPerEpoch);
      ghost var taken := Contents();
      SameAccounts(before, taken, did);
      account := None;
      if Waiting(Contents(), tx, token.Some?) {
        RollBack(tx);
        EndingsExactly(taken, tx, 0, tokensPerEpoch);
        return Refused, account;
      }
      var committed := CommitOpening(tx);
      CommitExactly(taken, tx, tokensPerEpoch, Reservation(0, None));
      account := committed;
      if committed.None? { return Refused, account; }
      if repoFails {
        DeleteAccount(committed.value);
        EndingsExactly(taken, tx, committed.value, tokensPerEpoch);
        return Refused, account;
      }
      return Created, account;
    }
  }

  lemma SameAccounts(s: State, t: State, did: Did)
    requires t.accounts == s.accounts && t.alive == s.alive
    ensures Taken(t, did) <==> Taken(s, did)
  {
  }

  lemma {:induction false} WithoutConcat(rows: seq<Reservation>, row: Reservation, keys: set<KeyId>)
    ensures Without(rows + [row], keys) == Without(rows, keys) + (if row.key in keys then [] else [row])
    decreases |rows|
  {
    if rows == [] {
      assert [] + [row] == [row] && [row][1..] == [];
    } else {
      assert (rows + [row])[0] == rows[0] && (rows + [row])[1..] == rows[1..] + [row];
      WithoutConcat(rows[1..], row, keys);
    }
  }
}
