/**
 Private attestations: which rows the list endpoint shows a caller, and what the
 disclosure endpoint would authorize.  The list decides in SQL, where a comparison
 with a missing value is neither true nor false; disclosure decides in code.
 */
module AttestationAccess {
  import opened Wrappers

  type Did = nat
  type Community = nat
  type GrantId = nat
  type Time = int

  datatype Key = Key(community: Community, rkey: nat)

  // ── SQL's three truth values ──────────────────────────────────────

  datatype Sql = True | False | Null

  function Truth(b: bool): Sql { if b then True else False }

  function And(a: Sql, b: Sql): Sql {
    if a == False || b == False then False else if a == True && b == True then True else Null
  }

  function Or(a: Sql, b: Sql): Sql {
    if a == True || b == True then True else if a == False && b == False then False else Null
  }

  /** A disjunction of clauses, in parentheses after OR. */
  function OrAll(clauses: seq<Sql>): Sql {
    if clauses == [] then False else Or(OrAll(clauses[..|clauses|-1]), clauses[|clauses|-1])
  }

  lemma {:induction false} OrAllTrue(clauses: seq<Sql>)
    ensures OrAll(clauses) == True <==> True in clauses
    decreases |clauses|
  {
    if clauses != [] {
      OrAllTrue(clauses[..|clauses|-1]);
      assert clauses == clauses[..|clauses|-1] + [clauses[|clauses|-1]];
    }
  }

  /** Null is neither: it is decided only by a false conjunct or a true disjunct. */
  lemma NullIsUnknown(a: Sql, b: Sql)
    ensures (And(a, b) == True <==> a == True && b == True) && (And(a, b) == False <==> a == False || b == False)
    ensures (Or(a, b) == False <==> a == False && b == False) && (Or(a, b) == True <==> a == True || b == True)
    ensures And(a, b) == And(b, a) && Or(a, b) == Or(b, a)
  {
  }

  // ── The tables ────────────────────────────────────────────────────

  datatype PolicyType = DidAllowlist | CommunityMember | OtherType(name: nat) | NoType

  /** The `dids` member of a policy, which nothing checks when an attestation is issued. */
  datatype Dids = NoDids | DidArray(dids: seq<Did>) | DidObject(keys: set<Did>) | DidString(did: Did)

  datatype Policy = Policy(kind: PolicyType, dids: Dids, communityDid: Option<Community>)

  datatype Visibility = Public | Private

  datatype Grant = Grant(key: Key, subject: Did, grantedTo: Did, expiresAt: Time, active: bool)

  datatype Encryption = Encryption(visibility: Visibility, policy: Option<Policy>)

  datatype Caller = Caller(did: Did, admin: bool)

  /** `records` and `index` hold each attestation's subject. */
  datatype State = State(
    records: map<Key, Did>, encryption: map<Key, Encryption>, index: map<Key, Did>,
    grants: map<GrantId, Grant>, members: set<(Community, Did)>, owners: map<Community, Did>,
    now: Time, next: nat)

  predicate IsMember(s: State, community: Community, did: Did) { (community, did) in s.members }

  predicate Owns(s: State, key: Key, did: Did) {
    key.community in s.owners && s.owners[key.community] == did
  }

  predicate HasGrant(s: State, key: Key, did: Did) {
    exists g :: g in s.grants && s.grants[g].key == key && s.grants[g].grantedTo == did
                && s.grants[g].active && s.grants[g].expiresAt > s.now
  }

  // ── listAttestations ──────────────────────────────────────────────

  /** `ae.access_policy->>'type' = '...'`, null where there is no policy or no type. */
  function TypeIs(policy: Option<Policy>, kind: PolicyType): Sql {
    if policy.None? || policy.value.kind == NoType then Null else Truth(policy.value.kind == kind)
  }

  /** `ae.access_policy->'dids' ? $2`: an element of an array, a key of an object, or the string itself. */
  function DidsContain(policy: Option<Policy>, did: Did): Sql {
    if policy.None? then Null
    else
      match policy.value.dids
      case NoDids => Null
      case DidArray(dids) => Truth(did in dids)
      case DidObject(keys) => Truth(did in keys)
      case DidString(d) => Truth(did == d)
  }

  function PolicyOf(s: State, key: Key): Option<Policy> {
    if key in s.encryption then s.encryption[key].policy else None
  }

  /** `EXISTS (... WHERE community_did = ae.access_policy->>'communityDid' ...)`; EXISTS is never null. */
  function MemberOfPolicyCommunity(s: State, key: Key, did: Did): Sql {
    var policy := PolicyOf(s, key);
    Truth(policy.Some? && policy.value.communityDid.Some? && IsMember(s, policy.value.communityDid.value, did))
  }

  /** `COALESCE(ae.visibility, 'public') <> 'private'` */
  function NotPrivate(s: State, key: Key): Sql {
    Truth(key !in s.encryption || s.encryption[key].visibility != Private)
  }

  function PrivateAccess(s: State, caller: Option<Caller>, key: Key): seq<Sql>
    requires key in s.index
  {
    if caller.None? then []
    else if caller.value.admin then [True]
    else
      var did := caller.value.did;
      [Truth(s.index[key] == did),
       And(TypeIs(PolicyOf(s, key), DidAllowlist), DidsContain(PolicyOf(s, key), did)),
       And(TypeIs(PolicyOf(s, key), CommunityMember), MemberOfPolicyCommunity(s, key, did)),
       Truth(Owns(s, key, did)),
       Truth(HasGrant(s, key, did))]
  }

  /** A row is listed when its WHERE clause is true; false and null both leave it out. */
  predicate Listed(s: State, caller: Option<Caller>, key: Key) {
    key in s.index && Or(NotPrivate(s, key), OrAll(PrivateAccess(s, caller, key))) == True
  }

  /** The WHERE clause as the handler builds it: clauses pushed one by one, then joined. */
  method ListRow(s: State, caller: Option<Caller>, key: Key) returns (listed: bool)
    requires key in s.index
    ensures listed <==> Listed(s, caller, key)
  {
    var privateAccess: seq<Sql> := [];
    if caller.Some? && caller.value.admin {
      privateAccess := privateAccess + [True];
    } else if caller.Some? {
      var did := caller.value.did;
      privateAccess := privateAccess + [Truth(s.index[key] == did)];
      privateAccess := privateAccess + [And(TypeIs(PolicyOf(s, key), DidAllowlist), DidsContain(PolicyOf(s, key), did))];
      privateAccess := privateAccess + [And(TypeIs(PolicyOf(s, key), CommunityMember), MemberOfPolicyCommunity(s, key, did))];
      privateAccess := privateAccess + [Truth(Owns(s, key, did))];
      privateAccess := privateAccess + [Truth(HasGrant(s, key, did))];
    }
    assert privateAccess == PrivateAccess(s, caller, key);
    var clause := False;
    for i := 0 to |privateAccess|
      invariant clause == OrAll(privateAccess[..i])
    {
      assert privateAccess[..i + 1][..i] == privateAccess[..i];
      clause := Or(clause, privateAccess[i]);
    }
    assert privateAccess[..|privateAccess|] == privateAccess;
    listed := (if |privateAccess| > 0 then Or(NotPrivate(s, key), clause) else NotPrivate(s, key)) == True;
  }

  // ── requestDisclosure ─────────────────────────────────────────────

  datatype Answer = AttestationPublic | NotFound | Forbidden | Disclosed

  predicate IsPrivate(s: State, key: Key) { key in s.encryption && s.encryption[key].visibility == Private }

  predicate Authorized(s: State, caller: Caller, key: Key) {
    || caller.admin
    || (key in s.records && s.records[key] == caller.did)
    || Owns(s, key, caller.did)
    || (PolicyOf(s, key).Some? && PolicyAllows(s, PolicyOf(s, key).value, caller.did))
    || HasGrant(s, key, caller.did)
  }

  predicate PolicyAllows(s: State, policy: Policy, did: Did) {
    match policy.kind
    case DidAllowlist => policy.dids.DidArray? && did in policy.dids.dids
    case CommunityMember => policy.communityDid.Some? && IsMember(s, policy.communityDid.value, did)
    case _ => false
  }

  function Disclose(s: State, caller: Caller, key: Key): Answer {
    if !IsPrivate(s, key) then AttestationPublic
    else if key !in s.records then NotFound
    else if Authorized(s, caller, key) then Disclosed else Forbidden
  }

  /** Some grant on this attestation to this caller is active and ends later than now. */
  predicate GrantedTo(s: State, key: Key, did: Did) {
    exists g :: g in s.grants && s.grants[g].key == key && s.grants[g].grantedTo == did && s.grants[g].active && s.now < s.grants[g].expiresAt
  }

  predicate InPolicy(s: State, key: Key, did: Did) {
    key in s.encryption && s.encryption[key].policy.Some?
    && match s.encryption[key].policy.value.kind
       case DidAllowlist => s.encryption[key].policy.value.dids.DidArray? && did in s.encryption[key].policy.value.dids.dids
       case CommunityMember =>
         s.encryption[key].policy.value.communityDid.Some? && (s.encryption[key].policy.value.communityDid.value, did) in s.members
       case _ => false
  }

  /** A private attestation that exists is disclosed exactly to administrators, its subject, its community's owner, those its policy admits, and those it was granted to. */
  lemma DisclosedExactly(s: State, caller: Caller, key: Key)
    ensures Disclose(s, caller, key) ==
      if key !in s.encryption || s.encryption[key].visibility != Private then AttestationPublic
      else if key !in s.records then NotFound
      else if caller.admin || s.records[key] == caller.did || (key.community in s.owners && s.owners[key.community] == caller.did)
              || InPolicy(s, key, caller.did) || GrantedTo(s, key, caller.did)
      then Disclosed else Forbidden
  {
  }

  /** The handler: one flag, reassigned through its branches. */
  method RequestDisclosure(s: State, caller: Caller, key: Key) returns (answer: Answer)
    ensures answer == Disclose(s, caller, key)
  {
    if key !in s.encryption { return AttestationPublic; }
    if s.encryption[key].visibility != Private { return AttestationPublic; }
    if key !in s.records { return NotFound; }
    var isSubject := caller.did == s.records[key];
    var isCommunityOwner := key.community in s.owners && s.owners[key.community] == caller.did;
    var authorized := caller.admin || isSubject || isCommunityOwner;
    if !authorized && s.encryption[key].policy.Some? {
      var policy := s.encryption[key].policy.value;
      if policy.kind == DidAllowlist && policy.dids.DidArray? {
        authorized := caller.did in policy.dids.dids;
      } else if policy.kind == CommunityMember && policy.communityDid.Some? {
        authorized := (policy.communityDid.value, caller.did) in s.members;
      }
    }
    if !authorized { authorized := HasGrant(s, key, caller.did); }
    return if authorized then Disclosed else Forbidden;
  }

  // ── The two agree ─────────────────────────────────────────────────

  /** An allowlist that is no array: SQL's `?` still matches it, the code does not. */
  predicate OddlyAllowed(s: State, key: Key, did: Did) {
    && PolicyOf(s, key).Some? && PolicyOf(s, key).value.kind == DidAllowlist
    && match PolicyOf(s, key).value.dids
       case DidObject(keys) => did in keys
       case DidString(d) => did == d
       case _ => false
  }

  predicate WellFormed(policy: Policy) {
    policy.kind == DidAllowlist ==> policy.dids.DidArray? || policy.dids.NoDids?
  }

  /** The three tables say the same about an attestation. */
  predicate InStep(s: State, key: Key) {
    if key in s.records then key in s.index && s.index[key] == s.records[key]
    else key !in s.index && key !in s.encryption
  }

  /**
   For a private row whose tables are in step, the list admits exactly the callers
   disclosure authorizes, and those an allowlist that is no array names.
   */
  lemma ListIsDisclosure(s: State, caller: Caller, key: Key)
    requires InStep(s, key) && key in s.index && IsPrivate(s, key)
    ensures Listed(s, Some(caller), key) <==> Disclose(s, caller, key) == Disclosed || OddlyAllowed(s, key, caller.did)
  {
    var clauses := PrivateAccess(s, Some(caller), key);
    OrAllTrue(clauses);
    if !caller.admin {
      assert clauses[0] == Truth(s.index[key] == caller.did);
      assert clauses[1] == True <==> (OddlyAllowed(s, key, caller.did)
        || (PolicyOf(s, key).Some? && PolicyOf(s, key).value.kind == DidAllowlist && PolicyAllows(s, PolicyOf(s, key).value, caller.did)));
      assert clauses[2] == True <==>
        PolicyOf(s, key).Some? && PolicyOf(s, key).value.kind == CommunityMember && PolicyAllows(s, PolicyOf(s, key).value, caller.did);
    }
  }

  // ── What the endpoints do to the tables ───────────────────────────

  datatype Event =
    | Tick(ms: nat)
    | Issue(community: Community, subject: Did, secret: bool, policy: Option<Policy>, survived: nat)
    | Delete(key: Key, survived: nat)
    | CreateGrant(caller: Did, key: Key, grantedTo: Did, minutes: nat)
    | RevokeGrant(caller: Did, grant: GrantId)
    | SetMember(community: Community, member: Did, joins: bool)
    | SetOwner(community: Community, owner: Did)

  /** The record, the encryption row if private, the index row - as far as the process got. */
  function IssueSteps(s: State, key: Key, subject: Did, secret: bool, policy: Option<Policy>, n: nat): State {
    var recorded := if n >= 1 then s.(records := s.records[key := subject]) else s;
    var encrypted := if secret && n >= 2 then recorded.(encryption := recorded.encryption[key := Encryption(Private, policy)]) else recorded;
    if n >= (if secret then 3 else 2) then encrypted.(index := encrypted.index[key := subject]) else encrypted
  }

  function Revoked(grants: map<GrantId, Grant>, key: Key): map<GrantId, Grant> {
    map g | g in grants :: if grants[g].key == key then grants[g].(active := false) else grants[g]
  }

  /** The record, its grants, its encryption row, its index row - as far as the process got. */
  function DeleteSteps(s: State, key: Key, n: nat): State {
    var unrecorded := if n >= 1 then s.(records := s.records - {key}) else s;
    var ungranted := if n >= 2 then unrecorded.(grants := Revoked(s.grants, key)) else unrecorded;
    var unencrypted := if n >= 3 then ungranted.(encryption := s.encryption - {key}) else ungranted;
    if n >= 4 then unencrypted.(index := s.index - {key}) else unencrypted
  }

  const MINUTE := 60000

  function Min(a: nat, b: nat): nat { if a <= b then a else b }

  /** The INSERT of a viewing grant. */
  function InsertGrant(s: State, caller: Did, key: Key, grantedTo: Did, minutes: nat): State {
    var lifetime := Min(if minutes == 0 then 60 else minutes, 1440);
    s.(grants := s.grants[s.next := Grant(key, caller, grantedTo, s.now + lifetime * MINUTE, true)], next := s.next + 1)
  }

  function Next(s: State, e: Event): State {
    match e
    case Tick(ms) => s.(now := s.now + ms)
    case Issue(community, subject, secret, policy, n) =>
      if !IsMember(s, community, subject) then s
      else IssueSteps(s, Key(community, s.next), subject, secret, policy, n).(next := s.next + 1)
    case Delete(key, n) => if key in s.records then DeleteSteps(s, key, n) else s
    case CreateGrant(caller, key, grantedTo, minutes) =>
      if !IsPrivate(s, key) || key !in s.records || s.records[key] != caller then s
      else InsertGrant(s, caller, key, grantedTo, minutes)
    case RevokeGrant(caller, g) =>
      if g in s.grants && s.grants[g].subject == caller then s.(grants := s.grants[g := s.grants[g].(active := false)]) else s
    case SetMember(community, member, joins) =>
      s.(members := if joins then s.members + {(community, member)} else s.members - {(community, member)})
    case SetOwner(community, owner) => s.(owners := s.owners[community := owner])
  }

  function Run(s: State, es: seq<Event>): State {
    if es == [] then s else Next(Run(s, es[..|es|-1]), es[|es|-1])
  }

  // ── ... statement by statement ────────────────────────────────────

  /** Only a member's attestation is issued: a record, an encryption row if it is private, an index row, each only after the one before. */
  lemma IssueExactly(s: State, community: Community, subject: Did, secret: bool, policy: Option<Policy>, n: nat)
    ensures var t, key := Next(s, Issue(community, subject, secret, policy, n)), Key(community, s.next);
      if (community, subject) !in s.members then t == s
      else
        && t.next > s.next && t.grants == s.grants && t.members == s.members && t.owners == s.owners && t.now == s.now
        && t.records == (if n == 0 then s.records else s.records[key := subject])
        && t.encryption == (if secret && n > 1 then s.encryption[key := Encryption(Private, policy)] else s.encryption)
        && t.index == (if n > 2 || (n == 2 && !secret) then s.index[key := subject] else s.index)
  {
  }

  /** A deletion of an existing record takes the record, its active grants, its encryption row and its index row, in this order. */
  lemma DeletionExactly(s: State, key: Key, n: nat)
    ensures var t := Next(s, Delete(key, n));
      if key !in s.records then t == s
      else
        && t.members == s.members && t.owners == s.owners && t.now == s.now && t.next == s.next
        && t.records == (if n > 0 then s.records - {key} else s.records)
        && (n < 2 ==> t.grants == s.grants) && (n > 1 ==> GrantsGone(s.grants, t.grants, key))
        && t.encryption == (if n > 2 then s.encryption - {key} else s.encryption)
        && t.index == (if n > 3 then s.index - {key} else s.index)
  {
    hide Revoked;
    RevokedExactly(s.grants, key);
  }

  /** The grants on the key are inactive, and no other is touched. */
  ghost predicate GrantsGone(before: map<GrantId, Grant>, after: map<GrantId, Grant>, key: Key) {
    && after.Keys == before.Keys
    && forall g | g in before :: after[g] == if before[g].key == key then before[g].(active := false) else before[g]
  }

  lemma RevokedExactly(grants: map<GrantId, Grant>, key: Key)
    ensures GrantsGone(grants, Revoked(grants, key), key)
  {
  }

  /** Only the subject of a private attestation that exists grants, for the minutes asked, an hour if none are, a day at most. */
  lemma GrantExactly(s: State, caller: Did, key: Key, grantedTo: Did, minutes: nat)
    ensures var t := Next(s, CreateGrant(caller, key, grantedTo, minutes));
      if key !in s.encryption || s.encryption[key].visibility != Private || key !in s.records || s.records[key] != caller then t == s
      else
        && t == s.(grants := t.grants, next := t.next) && t.next > s.next
        && var asked := if minutes == 0 then 60 else minutes;
           t.grants == s.grants[s.next := Grant(key, caller, grantedTo, s.now + 60000 * (if asked > 1440 then 1440 else asked), true)]
  {
  }

  /** Only the subject who made a grant revokes it. */
  lemma RevocationExactly(s: State, caller: Did, g: GrantId)
    ensures Next(s, RevokeGrant(caller, g)) ==
      s.(grants := if g in s.grants && s.grants[g].subject == caller then s.grants[g := s.grants[g].(active := false)] else s.grants)
  {
  }

  /** Time passes, members come and go, and owners change. */
  lemma SurroundingsExactly(s: State, ms: nat, community: Community, did: Did)
    ensures Next(s, Tick(ms)) == s.(now := s.now + ms) && ms as int >= 0
    ensures Next(s, SetMember(community, did, true)) == s.(members := s.members + {(community, did)})
    ensures Next(s, SetMember(community, did, false)) == s.(members := s.members - {(community, did)})
    ensures Next(s, SetOwner(community, did)) == s.(owners := s.owners[community := did])
  {
  }

  /** What every handler keeps, wherever it stops: keys are drawn once, and a record and its index row name one subject. */
  ghost predicate Matching(s: State, key: Key) {
    && (key in s.records || key in s.index || key in s.encryption ==> key.rkey < s.next)
    && (key in s.records && key in s.index ==> s.index[key] == s.records[key])
  }

  ghost predicate Kept(s: State) { forall key :: Matching(s, key) }

  lemma IssueMatches(s: State, key: Key, subject: Did, secret: bool, policy: Option<Policy>, n: nat, other: Key)
    requires Matching(s, other) && Matching(s, key) && key.rkey == s.next
    ensures Matching(IssueSteps(s, key, subject, secret, policy, n).(next := s.next + 1), other)
  {
  }

  lemma DeleteMatches(s: State, key: Key, n: nat, other: Key)
    requires Matching(s, other)
    ensures Matching(DeleteSteps(s, key, n), other)
  {
  }

  lemma MatchingNext(s: State, e: Event, other: Key)
    requires Kept(s)
    ensures Matching(Next(s, e), other)
  {
    hide IssueSteps;
    hide DeleteSteps;
    assert Matching(s, other);
    match e
    case Issue(community, subject, secret, policy, n) =>
      assert Matching(s, Key(community, s.next));
      IssueMatches(s, Key(community, s.next), subject, secret, policy, n, other);
    case Delete(key, n) => DeleteMatches(s, key, n, other);
    case _ =>
  }

  lemma {:induction false} KeptRun(s: State, es: seq<Event>)
    requires Kept(s)
    ensures Kept(Run(s, es))
    decreases |es|
  {
    hide Next;
    hide Matching;
    if es != [] {
      KeptRun(s, es[..|es|-1]);
      forall other ensures Matching(Run(s, es), other) { MatchingNext(Run(s, es[..|es|-1]), es[|es|-1], other); }
    }
  }

  /** List and disclosure admit the same callers. */
  ghost predicate Agree(s: State, key: Key) {
    forall caller :: Listed(s, Some(caller), key) <==> Disclose(s, caller, key) == Disclosed
  }

  lemma AdminSeesIndexed(s: State, key: Key)
    ensures Listed(s, Some(Caller(0, true)), key) <==> key in s.index
  {
    if key in s.index { OrAllTrue(PrivateAccess(s, Some(Caller(0, true)), key)); }
  }

  /**
   Over every run, wherever its handlers stop: list and disclosure admit the same callers
   to a private attestation, under a well-formed policy, if and only if its record and its
   index row are both there or both missing.
   */
  lemma EveryRunAgrees(s: State, es: seq<Event>, key: Key)
    requires Kept(s)
    requires var t := Run(s, es); IsPrivate(t, key) && (PolicyOf(t, key).Some? ==> WellFormed(PolicyOf(t, key).value))
    ensures var t := Run(s, es); Agree(t, key) <==> (key in t.records <==> key in t.index)
  {
    KeptRun(s, es);
    var t := Run(s, es);
    hide Run;
    AgreesExactly(t, key);
  }

  lemma AgreesExactly(s: State, key: Key)
    requires Matching(s, key) && IsPrivate(s, key) && (PolicyOf(s, key).Some? ==> WellFormed(PolicyOf(s, key).value))
    ensures Agree(s, key) <==> (key in s.records <==> key in s.index)
  {
    hide PrivateAccess;
    AdminSeesIndexed(s, key);
    if key in s.records && key in s.index {
      forall caller ensures Listed(s, Some(caller), key) <==> Disclose(s, caller, key) == Disclosed { ListIsDisclosure(s, caller, key); }
    } else {
      var admin := Caller(0, true);
      assert Disclose(s, admin, key) == Disclosed <==> key in s.records;
    }
  }

  /** The handler ran to its end. */
  predicate Finished(e: Event) {
    match e
    case Issue(_, _, _, _, n) => n >= 3
    case Delete(_, n) => n >= 4
    case _ => true
  }

  lemma IssueInStep(s: State, key: Key, subject: Did, secret: bool, policy: Option<Policy>, n: nat, other: Key)
    requires InStep(s, other) && InStep(s, key) && key !in s.records && n >= 3
    ensures InStep(IssueSteps(s, key, subject, secret, policy, n), other)
  {
  }

  lemma DeleteInStep(s: State, key: Key, n: nat, other: Key)
    requires InStep(s, other) && n >= 4
    ensures InStep(DeleteSteps(s, key, n), other)
  {
  }

  lemma InStepNext(s: State, e: Event, other: Key)
    requires Kept(s) && Finished(e) && forall key :: InStep(s, key)
    ensures InStep(Next(s, e), other)
  {
    hide IssueSteps;
    hide DeleteSteps;
    assert InStep(s, other);
    match e
    case Issue(community, subject, secret, policy, n) =>
      assert Matching(s, Key(community, s.next)) && InStep(s, Key(community, s.next));
      IssueInStep(s, Key(community, s.next), subject, secret, policy, n, other);
    case Delete(key, n) => DeleteInStep(s, key, n, other);
    case _ =>
  }

  /** Where every handler runs to its end, the three tables stay in step, so list and disclosure always agree. */
  lemma {:induction false} FinishedRunsStayInStep(s: State, es: seq<Event>, other: Key)
    requires Kept(s) && (forall key :: InStep(s, key)) && forall i | 0 <= i < |es| :: Finished(es[i])
    ensures InStep(Run(s, es), other)
    decreases |es|
  {
    hide Next;
    hide InStep;
    hide Finished;
    if es != [] {
      var t := Run(s, es[..|es|-1]);
      KeptRun(s, es[..|es|-1]);
      forall key ensures InStep(t, key) { FinishedRunsStayInStep(s, es[..|es|-1], key); }
      InStepNext(t, es[|es|-1], other);
    }
  }

  // ── Grants ────────────────────────────────────────────────────────

  /** Grants outlive no attestation: an active one is for a record that exists, and is private. */
  ghost predicate GrantsLive(s: State) {
    forall g | g in s.grants && s.grants[g].active :: s.grants[g].key in s.records && IsPrivate(s, s.grants[g].key)
  }

  /** A deletion that does not stop right after its first statement. */
  predicate Revokes(e: Event) { e.Delete? ==> e.survived != 1 }

  lemma GrantsLiveDelete(s: State, key: Key, n: nat)
    requires GrantsLive(s) && n != 1
    ensures GrantsLive(DeleteSteps(s, key, n))
  {
  }

  lemma GrantsLiveIssue(s: State, key: Key, subject: Did, secret: bool, policy: Option<Policy>, n: nat)
    requires GrantsLive(s) && key !in s.records
    ensures GrantsLive(IssueSteps(s, key, subject, secret, policy, n))
  {
  }

  lemma GrantsLiveNext(s: State, e: Event)
    requires GrantsLive(s) && Kept(s) && Revokes(e)
    ensures GrantsLive(Next(s, e))
  {
    hide DeleteSteps;
    hide IssueSteps;
    match e
    case Delete(key, n) => GrantsLiveDelete(s, key, n);
    case Issue(community, subject, secret, policy, n) =>
      assert Matching(s, Key(community, s.next));
      GrantsLiveIssue(s, Key(community, s.next), subject, secret, policy, n);
    case _ =>
  }

  lemma {:induction false} GrantsLiveRun(s: State, es: seq<Event>)
    requires Kept(s) && GrantsLive(s) && forall i | 0 <= i < |es| :: Revokes(es[i])
    ensures GrantsLive(Run(s, es))
    decreases |es|
  {
    hide Next;
    hide GrantsLive;
    hide Kept;
    hide Revokes;
    if es != [] {
      GrantsLiveRun(s, es[..|es|-1]);
      KeptRun(s, es[..|es|-1]);
      GrantsLiveNext(Run(s, es[..|es|-1]), es[|es|-1]);
    }
  }

  // ── Deletion is final ─────────────────────────────────────────────

  ghost predicate Gone(s: State, key: Key) {
    key !in s.records && key !in s.index && key !in s.encryption && key.rkey < s.next
    && forall g | g in s.grants && s.grants[g].key == key :: !s.grants[g].active
  }

  lemma GoneDelete(s: State, key: Key, other: Key, n: nat)
    requires Gone(s, key)
    ensures Gone(DeleteSteps(s, other, n), key)
  {
  }

  lemma GoneIssue(s: State, key: Key, other: Key, subject: Did, secret: bool, policy: Option<Policy>, n: nat)
    requires Gone(s, key) && other != key
    ensures Gone(IssueSteps(s, other, subject, secret, policy, n), key)
  {
  }

  lemma GoneNext(s: State, e: Event, key: Key)
    requires Gone(s, key)
    ensures Gone(Next(s, e), key)
  {
    hide DeleteSteps;
    hide IssueSteps;
    match e
    case Delete(other, n) => GoneDelete(s, key, other, n);
    case Issue(community, subject, secret, policy, n) => GoneIssue(s, key, Key(community, s.next), subject, secret, policy, n);
    case _ =>
  }

  /** A finished deletion takes the record, both rows and every grant, for good. */
  lemma {:induction false} DeletedForGood(s: State, key: Key, n: nat, es: seq<Event>, caller: Caller)
    requires Kept(s) && key in s.records && n >= 4
    ensures var t := Run(Next(s, Delete(key, n)), es);
      && Gone(t, key) && !Listed(t, Some(caller), key) && Disclose(t, caller, key) != Disclosed && !HasGrant(t, key, caller.did)
    decreases |es|
  {
    hide Next;
    if es == [] {
      DeletionTakesAll(s, key, n);
    } else {
      DeletedForGood(s, key, n, es[..|es|-1], caller);
      GoneNext(Run(Next(s, Delete(key, n)), es[..|es|-1]), es[|es|-1], key);
    }
  }

  lemma DeletionTakesAll(s: State, key: Key, n: nat)
    requires Kept(s) && key in s.records && n >= 4
    ensures Gone(Next(s, Delete(key, n)), key)
  {
    assert Matching(s, key);
  }

  // ── Where a process that stops leaves the tables ──────────────────

  /** Disclosure would authorize the caller even without a grant. */
  predicate AuthorizedUngranted(s: State, caller: Caller, key: Key) {
    || caller.admin
    || (key in s.records && s.records[key] == caller.did)
    || Owns(s, key, caller.did)
    || (PolicyOf(s, key).Some? && PolicyAllows(s, PolicyOf(s, key).value, caller.did))
  }

  /** After the record the index row still lists it: to whoever was authorized, and once grants are revoked, to whoever was without one. */
  lemma CutListing(s: State, caller: Caller, key: Key, n: nat)
    requires InStep(s, key) && IsPrivate(s, key) && (PolicyOf(s, key).Some? ==> WellFormed(PolicyOf(s, key).value)) && 1 <= n <= 2
    ensures var t := Next(s, Delete(key, n));
      && Disclose(t, caller, key) == NotFound
      && (Listed(t, Some(caller), key) <==> if n == 1 then Authorized(s, caller, key) else AuthorizedUngranted(s, caller, key))
  {
    assert key in s.records;
    var t := Next(s, Delete(key, n));
    var clauses := PrivateAccess(t, Some(caller), key);
    OrAllTrue(clauses);
    assert HasGrant(t, key, caller.did) <==> n == 1 && HasGrant(s, key, caller.did) by { CutGrants(s, key, n, caller.did); }
    if !caller.admin {
      assert clauses[0] == Truth(s.records[key] == caller.did);
      assert clauses[1] == True <==>
        PolicyOf(s, key).Some? && PolicyOf(s, key).value.kind == DidAllowlist && PolicyAllows(s, PolicyOf(s, key).value, caller.did);
      assert clauses[2] == True <==>
        PolicyOf(s, key).Some? && PolicyOf(s, key).value.kind == CommunityMember && PolicyAllows(s, PolicyOf(s, key).value, caller.did);
      assert clauses[3] == Truth(Owns(s, key, caller.did));
      assert clauses[4] == Truth(HasGrant(t, key, caller.did));
    }
  }

  lemma CutGrants(s: State, key: Key, n: nat, did: Did)
    requires 1 <= n <= 2 && key in s.records
    ensures HasGrant(Next(s, Delete(key, n)), key, did) <==> n == 1 && HasGrant(s, key, did)
  {
  }

  /**
   A deletion cut short leaves list and disclosure in agreement about a caller exactly
   when it made no statement or all four, or it left the index row of a record that is
   gone and the list does not show that to this caller.  To its subject, an administrator
   or the community's owner it always shows it.
   */
  lemma CutDeletion(s: State, key: Key, n: nat, caller: Caller)
    requires InStep(s, key) && IsPrivate(s, key) && (PolicyOf(s, key).Some? ==> WellFormed(PolicyOf(s, key).value))
    ensures var t := Next(s, Delete(key, n));
      (Listed(t, Some(caller), key) <==> Disclose(t, caller, key) == Disclosed) <==>
        || n == 0 || n >= 4
        || (n == 1 && !Authorized(s, caller, key))
        || (n == 2 && !AuthorizedUngranted(s, caller, key))
  {
    assert key in s.records;
    var t := Next(s, Delete(key, n));
    if n == 0 {
      ListIsDisclosure(s, caller, key);
    } else if n <= 2 {
      CutListing(s, caller, key, n);
    }
  }

  /** Anyone at all is shown the private row's metadata exactly when the process stopped between its third and fourth statements. */
  lemma CutDeletionLeaks(s: State, key: Key, n: nat)
    requires InStep(s, key) && IsPrivate(s, key)
    ensures Listed(Next(s, Delete(key, n)), None, key) <==> n == 3
  {
    assert key in s.records;
    var t := Next(s, Delete(key, n));
    assert OrAll([]) == False;
    if key in t.index { assert PrivateAccess(t, None, key) == []; }
  }

  /** An issue cut short: its subject could have it disclosed but not listed exactly when the index row alone is missing. */
  lemma CutIssue(s: State, community: Community, subject: Did, policy: Option<Policy>, n: nat, admin: bool)
    requires Kept(s) && IsMember(s, community, subject)
    ensures var t := Next(s, Issue(community, subject, true, policy, n));
      var key := Key(community, s.next);
      Disclose(t, Caller(subject, admin), key) == Disclosed && !Listed(t, Some(Caller(subject, admin)), key) <==> n == 2
  {
    var key := Key(community, s.next);
    var t := Next(s, Issue(community, subject, true, policy, n));
    assert Matching(s, key);
    assert key !in s.records && key !in s.index && key !in s.encryption;
    if n >= 3 {
      assert InStep(t, key);
      ListIsDisclosure(t, Caller(subject, admin), key);
    }
  }

  // ── Redeeming a grant ─────────────────────────────────────────────

  type FieldName = nat
  type Claim = map<FieldName, nat>

  datatype Redemption = NoGrant | NotGrantee | GrantRevoked | GrantExpired | MissingAttestation | Redeemed

  function Redeem(s: State, caller: Did, g: GrantId): Redemption {
    if g !in s.grants then NoGrant
    else if s.grants[g].grantedTo != caller then NotGrantee
    else if !s.grants[g].active then GrantRevoked
    else if s.grants[g].expiresAt < s.now then GrantExpired
    else if s.grants[g].key !in s.encryption || s.grants[g].key !in s.records then MissingAttestation
    else Redeemed
  }

  /** A grant is redeemed exactly by its grantee, while it is active, up to and with the moment it expires. */
  lemma RedeemedExactly(s: State, caller: Did, g: GrantId)
    ensures Redeem(s, caller, g) == Redeemed <==>
      && g in s.grants && s.grants[g].grantedTo == caller && s.grants[g].active && s.now <= s.grants[g].expiresAt
      && s.grants[g].key in s.encryption && s.grants[g].key in s.records
    ensures Redeem(s, caller, g) == GrantExpired <==>
      g in s.grants && s.grants[g].grantedTo == caller && s.grants[g].active && s.grants[g].expiresAt < s.now
    ensures Redeem(s, caller, g) == GrantRevoked <==> g in s.grants && s.grants[g].grantedTo == caller && !s.grants[g].active
    ensures Redeem(s, caller, g) == NotGrantee <==> g in s.grants && s.grants[g].grantedTo != caller
  {
  }

  /** In a run whose deletions never stop right after their first statement no grant dangles: redeeming one never finds its attestation missing. */
  lemma GrantsAlwaysRedeem(s: State, es: seq<Event>, caller: Did, g: GrantId)
    requires Kept(s) && GrantsLive(s) && forall i | 0 <= i < |es| :: Revokes(es[i])
    ensures Redeem(Run(s, es), caller, g) != MissingAttestation
  {
    GrantsLiveRun(s, es);
  }

  /** A deletion leaves a redeemable grant dangling if and only if it stops right after its first statement. */
  lemma CutDeletionStrandsGrants(s: State, caller: Did, g: GrantId, n: nat)
    requires Redeem(s, caller, g) == Redeemed
    ensures Redeem(Next(s, Delete(s.grants[g].key, n)), caller, g) == MissingAttestation <==> n == 1
  {
  }

  /**
   Creating a grant checks the attestation and then inserts, with no lock between.  The
   inserted grant dangles if and only if a deletion took the record or the encryption row
   in the meantime.
   */
  lemma LateGrantDangles(s: State, caller: Did, key: Key, grantedTo: Did, minutes: nat)
    ensures Redeem(InsertGrant(s, caller, key, grantedTo, minutes), grantedTo, s.next) == MissingAttestation <==>
      key !in s.encryption || key !in s.records
  {
  }

  /** A grant that redeems also lists its attestation, except in the instant it expires. */
  lemma RedeemableIsListed(s: State, caller: Did, g: GrantId)
    requires Redeem(s, caller, g) == Redeemed && s.grants[g].key in s.index && s.grants[g].expiresAt != s.now
    ensures Listed(s, Some(Caller(caller, false)), s.grants[g].key)
  {
    var key := s.grants[g].key;
    assert HasGrant(s, key, caller);
    var clauses := PrivateAccess(s, Some(Caller(caller, false)), key);
    assert clauses[4] == True;
    OrAllTrue(clauses);
  }

  /** The fields a grant names, or all of them when it names none. */
  method FilterGrantedFields(claim: Claim, grantedFields: Option<seq<FieldName>>) returns (disclosed: Claim)
    ensures grantedFields.None? || grantedFields.value == [] ==> disclosed == claim
    ensures grantedFields.Some? && grantedFields.value != [] ==>
      disclosed == map f | f in claim && f in grantedFields.value :: claim[f]
  {
    if grantedFields.None? || grantedFields.value == [] { return claim; }
    var fields := grantedFields.value;
    disclosed := map[];
    for i := 0 to |fields|
      invariant disclosed == map f | f in claim && f in fields[..i] :: claim[f]
    {
      assert fields[..i + 1] == fields[..i] + [fields[i]];
      if fields[i] in claim { disclosed := disclosed[fields[i] := claim[fields[i]]]; }
    }
    assert fields[..|fields|] == fields;
  }

  // ── The endpoints over their tables ───────────────────────────────

  class Attestations {
    var records: map<Key, Did>
    var encryption: map<Key, Encryption>
    var index: map<Key, Did>
    var grants: map<GrantId, Grant>
    var members: set<(Community, Did)>
    var owners: map<Community, Did>
    var now: Time
    var next: nat

    ghost function Contents(): State reads this {
      State(records, encryption, index, grants, members, owners, now, next)
    }

    /** `lives` is how many statements the process lives to make. */
    method IssueAttestation(community: Community, subject: Did, visibility: Visibility, policy: Option<Policy>, lives: nat)
        returns (key: Option<Key>)
      modifies this`records, this`encryption, this`index, this`next
      ensures Contents() == Next(old(Contents()), Issue(community, subject, visibility == Private, policy, lives))
      ensures key.Some? ==> key.value in records && key.value in index && (visibility == Private ==> IsPrivate(Contents(), key.value))
    {
      key := None;
      if (community, subject) !in members { return; }
      var k := Key(community, next);
      next := next + 1;
      if lives == 0 { return; }
      records := records[k := subject];
      if visibility == Private {
        if lives == 1 { return; }
        encryption := encryption[k := Encryption(Private, policy)];
        if lives == 2 { return; }
        index := index[k := subject];
      } else {
        if lives == 1 { return; }
        index := index[k := subject];
      }
      key := Some(k);
    }

    method DeleteAttestation(key: Key, lives: nat) returns (done: bool)
      modifies this`records, this`encryption, this`index, this`grants
      ensures Contents() == Next(old(Contents()), Delete(key, lives))
      ensures done <==> key in old(records) && lives >= 4
    {
      done := false;
      if key !in records || lives == 0 { return; }
      records := records - {key};
      if lives == 1 { return; }
      grants := Revoked(grants, key);
      if lives == 2 { return; }
      encryption := encryption - {key};
      if lives == 3 { return; }
      index := index - {key};
      done := true;
    }

    method CreateViewingGrant(caller: Did, key: Key, grantedTo: Did, minutes: nat) returns (grant: Option<GrantId>)
      modifies this`grants, this`next
      ensures Contents() == Next(old(Contents()), CreateGrant(caller, key, grantedTo, minutes))
      ensures grant.Some? ==> HasGrant(Contents(), key, grantedTo)
    {
      grant := None;
      if key !in encryption || encryption[key].visibility != Private { return; }
      if key !in records { return; }
      if caller != records[key] { return; }
      var lifetime := Min(if minutes == 0 then 60 else minutes, 1440);
      var g := next;
      grants, next := grants[g := Grant(key, caller, grantedTo, now + lifetime * MINUTE, true)], next + 1;
      assert lifetime >= 1 && grants[g].expiresAt > now;
      grant := Some(g);
    }

    method RevokeViewingGrant(caller: Did, grant: GrantId) returns (ok: bool)
      modifies this`grants
      ensures Contents() == Next(old(Contents()), RevokeGrant(caller, grant))
      ensures ok <==> grant in old(grants) && old(grants)[grant].subject == caller && old(grants)[grant].active
    {
      ok := false;
      if grant !in grants || grants[grant].subject != caller { return; }
      if !grants[grant].active {
        assert grants[grant := grants[grant].(active := false)] == grants;
        return;
      }
      grants := grants[grant := grants[grant].(active := false)];
      ok := true;
    }
  }
}
