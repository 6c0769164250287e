/**
 Canonical JSON, the form a claim's commitment is taken over.  Objects keep the
 order their keys were written in; canonicalization sorts the keys at every depth.
 */
module CanonicalJson {

  datatype Json = Null | Bool(b: bool) | Num(n: real) | Str(s: string) | Arr(items: seq<Json>) | Obj(fields: seq<Field>)

  datatype Field = Field(key: string, value: Json)

  // ── Key order ─────────────────────────────────────────────────────

  /** The order of `Array.prototype.sort` on strings: by code unit. */
  predicate Less(a: string, b: string) {
    b != "" && (a == "" || a[0] < b[0] || (a[0] == b[0] && Less(a[1..], b[1..])))
  }

  lemma {:induction false} LessIrreflexive(a: string)
    ensures !Less(a, a)
    decreases |a|
  {
    if a != "" { LessIrreflexive(a[1..]); }
  }

  lemma {:induction false} LessTrichotomy(a: string, b: string)
    ensures Less(a, b) || a == b || Less(b, a)
    ensures !(Less(a, b) && Less(b, a)) && !Less(a, a)
    decreases |a|
  {
    LessIrreflexive(a);
    if a != "" && b != "" {
      LessTrichotomy(a[1..], b[1..]);
      if a[1..] == b[1..] && a[0] == b[0] { assert a == [a[0]] + a[1..] && b == [b[0]] + b[1..]; }
    }
  }

  /** The order is lexicographic: at the first difference the smaller code unit comes first, and a proper prefix before what it begins. */
  lemma {:induction false} LessIsLexicographic(a: string, b: string)
    ensures Less(a, b) <==> exists i: nat :: FirstDifference(a, b, i) && (i == |a| || a[i] < b[i])
    decreases |a|
  {
    if a != "" && b != "" && a[0] == b[0] {
      LessIsLexicographic(a[1..], b[1..]);
      if i: nat :| FirstDifference(a[1..], b[1..], i) && (i == |a[1..]| || a[1..][i] < b[1..][i]) {
        assert FirstDifference(a, b, i + 1) by {
          assert a[..i + 1] == [a[0]] + a[1..][..i] && b[..i + 1] == [b[0]] + b[1..][..i];
        }
      }
      if i: nat :| FirstDifference(a, b, i) && (i == |a| || a[i] < b[i]) {
        assert i > 0;
        assert FirstDifference(a[1..], b[1..], i - 1) by {
          assert a[1..][..i - 1] == a[..i][1..] && b[1..][..i - 1] == b[..i][1..];
        }
      }
    } else if b != "" {
      assert FirstDifference(a, b, 0);
      forall i: nat | FirstDifference(a, b, i) ensures i == 0 { SamePrefix(a, b, i); }
    }
  }

  lemma SamePrefix(a: string, b: string, i: nat)
    ensures i > 0 && FirstDifference(a, b, i) ==> a != "" && a[0] == b[0]
  {
    if i > 0 && FirstDifference(a, b, i) { assert a[..i][0] == b[..i][0]; }
  }

  /** `a` and `b` are the same up to `i`, and `b` goes on from there, differently if `a` does too. */
  ghost predicate FirstDifference(a: string, b: string, i: nat) {
    i <= |a| && i < |b| && a[..i] == b[..i] && (i < |a| ==> a[i] != b[i])
  }

  lemma {:induction false} LessTransitive(a: string, b: string, c: string)
    requires Less(a, b) && Less(b, c)
    ensures Less(a, c)
    decreases |a|
  {
    if a != "" && a[0] == b[0] && b[0] == c[0] { LessTransitive(a[1..], b[1..], c[1..]); }
  }

  ghost predicate Sorted(fields: seq<Field>) {
    forall i, j | 0 <= i < j < |fields| :: Less(fields[i].key, fields[j].key)
  }

  ghost predicate DistinctKeys(fields: seq<Field>) {
    forall i, j | 0 <= i < j < |fields| :: fields[i].key != fields[j].key
  }

  /** What a JavaScript object can be: no key twice, at any depth. */
  ghost predicate WellFormed(v: Json) {
    match v
    case Arr(items) => forall i | 0 <= i < |items| :: WellFormed(items[i])
    case Obj(fields) => DistinctKeys(fields) && forall i | 0 <= i < |fields| :: WellFormed(fields[i].value)
    case _ => true
  }

  // ── canonicalize ──────────────────────────────────────────────────

  /** Where a field goes among sorted ones. */
  function Insert(f: Field, sorted: seq<Field>): seq<Field> {
    if sorted == [] || Less(f.key, sorted[0].key) then [f] + sorted
    else [sorted[0]] + Insert(f, sorted[1..])
  }

  function Sort(fields: seq<Field>): seq<Field> {
    if fields == [] then [] else Insert(fields[0], Sort(fields[1..]))
  }

  function Canonicalize(v: Json): Json
    decreases v
  {
    match v
    case Arr(items) => Arr(seq(|items|, i requires 0 <= i < |items| => Canonicalize(items[i])))
    case Obj(fields) => Obj(Sort(CanonicalFields(fields)))
    case _ => v
  }

  function CanonicalFields(fields: seq<Field>): (r: seq<Field>)
    ensures |r| == |fields|
    ensures forall i | 0 <= i < |fields| :: r[i] == Field(fields[i].key, Canonicalize(fields[i].value))
    decreases fields
  {
    seq(|fields|, i requires 0 <= i < |fields| => Field(fields[i].key, Canonicalize(fields[i].value)))
  }

  // ── Equality up to key order ──────────────────────────────────────

  function Keys(fields: seq<Field>): set<string> { set f | f in fields :: f.key }

  /** `object[key]`. */
  function ValueAt(fields: seq<Field>, key: string): Json {
    if fields == [] then Null else if fields[0].key == key then fields[0].value else ValueAt(fields[1..], key)
  }

  /** Equal up to the order of keys in each object: objects are unordered (RFC 8259, section 4). */
  ghost predicate Same(a: Json, b: Json)
    decreases a
  {
    match (a, b)
    case (Arr(xs), Arr(ys)) => |xs| == |ys| && forall i | 0 <= i < |xs| :: Same(xs[i], ys[i])
    case (Obj(xs), Obj(ys)) =>
      Keys(xs) == Keys(ys) && forall i | 0 <= i < |xs| :: Same(xs[i].value, ValueAt(ys, xs[i].key))
    case _ => a == b
  }

  lemma {:induction false} ValueAtIndex(fields: seq<Field>, i: nat)
    requires DistinctKeys(fields) && i < |fields|
    ensures ValueAt(fields, fields[i].key) == fields[i].value
    decreases |fields|
  {
    if i > 0 {
      assert fields[0].key != fields[i].key;
      ValueAtIndex(fields[1..], i - 1);
    }
  }

  /** Where a key of an object is. */
  lemma KeyIndex(fields: seq<Field>, key: string) returns (i: nat)
    requires DistinctKeys(fields) && key in Keys(fields)
    ensures i < |fields| && fields[i].key == key && ValueAt(fields, key) == fields[i].value
  {
    var f :| f in fields && f.key == key;
    i :| i < |fields| && fields[i] == f;
    ValueAtIndex(fields, i);
  }

  // ── Sorting fields ────────────────────────────────────────────────

  lemma {:induction false} InsertSorts(f: Field, sorted: seq<Field>)
    requires Sorted(sorted) && forall g | g in sorted :: g.key != f.key
    ensures Sorted(Insert(f, sorted))
    ensures forall g :: g in Insert(f, sorted) <==> g == f || g in sorted
    decreases |sorted|
  {
    if sorted != [] {
      var first := sorted[0];
      LessTrichotomy(f.key, first.key);
      if Less(f.key, first.key) {
        forall j | 0 <= j < |sorted| ensures Less(f.key, sorted[j].key) {
          if j > 0 { LessTransitive(f.key, first.key, sorted[j].key); }
        }
      } else {
        InsertSorts(f, sorted[1..]);
        var rest := Insert(f, sorted[1..]);
        forall j | 0 <= j < |rest| ensures Less(first.key, rest[j].key) {
          assert rest[j] in rest;
        }
        assert sorted == [first] + sorted[1..];
      }
    }
  }

  lemma {:induction false} SortSorts(fields: seq<Field>)
    requires DistinctKeys(fields)
    ensures Sorted(Sort(fields))
    ensures forall f :: f in Sort(fields) <==> f in fields
    decreases |fields|
  {
    if fields != [] {
      SortSorts(fields[1..]);
      assert fields == [fields[0]] + fields[1..];
      InsertSorts(fields[0], Sort(fields[1..]));
    }
  }

  /** A set of fields has one sorted order. */
  lemma {:induction false} SortedOnce(a: seq<Field>, b: seq<Field>)
    requires Sorted(a) && Sorted(b) && forall f :: f in a <==> f in b
    ensures a == b
    decreases |a|
  {
    assert a != [] ==> a[0] in a;
    assert b != [] ==> b[0] in b;
    if a != [] {
      LeastFirst(a, b);
      RestOf(a, b);
      RestOf(b, a);
      SortedOnce(a[1..], b[1..]);
      assert a == [a[0]] + a[1..] && b == [b[0]] + b[1..];
    }
  }

  lemma LeastFirst(a: seq<Field>, b: seq<Field>)
    requires Sorted(a) && Sorted(b) && a != [] && b != [] && forall f :: f in a <==> f in b
    ensures a[0] == b[0]
  {
    assert a[0] in b && b[0] in a;
    var i :| 0 <= i < |b| && b[i] == a[0];
    var j :| 0 <= j < |a| && a[j] == b[0];
    LessTrichotomy(a[0].key, b[0].key);
  }

  lemma RestOf(a: seq<Field>, b: seq<Field>)
    requires Sorted(a) && a != [] && b != [] && a[0] == b[0] && forall f | f in a :: f in b
    ensures Sorted(a[1..]) && forall f | f in a[1..] :: f in b[1..]
  {
    forall f | f in a[1..] ensures f in b[1..] {
      var i :| 0 <= i < |a[1..]| && a[1..][i] == f;
      LessTrichotomy(a[0].key, f.key);
      assert a[i + 1] == f && f in a && f in b;
      assert b == [b[0]] + b[1..];
    }
  }

  // ── The fields of a canonical object ──────────────────────────────

  /** The canonical object has a field for each key, with the canonical value, and no other. */
  lemma CanonicalFieldIff(fields: seq<Field>, f: Field)
    requires DistinctKeys(fields)
    ensures Sorted(Sort(CanonicalFields(fields)))
    ensures f in Sort(CanonicalFields(fields)) <==> f.key in Keys(fields) && f.value == Canonicalize(ValueAt(fields, f.key))
  {
    var cs := CanonicalFields(fields);
    assert DistinctKeys(cs);
    SortSorts(cs);
    if f in cs {
      var i :| 0 <= i < |cs| && cs[i] == f;
      assert fields[i] in fields;
      ValueAtIndex(fields, i);
    }
    if f.key in Keys(fields) && f.value == Canonicalize(ValueAt(fields, f.key)) {
      var i := KeyIndex(fields, f.key);
      assert cs[i] == f;
    }
  }

  lemma SameFieldsSort(xs: seq<Field>, ys: seq<Field>)
    requires DistinctKeys(xs) && DistinctKeys(ys) && Keys(xs) == Keys(ys)
    requires forall k | k in Keys(xs) :: Canonicalize(ValueAt(xs, k)) == Canonicalize(ValueAt(ys, k))
    ensures Sort(CanonicalFields(xs)) == Sort(CanonicalFields(ys))
  {
    hide CanonicalFields;
    hide Canonicalize;
    hide ValueAt;
    hide Sort;
    CanonicalFieldIff(xs, Field("", Null));
    CanonicalFieldIff(ys, Field("", Null));
    forall f ensures f in Sort(CanonicalFields(xs)) <==> f in Sort(CanonicalFields(ys)) {
      CanonicalFieldIff(xs, f);
      CanonicalFieldIff(ys, f);
    }
    SortedOnce(Sort(CanonicalFields(xs)), Sort(CanonicalFields(ys)));
  }

  lemma SortedSameFields(xs: seq<Field>, ys: seq<Field>, k: string)
    requires DistinctKeys(xs) && DistinctKeys(ys) && Sort(CanonicalFields(xs)) == Sort(CanonicalFields(ys)) && k in Keys(xs)
    ensures k in Keys(ys) && Canonicalize(ValueAt(xs, k)) == Canonicalize(ValueAt(ys, k))
  {
    hide CanonicalFields;
    hide Canonicalize;
    hide ValueAt;
    hide Sort;
    var f := Field(k, Canonicalize(ValueAt(xs, k)));
    CanonicalFieldIff(xs, f);
    CanonicalFieldIff(ys, f);
  }

  // ── The theorem ───────────────────────────────────────────────────

  lemma {:induction false} SameCanonical(a: Json, b: Json)
    requires WellFormed(a) && WellFormed(b) && Same(a, b)
    ensures Canonicalize(a) == Canonicalize(b)
    decreases a
  {
    match (a, b)
    case (Arr(xs), Arr(ys)) =>
      forall i | 0 <= i < |xs| ensures Canonicalize(xs[i]) == Canonicalize(ys[i]) { SameCanonical(xs[i], ys[i]); }
    case (Obj(xs), Obj(ys)) =>
      forall k | k in Keys(xs) ensures Canonicalize(ValueAt(xs, k)) == Canonicalize(ValueAt(ys, k)) {
        var i := KeyIndex(xs, k);
        var j := KeyIndex(ys, k);
        SameCanonical(xs[i].value, ys[j].value);
      }
      SameFieldsSort(xs, ys);
    case _ =>
  }

  lemma {:induction false} CanonicalSame(a: Json, b: Json)
    requires WellFormed(a) && WellFormed(b) && Canonicalize(a) == Canonicalize(b)
    ensures Same(a, b)
    decreases a
  {
    match (a, b)
    case (Arr(xs), Arr(ys)) =>
      assert |Canonicalize(a).items| == |xs| && |Canonicalize(b).items| == |ys|;
      forall i | 0 <= i < |xs| ensures Same(xs[i], ys[i]) {
        assert Canonicalize(a).items[i] == Canonicalize(xs[i]) && Canonicalize(b).items[i] == Canonicalize(ys[i]);
        CanonicalSame(xs[i], ys[i]);
      }
    case (Obj(xs), Obj(ys)) =>
      forall k | k in Keys(xs) ensures k in Keys(ys) { SortedSameFields(xs, ys, k); }
      forall k | k in Keys(ys) ensures k in Keys(xs) { SortedSameFields(ys, xs, k); }
      forall i | 0 <= i < |xs| ensures Same(xs[i].value, ValueAt(ys, xs[i].key)) {
        assert xs[i] in xs;
        SortedSameFields(xs, ys, xs[i].key);
        ValueAtIndex(xs, i);
        var j := KeyIndex(ys, xs[i].key);
        CanonicalSame(xs[i].value, ys[j].value);
      }
    case _ =>
  }

  /** Two claims have one canonical form exactly when they are equal up to key order at every depth. */
  lemma CanonicalFormDecides(a: Json, b: Json)
    requires WellFormed(a) && WellFormed(b)
    ensures Canonicalize(a) == Canonicalize(b) <==> Same(a, b)
  {
    if Same(a, b) { SameCanonical(a, b); }
    if Canonicalize(a) == Canonicalize(b) { CanonicalSame(a, b); }
  }

  // ── A canonical form is the claim it was made from ────────────────

  lemma CanonicalObject(fields: seq<Field>)
    requires DistinctKeys(fields)
    ensures var cs := Sort(CanonicalFields(fields));
      && DistinctKeys(cs) && Keys(cs) == Keys(fields)
      && (forall k | k in Keys(fields) :: ValueAt(cs, k) == Canonicalize(ValueAt(fields, k)))
      && forall i | 0 <= i < |cs| :: exists j :: 0 <= j < |fields| && cs[i] == Field(fields[j].key, Canonicalize(fields[j].value))
  {
    var cs := Sort(CanonicalFields(fields));
    assert DistinctKeys(CanonicalFields(fields));
    SortSorts(CanonicalFields(fields));
    SortedIsDistinct(cs);
    forall k | k in Keys(fields) ensures k in Keys(cs) && ValueAt(cs, k) == Canonicalize(ValueAt(fields, k)) {
      var f := Field(k, Canonicalize(ValueAt(fields, k)));
      CanonicalFieldIff(fields, f);
      var i :| 0 <= i < |cs| && cs[i] == f;
      ValueAtIndex(cs, i);
    }
    forall i | 0 <= i < |cs|
      ensures cs[i].key in Keys(fields)
      ensures exists j :: 0 <= j < |fields| && cs[i] == Field(fields[j].key, Canonicalize(fields[j].value))
    {
      assert cs[i] in CanonicalFields(fields);
      var j :| 0 <= j < |fields| && CanonicalFields(fields)[j] == cs[i];
      assert fields[j] in fields;
    }
  }

  lemma SortedIsDistinct(fields: seq<Field>)
    requires Sorted(fields)
    ensures DistinctKeys(fields)
  {
    forall i, j | 0 <= i < j < |fields| ensures fields[i].key != fields[j].key {
      LessTrichotomy(fields[i].key, fields[j].key);
    }
  }

  lemma {:induction false} CanonicalIsClaim(a: Json)
    requires WellFormed(a)
    ensures WellFormed(Canonicalize(a)) && Same(a, Canonicalize(a))
    decreases a
  {
    match a
    case Arr(xs) =>
      forall i | 0 <= i < |xs| ensures WellFormed(Canonicalize(xs[i])) && Same(xs[i], Canonicalize(xs[i])) {
        CanonicalIsClaim(xs[i]);
      }
    case Obj(xs) =>
      var cs := Sort(CanonicalFields(xs));
      forall j | 0 <= j < |xs| ensures WellFormed(Canonicalize(xs[j].value)) && Same(xs[j].value, Canonicalize(xs[j].value)) {
        CanonicalIsClaim(xs[j].value);
      }
      CanonicalObject(xs);
      forall i | 0 <= i < |xs| ensures Same(xs[i].value, ValueAt(cs, xs[i].key)) {
        assert xs[i] in xs;
        ValueAtIndex(xs, i);
      }
      assert Canonicalize(a) == Obj(cs);
    case _ =>
  }

  /** Canonicalizing twice is canonicalizing once. */
  lemma CanonicalizeIdempotent(a: Json)
    requires WellFormed(a)
    ensures Canonicalize(Canonicalize(a)) == Canonicalize(a)
  {
    CanonicalIsClaim(a);
    SameCanonical(a, Canonicalize(a));
  }

  // ── canonicalize as it runs ───────────────────────────────────────

  lemma {:induction false} InsertCanonical(f: Field, sorted: seq<Field>)
    ensures CanonicalFields(Insert(f, sorted)) == Insert(Field(f.key, Canonicalize(f.value)), CanonicalFields(sorted))
    decreases |sorted|
  {
    var g := Field(f.key, Canonicalize(f.value));
    var cs := CanonicalFields(sorted);
    if sorted == [] || Less(f.key, sorted[0].key) {
      assert CanonicalFields([f] + sorted) == [g] + cs;
    } else {
      InsertCanonical(f, sorted[1..]);
      assert cs[1..] == CanonicalFields(sorted[1..]);
      assert CanonicalFields([sorted[0]] + Insert(f, sorted[1..])) == [cs[0]] + CanonicalFields(Insert(f, sorted[1..]));
    }
  }

  /** Sorting the keys first and then filling the object gives the same object. */
  lemma {:induction false} SortThenFill(fields: seq<Field>)
    ensures CanonicalFields(Sort(fields)) == Sort(CanonicalFields(fields))
    decreases |fields|
  {
    if fields != [] {
      SortThenFill(fields[1..]);
      InsertCanonical(fields[0], Sort(fields[1..]));
      assert CanonicalFields(fields)[1..] == CanonicalFields(fields[1..]);
    }
  }

  /** Arrays are mapped; objects are filled key by key, in sorted order. */
  method CanonicalizeValue(v: Json) returns (c: Json)
    requires WellFormed(v)
    ensures c == Canonicalize(v)
    decreases v
  {
    match v
    case Arr(items) =>
      var mapped: seq<Json> := [];
      for i := 0 to |items|
        invariant |mapped| == i && forall k | 0 <= k < i :: mapped[k] == Canonicalize(items[k])
      {
        var item := CanonicalizeValue(items[i]);
        mapped := mapped + [item];
      }
      return Arr(mapped);
    case Obj(fields) =>
      var keys := Sort(fields);
      SortSorts(fields);
      var sorted: seq<Field> := [];
      for i := 0 to |keys|
        invariant |sorted| == i && forall k | 0 <= k < i :: sorted[k] == Field(keys[k].key, Canonicalize(keys[k].value))
      {
        assert keys[i] in fields;
        ghost var j :| 0 <= j < |fields| && fields[j] == keys[i];
        var value := CanonicalizeValue(keys[i].value);
        sorted := sorted + [Field(keys[i].key, value)];
      }
      SortThenFill(fields);
      assert sorted == CanonicalFields(keys);
      return Obj(sorted);
    case _ => return v;
  }

  // ── jsonDepth ─────────────────────────────────────────────────────

  function Max(a: nat, b: nat): nat { if a >= b then a else b }

  function MaxOf(ds: seq<nat>): nat {
    if ds == [] then 0 else Max(MaxOf(ds[..|ds|-1]), ds[|ds|-1])
  }

  /** Scalars are depth 0; a container is one deeper than its deepest child. */
  function Depth(v: Json): nat
    decreases v
  {
    match v
    case Arr(items) => 1 + MaxOf(seq(|items|, i requires 0 <= i < |items| => Depth(items[i])))
    case Obj(fields) => 1 + MaxOf(FieldDepths(fields))
    case _ => 0
  }

  function FieldDepths(fields: seq<Field>): (ds: seq<nat>)
    ensures |ds| == |fields| && forall i | 0 <= i < |fields| :: ds[i] == Depth(fields[i].value)
    decreases fields
  {
    seq(|fields|, i requires 0 <= i < |fields| => Depth(fields[i].value))
  }

  /** What a container holds. */
  ghost predicate HasChild(v: Json, child: Json) {
    || (v.Arr? && child in v.items)
    || (v.Obj? && exists f :: f in v.fields && f.value == child)
  }

  /** Scalars have depth 0, an empty container 1, and any other is one deeper than its deepest child. */
  lemma DepthExactly(v: Json)
    ensures !v.Arr? && !v.Obj? ==> Depth(v) == 0
    ensures v.Arr? || v.Obj? ==> Depth(v) >= 1
    ensures forall child | HasChild(v, child) :: Depth(child) < Depth(v)
    ensures Depth(v) > 1 ==> exists child :: HasChild(v, child) && Depth(child) == Depth(v) - 1
  {
    match v
    case Arr(items) =>
      var ds := seq(|items|, i requires 0 <= i < |items| => Depth(items[i]));
      forall child | child in items ensures Depth(child) < Depth(v) {
        var i :| 0 <= i < |items| && items[i] == child;
        MaxOfBounds(ds, i);
      }
      if MaxOf(ds) > 0 {
        var i := MaxOfSome(ds);
        assert HasChild(v, items[i]);
      }
    case Obj(fields) =>
      var ds := FieldDepths(fields);
      forall child | HasChild(v, child) ensures Depth(child) < Depth(v) {
        var f :| f in fields && f.value == child;
        var i :| 0 <= i < |fields| && fields[i] == f;
        MaxOfBounds(ds, i);
      }
      if MaxOf(ds) > 0 {
        var i := MaxOfSome(ds);
        assert fields[i] in fields;
        assert HasChild(v, fields[i].value);
      }
    case _ =>
  }

  lemma {:induction false} MaxOfSome(ds: seq<nat>) returns (i: nat)
    requires MaxOf(ds) > 0
    ensures i < |ds| && ds[i] == MaxOf(ds)
    decreases |ds|
  {
    if MaxOf(ds) == ds[|ds|-1] { i := |ds| - 1; } else { i := MaxOfSome(ds[..|ds|-1]); }
  }

  lemma {:induction false} MaxOfBounds(ds: seq<nat>, i: nat)
    requires i < |ds|
    ensures ds[i] <= MaxOf(ds)
    decreases |ds|
  {
    if i < |ds| - 1 { MaxOfBounds(ds[..|ds|-1], i); }
  }

  lemma {:induction false} MaxOfLeast(ds: seq<nat>, bound: nat)
    requires forall i | 0 <= i < |ds| :: ds[i] <= bound
    ensures MaxOf(ds) <= bound
    decreases |ds|
  {
    if ds != [] { MaxOfLeast(ds[..|ds|-1], bound); }
  }

  lemma {:induction false} SameDepth(a: Json, b: Json)
    requires WellFormed(a) && WellFormed(b) && Same(a, b)
    ensures Depth(a) == Depth(b)
    decreases a
  {
    match (a, b)
    case (Arr(xs), Arr(ys)) =>
      forall i | 0 <= i < |xs| ensures Depth(xs[i]) == Depth(ys[i]) { SameDepth(xs[i], ys[i]); }
      assert seq(|xs|, i requires 0 <= i < |xs| => Depth(xs[i])) == seq(|ys|, i requires 0 <= i < |ys| => Depth(ys[i]));
    case (Obj(xs), Obj(ys)) =>
      forall k | k in Keys(xs) ensures Depth(ValueAt(xs, k)) == Depth(ValueAt(ys, k)) {
        var i := KeyIndex(xs, k);
        var j := KeyIndex(ys, k);
        SameDepth(xs[i].value, ys[j].value);
      }
      NoDeeper(xs, ys);
      NoDeeper(ys, xs);
    case _ =>
  }

  lemma NoDeeper(xs: seq<Field>, ys: seq<Field>)
    requires DistinctKeys(xs) && DistinctKeys(ys) && Keys(xs) == Keys(ys)
    requires forall k | k in Keys(xs) :: Depth(ValueAt(xs, k)) == Depth(ValueAt(ys, k))
    ensures MaxOf(FieldDepths(xs)) <= MaxOf(FieldDepths(ys))
  {
    forall i | 0 <= i < |xs| ensures FieldDepths(xs)[i] <= MaxOf(FieldDepths(ys)) {
      assert xs[i] in xs;
      ValueAtIndex(xs, i);
      var j := KeyIndex(ys, xs[i].key);
      MaxOfBounds(FieldDepths(ys), j);
    }
    MaxOfLeast(FieldDepths(xs), MaxOf(FieldDepths(ys)));
  }

  /** The depth limit on claims means the same before and after canonicalization. */
  lemma CanonicalizeKeepsDepth(a: Json)
    requires WellFormed(a)
    ensures Depth(Canonicalize(a)) == Depth(a)
  {
    CanonicalIsClaim(a);
    SameDepth(a, Canonicalize(a));
  }

  /** `jsonDepth` as it runs: a running maximum over the children. */
  method JsonDepth(v: Json) returns (depth: nat)
    ensures depth == Depth(v)
    decreases v
  {
    var max: nat := 0;
    match v
    case Arr(items) =>
      ghost var ds := seq(|items|, i requires 0 <= i < |items| => Depth(items[i]));
      for i := 0 to |items|
        invariant max == MaxOf(ds[..i])
      {
        var d := JsonDepth(items[i]);
        assert ds[..i + 1][..i] == ds[..i];
        max := Max(max, d);
      }
      assert ds[..|items|] == ds;
      return 1 + max;
    case Obj(fields) =>
      ghost var ds := FieldDepths(fields);
      for i := 0 to |fields|
        invariant max == MaxOf(ds[..i])
      {
        var d := JsonDepth(fields[i].value);
        assert ds[..i + 1][..i] == ds[..i];
        max := Max(max, d);
      }
      assert ds[..|fields|] == ds;
      return 1 + max;
    case _ => return 0;
  }
}
