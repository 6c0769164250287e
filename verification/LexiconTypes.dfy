/**
 The lexicon contract generator: schemas compiled to TypeScript types.  A value valid
 for a schema inhabits the emitted type, provided every reference resolves inside its
 own document; the converse holds where the type language can say what the schema says.
 */
module LexiconTypes {
  import opened Wrappers
  import opened CanonicalJson

  datatype Kind = Ref | Unknown | String | Integer | Number | Boolean | Array | Object | Params | Other(name: string)

  /** `ref` without its `#`; a reference into another document has no local name. */
  datatype Reference = Local(name: string) | Foreign(id: string)

  datatype Schema = Schema(kind: Kind, ref: Option<Reference>, properties: seq<Property>, required: seq<string>, items: Option<Schema>)

  datatype Property = Property(name: string, schema: Schema)

  /** A definition is a schema when it has a `type` or a `ref`. */
  datatype Definition = IsSchema(schema: Schema) | NotASchema

  type Doc = map<string, Definition>

  datatype Type = Undefined | AnyValue | StringType | NumberType | BooleanType | ArrayOf(element: Type) | JsonObject | Record(members: seq<Member>)

  datatype Member = Member(name: string, optional: bool, ty: Type)

  function ResolveRef(doc: Doc, ref: Option<Reference>): Option<Schema> {
    if ref.None? || ref.value.Foreign? || ref.value.name !in doc || doc[ref.value.name].NotASchema? then None
    else Some(doc[ref.value.name].schema)
  }

  // ── Acyclic documents ─────────────────────────────────────────────

  type Ranking = map<string, nat>

  function RankOf(rank: Ranking, name: string): nat { if name in rank then rank[name] else 0 }

  /** Every reference in this schema that resolves names a definition ranked below `limit`. */
  ghost predicate RefsBelow(doc: Doc, rank: Ranking, schema: Schema, limit: nat)
    decreases schema
  {
    && (schema.kind == Ref && ResolveRef(doc, schema.ref).Some? ==> RankOf(rank, schema.ref.value.name) < limit)
    && (forall i | 0 <= i < |schema.properties| :: RefsBelow(doc, rank, schema.properties[i].schema, limit))
    && (schema.items.Some? ==> RefsBelow(doc, rank, schema.items.value, limit))
  }

  /** References only lead downward: the document's definitions have no cycle. */
  ghost predicate Ranked(doc: Doc, rank: Ranking) {
    forall name | name in doc && doc[name].IsSchema? :: RefsBelow(doc, rank, doc[name].schema, RankOf(rank, name))
  }

  ghost predicate Bounded(doc: Doc, rank: Ranking, schema: Option<Schema>, limit: nat) {
    Ranked(doc, rank) && (schema.Some? ==> RefsBelow(doc, rank, schema.value, limit))
  }

  // ── schemaToType ──────────────────────────────────────────────────

  function TypeOf(doc: Doc, s: Schema, ghost rank: Ranking, ghost limit: nat): Type
    requires Bounded(doc, rank, Some(s), limit)
    decreases limit, s
  {
    match s.kind
    case Ref =>
      if ResolveRef(doc, s.ref).None? then Undefined
      else TypeOf(doc, ResolveRef(doc, s.ref).value, rank, RankOf(rank, s.ref.value.name))
    case Unknown => AnyValue
    case String => StringType
    case Integer => NumberType
    case Number => NumberType
    case Boolean => BooleanType
    case Array => ArrayOf(if s.items.None? then Undefined else TypeOf(doc, s.items.value, rank, limit))
    case Object => if s.properties == [] then JsonObject else Record(Members(doc, s, rank, limit))
    case Params => if s.properties == [] then JsonObject else Record(Members(doc, s, rank, limit))
    case Other(_) => AnyValue
  }

  function Members(doc: Doc, s: Schema, ghost rank: Ranking, ghost limit: nat): (members: seq<Member>)
    requires Bounded(doc, rank, Some(s), limit)
    ensures |members| == |s.properties|
    ensures forall i | 0 <= i < |members| ::
      && Bounded(doc, rank, Some(s.properties[i].schema), limit)
      && members[i] == Member(s.properties[i].name, s.properties[i].name !in s.required,
                              TypeOf(doc, s.properties[i].schema, rank, limit))
    decreases limit, s, 0
  {
    seq(|s.properties|, i requires 0 <= i < |s.properties| =>
      var p := s.properties[i];
      Member(p.name, p.name !in s.required, TypeOf(doc, p.schema, rank, limit)))
  }

  /** A missing schema is `undefined`. */
  function SchemaToType(doc: Doc, schema: Option<Schema>, ghost rank: Ranking, ghost limit: nat): Type
    requires Bounded(doc, rank, schema, limit)
  {
    if schema.None? then Undefined else TypeOf(doc, schema.value, rank, limit)
  }

  // ── What schemas and types mean ───────────────────────────────────

  /** A value, or nothing where there is no value. */
  type Maybe = Option<Json>

  function At(v: Json, name: string): Maybe {
    if v.Obj? && name in Keys(v.fields) then Some(ValueAt(v.fields, name)) else None
  }

  /** The data a schema describes.  References out of the document describe whatever `outside` says they do. */
  ghost predicate Valid(doc: Doc, outside: (Option<Reference>, Json) -> bool, schema: Schema, v: Json, rank: Ranking, limit: nat)
    requires Bounded(doc, rank, Some(schema), limit)
    decreases limit, schema
  {
    match schema.kind
    case Ref =>
      if ResolveRef(doc, schema.ref).None? then outside(schema.ref, v)
      else Valid(doc, outside, ResolveRef(doc, schema.ref).value, v, rank, RankOf(rank, schema.ref.value.name))
    case Unknown => true
    case String => v.Str?
    case Integer => v.Num? && v.n.Floor as real == v.n
    case Number => v.Num?
    case Boolean => v.Bool?
    case Array => v.Arr? &&
      (schema.items.Some? ==> forall i | 0 <= i < |v.items| :: Valid(doc, outside, schema.items.value, v.items[i], rank, limit))
    case Other(_) => true
    case _ =>
      && v.Obj?
      && (forall name | name in schema.required :: At(v, name).Some?)
      && (forall i | 0 <= i < |schema.properties| ::
            At(v, schema.properties[i].name).Some? ==>
              Valid(doc, outside, schema.properties[i].schema, At(v, schema.properties[i].name).value, rank, limit))
  }

  /** The data a TypeScript type admits; object types admit further properties. */
  ghost predicate Inhabits(ty: Type, v: Maybe)
    decreases ty
  {
    match ty
    case Undefined => v.None?
    case AnyValue => v.Some?
    case StringType => v.Some? && v.value.Str?
    case NumberType => v.Some? && v.value.Num?
    case BooleanType => v.Some? && v.value.Bool?
    case ArrayOf(element) => v.Some? && v.value.Arr? && forall i | 0 <= i < |v.value.items| :: Inhabits(element, Some(v.value.items[i]))
    case JsonObject => v.Some? && v.value.Obj?
    case Record(members) => v.Some? && v.value.Obj? && forall i | 0 <= i < |members| ::
      (members[i].optional && At(v.value, members[i].name).None?) || Inhabits(members[i].ty, At(v.value, members[i].name))
  }

  // ── Schemas whose types are sound, and exact ──────────────────────

  /** As far as this schema reaches, references resolve in the document and arrays say what they hold. */
  ghost predicate Complete(doc: Doc, schema: Schema, rank: Ranking, limit: nat)
    requires Bounded(doc, rank, Some(schema), limit)
    decreases limit, schema
  {
    match schema.kind
    case Ref =>
      ResolveRef(doc, schema.ref).Some? && Complete(doc, ResolveRef(doc, schema.ref).value, rank, RankOf(rank, schema.ref.value.name))
    case Array => schema.items.Some? && Complete(doc, schema.items.value, rank, limit)
    case Object => forall i | 0 <= i < |schema.properties| :: Complete(doc, schema.properties[i].schema, rank, limit)
    case Params => forall i | 0 <= i < |schema.properties| :: Complete(doc, schema.properties[i].schema, rank, limit)
    case _ => true
  }

  predicate OnlyDeclaredRequired(schema: Schema) {
    forall name | name in schema.required :: exists i :: 0 <= i < |schema.properties| && schema.properties[i].name == name
  }

  /** As far as it reaches, nothing the type language cannot say: no integers, no unrecognised kinds, only declared properties required. */
  ghost predicate Exact(doc: Doc, schema: Schema, rank: Ranking, limit: nat)
    requires Bounded(doc, rank, Some(schema), limit)
    decreases limit, schema
  {
    match schema.kind
    case Ref =>
      ResolveRef(doc, schema.ref).Some? ==>
        Exact(doc, ResolveRef(doc, schema.ref).value, rank, RankOf(rank, schema.ref.value.name))
    case Array => schema.items.Some? ==> Exact(doc, schema.items.value, rank, limit)
    case Object =>
      OnlyDeclaredRequired(schema) && forall i | 0 <= i < |schema.properties| :: Exact(doc, schema.properties[i].schema, rank, limit)
    case Params =>
      OnlyDeclaredRequired(schema) && forall i | 0 <= i < |schema.properties| :: Exact(doc, schema.properties[i].schema, rank, limit)
    case Integer => false
    case Other(_) => false
    case _ => true
  }

  // ── The theorems ──────────────────────────────────────────────────

  /** Every value valid for a schema inhabits the emitted type. */
  lemma {:induction false} CompilationSound(doc: Doc, outside: (Option<Reference>, Json) -> bool, schema: Schema, v: Json,
                                            rank: Ranking, limit: nat)
    requires Bounded(doc, rank, Some(schema), limit) && Complete(doc, schema, rank, limit)
    requires Valid(doc, outside, schema, v, rank, limit)
    ensures Inhabits(TypeOf(doc, schema, rank, limit), Some(v))
    decreases limit, schema
  {
    match schema.kind
    case Ref =>
      CompilationSound(doc, outside, ResolveRef(doc, schema.ref).value, v, rank, RankOf(rank, schema.ref.value.name));
    case Array =>
      forall i | 0 <= i < |v.items|
        ensures Inhabits(TypeOf(doc, schema.items.value, rank, limit), Some(v.items[i]))
      {
        CompilationSound(doc, outside, schema.items.value, v.items[i], rank, limit);
      }
    case Object => RecordSound(doc, outside, schema, v, rank, limit);
    case Params => RecordSound(doc, outside, schema, v, rank, limit);
    case _ =>
  }

  lemma RecordSound(doc: Doc, outside: (Option<Reference>, Json) -> bool, schema: Schema, v: Json, rank: Ranking, limit: nat)
    requires Bounded(doc, rank, Some(schema), limit) && Complete(doc, schema, rank, limit)
    requires schema.kind == Object || schema.kind == Params
    requires Valid(doc, outside, schema, v, rank, limit)
    ensures Inhabits(TypeOf(doc, schema, rank, limit), Some(v))
    decreases limit, schema, 0
  {
    var members := Members(doc, schema, rank, limit);
    forall i | 0 <= i < |members|
      ensures (members[i].optional && At(v, members[i].name).None?) || Inhabits(members[i].ty, At(v, members[i].name))
    {
      var p := schema.properties[i];
      if At(v, p.name).Some? {
        CompilationSound(doc, outside, p.schema, At(v, p.name).value, rank, limit);
      }
    }
  }

  /** The same for an endpoint's input or output, where a missing schema means no body. */
  lemma ContractSound(doc: Doc, outside: (Option<Reference>, Json) -> bool, schema: Option<Schema>, v: Maybe, rank: Ranking, limit: nat)
    requires Bounded(doc, rank, schema, limit) && (schema.Some? ==> Complete(doc, schema.value, rank, limit))
    requires if schema.None? then v.None? else v.Some? && Valid(doc, outside, schema.value, v.value, rank, limit)
    ensures Inhabits(SchemaToType(doc, schema, rank, limit), v)
  {
    if schema.Some? { CompilationSound(doc, outside, schema.value, v.value, rank, limit); }
  }

  /** ... and where the endpoint's schema is exact, its contract admits nothing else: no body without a schema, and only valid ones with it. */
  lemma ContractExact(doc: Doc, outside: (Option<Reference>, Json) -> bool, schema: Option<Schema>, v: Maybe, rank: Ranking, limit: nat)
    requires Bounded(doc, rank, schema, limit)
    requires schema.Some? ==> Complete(doc, schema.value, rank, limit) && Exact(doc, schema.value, rank, limit)
    requires Inhabits(SchemaToType(doc, schema, rank, limit), v)
    ensures if schema.None? then v.None? else v.Some? && Valid(doc, outside, schema.value, v.value, rank, limit)
  {
    if schema.Some? {
      if v.None? { NeverUndefined(doc, schema.value, rank, limit); }
      CompilationExact(doc, outside, schema.value, v.value, rank, limit);
    }
  }

  /** An object without properties is emitted as the type of all objects. */
  lemma EmptyObject(doc: Doc, schema: Schema, rank: Ranking, limit: nat)
    requires Bounded(doc, rank, Some(schema), limit) && (schema.kind == Object || schema.kind == Params)
    ensures TypeOf(doc, schema, rank, limit) == JsonObject <==> |schema.properties| == 0
  {
  }

  /** On the exact fragment the emitted type admits nothing else. */
  lemma {:induction false} CompilationExact(doc: Doc, outside: (Option<Reference>, Json) -> bool, schema: Schema, v: Json,
                                            rank: Ranking, limit: nat)
    requires Bounded(doc, rank, Some(schema), limit) && Complete(doc, schema, rank, limit)
    requires Exact(doc, schema, rank, limit)
    requires Inhabits(TypeOf(doc, schema, rank, limit), Some(v))
    ensures Valid(doc, outside, schema, v, rank, limit)
    decreases limit, schema
  {
    match schema.kind
    case Ref =>
      CompilationExact(doc, outside, ResolveRef(doc, schema.ref).value, v, rank, RankOf(rank, schema.ref.value.name));
    case Array =>
      forall i | 0 <= i < |v.items| ensures Valid(doc, outside, schema.items.value, v.items[i], rank, limit) {
        CompilationExact(doc, outside, schema.items.value, v.items[i], rank, limit);
      }
    case Object => RecordExact(doc, outside, schema, v, rank, limit);
    case Params => RecordExact(doc, outside, schema, v, rank, limit);
    case _ =>
  }

  lemma RecordExact(doc: Doc, outside: (Option<Reference>, Json) -> bool, schema: Schema, v: Json, rank: Ranking, limit: nat)
    requires Bounded(doc, rank, Some(schema), limit) && Complete(doc, schema, rank, limit)
    requires Exact(doc, schema, rank, limit) && (schema.kind == Object || schema.kind == Params)
    requires Inhabits(TypeOf(doc, schema, rank, limit), Some(v))
    ensures Valid(doc, outside, schema, v, rank, limit)
    decreases limit, schema, 0
  {
    var members := Members(doc, schema, rank, limit);
    forall i | 0 <= i < |schema.properties| && At(v, schema.properties[i].name).Some?
      ensures Valid(doc, outside, schema.properties[i].schema, At(v, schema.properties[i].name).value, rank, limit)
    {
      assert members[i].name == schema.properties[i].name;
      CompilationExact(doc, outside, schema.properties[i].schema, At(v, schema.properties[i].name).value, rank, limit);
    }
    forall name | name in schema.required ensures At(v, name).Some? {
      var i :| 0 <= i < |schema.properties| && schema.properties[i].name == name;
      assert members[i].name == name && !members[i].optional;
      NeverUndefined(doc, schema.properties[i].schema, rank, limit);
    }
  }

  /** A complete schema never compiles to a type that admits absence. */
  lemma {:induction false} NeverUndefined(doc: Doc, schema: Schema, rank: Ranking, limit: nat)
    requires Bounded(doc, rank, Some(schema), limit) && Complete(doc, schema, rank, limit)
    ensures !Inhabits(TypeOf(doc, schema, rank, limit), None)
    decreases limit, schema
  {
    if schema.kind == Ref {
      NeverUndefined(doc, ResolveRef(doc, schema.ref).value, rank, RankOf(rank, schema.ref.value.name));
    }
  }

  // ── Where it stops being so ───────────────────────────────────────

  /** A reference into another document is emitted as `undefined`: sound exactly when that reference describes no value. */
  lemma UnresolvedReference(doc: Doc, outside: (Option<Reference>, Json) -> bool, schema: Schema, rank: Ranking, limit: nat)
    requires Bounded(doc, rank, Some(schema), limit) && schema.kind == Ref && ResolveRef(doc, schema.ref).None?
    ensures (forall v :: Valid(doc, outside, schema, v, rank, limit) ==> Inhabits(TypeOf(doc, schema, rank, limit), Some(v)))
      <==> forall v :: !outside(schema.ref, v)
  {
    var ty := TypeOf(doc, schema, rank, limit);
    assert ty == Undefined;
    assert forall v :: Valid(doc, outside, schema, v, rank, limit) <==> outside(schema.ref, v);
    assert forall v :: !Inhabits(ty, Some(v));
  }

  /** An array without `items` is emitted as an array of `undefined`: of the arrays it describes, only the empty one fits. */
  lemma UntypedArray(doc: Doc, outside: (Option<Reference>, Json) -> bool, schema: Schema, rank: Ranking, limit: nat)
    requires Bounded(doc, rank, Some(schema), limit) && schema.kind == Array && schema.items.None?
    ensures forall v: Json :: Valid(doc, outside, schema, v, rank, limit) ==>
      (Inhabits(TypeOf(doc, schema, rank, limit), Some(v)) <==> v.items == [])
    ensures !forall v: Json :: Valid(doc, outside, schema, v, rank, limit) ==> Inhabits(TypeOf(doc, schema, rank, limit), Some(v))
  {
    var ty := TypeOf(doc, schema, rank, limit);
    assert ty == ArrayOf(Undefined);
    forall v: Json | v.Arr? ensures Inhabits(ty, Some(v)) <==> v.items == [] {
      if v.items != [] { assert !Inhabits(Undefined, Some(v.items[0])); }
    }
    var one := Arr([Bool(true)]);
    assert Valid(doc, outside, schema, one, rank, limit) && !Inhabits(ty, Some(one));
  }

  /** An integer is emitted as `number`, which admits exactly the further values that are not whole. */
  lemma IntegerWidened(doc: Doc, outside: (Option<Reference>, Json) -> bool, schema: Schema, rank: Ranking, limit: nat, v: Json)
    requires Bounded(doc, rank, Some(schema), limit) && schema.kind == Integer
    ensures Inhabits(TypeOf(doc, schema, rank, limit), Some(v)) && !Valid(doc, outside, schema, v, rank, limit)
      <==> v.Num? && v.n.Floor as real != v.n
  {
  }

  // ── The ranking is only a measure ─────────────────────────────────

  /** The emitted type does not depend on how the document was ranked. */
  lemma {:induction false} RankingIrrelevant(doc: Doc, s: Schema, rank: Ranking, limit: nat, rank': Ranking, limit': nat)
    requires Bounded(doc, rank, Some(s), limit) && Bounded(doc, rank', Some(s), limit')
    ensures TypeOf(doc, s, rank, limit) == TypeOf(doc, s, rank', limit')
    decreases limit, s
  {
    match s.kind
    case Ref =>
      if ResolveRef(doc, s.ref).Some? {
        RankingIrrelevant(doc, ResolveRef(doc, s.ref).value, rank, RankOf(rank, s.ref.value.name), rank', RankOf(rank', s.ref.value.name));
      }
    case Array => if s.items.Some? { RankingIrrelevant(doc, s.items.value, rank, limit, rank', limit'); }
    case Object => MembersIrrelevant(doc, s, rank, limit, rank', limit');
    case Params => MembersIrrelevant(doc, s, rank, limit, rank', limit');
    case _ =>
  }

  lemma MembersIrrelevant(doc: Doc, s: Schema, rank: Ranking, limit: nat, rank': Ranking, limit': nat)
    requires Bounded(doc, rank, Some(s), limit) && Bounded(doc, rank', Some(s), limit')
    ensures Members(doc, s, rank, limit) == Members(doc, s, rank', limit')
    decreases limit, s, 0
  {
    forall i | 0 <= i < |s.properties|
      ensures Members(doc, s, rank, limit)[i] == Members(doc, s, rank', limit')[i]
    {
      RankingIrrelevant(doc, s.properties[i].schema, rank, limit, rank', limit');
    }
  }
}
