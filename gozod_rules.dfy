// The rules of gotypes/gozod/zod_type_builder.go that do not resolve anything: which types get
// a name and a brand, the schemas of scalar kinds, the nullable wrapper of pointers, slices and
// maps, the schema a struct field gets from its tags, and the doc comment of a declaration.

module GoZodRules {
  import opened Outcomes
  import opened TsSource
  import opened GoInsp
  import opened GoZodConfig
  import Zod
  import Ts
  import Strings

  // ---------------------------------------------------------------------------------
  // References to the parts of a Go type

  /** `keyRef`: the key type as a plain reference; `Key` panics on anything but a map. */
  function KeyRef(r: Ref): (k: Outcome<Ref>)
    ensures k.Returns? <==> r.t.kind == Map && r.t.key.Some?
    ensures k.Returns? ==> k.value == PlainRef(r.t.key.value) && k.value.t < r.t
  {
    var key :- r.t.Key();
    Returns(PlainRef(key))
  }

  /** `elemRef`: the element type as a plain reference, dropping the flag of `r`. */
  function ElemRef(r: Ref): (e: Outcome<Ref>)
    ensures e.Returns? <==> r.t.kind in {Array, Chan, Map, Pointer, Slice} && r.t.elem.Some?
    ensures e.Returns? ==> e.value == PlainRef(r.t.elem.value) && e.value.t < r.t
  {
    var elem :- r.t.Elem();
    Returns(PlainRef(elem))
  }

  /** `distributeFlagsTo`: the types, each with the flag of `r`. */
  function DistributeFlagsTo(r: Ref, types: seq<GoType>): (refs: seq<Ref>)
    ensures |refs| == |types|
    ensures forall i :: 0 <= i < |types| ==> refs[i] == Ref(types[i], r.omitempty)
  {
    if |types| == 0 then [] else DistributeFlagsTo(r, types[..|types| - 1]) + [Ref(types[|types| - 1], r.omitempty)]
  }

  // ---------------------------------------------------------------------------------
  // Naming and branding

  /** `name`: the rules taken in order. An `omitempty` reference is never named; a configured
    * name wins; a type configured as unnamed or with an empty package path stays unnamed; any
    * other type is named after its Go name. */
  function Name(c: Config, ref: Ref): (r: Option<Identifier>)
    ensures ref.omitempty ==> r.None?
    ensures !ref.omitempty && LookupConfig(c.names, ref.t).Some? ==> r == LookupConfig(c.names, ref.t)
    ensures !ref.omitempty && LookupConfig(c.names, ref.t).None? ==>
      (r.None? <==> LookupConfig(c.unnamedTypes, ref.t).Some? || ref.t.pkgPath == "")
    ensures r.Some? && LookupConfig(c.names, ref.t).None? ==> r.value == ref.t.name
  {
    if ref.omitempty then None
    else match LookupConfig(c.names, ref.t)
      case Some(name) => Some(name)
      case None =>
        if LookupConfig(c.unnamedTypes, ref.t).Some? || ref.t.pkgPath == "" then None
        else Some(ref.t.name)
  }

  /** Every name comes from the configuration or from the type itself. */
  lemma NameOrigin(c: Config, ref: Ref)
    requires Name(c, ref).Some?
    ensures !ref.omitempty
    ensures LookupConfig(c.names, ref.t) == Name(c, ref) || (Name(c, ref).value == ref.t.name && ref.t.pkgPath != "")
  {
  }

  /** A configured name also names a type whose package path is empty or that is configured as
    * unnamed. */
  lemma ConfiguredNameWins(c: Config, t: GoType, name: Identifier)
    requires Concrete(t) in c.names && c.names[Concrete(t)] == name
    ensures Name(c, PlainRef(t)) == Some(name)
  {
  }

  /** A configuration entry that takes the place of the type's own schema: a schema, a union,
    * a discriminated union or a transform. */
  predicate HasOverride(c: Config, t: GoType) {
    LookupConfig(c.schemas, t).Some? || LookupConfig(c.undiscriminatedUnions, t).Some?
    || LookupConfig(c.discriminatedUnions, t).Some? || LookupConfig(c.transforms, t).Some?
  }

  /** The schema is an object once its branded, nullable and optional wrappers are peeled off
    * (the nodes `case zod.ZodBranded` matches). */
  predicate PeelsToObject(s: Zod.Schema)
    decreases s
  {
    if s.ObjectType? then true
    else if s.HasUnwrap() then PeelsToObject(s.Unwrap())
    else false
  }

  /** `shouldBrand`: no brand with an override, and none for an object under any wrappers; the
    * loop peels one wrapper at a time. */
  method ShouldBrand(c: Config, t: GoType, schema: Zod.Schema) returns (r: bool)
    ensures r <==> !HasOverride(c, t) && !PeelsToObject(schema)
  {
    if LookupConfig(c.schemas, t).Some? { return false; }
    if LookupConfig(c.undiscriminatedUnions, t).Some? { return false; }
    if LookupConfig(c.discriminatedUnions, t).Some? { return false; }
    if LookupConfig(c.transforms, t).Some? { return false; }
    var s := schema;
    while true
      invariant PeelsToObject(s) == PeelsToObject(schema)
      decreases s
    {
      if s.ObjectType? {
        return false;
      } else if s.HasUnwrap() {
        s := s.Unwrap();
      } else {
        return true;
      }
    }
  }

  /** Branding a kind that brands itself keeps whether it counts as an object, so a second
    * brand decision agrees with the first; the other kinds brand their plain node, which is
    * no object. */
  lemma {:induction false} BrandKeepsObjectness(s: Zod.Schema, brand: string)
    ensures s.BrandsItself() ==> (PeelsToObject(s.Brand(brand)) <==> PeelsToObject(s))
    ensures !s.BrandsItself() ==> !PeelsToObject(s.Brand(brand))
  {
  }

  /** `z.nullable(object)` keeps the object under the wrapper and is not branded, while
    * `object.nullable()` and `object.optional()` wrap the plain node and are. */
  lemma NullableObjectPeels()
    ensures PeelsToObject(Zod.NullableOf(Zod.Object([])))
    ensures !PeelsToObject(Zod.Object([]).Nullable())
    ensures !PeelsToObject(Zod.Object([]).Optional())
  {
  }

  // ---------------------------------------------------------------------------------
  // Kinds

  predicate IsSignedKind(k: Kind) {
    k in {Int, Int8, Int16, Int32, Int64}
  }

  predicate IsUnsignedKind(k: Kind) {
    k in {Uint, Uint8, Uint16, Uint32, Uint64, Uintptr}
  }

  predicate IsFloatKind(k: Kind) {
    k in {Float32, Float64}
  }

  predicate IsScalarKind(k: Kind) {
    k == Bool || IsSignedKind(k) || IsUnsignedKind(k) || IsFloatKind(k)
  }

  /** The schemas of the scalar kinds: `bool` is `z.boolean()`, signed integers are
    * `z.number().int()`, unsigned integers `z.number().nonnegative().int()` and floats
    * `z.number()`. */
  function ScalarSchema(k: Kind): (r: Zod.Schema)
    requires IsScalarKind(k)
    ensures k == Bool ==> r == Zod.Boolean()
    ensures IsSignedKind(k) ==> r.NumberType? && r.isInt && !r.nonNegative
    ensures IsUnsignedKind(k) ==> r.NumberType? && r.isInt && r.nonNegative
    ensures IsFloatKind(k) ==> r == Zod.Number()
  {
    if k == Bool then Zod.Boolean()
    else if IsSignedKind(k) then Zod.Number().Int()
    else if IsUnsignedKind(k) then Zod.Number().NonNegative().Int()
    else Zod.Number()
  }

  /** The integer schemas render their refinements in the order the code calls them. */
  lemma ScalarSources(k: Kind)
    requires IsScalarKind(k)
    ensures IsSignedKind(k) ==> ScalarSchema(k).source == Ts.InvokeMethod(Zod.Number().source, "int", [])
    ensures IsUnsignedKind(k) ==> ScalarSchema(k).source == Ts.InvokeMethod(Zod.Number().NonNegative().source, "int", [])
  {
  }

  /** The first type that is not a pointer, following `Elem` from `t`. */
  function PointerBase(t: GoType): (r: Outcome<GoType>)
    ensures r.Returns? ==> r.value.kind != Pointer
    decreases t
  {
    if t.kind == Pointer then
      var e :- t.Elem();
      PointerBase(e)
    else Returns(t)
  }

  /** `kindSupportsJSONStringFlag`: pointers ask their element; scalars and strings support the
    * flag, the other kinds do not, and an invalid type panics. */
  function KindSupportsJSONStringFlag(t: GoType): (r: Outcome<bool>)
    ensures !r.Diverges?
    ensures r.Returns? <==> PointerBase(t).Returns? && PointerBase(t).value.kind != Invalid
    ensures r.Returns? ==> r.value == (IsScalarKind(PointerBase(t).value.kind) || PointerBase(t).value.kind == String)
    decreases t
  {
    match t.kind
    case Pointer =>
      var e :- t.Elem();
      KindSupportsJSONStringFlag(e)
    case String => Returns(true)
    case Invalid => Panics("kindSupportsJSONStringFlag of an invalid type")
    case _ => Returns(IsScalarKind(t.kind))
  }

  // ---------------------------------------------------------------------------------
  // Nil values

  /** `schemaForNilableType`: a nil pointer, slice or map is `null` in JSON, so the schema is
    * made nullable, unless the field is `omitempty`. */
  function SchemaForNilableType(ref: Ref, schema: Zod.Schema): (r: Zod.Schema)
    ensures ref.omitempty ==> r == schema
    ensures !ref.omitempty ==> r.NullableType? && (schema.NullableType? ==> r == schema)
    ensures !ref.omitempty && !schema.NullableType? ==> r == schema.Nullable()
  {
    if ref.omitempty then schema else Zod.EnsureNullable(schema)
  }

  /** Applying the wrapper twice, as a pointer to a pointer does, gives a single `.nullable()`. */
  lemma NilableTwice(ref: Ref, schema: Zod.Schema)
    ensures SchemaForNilableType(ref, SchemaForNilableType(ref, schema)) == SchemaForNilableType(ref, schema)
  {
  }

  /** A `Transformf` whose format has no placeholder and no arguments: a plain transform. */
  function TransformText(s: Zod.Schema, format: string): (r: Zod.Schema)
    requires '%' !in format
    ensures s.Transformf(format, []) == Returns(r)
    ensures r == Zod.AnyType(Ts.InvokeMethod(s.source, "transform", [Text(format)]))
  {
    Strings.CountNone(format, Placeholder);
    s.Transform(Text(format))
  }

  /** Whether a slice with this element type is a base64 string in JSON: bytes that marshal
    * themselves neither as JSON nor as text. */
  predicate IsBase64Element(elem: GoType) {
    elem.kind == Uint8 && !elem.Implements(JSONMarshaler) && !elem.Implements(TextMarshaler)
  }

  /** The slice schema from its element schema (unused for base64 slices): the nullable wrapper,
    * then the transform that turns `null` into the empty value. */
  function SliceSchema(ref: Ref, base64: bool, elemSchema: Zod.Schema): (r: Zod.Schema)
    ensures r.AnyType?
    ensures base64 ==> r == TransformText(SchemaForNilableType(ref, Zod.String()), "a => a ?? \"\"")
    ensures !base64 ==> r == TransformText(SchemaForNilableType(ref, Zod.Array(elemSchema)), "a => a ?? []")
  {
    if base64 then TransformText(SchemaForNilableType(ref, Zod.String()), "a => a ?? \"\"")
    else TransformText(SchemaForNilableType(ref, Zod.Array(elemSchema)), "a => a ?? []")
  }

  /** The map schema: a record, the nullable wrapper, then `r => r ?? {}`. */
  function MapSchema(ref: Ref, keySchema: Zod.Schema, elemSchema: Zod.Schema): (r: Zod.Schema)
    ensures r.AnyType?
    ensures r == TransformText(SchemaForNilableType(ref, Zod.Record(keySchema, elemSchema)), "r => r ?? {}")
  {
    TransformText(SchemaForNilableType(ref, Zod.Record(keySchema, elemSchema)), "r => r ?? {}")
  }

  /** The transform comes even with `omitempty`; only the nullable wrapper is left off. */
  lemma OmitemptyKeepsTransform(t: GoType, base64: bool, elemSchema: Zod.Schema)
    ensures SliceSchema(Ref(t, true), base64, elemSchema).source ==
      Ts.InvokeMethod((if base64 then Zod.String() else Zod.Array(elemSchema)).source, "transform", [Text(if base64 then "a => a ?? \"\"" else "a => a ?? []")])
    ensures SliceSchema(Ref(t, false), base64, elemSchema).source ==
      Ts.InvokeMethod(Ts.InvokeMethod((if base64 then Zod.String() else Zod.Array(elemSchema)).source, "nullable", []), "transform", [Text(if base64 then "a => a ?? \"\"" else "a => a ?? []")])
  {
  }

  // ---------------------------------------------------------------------------------
  // Field schemas

  /** `z.string().transform(s => JSON.parse(s)).pipe(inner)`. */
  function JSONParsePipe(inner: Zod.Schema): (r: Zod.Schema)
    ensures r.AnyType?
    ensures r == TransformText(Zod.String(), "s => JSON.parse(s)").Pipe(inner)
  {
    TransformText(Zod.String(), "s => JSON.parse(s)").Pipe(inner)
  }

  /** The `string` JSON flag: the value is a JSON text inside a string, so the string is parsed
    * and piped into the schema without its nullable layers, which are put back around the
    * pipe. */
  function StringFlagged(schema: Zod.Schema): (r: Zod.Schema)
    ensures r.NullableType? <==> schema.NullableType?
    ensures !schema.NullableType? ==> r == JSONParsePipe(schema)
    ensures schema.NullableType? ==> r == JSONParsePipe(Zod.StripNullable(schema).0).Nullable()
  {
    var (inner, needsNullable) := Zod.StripNullable(schema);
    var piped := JSONParsePipe(inner);
    if needsNullable then Zod.EnsureNullable(piped) else piped
  }

  /** What `resolveFieldSchema` does with the resolved schema: the `string` flag (when the
    * kind supports it), then `gotypes:",nullable"`, then `.optional()` for `omitempty`. */
  function FieldSchema(resolved: Zod.Schema, stringified: bool, nullable: bool, omitempty: bool): (r: Zod.Schema)
    ensures omitempty ==> r.OptionalType? && r.source == Ts.InvokeMethod(FieldSchema(resolved, stringified, nullable, false).source, "optional", [])
    ensures !omitempty && nullable ==> r.NullableType?
    ensures !omitempty && stringified && !nullable ==> r == StringFlagged(resolved)
    ensures !omitempty && !stringified && !nullable ==> r == resolved
  {
    var s1 := if stringified then StringFlagged(resolved) else resolved;
    var s2 := if nullable then Zod.EnsureNullable(s1) else s1;
    if omitempty then s2.Optional() else s2
  }

  /** `omitempty` ends the field schema in `.optional()`, after any `.nullable()`. */
  lemma OmitemptyAfterNullable(resolved: Zod.Schema, stringified: bool)
    ensures FieldSchema(resolved, stringified, true, true).wrapped == FieldSchema(resolved, stringified, true, false).Plain()
    ensures FieldSchema(resolved, stringified, true, false).NullableType?
  {
  }

  /** A nullable schema stays nullable under the `string` flag, without a second layer. */
  lemma StringFlagKeepsOneNullable(resolved: Zod.Schema)
    requires resolved.NullableType?
    ensures FieldSchema(resolved, true, true, false) == FieldSchema(resolved, true, false, false)
  {
  }

  // ---------------------------------------------------------------------------------
  // Declarations

  /** `Ref.String`. */
  function RefString(ref: Ref): (r: string)
    ensures !ref.omitempty ==> r == ref.t.str
    ensures ref.omitempty ==> r == ref.t.str + " (with the JSON omitempty flag)"
  {
    ref.t.str + (if ref.omitempty then " (with the JSON omitempty flag)" else "")
  }

  /** `%#v` of a string: in double quotes, with `"` and `\` escaped. */
  function GoQuote(s: string): (r: string)
    ensures '"' !in s && '\\' !in s ==> r == "\"" + s + "\""
  {
    "\"" + Strings.ReplaceChar(Strings.ReplaceChar(s, '\\', "\\\\"), '"', "\\\"") + "\""
  }

  /** The sentence of the doc comment `Build` gives every declaration. */
  function DeclarationHead(name: Identifier, ref: Ref): (r: string)
    ensures |r| >= |name| + 2 && r[..|name|] == name && r[|r| - 2..] == ".\n"
  {
    name + " corresponds to Go type " + RefString(ref) + " (in package " + GoQuote(ref.t.pkgPath) + ").\n"
  }

  /** The doc comment of a declaration: the sentence, then the Go doc comment if the type has
    * one, introduced by a line of its own. */
  function DeclarationComment(name: Identifier, ref: Ref, goComment: string): (r: string)
    ensures goComment == "" ==> r == DeclarationHead(name, ref)
    ensures goComment != "" ==> r == DeclarationHead(name, ref) + "The comment on the original Go type follows.\n\n" + goComment
  {
    var head := DeclarationHead(name, ref);
    if goComment != "" then head + "The comment on the original Go type follows.\n\n" + goComment else head
  }
}
