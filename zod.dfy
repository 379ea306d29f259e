// The Zod schema values of gotypes/zod: each node carries the TypeScript source that builds
// it, and some kinds carry more (the number flags, the object shape, the value a wrapper
// wraps). Go struct embedding decides which kind each operation returns: `Nullable`,
// `Optional`, `Pipe`, `Transform` and `Parse` are inherited from the plain node `zodAnyType`
// and so act on the plain node underneath, while `Brand` and `DeclaredAs` are redefined by
// some kinds and keep them.

module Zod {
  import opened Outcomes
  import opened TsSource
  import Strings
  import Ts
  import UtilSlices

  /** One node of each Go struct type of the package. All of them embed a `zodAnyType`, whose
    * source is `source`. */
  datatype Schema =
    | AnyType(source: Source)
    | NumberType(source: Source, isInt: bool, nonNegative: bool)
    | StringType(source: Source)
    | ArrayType(source: Source)
    | ObjectType(source: Source, shape: seq<ShapeProperty>)
    | BrandedType(source: Source, wrapped: Schema, brand: string)
    | NullableType(source: Source, wrapped: Schema)
    | OptionalType(source: Source, wrapped: Schema)
  {
    /** The embedded `zodAnyType`: the same source, as a plain node. */
    function Plain(): (r: Schema)
      ensures r.AnyType? && r.source == source
    {
      AnyType(source)
    }

    function TypeScript(): (r: Source)
      ensures r == Plain().source
    {
      source
    }

    /** `chain(name, args...)`: a method call on the source, as a plain node. */
    function Chain(name: Identifier, args: seq<Source>): (r: Schema)
      ensures r.AnyType? && r.source == Ts.InvokeMethod(source, name, args)
    {
      AnyType(Ts.InvokeMethod(source, name, args))
    }

    /** The kinds that redefine `Brand` to brand themselves rather than their plain node. */
    predicate BrandsItself() {
      NumberType? || ArrayType? || ObjectType? || BrandedType?
    }

    /** `Brand(brand)` through `chainBrand`: `.brand("<brand>")`, and the branded value is the
      * node itself for numbers, arrays, objects and branded nodes, and the plain node for
      * the kinds that inherit `Brand` from `zodAnyType`. */
    function Brand(brand: string): (r: Schema)
      ensures r.BrandedType? && r.brand == brand
      ensures r.source == Ts.InvokeMethod(source, "brand", [Ts.StringLiteral(brand)])
      ensures BrandsItself() ==> r.wrapped == this
      ensures !BrandsItself() ==> r.wrapped == Plain()
    {
      ChainBrand(if BrandsItself() then this else Plain(), brand)
    }

    /** `Nullable()`, inherited by every kind: `.nullable()` around the plain node. */
    function Nullable(): (r: Schema)
      ensures r.NullableType? && r.wrapped == Plain()
      ensures r.source == Ts.InvokeMethod(source, "nullable", [])
    {
      NullableType(Plain().Chain("nullable", []).source, Plain())
    }

    /** `Optional()`, inherited by every kind: `.optional()` around the plain node. */
    function Optional(): (r: Schema)
      ensures r.OptionalType? && r.wrapped == Plain()
      ensures r.source == Ts.InvokeMethod(source, "optional", [])
    {
      OptionalType(Plain().Chain("optional", []).source, Plain())
    }

    /** `Parse(str)`: the source `<schema>.parse(<str>)`. */
    function Parse(str: Source): (r: Source)
      ensures r == Ts.InvokeMethod(source, "parse", [str])
    {
      Ts.InvokeMethod(source, "parse", [str])
    }

    /** `Parsef(format, a...)`: panics as `Sourcef` does on a wrong number of arguments. */
    function Parsef(format: string, args: seq<Source>): (r: Outcome<Source>)
      ensures r.Panics? <==> Ts.Sourcef(format, args).Panics?
      ensures r.Returns? ==> r.value == Parse(Ts.Fmt(format, args))
      ensures !r.Diverges?
    {
      match Ts.Sourcef(format, args)
      case Returns(s) => Returns(Parse(s))
      case Panics(m) => Panics(m)
      case Diverges => Diverges
    }

    /** `Pipe(target)`: a plain node. */
    function Pipe(target: Schema): (r: Schema)
      ensures r == AnyType(Ts.InvokeMethod(source, "pipe", [target.source]))
    {
      Chain("pipe", [target.TypeScript()])
    }

    /** `Transform(transform)`: a plain node. */
    function Transform(transform: Source): (r: Schema)
      ensures r == AnyType(Ts.InvokeMethod(source, "transform", [transform]))
    {
      Chain("transform", [transform])
    }

    function Transformf(format: string, args: seq<Source>): (r: Outcome<Schema>)
      ensures r.Panics? <==> Ts.Sourcef(format, args).Panics?
      ensures r.Returns? ==> r.value == Transform(Ts.Fmt(format, args))
      ensures !r.Diverges?
    {
      match Ts.Sourcef(format, args)
      case Returns(s) => Returns(Transform(s))
      case Panics(m) => Panics(m)
      case Diverges => Diverges
    }

    /** `DeclaredAs(name)`: the node renders as `name` and keeps its kind's data; nullable,
      * optional and plain nodes become a plain node. */
    function DeclaredAs(name: Identifier): (r: Schema)
      ensures r.source == (if BrandedType? then wrapped.DeclaredAs(name).source else Text(name))
      ensures NumberType? ==> r == NumberType(Text(name), isInt, nonNegative)
      ensures StringType? ==> r == StringType(Text(name))
      ensures ArrayType? ==> r == ArrayType(Text(name))
      ensures ObjectType? ==> r == ObjectType(Text(name), shape)
      ensures BrandedType? ==> r == BrandedType(wrapped.DeclaredAs(name).source, wrapped.DeclaredAs(name), brand)
      ensures AnyType? || NullableType? || OptionalType? ==> r == AnyType(Text(name))
      decreases this
    {
      match this
      case NumberType(_, i, n) => NumberType(Text(name), i, n)
      case StringType(_) => StringType(Text(name))
      case ArrayType(_) => ArrayType(Text(name))
      case ObjectType(_, sh) => ObjectType(Text(name), sh)
      case BrandedType(_, w, b) =>
        var d := w.DeclaredAs(name);
        BrandedType(d.TypeScript(), d, b)
      case _ => AnyType(Text(name))
    }

    // ZodNumber

    /** `Int()`: `.int()`, setting the int flag and keeping the other. */
    function Int(): (r: Schema)
      requires NumberType?
      ensures r.NumberType? && r.isInt && r.nonNegative == nonNegative
      ensures r.source == Ts.InvokeMethod(source, "int", [])
    {
      NumberType(Chain("int", []).source, true, nonNegative)
    }

    /** `NonNegative()`: `.nonnegative()`, setting the non-negative flag and keeping the other. */
    function NonNegative(): (r: Schema)
      requires NumberType?
      ensures r.NumberType? && r.nonNegative && r.isInt == isInt
      ensures r.source == Ts.InvokeMethod(source, "nonnegative", [])
    {
      NumberType(Chain("nonnegative", []).source, isInt, true)
    }

    function IsInt(): (r: bool)
      requires NumberType?
      ensures r == isInt
    {
      isInt
    }

    function IsNonNegative(): (r: bool)
      requires NumberType?
      ensures r == nonNegative
    {
      nonNegative
    }

    // ZodArray

    /** `Length(len)`: `.length(<len>)`, still an array. */
    function Length(len: nat): (r: Schema)
      requires ArrayType?
      ensures r.ArrayType? && r.source == Ts.InvokeMethod(source, "length", [Ts.NumberLiteral(len)])
    {
      ArrayType(Chain("length", [Ts.NumberLiteral(len)]).source)
    }

    // ZodString

    /** `UUID()`: `.uuid()`, still a string. */
    function UUID(): (r: Schema)
      requires StringType?
      ensures r.StringType? && r.source == Ts.InvokeMethod(source, "uuid", [])
    {
      StringType(Chain("uuid", []).source)
    }

    // ZodObject

    /** `Extend(shape...)`: `.extend({...})`, and the shape grows by the new properties. */
    function Extend(props: seq<ShapeProperty>): (r: Schema)
      requires ObjectType?
      ensures r.ObjectType? && r.shape == shape + props
      ensures r.source == Ts.InvokeMethod(source, "extend", [ShapeTypeScript(props)])
    {
      ObjectType(Chain("extend", [ShapeTypeScript(props)]).source, shape + props)
    }

    /** `Merge(schema)`: `.merge(<schema>)`, and the shape grows by the other object's shape. */
    function Merge(other: Schema): (r: Schema)
      requires ObjectType? && other.ObjectType?
      ensures r.ObjectType? && r.shape == shape + other.shape
      ensures r.source == Ts.InvokeMethod(source, "merge", [other.source])
    {
      ObjectType(Chain("merge", [other.TypeScript()]).source, shape + other.Shape())
    }

    function Shape(): (r: seq<ShapeProperty>)
      requires ObjectType?
      ensures r == shape
    {
      shape
    }

    // ZodBranded, ZodNullable and ZodOptional

    /** The nodes with an `Unwrap` method. The three interfaces have the same method set, so
      * a Go type switch's `case zod.ZodBranded` matches every one of them. */
    predicate HasUnwrap() {
      BrandedType? || NullableType? || OptionalType?
    }

    function Unwrap(): (r: Schema)
      requires BrandedType? || NullableType? || OptionalType?
      ensures r == wrapped && r < this
    {
      wrapped
    }
  }

  /** `ShapeProperty`: a property name and its schema. */
  datatype ShapeProperty = ShapeProperty(name: string, schema: Schema)

  /** `chainBrand(t, brand)`: `.brand("<brand>")` on `t`, wrapping `t`. */
  function ChainBrand(t: Schema, brand: string): (r: Schema)
    ensures r == BrandedType(Ts.InvokeMethod(t.source, "brand", [Ts.StringLiteral(brand)]), t, brand)
  {
    BrandedType(Ts.InvokeMethod(t.TypeScript(), "brand", [Ts.StringLiteral(brand)]), t, brand)
  }

  function ShapePropertySource(p: ShapeProperty): Ts.Property {
    Ts.Property(p.name, p.schema.TypeScript())
  }

  /** `shapeTypeScript(shape)`: an object literal with one `name: schema` per property, in order. */
  function ShapeTypeScript(shape: seq<ShapeProperty>): (r: Source)
    ensures r.Group? && r.style == ObjectStyle && |r.elements| == |shape|
    ensures forall i :: 0 <= i < |shape| ==> r.elements[i] == Ts.Property(shape[i].name, shape[i].schema.source).AsSource()
  {
    Ts.Object(UtilSlices.MapSeq(shape, ShapePropertySource))
  }

  /** The `z` of every schema, imported from "zod". */
  const Z: Source := Ts.ImportedName("zod", "z")

  /** `zTypeFunc(name, args...)`: `z.<name>(<args>)` as a plain node. */
  function ZTypeFunc(name: Identifier, args: seq<Source>): (r: Schema)
    ensures r == AnyType(Z).Chain(name, args)
  {
    AnyType(Ts.InvokeMethod(Z, name, args))
  }

  function Any(): (r: Schema)
    ensures r == ZTypeFunc("any", [])
  {
    ZTypeFunc("any", [])
  }

  /** `Array(schema)`: `z.array(<schema>)`, an array node. */
  function Array(schema: Schema): (r: Schema)
    ensures r == ArrayType(ZTypeFunc("array", [schema.source]).source)
  {
    ArrayType(ZTypeFunc("array", [schema.TypeScript()]).source)
  }

  function Boolean(): (r: Schema)
    ensures r == ZTypeFunc("boolean", [])
  {
    ZTypeFunc("boolean", [])
  }

  /** `Literal(value)`: `z.literal("<value>")`. */
  function Literal(value: string): (r: Schema)
    ensures r == ZTypeFunc("literal", [Ts.StringLiteral(value)])
  {
    ZTypeFunc("literal", [Ts.StringLiteral(value)])
  }

  /** `zod.Nullable(t)`: `z.nullable(<t>)`, wrapping `t` itself. */
  function NullableOf(t: Schema): (r: Schema)
    ensures r.NullableType? && r.wrapped == t
    ensures r.source == ZTypeFunc("nullable", [t.source]).source
  {
    NullableType(ZTypeFunc("nullable", [t.TypeScript()]).source, t)
  }

  /** `EnsureNullable(t)`: `t` if it is a nullable node, else `t.Nullable()`. */
  function EnsureNullable(t: Schema): (r: Schema)
    ensures r.NullableType?
    ensures t.NullableType? ==> r == t
    ensures !t.NullableType? ==> r == t.Nullable()
  {
    if t.NullableType? then t else t.Nullable()
  }

  /** `Enum(values...)`: `z.enum([...])` of the values as string literals. */
  function Enum(values: seq<string>): (r: Schema)
    ensures r == ZTypeFunc("enum", [Ts.Array(UtilSlices.MapSeq(values, Ts.StringLiteral))])
  {
    ZTypeFunc("enum", [Ts.Array(UtilSlices.MapSeq(values, Ts.StringLiteral))])
  }

  /** `StripNullable(t)`: every nullable layer removed, and whether there was one. */
  function StripNullable(t: Schema): (r: (Schema, bool))
    ensures !r.0.NullableType?
    ensures r.1 <==> t.NullableType?
    ensures !t.NullableType? ==> r.0 == t
    ensures t.NullableType? ==> r.0 == StripNullable(t.wrapped).0
    decreases t
  {
    if t.NullableType? then (StripNullable(t.Unwrap()).0, true) else (t, false)
  }

  /** `Number()`: `z.number()` with neither flag set. */
  function Number(): (r: Schema)
    ensures r.NumberType? && !r.isInt && !r.nonNegative
    ensures r.source == ZTypeFunc("number", []).source
  {
    NumberType(ZTypeFunc("number", []).source, false, false)
  }

  /** `Object(shape...)`: `z.object({...})`, keeping the shape in argument order. */
  function Object(shape: seq<ShapeProperty>): (r: Schema)
    ensures r.ObjectType? && r.shape == shape
    ensures r.source == ZTypeFunc("object", [ShapeTypeScript(shape)]).source
  {
    ObjectType(ZTypeFunc("object", [ShapeTypeScript(shape)]).source, shape)
  }

  /** `Record(keySchema, valueType)`: `z.record(<key>, <value>)`, an array node in the code. */
  function Record(keySchema: Schema, valueType: Schema): (r: Schema)
    ensures r.ArrayType? && r.source == ZTypeFunc("record", [keySchema.source, valueType.source]).source
  {
    ArrayType(ZTypeFunc("record", [keySchema.TypeScript(), valueType.TypeScript()]).source)
  }

  function String(): (r: Schema)
    ensures r.StringType? && r.source == ZTypeFunc("string", []).source
  {
    StringType(ZTypeFunc("string", []).source)
  }

  function SchemaSource(t: Schema): Source {
    t.TypeScript()
  }

  /** The sources of the members of a union, in order. */
  function UnionMembers(types: seq<Schema>): (r: seq<Source>)
    ensures |r| == |types| && forall i :: 0 <= i < |types| ==> r[i] == types[i].source
  {
    UtilSlices.MapSeq(types, SchemaSource)
  }

  /** `Union(types...)`: `z.union([...])` of the members in argument order. */
  function Union(types: seq<Schema>): (r: Schema)
    ensures r == ZTypeFunc("union", [Ts.Array(UnionMembers(types))])
  {
    ZTypeFunc("union", [Ts.Array(UnionMembers(types))])
  }

  /** `DiscriminatedUnion(discriminator, types...)`: the discriminator as a string literal,
    * then the members as an array. */
  function DiscriminatedUnion(discriminator: string, types: seq<Schema>): (r: Schema)
    ensures r == ZTypeFunc("discriminatedUnion", [Ts.StringLiteral(discriminator), Ts.Array(UnionMembers(types))])
  {
    ZTypeFunc("discriminatedUnion", [Ts.StringLiteral(discriminator), Ts.Array(UnionMembers(types))])
  }

  /** `ZodTypeExpr(expr)`: any source as a plain node. */
  function ZodTypeExpr(expr: Source): (r: Schema)
    ensures r.AnyType? && r.TypeScript() == expr
  {
    AnyType(expr)
  }

  /** `SchemaAndTypeDeclaration`: a commented, named schema. */
  datatype SchemaAndTypeDeclaration = SchemaAndTypeDeclaration(comment: string, identifier: Identifier, schema: Schema)
  {
    function Identifier(): (r: Identifier)
      ensures r == identifier
    {
      identifier
    }

    /** The doc comment, `export const N = S;` and `export type N = z.infer<typeof N>;`. */
    function TypeScript(): (r: Source)
      ensures r == Ts.Statements([Ts.DocComment(comment), ConstStatement(identifier, schema.source), TypeStatement(identifier)])
    {
      Ts.Statements([Ts.DocComment(comment), ConstStatement(identifier, schema.TypeScript()), TypeStatement(identifier)])
    }
  }

  const ConstFormat := "export const " + Placeholder + " = " + Placeholder + ";"
  const TypeFormat := "export type " + Placeholder + " = " + Placeholder + ".infer<typeof " + Placeholder + ">;"

  /** `Sourcef("export const %s = %s;", identifier, schema)`. */
  function ConstStatement(identifier: Identifier, schema: Source): (r: Source)
    ensures r == Group(Format(ConstFormat), [Text(identifier), schema])
  {
    Ts.Fmt(ConstFormat, [Text(identifier), schema])
  }

  /** `Sourcef("export type %s = %s.infer<typeof %s>;", identifier, z, identifier)`. */
  function TypeStatement(identifier: Identifier): (r: Source)
    ensures r == Group(Format(TypeFormat), [Text(identifier), Z, Text(identifier)])
  {
    Ts.Fmt(TypeFormat, [Text(identifier), Z, Text(identifier)])
  }

  lemma CountPlaceholders2(a: string, b: string, c: string)
    requires '%' !in a && '%' !in b && '%' !in c
    ensures Strings.Count(a + Placeholder + b + Placeholder + c, Placeholder) == 2
  {
    assert a + Placeholder + b + Placeholder + c == a + Placeholder + (b + Placeholder + c);
    Strings.CountCons(a, Placeholder, b + Placeholder + c);
    Strings.CountCons(b, Placeholder, c);
    Strings.CountNone(c, Placeholder);
  }

  lemma CountPlaceholders3(a: string, b: string, c: string, d: string)
    requires '%' !in a && '%' !in b && '%' !in c && '%' !in d
    ensures Strings.Count(a + Placeholder + b + Placeholder + c + Placeholder + d, Placeholder) == 3
  {
    assert a + Placeholder + b + Placeholder + c + Placeholder + d == a + Placeholder + (b + Placeholder + c + Placeholder + d);
    Strings.CountCons(a, Placeholder, b + Placeholder + c + Placeholder + d);
    CountPlaceholders2(b, c, d);
  }

  /** The constant declaration has its two placeholders, so its `Sourcef` does not panic. */
  lemma ConstStatementSourcef(identifier: Identifier, schema: Source)
    ensures Ts.Sourcef(ConstFormat, [Text(identifier), schema]) == Returns(ConstStatement(identifier, schema))
  {
    CountPlaceholders2("export const ", " = ", ";");
  }

  /** The type declaration has its three placeholders, so its `Sourcef` does not panic. */
  lemma TypeStatementSourcef(identifier: Identifier)
    ensures Ts.Sourcef(TypeFormat, [Text(identifier), Z, Text(identifier)]) == Returns(TypeStatement(identifier))
  {
    CountPlaceholders3("export type ", " = ", ".infer<typeof ", ">;");
  }

  function NewSchemaAndTypeDeclaration(comment: string, name: Identifier, schema: Schema): (r: SchemaAndTypeDeclaration)
    ensures r.comment == comment && r.Identifier() == name && r.schema == schema
  {
    SchemaAndTypeDeclaration(comment, name, schema)
  }
}
