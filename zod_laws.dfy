// What the Zod schema values promise: how the nullable helpers relate, what `DeclaredAs`
// keeps, how shapes grow, and the TypeScript each schema of gotypes/zod/zod_test.go renders to.

module ZodLaws {
  import opened Strings
  import opened TsSource
  import opened TsLayout
  import Ts
  import Zod

  // ---------------------------------------------------------------------------------
  // Nullability

  /** `EnsureNullable` is idempotent, and it leaves nullable schemas alone. */
  lemma EnsureNullableIdempotent(t: Zod.Schema)
    ensures Zod.EnsureNullable(Zod.EnsureNullable(t)) == Zod.EnsureNullable(t)
    ensures Zod.EnsureNullable(Zod.NullableOf(t)) == Zod.NullableOf(t)
  {
  }

  /** `Nullable` always adds a layer, even on a nullable schema, and the layer wraps the
    * plain node: the kind of the schema underneath is lost. */
  lemma NullableAddsLayer(t: Zod.Schema)
    ensures t.Nullable().Unwrap() == t.Plain()
    ensures t.Nullable().Nullable().Unwrap().source == t.Nullable().source
    ensures Zod.NullableOf(t).Unwrap() == t
  {
  }

  /** Stripping twice strips nothing more, and the second strip finds no nullable layer. */
  lemma StripNullableIdempotent(t: Zod.Schema)
    ensures Zod.StripNullable(Zod.StripNullable(t).0) == (Zod.StripNullable(t).0, false)
  {
  }

  /** Stripping after `EnsureNullable` reports a nullable layer; it gives back the stripped
    * schema when `t` was nullable and the plain node of `t` otherwise. */
  lemma StripEnsureNullable(t: Zod.Schema)
    ensures Zod.StripNullable(Zod.EnsureNullable(t)).1
    ensures t.NullableType? ==> Zod.StripNullable(Zod.EnsureNullable(t)).0 == Zod.StripNullable(t).0
    ensures !t.NullableType? ==> Zod.StripNullable(Zod.EnsureNullable(t)).0 == t.Plain()
  {
  }

  /** The nullable layers at the top of a schema. */
  function NullableDepth(t: Zod.Schema): nat
    decreases t
  {
    if t.NullableType? then 1 + NullableDepth(t.wrapped) else 0
  }

  function NullableLayers(t: Zod.Schema, n: nat): Zod.Schema {
    if n == 0 then t else Zod.NullableOf(NullableLayers(t, n - 1))
  }

  /** `StripNullable` removes every nullable layer `zod.Nullable` adds, however many. */
  lemma {:induction false} StripNullableLayers(t: Zod.Schema, n: nat)
    requires !t.NullableType?
    ensures NullableDepth(NullableLayers(t, n)) == n
    ensures Zod.StripNullable(NullableLayers(t, n)) == (t, n > 0)
  {
    if n > 0 {
      StripNullableLayers(t, n - 1);
    }
  }

  // ---------------------------------------------------------------------------------
  // Declarations, brands and shapes

  /** A declared schema renders as the name it was declared as, through any brands. */
  lemma {:induction false} DeclaredAsRendersName(t: Zod.Schema, name: Identifier)
    ensures t.DeclaredAs(name).TypeScript() == Text(name)
    decreases t
  {
    if t.BrandedType? {
      DeclaredAsRendersName(t.wrapped, name);
    }
  }

  /** The brands on top of a schema, outermost first. */
  function Brands(t: Zod.Schema): seq<string>
    decreases t
  {
    if t.BrandedType? then [t.brand] + Brands(t.wrapped) else []
  }

  /** The kind a declared schema keeps: numbers, strings, arrays and objects stay, everything
    * else but a brand becomes a plain node. */
  function Kind(t: Zod.Schema): nat
    decreases t
  {
    match t
    case AnyType(_) => 0
    case NumberType(_, _, _) => 1
    case StringType(_) => 2
    case ArrayType(_) => 3
    case ObjectType(_, _) => 4
    case BrandedType(_, w, _) => Kind(w)
    case NullableType(_, _) => 0
    case OptionalType(_, _) => 0
  }

  /** `DeclaredAs` keeps the brands and the kind underneath them. */
  lemma {:induction false} DeclaredAsKeepsBrandsAndKind(t: Zod.Schema, name: Identifier)
    ensures Brands(t.DeclaredAs(name)) == Brands(t)
    ensures Kind(t.DeclaredAs(name)) == Kind(t)
    decreases t
  {
    if t.BrandedType? {
      DeclaredAsKeepsBrandsAndKind(t.wrapped, name);
    }
  }

  /** Branding puts the brand on top of the kinds that brand themselves, and replaces the
    * brands with this one otherwise. */
  lemma BrandOnTop(t: Zod.Schema, brand: string)
    ensures t.BrandsItself() ==> Brands(t.Brand(brand)) == [brand] + Brands(t)
    ensures !t.BrandsItself() ==> Brands(t.Brand(brand)) == [brand]
  {
  }

  /** Extending in two steps is extending once by both, and merging is extending by the
    * other object's shape. */
  lemma ShapeGrowth(o: Zod.Schema, a: seq<Zod.ShapeProperty>, b: seq<Zod.ShapeProperty>, other: Zod.Schema)
    requires o.ObjectType? && other.ObjectType?
    ensures o.Extend(a).Extend(b).Shape() == o.Extend(a + b).Shape()
    ensures o.Merge(other).Shape() == o.Extend(other.Shape()).Shape()
    ensures Zod.Object(a).Extend(b).Shape() == Zod.Object(a + b).Shape()
  {
    assert (o.shape + a) + b == o.shape + (a + b);
  }

  /** The number refinements set their own flag and keep the other, in either order. */
  lemma NumberFlags(t: Zod.Schema)
    requires t.NumberType?
    ensures t.Int().NonNegative().IsInt() && t.Int().NonNegative().IsNonNegative()
    ensures t.NonNegative().Int().IsInt() && t.NonNegative().Int().IsNonNegative()
    ensures Zod.Number().Int().IsNonNegative() == false
    ensures t.DeclaredAs("n").IsInt() == t.IsInt()
  {
  }

  // ---------------------------------------------------------------------------------
  // Layout of schema sources

  const ZImport := Import("zod", "z")

  /** The import statement the tests expect before every schema. */
  const ZImportLine := "import { z } from \"zod\";"

  predicate Inline(s: Source) {
    Printable(s) && !IsBlock(s)
  }

  /** Every schema renders with the import of `z` and a blank line before its code. */
  lemma RenderZod(s: Source)
    requires Inline(s) && ImportsOf(s) == {ZImport}
    ensures Render(s) == ZImportLine + "\n\n" + Layout("", s)
  {
    RenderLayout(s);
    SingleImportHeader(ZImport);
    assert QuotedText("zod") == "\"" + "zod" + "\"";
    HeaderText();
  }

  lemma ImportsOfOne(a: Source)
    ensures ImportsOfAll([a]) == ImportsOf(a)
  {
    assert [a][..0] == [];
  }

  /** A braced group of one element on one line. */
  lemma BracedOne(ind: string, o: string, p: string, c: string, th: nat, a: Source)
    requires '\n' !in o && '\n' !in p && '\n' !in c && |c| > 0 && th > 1 && Inline(a)
    ensures Inline(Group(Braced(o, p, c, th), [a]))
    ensures Layout(ind, Group(Braced(o, p, c, th), [a])) == o + p + Layout(ind, a) + p + c
    ensures ImportsOf(Group(Braced(o, p, c, th), [a])) == ImportsOf(a)
  {
    assert AllInline([a]);
    BracedLayout(ind, o, p, c, th, [a]);
    assert Layouts(ind, [a], 0) == [Layout(ind, a)];
    ImportsOfOne(a);
  }

  /** A braced group of two elements on one line. */
  lemma BracedTwo(ind: string, o: string, p: string, c: string, th: nat, a: Source, b: Source)
    requires '\n' !in o && '\n' !in p && '\n' !in c && |c| > 0 && th > 2 && Inline(a) && Inline(b)
    ensures Inline(Group(Braced(o, p, c, th), [a, b]))
    ensures Layout(ind, Group(Braced(o, p, c, th), [a, b])) == o + p + Layout(ind, a) + ", " + Layout(ind, b) + p + c
    ensures ImportsOf(Group(Braced(o, p, c, th), [a, b])) == ImportsOf(a) + ImportsOf(b)
  {
    assert AllInline([a, b]);
    BracedLayout(ind, o, p, c, th, [a, b]);
    var la, lb := Layout(ind, a), Layout(ind, b);
    assert Layouts(ind, [a, b], 0) == [la, lb] by {
      assert Layouts(ind, [a, b], 1) == [lb];
    }
    JoinTwo(la, lb, ", ");
    Regroup7(o, p, la, ", ", lb, p, c);
    Ts.ImportsOfPair(a, b);
  }

  lemma JoinTwo(x: string, y: string, sep: string)
    ensures Strings.Join([x, y], sep) == x + sep + y
  {
    assert [x, y][1..] == [y];
  }

  lemma Regroup7(s1: string, s2: string, s3: string, s4: string, s5: string, s6: string, s7: string)
    ensures s1 + s2 + (s3 + s4 + s5) + s6 + s7 == s1 + s2 + s3 + s4 + s5 + s6 + s7
  {
  }

  lemma LinesTwo(inner: string, x: string, y: string)
    ensures LinesText(inner, [x, y]) == "\n" + inner + x + "," + ("\n" + inner + y + ",")
  {
    assert [x, y][1..] == [y];
    assert [y][1..] == [];
    assert LinesText(inner, [y]) == "\n" + inner + y + "," + "";
  }

  /** A braced group of two elements at or above its threshold, one element per line. */
  lemma BracedTwoLines(ind: string, o: string, p: string, c: string, th: nat, a: Source, b: Source)
    requires '\n' !in o && '\n' !in p && '\n' !in c && |c| > 0 && th <= 2 && Inline(a) && Inline(b)
    ensures Inline(Group(Braced(o, p, c, th), [a, b]))
    ensures Layout(ind, Group(Braced(o, p, c, th), [a, b]))
         == o + ("\n" + (ind + IndentUnit) + Layout(ind + IndentUnit, a) + "," + ("\n" + (ind + IndentUnit) + Layout(ind + IndentUnit, b) + ","))
              + "\n" + ind + c
    ensures ImportsOf(Group(Braced(o, p, c, th), [a, b])) == ImportsOf(a) + ImportsOf(b)
  {
    var inner := ind + IndentUnit;
    assert AllInline([a, b]);
    BracedLayout(ind, o, p, c, th, [a, b]);
    assert Layouts(inner, [a, b], 0) == [Layout(inner, a), Layout(inner, b)] by {
      assert Layouts(inner, [a, b], 1) == [Layout(inner, b)];
    }
    LinesTwo(inner, Layout(inner, a), Layout(inner, b));
    Ts.ImportsOfPair(a, b);
  }

  /** `z.<name>(<args>)`. */
  lemma ZCallLayout(ind: string, name: Identifier, args: seq<Source>)
    requires '\n' !in name && AllInline(args)
    ensures Inline(Zod.ZTypeFunc(name, args).source)
    ensures Layout(ind, Zod.ZTypeFunc(name, args).source) == "z" + "." + name + Layout(ind, Group(InvocationStyle, args))
    ensures ImportsOf(Zod.ZTypeFunc(name, args).source) == {ZImport} + ImportsOfAll(args)
  {
    InvokeMethodLayout(ind, Zod.Z, name, args);
  }

  /** `z.<name>()`, laid out as `out`. */
  lemma ZCallNone(ind: string, name: Identifier, out: string)
    requires '\n' !in name && "z" + "." + name + ("(" + ")") == out
    ensures Inline(Zod.ZTypeFunc(name, []).source)
    ensures Layout(ind, Zod.ZTypeFunc(name, []).source) == out
    ensures ImportsOf(Zod.ZTypeFunc(name, []).source) == {ZImport}
  {
    BracedLayout(ind, "(", "", ")", 5, []);
    ZCallLayout(ind, name, []);
  }

  /** `z.<name>(<a>)` where `a` lays out as `text`, laid out as `out`. */
  lemma ZCallOne(ind: string, name: Identifier, a: Source, text: string, out: string)
    requires '\n' !in name && Inline(a) && ImportsOf(a) <= {ZImport} && Layout(ind, a) == text
    requires "z" + "." + name + ("(" + "" + text + "" + ")") == out
    ensures Inline(Zod.ZTypeFunc(name, [a]).source)
    ensures Layout(ind, Zod.ZTypeFunc(name, [a]).source) == out
    ensures ImportsOf(Zod.ZTypeFunc(name, [a]).source) == {ZImport}
  {
    BracedOne(ind, "(", "", ")", 5, a);
    assert AllInline([a]);
    ZCallLayout(ind, name, [a]);
    ImportsOfOne(a);
  }

  /** `<receiver>.<name>()` where the receiver lays out as `text`, laid out as `out`. */
  lemma ChainNone(ind: string, receiver: Source, name: Identifier, text: string, out: string)
    requires Inline(receiver) && ImportsOf(receiver) == {ZImport} && Layout(ind, receiver) == text
    requires '\n' !in name && text + "." + name + ("(" + ")") == out
    ensures Inline(Ts.InvokeMethod(receiver, name, []))
    ensures Layout(ind, Ts.InvokeMethod(receiver, name, [])) == out
    ensures ImportsOf(Ts.InvokeMethod(receiver, name, [])) == {ZImport}
  {
    BracedLayout(ind, "(", "", ")", 5, []);
    InvokeMethodLayout(ind, receiver, name, []);
  }

  /** `<name>: <value>` for a property whose name needs no quotes. */
  lemma PropertyOf(ind: string, name: string, value: Zod.Schema, text: string, out: string)
    requires Inline(value.source) && ImportsOf(value.source) == {ZImport} && Layout(ind, value.source) == text
    requires Ts.IsValidIdentifier(name) && '\n' !in name && name + ": " + text == out
    ensures Inline(Zod.ShapePropertySource(Zod.ShapeProperty(name, value)).AsSource())
    ensures Layout(ind, Zod.ShapePropertySource(Zod.ShapeProperty(name, value)).AsSource()) == out
    ensures ImportsOf(Zod.ShapePropertySource(Zod.ShapeProperty(name, value)).AsSource()) == {ZImport}
  {
    PropertyLayout(ind, Zod.ShapePropertySource(Zod.ShapeProperty(name, value)));
  }

  /** `z.object({ <name>: <value> })`. */
  lemma ObjectOneLayout(ind: string, name: string, value: Zod.Schema, text: string, prop: string, obj: string, out: string)
    requires Inline(value.source) && ImportsOf(value.source) == {ZImport} && Layout(ind, value.source) == text
    requires Ts.IsValidIdentifier(name) && '\n' !in name && name + ": " + text == prop
    requires "{" + " " + prop + " " + "}" == obj && "z" + "." + "object" + ("(" + "" + obj + "" + ")") == out
    ensures Inline(Zod.Object([Zod.ShapeProperty(name, value)]).source)
    ensures ImportsOf(Zod.Object([Zod.ShapeProperty(name, value)]).source) == {ZImport}
    ensures Layout(ind, Zod.Object([Zod.ShapeProperty(name, value)]).source) == out
  {
    var p := Zod.ShapePropertySource(Zod.ShapeProperty(name, value)).AsSource();
    var shape := Zod.ShapeTypeScript([Zod.ShapeProperty(name, value)]);
    assert shape == Group(ObjectStyle, [p]);
    PropertyOf(ind, name, value, text, prop);
    BracedOne(ind, "{", " ", "}", 2, p);
    ZCallOne(ind, "object", shape, obj, out);
  }

  /** A call of `z` whose single argument is a braced group of two elements, one per line:
    * the opening line, the two element lines and the closing line. */
  lemma ZCallTwoLines(name: Identifier, o: string, p: string, c: string, th: nat, a: Source, b: Source,
                      la: string, lb: string, first: string, l1: string, l2: string, last: string)
    requires '\n' !in name && '\n' !in o && '\n' !in p && '\n' !in c && |c| > 0 && th <= 2
    requires Inline(a) && Inline(b) && ImportsOf(a) == {ZImport} && ImportsOf(b) == {ZImport}
    requires Layout("" + IndentUnit, a) == la && Layout("" + IndentUnit, b) == lb
    requires "z" + "." + name + "(" + o == first && IndentUnit + la + "," == l1 && IndentUnit + lb + "," == l2 && c + ")" == last
    ensures Inline(Zod.ZTypeFunc(name, [Group(Braced(o, p, c, th), [a, b])]).source)
    ensures ImportsOf(Zod.ZTypeFunc(name, [Group(Braced(o, p, c, th), [a, b])]).source) == {ZImport}
    ensures Layout("", Zod.ZTypeFunc(name, [Group(Braced(o, p, c, th), [a, b])]).source)
         == first + "\n" + l1 + "\n" + l2 + "\n" + last
  {
    var g := Group(Braced(o, p, c, th), [a, b]);
    BracedTwoLines("", o, p, c, th, a, b);
    var body := "\n" + ("" + IndentUnit) + la + "," + ("\n" + ("" + IndentUnit) + lb + ",");
    assert Layout("", g) == o + body + "\n" + "" + c;
    BracedOne("", "(", "", ")", 5, g);
    assert AllInline([g]);
    ZCallLayout("", name, [g]);
    ImportsOfOne(g);
    TwoLinesRegroup("z" + "." + name, o, la, lb, c);
  }

  lemma TwoLinesRegroup(head: string, o: string, la: string, lb: string, c: string)
    ensures head + ("(" + "" + (o + ("\n" + ("" + IndentUnit) + la + "," + ("\n" + ("" + IndentUnit) + lb + ",")) + "\n" + "" + c) + "" + ")")
         == (head + "(" + o) + "\n" + (IndentUnit + la + ",") + "\n" + (IndentUnit + lb + ",") + "\n" + (c + ")")
  {
  }

  // ---------------------------------------------------------------------------------
  // One step of each test schema, taken on an abstract part

  /** `s` is a schema source on one line, importing only `z`, laid out as `text`. */
  predicate LaysOut(ind: string, s: Source, text: string) {
    Inline(s) && ImportsOf(s) == {ZImport} && Layout(ind, s) == text
  }

  lemma ChainOn(ind: string, s: Source, name: Identifier, text: string, out: string)
    requires LaysOut(ind, s, text) && '\n' !in name && text + "." + name + ("(" + ")") == out
    ensures LaysOut(ind, Ts.InvokeMethod(s, name, []), out)
  {
    ChainNone(ind, s, name, text, out);
  }

  lemma WrapOn(ind: string, name: Identifier, s: Source, text: string, out: string)
    requires LaysOut(ind, s, text) && '\n' !in name && "z" + "." + name + ("(" + "" + text + "" + ")") == out
    ensures LaysOut(ind, Zod.ZTypeFunc(name, [s]).source, out)
  {
    ZCallOne(ind, name, s, text, out);
  }

  lemma StringNullableOn(ind: string, s: Source)
    requires LaysOut(ind, s, "z.string()")
    ensures LaysOut(ind, Ts.InvokeMethod(s, "nullable", []), "z.string().nullable()")
  {
    TextStringNullable();
    ChainOn(ind, s, "nullable", "z.string()", "z.string().nullable()");
  }

  lemma StringNullableNullableOn(ind: string, s: Source)
    requires LaysOut(ind, s, "z.string().nullable()")
    ensures LaysOut(ind, Ts.InvokeMethod(s, "nullable", []), "z.string().nullable().nullable()")
  {
    TextStringNullableNullable();
    ChainOn(ind, s, "nullable", "z.string().nullable()", "z.string().nullable().nullable()");
  }

  lemma NullableStringNullableOn(ind: string, s: Source)
    requires LaysOut(ind, s, "z.nullable(z.string())")
    ensures LaysOut(ind, Ts.InvokeMethod(s, "nullable", []), "z.nullable(z.string()).nullable()")
  {
    TextNullableStringNullable();
    ChainOn(ind, s, "nullable", "z.nullable(z.string())", "z.nullable(z.string()).nullable()");
  }

  lemma NumberIntOn(ind: string, s: Source)
    requires LaysOut(ind, s, "z.number()")
    ensures LaysOut(ind, Ts.InvokeMethod(s, "int", []), "z.number().int()")
  {
    TextNumberInt();
    ChainOn(ind, s, "int", "z.number()", "z.number().int()");
  }

  lemma StringUuidOn(ind: string, s: Source)
    requires LaysOut(ind, s, "z.string()")
    ensures LaysOut(ind, Ts.InvokeMethod(s, "uuid", []), "z.string().uuid()")
  {
    TextStringUuid();
    ChainOn(ind, s, "uuid", "z.string()", "z.string().uuid()");
  }

  lemma NullableOfStringOn(ind: string, s: Source)
    requires LaysOut(ind, s, "z.string()")
    ensures LaysOut(ind, Zod.ZTypeFunc("nullable", [s]).source, "z.nullable(z.string())")
  {
    TextNullableString();
    WrapOn(ind, "nullable", s, "z.string()", "z.nullable(z.string())");
  }

  lemma NullableOfStringNullableOn(ind: string, s: Source)
    requires LaysOut(ind, s, "z.string().nullable()")
    ensures LaysOut(ind, Zod.ZTypeFunc("nullable", [s]).source, "z.nullable(z.string().nullable())")
  {
    TextNullableOfStringNullable();
    WrapOn(ind, "nullable", s, "z.string().nullable()", "z.nullable(z.string().nullable())");
  }

  lemma NullableOfNullableStringOn(ind: string, s: Source)
    requires LaysOut(ind, s, "z.nullable(z.string())")
    ensures LaysOut(ind, Zod.ZTypeFunc("nullable", [s]).source, "z.nullable(z.nullable(z.string()))")
  {
    TextNullableNullableString();
    WrapOn(ind, "nullable", s, "z.nullable(z.string())", "z.nullable(z.nullable(z.string()))");
  }

  lemma ArrayOfStringOn(ind: string, s: Source)
    requires LaysOut(ind, s, "z.string()")
    ensures LaysOut(ind, Zod.ZTypeFunc("array", [s]).source, "z.array(z.string())")
  {
    TextArrayString();
    WrapOn(ind, "array", s, "z.string()", "z.array(z.string())");
  }

  lemma UnionOfStringOn(s: Source)
    requires LaysOut("", s, "z.string()")
    ensures LaysOut("", Zod.ZTypeFunc("union", [Ts.Array([s])]).source, "z.union([z.string()])")
  {
    BracedOne("", "[", "", "]", 2, s);
    TextBracketedString();
    TextUnionString();
    WrapOn("", "union", Ts.Array([s]), "[z.string()]", "z.union([z.string()])");
  }

  lemma ObjectFooStringOn(ind: string, v: Zod.Schema)
    requires LaysOut(ind, v.source, "z.string()")
    ensures LaysOut(ind, Zod.Object([Zod.ShapeProperty("foo", v)]).source, "z.object({ foo: z.string() })")
  {
    assert Ts.IsValidIdentifier("foo");
    TextFooString();
    TextObjectFooString();
    ObjectOneLayout(ind, "foo", v, "z.string()", "foo: z.string()", "{ foo: z.string() }", "z.object({ foo: z.string() })");
  }

  lemma ObjectFooNumberOn(ind: string, v: Zod.Schema)
    requires LaysOut(ind, v.source, "z.number()")
    ensures LaysOut(ind, Zod.Object([Zod.ShapeProperty("foo", v)]).source, "z.object({ foo: z.number() })")
  {
    assert Ts.IsValidIdentifier("foo");
    TextFooNumber();
    TextObjectFooNumber();
    ObjectOneLayout(ind, "foo", v, "z.number()", "foo: z.number()", "{ foo: z.number() }", "z.object({ foo: z.number() })");
  }

  lemma PropertyFooStringOn(ind: string, v: Zod.Schema)
    requires LaysOut(ind, v.source, "z.string()")
    ensures LaysOut(ind, Zod.ShapePropertySource(Zod.ShapeProperty("foo", v)).AsSource(), "foo: z.string()")
  {
    assert Ts.IsValidIdentifier("foo");
    TextFooString();
    PropertyOf(ind, "foo", v, "z.string()", "foo: z.string()");
  }

  lemma PropertyBarNumberOn(ind: string, v: Zod.Schema)
    requires LaysOut(ind, v.source, "z.number()")
    ensures LaysOut(ind, Zod.ShapePropertySource(Zod.ShapeProperty("bar", v)).AsSource(), "bar: z.number()")
  {
    assert Ts.IsValidIdentifier("bar");
    TextBarNumber();
    PropertyOf(ind, "bar", v, "z.number()", "bar: z.number()");
  }

  /** `z.object({...})` over the `foo` and `bar` properties, one per line. */
  lemma ObjectTwoLinesOn(pf: Source, pb: Source)
    requires LaysOut("" + IndentUnit, pf, "foo: z.string()") && LaysOut("" + IndentUnit, pb, "bar: z.number()")
    ensures LaysOut("", Zod.ZTypeFunc("object", [Group(ObjectStyle, [pf, pb])]).source,
                    "z.object({" + "\n" + "    foo: z.string()," + "\n" + "    bar: z.number()," + "\n" + "})")
  {
    TextObjectOpen();
    TextFooLine();
    TextBarLine();
    TextObjectClose();
    ZCallTwoLines("object", "{", " ", "}", 2, pf, pb, "foo: z.string()", "bar: z.number()",
                  "z.object({", "    foo: z.string(),", "    bar: z.number(),", "})");
  }

  /** `z.object({...})` with a `foo` string property and a `bar` number property, one per line. */
  lemma ObjectTwoOn(vs: Zod.Schema, vn: Zod.Schema)
    requires LaysOut("" + IndentUnit, vs.source, "z.string()") && LaysOut("" + IndentUnit, vn.source, "z.number()")
    ensures LaysOut("", Zod.Object([Zod.ShapeProperty("foo", vs), Zod.ShapeProperty("bar", vn)]).source,
                    "z.object({" + "\n" + "    foo: z.string()," + "\n" + "    bar: z.number()," + "\n" + "})")
  {
    var foo := Zod.ShapeProperty("foo", vs);
    var bar := Zod.ShapeProperty("bar", vn);
    var pf := Zod.ShapePropertySource(foo).AsSource();
    var pb := Zod.ShapePropertySource(bar).AsSource();
    assert Zod.ShapeTypeScript([foo, bar]) == Group(ObjectStyle, [pf, pb]);
    PropertyFooStringOn("" + IndentUnit, vs);
    PropertyBarNumberOn("" + IndentUnit, vn);
    ObjectTwoLinesOn(pf, pb);
  }

  /** `z.union([...])` with a string member and a number member, one per line. */
  lemma UnionTwoOn(s: Source, n: Source)
    requires LaysOut("" + IndentUnit, s, "z.string()") && LaysOut("" + IndentUnit, n, "z.number()")
    ensures LaysOut("", Zod.ZTypeFunc("union", [Group(ArrayStyle, [s, n])]).source,
                    "z.union([" + "\n" + "    z.string()," + "\n" + "    z.number()," + "\n" + "])")
  {
    TextUnionOpen();
    TextStringLine();
    TextNumberLine();
    TextArrayClose();
    ZCallTwoLines("union", "[", "", "]", 2, s, n, "z.string()", "z.number()",
                  "z.union([", "    z.string(),", "    z.number(),", "])");
  }

  /** `z.discriminatedUnion("foo", [...])` with the two one-property objects, one per line. */
  lemma DiscriminatedOn(a: Source, b: Source)
    requires LaysOut("" + IndentUnit, a, "z.object({ foo: z.string() })")
    requires LaysOut("" + IndentUnit, b, "z.object({ foo: z.number() })")
    ensures LaysOut("", Zod.ZTypeFunc("discriminatedUnion", [Ts.StringLiteral("foo"), Group(ArrayStyle, [a, b])]).source,
                    "z.discriminatedUnion(\"foo\", [" + "\n" + "    z.object({ foo: z.string() })," + "\n"
                    + "    z.object({ foo: z.number() })," + "\n" + "])")
  {
    var lit := Ts.StringLiteral("foo");
    assert lit.text == "\"" + "foo" + "\"";
    TextQuotedFoo();
    TextObjectStringLine();
    TextObjectNumberLine();
    TextDiscriminatedOpen();
    TextArrayClose();
    DiscriminatedTwoLines(lit, a, b, "\"foo\"", "z.object({ foo: z.string() })", "z.object({ foo: z.number() })",
                          "z.discriminatedUnion(\"foo\", [", "    z.object({ foo: z.string() }),", "    z.object({ foo: z.number() }),", "])");
  }

  /** `z.discriminatedUnion(<lit>, [...])` with two members, one per line. */
  lemma DiscriminatedTwoLines(lit: Source, a: Source, b: Source, lt: string, la: string, lb: string,
                              first: string, l1: string, l2: string, last: string)
    requires lit.Text? && '\n' !in lit.text && lit.text == lt
    requires Inline(a) && Inline(b) && ImportsOf(a) == {ZImport} && ImportsOf(b) == {ZImport}
    requires Layout("" + IndentUnit, a) == la && Layout("" + IndentUnit, b) == lb
    requires "z" + "." + "discriminatedUnion" + "(" + lt + ", " + "[" == first
    requires IndentUnit + la + "," == l1 && IndentUnit + lb + "," == l2 && "]" + ")" == last
    ensures Inline(Zod.ZTypeFunc("discriminatedUnion", [lit, Group(ArrayStyle, [a, b])]).source)
    ensures ImportsOf(Zod.ZTypeFunc("discriminatedUnion", [lit, Group(ArrayStyle, [a, b])]).source) == {ZImport}
    ensures Layout("", Zod.ZTypeFunc("discriminatedUnion", [lit, Group(ArrayStyle, [a, b])]).source)
         == first + "\n" + l1 + "\n" + l2 + "\n" + last
  {
    var g := Group(ArrayStyle, [a, b]);
    MembersTwoLines(a, b, la, lb);
    var lg := "[" + ("\n" + ("" + IndentUnit) + la + "," + ("\n" + ("" + IndentUnit) + lb + ",")) + "\n" + "" + "]";
    BracedTwo("", "(", "", ")", 5, lit, g);
    assert Layout("", Group(InvocationStyle, [lit, g])) == "(" + "" + lt + ", " + lg + "" + ")";
    assert AllInline([lit, g]);
    ZCallLayout("", "discriminatedUnion", [lit, g]);
    Ts.ImportsOfPair(lit, g);
    DiscriminatedRegroup("z" + "." + "discriminatedUnion", lt, la, lb);
  }

  /** The member array of a two-member discriminated union, one member per line. */
  lemma MembersTwoLines(a: Source, b: Source, la: string, lb: string)
    requires Inline(a) && Inline(b) && ImportsOf(a) == {ZImport} && ImportsOf(b) == {ZImport}
    requires Layout("" + IndentUnit, a) == la && Layout("" + IndentUnit, b) == lb
    ensures Inline(Group(ArrayStyle, [a, b])) && ImportsOf(Group(ArrayStyle, [a, b])) == {ZImport}
    ensures Layout("", Group(ArrayStyle, [a, b])) == "[" + ("\n" + ("" + IndentUnit) + la + "," + ("\n" + ("" + IndentUnit) + lb + ",")) + "\n" + "" + "]"
  {
    BracedTwoLines("", "[", "", "]", 2, a, b);
  }

  lemma DiscriminatedRegroup(head: string, lt: string, la: string, lb: string)
    ensures head + ("(" + "" + lt + ", " + ("[" + ("\n" + ("" + IndentUnit) + la + "," + ("\n" + ("" + IndentUnit) + lb + ",")) + "\n" + "" + "]") + "" + ")")
         == (head + "(" + lt + ", " + "[") + "\n" + (IndentUnit + la + ",") + "\n" + (IndentUnit + lb + ",") + "\n" + ("]" + ")")
  {
  }

  // ---------------------------------------------------------------------------------
  // The schemas of the tests, laid out at any indentation

  lemma AnyLayout(ind: string)
    ensures LaysOut(ind, Zod.Any().source, "z.any()")
  {
    TextAny();
    ZCallNone(ind, "any", "z.any()");
  }

  lemma BooleanLayout(ind: string)
    ensures LaysOut(ind, Zod.Boolean().source, "z.boolean()")
  {
    TextBoolean();
    ZCallNone(ind, "boolean", "z.boolean()");
  }

  lemma StringLayout(ind: string)
    ensures LaysOut(ind, Zod.String().source, "z.string()")
  {
    TextString();
    ZCallNone(ind, "string", "z.string()");
  }

  lemma NumberLayout(ind: string)
    ensures LaysOut(ind, Zod.Number().source, "z.number()")
  {
    TextNumber();
    ZCallNone(ind, "number", "z.number()");
  }

  /** `z.string().nullable()`, whether written with `Nullable` or `EnsureNullable`. */
  lemma StringNullableLayout(ind: string)
    ensures Zod.EnsureNullable(Zod.String()) == Zod.String().Nullable()
    ensures LaysOut(ind, Zod.String().Nullable().source, "z.string().nullable()")
  {
    StringLayout(ind);
    StringNullableOn(ind, Zod.String().source);
  }

  /** `z.nullable(z.string())`. */
  lemma NullableStringLayout(ind: string)
    ensures LaysOut(ind, Zod.NullableOf(Zod.String()).source, "z.nullable(z.string())")
  {
    StringLayout(ind);
    NullableOfStringOn(ind, Zod.String().source);
  }

  lemma ObjectFooStringLayout(ind: string)
    ensures LaysOut(ind, Zod.Object([Zod.ShapeProperty("foo", Zod.String())]).source, "z.object({ foo: z.string() })")
  {
    StringLayout(ind);
    ObjectFooStringOn(ind, Zod.String());
  }

  lemma ObjectFooNumberLayout(ind: string)
    ensures LaysOut(ind, Zod.Object([Zod.ShapeProperty("foo", Zod.Number())]).source, "z.object({ foo: z.number() })")
  {
    NumberLayout(ind);
    ObjectFooNumberOn(ind, Zod.Number());
  }

  // ---------------------------------------------------------------------------------
  // The renders the tests expect: the import of `z`, a blank line, then the schema

  lemma RenderPrimitives()
    ensures Render(Zod.Any().TypeScript()) == ZImportLine + "\n\n" + "z.any()"
    ensures Render(Zod.Boolean().TypeScript()) == ZImportLine + "\n\n" + "z.boolean()"
    ensures Render(Zod.Number().TypeScript()) == ZImportLine + "\n\n" + "z.number()"
    ensures Render(Zod.String().TypeScript()) == ZImportLine + "\n\n" + "z.string()"
  {
    AnyLayout("");
    RenderZod(Zod.Any().source);
    BooleanLayout("");
    RenderZod(Zod.Boolean().source);
    NumberLayout("");
    RenderZod(Zod.Number().source);
    StringLayout("");
    RenderZod(Zod.String().source);
  }

  lemma RenderArrayOfString()
    ensures Render(Zod.Array(Zod.String()).TypeScript()) == ZImportLine + "\n\n" + "z.array(z.string())"
  {
    StringLayout("");
    ArrayOfStringOn("", Zod.String().source);
    RenderZod(Zod.Array(Zod.String()).source);
  }

  lemma RenderLiteral()
    ensures Render(Zod.Literal("foo").TypeScript()) == ZImportLine + "\n\n" + "z.literal(\"foo\")"
  {
    var lit := Ts.StringLiteral("foo");
    assert lit.text == "\"" + "foo" + "\"";
    TextQuotedFoo();
    TextLiteralFoo();
    ZCallOne("", "literal", lit, "\"foo\"", "z.literal(\"foo\")");
    RenderZod(Zod.Literal("foo").source);
  }

  lemma RenderRefinements()
    ensures Render(Zod.Number().Int().TypeScript()) == ZImportLine + "\n\n" + "z.number().int()"
    ensures Render(Zod.String().UUID().TypeScript()) == ZImportLine + "\n\n" + "z.string().uuid()"
  {
    NumberLayout("");
    NumberIntOn("", Zod.Number().source);
    RenderZod(Zod.Number().Int().source);
    StringLayout("");
    StringUuidOn("", Zod.String().source);
    RenderZod(Zod.String().UUID().source);
  }

  lemma RenderEmptyObject()
    ensures Render(Zod.Object([]).TypeScript()) == ZImportLine + "\n\n" + "z.object({})"
  {
    var shape := Zod.ShapeTypeScript([]);
    assert shape == Group(ObjectStyle, []);
    BracedLayout("", "{", " ", "}", 2, []);
    TextBraces();
    TextEmptyObject();
    ZCallOne("", "object", shape, "{}", "z.object({})");
    RenderZod(Zod.Object([]).source);
  }

  lemma RenderObjectOne()
    ensures Render(Zod.Object([Zod.ShapeProperty("foo", Zod.String())]).TypeScript())
         == ZImportLine + "\n\n" + "z.object({ foo: z.string() })"
  {
    ObjectFooStringLayout("");
    RenderZod(Zod.Object([Zod.ShapeProperty("foo", Zod.String())]).source);
  }

  /** Two properties reach the object threshold: one property per line. */
  lemma RenderObjectTwo()
    ensures Render(Zod.Object([Zod.ShapeProperty("foo", Zod.String()), Zod.ShapeProperty("bar", Zod.Number())]).TypeScript())
         == ZImportLine + "\n\n" + ("z.object({" + "\n" + "    foo: z.string()," + "\n" + "    bar: z.number()," + "\n" + "})")
  {
    StringLayout("" + IndentUnit);
    NumberLayout("" + IndentUnit);
    ObjectTwoOn(Zod.String(), Zod.Number());
    RenderZod(Zod.Object([Zod.ShapeProperty("foo", Zod.String()), Zod.ShapeProperty("bar", Zod.Number())]).source);
  }

  lemma RenderUnionZeroOne()
    ensures Render(Zod.Union([]).TypeScript()) == ZImportLine + "\n\n" + "z.union([])"
    ensures Render(Zod.Union([Zod.String()]).TypeScript()) == ZImportLine + "\n\n" + "z.union([z.string()])"
  {
    var none := Ts.Array([]);
    assert Ts.Array(Zod.UnionMembers([])) == none;
    BracedLayout("", "[", "", "]", 2, []);
    TextBrackets();
    TextEmptyUnion();
    ZCallOne("", "union", none, "[]", "z.union([])");
    RenderZod(Zod.Union([]).source);
    StringLayout("");
    assert Ts.Array(Zod.UnionMembers([Zod.String()])) == Ts.Array([Zod.String().source]);
    UnionOfStringOn(Zod.String().source);
    RenderZod(Zod.Union([Zod.String()]).source);
  }

  /** Two members reach the array threshold: one member per line. */
  lemma RenderUnionTwo()
    ensures Render(Zod.Union([Zod.String(), Zod.Number()]).TypeScript())
         == ZImportLine + "\n\n" + ("z.union([" + "\n" + "    z.string()," + "\n" + "    z.number()," + "\n" + "])")
  {
    assert Ts.Array(Zod.UnionMembers([Zod.String(), Zod.Number()])) == Group(ArrayStyle, [Zod.String().source, Zod.Number().source]);
    StringLayout("" + IndentUnit);
    NumberLayout("" + IndentUnit);
    UnionTwoOn(Zod.String().source, Zod.Number().source);
    RenderZod(Zod.Union([Zod.String(), Zod.Number()]).source);
  }

  /** The discriminator and the members array sit on the line of the call; the two members
    * reach the array threshold. */
  lemma RenderDiscriminatedUnion()
    ensures Render(Zod.DiscriminatedUnion("foo", [Zod.Object([Zod.ShapeProperty("foo", Zod.String())]), Zod.Object([Zod.ShapeProperty("foo", Zod.Number())])]).TypeScript())
         == ZImportLine + "\n\n" + ("z.discriminatedUnion(\"foo\", [" + "\n" + "    z.object({ foo: z.string() })," + "\n" + "    z.object({ foo: z.number() })," + "\n" + "])")
  {
    var os := Zod.Object([Zod.ShapeProperty("foo", Zod.String())]);
    var on := Zod.Object([Zod.ShapeProperty("foo", Zod.Number())]);
    assert Ts.Array(Zod.UnionMembers([os, on])) == Group(ArrayStyle, [os.source, on.source]);
    ObjectFooStringLayout("" + IndentUnit);
    ObjectFooNumberLayout("" + IndentUnit);
    DiscriminatedOn(os.source, on.source);
    RenderZod(Zod.DiscriminatedUnion("foo", [os, on]).source);
  }

  /** Lines 45 to 47 of the tests: a nullable layer, written three ways. */
  lemma RenderNullable()
    ensures Render(Zod.String().Nullable().TypeScript()) == ZImportLine + "\n\n" + "z.string().nullable()"
    ensures Render(Zod.NullableOf(Zod.String()).TypeScript()) == ZImportLine + "\n\n" + "z.nullable(z.string())"
    ensures Render(Zod.EnsureNullable(Zod.String()).TypeScript()) == ZImportLine + "\n\n" + "z.string().nullable()"
  {
    StringNullableLayout("");
    RenderZod(Zod.String().Nullable().source);
    NullableStringLayout("");
    RenderZod(Zod.NullableOf(Zod.String()).source);
  }

  /** Lines 49 to 51: the `Nullable` method adds a second layer to a nullable schema. */
  lemma RenderNullableNullable()
    ensures Render(Zod.String().Nullable().Nullable().TypeScript()) == ZImportLine + "\n\n" + "z.string().nullable().nullable()"
    ensures Render(Zod.NullableOf(Zod.String()).Nullable().TypeScript()) == ZImportLine + "\n\n" + "z.nullable(z.string()).nullable()"
    ensures Render(Zod.EnsureNullable(Zod.String()).Nullable().TypeScript()) == ZImportLine + "\n\n" + "z.string().nullable().nullable()"
  {
    StringNullableLayout("");
    StringNullableNullableOn("", Zod.String().Nullable().source);
    RenderZod(Zod.String().Nullable().Nullable().source);
    NullableStringLayout("");
    NullableStringNullableOn("", Zod.NullableOf(Zod.String()).source);
    RenderZod(Zod.NullableOf(Zod.String()).Nullable().source);
  }

  /** Lines 53 to 55: `zod.Nullable` adds a layer as well. */
  lemma RenderNullableOfNullable()
    ensures Render(Zod.NullableOf(Zod.String().Nullable()).TypeScript()) == ZImportLine + "\n\n" + "z.nullable(z.string().nullable())"
    ensures Render(Zod.NullableOf(Zod.NullableOf(Zod.String())).TypeScript()) == ZImportLine + "\n\n" + "z.nullable(z.nullable(z.string()))"
    ensures Render(Zod.NullableOf(Zod.EnsureNullable(Zod.String())).TypeScript()) == ZImportLine + "\n\n" + "z.nullable(z.string().nullable())"
  {
    StringNullableLayout("");
    NullableOfStringNullableOn("", Zod.String().Nullable().source);
    RenderZod(Zod.NullableOf(Zod.String().Nullable()).source);
    NullableStringLayout("");
    NullableOfNullableStringOn("", Zod.NullableOf(Zod.String()).source);
    RenderZod(Zod.NullableOf(Zod.NullableOf(Zod.String())).source);
  }

  /** Lines 57 to 59: `EnsureNullable` adds no layer to a nullable schema. */
  lemma RenderEnsureNullable()
    ensures Render(Zod.EnsureNullable(Zod.String().Nullable()).TypeScript()) == ZImportLine + "\n\n" + "z.string().nullable()"
    ensures Render(Zod.EnsureNullable(Zod.NullableOf(Zod.String())).TypeScript()) == ZImportLine + "\n\n" + "z.nullable(z.string())"
    ensures Render(Zod.EnsureNullable(Zod.EnsureNullable(Zod.String())).TypeScript()) == ZImportLine + "\n\n" + "z.string().nullable()"
  {
    RenderNullable();
  }

  // ---------------------------------------------------------------------------------
  // What a declaration prints

  /** `export const N = <schema>;` on one line. */
  lemma ConstStatementLayout(ind: string, name: Identifier, schema: Source)
    requires '\n' !in name && Inline(schema)
    ensures Inline(Zod.ConstStatement(name, schema))
    ensures Layout(ind, Zod.ConstStatement(name, schema)) == "export const " + name + " = " + Layout(ind, schema) + ";"
  {
    FormatPiecesLayout2(ind, "export const ", " = ", ";", Text(name), schema);
  }

  /** `export type N = z.infer<typeof N>;` on one line. */
  lemma TypeStatementLayout(ind: string, name: Identifier)
    requires '\n' !in name
    ensures Inline(Zod.TypeStatement(name))
    ensures Layout(ind, Zod.TypeStatement(name)) == "export type " + name + " = " + "z" + ".infer<typeof " + name + ">;"
  {
    FormatPiecesLayout3(ind, "export type ", " = ", ".infer<typeof ", ">;", Text(name), Zod.Z, Text(name));
  }

  /** Three statements with no blank line between them, at the top level. */
  lemma TopLevelThree(a: Source, b: Source, c: Source)
    requires Printable(a) && Inline(b) && Inline(c)
    ensures Printable(Ts.Statements([a, b, c]))
    ensures Layout("", Ts.Statements([a, b, c]))
      == (Layout("", a) + (if IsBlock(a) then "" else "\n")) + (Layout("", b) + "\n" + (Layout("", c) + "\n"))
  {
    var es := [a, b, c];
    assert AllPrintable(es) by {
      assert es[0] == a && es[1] == b && es[2] == c;
    }
    var p0 := Layout("", a) + (if IsBlock(a) then "" else "\n");
    var p1 := Layout("", b) + "\n";
    var p2 := Layout("", c) + "\n";
    assert Ts.Statements(es) == Group(StatementLines(0), es);
    assert Layout("", Group(StatementLines(0), es)) == Join(StatementPieces("", es, 0), "") by {
      StatementsLayoutIs("", 0, es);
      assert NewlineText(0) + "" == "";
    }
    assert StatementPieces("", es, 0) == [p0, p1, p2] by {
      StatementPiecesStep("", es, 0);
      StatementPiecesStep("", es, 1);
      StatementPiecesStep("", es, 2);
      assert StatementPieces("", es, 3) == [];
    }
    assert Join([p0, p1, p2], "") == p0 + (p1 + p2) by {
      JoinThree(p0, p1, p2, "");
      assert p0 + "" == p0 && p1 + "" == p1;
    }
  }

  /** The two statement lines of a declaration of `name` over a schema printed as `schema`. */
  function DeclarationLines(name: Identifier, schema: string): string {
    "export const " + name + " = " + schema + ";" + "\n"
    + ("export type " + name + " = " + "z" + ".infer<typeof " + name + ">;" + "\n")
  }

  /** What `SchemaAndTypeDeclaration.TypeScript` prints at the top level for an inline schema:
    * the doc comment (one ` * ` line per line of the trimmed comment), then
    * `export const N = <schema>;` and `export type N = z.infer<typeof N>;`, each on its own
    * line. A blank comment prints as an empty line. */
  lemma DeclarationLayout(d: Zod.SchemaAndTypeDeclaration)
    requires '\n' !in d.identifier && Inline(d.schema.source)
    ensures Printable(d.TypeScript())
    ensures |TrimSpace(d.comment)| > 0 ==>
      Layout("", d.TypeScript())
        == "/**" + "\n" + DocBody("", Split(TrimSpace(d.comment), "\n"), 0) + " */" + "\n"
          + DeclarationLines(d.identifier, Layout("", d.schema.source))
    ensures |TrimSpace(d.comment)| == 0 ==>
      Layout("", d.TypeScript()) == "\n" + DeclarationLines(d.identifier, Layout("", d.schema.source))
  {
    var doc := Ts.DocComment(d.comment);
    var cst := Zod.ConstStatement(d.identifier, d.schema.source);
    var typ := Zod.TypeStatement(d.identifier);
    assert d.TypeScript() == Ts.Statements([doc, cst, typ]);
    var lines := DeclarationLines(d.identifier, Layout("", d.schema.source));
    assert Inline(cst) && Inline(typ) && Layout("", cst) + "\n" + (Layout("", typ) + "\n") == lines by {
      ConstStatementLayout("", d.identifier, d.schema.source);
      TypeStatementLayout("", d.identifier);
    }
    if |TrimSpace(d.comment)| > 0 {
      var body := DocBody("", Split(TrimSpace(d.comment), "\n"), 0);
      assert Printable(doc) && IsBlock(doc) && Layout("", doc) == "/**" + "\n" + body + " */" + "\n" by {
        DocCommentLayout("", d.comment);
        var pre := "/**" + "\n" + body;
        assert pre + "" == pre;
      }
      TopLevelThree(doc, cst, typ);
      assert Layout("", doc) + "" == Layout("", doc);
    } else {
      assert doc == Text("");
      TopLevelThree(doc, cst, typ);
      assert Layout("", doc) + "\n" == "\n";
    }
  }

  // ---------------------------------------------------------------------------------
  // The texts the layouts above assemble, each as a single string

  lemma HeaderText()
    ensures "import { " + "z" + " } from " + ("\"" + "zod" + "\"") + ";\n" + "\n" == ZImportLine + "\n\n"
  {
  }

  lemma TextAny() ensures "z" + "." + "any" + ("(" + ")") == "z.any()" {}
  lemma TextBoolean() ensures "z" + "." + "boolean" + ("(" + ")") == "z.boolean()" {}
  lemma TextNumber() ensures "z" + "." + "number" + ("(" + ")") == "z.number()" {}
  lemma TextString() ensures "z" + "." + "string" + ("(" + ")") == "z.string()" {}
  lemma TextNumberInt() ensures "z.number()" + "." + "int" + ("(" + ")") == "z.number().int()" {}
  lemma TextStringUuid() ensures "z.string()" + "." + "uuid" + ("(" + ")") == "z.string().uuid()" {}
  lemma TextStringNullable() ensures "z.string()" + "." + "nullable" + ("(" + ")") == "z.string().nullable()" {}
  lemma TextStringNullableNullable()
    ensures "z.string().nullable()" + "." + "nullable" + ("(" + ")") == "z.string().nullable().nullable()" {}
  lemma TextNullableStringNullable()
    ensures "z.nullable(z.string())" + "." + "nullable" + ("(" + ")") == "z.nullable(z.string()).nullable()" {}
  lemma TextNullableString() ensures "z" + "." + "nullable" + ("(" + "" + "z.string()" + "" + ")") == "z.nullable(z.string())" {}
  lemma TextNullableOfStringNullable()
    ensures "z" + "." + "nullable" + ("(" + "" + "z.string().nullable()" + "" + ")") == "z.nullable(z.string().nullable())" {}
  lemma TextNullableNullableString()
    ensures "z" + "." + "nullable" + ("(" + "" + "z.nullable(z.string())" + "" + ")") == "z.nullable(z.nullable(z.string()))" {}
  lemma TextArrayString() ensures "z" + "." + "array" + ("(" + "" + "z.string()" + "" + ")") == "z.array(z.string())" {}
  lemma TextQuotedFoo() ensures "\"" + "foo" + "\"" == "\"foo\"" {}
  lemma TextLiteralFoo() ensures "z" + "." + "literal" + ("(" + "" + "\"foo\"" + "" + ")") == "z.literal(\"foo\")" {}
  lemma TextBraces() ensures "{" + "}" == "{}" {}
  lemma TextEmptyObject() ensures "z" + "." + "object" + ("(" + "" + "{}" + "" + ")") == "z.object({})" {}
  lemma TextBrackets() ensures "[" + "]" == "[]" {}
  lemma TextEmptyUnion() ensures "z" + "." + "union" + ("(" + "" + "[]" + "" + ")") == "z.union([])" {}
  lemma TextBracketedString() ensures "[" + "" + "z.string()" + "" + "]" == "[z.string()]" {}
  lemma TextUnionString() ensures "z" + "." + "union" + ("(" + "" + "[z.string()]" + "" + ")") == "z.union([z.string()])" {}
  lemma TextFooString() ensures "foo" + ": " + "z.string()" == "foo: z.string()" {}
  lemma TextFooNumber() ensures "foo" + ": " + "z.number()" == "foo: z.number()" {}
  lemma TextBarNumber() ensures "bar" + ": " + "z.number()" == "bar: z.number()" {}
  lemma TextObjectFooString()
    ensures "{" + " " + "foo: z.string()" + " " + "}" == "{ foo: z.string() }"
    ensures "z" + "." + "object" + ("(" + "" + "{ foo: z.string() }" + "" + ")") == "z.object({ foo: z.string() })" {}
  lemma TextObjectFooNumber()
    ensures "{" + " " + "foo: z.number()" + " " + "}" == "{ foo: z.number() }"
    ensures "z" + "." + "object" + ("(" + "" + "{ foo: z.number() }" + "" + ")") == "z.object({ foo: z.number() })" {}
  lemma TextObjectOpen() ensures "z" + "." + "object" + "(" + "{" == "z.object({" {}
  lemma TextFooLine() ensures IndentUnit + "foo: z.string()" + "," == "    foo: z.string()," {}
  lemma TextBarLine() ensures IndentUnit + "bar: z.number()" + "," == "    bar: z.number()," {}
  lemma TextObjectClose() ensures "}" + ")" == "})" {}
  lemma TextUnionOpen() ensures "z" + "." + "union" + "(" + "[" == "z.union([" {}
  lemma TextStringLine() ensures IndentUnit + "z.string()" + "," == "    z.string()," {}
  lemma TextNumberLine() ensures IndentUnit + "z.number()" + "," == "    z.number()," {}
  lemma TextArrayClose() ensures "]" + ")" == "])" {}
  lemma TextObjectStringLine() ensures IndentUnit + "z.object({ foo: z.string() })" + "," == "    z.object({ foo: z.string() })," {}
  lemma TextObjectNumberLine() ensures IndentUnit + "z.object({ foo: z.number() })" + "," == "    z.object({ foo: z.number() })," {}
  lemma TextDiscriminatedOpen()
    ensures "z" + "." + "discriminatedUnion" + "(" + "\"foo\"" + ", " + "[" == "z.discriminatedUnion(\"foo\", [" {}
}
