// The translation's configuration (gotypes/gozod/config.go): per-type tables that options fill
// in, and the lookup that falls back from an instance of a generic type to its type
// constructor. The Go options are closures over a `*config`; here each option is a value and
// `Apply` says what it does to the tables.

module GoZodConfig {
  import opened Outcomes
  import opened TsSource
  import opened GoInsp
  import Zod
  import Ts

  // ---------------------------------------------------------------------------------
  // References to Go types

  /** `Ref`: a Go type in the position of a JSON value, with the `omitempty` flag of the field
    * that holds it. It is declared with the builder in Go; it is here because the callbacks of
    * the configuration resolve references. */
  datatype Ref = Ref(t: GoType, omitempty: bool)

  function PlainRef(t: GoType): (r: Ref)
    ensures r.t == t && !r.omitempty
  {
    Ref(t, false)
  }

  // ---------------------------------------------------------------------------------
  // Callbacks given the resolver

  /** A callback that builds a schema, given the resolver. A constant schema (`WithSchema`) does
    * not resolve anything; the other shape resolves `deps` in order and fills their sources into
    * `format`, giving a plain node. */
  datatype SchemaCallback =
    | ConstantSchema(schema: Zod.Schema)
    | FormattedSchema(format: string, refs: seq<Ref>)
  {
    function Deps(): seq<Ref> {
      if ConstantSchema? then [] else refs
    }

    /** The schema, from the resolved schemas of `Deps()`. */
    function Build(resolved: seq<Zod.Schema>): (r: Outcome<Zod.Schema>)
      requires |resolved| == |Deps()|
      ensures ConstantSchema? ==> r == Returns(schema)
      ensures FormattedSchema? ==> (r.Panics? <==> Ts.Sourcef(format, Zod.UnionMembers(resolved)).Panics?)
      ensures r.Returns? && FormattedSchema? ==> r.value == Zod.ZodTypeExpr(Ts.Fmt(format, Zod.UnionMembers(resolved)))
    {
      match this
      case ConstantSchema(s) => Returns(s)
      case FormattedSchema(f, _) =>
        var src :- Ts.Sourcef(f, Zod.UnionMembers(resolved));
        Returns(Zod.ZodTypeExpr(src))
    }
  }

  /** An argument of `Transformf`: a source is used as it is, a type or a reference is
    * resolved, and anything else makes the callback panic. */
  datatype TransformArg = SourceArg(s: Source) | TypeArg(t: GoType) | RefArg(r: Ref) | OtherArg

  /** The references `Transformf`'s callback resolves, in order: those of the arguments before
    * the first one that makes it panic. */
  function ArgRefs(args: seq<TransformArg>): (refs: seq<Ref>)
    ensures |refs| <= |args|
    ensures OtherArg !in args ==> |refs| == |args| - NumSources(args)
  {
    if |args| == 0 then []
    else match args[0]
      case SourceArg(_) => ArgRefs(args[1..])
      case TypeArg(t) => [PlainRef(t)] + ArgRefs(args[1..])
      case RefArg(r) => [r] + ArgRefs(args[1..])
      case OtherArg => []
  }

  function NumSources(args: seq<TransformArg>): nat {
    if |args| == 0 then 0 else (if args[0].SourceArg? then 1 else 0) + NumSources(args[1..])
  }

  /** The reference a type or reference argument stands for. */
  function RefOf(arg: TransformArg): Ref
    requires arg.TypeArg? || arg.RefArg?
  {
    if arg.TypeArg? then PlainRef(arg.t) else arg.r
  }

  /** Arguments before any unsupported one contribute their references independently. */
  lemma {:induction false} ArgRefsAppend(a: seq<TransformArg>, b: seq<TransformArg>)
    requires OtherArg !in a
    ensures ArgRefs(a + b) == ArgRefs(a) + ArgRefs(b)
  {
    if |a| == 0 {
      assert a + b == b;
    } else {
      assert (a + b)[0] == a[0] && (a + b)[1..] == a[1..] + b;
      assert OtherArg !in a[1..] by {
        assert forall k :: 0 <= k < |a| - 1 ==> a[1..][k] == a[k + 1];
      }
      ArgRefsAppend(a[1..], b);
    }
  }

  /** A type or reference argument with no unsupported argument before it resolves the
    * reference at the position given by the references before it. */
  lemma ArgRefsAt(args: seq<TransformArg>, i: nat)
    requires i < |args| && OtherArg !in args[..i] && (args[i].TypeArg? || args[i].RefArg?)
    ensures |ArgRefs(args[..i])| < |ArgRefs(args)|
    ensures ArgRefs(args)[|ArgRefs(args[..i])|] == RefOf(args[i])
  {
    assert args == args[..i] + ([args[i]] + args[i + 1..]);
    ArgRefsAppend(args[..i], [args[i]] + args[i + 1..]);
    assert ([args[i]] + args[i + 1..])[1..] == args[i + 1..];
  }

  /** How many resolved schemas an argument takes. */
  function Taken(arg: TransformArg): nat {
    if arg.SourceArg? then 0 else 1
  }

  /** The references before a position, as `FillArgs` counts them on the arguments after the
    * first. */
  lemma ArgRefsTail(args: seq<TransformArg>, i: nat)
    requires 1 <= i <= |args| && args[0] != OtherArg
    ensures |ArgRefs(args[..i])| == Taken(args[0]) + |ArgRefs(args[1..][..i - 1])|
  {
    assert args[..i][0] == args[0] && args[..i][1..] == args[1..][..i - 1];
  }

  /** The sources of the arguments, each type or reference replaced by the source of its
    * resolved schema. */
  function FillArgs(args: seq<TransformArg>, resolved: seq<Zod.Schema>): (r: Outcome<seq<Source>>)
    requires |resolved| == |ArgRefs(args)|
    ensures r.Panics? <==> OtherArg in args
    ensures !r.Diverges?
    ensures r.Returns? ==> |r.value| == |args|
    ensures r.Returns? ==> forall i :: 0 <= i < |args| && args[i].SourceArg? ==> r.value[i] == args[i].s
  {
    if |args| == 0 then Returns([])
    else match args[0]
      case SourceArg(s) =>
        var rest :- FillArgs(args[1..], resolved);
        assert forall i :: 1 <= i < |args| ==> args[i] == args[1..][i - 1];
        Returns([s] + rest)
      case TypeArg(_) =>
        var rest :- FillArgs(args[1..], resolved[1..]);
        assert forall i :: 1 <= i < |args| ==> args[i] == args[1..][i - 1];
        Returns([resolved[0].TypeScript()] + rest)
      case RefArg(_) =>
        var rest :- FillArgs(args[1..], resolved[1..]);
        assert forall i :: 1 <= i < |args| ==> args[i] == args[1..][i - 1];
        Returns([resolved[0].TypeScript()] + rest)
      case OtherArg => Panics("unsupported Transformf argument")
  }

  /** `FillArgs` fills the arguments after the first from the schemas the first one leaves. */
  lemma FillArgsTail(args: seq<TransformArg>, resolved: seq<Zod.Schema>)
    requires |args| > 0 && |resolved| == |ArgRefs(args)| && FillArgs(args, resolved).Returns?
    ensures args[0] != OtherArg && Taken(args[0]) <= |resolved|
    ensures |resolved[Taken(args[0])..]| == |ArgRefs(args[1..])|
    ensures FillArgs(args[1..], resolved[Taken(args[0])..]).Returns?
    ensures FillArgs(args, resolved).value[1..] == FillArgs(args[1..], resolved[Taken(args[0])..]).value
    ensures !args[0].SourceArg? ==> FillArgs(args, resolved).value[0] == resolved[0].TypeScript()
  {
    assert args[0] != OtherArg;
    if args[0].SourceArg? {
      assert resolved[0..] == resolved;
    }
  }

  /** `FillArgs` puts the source of the schema resolved for a type or reference argument at
    * that argument's position: the resolved schemas are taken in the order of `ArgRefs`. */
  lemma {:induction false} FillArgsResolved(args: seq<TransformArg>, resolved: seq<Zod.Schema>, i: nat)
    requires |resolved| == |ArgRefs(args)| && FillArgs(args, resolved).Returns?
    requires i < |args| && !args[i].SourceArg?
    ensures |ArgRefs(args[..i])| < |resolved|
    ensures FillArgs(args, resolved).value[i] == resolved[|ArgRefs(args[..i])|].TypeScript()
  {
    FillArgsTail(args, resolved);
    var k := Taken(args[0]);
    var filled := FillArgs(args, resolved).value;
    assert |filled| == |args|;
    if i == 0 {
      assert args[..0] == [];
    } else {
      ArgRefsTail(args, i);
      assert args[1..][i - 1] == args[i];
      var rest := resolved[k..];
      var before := ArgRefs(args[1..][..i - 1]);
      FillArgsResolved(args[1..], rest, i - 1);
      assert |before| < |rest| == |resolved| - k;
      assert rest[|before|] == resolved[k + |before|];
      assert filled[i] == filled[1..][i - 1];
    }
  }

  /** A callback that builds the source of a transform, given the resolver: a constant
    * (`WithTransform`) or the one `Transformf` builds. */
  datatype TransformCallback =
    | ConstantTransform(expr: Source)
    | FormattedTransform(format: string, args: seq<TransformArg>)
  {
    function Deps(): seq<Ref> {
      if ConstantTransform? then [] else ArgRefs(args)
    }

    /** `Transformf`'s callback panics on an unsupported argument, and otherwise as `Sourcef`
      * does. */
    function Build(resolved: seq<Zod.Schema>): (r: Outcome<Source>)
      requires |resolved| == |Deps()|
      ensures ConstantTransform? ==> r == Returns(expr)
      ensures FormattedTransform? && OtherArg in args ==> r.Panics?
      ensures FormattedTransform? && OtherArg !in args ==> exists srcs :: FillArgs(args, resolved) == Returns(srcs) && r == Ts.Sourcef(format, srcs)
    {
      match this
      case ConstantTransform(e) => Returns(e)
      case FormattedTransform(f, a) =>
        var srcs :- FillArgs(a, resolved);
        Ts.Sourcef(f, srcs)
    }
  }

  // ---------------------------------------------------------------------------------
  // The configuration

  datatype JSONDiscriminator = JSONDiscriminator(property: string, value: string)

  datatype JSONDiscriminatedUnion = JSONDiscriminatedUnion(discriminatorProperty: string, types: seq<GoType>)

  /** A `comments.Loader`: the doc comment of each type it knows, and no comment otherwise. */
  datatype CommentsLoader = CommentsLoader(comments: map<GoType, string>)
  {
    function Load(t: GoType): (r: string)
      ensures t !in comments ==> r == ""
    {
      if t in comments then comments[t] else ""
    }
  }

  /** `config`. A Go map that is still nil reads as an empty map, so the tables start empty. */
  datatype Config = Config(
    names: map<GenType, Identifier>,
    unnamedTypes: map<GenType, ()>,
    schemas: map<GenType, SchemaCallback>,
    templates: map<GenType, string>,
    undiscriminatedUnions: map<GenType, seq<GoType>>,
    discriminators: map<GenType, JSONDiscriminator>,
    discriminatedUnions: map<GenType, JSONDiscriminatedUnion>,
    transforms: map<GenType, TransformCallback>,
    commentsLoader: Option<CommentsLoader>)

  const EmptyConfig := Config(map[], map[], map[], map[], map[], map[], map[], map[], None)

  /** The options, and `TypeOptions`, which applies a list of options. */
  datatype ConfigOption =
    | WithName(t: GenType, name: string)
    | WithUnnamedType(t: GenType)
    | WithResolvingSchema(t: GenType, schema: SchemaCallback)
    | WithTemplate(t: GenType, template: string)
    | WithUndiscriminatedUnion(t: GenType, types: seq<GoType>)
    | WithDiscriminator(t: GenType, property: string, value: string)
    | WithDiscriminatedUnion(t: GenType, discriminatorProperty: string, types: seq<GoType>)
    | WithResolvingTransform(t: GenType, expr: TransformCallback)
    | WithCommentsLoader(loader: CommentsLoader)
    | WithTypeOptions(o: TypeOptions)

  /** `WithSchema`: a callback that ignores the resolver. */
  function WithSchema(t: GenType, schema: Zod.Schema): (o: ConfigOption)
    ensures forall c :: Apply(o, c).schemas == c.schemas[t := ConstantSchema(schema)]
  {
    WithResolvingSchema(t, ConstantSchema(schema))
  }

  /** `WithTransform`: a callback that ignores the resolver. */
  function WithTransform(t: GenType, expr: Source): (o: ConfigOption)
    ensures forall c :: Apply(o, c).transforms == c.transforms[t := ConstantTransform(expr)]
  {
    WithResolvingTransform(t, ConstantTransform(expr))
  }

  /** What applying an option does to the configuration: each `With*` option sets the entry for
    * its type in its own table, and options for type options are applied in order. */
  function Apply(o: ConfigOption, c: Config): (r: Config)
    decreases o
  {
    match o
    case WithName(t, n) => c.(names := c.names[t := n])
    case WithUnnamedType(t) => c.(unnamedTypes := c.unnamedTypes[t := ()])
    case WithResolvingSchema(t, s) => c.(schemas := c.schemas[t := s])
    case WithTemplate(t, tpl) => c.(templates := c.templates[t := tpl])
    case WithUndiscriminatedUnion(t, types) => c.(undiscriminatedUnions := c.undiscriminatedUnions[t := types])
    case WithDiscriminator(t, p, v) => c.(discriminators := c.discriminators[t := JSONDiscriminator(p, v)])
    case WithDiscriminatedUnion(t, p, types) => c.(discriminatedUnions := c.discriminatedUnions[t := JSONDiscriminatedUnion(p, types)])
    case WithResolvingTransform(t, e) => c.(transforms := c.transforms[t := e])
    case WithCommentsLoader(l) => c.(commentsLoader := Some(l))
    case WithTypeOptions(to) => ApplyAll(to.options, c)
  }

  /** The options applied one after the other, the first one first. */
  function ApplyAll(os: seq<ConfigOption>, c: Config): (r: Config)
    decreases os
  {
    if |os| == 0 then c else Apply(os[|os| - 1], ApplyAll(os[..|os| - 1], c))
  }

  /** Applying a list of options is applying its two halves in turn. */
  lemma {:induction false} ApplyAllAppend(a: seq<ConfigOption>, b: seq<ConfigOption>, c: Config)
    ensures ApplyAll(a + b, c) == ApplyAll(b, ApplyAll(a, c))
    decreases |b|
  {
    if |b| == 0 {
      assert a + b == a;
    } else {
      var b' := b[..|b| - 1];
      assert (a + b)[..|a + b| - 1] == a + b';
      assert (a + b)[|a + b| - 1] == b[|b| - 1];
      ApplyAllAppend(a, b', c);
    }
  }

  /** Two options that set the same entry of the same table. */
  predicate SameEntry(o1: ConfigOption, o2: ConfigOption) {
    match (o1, o2)
    case (WithName(t1, _), WithName(t2, _)) => t1 == t2
    case (WithUnnamedType(t1), WithUnnamedType(t2)) => t1 == t2
    case (WithResolvingSchema(t1, _), WithResolvingSchema(t2, _)) => t1 == t2
    case (WithTemplate(t1, _), WithTemplate(t2, _)) => t1 == t2
    case (WithUndiscriminatedUnion(t1, _), WithUndiscriminatedUnion(t2, _)) => t1 == t2
    case (WithDiscriminator(t1, _, _), WithDiscriminator(t2, _, _)) => t1 == t2
    case (WithDiscriminatedUnion(t1, _, _), WithDiscriminatedUnion(t2, _, _)) => t1 == t2
    case (WithResolvingTransform(t1, _), WithResolvingTransform(t2, _)) => t1 == t2
    case (WithCommentsLoader(_), WithCommentsLoader(_)) => true
    case _ => false
  }

  /** A later option for the same type and table overwrites an earlier one, whatever came
    * before. */
  lemma LaterOptionOverrides(os: seq<ConfigOption>, o1: ConfigOption, o2: ConfigOption, c: Config)
    requires SameEntry(o1, o2)
    ensures ApplyAll(os + [o1, o2], c) == ApplyAll(os + [o2], c)
  {
    ApplyAllAppend(os, [o1, o2], c);
    ApplyAllAppend(os, [o2], c);
    var d := ApplyAll(os, c);
    assert [o1, o2][..1] == [o1];
    assert ApplyAll([o1, o2], d) == Apply(o2, Apply(o1, d));
    assert ApplyAll([o2], d) == Apply(o2, d);
    OverwritesEntry(o1, o2, d);
  }

  lemma OverwritesEntry(o1: ConfigOption, o2: ConfigOption, d: Config)
    requires SameEntry(o1, o2)
    ensures Apply(o2, Apply(o1, d)) == Apply(o2, d)
  {
    match (o1, o2)
    case (WithName(t, a), WithName(_, b)) => Overwrite(d.names, t, a, b);
    case (WithUnnamedType(t), WithUnnamedType(_)) => Overwrite(d.unnamedTypes, t, (), ());
    case (WithResolvingSchema(t, a), WithResolvingSchema(_, b)) => Overwrite(d.schemas, t, a, b);
    case (WithTemplate(t, a), WithTemplate(_, b)) => Overwrite(d.templates, t, a, b);
    case (WithUndiscriminatedUnion(t, a), WithUndiscriminatedUnion(_, b)) =>
      Overwrite(d.undiscriminatedUnions, t, a, b);
    case (WithDiscriminator(t, p1, v1), WithDiscriminator(_, p2, v2)) =>
      Overwrite(d.discriminators, t, JSONDiscriminator(p1, v1), JSONDiscriminator(p2, v2));
    case (WithDiscriminatedUnion(t, p1, a), WithDiscriminatedUnion(_, p2, b)) =>
      Overwrite(d.discriminatedUnions, t, JSONDiscriminatedUnion(p1, a), JSONDiscriminatedUnion(p2, b));
    case (WithResolvingTransform(t, a), WithResolvingTransform(_, b)) => Overwrite(d.transforms, t, a, b);
    case _ =>
  }

  /** Setting a key twice keeps the second value. */
  lemma Overwrite<K, V>(m: map<K, V>, k: K, a: V, b: V)
    ensures m[k := a][k := b] == m[k := b]
  {
  }

  /** The default comments loader, in place when no option configured one. */
  function WithDefaultLoader(c: Config, defaultLoader: CommentsLoader): (r: Config)
    ensures r.commentsLoader.Some?
    ensures c.commentsLoader.Some? ==> r == c
    ensures c.commentsLoader.None? ==> r == c.(commentsLoader := Some(defaultLoader))
  {
    if c.commentsLoader.None? then c.(commentsLoader := Some(defaultLoader)) else c
  }

  /** `apply` of an option. Type options apply their options one by one. */
  method ApplyOption(o: ConfigOption, c: Config) returns (r: Config)
    ensures r == Apply(o, c)
    decreases o
  {
    if o.WithTypeOptions? {
      r := c;
      var options := o.o.options;
      for i := 0 to |options|
        invariant r == ApplyAll(options[..i], c)
      {
        assert options[..i + 1][..i] == options[..i];
        r := ApplyOption(options[i], r);
      }
      assert options[..|options|] == options;
    } else {
      r := Apply(o, c);
    }
  }

  /** `newConfig`: the options applied in order to empty tables, then the default comments
    * loader (`comments.NewLoader()`, a parameter here) unless an option set one. */
  method NewConfig(options: seq<ConfigOption>, defaultLoader: CommentsLoader) returns (c: Config)
    ensures c == WithDefaultLoader(ApplyAll(options, EmptyConfig), defaultLoader)
    ensures c.commentsLoader == (if ApplyAll(options, EmptyConfig).commentsLoader.Some? then ApplyAll(options, EmptyConfig).commentsLoader else Some(defaultLoader))
  {
    c := EmptyConfig;
    for i := 0 to |options|
      invariant c == ApplyAll(options[..i], EmptyConfig)
    {
      assert options[..i + 1][..i] == options[..i];
      c := ApplyOption(options[i], c);
    }
    assert options[..|options|] == options;
    if c.commentsLoader.None? {
      c := c.(commentsLoader := Some(defaultLoader));
    }
  }

  // ---------------------------------------------------------------------------------
  // Type options

  /** `TypeOptions`: options gathered for one type. */
  datatype TypeOptions = TypeOptions(t: GenType, options: seq<ConfigOption>)
  {
    /** `add`: a new value whose options are the receiver's followed by the new ones. The
      * receiver is a value here, so it stays as it was; the Go code clips its slice so that
      * appending cannot write into the receiver's backing array either. */
    function Add(more: seq<ConfigOption>): (r: TypeOptions)
      ensures r.t == t && |r.options| == |options| + |more|
      ensures r.options[..|options|] == options && r.options[|options|..] == more
    {
      TypeOptions(t, options + more)
    }

    function Unnamed(): (r: TypeOptions)
      ensures r == Add([WithUnnamedType(t)])
    {
      Add([WithUnnamedType(t)])
    }

    function Schema(schema: Zod.Schema): (r: TypeOptions)
      ensures r == Add([WithSchema(t, schema)])
    {
      Add([WithSchema(t, schema)])
    }

    function ResolvingSchema(schema: SchemaCallback): (r: TypeOptions)
      ensures r == Add([WithResolvingSchema(t, schema)])
    {
      Add([WithResolvingSchema(t, schema)])
    }

    function Template(template: string): (r: TypeOptions)
      ensures r == Add([WithTemplate(t, template)])
    {
      Add([WithTemplate(t, template)])
    }

    function Named(name: string): (r: TypeOptions)
      ensures r == Add([WithName(t, name)])
    {
      Add([WithName(t, name)])
    }

    function ResolvingTransform(f: TransformCallback): (r: TypeOptions)
      ensures r == Add([WithResolvingTransform(t, f)])
    {
      Add([WithResolvingTransform(t, f)])
    }

    function Transform(f: Source): (r: TypeOptions)
      ensures r == Add([WithTransform(t, f)])
    {
      Add([WithTransform(t, f)])
    }

    /** `Transformf(format, as...)`: a transform callback that resolves the type and
      * reference arguments and formats the sources. */
    function Transformf(format: string, args: seq<TransformArg>): (r: TypeOptions)
      ensures r == Add([WithResolvingTransform(t, FormattedTransform(format, args))])
    {
      Add([WithResolvingTransform(t, FormattedTransform(format, args))])
    }

    function UndiscriminatedUnionOf(disjuncts: seq<GoType>): (r: ConfigOption)
      ensures r == WithTypeOptions(Add([WithUndiscriminatedUnion(t, disjuncts)]))
    {
      WithTypeOptions(Add([WithUndiscriminatedUnion(t, disjuncts)]))
    }
  }

  /** Applying added options is applying the receiver's options, then the new ones. */
  lemma AddApplies(o: TypeOptions, more: seq<ConfigOption>, c: Config)
    ensures Apply(WithTypeOptions(o.Add(more)), c) == ApplyAll(more, Apply(WithTypeOptions(o), c))
  {
    ApplyAllAppend(o.options, more, c);
  }

  /** A configured name set through type options is the one `names` holds afterwards. */
  lemma NamedApplies(o: TypeOptions, name: string, c: Config)
    ensures Apply(WithTypeOptions(o.Named(name)), c).names == Apply(WithTypeOptions(o), c).names[o.t := name]
  {
    AddApplies(o, [WithName(o.t, name)], c);
    assert ApplyAll([WithName(o.t, name)], Apply(WithTypeOptions(o), c)) == Apply(WithName(o.t, name), Apply(WithTypeOptions(o), c));
  }

  function ForType(t: GenType): (r: TypeOptions)
    ensures r.t == t && r.options == []
  {
    TypeOptions(t, [])
  }

  /** `WhenGeneric` over the corrected projection: the type options of the type constructor
    * of `t`, which panics when the projection leaves `t` as it is. */
  function WhenGeneric(t: GoType): (r: Outcome<TypeOptions>)
    ensures r.Panics? <==> !t.IsGeneric()
    ensures !r.Diverges?
    ensures r.Returns? ==> r.value == ForType(Constructor(NewGenericType(t)))
  {
    var generic := WithoutTypeArguments(Concrete(t));
    if generic != Concrete(t) then Returns(ForType(generic)) else Panics("WhenGeneric of a non-generic type")
  }

  /** `WhenGeneric` as written: the projection itself panics for a map type without `[` in
    * its name, and otherwise it agrees with the corrected `WhenGeneric`. */
  function WhenGenericAsWritten(t: GoType): (r: Outcome<TypeOptions>)
    ensures r.Panics? <==> !t.IsGeneric() || (t.kind == Map && '[' !in t.name)
    ensures !r.Diverges?
    ensures r.Returns? ==> r == WhenGeneric(t)
  {
    match WithoutTypeArgumentsAsWritten(Concrete(t))
    case Returns(generic) =>
      if generic != Concrete(t) then Returns(ForType(generic)) else Panics("WhenGeneric of a non-generic type")
    case Panics(m) => Panics(m)
    case Diverges => Diverges
  }

  // ---------------------------------------------------------------------------------
  // Lookup

  /** `lookupConfig` over the corrected projection: the entry for the type itself, else the
    * entry for its type constructor. */
  function LookupConfig<T>(m: map<GenType, T>, t: GoType): (r: Option<T>)
    ensures r.Some? <==> Concrete(t) in m || WithoutTypeArguments(Concrete(t)) in m
    ensures Concrete(t) in m ==> r == Some(m[Concrete(t)])
    ensures Concrete(t) !in m && WithoutTypeArguments(Concrete(t)) in m ==> r == Some(m[WithoutTypeArguments(Concrete(t))])
  {
    if Concrete(t) in m then Some(m[Concrete(t)])
    else if WithoutTypeArguments(Concrete(t)) in m then Some(m[WithoutTypeArguments(Concrete(t))])
    else None
  }

  /** `lookupConfig` as written: a type without an entry of its own falls back on the
    * projection, which panics for a map type without `[` in its name; otherwise it agrees
    * with the corrected `LookupConfig`. */
  function LookupConfigAsWritten<T>(m: map<GenType, T>, t: GoType): (r: Outcome<Option<T>>)
    ensures r.Panics? <==> Concrete(t) !in m && t.kind == Map && '[' !in t.name
    ensures !r.Diverges?
    ensures r.Returns? ==> r.value == LookupConfig(m, t)
  {
    if Concrete(t) in m then Returns(Some(m[Concrete(t)]))
    else
      var projected := WithoutTypeArgumentsAsWritten(Concrete(t));
      assert projected.Returns? ==> projected.value == WithoutTypeArguments(Concrete(t));
      match projected
      case Returns(generic) => Returns(if generic in m then Some(m[generic]) else None)
      case Panics(msg) => Panics(msg)
      case Diverges => Diverges
  }

  /** An unconfigured `map[string]int` makes the lookup as written panic, where the corrected
    * lookup finds no entry. */
  lemma UnconfiguredMapLookupPanics<T>(m: map<GenType, T>, t: GoType)
    requires t.kind == Map && '[' !in t.name && Concrete(t) !in m
    requires Constructor(NewGenericType(t)) !in m
    ensures LookupConfigAsWritten(m, t).Panics?
    ensures LookupConfig(m, t) == None
  {
  }

  /** A type that is not generic is looked up under itself alone. */
  lemma LookupNonGeneric<T>(m: map<GenType, T>, t: GoType)
    requires !t.IsGeneric()
    ensures LookupConfig(m, t) == (if Concrete(t) in m then Some(m[Concrete(t)]) else None)
  {
  }

  /** An entry for a type constructor configures every instance that has no entry of its own. */
  lemma InstancesShareConstructorEntry<T>(m: map<GenType, T>, t1: GoType, t2: GoType)
    requires t1.IsGeneric() && t2.IsGeneric()
    requires NewGenericType(t1) == NewGenericType(t2)
    requires Concrete(t1) !in m && Concrete(t2) !in m
    ensures LookupConfig(m, t1) == LookupConfig(m, t2)
  {
  }
}
