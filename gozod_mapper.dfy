// The memoizing mapper of gotypes/gozod/mapper.go, the accounting resolver of
// gotypes/gozod/resolver.go and the builder of gotypes/gozod/zod_type_builder.go. The three call
// one another: the mapper builds an input with a fresh accounting resolver, the builder resolves
// the types an input refers to through that resolver, and the resolver asks the mapper. Go
// caches an input only after its build returns, so a configuration that names the type being
// built (a callback or a union member) recurses without end. Every resolution therefore
// carries fuel, and running out of it gives `Diverges`. Self-referential Go types cannot be
// written as a finite `GoType` and are outside the model.

module GoZodMapper {
  import opened Outcomes
  import opened TsSource
  import opened GoInsp
  import opened GoZodConfig
  import opened GoZodRules
  import opened GoZodJson
  import GoZodTemplating
  import Zod

  // ---------------------------------------------------------------------------------
  // Accounting

  /** `accountingInfo`: the names a value depends on and how deep its dependencies go. */
  datatype AccountingInfo = AccountingInfo(dependencies: set<Identifier>, depth: nat)

  /** `withAccounting`. */
  datatype WithAccounting<T> = WithAccounting(value: T, info: AccountingInfo)

  /** `mappedValue`: the input of a declaration, the declaration with the accounting of its
    * build, and the reference that stands for it elsewhere. */
  datatype MappedValue = MappedValue(input: Ref, declaration: WithAccounting<Zod.SchemaAndTypeDeclaration>, reference: WithAccounting<Zod.Schema>)

  /** What `Build` returns: the schema and, for a named input, its declaration. */
  datatype Built = Built(schema: Zod.Schema, declaration: Option<Zod.SchemaAndTypeDeclaration>)

  const NoAccounting := AccountingInfo({}, 0)

  /** What `accountingResolver.Resolve` folds into `Observed`: the larger depth and the union of
    * the dependencies. */
  function Observe(observed: AccountingInfo, info: AccountingInfo): (r: AccountingInfo)
    ensures r.depth == if observed.depth >= info.depth then observed.depth else info.depth
    ensures r.dependencies == observed.dependencies + info.dependencies
  {
    AccountingInfo(observed.dependencies + info.dependencies, if observed.depth >= info.depth then observed.depth else info.depth)
  }

  /** Observed accounting only grows. */
  predicate ObservedGrows(before: AccountingInfo, after: AccountingInfo) {
    before.dependencies <= after.dependencies && before.depth <= after.depth
  }

  lemma ObserveGrows(observed: AccountingInfo, info: AccountingInfo)
    ensures ObservedGrows(observed, Observe(observed, info))
    ensures ObservedGrows(info, Observe(observed, info))
  {
  }

  /** The order of observations does not matter. */
  lemma ObserveCommutes(o: AccountingInfo, a: AccountingInfo, b: AccountingInfo)
    ensures Observe(Observe(o, a), b) == Observe(Observe(o, b), a)
  {
  }

  /** An accounting whose dependencies are all declared, each with a shallower declaration. */
  predicate WellAccounted(decls: map<Identifier, MappedValue>, info: AccountingInfo) {
    forall n :: n in info.dependencies ==> n in decls && decls[n].declaration.info.depth < info.depth
  }

  lemma ObserveWellAccounted(decls: map<Identifier, MappedValue>, observed: AccountingInfo, info: AccountingInfo)
    requires WellAccounted(decls, observed) && WellAccounted(decls, info)
    ensures WellAccounted(decls, Observe(observed, info))
  {
  }

  /** The declarations only grow: an entry, once made, stays as it is. */
  predicate Grows(before: map<Identifier, MappedValue>, after: map<Identifier, MappedValue>) {
    forall n :: n in before ==> n in after && after[n] == before[n]
  }

  /** Cached inputs stay cached, under the same identifier. */
  predicate NamesKept(before: map<Ref, Identifier>, after: map<Ref, Identifier>) {
    forall a :: a in before ==> a in after && after[a] == before[a]
  }

  /** The state an accounting resolver sees: the mapper's tables and its own observations. */
  datatype ResolverState = ResolverState(names: map<Ref, Identifier>, decls: map<Identifier, MappedValue>, observed: AccountingInfo)

  /** What a resolution step may do: declare more, cache more and observe more. */
  predicate Progressed(before: ResolverState, after: ResolverState) {
    Grows(before.decls, after.decls) && NamesKept(before.names, after.names) && ObservedGrows(before.observed, after.observed)
  }

  lemma ProgressedTransitive(a: ResolverState, b: ResolverState, c: ResolverState)
    requires Progressed(a, b) && Progressed(b, c)
    ensures Progressed(a, c)
  {
  }

  lemma WellAccountedGrows(d1: map<Identifier, MappedValue>, d2: map<Identifier, MappedValue>, info: AccountingInfo)
    requires Grows(d1, d2) && WellAccounted(d1, info)
    ensures WellAccounted(d2, info)
  {
  }

  /** A declaration entry as `Resolve` makes it: under its own identifier, with a reference
    * that depends on that identifier alone and is one level deeper, and with an accounting
    * whose dependencies were all declared before. */
  predicate EntryValid(decls: map<Identifier, MappedValue>, n: Identifier)
    requires n in decls
  {
    var d := decls[n];
    d.declaration.value.identifier == n
    && d.reference.info == AccountingInfo({n}, d.declaration.info.depth + 1)
    && WellAccounted(decls, d.declaration.info)
  }

  predicate DeclarationsValid(decls: map<Identifier, MappedValue>) {
    forall n :: n in decls ==> EntryValid(decls, n)
  }

  /** Adding a valid entry under a new identifier keeps the table valid. */
  lemma AddEntry(decls: map<Identifier, MappedValue>, n: Identifier, v: MappedValue)
    requires DeclarationsValid(decls) && n !in decls
    requires EntryValid(decls[n := v], n)
    ensures DeclarationsValid(decls[n := v])
    ensures Grows(decls, decls[n := v])
  {
    var d' := decls[n := v];
    forall m | m in d' ensures EntryValid(d', m) {
      if m != n {
        assert EntryValid(decls, m);
        WellAccountedGrows(decls, d', decls[m].declaration.info);
      }
    }
  }

  /** The dependencies of a valid table never form a cycle: following a dependency always
    * leads to a strictly shallower declaration. */
  lemma DependenciesAreShallower(decls: map<Identifier, MappedValue>, n: Identifier, m: Identifier)
    requires DeclarationsValid(decls) && n in decls
    requires m in decls[n].declaration.info.dependencies
    ensures m in decls && decls[m].declaration.info.depth < decls[n].declaration.info.depth
    ensures m != n
  {
    assert EntryValid(decls, n);
  }

  /** Every input that gets a name is cached. */
  predicate AllCached(c: Config, inputs: seq<Ref>, names: map<Ref, Identifier>) {
    forall j :: 0 <= j < |inputs| && Name(c, inputs[j]).Some? ==> inputs[j] in names
  }

  lemma CachedStep(c: Config, inputs: seq<Ref>, i: nat, before: map<Ref, Identifier>, after: map<Ref, Identifier>)
    requires i < |inputs|
    requires AllCached(c, inputs[..i], before) && NamesKept(before, after)
    requires Name(c, inputs[i]).Some? ==> inputs[i] in after
    ensures AllCached(c, inputs[..i + 1], after)
  {
    var prefix := inputs[..i + 1];
    forall j | 0 <= j < |prefix| && Name(c, prefix[j]).Some?
      ensures prefix[j] in after
    {
      if j < i {
        assert prefix[j] == inputs[..i][j];
      }
    }
  }

  /** Each named reference among `refs` resolved to the reference of its declaration. */
  predicate ResolvedAsDeclared(c: Config, names: map<Ref, Identifier>, decls: map<Identifier, MappedValue>, refs: seq<Ref>, schemas: seq<Zod.Schema>) {
    |schemas| == |refs|
    && forall i :: 0 <= i < |refs| && Name(c, refs[i]).Some? ==>
         refs[i] in names && names[refs[i]] in decls && schemas[i] == decls[names[refs[i]]].reference.value
  }

  /** Two resolutions in a row: the first one's result survives the second. */
  lemma ResolvedAsDeclaredPair(c: Config, a: Ref, x: Zod.Schema, b: Ref, y: Zod.Schema,
                               names: map<Ref, Identifier>, decls: map<Identifier, MappedValue>,
                               names': map<Ref, Identifier>, decls': map<Identifier, MappedValue>)
    requires Name(c, a).Some? ==> a in names && names[a] in decls && x == decls[names[a]].reference.value
    requires NamesKept(names, names') && Grows(decls, decls')
    requires Name(c, b).Some? ==> b in names' && names'[b] in decls' && y == decls'[names'[b]].reference.value
    ensures ResolvedAsDeclared(c, names', decls', [a, b], [x, y])
  {
  }

  lemma ResolvedAsDeclaredStep(c: Config, refs: seq<Ref>, i: nat, schemas: seq<Zod.Schema>, s: Zod.Schema,
                               names: map<Ref, Identifier>, decls: map<Identifier, MappedValue>,
                               names': map<Ref, Identifier>, decls': map<Identifier, MappedValue>)
    requires i < |refs|
    requires ResolvedAsDeclared(c, names, decls, refs[..i], schemas)
    requires NamesKept(names, names') && Grows(decls, decls')
    requires Name(c, refs[i]).Some? ==>
      refs[i] in names' && names'[refs[i]] in decls' && s == decls'[names'[refs[i]]].reference.value
    ensures ResolvedAsDeclared(c, names', decls', refs[..i + 1], schemas + [s])
  {
    var prefix := refs[..i + 1];
    forall j | 0 <= j < |prefix| && Name(c, prefix[j]).Some?
      ensures prefix[j] in names' && names'[prefix[j]] in decls' && (schemas + [s])[j] == decls'[names'[prefix[j]]].reference.value
    {
      if j < i {
        assert prefix[j] == refs[..i][j];
      }
    }
  }

  // ---------------------------------------------------------------------------------
  // The mapper

  /** `mapper` with the Zod builder: inputs already declared are cached by input, and the
    * declarations are kept by identifier. */
  class Mapper {
    var namesByInput: map<Ref, Identifier>
    var declarations: map<Identifier, MappedValue>
    const builder: ZodTypeBuilder

    /** The cache and the table agree: each cached input is the input of the declaration under
      * its name, and that name is the one the configuration gives the input. */
    predicate Valid()
      reads this
    {
      builder.config.commentsLoader.Some?
      && DeclarationsValid(declarations)
      && forall a :: a in namesByInput ==>
           namesByInput[a] in declarations && declarations[namesByInput[a]].input == a
           && Name(builder.config, a) == Some(namesByInput[a])
    }

    /** `newMapper`: empty tables. */
    constructor (builder: ZodTypeBuilder)
      requires builder.config.commentsLoader.Some?
      ensures this.builder == builder
      ensures namesByInput == map[] && declarations == map[]
      ensures Valid()
    {
      this.builder := builder;
      namesByInput := map[];
      declarations := map[];
    }

    /** `Resolve`: a cached input gives its reference; otherwise the input is built with a fresh
      * accounting resolver. Without a declaration the schema comes with the observed
      * accounting and nothing is cached; a declaration under an identifier already taken
      * panics; otherwise the declaration is stored with the observed accounting, the input
      * is cached, and the reference depends on the new name alone, one level deeper. */
    method Resolve(a: Ref, fuel: nat) returns (r: Outcome<WithAccounting<Zod.Schema>>)
      requires Valid()
      modifies this
      ensures Valid()
      ensures Grows(old(declarations), declarations) && NamesKept(old(namesByInput), namesByInput)
      ensures a in old(namesByInput) ==>
        r == Returns(old(declarations)[old(namesByInput)[a]].reference)
        && declarations == old(declarations) && namesByInput == old(namesByInput)
      ensures r.Returns? ==> WellAccounted(declarations, r.value.info)
      ensures r.Returns? && Name(builder.config, a).Some? ==> a in namesByInput
      ensures r.Returns? && a !in old(namesByInput) && Name(builder.config, a).Some? ==>
        var n := Name(builder.config, a).value;
        a in namesByInput && namesByInput[a] == n
        && n !in old(declarations) && n in declarations && declarations[n].input == a
        && r.value == declarations[n].reference
        && r.value.value == declarations[n].declaration.value.schema.DeclaredAs(n)
        && r.value.info == AccountingInfo({n}, declarations[n].declaration.info.depth + 1)
      ensures a !in old(namesByInput) && fuel == 0 ==> r.Diverges?
      decreases fuel, 0
    {
      if a in namesByInput {
        return Returns(declarations[namesByInput[a]].reference);
      }
      if fuel == 0 {
        return Diverges;
      }
      var res := new AccountingResolver(this);
      var built :- builder.Build(a, res, fuel - 1);
      r := Store(a, built, res.observed);
    }

    /** The end of `Resolve`: a build without a declaration is returned with its accounting;
      * a declaration is stored, unless its identifier is taken, and its reference returned. */
    method Store(a: Ref, built: Built, observed: AccountingInfo) returns (r: Outcome<WithAccounting<Zod.Schema>>)
      requires Valid() && WellAccounted(declarations, observed)
      requires built.declaration.Some? ==> Name(builder.config, a) == Some(built.declaration.value.identifier)
      modifies this
      ensures Valid()
      ensures Grows(old(declarations), declarations) && NamesKept(old(namesByInput), namesByInput)
      ensures built.declaration.None? ==>
        r == Returns(WithAccounting(built.schema, observed)) && declarations == old(declarations) && namesByInput == old(namesByInput)
      ensures built.declaration.Some? && built.declaration.value.identifier in old(declarations) ==> r.Panics?
      ensures built.declaration.Some? && built.declaration.value.identifier !in old(declarations) ==>
        var n := built.declaration.value.identifier;
        var decl := MappedValue(a, WithAccounting(built.declaration.value, observed),
                                WithAccounting(built.schema, AccountingInfo({n}, observed.depth + 1)));
        declarations == old(declarations)[n := decl] && namesByInput == old(namesByInput)[a := n]
        && r == Returns(decl.reference)
      ensures r.Returns? ==> WellAccounted(declarations, r.value.info)
    {
      if built.declaration.None? {
        return Returns(WithAccounting(built.schema, observed));
      }
      var declaration := built.declaration.value;
      var name := declaration.Identifier();
      if name in declarations {
        return Panics("would declare the input under a name that another declaration already has");
      }
      var decl := MappedValue(a, WithAccounting(declaration, observed),
                              WithAccounting(built.schema, AccountingInfo({name}, observed.depth + 1)));
      WellAccountedGrows(declarations, declarations[name := decl], observed);
      AddEntry(declarations, name, decl);
      declarations := declarations[name := decl];
      namesByInput := namesByInput[a := name];
      return Returns(decl.reference);
    }

    /** `ResolveAll`: the inputs resolved in order, the results dropped. */
    method ResolveAll(inputs: seq<Ref>, fuel: nat) returns (r: Outcome<()>)
      requires Valid()
      modifies this
      ensures Valid()
      ensures Grows(old(declarations), declarations) && NamesKept(old(namesByInput), namesByInput)
      ensures r.Returns? ==> AllCached(builder.config, inputs, namesByInput)
    {
      for i := 0 to |inputs|
        invariant Valid()
        invariant Grows(old(declarations), declarations) && NamesKept(old(namesByInput), namesByInput)
        invariant AllCached(builder.config, inputs[..i], namesByInput)
      {
        ghost var before := namesByInput;
        var resolved := Resolve(inputs[i], fuel);
        if resolved.IsFailure() {
          return resolved.PropagateFailure();
        }
        CachedStep(builder.config, inputs, i, before, namesByInput);
      }
      assert inputs[..|inputs|] == inputs;
      return Returns(());
    }
  }

  /** `NewMapper(options...)`: the configuration the options make, with the default comments
    * loader (a parameter here) unless an option set one, and empty tables. */
  method NewMapper(options: seq<ConfigOption>, defaultLoader: CommentsLoader) returns (m: Mapper)
    ensures fresh(m) && m.Valid()
    ensures m.builder.config == WithDefaultLoader(ApplyAll(options, EmptyConfig), defaultLoader)
    ensures m.namesByInput == map[] && m.declarations == map[]
  {
    var c := NewConfig(options, defaultLoader);
    m := new Mapper(ZodTypeBuilder(c));
  }

  // ---------------------------------------------------------------------------------
  // The accounting resolver

  /** `accountingResolver`: resolves through the mapper and folds the accounting of every
    * result into `observed`. */
  class AccountingResolver {
    const delegate: Mapper
    var observed: AccountingInfo

    function State(): ResolverState
      reads this, delegate
    {
      ResolverState(delegate.namesByInput, delegate.declarations, observed)
    }

    predicate Valid()
      reads this, delegate
    {
      delegate.Valid() && WellAccounted(delegate.declarations, observed)
    }

    /** `newAccountingResolver`: nothing observed yet. */
    constructor (delegate: Mapper)
      requires delegate.Valid()
      ensures this.delegate == delegate && observed == NoAccounting
      ensures Valid()
    {
      this.delegate := delegate;
      observed := NoAccounting;
    }

    /** `Resolve`: the mapper's value, after folding its accounting into `observed`. */
    method Resolve(a: Ref, fuel: nat) returns (r: Outcome<Zod.Schema>)
      requires Valid()
      modifies this, delegate
      ensures Valid() && Progressed(old(State()), State())
      ensures r.Returns? ==> exists info :: WellAccounted(delegate.declarations, info) && observed == Observe(old(observed), info)
      ensures a in old(delegate.namesByInput) ==>
        var cached := old(delegate.declarations)[old(delegate.namesByInput)[a]].reference;
        r == Returns(cached.value) && observed == Observe(old(observed), cached.info)
      ensures r.Returns? && Name(delegate.builder.config, a).Some? ==>
        a in delegate.namesByInput
        && var declared := delegate.declarations[delegate.namesByInput[a]].reference;
        r.value == declared.value && observed == Observe(old(observed), declared.info)
      decreases fuel, 1
    {
      var resolved :- delegate.Resolve(a, fuel);
      WellAccountedGrows(old(delegate.declarations), delegate.declarations, observed);
      ObserveWellAccounted(delegate.declarations, observed, resolved.info);
      ObserveGrows(observed, resolved.info);
      observed := Observe(observed, resolved.info);
      return Returns(resolved.value);
    }
  }

  // ---------------------------------------------------------------------------------
  // Struct helpers

  /** The tag keys and flags the builder reads. */
  const JSONKey := "json"
  const GotypesKey := "gotypes"
  const ValueFlag := "value"
  const OmitemptyFlag := "omitempty"
  const StringFlag := "string"
  const NullableFlag := "nullable"

  /** The field schema `resolveFieldSchema` makes of a resolved schema: the `string` flag
    * counts only where the kind supports it. */
  function FieldSchemaFor(resolved: Zod.Schema, t: GoType, jsonTag: string, tsgenTag: string): Zod.Schema {
    FieldSchema(resolved, StringFlag in Flags(jsonTag) && KindSupportsJSONStringFlag(t) == Returns(true),
      NullableFlag in Flags(tsgenTag), OmitemptyFlag in Flags(jsonTag))
  }

  /** Whether a field carries the `gotypes:"value"` flag. */
  predicate IsValueField(field: StructField) {
    ValueFlag in Flags(field.TagGet(GotypesKey))
  }

  predicate HasValueField(fields: seq<StructField>) {
    exists i :: 0 <= i < |fields| && IsValueField(fields[i])
  }

  /** The first position at or after `from` whose flag is set. */
  function FirstFrom(flagged: seq<bool>, from: nat): (k: nat)
    requires exists i :: from <= i < |flagged| && flagged[i]
    ensures from <= k < |flagged| && flagged[k]
    ensures forall j :: from <= j < k ==> !flagged[j]
    decreases |flagged| - from
  {
    if flagged[from] then from else FirstFrom(flagged, from + 1)
  }

  /** For each field, whether it carries the `gotypes:"value"` flag. */
  function ValueFlags(fields: seq<StructField>): (r: seq<bool>)
    ensures |r| == |fields| && forall j :: 0 <= j < |fields| ==> r[j] == IsValueField(fields[j])
  {
    seq(|fields|, j requires 0 <= j < |fields| => IsValueField(fields[j]))
  }

  /** The position of the first `gotypes:"value"` field. */
  function FirstValueField(fields: seq<StructField>): (k: nat)
    requires HasValueField(fields)
    ensures k < |fields| && IsValueField(fields[k])
    ensures forall j :: 0 <= j < k ==> !IsValueField(fields[j])
  {
    var flagged := ValueFlags(fields);
    assert exists i :: 0 <= i < |flagged| && flagged[i] by {
      var i :| 0 <= i < |fields| && IsValueField(fields[i]);
      assert flagged[i];
    }
    FirstFrom(flagged, 0)
  }

  /** The property names the visits give, in order. */
  function FieldNames(visits: seq<Visit>): (r: seq<string>)
    ensures |r| <= |visits|
  {
    if |visits| == 0 then []
    else FieldNames(visits[..|visits| - 1]) + (if visits[|visits| - 1].PropertyField? then [visits[|visits| - 1].name] else [])
  }

  /** The embedded types the visits give, in order. */
  function EmbeddedTypes(visits: seq<Visit>): (r: seq<GoType>)
    ensures |r| <= |visits|
  {
    if |visits| == 0 then []
    else EmbeddedTypes(visits[..|visits| - 1]) + (if visits[|visits| - 1].EmbeddedType? then [visits[|visits| - 1].t] else [])
  }

  /** One more visit adds its property name, or its embedded type, at the end. */
  lemma VisitsStep(visits: seq<Visit>, i: nat)
    requires i < |visits|
    ensures FieldNames(visits[..i + 1]) == FieldNames(visits[..i]) + (if visits[i].PropertyField? then [visits[i].name] else [])
    ensures EmbeddedTypes(visits[..i + 1]) == EmbeddedTypes(visits[..i]) + (if visits[i].EmbeddedType? then [visits[i].t] else [])
  {
    assert visits[..i + 1][..i] == visits[..i];
  }

  function ShapeNames(shape: seq<Zod.ShapeProperty>): (r: seq<string>)
    ensures |r| == |shape|
  {
    if |shape| == 0 then [] else ShapeNames(shape[..|shape| - 1]) + [shape[|shape| - 1].name]
  }

  lemma ShapeNamesPush(a: seq<Zod.ShapeProperty>, p: Zod.ShapeProperty)
    ensures ShapeNames(a + [p]) == ShapeNames(a) + [p.name]
  {
    assert (a + [p])[..|a|] == a;
  }

  lemma {:induction false} ShapeNamesAppend(a: seq<Zod.ShapeProperty>, b: seq<Zod.ShapeProperty>)
    ensures ShapeNames(a + b) == ShapeNames(a) + ShapeNames(b)
    decreases |b|
  {
    if |b| == 0 {
      assert a + b == a;
    } else {
      var b' := b[..|b| - 1];
      assert (a + b)[..|a + b| - 1] == a + b';
      ShapeNamesAppend(a, b');
    }
  }

  /** The discriminator property, `<property>: z.literal("<value>")`. */
  function DiscriminatorProperties(d: Option<JSONDiscriminator>): (r: seq<Zod.ShapeProperty>)
    ensures d.None? ==> r == []
    ensures d.Some? ==> r == [Zod.ShapeProperty(d.value.property, Zod.Literal(d.value.value))]
  {
    if d.None? then [] else [Zod.ShapeProperty(d.value.property, Zod.Literal(d.value.value))]
  }

  /** `addPropertiesToSchema`: extend the object so far, or start one. */
  function AddProperties(schema: Option<Zod.Schema>, props: seq<Zod.ShapeProperty>): (r: Zod.Schema)
    requires schema.Some? ==> schema.value.ObjectType?
    ensures r.ObjectType?
    ensures r.shape == (if schema.Some? then schema.value.shape else []) + props
  {
    if schema.Some? then schema.value.Extend(props) else Zod.Object(props)
  }

  /** The first field with the `gotypes:"value"` flag. */
  method ValueField(fields: seq<StructField>) returns (r: Option<nat>)
    ensures r.None? ==> forall j :: 0 <= j < |fields| ==> !IsValueField(fields[j])
    ensures r.Some? ==> r.value < |fields| && IsValueField(fields[r.value])
    ensures r.Some? ==> forall j :: 0 <= j < r.value ==> !IsValueField(fields[j])
  {
    for i := 0 to |fields|
      invariant forall j :: 0 <= j < i ==> !IsValueField(fields[j])
    {
      var isValue := TagHasFlag(fields[i].TagGet(GotypesKey), ValueFlag);
      if isValue {
        return Some(i);
      }
    }
    return None;
  }

  /** The first walk over the fields: whether there is a property, how many embedded types
    * there are, and the last of them. */
  method CountVisits(visits: seq<Visit>) returns (hasFields: bool, embeddedJSONTypes: nat, embeddedJSONType: GoType)
    ensures hasFields <==> FieldNames(visits) != []
    ensures embeddedJSONTypes == |EmbeddedTypes(visits)|
    ensures embeddedJSONTypes > 0 ==> embeddedJSONType == EmbeddedTypes(visits)[embeddedJSONTypes - 1]
  {
    hasFields := false;
    embeddedJSONTypes := 0;
    embeddedJSONType := GoType("", "", "", Invalid, 0, None, None, [], {});
    for i := 0 to |visits|
      invariant hasFields <==> FieldNames(visits[..i]) != []
      invariant embeddedJSONTypes == |EmbeddedTypes(visits[..i])|
      invariant embeddedJSONTypes > 0 ==> embeddedJSONType == EmbeddedTypes(visits[..i])[embeddedJSONTypes - 1]
    {
      VisitsStep(visits, i);
      match visits[i] {
        case PropertyField(_, _, _) =>
          hasFields := true;
        case EmbeddedType(t) =>
          embeddedJSONTypes := embeddedJSONTypes + 1;
          embeddedJSONType := t;
      }
    }
    assert visits[..|visits|] == visits;
  }

  /** The shape collected so far in the second walk: the object's, then the pending
    * properties. */
  function SoFar(schema: Option<Zod.Schema>, properties: seq<Zod.ShapeProperty>): seq<Zod.ShapeProperty>
    requires schema.Some? ==> schema.value.ObjectType?
  {
    (if schema.Some? then schema.value.shape else []) + properties
  }

  /** While no embedded type has come, the pending properties are the initial ones and one
    * per property visit, in order. */
  predicate NamesSoFar(initial: seq<Zod.ShapeProperty>, schema: Option<Zod.Schema>, properties: seq<Zod.ShapeProperty>, visits: seq<Visit>, i: nat)
    requires i <= |visits|
  {
    EmbeddedTypes(visits[..i]) == [] ==> schema.None? && ShapeNames(properties) == ShapeNames(initial) + FieldNames(visits[..i])
  }

  lemma NamesStep(initial: seq<Zod.ShapeProperty>, schema: Option<Zod.Schema>, properties: seq<Zod.ShapeProperty>, p: Zod.ShapeProperty, visits: seq<Visit>, i: nat)
    requires i < |visits| && visits[i].PropertyField? && p.name == visits[i].name
    requires NamesSoFar(initial, schema, properties, visits, i)
    ensures NamesSoFar(initial, schema, properties + [p], visits, i + 1)
  {
    VisitsStep(visits, i);
    ShapeNamesPush(properties, p);
  }

  lemma EmbeddedStep(visits: seq<Visit>, i: nat)
    requires i < |visits| && visits[i].EmbeddedType?
    ensures EmbeddedTypes(visits[..i + 1]) != []
  {
    VisitsStep(visits, i);
  }

  lemma SoFarAppend(schema: Option<Zod.Schema>, properties: seq<Zod.ShapeProperty>, p: Zod.ShapeProperty)
    requires schema.Some? ==> schema.value.ObjectType?
    ensures SoFar(schema, properties + [p]) == SoFar(schema, properties) + [p]
  {
  }

  /** The end of the second walk: pending properties go into the object, or start one. */
  function FinishShape(schema: Option<Zod.Schema>, properties: seq<Zod.ShapeProperty>): (r: Zod.Schema)
    requires schema.Some? ==> schema.value.ObjectType?
    ensures r.ObjectType? && r.shape == SoFar(schema, properties)
    ensures schema.None? ==> r.shape == properties
  {
    if |properties| > 0 || schema.None? then AddProperties(schema, properties) else schema.value
  }

  /** The kinds `buildRawSchema` has no schema for. */
  predicate IsUnsupportedKind(k: Kind) {
    k == Invalid || k == Complex64 || k == Complex128 || k == Chan || k == Func || k == UnsafePointer
  }

  // ---------------------------------------------------------------------------------
  // The builder

  /** `zodTypeBuilder`: the configuration, and the rules that turn a reference into a schema. */
  datatype ZodTypeBuilder = ZodTypeBuilder(config: Config)
  {
    /** `Build`: the raw schema, then the configured transform, then the configured template;
      * a named reference also gets a brand (decided on the schema before templating) and a
      * declaration, and is returned as its declared name. */
    method Build(ref: Ref, res: AccountingResolver, fuel: nat) returns (r: Outcome<Built>)
      requires config.commentsLoader.Some?
      requires res.Valid()
      modifies res, res.delegate
      ensures res.Valid() && Progressed(old(res.State()), res.State())
      ensures r.Returns? ==> DeclaresAsNamed(ref, r.value)
      decreases fuel, 10
    {
      var schemas :- BuildSchema(ref, res, fuel);
      var built := Declare(ref, schemas.0, schemas.1);
      return Returns(built);
    }

    /** What `Build` promises about naming: a declaration exactly for a named reference, under
      * that name, and the schema returned as the declared name. */
    predicate DeclaresAsNamed(ref: Ref, built: Built) {
      (built.declaration.Some? <==> Name(config, ref).Some?)
      && (built.declaration.Some? ==>
            var d := built.declaration.value;
            d.identifier == Name(config, ref).value && built.schema == d.schema.DeclaredAs(d.identifier))
    }

    /** The schema part of `Build`: the raw schema, the configured transform, and the configured
      * template; also the schema before templating, on which branding is decided. */
    method BuildSchema(ref: Ref, res: AccountingResolver, fuel: nat) returns (r: Outcome<(Zod.Schema, Zod.Schema)>)
      requires res.Valid()
      modifies res, res.delegate
      ensures res.Valid() && Progressed(old(res.State()), res.State())
      ensures r.Returns? && LookupConfig(config.templates, ref.t).None? ==> r.value.0 == r.value.1
      ensures r.Returns? && LookupConfig(config.templates, ref.t).Some? ==>
        r.value.0.AnyType? && GoZodTemplating.TemplatedString(r.value.1, LookupConfig(config.templates, ref.t).value).Returns?
      decreases fuel, 9
    {
      var schema :- BuildRawSchema(ref, res, fuel);
      var transform := LookupConfig(config.transforms, ref.t);
      if transform.Some? {
        var src :- RunTransformCallback(transform.value, res, fuel);
        schema := schema.Transform(src);
      }
      var beforeTemplating := schema;
      var template := LookupConfig(config.templates, ref.t);
      if template.Some? {
        schema :- GoZodTemplating.ApplyTemplateTransform(schema, template.value);
      }
      return Returns((schema, beforeTemplating));
    }

    /** The naming part of `Build`: nothing to declare without a name; otherwise the brand
      * (unless `shouldBrand` says no), the declaration with its comment, and the schema as the
      * declared name. */
    method Declare(ref: Ref, schema: Zod.Schema, beforeTemplating: Zod.Schema) returns (r: Built)
      requires config.commentsLoader.Some?
      ensures DeclaresAsNamed(ref, r)
      ensures Name(config, ref).None? ==> r == Built(schema, None)
      ensures r.declaration.Some? ==>
        r.declaration.value.comment == DeclarationComment(r.declaration.value.identifier, ref, config.commentsLoader.value.Load(ref.t))
      ensures Name(config, ref).Some? ==>
        var d := r.declaration.value;
        (!HasOverride(config, ref.t) && !PeelsToObject(beforeTemplating) ==> d.schema == schema.Brand(d.identifier))
        && (HasOverride(config, ref.t) || PeelsToObject(beforeTemplating) ==> d.schema == schema)
    {
      var name := Name(config, ref);
      if name.None? {
        return Built(schema, None);
      }
      var declared := schema;
      var brand := ShouldBrand(config, ref.t, beforeTemplating);
      if brand {
        declared := declared.Brand(name.value);
      }
      var comment := DeclarationComment(name.value, ref, config.commentsLoader.value.Load(ref.t));
      return Built(declared.DeclaredAs(name.value), Some(Zod.NewSchemaAndTypeDeclaration(comment, name.value, declared)));
    }

    /** No configured schema, union or discriminated union replaces the type's own schema. */
    predicate NoSchemaOverride(t: GoType) {
      LookupConfig(config.schemas, t).None? && LookupConfig(config.undiscriminatedUnions, t).None?
      && LookupConfig(config.discriminatedUnions, t).None?
    }

    /** The schema follows from the kind: no override, and no text marshaler without template. */
    predicate ByKind(t: GoType) {
      NoSchemaOverride(t) && !(LookupConfig(config.templates, t).None? && t.Implements(TextMarshaler))
    }

    /** `buildRawSchema`: a configured schema, union or discriminated union first; a text
      * marshaler without a template is a string; otherwise the kind decides. */
    method BuildRawSchema(ref: Ref, res: AccountingResolver, fuel: nat) returns (r: Outcome<Zod.Schema>)
      requires res.Valid()
      modifies res, res.delegate
      ensures res.Valid() && Progressed(old(res.State()), res.State())
      ensures LookupConfig(config.schemas, ref.t).Some? && LookupConfig(config.schemas, ref.t).value.ConstantSchema? ==>
        r == Returns(LookupConfig(config.schemas, ref.t).value.schema)
      ensures r.Returns? && LookupConfig(config.schemas, ref.t).None? && LookupConfig(config.undiscriminatedUnions, ref.t).Some? ==>
        exists members :: |members| == |LookupConfig(config.undiscriminatedUnions, ref.t).value| && r.value == Zod.Union(members)
      ensures NoSchemaOverride(ref.t) && LookupConfig(config.templates, ref.t).None? && ref.t.Implements(TextMarshaler) ==>
        r == Returns(Zod.String())
      ensures ByKind(ref.t) && IsScalarKind(ref.t.kind) ==> r == Returns(ScalarSchema(ref.t.kind))
      ensures ByKind(ref.t) && !IsScalarKind(ref.t.kind) ==> KindSchema(ref, r, res.delegate.builder.config, res.delegate.namesByInput, res.delegate.declarations)
      decreases fuel, 8
    {
      if !NoSchemaOverride(ref.t) {
        r := BuildConfigured(ref, res, fuel);
        return;
      }
      if LookupConfig(config.templates, ref.t).None? && ref.t.Implements(TextMarshaler) {
        return Returns(Zod.String());
      }
      if IsScalarKind(ref.t.kind) {
        return Returns(ScalarSchema(ref.t.kind));
      }
      r := BuildByKind(ref, res, fuel);
    }

    /** The configured replacements of a type's schema, in the order `buildRawSchema` tries
      * them: a schema callback, an undiscriminated union, a discriminated union. */
    method BuildConfigured(ref: Ref, res: AccountingResolver, fuel: nat) returns (r: Outcome<Zod.Schema>)
      requires !NoSchemaOverride(ref.t)
      requires res.Valid()
      modifies res, res.delegate
      ensures res.Valid() && Progressed(old(res.State()), res.State())
      ensures LookupConfig(config.schemas, ref.t).Some? && LookupConfig(config.schemas, ref.t).value.ConstantSchema? ==>
        r == Returns(LookupConfig(config.schemas, ref.t).value.schema)
      ensures r.Returns? && LookupConfig(config.schemas, ref.t).None? && LookupConfig(config.undiscriminatedUnions, ref.t).Some? ==>
        exists members :: |members| == |LookupConfig(config.undiscriminatedUnions, ref.t).value| && r.value == Zod.Union(members)
          && ResolvedAsDeclared(res.delegate.builder.config, res.delegate.namesByInput, res.delegate.declarations,
                                DistributeFlagsTo(ref, LookupConfig(config.undiscriminatedUnions, ref.t).value), members)
      ensures r.Returns? && LookupConfig(config.schemas, ref.t).None? && LookupConfig(config.undiscriminatedUnions, ref.t).None? ==>
        var du := LookupConfig(config.discriminatedUnions, ref.t).value;
        exists members :: |members| == |du.types| && r.value == Zod.DiscriminatedUnion(du.discriminatorProperty, members)
          && ResolvedAsDeclared(res.delegate.builder.config, res.delegate.namesByInput, res.delegate.declarations,
                                DistributeFlagsTo(ref, du.types), members)
      decreases fuel, 4
    {
      var schemaCallback := LookupConfig(config.schemas, ref.t);
      if schemaCallback.Some? {
        r := RunSchemaCallback(schemaCallback.value, res, fuel);
        return;
      }
      var union := LookupConfig(config.undiscriminatedUnions, ref.t);
      if union.Some? {
        var members :- ResolveEach(DistributeFlagsTo(ref, union.value), res, fuel);
        return Returns(Zod.Union(members));
      }
      var discriminatedUnion := LookupConfig(config.discriminatedUnions, ref.t).value;
      var members :- ResolveEach(DistributeFlagsTo(ref, discriminatedUnion.types), res, fuel);
      return Returns(Zod.DiscriminatedUnion(discriminatedUnion.discriminatorProperty, members));
    }

    /** The switch on the kind in `buildRawSchema`, past the scalar kinds. */
    method BuildByKind(ref: Ref, res: AccountingResolver, fuel: nat) returns (r: Outcome<Zod.Schema>)
      requires !IsScalarKind(ref.t.kind)
      requires res.Valid()
      modifies res, res.delegate
      ensures res.Valid() && Progressed(old(res.State()), res.State())
      ensures KindSchema(ref, r, res.delegate.builder.config, res.delegate.namesByInput, res.delegate.declarations)
      decreases fuel, 7
    {
      var kind := ref.t.kind;
      if kind == Array {
        r := BuildArray(ref, res, fuel);
      } else if kind == Interface {
        r := Returns(Zod.Any());
      } else if kind == Map {
        r := BuildMap(ref, res, fuel);
      } else if kind == Pointer {
        r := BuildPointer(ref, res, fuel);
      } else if kind == Slice {
        r := BuildSlice(ref, res, fuel);
      } else if kind == String {
        r := Returns(Zod.String());
      } else if kind == Struct {
        r := BuildStruct(ref, res, fuel);
      } else {
        r := Panics("no schema for this kind");
      }
    }

    /** An array: `z.array(<element>).length(<len>)`. */
    method BuildArray(ref: Ref, res: AccountingResolver, fuel: nat) returns (r: Outcome<Zod.Schema>)
      requires ref.t.kind == Array
      requires res.Valid()
      modifies res, res.delegate
      ensures res.Valid() && Progressed(old(res.State()), res.State())
      ensures r.Returns? ==> ref.t.elem.Some? && exists elem ::
        ResolvedAsDeclared(res.delegate.builder.config, res.delegate.namesByInput, res.delegate.declarations, [PlainRef(ref.t.elem.value)], [elem])
        && r.value == Zod.Array(elem).Length(ref.t.len)
      decreases fuel, 3
    {
      var elemRef :- ElemRef(ref);
      var elem :- res.Resolve(elemRef, fuel);
      assert ResolvedAsDeclared(res.delegate.builder.config, res.delegate.namesByInput, res.delegate.declarations, [elemRef], [elem]);
      var len := ref.t.Len().value;
      return Returns(Zod.Array(elem).Length(len));
    }

    /** A map: the key resolved, then the element, then `z.record`. */
    method BuildMap(ref: Ref, res: AccountingResolver, fuel: nat) returns (r: Outcome<Zod.Schema>)
      requires ref.t.kind == Map
      requires res.Valid()
      modifies res, res.delegate
      ensures res.Valid() && Progressed(old(res.State()), res.State())
      ensures r.Returns? ==> ref.t.key.Some? && ref.t.elem.Some? && exists key, elem ::
        ResolvedAsDeclared(res.delegate.builder.config, res.delegate.namesByInput, res.delegate.declarations, [PlainRef(ref.t.key.value), PlainRef(ref.t.elem.value)], [key, elem])
        && r.value == MapSchema(ref, key, elem)
      decreases fuel, 3
    {
      var keyRef :- KeyRef(ref);
      var key :- res.Resolve(keyRef, fuel);
      ghost var afterKey := res.State();
      var elemRef :- ElemRef(ref);
      var elem :- res.Resolve(elemRef, fuel);
      ResolvedAsDeclaredPair(res.delegate.builder.config, keyRef, key, elemRef, elem, afterKey.names, afterKey.decls,
        res.delegate.namesByInput, res.delegate.declarations);
      return Returns(MapSchema(ref, key, elem));
    }

    /** A pointer: its element, made nullable. */
    method BuildPointer(ref: Ref, res: AccountingResolver, fuel: nat) returns (r: Outcome<Zod.Schema>)
      requires ref.t.kind == Pointer
      requires res.Valid()
      modifies res, res.delegate
      ensures res.Valid() && Progressed(old(res.State()), res.State())
      ensures r.Returns? ==> ref.t.elem.Some? && exists elem ::
        ResolvedAsDeclared(res.delegate.builder.config, res.delegate.namesByInput, res.delegate.declarations, [PlainRef(ref.t.elem.value)], [elem])
        && r.value == SchemaForNilableType(ref, elem)
      decreases fuel, 3
    {
      var elemRef :- ElemRef(ref);
      var elem :- res.Resolve(elemRef, fuel);
      assert ResolvedAsDeclared(res.delegate.builder.config, res.delegate.namesByInput, res.delegate.declarations, [elemRef], [elem]);
      return Returns(SchemaForNilableType(ref, elem));
    }

    /** A slice: base64 text for bytes, otherwise an array of the resolved element. */
    method BuildSlice(ref: Ref, res: AccountingResolver, fuel: nat) returns (r: Outcome<Zod.Schema>)
      requires ref.t.kind == Slice
      requires res.Valid()
      modifies res, res.delegate
      ensures res.Valid() && Progressed(old(res.State()), res.State())
      ensures r.Returns? ==> ref.t.elem.Some?
      ensures r.Returns? && IsBase64Element(ref.t.elem.value) ==> r.value == SliceSchema(ref, true, Zod.String())
      ensures r.Returns? && !IsBase64Element(ref.t.elem.value) ==> exists elem ::
        ResolvedAsDeclared(res.delegate.builder.config, res.delegate.namesByInput, res.delegate.declarations, [PlainRef(ref.t.elem.value)], [elem])
        && r.value == SliceSchema(ref, false, elem)
      decreases fuel, 3
    {
      var elemType :- ref.t.Elem();
      if IsBase64Element(elemType) {
        return Returns(SliceSchema(ref, true, Zod.String()));
      }
      var elemRef := ElemRef(ref).value;
      var elem :- res.Resolve(elemRef, fuel);
      assert ResolvedAsDeclared(res.delegate.builder.config, res.delegate.namesByInput, res.delegate.declarations, [elemRef], [elem]);
      return Returns(SliceSchema(ref, false, elem));
    }

    /** The properties a configured discriminator puts in front of a struct's object. */
    /** What a kind other than the scalar ones makes of a reference, as the switch of
      * `buildRawSchema` says, with every resolved schema as declared in the tables
      * `names` and `decls`. */
    ghost predicate KindSchema(ref: Ref, r: Outcome<Zod.Schema>, c: Config,
                               names: map<Ref, Identifier>, decls: map<Identifier, MappedValue>) {
      var k := ref.t.kind;
      if k == String then r == Returns(Zod.String())
      else if k == Interface then r == Returns(Zod.Any())
      else if k == Array then
        r.Returns? ==> ref.t.elem.Some? && exists elem ::
          ResolvedAsDeclared(c, names, decls, [PlainRef(ref.t.elem.value)], [elem]) && r.value == Zod.Array(elem).Length(ref.t.len)
      else if k == Map then
        r.Returns? ==> ref.t.key.Some? && ref.t.elem.Some? && exists key, elem ::
          ResolvedAsDeclared(c, names, decls, [PlainRef(ref.t.key.value), PlainRef(ref.t.elem.value)], [key, elem])
          && r.value == MapSchema(ref, key, elem)
      else if k == Pointer then
        r.Returns? ==> ref.t.elem.Some? && exists elem ::
          ResolvedAsDeclared(c, names, decls, [PlainRef(ref.t.elem.value)], [elem]) && r.value == SchemaForNilableType(ref, elem)
      else if k == Slice then
        r.Returns? ==>
          ref.t.elem.Some? && (IsBase64Element(ref.t.elem.value) ==> r.value == SliceSchema(ref, true, Zod.String()))
          && (!IsBase64Element(ref.t.elem.value) ==> exists elem ::
                ResolvedAsDeclared(c, names, decls, [PlainRef(ref.t.elem.value)], [elem]) && r.value == SliceSchema(ref, false, elem))
      else if k == Struct then StructSchema(ref, r, c, names, decls)
      else IsUnsupportedKind(k) ==> r.Panics?
    }

    /** What a struct makes of a reference: with a `gotypes:"value"` field, the field schema of
      * the first such field; with one embedded type and no JSON field, that type's schema;
      * otherwise an object that starts with the discriminator, whose names, without embedded
      * types, are the discriminator's followed by the JSON field names. */
    ghost predicate StructSchema(ref: Ref, r: Outcome<Zod.Schema>, c: Config,
                                 names: map<Ref, Identifier>, decls: map<Identifier, MappedValue>) {
      var visits := TopLevelVisits(ref.t.fields);
      var delegates := FieldNames(visits) == [] && |EmbeddedTypes(visits)| == 1;
      && (r.Returns? && HasValueField(ref.t.fields) ==>
            var f := ref.t.fields[FirstValueField(ref.t.fields)];
            exists s :: ResolvedAsDeclared(c, names, decls, [Ref(f.typ, OmitemptyFlag in Flags(f.TagGet(JSONKey)))], [s])
              && r.value == FieldSchemaFor(s, f.typ, f.TagGet(JSONKey), f.TagGet(GotypesKey)))
      && (r.Returns? && !HasValueField(ref.t.fields) && delegates ==>
            ResolvedAsDeclared(c, names, decls, [PlainRef(EmbeddedTypes(visits)[0])], [r.value]))
      && (r.Returns? && !HasValueField(ref.t.fields) && !delegates ==>
            r.value.ObjectType?
            && Discriminator(ref.t) <= r.value.shape
            && (EmbeddedTypes(visits) == [] ==> ShapeNames(r.value.shape) == ShapeNames(Discriminator(ref.t)) + FieldNames(visits)))
    }

    function Discriminator(t: GoType): (r: seq<Zod.ShapeProperty>)
      ensures |r| <= 1
    {
      DiscriminatorProperties(LookupConfig(config.discriminators, t))
    }

    /** The struct branch of `buildRawSchema`: a `gotypes:"value"` field stands for the whole
      * struct; a struct whose only JSON content is one embedded type is that type; otherwise
      * an object of the discriminator, the properties and the merged embedded objects, in
      * field order. */
    method BuildStruct(ref: Ref, res: AccountingResolver, fuel: nat) returns (r: Outcome<Zod.Schema>)
      requires ref.t.kind == Struct
      requires res.Valid()
      modifies res, res.delegate
      ensures res.Valid() && Progressed(old(res.State()), res.State())
      ensures StructSchema(ref, r, res.delegate.builder.config, res.delegate.namesByInput, res.delegate.declarations)
      decreases fuel, 6
    {
      var valueField := ValueField(ref.t.fields);
      if valueField.Some? {
        assert HasValueField(ref.t.fields);
        assert valueField.value == FirstValueField(ref.t.fields);
        var field := ref.t.fields[valueField.value];
        r := ResolveFieldSchema(field.typ, field.TagGet(JSONKey), field.TagGet(GotypesKey), res, fuel);
        return;
      }
      var visits := ForEachTopLevelJSONFieldAndEmbeddedType(ref.t);
      var hasFields, embeddedJSONTypes, embeddedJSONType := CountVisits(visits);
      assert !HasValueField(ref.t.fields);
      if !hasFields && embeddedJSONTypes == 1 {
        assert embeddedJSONType == EmbeddedTypes(visits)[0];
        r := res.Resolve(PlainRef(embeddedJSONType), fuel);
        return;
      }
      assert !(FieldNames(visits) == [] && |EmbeddedTypes(visits)| == 1);
      r := BuildShape(Discriminator(ref.t), visits, res, fuel);
    }

    /** The second walk over the fields: properties collect until an embedded type, which must
      * resolve to an object and is merged in. */
    method BuildShape(initial: seq<Zod.ShapeProperty>, visits: seq<Visit>, res: AccountingResolver, fuel: nat) returns (r: Outcome<Zod.Schema>)
      requires res.Valid()
      modifies res, res.delegate
      ensures res.Valid() && Progressed(old(res.State()), res.State())
      ensures r.Returns? ==> r.value.ObjectType? && initial <= r.value.shape
      ensures r.Returns? && EmbeddedTypes(visits) == [] ==> ShapeNames(r.value.shape) == ShapeNames(initial) + FieldNames(visits)
      decreases fuel, 5, 1
    {
      ghost var start := res.State();
      var schema: Option<Zod.Schema> := None;
      var properties := initial;
      for i := 0 to |visits|
        invariant res.Valid() && Progressed(start, res.State())
        invariant schema.Some? ==> schema.value.ObjectType?
        invariant initial <= SoFar(schema, properties)
        invariant NamesSoFar(initial, schema, properties, visits, i)
      {
        ghost var before := res.State();
        var next :- WalkStep(initial, schema, properties, visits, i, res, fuel);
        ProgressedTransitive(start, before, res.State());
        schema, properties := next.0, next.1;
      }
      assert visits[..|visits|] == visits;
      return Returns(FinishShape(schema, properties));
    }

    /** One visit of the second walk: a property field appends its property; an embedded type
      * first moves the pending properties into the object, then merges its own object in. */
    method WalkStep(initial: seq<Zod.ShapeProperty>, schema: Option<Zod.Schema>, properties: seq<Zod.ShapeProperty>,
                    visits: seq<Visit>, i: nat, res: AccountingResolver, fuel: nat)
      returns (r: Outcome<(Option<Zod.Schema>, seq<Zod.ShapeProperty>)>)
      requires i < |visits| && res.Valid()
      requires schema.Some? ==> schema.value.ObjectType?
      requires initial <= SoFar(schema, properties)
      requires NamesSoFar(initial, schema, properties, visits, i)
      modifies res, res.delegate
      ensures res.Valid() && Progressed(old(res.State()), res.State())
      ensures r.Returns? ==> var (schema', properties') := r.value;
        && (schema'.Some? ==> schema'.value.ObjectType?)
        && initial <= SoFar(schema', properties')
        && NamesSoFar(initial, schema', properties', visits, i + 1)
      ensures r.Returns? && visits[i].PropertyField? ==>
        && r.value.0 == schema && |r.value.1| == |properties| + 1
        && r.value.1[..|properties|] == properties && r.value.1[|properties|].name == visits[i].name
      ensures r.Returns? && visits[i].EmbeddedType? ==>
        && r.value.0.Some? && r.value.1 == []
        && SoFar(schema, properties) <= r.value.0.value.shape
      decreases fuel, 5, 0
    {
      if visits[i].PropertyField? {
        var p :- ResolveProperty(visits[i], res, fuel);
        NamesStep(initial, schema, properties, p, visits, i);
        SoFarAppend(schema, properties, p);
        assert (properties + [p])[..|properties|] == properties;
        return Returns((schema, properties + [p]));
      } else {
        EmbeddedStep(visits, i);
        var merged, _ := MergeEmbedded(schema, properties, visits[i].t, res, fuel);
        if merged.IsFailure() {
          return merged.PropagateFailure();
        }
        return Returns((Some(merged.value), []));
      }
    }

    /** A property field in the second walk: its name and its field schema. */
    method ResolveProperty(visit: Visit, res: AccountingResolver, fuel: nat) returns (r: Outcome<Zod.ShapeProperty>)
      requires visit.PropertyField?
      requires res.Valid()
      modifies res, res.delegate
      ensures res.Valid() && Progressed(old(res.State()), res.State())
      ensures r.Returns? ==> r.value.name == visit.name
      ensures r.Returns? ==> exists resolved ::
        ResolvedAsDeclared(res.delegate.builder.config, res.delegate.namesByInput, res.delegate.declarations, [Ref(visit.field.typ, OmitemptyFlag in Flags(visit.tag))], [resolved])
        && r.value.schema == FieldSchemaFor(resolved, visit.field.typ, visit.tag, visit.field.TagGet(GotypesKey))
      decreases fuel, 4
    {
      var s :- ResolveFieldSchema(visit.field.typ, visit.tag, visit.field.TagGet(GotypesKey), res, fuel);
      return Returns(Zod.ShapeProperty(visit.name, s));
    }

    /** An embedded type in the second walk: the properties so far go into the object first,
      * then the embedded type's object is merged in; one that is not an object panics. */
    method MergeEmbedded(schema: Option<Zod.Schema>, properties: seq<Zod.ShapeProperty>, t: GoType, res: AccountingResolver, fuel: nat)
      returns (r: Outcome<Zod.Schema>, ghost embedded: Outcome<Zod.Schema>)
      requires schema.Some? ==> schema.value.ObjectType?
      requires res.Valid()
      modifies res, res.delegate
      ensures res.Valid() && Progressed(old(res.State()), res.State())
      ensures embedded.Returns? ==> ResolvedAsDeclared(res.delegate.builder.config, res.delegate.namesByInput, res.delegate.declarations, [PlainRef(t)], [embedded.value])
      ensures embedded.IsFailure() ==> r == embedded.PropagateFailure()
      ensures embedded.Returns? && !embedded.value.ObjectType? ==> r.Panics?
      ensures r.Returns? ==> embedded.Returns? && embedded.value.ObjectType?
      ensures r.Returns? ==>
        var current := if |properties| > 0 then Some(AddProperties(schema, properties)) else schema;
        r.value == if current.None? then embedded.value else current.value.Merge(embedded.value)
      ensures r.Returns? ==> r.value.ObjectType? && SoFar(schema, properties) <= r.value.shape
      decreases fuel, 3
    {
      var current := schema;
      if |properties| > 0 {
        current := Some(AddProperties(schema, properties));
      }
      var outcome := res.Resolve(PlainRef(t), fuel);
      embedded := outcome;
      if outcome.IsFailure() {
        return outcome.PropagateFailure(), embedded;
      }
      var resolved := outcome.value;
      assert ResolvedAsDeclared(res.delegate.builder.config, res.delegate.namesByInput, res.delegate.declarations, [PlainRef(t)], [resolved]);
      if !resolved.ObjectType? {
        return Panics("an embedded type does not resolve to an object"), embedded;
      }
      return Returns(if current.None? then resolved else current.value.Merge(resolved)), embedded;
    }

    /** `resolveFieldSchema`: the field's type resolved with its `omitempty` flag, then the
      * `string` flag (asking the kind only when the flag is there), `gotypes:",nullable"` and
      * `.optional()`. */
    method ResolveFieldSchema(t: GoType, jsonTag: string, tsgenTag: string, res: AccountingResolver, fuel: nat) returns (r: Outcome<Zod.Schema>)
      requires res.Valid()
      modifies res, res.delegate
      ensures res.Valid() && Progressed(old(res.State()), res.State())
      ensures r.Returns? ==> exists resolved ::
        ResolvedAsDeclared(res.delegate.builder.config, res.delegate.namesByInput, res.delegate.declarations, [Ref(t, OmitemptyFlag in Flags(jsonTag))], [resolved])
        && r.value == FieldSchemaFor(resolved, t, jsonTag, tsgenTag)
      ensures r.Returns? && OmitemptyFlag in Flags(jsonTag) ==> r.value.OptionalType?
      decreases fuel, 3
    {
      var omitempty := TagHasFlag(jsonTag, OmitemptyFlag);
      var resolved :- res.Resolve(Ref(t, omitempty), fuel);
      assert ResolvedAsDeclared(res.delegate.builder.config, res.delegate.namesByInput, res.delegate.declarations, [Ref(t, omitempty)], [resolved]);
      var stringFlag := TagHasFlag(jsonTag, StringFlag);
      var stringified := false;
      if stringFlag {
        stringified :- KindSupportsJSONStringFlag(t);
      }
      var nullable := TagHasFlag(tsgenTag, NullableFlag);
      assert stringified == (StringFlag in Flags(jsonTag) && KindSupportsJSONStringFlag(t) == Returns(true));
      r := Returns(FieldSchema(resolved, stringified, nullable, omitempty));
      assert r.value == FieldSchemaFor(resolved, t, jsonTag, tsgenTag);
    }

    /** `mapSlice(refs, resolver.Resolve)`: the references resolved in order; a named one
      * gives the reference of its declaration. */
    method ResolveEach(refs: seq<Ref>, res: AccountingResolver, fuel: nat) returns (r: Outcome<seq<Zod.Schema>>)
      requires res.Valid()
      modifies res, res.delegate
      ensures res.Valid() && Progressed(old(res.State()), res.State())
      ensures r.Returns? ==> |r.value| == |refs|
      ensures r.Returns? ==>
        ResolvedAsDeclared(res.delegate.builder.config, res.delegate.namesByInput, res.delegate.declarations, refs, r.value)
      ensures refs == [] ==> r == Returns([])
      decreases fuel, 2
    {
      var schemas: seq<Zod.Schema> := [];
      for i := 0 to |refs|
        invariant res.Valid() && Progressed(old(res.State()), res.State())
        invariant |schemas| == i
        invariant ResolvedAsDeclared(res.delegate.builder.config, res.delegate.namesByInput, res.delegate.declarations, refs[..i], schemas)
      {
        ghost var before := res.State();
        var s :- res.Resolve(refs[i], fuel);
        ResolvedAsDeclaredStep(res.delegate.builder.config, refs, i, schemas, s, before.names, before.decls,
                               res.delegate.namesByInput, res.delegate.declarations);
        schemas := schemas + [s];
      }
      assert refs[..|refs|] == refs;
      return Returns(schemas);
    }

    /** A schema callback given the resolver: its dependencies resolved in order, then built. */
    method RunSchemaCallback(callback: SchemaCallback, res: AccountingResolver, fuel: nat) returns (r: Outcome<Zod.Schema>)
      requires res.Valid()
      modifies res, res.delegate
      ensures res.Valid() && Progressed(old(res.State()), res.State())
      ensures callback.ConstantSchema? ==> r == Returns(callback.schema)
      ensures r.Returns? ==>
        exists resolved :: |resolved| == |callback.Deps()| && callback.Build(resolved) == r
          && ResolvedAsDeclared(res.delegate.builder.config, res.delegate.namesByInput, res.delegate.declarations, callback.Deps(), resolved)
      decreases fuel, 3
    {
      var resolved :- ResolveEach(callback.Deps(), res, fuel);
      r := callback.Build(resolved);
    }

    /** A transform callback given the resolver: its dependencies resolved in order, then
      * built. */
    method RunTransformCallback(callback: TransformCallback, res: AccountingResolver, fuel: nat) returns (r: Outcome<Source>)
      requires res.Valid()
      modifies res, res.delegate
      ensures res.Valid() && Progressed(old(res.State()), res.State())
      ensures callback.ConstantTransform? ==> r == Returns(callback.expr)
      ensures r.Returns? ==>
        exists resolved :: |resolved| == |callback.Deps()| && callback.Build(resolved) == r
          && ResolvedAsDeclared(res.delegate.builder.config, res.delegate.namesByInput, res.delegate.declarations, callback.Deps(), resolved)
      decreases fuel, 3
    {
      var resolved :- ResolveEach(callback.Deps(), res, fuel);
      r := callback.Build(resolved);
    }
  }
}
