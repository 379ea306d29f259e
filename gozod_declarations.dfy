// `SupportingDeclarations` of gotypes/gozod/zod_type_builder.go: the mapper's declarations,
// grouped by the Go package of their input, the packages emitted one at a time so that (where
// possible) a package comes after the packages its declarations depend on, and the
// declarations of a package sorted by depth, then by identifier.

module GoZodDeclarations {
  import opened TsSource
  import opened Ordering
  import opened GoInsp
  import opened GoZodMapper
  import Ts
  import UtilSlices

  type Declarations = map<Identifier, MappedValue>

  // ---------------------------------------------------------------------------------
  // Packages and their declarations

  /** The Go package of a declaration: that of its input type. */
  function PackageOf(d: MappedValue): string {
    d.input.t.pkgPath
  }

  /** A type without type arguments is its own projection onto its type constructor. */
  predicate IsSimple(t: GoType) {
    WithoutTypeArguments(Concrete(t)) == Concrete(t)
  }

  /** A declared map type without `[` in its name: the corrected projection makes it a type
    * constructor, so it is not simple, where the projection as written panics. */
  lemma MapDeclarationNotSimple(t: GoType)
    requires t.kind == Map && '[' !in t.name
    ensures !IsSimple(t)
    ensures WithoutTypeArgumentsAsWritten(Concrete(t)).Panics?
  {
    MapProjectionPanics(t);
  }

  /** Whether a declaration goes into the list of `p` (of its simple declarations only, when
    * `simpleOnly` holds). */
  predicate Belongs(d: MappedValue, p: string, simpleOnly: bool) {
    PackageOf(d) == p && (simpleOnly ==> IsSimple(d.input.t))
  }

  /** The declarations of a package (only the simple ones, when `simpleOnly` holds). */
  function Members(decls: Declarations, p: string, simpleOnly: bool): set<MappedValue> {
    set n | n in decls && Belongs(decls[n], p, simpleOnly) :: decls[n]
  }

  /** The packages that have a declaration. */
  function Packages(decls: Declarations): set<string> {
    set n | n in decls :: PackageOf(decls[n])
  }

  /** A missing package reads as the empty slice, as a Go map of slices does. */
  function Lookup(lists: map<string, seq<MappedValue>>, p: string): seq<MappedValue> {
    if p in lists then lists[p] else []
  }

  /** The list of `p` that the grouping loop has built after visiting the declarations under
    * `names`, in that order. */
  function Collect(decls: Declarations, names: seq<Identifier>, p: string, simpleOnly: bool): (r: seq<MappedValue>)
    ensures |r| <= |names|
  {
    if |names| == 0 then []
    else
      var n := names[|names| - 1];
      Collect(decls, names[..|names| - 1], p, simpleOnly)
      + (if n in decls && Belongs(decls[n], p, simpleOnly) then [decls[n]] else [])
  }

  lemma CollectStep(decls: Declarations, names: seq<Identifier>, i: nat, p: string, simpleOnly: bool)
    requires i < |names|
    ensures Collect(decls, names[..i + 1], p, simpleOnly)
      == Collect(decls, names[..i], p, simpleOnly)
         + (if names[i] in decls && Belongs(decls[names[i]], p, simpleOnly) then [decls[names[i]]] else [])
  {
    assert names[..i + 1][..i] == names[..i];
  }

  /** The list holds the declarations of the visited names that belong to the package. */
  lemma {:induction false} CollectElements(decls: Declarations, names: seq<Identifier>, p: string, simpleOnly: bool)
    ensures forall d :: d in Collect(decls, names, p, simpleOnly) <==>
      exists k :: 0 <= k < |names| && names[k] in decls && decls[names[k]] == d && Belongs(d, p, simpleOnly)
  {
    if |names| > 0 {
      var front := names[..|names| - 1];
      CollectElements(decls, front, p, simpleOnly);
      forall d ensures d in Collect(decls, names, p, simpleOnly) <==>
        exists k :: 0 <= k < |names| && names[k] in decls && decls[names[k]] == d && Belongs(d, p, simpleOnly)
      {
        if exists k :: 0 <= k < |names| && names[k] in decls && decls[names[k]] == d && Belongs(d, p, simpleOnly) {
          var k :| 0 <= k < |names| && names[k] in decls && decls[names[k]] == d && Belongs(d, p, simpleOnly);
          if k < |front| {
            assert front[k] == names[k];
          }
        }
      }
    }
  }

  /** Visiting every declaration once lists exactly the package's declarations. */
  lemma CollectAll(decls: Declarations, names: seq<Identifier>, p: string, simpleOnly: bool)
    requires Elements(names) == decls.Keys
    ensures Elements(Collect(decls, names, p, simpleOnly)) == Members(decls, p, simpleOnly)
  {
    CollectElements(decls, names, p, simpleOnly);
    forall d | d in Members(decls, p, simpleOnly)
      ensures d in Collect(decls, names, p, simpleOnly)
    {
      var n :| n in decls && Belongs(decls[n], p, simpleOnly) && decls[n] == d;
      assert n in Elements(names);
      var k :| 0 <= k < |names| && names[k] == n;
    }
  }

  /** Distinct names of a valid table give distinct declarations: each carries its own name. */
  lemma {:induction false} CollectDistinct(decls: Declarations, names: seq<Identifier>, p: string, simpleOnly: bool)
    requires DeclarationsValid(decls) && Distinct(names)
    ensures Distinct(Collect(decls, names, p, simpleOnly))
  {
    if |names| > 0 {
      var front := names[..|names| - 1];
      var n := names[|names| - 1];
      assert Distinct(front);
      CollectDistinct(decls, front, p, simpleOnly);
      CollectElements(decls, front, p, simpleOnly);
      if n in decls && Belongs(decls[n], p, simpleOnly) {
        var c := Collect(decls, front, p, simpleOnly);
        forall k | 0 <= k < |front| && front[k] in decls
          ensures decls[front[k]] != decls[n]
        {
          assert EntryValid(decls, front[k]) && EntryValid(decls, n);
          assert front[k] == names[k];
        }
      }
    }
  }

  // ---------------------------------------------------------------------------------
  // Sort keys

  /** The package order: packages without a `.` in their path (the standard library) first,
    * then by path. */
  function PackageKey(p: string): Key {
    [Num(if '.' in p then 1 else 0), Str(p)]
  }

  /** The order within a package: by depth, then by identifier. */
  function DeclarationKey(d: MappedValue): Key {
    [Num(d.declaration.info.depth), Str(d.declaration.value.Identifier())]
  }

  lemma PackageKeyInjective(s: set<string>)
    ensures Injective(s, PackageKey)
  {
    forall x, y | x in s && y in s && PackageKey(x) == PackageKey(y) ensures x == y {
      assert PackageKey(x)[1] == PackageKey(y)[1];
    }
  }

  /** Within a valid table no two declarations have the same identifier. */
  lemma DeclarationKeyInjective(decls: Declarations, p: string)
    requires DeclarationsValid(decls)
    ensures Injective(Members(decls, p, false), DeclarationKey)
  {
    forall x, y | x in Members(decls, p, false) && y in Members(decls, p, false) && DeclarationKey(x) == DeclarationKey(y)
      ensures x == y
    {
      var n :| n in decls && Belongs(decls[n], p, false) && decls[n] == x;
      var m :| m in decls && Belongs(decls[m], p, false) && decls[m] == y;
      assert EntryValid(decls, n) && EntryValid(decls, m);
      assert DeclarationKey(x)[1] == DeclarationKey(y)[1];
    }
  }

  /** The packages in the order `slices.SortFunc` leaves `packagesToOutput`. */
  ghost function SortedPackages(decls: Declarations): (r: seq<string>)
  {
    PackageKeyInjective(Packages(decls));
    SortByKey(Packages(decls), PackageKey)
  }

  /** The standard library comes first, and packages of one group are in path order. */
  lemma SortedPackagesOrder(decls: Declarations, i: nat, j: nat)
    requires i < j < |SortedPackages(decls)|
    ensures var s := SortedPackages(decls);
      ('.' in s[i] ==> '.' in s[j]) && (('.' in s[i]) == ('.' in s[j]) ==> Strings.Less(s[i], s[j]))
  {
    var s := SortedPackages(decls);
    assert KeyLess(PackageKey(s[i]), PackageKey(s[j]));
    KeyLessPair(PackageKey(s[i])[0], Str(s[i]), PackageKey(s[j])[0], Str(s[j]));
  }

  /** The declarations of a package in the order `slices.SortFunc` leaves them. */
  ghost function Group(decls: Declarations, p: string): (r: seq<MappedValue>)
    requires DeclarationsValid(decls)
  {
    DeclarationKeyInjective(decls, p);
    SortByKey(Members(decls, p, false), DeclarationKey)
  }

  /** A dependency within a package comes before the declaration that depends on it. */
  lemma SamePackageDependencyFirst(decls: Declarations, p: string, i: nat, j: nat)
    requires DeclarationsValid(decls)
    requires i < |Group(decls, p)| && j < |Group(decls, p)|
    requires Group(decls, p)[i].declaration.value.identifier in Group(decls, p)[j].declaration.info.dependencies
    ensures i < j
  {
    var g := Group(decls, p);
    assert g[i] in Members(decls, p, false) && g[j] in Members(decls, p, false);
    var m :| m in decls && Belongs(decls[m], p, false) && decls[m] == g[i];
    var n :| n in decls && Belongs(decls[n], p, false) && decls[n] == g[j];
    assert EntryValid(decls, m) && EntryValid(decls, n);
    DependenciesAreShallower(decls, n, m);
    assert KeyLess(DeclarationKey(g[i]), DeclarationKey(g[j]));
    if j < i {
      assert KeyLess(DeclarationKey(g[j]), DeclarationKey(g[i]));
      KeyLessAsymmetric(DeclarationKey(g[i]), DeclarationKey(g[j]));
    }
  }

  // ---------------------------------------------------------------------------------
  // The package order

  /** The test `ready` makes of the package `p`: no declaration among `members` depends on a
    * declaration of another package that is still pending. (A dependency is always declared
    * in a valid table; one that is not would make the Go code panic.) */
  predicate ReadyAmong(decls: Declarations, members: set<MappedValue>, p: string, pending: seq<string>) {
    forall d, dep :: d in members && dep in d.declaration.info.dependencies && dep in decls ==>
      PackageOf(decls[dep]) == p || PackageOf(decls[dep]) !in pending
  }

  /** Whether the `i`th pending package is ready, looking at all its declarations or only at
    * the simple ones. */
  predicate Ready(decls: Declarations, pending: seq<string>, i: nat, simpleOnly: bool)
    requires i < |pending|
  {
    ReadyAmong(decls, Members(decls, pending[i], simpleOnly), pending[i], pending)
  }

  /** `slices.IndexFunc(packagesToOutput, ...)` from `from` on: the first ready package, or -1. */
  function FirstReady(decls: Declarations, pending: seq<string>, simpleOnly: bool, from: nat): (r: int)
    requires from <= |pending|
    ensures r == -1 || from <= r < |pending|
    decreases |pending| - from
  {
    if from == |pending| then -1
    else if Ready(decls, pending, from, simpleOnly) then from
    else FirstReady(decls, pending, simpleOnly, from + 1)
  }

  /** -1 exactly when no package from `from` on is ready; otherwise a ready package with no
    * ready one before it. */
  lemma {:induction false} FirstReadyIsFirst(decls: Declarations, pending: seq<string>, simpleOnly: bool, from: nat)
    requires from <= |pending|
    ensures var r := FirstReady(decls, pending, simpleOnly, from);
      (r == -1 <==> forall i :: from <= i < |pending| ==> !Ready(decls, pending, i, simpleOnly))
      && (r != -1 ==> Ready(decls, pending, r, simpleOnly) && forall i :: from <= i < r ==> !Ready(decls, pending, i, simpleOnly))
    decreases |pending| - from
  {
    if from < |pending| && !Ready(decls, pending, from, simpleOnly) {
      FirstReadyIsFirst(decls, pending, simpleOnly, from + 1);
    }
  }

  predicate AnyReady(decls: Declarations, pending: seq<string>, simpleOnly: bool) {
    exists i :: 0 <= i < |pending| && Ready(decls, pending, i, simpleOnly)
  }

  /** The package the loop takes next: the first ready one; failing that, the first one whose
    * simple declarations are ready; failing that, the first one. */
  function PickIndex(decls: Declarations, pending: seq<string>): (r: nat)
    requires |pending| > 0
    ensures r < |pending|
  {
    var i := FirstReady(decls, pending, false, 0);
    if i != -1 then i
    else
      var j := FirstReady(decls, pending, true, 0);
      if j != -1 then j else 0
  }

  lemma PickIndexPicks(decls: Declarations, pending: seq<string>)
    requires |pending| > 0
    ensures var r := PickIndex(decls, pending);
      (AnyReady(decls, pending, false) ==>
         Ready(decls, pending, r, false) && forall i :: 0 <= i < r ==> !Ready(decls, pending, i, false))
      && (!AnyReady(decls, pending, false) && AnyReady(decls, pending, true) ==>
         Ready(decls, pending, r, true) && forall i :: 0 <= i < r ==> !Ready(decls, pending, i, true))
      && (!AnyReady(decls, pending, false) && !AnyReady(decls, pending, true) ==> r == 0)
  {
    FirstReadyIsFirst(decls, pending, false, 0);
    FirstReadyIsFirst(decls, pending, true, 0);
  }

  /** `slices.Delete(s, i, i+1)`. */
  function Remove(s: seq<string>, i: nat): (r: seq<string>)
    requires i < |s|
    ensures |r| == |s| - 1
  {
    s[..i] + s[i + 1..]
  }

  /** The packages in the order the loop appends them to `packagesInOutputOrder`. */
  function PackageOrder(decls: Declarations, pending: seq<string>): (r: seq<string>)
    ensures |r| == |pending|
    decreases |pending|
  {
    if |pending| == 0 then []
    else
      var i := PickIndex(decls, pending);
      [pending[i]] + PackageOrder(decls, Remove(pending, i))
  }

  /** Every pending package is emitted, as often as it is pending. */
  lemma {:induction false} PackageOrderPermutes(decls: Declarations, pending: seq<string>)
    ensures multiset(PackageOrder(decls, pending)) == multiset(pending)
    decreases |pending|
  {
    if |pending| > 0 {
      var i := PickIndex(decls, pending);
      PackageOrderPermutes(decls, Remove(pending, i));
      DeletePermutes(pending, i);
      assert multiset([pending[i]] + PackageOrder(decls, Remove(pending, i))) == multiset{pending[i]} + multiset(PackageOrder(decls, Remove(pending, i)));
    }
  }

  /** The order of the emitted packages. */
  ghost function EmitOrder(decls: Declarations): seq<string> {
    PackageOrder(decls, SortedPackages(decls))
  }

  lemma PackageOrderDistinct(decls: Declarations, pending: seq<string>)
    requires Distinct(pending)
    ensures Distinct(PackageOrder(decls, pending))
  {
    PackageOrderPermutes(decls, pending);
    DistinctPermutation(pending, PackageOrder(decls, pending));
  }

  /** The package emitted at position `k` is ready among those not yet emitted. */
  predicate ReadyAt(decls: Declarations, order: seq<string>, k: nat)
    requires k < |order|
  {
    ReadyAmong(decls, Members(decls, order[k], false), order[k], order[k..])
  }

  /** Some package not yet emitted at position `k` is ready. */
  predicate SomeReadyFrom(decls: Declarations, order: seq<string>, k: nat)
    requires k <= |order|
  {
    exists j :: k <= j < |order| && ReadyAmong(decls, Members(decls, order[j], false), order[j], order[k..])
  }

  /** The ready test only asks whether a package is pending, not where. */
  lemma ReadySameElements(decls: Declarations, members: set<MappedValue>, p: string, a: seq<string>, b: seq<string>)
    requires forall x :: x in a <==> x in b
    ensures ReadyAmong(decls, members, p, a) <==> ReadyAmong(decls, members, p, b)
  {
  }

  /** Whenever some remaining package is ready, the loop takes a ready one. */
  lemma {:induction false} PackageOrderPicksReady(decls: Declarations, pending: seq<string>, k: nat)
    requires k < |pending|
    ensures SomeReadyFrom(decls, PackageOrder(decls, pending), k) ==> ReadyAt(decls, PackageOrder(decls, pending), k)
    decreases |pending|
  {
    var order := PackageOrder(decls, pending);
    var i := PickIndex(decls, pending);
    var rest := Remove(pending, i);
    var tail := PackageOrder(decls, rest);
    assert order == [pending[i]] + tail;
    if k == 0 {
      FirstPickReady(decls, pending);
    } else {
      PackageOrderPicksReady(decls, rest, k - 1);
      assert order[k..] == tail[k - 1..];
      if SomeReadyFrom(decls, order, k) {
        var j :| k <= j < |order| && ReadyAmong(decls, Members(decls, order[j], false), order[j], order[k..]);
        assert order[j] == tail[j - 1];
        assert SomeReadyFrom(decls, tail, k - 1);
      }
    }
  }

  /** The first package taken is ready when some package is. */
  lemma FirstPickReady(decls: Declarations, pending: seq<string>)
    requires 0 < |pending|
    ensures SomeReadyFrom(decls, PackageOrder(decls, pending), 0) ==> ReadyAt(decls, PackageOrder(decls, pending), 0)
  {
    var order := PackageOrder(decls, pending);
    var i := PickIndex(decls, pending);
    assert order[0] == pending[i];
    PickIndexPicks(decls, pending);
    if SomeReadyFrom(decls, order, 0) {
      assert order[0..] == order;
      PackageOrderPermutes(decls, pending);
      SameMultisetElements(order, pending);
      var j :| 0 <= j < |order| && ReadyAmong(decls, Members(decls, order[j], false), order[j], order);
      assert order[j] in pending;
      var j' :| 0 <= j' < |pending| && pending[j'] == order[j];
      ReadySameElements(decls, Members(decls, order[j], false), order[j], order, pending);
      assert Ready(decls, pending, j', false);
      assert Ready(decls, pending, i, false);
      ReadySameElements(decls, Members(decls, pending[i], false), pending[i], pending, order);
    }
  }

  lemma SameMultisetElements<T>(a: seq<T>, b: seq<T>)
    requires multiset(a) == multiset(b)
    ensures forall x :: x in a <==> x in b
  {
    forall x ensures x in a <==> x in b {
      assert x in a <==> x in multiset(a);
      assert x in b <==> x in multiset(b);
    }
  }

  /** The point of the package order: when at its turn some remaining package is ready, every
    * dependency of the emitted package's declarations lies in that package or in one emitted
    * before it. */
  lemma DependenciesFirst(decls: Declarations, k: nat, n: Identifier, dep: Identifier)
    requires DeclarationsValid(decls)
    requires k < |EmitOrder(decls)| && SomeReadyFrom(decls, EmitOrder(decls), k)
    requires n in decls && PackageOf(decls[n]) == EmitOrder(decls)[k]
    requires dep in decls[n].declaration.info.dependencies
    ensures dep in decls
    ensures PackageOf(decls[dep]) == EmitOrder(decls)[k] || PackageOf(decls[dep]) in EmitOrder(decls)[..k]
  {
    var order := EmitOrder(decls);
    PackageOrderPicksReady(decls, SortedPackages(decls), k);
    DependenciesAreShallower(decls, n, dep);
    var q := PackageOf(decls[dep]);
    assert q == order[k] || q !in order[k..] by {
      assert ReadyAt(decls, order, k);
      assert decls[n] in Members(decls, order[k], false);
    }
    if q != order[k] {
      EmitOrderHasPackage(decls, q);
      assert order == order[..k] + order[k..];
    }
  }

  /** Every package with a declaration is emitted. */
  lemma EmitOrderHasPackage(decls: Declarations, q: string)
    requires q in Packages(decls)
    ensures q in EmitOrder(decls)
  {
    PackageOrderPermutes(decls, SortedPackages(decls));
    assert q in multiset(SortedPackages(decls));
  }

  // ---------------------------------------------------------------------------------
  // The emitted declarations

  /** The declarations of the packages of `order`, group after group. */
  ghost function Emitted(decls: Declarations, order: seq<string>): (r: seq<MappedValue>)
    requires DeclarationsValid(decls)
  {
    if |order| == 0 then []
    else Emitted(decls, order[..|order| - 1]) + Group(decls, order[|order| - 1])
  }

  lemma MembersValues(decls: Declarations, p: string, d: MappedValue)
    ensures d in Members(decls, p, false) <==> d in decls.Values && PackageOf(d) == p
  {
    if d in decls.Values {
      var n :| n in decls && decls[n] == d;
    }
  }

  /** A declaration is emitted exactly when its package is in the order. */
  lemma {:induction false} EmittedMembers(decls: Declarations, order: seq<string>, d: MappedValue)
    requires DeclarationsValid(decls)
    ensures d in Emitted(decls, order) <==> d in decls.Values && PackageOf(d) in order
  {
    if |order| > 0 {
      var front := order[..|order| - 1];
      var last := order[|order| - 1];
      EmittedMembers(decls, front, d);
      MembersValues(decls, last, d);
      assert order == front + [last];
      assert d in Group(decls, last) <==> d in Members(decls, last, false);
    }
  }

  lemma {:induction false} EmittedDistinct(decls: Declarations, order: seq<string>)
    requires DeclarationsValid(decls) && Distinct(order)
    ensures Distinct(Emitted(decls, order))
  {
    if |order| > 0 {
      var front := order[..|order| - 1];
      var last := order[|order| - 1];
      assert Distinct(front);
      EmittedDistinct(decls, front);
      var e := Emitted(decls, front);
      var g := Group(decls, last);
      SortedDistinct(g, DeclarationKey);
      forall x | x in e ensures x !in g {
        EmittedMembers(decls, front, x);
        MembersValues(decls, last, x);
      }
      DistinctConcat(e, g);
    }
  }

  /** Every declaration of the table is emitted, and none twice. */
  lemma EachDeclarationOnce(decls: Declarations)
    requires DeclarationsValid(decls)
    ensures Distinct(Emitted(decls, EmitOrder(decls)))
    ensures forall d :: d in Emitted(decls, EmitOrder(decls)) <==> d in decls.Values
  {
    var sorted := SortedPackages(decls);
    var order := EmitOrder(decls);
    SortedDistinct(sorted, PackageKey);
    PackageOrderDistinct(decls, sorted);
    PackageOrderPermutes(decls, sorted);
    EmittedDistinct(decls, order);
    forall d ensures d in Emitted(decls, order) <==> d in decls.Values {
      EmittedMembers(decls, order, d);
      if d in decls.Values {
        var n :| n in decls && decls[n] == d;
        assert PackageOf(d) in Packages(decls);
        assert PackageOf(d) in multiset(sorted);
      }
    }
  }

  /** What each declaration contributes to the output. */
  function Rendered(d: MappedValue): Source {
    d.declaration.value.TypeScript()
  }

  // ---------------------------------------------------------------------------------
  // The steps of SupportingDeclarations

  /** The loop over `mapper.declarations` that fills `declarationsByGoPackage` and
    * `simpleDeclarationsByGoPackage`, visiting the declarations in some order. */
  method GroupByPackage(decls: Declarations) returns (byPackage: map<string, seq<MappedValue>>, simpleByPackage: map<string, seq<MappedValue>>)
    requires DeclarationsValid(decls)
    ensures byPackage.Keys == Packages(decls)
    ensures forall p :: Elements(Lookup(byPackage, p)) == Members(decls, p, false) && Distinct(Lookup(byPackage, p))
    ensures forall p :: Elements(Lookup(simpleByPackage, p)) == Members(decls, p, true)
  {
    var names := Listing(decls.Keys);
    byPackage := map[];
    simpleByPackage := map[];
    for i := 0 to |names|
      invariant Grouped(decls, names[..i], byPackage, false) && KeysListed(decls, names[..i], byPackage)
      invariant Grouped(decls, names[..i], simpleByPackage, true)
    {
      assert names[i] in Elements(names);
      var decl := decls[names[i]];
      var pkg := PackageOf(decl);
      GroupedStep(decls, names, i, byPackage, false);
      GroupedStep(decls, names, i, simpleByPackage, true);
      KeysStep(decls, names, i, byPackage);
      byPackage := byPackage[pkg := Lookup(byPackage, pkg) + [decl]];
      if IsSimple(decl.input.t) {
        simpleByPackage := simpleByPackage[pkg := Lookup(simpleByPackage, pkg) + [decl]];
      }
    }
    assert names[..|names|] == names;
    GroupedComplete(decls, names, byPackage, simpleByPackage);
  }

  /** The lists after visiting `names`: each package's list holds the visited declarations
    * that belong to it, in visiting order. */
  ghost predicate Grouped(decls: Declarations, names: seq<Identifier>, lists: map<string, seq<MappedValue>>, simpleOnly: bool) {
    forall p :: Lookup(lists, p) == Collect(decls, names, p, simpleOnly)
  }

  /** The map has an entry exactly for the packages visited so far. */
  ghost predicate KeysListed(decls: Declarations, names: seq<Identifier>, lists: map<string, seq<MappedValue>>) {
    forall p :: p in lists <==> Collect(decls, names, p, false) != []
  }

  /** Visiting one more declaration appends it to the list of its package. */
  lemma GroupedStep(decls: Declarations, names: seq<Identifier>, i: nat, lists: map<string, seq<MappedValue>>, simpleOnly: bool)
    requires i < |names| && names[i] in decls
    requires Grouped(decls, names[..i], lists, simpleOnly)
    ensures var d := decls[names[i]];
      Grouped(decls, names[..i + 1], if simpleOnly && !IsSimple(d.input.t) then lists else lists[PackageOf(d) := Lookup(lists, PackageOf(d)) + [d]], simpleOnly)
  {
    forall p ensures Collect(decls, names[..i + 1], p, simpleOnly)
      == Collect(decls, names[..i], p, simpleOnly) + (if Belongs(decls[names[i]], p, simpleOnly) then [decls[names[i]]] else [])
    {
      CollectStep(decls, names, i, p, simpleOnly);
    }
  }

  lemma KeysStep(decls: Declarations, names: seq<Identifier>, i: nat, lists: map<string, seq<MappedValue>>)
    requires i < |names| && names[i] in decls
    requires Grouped(decls, names[..i], lists, false) && KeysListed(decls, names[..i], lists)
    ensures var d := decls[names[i]];
      KeysListed(decls, names[..i + 1], lists[PackageOf(d) := Lookup(lists, PackageOf(d)) + [d]])
  {
    forall p ensures Collect(decls, names[..i + 1], p, false)
      == Collect(decls, names[..i], p, false) + (if Belongs(decls[names[i]], p, false) then [decls[names[i]]] else [])
    {
      CollectStep(decls, names, i, p, false);
    }
  }

  /** Once every declaration is visited, the lists hold exactly each package's declarations. */
  lemma GroupedComplete(decls: Declarations, names: seq<Identifier>, byPackage: map<string, seq<MappedValue>>, simpleByPackage: map<string, seq<MappedValue>>)
    requires DeclarationsValid(decls) && Distinct(names) && Elements(names) == decls.Keys
    requires Grouped(decls, names, byPackage, false) && KeysListed(decls, names, byPackage)
    requires Grouped(decls, names, simpleByPackage, true)
    ensures byPackage.Keys == Packages(decls)
    ensures forall p :: Elements(Lookup(byPackage, p)) == Members(decls, p, false) && Distinct(Lookup(byPackage, p))
    ensures forall p :: Elements(Lookup(simpleByPackage, p)) == Members(decls, p, true)
  {
    forall p ensures Elements(Lookup(byPackage, p)) == Members(decls, p, false) && Distinct(Lookup(byPackage, p)) {
      CollectAll(decls, names, p, false);
      CollectDistinct(decls, names, p, false);
    }
    forall p ensures Elements(Lookup(simpleByPackage, p)) == Members(decls, p, true) {
      CollectAll(decls, names, p, true);
    }
    forall p ensures p in byPackage <==> p in Packages(decls) {
      KeyListed(decls, names, byPackage, p);
    }
  }

  lemma KeyListed(decls: Declarations, names: seq<Identifier>, byPackage: map<string, seq<MappedValue>>, p: string)
    requires Elements(names) == decls.Keys && KeysListed(decls, names, byPackage)
    ensures p in byPackage <==> p in Packages(decls)
  {
    var c := Collect(decls, names, p, false);
    CollectAll(decls, names, p, false);
    if p in Packages(decls) {
      var n :| n in decls && PackageOf(decls[n]) == p;
      assert decls[n] in Members(decls, p, false);
    } else {
      assert Members(decls, p, false) == {};
      ElementsEmpty(c);
    }
  }

  /** `ready(lists)`: the index of the first pending package whose list passes the test, or -1. */
  method ReadyIndex(decls: Declarations, lists: map<string, seq<MappedValue>>, pending: seq<string>, ghost simpleOnly: bool) returns (index: int)
    requires forall p :: Elements(Lookup(lists, p)) == Members(decls, p, simpleOnly)
    ensures index == FirstReady(decls, pending, simpleOnly, 0)
  {
    for i := 0 to |pending|
      invariant forall j :: 0 <= j < i ==> !Ready(decls, pending, j, simpleOnly)
    {
      assert Elements(Lookup(lists, pending[i])) == Members(decls, pending[i], simpleOnly);
      if ReadyAmong(decls, Elements(Lookup(lists, pending[i])), pending[i], pending) {
        assert Ready(decls, pending, i, simpleOnly);
        FirstReadyIsFirst(decls, pending, simpleOnly, 0);
        return i;
      }
    }
    FirstReadyIsFirst(decls, pending, simpleOnly, 0);
    return -1;
  }

  /** One turn of the loop: the package it takes next, a ready one first. */
  method NextIndex(decls: Declarations, byPackage: map<string, seq<MappedValue>>, simpleByPackage: map<string, seq<MappedValue>>, pending: seq<string>)
    returns (index: nat)
    requires |pending| > 0
    requires forall p :: Elements(Lookup(byPackage, p)) == Members(decls, p, false)
    requires forall p :: Elements(Lookup(simpleByPackage, p)) == Members(decls, p, true)
    ensures index == PickIndex(decls, pending)
  {
    var i := ReadyIndex(decls, byPackage, pending, false);
    if i != -1 {
      return i;
    }
    var j := ReadyIndex(decls, simpleByPackage, pending, true);
    if j != -1 {
      return j;
    }
    return 0;
  }

  /** Taking the package `PickIndex` names keeps the invariant of the loop. */
  lemma PackageOrderStep(decls: Declarations, taken: seq<string>, pending: seq<string>, index: nat, total: seq<string>)
    requires |pending| > 0 && index == PickIndex(decls, pending)
    requires taken + PackageOrder(decls, pending) == total
    ensures (taken + [pending[index]]) + PackageOrder(decls, Remove(pending, index)) == total
  {
    assert PackageOrder(decls, pending) == [pending[index]] + PackageOrder(decls, Remove(pending, index));
  }

  /** The loop that moves packages from `packagesToOutput` to `packagesInOutputOrder`. */
  method OutputOrder(decls: Declarations, byPackage: map<string, seq<MappedValue>>, simpleByPackage: map<string, seq<MappedValue>>, packagesToOutput: seq<string>)
    returns (packagesInOutputOrder: seq<string>)
    requires forall p :: Elements(Lookup(byPackage, p)) == Members(decls, p, false)
    requires forall p :: Elements(Lookup(simpleByPackage, p)) == Members(decls, p, true)
    ensures packagesInOutputOrder == PackageOrder(decls, packagesToOutput)
  {
    packagesInOutputOrder := [];
    var pending := packagesToOutput;
    while |pending| > 0
      invariant packagesInOutputOrder + PackageOrder(decls, pending) == PackageOrder(decls, packagesToOutput)
      decreases |pending|
    {
      var index := NextIndex(decls, byPackage, simpleByPackage, pending);
      PackageOrderStep(decls, packagesInOutputOrder, pending, index, PackageOrder(decls, packagesToOutput));
      packagesInOutputOrder := packagesInOutputOrder + [pending[index]];
      pending := Remove(pending, index);
    }
  }

  /** The loop that sorts each package's declarations and appends them. */
  method Concatenate(decls: Declarations, byPackage: map<string, seq<MappedValue>>, order: seq<string>) returns (declarations: seq<MappedValue>)
    requires DeclarationsValid(decls)
    requires forall p :: Elements(Lookup(byPackage, p)) == Members(decls, p, false) && Distinct(Lookup(byPackage, p))
    ensures declarations == Emitted(decls, order)
  {
    declarations := [];
    for k := 0 to |order|
      invariant declarations == Emitted(decls, order[..k])
    {
      assert order[..k + 1][..k] == order[..k];
      var listed := Lookup(byPackage, order[k]);
      DistinctElements(listed);
      DeclarationKeyInjective(decls, order[k]);
      SortListing(listed, DeclarationKey);
      var packageDeclarations := InsertionSort(listed, DeclarationKey);
      declarations := declarations + packageDeclarations;
    }
    assert order[..|order|] == order;
  }

  /** `SupportingDeclarations`: the declarations of every package in the package order, each
    * package's by depth and identifier, as statement groups one blank line apart. */
  method SupportingDeclarations(m: Mapper) returns (r: Source)
    requires m.Valid()
    ensures r == Ts.StatementGroups(1, UtilSlices.MapSeq(Emitted(m.declarations, EmitOrder(m.declarations)), Rendered))
  {
    var decls := m.declarations;
    var byPackage, simpleByPackage := GroupByPackage(decls);
    var packagesToOutput := Listing(byPackage.Keys);
    PackageKeyInjective(byPackage.Keys);
    SortListing(packagesToOutput, PackageKey);
    packagesToOutput := InsertionSort(packagesToOutput, PackageKey);
    var order := OutputOrder(decls, byPackage, simpleByPackage, packagesToOutput);
    var declarations := Concatenate(decls, byPackage, order);
    var statements := UtilSlices.Map(declarations, Rendered);
    r := Ts.StatementGroups(1, statements);
  }
}
