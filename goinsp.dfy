// The Go type descriptors of gotypes/goinsp: import paths (gotypes/goinsp/go.go), the type
// interface the translation asks questions of (gotypes/goinsp/type.go), and the projection of a
// generic instance onto its type constructor (gotypes/goinsp/reflective). The `reflect.Type`
// that gotypes/goinsp/reflective/type_adaptor.go wraps is replaced by a datatype holding exactly
// what the modelled code reads of it.

module GoInsp {
  import opened Outcomes
  import Strings

  /** `reflect.Kind`. */
  datatype Kind =
    | Invalid | Bool | Int | Int8 | Int16 | Int32 | Int64
    | Uint | Uint8 | Uint16 | Uint32 | Uint64 | Uintptr
    | Float32 | Float64 | Complex64 | Complex128
    | Array | Chan | Func | Interface | Map | Pointer | Slice | String | Struct | UnsafePointer

  // ---------------------------------------------------------------------------------
  // Import paths

  predicate IsDigit(c: char) {
    '0' <= c <= '9'
  }

  /** The unanchored pattern `v\d+` matches somewhere in `s`. */
  predicate HasVersionLike(s: string) {
    exists i :: 0 <= i < |s| - 1 && s[i] == 'v' && IsDigit(s[i + 1])
  }

  /** The text after the last `/` of a path, or the whole path when it has none. */
  function LastSegment(path: string): (r: string)
    ensures '/' !in r
    ensures |r| <= |path| && path[|path| - |r|..] == r
    ensures |r| < |path| ==> path[|path| - |r| - 1] == '/'
    ensures '/' !in path ==> r == path
  {
    path[Strings.LastIndexOf(path, '/') + 1..]
  }

  /** `ImportPath.LastNonVersionSegment`: the last segment, or the one before it when the last
    * segment looks like a version. Slicing `path[:-1]` panics when the path has no `/` and its
    * only segment looks like a version. */
  function LastNonVersionSegment(path: string): (r: Outcome<string>)
    ensures !HasVersionLike(LastSegment(path)) ==> r == Returns(LastSegment(path))
    ensures HasVersionLike(LastSegment(path)) && '/' !in path ==> r.Panics?
    ensures HasVersionLike(LastSegment(path)) && '/' in path ==>
              r == Returns(LastSegment(path[..|path| - |LastSegment(path)| - 1]))
    ensures r.Returns? ==> '/' !in r.value
  {
    var i := Strings.LastIndexOf(path, '/');
    var segment := path[i + 1..];
    assert segment == LastSegment(path);
    assert i < 0 <==> '/' !in path;
    if !HasVersionLike(segment) then Returns(segment)
    else if i < 0 then Panics("slice bounds out of range [:-1]")
    else
      var parent := path[..i];
      assert parent == path[..|path| - |LastSegment(path)| - 1];
      Returns(parent[Strings.LastIndexOf(parent, '/') + 1..])
  }

  /** A trailing major version is skipped. */
  lemma SkipsTrailingVersion()
    ensures LastNonVersionSegment("a.com/foo/v2") == Returns("foo")
  {
    assert LastSegment("a.com/foo/v2") == "v2" by {
      Strings.LastIndexOfAt("a.com/foo", '/', "v2");
      assert "a.com/foo" + ['/'] + "v2" == "a.com/foo/v2";
    }
    assert HasVersionLike("v2") by {
      assert "v2"[0] == 'v' && IsDigit("v2"[1]);
    }
    assert "a.com/foo/v2"[..9] == "a.com/foo";
    assert LastSegment("a.com/foo") == "foo" by {
      Strings.LastIndexOfAt("a.com", '/', "foo");
      assert "a.com" + ['/'] + "foo" == "a.com/foo";
    }
  }

  /** The version pattern is unanchored: `dev2` counts as a version. */
  lemma UnanchoredVersion()
    ensures LastNonVersionSegment("a.com/dev2") == Returns("a.com")
  {
    assert LastSegment("a.com/dev2") == "dev2" by {
      Strings.LastIndexOfAt("a.com", '/', "dev2");
      assert "a.com" + ['/'] + "dev2" == "a.com/dev2";
    }
    assert HasVersionLike("dev2") by {
      assert "dev2"[2] == 'v' && IsDigit("dev2"[3]);
    }
    assert "a.com/dev2"[..5] == "a.com";
  }

  lemma NoVersionWithoutV(s: string)
    requires 'v' !in s
    ensures !HasVersionLike(s)
  {
  }

  /** A path without `/` and without a version is its own last segment. */
  lemma SingleSegmentPath()
    ensures LastNonVersionSegment("strings") == Returns("strings")
  {
    assert '/' !in "strings" && 'v' !in "strings";
    NoVersionWithoutV("strings");
  }

  /** With a version and no `/`, the slicing panics. */
  lemma SingleVersionSegmentPanics()
    ensures LastNonVersionSegment("v2").Panics?
  {
    assert '/' !in "v2";
    assert HasVersionLike("v2") by {
      assert "v2"[0] == 'v' && IsDigit("v2"[1]);
    }
  }

  // ---------------------------------------------------------------------------------
  // Types

  /** A field of a struct type: its name, its tag (the `key:"value"` pairs of the Go tag,
    * already parsed), whether it is embedded and exported, and its type. */
  datatype StructField = StructField(name: string, tag: map<string, string>, anonymous: bool, exported: bool, typ: GoType)
  {
    /** `reflect.StructTag.Get`: the value for `key`, or the empty string. */
    function TagGet(key: string): (r: string)
      ensures key in tag ==> r == tag[key]
      ensures key !in tag ==> r == ""
    {
      if key in tag then tag[key] else ""
    }
  }

  /** The interfaces the translation tests with `Implements`. */
  const TextMarshaler := "encoding.TextMarshaler"
  const JSONMarshaler := "json.Marshaler"

  /** A Go type as `goinsp.Type` presents it. `key`, `elem` and `fields` are what `Key`,
    * `Elem` and `Field` return where the kind has them; `implements` names the interfaces the
    * type implements. */
  datatype GoType = GoType(
    name: string,
    pkgPath: string,
    str: string,
    kind: Kind,
    len: nat,
    key: Option<GoType>,
    elem: Option<GoType>,
    fields: seq<StructField>,
    implements: set<string>)
  {
    predicate Implements(iface: string) {
      iface in implements
    }

    /** `Len` panics unless the type is an array. */
    function Len(): (r: Outcome<nat>)
      ensures r.Returns? <==> kind == Array
      ensures r.Returns? ==> r.value == len
    {
      if kind == Array then Returns(len) else Panics("reflect: Len of non-array type")
    }

    /** `NumField` panics unless the type is a struct. */
    function NumField(): (r: Outcome<nat>)
      ensures r.Returns? <==> kind == Struct
      ensures r.Returns? ==> r.value == |fields|
    {
      if kind == Struct then Returns(|fields|) else Panics("reflect: NumField of non-struct type")
    }

    function Key(): (r: Outcome<GoType>)
      ensures r.Returns? <==> kind == Map && key.Some?
      ensures r.Returns? ==> r.value == key.value && r.value < this
    {
      if kind == Map && key.Some? then Returns(key.value) else Panics("reflect: Key of non-map type")
    }

    function Elem(): (r: Outcome<GoType>)
      ensures r.Returns? <==> kind in {Array, Chan, Map, Pointer, Slice} && elem.Some?
      ensures r.Returns? ==> r.value == elem.value && r.value < this
    {
      if kind in {Array, Chan, Map, Pointer, Slice} && elem.Some? then Returns(elem.value)
      else Panics("reflect: Elem of invalid type")
    }

    /** Whether `WithoutTypeArguments` projects the type onto a type constructor
      * (gotypes/goinsp/reflective/type_adaptor.go). */
    predicate IsGeneric() {
      kind == Array || kind == Map || kind == Slice || '[' in name
    }
  }

  /** What `Comment` returns on a descriptor of this package: never available. */
  datatype PotentiallyUnavailable<T> = PotentiallyUnavailable(available: bool, value: T)

  /** `typeConstructor`: the parameterised form of a generic type, with type arguments cut off
    * its name and its string. */
  datatype TypeConstructor = TypeConstructor(name: string, pkgPath: string, str: string, kind: Kind, len: nat, numField: nat)

  /** `goinsp.GenType`: a concrete type, or a type constructor. Two of them are equal when
    * they are the same kind of descriptor with equal contents, as Go compares interface values. */
  datatype GenType = Concrete(t: GoType) | Constructor(c: TypeConstructor)
  {
    function Name(): string {
      if Concrete? then t.name else c.name
    }

    function PkgPath(): string {
      if Concrete? then t.pkgPath else c.pkgPath
    }

    function Kind(): Kind {
      if Concrete? then t.kind else c.kind
    }

    /** `typeConstructor.Len` and `NumField` panic on the wrong kind, like reflect's. */
    function Len(): (r: Outcome<nat>)
      ensures r.Returns? <==> Kind() == Array
    {
      if Concrete? then t.Len()
      else if c.kind == Array then Returns(c.len)
      else Panics("typeConstructor.Len of non-array")
    }

    function NumField(): (r: Outcome<nat>)
      ensures r.Returns? <==> Kind() == Struct
    {
      if Concrete? then t.NumField()
      else if c.kind == Struct then Returns(c.numField)
      else Panics("typeConstructor.NumField of non-struct")
    }

    /** `Comment` is unavailable on both kinds of descriptor. */
    function Comment(): (r: PotentiallyUnavailable<string>)
      ensures !r.available
    {
      PotentiallyUnavailable(false, "")
    }
  }

  /** `upToOpeningBrace`: the text before the first `[`, or all of it. */
  function UpToOpeningBrace(s: string): (r: string)
    ensures '[' !in r
    ensures |r| <= |s| && s[..|r|] == r
    ensures '[' !in s ==> r == s
    ensures '[' in s ==> |r| < |s| && s[|r|] == '['
  {
    Strings.CutChar(s, '[');
    var cut := Strings.Cut(s, "[");
    assert cut.found ==> s == cut.before + "[" + cut.after;
    cut.before
  }

  lemma UpToOpeningBraceIdempotent(s: string)
    ensures UpToOpeningBrace(UpToOpeningBrace(s)) == UpToOpeningBrace(s)
  {
  }

  /** The fields `newGenericType` copies, before it looks at the kind. */
  function GenericBase(t: GoType): (r: TypeConstructor)
    ensures r.name == UpToOpeningBrace(t.name) && r.str == UpToOpeningBrace(t.str)
    ensures r.pkgPath == t.pkgPath && r.kind == t.kind && r.len == 0 && r.numField == 0
  {
    TypeConstructor(UpToOpeningBrace(t.name), t.pkgPath, UpToOpeningBrace(t.str), t.kind, 0, 0)
  }

  /** `newGenericType` as written: slices need nothing, arrays keep their length, structs their
    * field count, and every other kind panics unless the name holds a `[`. A map type is not
    * among the cases, although `WithoutTypeArguments` sends every map type here. */
  function NewGenericTypeAsWritten(t: GoType): (r: Outcome<TypeConstructor>)
    ensures r.Panics? <==> t.kind !in {Slice, Array, Struct} && '[' !in t.name
    ensures r.Returns? ==> r.value == NewGenericType(t)
  {
    var gen := GenericBase(t);
    match t.kind
    case Slice => Returns(gen)
    case Array => Returns(gen.(len := t.len))
    case Struct => Returns(gen.(numField := |t.fields|))
    case _ => if '[' !in t.name then Panics("newGenericType") else Returns(gen)
  }

  /** `newGenericType` with map types handled like slices: nothing to record beyond the base. */
  function NewGenericType(t: GoType): (r: TypeConstructor)
    ensures r.name == UpToOpeningBrace(t.name) && r.str == UpToOpeningBrace(t.str)
    ensures r.pkgPath == t.pkgPath && r.kind == t.kind
    ensures r.len == (if t.kind == Array then t.len else 0)
    ensures r.numField == (if t.kind == Struct then |t.fields| else 0)
  {
    var gen := GenericBase(t);
    match t.kind
    case Array => gen.(len := t.len)
    case Struct => gen.(numField := |t.fields|)
    case _ => gen
  }

  /** `WithoutTypeArguments` as written, where a map type reaches the panic of `newGenericType`. */
  function WithoutTypeArgumentsAsWritten(g: GenType): (r: Outcome<GenType>)
    ensures g.Constructor? ==> r == Returns(g)
    ensures g.Concrete? && !g.t.IsGeneric() ==> r == Returns(g)
    ensures r.Panics? <==> g.Concrete? && g.t.kind == Map && '[' !in g.t.name
    ensures !r.Diverges?
  {
    match g
    case Constructor(_) => Returns(g)
    case Concrete(t) =>
      if t.IsGeneric() then
        match NewGenericTypeAsWritten(t)
        case Returns(c) => Returns(Constructor(c))
        case Panics(m) => Panics(m)
        case Diverges => Diverges
      else Returns(g)
  }

  /** Every map type that is not itself an instance of a generic type panics, so any lookup
    * that falls back on the type constructor panics for `map[string]int`. */
  lemma MapProjectionPanics(t: GoType)
    requires t.kind == Map && '[' !in t.name
    ensures WithoutTypeArgumentsAsWritten(Concrete(t)).Panics?
  {
  }

  /** `WithoutTypeArguments`, with the map case of `newGenericType` corrected. */
  function WithoutTypeArguments(g: GenType): (r: GenType)
    ensures g.Constructor? ==> r == g
    ensures g.Concrete? && !g.t.IsGeneric() ==> r == g
    ensures g.Concrete? && g.t.IsGeneric() ==> r == Constructor(NewGenericType(g.t))
    ensures WithoutTypeArgumentsAsWritten(g).Returns? ==> WithoutTypeArgumentsAsWritten(g).value == r
  {
    match g
    case Constructor(_) => g
    case Concrete(t) => if t.IsGeneric() then Constructor(NewGenericType(t)) else g
  }

  /** The projection is idempotent, and it keeps the package path and the kind. */
  lemma WithoutTypeArgumentsIdempotent(g: GenType)
    ensures WithoutTypeArguments(WithoutTypeArguments(g)) == WithoutTypeArguments(g)
    ensures WithoutTypeArguments(g).PkgPath() == g.PkgPath() && WithoutTypeArguments(g).Kind() == g.Kind()
  {
  }

  /** A projected name holds no type arguments. */
  lemma ProjectedNameHasNoArguments(t: GoType)
    requires t.IsGeneric()
    ensures '[' !in WithoutTypeArguments(Concrete(t)).Name()
  {
  }
}
