// String templates (gotypes/gozod/string_templating.go): a configured template such as
// `v{}` or `{major}.{minor}` makes a number, string or object schema travel as one string,
// parsed back by a regular expression with one capture group per placeholder. The regular
// expression is built as text here; what it matches is not modelled.

module GoZodTemplating {
  import opened Outcomes
  import opened TsSource
  import Zod
  import Ts
  import Strings

  // ---------------------------------------------------------------------------------
  // Embeddings

  /** `templateEmbedding`: how a number or a string sits inside the template. */
  datatype Embedding = NumberEmbedding(number: Zod.Schema) | StringEmbedding(str: Zod.Schema)
  {
    predicate Valid() {
      NumberEmbedding? ==> number.NumberType?
    }

    /** `RegexString`: digits, a fraction unless the number is an integer, and a sign unless
      * it is non-negative; any text for a string. */
    function RegexString(): (r: string)
      requires Valid()
      ensures StringEmbedding? ==> r == ".*"
      ensures NumberEmbedding? ==> r == (if number.nonNegative then "" else "-?") + "\\d+" + (if number.isInt then "" else "(?:\\.\\d+)?")
    {
      if StringEmbedding? then ".*"
      else
        var regex := "\\d+";
        var regex := if !number.IsInt() then regex + "(?:\\.\\d+)?" else regex;
        if !number.IsNonNegative() then "-?" + regex else regex
    }

    /** `Parse(str)`: a number is parsed by the schema from `Number(<str>)`; a string is the
      * captured text itself. */
    function Parse(str: Source): (r: Source)
      ensures StringEmbedding? ==> r == str
    {
      if StringEmbedding? then str
      else number.Parse(Ts.Fmt(NumberFormat, [str]))
    }
  }

  /** A number embedding parses `Number(<capture>)` with its schema, and that `Parsef` call
    * does not panic. */
  lemma NumberParse(e: Embedding, str: Source)
    requires e.NumberEmbedding?
    ensures e.number.Parsef(NumberFormat, [str]) == Returns(e.Parse(str))
    ensures e.Parse(str) == Ts.InvokeMethod(e.number.source, "parse", [Group(Format(NumberFormat), [str])])
  {
    CountOnePlaceholder("Number(", ")");
  }

  const NumberFormat := "Number(" + Placeholder + ")"

  lemma CountOnePlaceholder(a: string, b: string)
    requires '%' !in a && '%' !in b
    ensures Strings.Count(a + Placeholder + b, Placeholder) == 1
  {
    Strings.CountCons(a, Placeholder, b);
    Strings.CountNone(b, Placeholder);
  }

  /** The schema under its branded, nullable and optional wrappers. */
  function PeelWrappers(s: Zod.Schema): (r: Zod.Schema)
    ensures !r.HasUnwrap()
    ensures !s.HasUnwrap() ==> r == s
    decreases s
  {
    if s.HasUnwrap() then PeelWrappers(s.Unwrap()) else s
  }

  /** `resolveEmbedding`: the wrappers `case zod.ZodBranded` matches are peeled off; a number
    * or a string embeds, anything else panics. */
  function ResolveEmbedding(s: Zod.Schema): (r: Outcome<Embedding>)
    ensures !r.Diverges?
    ensures r.Returns? <==> PeelWrappers(s).NumberType? || PeelWrappers(s).StringType?
    ensures r.Returns? ==> r.value.Valid()
    ensures r.Returns? ==> (r.value.NumberEmbedding? <==> PeelWrappers(s).NumberType?)
    ensures r.Returns? && r.value.NumberEmbedding? ==> r.value.number == PeelWrappers(s)
    decreases s
  {
    if s.HasUnwrap() then ResolveEmbedding(s.Unwrap())
    else match s
    case NumberType(_, _, _) => Returns(NumberEmbedding(s))
    case StringType(_) => Returns(StringEmbedding(s))
    case _ => Panics("no template embedding for this schema")
  }

  /** A number keeps its kind under a brand and embeds; a string brands its plain node (it
    * inherits `Brand`), so a branded string no longer embeds. */
  lemma BrandedEmbeddings(brand: string)
    ensures ResolveEmbedding(Zod.Number().Brand(brand)) == Returns(NumberEmbedding(Zod.Number()))
    ensures ResolveEmbedding(Zod.String().Brand(brand)).Panics?
  {
  }

  /** `z.nullable(z.number())` embeds its number, while `z.number().nullable()` wraps the plain
    * node and panics. */
  lemma NullableEmbeddings()
    ensures ResolveEmbedding(Zod.NullableOf(Zod.Number())) == Returns(NumberEmbedding(Zod.Number()))
    ensures ResolveEmbedding(Zod.Number().Nullable()).Panics?
    ensures ResolveEmbedding(Zod.NullableOf(Zod.String()).Optional()).Panics?
  {
  }

  /** An integer that cannot be negative is plain digits. */
  lemma NonNegativeIntRegex()
    ensures NumberEmbedding(Zod.Number().Int().NonNegative()).RegexString() == "\\d+"
    ensures NumberEmbedding(Zod.Number()).RegexString() == "-?\\d+(?:\\.\\d+)?"
  {
  }

  // ---------------------------------------------------------------------------------
  // Quoting

  predicate IsRegexSpecial(c: char) {
    c in "\\.+*?()|[]{}^$"
  }

  /** `regexp.QuoteMeta`: a backslash before every metacharacter. */
  function QuoteMeta(s: string): (r: string)
    ensures (forall i :: 0 <= i < |s| ==> !IsRegexSpecial(s[i])) ==> r == s
    ensures |r| >= |s|
  {
    if |s| == 0 then ""
    else (if IsRegexSpecial(s[0]) then ['\\', s[0]] else [s[0]]) + QuoteMeta(s[1..])
  }

  /** Reading a quoted text back: a backslash stands for the character after it. */
  function Unquote(r: string): string
    decreases |r|
  {
    if |r| == 0 then ""
    else if r[0] == '\\' && |r| > 1 then [r[1]] + Unquote(r[2..])
    else [r[0]] + Unquote(r[1..])
  }

  /** The literal parts of the regular expression spell the template's text exactly. */
  lemma {:induction false} QuoteMetaRoundTrip(s: string)
    ensures Unquote(QuoteMeta(s)) == s
  {
    if |s| > 0 {
      QuoteMetaRoundTrip(s[1..]);
      var q := QuoteMeta(s[1..]);
      if IsRegexSpecial(s[0]) {
        assert QuoteMeta(s) == ['\\', s[0]] + q;
        assert (['\\', s[0]] + q)[2..] == q;
      } else {
        assert QuoteMeta(s) == [s[0]] + q;
        assert ([s[0]] + q)[1..] == q;
      }
    }
  }

  // ---------------------------------------------------------------------------------
  // Scalar templates

  /** `fromTemplatedString` for a schema other than an object: the text before and after the
    * first `{}` quoted around one capture group, and the embedding's parse of `match[1]`. */
  function ScalarTemplate(schema: Zod.Schema, template: string): (r: Outcome<(string, Source)>)
    ensures !r.Diverges?
    ensures r.Returns? <==> ResolveEmbedding(schema).Returns? && Strings.Cut(template, "{}").found
    ensures r.Returns? ==>
      var c := Strings.Cut(template, "{}");
      template == c.before + "{}" + c.after
      && r.value.0 == QuoteMeta(c.before) + "(" + ResolveEmbedding(schema).value.RegexString() + ")" + QuoteMeta(c.after)
      && r.value.1 == ResolveEmbedding(schema).value.Parse(Text("match[1]"))
  {
    var embedding :- ResolveEmbedding(schema);
    var c := Strings.Cut(template, "{}");
    if !c.found then Panics("can't find placeholder {} in template")
    else
      Strings.CountNone("match[1]", Placeholder);
      Returns((QuoteMeta(c.before) + "(" + embedding.RegexString() + ")" + QuoteMeta(c.after), embedding.Parse(Ts.Fmt("match[1]", []))))
  }

  /** The `{}` the scalar template uses is the first one. */
  lemma ScalarTemplateFirstPlaceholder(schema: Zod.Schema, template: string)
    requires ScalarTemplate(schema, template).Returns?
    ensures forall j :: 0 <= j < |Strings.Cut(template, "{}").before| ==> !Strings.OccursAt(template, j, "{}")
  {
    Strings.CutFirst(template, "{}");
  }

  /** The template `v{}` of a string: a `v`, then anything, captured. */
  lemma VersionStringTemplate()
    ensures ScalarTemplate(Zod.String(), "v{}") == Returns(("v(.*)", Text("match[1]")))
  {
    VersionCut();
    var e := ResolveEmbedding(Zod.String());
    assert e == Returns(StringEmbedding(Zod.String()));
    assert e.value.RegexString() == ".*";
    assert e.value.Parse(Text("match[1]")) == Text("match[1]");
    VersionRegex();
  }

  lemma VersionCut()
    ensures Strings.Cut("v{}", "{}") == Strings.CutResult("v", "", true)
  {
    assert "v{}" == "v" + "{}" + "";
    Strings.NoOccurrenceBefore("v", "{}", "");
    Strings.CutAfter("v", "{}", "");
  }

  lemma VersionRegex()
    ensures QuoteMeta("v") + "(" + ".*" + ")" + QuoteMeta("") == "v(.*)"
  {
    assert QuoteMeta("v") == "v" && QuoteMeta("") == "";
  }

  // ---------------------------------------------------------------------------------
  // Object templates

  /** The alternatives of the placeholder pattern `\{(name|name|...)\}`: the property names,
    * or the empty name when the shape is empty (an empty alternation). */
  function Alternatives(shape: seq<Zod.ShapeProperty>): (alts: seq<string>)
    ensures |alts| >= 1
    ensures |shape| == 0 ==> alts == [""]
    ensures |shape| > 0 ==> |alts| == |shape| && forall i :: 0 <= i < |shape| ==> alts[i] == shape[i].name
  {
    if |shape| == 0 then [""] else Names(shape)
  }

  function Names(shape: seq<Zod.ShapeProperty>): (names: seq<string>)
    ensures |names| == |shape| && forall i :: 0 <= i < |shape| ==> names[i] == shape[i].name
  {
    if |shape| == 0 then [] else [shape[0].name] + Names(shape[1..])
  }

  /** `{name}` stands at position `p` of `t`. */
  predicate PlaceholderAt(t: string, p: nat, name: string) {
    p + |name| + 2 <= |t| && t[p] == '{' && t[p + 1..p + 1 + |name|] == name && t[p + 1 + |name|] == '}'
  }

  /** The alternative the pattern takes at `p`: the first one, in order, that stands there. */
  function MatchAt(t: string, p: nat, alts: seq<string>): (r: Option<string>)
    ensures r.Some? ==> r.value in alts && PlaceholderAt(t, p, r.value)
  {
    if |alts| == 0 then None
    else if PlaceholderAt(t, p, alts[0]) then Some(alts[0])
    else MatchAt(t, p, alts[1..])
  }

  /** No alternative is taken exactly when none stands at `p`. */
  lemma {:induction false} MatchAtNone(t: string, p: nat, alts: seq<string>)
    ensures MatchAt(t, p, alts).None? <==> forall a :: a in alts ==> !PlaceholderAt(t, p, a)
  {
    if |alts| > 0 && !PlaceholderAt(t, p, alts[0]) {
      MatchAtNone(t, p, alts[1..]);
      assert forall a :: a in alts ==> a == alts[0] || a in alts[1..];
    }
  }

  /** Leftmost-first alternation: the alternative taken is the first in order that stands
    * at `p`, even when a later one would match a longer text. */
  lemma {:induction false} MatchAtFirst(t: string, p: nat, alts: seq<string>)
    requires MatchAt(t, p, alts).Some?
    ensures exists k :: 0 <= k < |alts| && alts[k] == MatchAt(t, p, alts).value && forall j :: 0 <= j < k ==> !PlaceholderAt(t, p, alts[j])
  {
    if !PlaceholderAt(t, p, alts[0]) {
      MatchAtFirst(t, p, alts[1..]);
      var k :| 0 <= k < |alts[1..]| && alts[1..][k] == MatchAt(t, p, alts).value && forall j :: 0 <= j < k ==> !PlaceholderAt(t, p, alts[1..][j]);
      assert alts[k + 1] == alts[1..][k];
      forall j | 0 <= j < k + 1 ensures !PlaceholderAt(t, p, alts[j]) {
        if j > 0 { assert alts[j] == alts[1..][j - 1]; }
      }
    } else {
      assert alts[0] == MatchAt(t, p, alts).value;
    }
  }

  /** `FindStringIndex` of the placeholder pattern from position `from` on: the leftmost
    * position where a placeholder stands, with the alternative taken there. */
  function FindPlaceholder(t: string, alts: seq<string>, from: nat): (r: Option<(nat, string)>)
    ensures r.Some? ==> from <= r.value.0 && r.value.0 + |r.value.1| + 2 <= |t|
    decreases |t| - from
  {
    if from >= |t| then None
    else match MatchAt(t, from, alts)
      case Some(name) => Some((from, name))
      case None => FindPlaceholder(t, alts, from + 1)
  }

  /** The search finds the leftmost position where a placeholder stands, and there the
    * alternative the pattern takes; it finds nothing only when no placeholder stands
    * anywhere from `from` on. */
  lemma {:induction false} FindPlaceholderLeftmost(t: string, alts: seq<string>, from: nat)
    ensures var r := FindPlaceholder(t, alts, from);
      (r.Some? ==> PlaceholderAt(t, r.value.0, r.value.1) && MatchAt(t, r.value.0, alts) == Some(r.value.1)
                   && forall p :: from <= p < r.value.0 ==> MatchAt(t, p, alts).None?)
      && (r.None? ==> forall p :: from <= p < |t| ==> MatchAt(t, p, alts).None?)
    decreases |t| - from
  {
    if from < |t| && MatchAt(t, from, alts).None? {
      FindPlaceholderLeftmost(t, alts, from + 1);
    }
  }

  /** The embeddings of all properties of the shape, in order; the first property that does
    * not embed makes it panic. */
  function ResolveEmbeddings(shape: seq<Zod.ShapeProperty>): (r: Outcome<seq<Embedding>>)
    ensures !r.Diverges?
    ensures r.Returns? <==> forall i :: 0 <= i < |shape| ==> ResolveEmbedding(shape[i].schema).Returns?
    ensures r.Returns? ==> |r.value| == |shape| && forall i :: 0 <= i < |shape| ==> Returns(r.value[i]) == ResolveEmbedding(shape[i].schema)
  {
    if |shape| == 0 then Returns([])
    else
      var e :- ResolveEmbedding(shape[0].schema);
      var rest :- ResolveEmbeddings(shape[1..]);
      assert forall i :: 1 <= i < |shape| ==> shape[i] == shape[1..][i - 1];
      Returns([e] + rest)
  }

  /** The index of the first property with this name, or -1 (`slices.IndexFunc`). */
  function IndexOfName(shape: seq<Zod.ShapeProperty>, name: string): (i: int)
    ensures -1 <= i < |shape|
    ensures i >= 0 ==> shape[i].name == name && forall j :: 0 <= j < i ==> shape[j].name != name
    ensures i == -1 ==> forall j :: 0 <= j < |shape| ==> shape[j].name != name
  {
    if |shape| == 0 then -1
    else if shape[0].name == name then 0
    else
      var i := IndexOfName(shape[1..], name);
      if i == -1 then -1 else i + 1
  }

  const MatchFormat := "match[" + Placeholder + "]"

  /** The source of capture group `k`: `match[k]`. */
  function MatchSource(k: nat): Source {
    Ts.Fmt(MatchFormat, [Ts.NumberLiteral(k)])
  }

  /** The source of capture group `k` is what `Sourcef("match[%s]", k)` gives, and that call
    * does not panic. */
  lemma MatchSourceFormat(k: nat)
    ensures Ts.Sourcef(MatchFormat, [Ts.NumberLiteral(k)]) == Returns(MatchSource(k))
  {
    CountOnePlaceholder("match[", "]");
  }

  /** All embeddings are well formed. */
  predicate AllValid(embeddings: seq<Embedding>) {
    forall i :: 0 <= i < |embeddings| ==> embeddings[i].Valid()
  }

  /** The capture group of an embedding. */
  function Capture(e: Embedding): string
    requires e.Valid()
  {
    "(" + e.RegexString() + ")"
  }

  /** The output property filled from capture `matchIndex`. */
  function Filled(p: Zod.ShapeProperty, e: Embedding, matchIndex: nat): Option<Ts.Property> {
    Some(Captured(p, e, matchIndex))
  }

  /** Property `p` parsed by its embedding from capture `matchIndex`. */
  function Captured(p: Zod.ShapeProperty, e: Embedding, matchIndex: nat): Ts.Property {
    Ts.Property(p.name, e.Parse(MatchSource(matchIndex)))
  }

  /** One placeholder of a template: the literal text before it, and the shape index of the
    * property it names. */
  datatype Piece = Piece(text: string, index: nat)

  predicate PiecesIn(pieces: seq<Piece>, n: nat) {
    forall j :: 0 <= j < |pieces| ==> pieces[j].index < n
  }

  /** A template rebuilt from its pieces: each text, then `{name}`. */
  function Rebuild(shape: seq<Zod.ShapeProperty>, pieces: seq<Piece>): string
    requires PiecesIn(pieces, |shape|)
  {
    if |pieces| == 0 then ""
    else pieces[0].text + ("{" + shape[pieces[0].index].name + "}") + Rebuild(shape, pieces[1..])
  }

  lemma PlaceholderSplit(t: string, p: nat, name: string)
    requires PlaceholderAt(t, p, name)
    ensures t == t[..p] + ("{" + name + "}") + t[p + |name| + 2..]
  {
    assert t[p..p + |name| + 2] == "{" + name + "}";
    assert t == t[..p] + t[p..p + |name| + 2] + t[p + |name| + 2..];
  }

  /** The placeholders of a template in the order the placeholder pattern finds them from the
    * left, and the text after the last one. A found name that is no property (the empty
    * name of an empty shape) gives `None`. */
  function Placeholders(shape: seq<Zod.ShapeProperty>, template: string): (r: Option<(seq<Piece>, string)>)
    ensures r.Some? ==> PiecesIn(r.value.0, |shape|)
    decreases |template|
  {
    var loc := FindPlaceholder(template, Alternatives(shape), 0);
    if loc.None? then Some(([], template))
    else
      var p := loc.value.0;
      var name := loc.value.1;
      var i := IndexOfName(shape, name);
      if i < 0 then None
      else
        var rest := Placeholders(shape, template[p + |name| + 2..]);
        if rest.None? then None
        else
          Some(([Piece(template[..p], i)] + rest.value.0, rest.value.1))
  }

  /** The pieces and the tail make up the template again, and the tail holds no placeholder. */
  lemma {:induction false} PlaceholdersRebuild(shape: seq<Zod.ShapeProperty>, template: string)
    requires Placeholders(shape, template).Some?
    ensures var r := Placeholders(shape, template).value;
      template == Rebuild(shape, r.0) + r.1 && FindPlaceholder(r.1, Alternatives(shape), 0).None?
    decreases |template|
  {
    var loc := FindPlaceholder(template, Alternatives(shape), 0);
    if loc.Some? {
      var p := loc.value.0;
      var name := loc.value.1;
      var i := IndexOfName(shape, name);
      var tail := template[p + |name| + 2..];
      var front := template[..p] + ("{" + name + "}");
      PlaceholdersRebuild(shape, tail);
      var rest := Placeholders(shape, tail).value;
      var all := Placeholders(shape, template).value;
      assert all == ([Piece(template[..p], i)] + rest.0, rest.1);
      assert Rebuild(shape, all.0) == front + Rebuild(shape, rest.0) by {
        assert all.0[0] == Piece(template[..p], i) && all.0[1..] == rest.0;
      }
      assert template == front + tail by {
        FindPlaceholderLeftmost(template, Alternatives(shape), 0);
        PlaceholderSplit(template, p, name);
      }
      AppendAssoc(front, Rebuild(shape, rest.0), rest.1);
    }
  }

  /** The capture groups of the embeddings, by shape index. */
  function Captures(embeddings: seq<Embedding>): (cs: seq<string>)
    requires AllValid(embeddings)
    ensures |cs| == |embeddings| && forall i :: 0 <= i < |embeddings| ==> cs[i] == Capture(embeddings[i])
  {
    if |embeddings| == 0 then [] else [Capture(embeddings[0])] + Captures(embeddings[1..])
  }

  /** The regular expression of the pieces: each text quoted, then its property's capture. */
  function RegexOf(captures: seq<string>, pieces: seq<Piece>): string
    requires PiecesIn(pieces, |captures|)
  {
    if |pieces| == 0 then ""
    else
      var last := pieces[|pieces| - 1];
      RegexOf(captures, pieces[..|pieces| - 1]) + QuoteMeta(last.text) + captures[last.index]
  }

  /** The output slots after the pieces fill them in turn, from capture `matchIndex` on. */
  function FillAll(shape: seq<Zod.ShapeProperty>, embeddings: seq<Embedding>, out: seq<Option<Ts.Property>>,
                   pieces: seq<Piece>, matchIndex: nat): (r: seq<Option<Ts.Property>>)
    requires |embeddings| == |shape| && |out| == |shape| && PiecesIn(pieces, |shape|)
    ensures |r| == |shape|
    decreases |pieces|
  {
    if |pieces| == 0 then out
    else
      var i := pieces[|pieces| - 1].index;
      FillAll(shape, embeddings, out, pieces[..|pieces| - 1], matchIndex)[i := Filled(shape[i], embeddings[i], matchIndex + |pieces| - 1)]
  }

  /** The position of the last piece that names property `i`, or -1. */
  function LastPiece(pieces: seq<Piece>, i: nat): (r: int)
    ensures -1 <= r < |pieces|
    ensures r >= 0 ==> pieces[r].index == i && forall j :: r < j < |pieces| ==> pieces[j].index != i
    ensures r == -1 ==> forall j :: 0 <= j < |pieces| ==> pieces[j].index != i
    decreases |pieces|
  {
    if |pieces| == 0 then -1
    else if pieces[|pieces| - 1].index == i then |pieces| - 1
    else
      var r := LastPiece(pieces[..|pieces| - 1], i);
      assert forall j :: 0 <= j < |pieces| - 1 ==> pieces[j] == pieces[..|pieces| - 1][j];
      r
  }

  /** A slot holds what the last piece naming it filled in, numbered from `matchIndex`, and
    * keeps its old content when no piece names it: a repeated placeholder leaves the last
    * capture in its slot. */
  lemma {:induction false} FillAllSlot(shape: seq<Zod.ShapeProperty>, embeddings: seq<Embedding>, out: seq<Option<Ts.Property>>,
                                       pieces: seq<Piece>, matchIndex: nat, i: nat)
    requires |embeddings| == |shape| && |out| == |shape| && PiecesIn(pieces, |shape|) && i < |shape|
    ensures FillAll(shape, embeddings, out, pieces, matchIndex)[i] ==
      if LastPiece(pieces, i) >= 0 then Filled(shape[i], embeddings[i], matchIndex + LastPiece(pieces, i)) else out[i]
    decreases |pieces|
  {
    if |pieces| > 0 && pieces[|pieces| - 1].index != i {
      FillAllSlot(shape, embeddings, out, pieces[..|pieces| - 1], matchIndex, i);
    }
  }

  lemma AppendAssoc(a: string, b: string, c: string)
    ensures a + (b + c) == a + b + c
  {
  }

  /** One more piece at the end of the regular expression. */
  lemma {:induction false} RegexOfSnoc(captures: seq<string>, pieces: seq<Piece>, piece: Piece)
    requires PiecesIn(pieces, |captures|) && piece.index < |captures|
    ensures PiecesIn(pieces + [piece], |captures|)
    ensures RegexOf(captures, pieces + [piece]) == RegexOf(captures, pieces) + QuoteMeta(piece.text) + captures[piece.index]
  {
    assert (pieces + [piece])[..|pieces|] == pieces;
  }

  /** One more piece at the end fills its slot from the capture after the earlier pieces'. */
  lemma {:induction false} FillAllSnoc(shape: seq<Zod.ShapeProperty>, embeddings: seq<Embedding>, out: seq<Option<Ts.Property>>,
                                       pieces: seq<Piece>, matchIndex: nat, piece: Piece)
    requires |embeddings| == |shape| && |out| == |shape| && PiecesIn(pieces, |shape|) && piece.index < |shape|
    ensures PiecesIn(pieces + [piece], |shape|)
    ensures var i := piece.index;
      FillAll(shape, embeddings, out, pieces + [piece], matchIndex) ==
        FillAll(shape, embeddings, out, pieces, matchIndex)[i := Filled(shape[i], embeddings[i], matchIndex + |pieces|)]
  {
    assert (pieces + [piece])[..|pieces|] == pieces;
  }

  /** The placeholders of a template after `pieces` were taken off its front. */
  function Prepend(pieces: seq<Piece>, r: Option<(seq<Piece>, string)>): Option<(seq<Piece>, string)> {
    if r.None? then None else Some((pieces + r.value.0, r.value.1))
  }

  /** The placeholders of a template in which the search finds `{name}` at `p`, naming
    * property `i`: that piece, then the placeholders of the text after it. */
  lemma {:induction false} PlaceholdersStep(shape: seq<Zod.ShapeProperty>, template: string, p: nat, name: string, i: int)
    requires FindPlaceholder(template, Alternatives(shape), 0) == Some((p, name)) && IndexOfName(shape, name) == i
    ensures i < 0 ==> Placeholders(shape, template).None?
    ensures i >= 0 ==>
      Placeholders(shape, template) == Prepend([Piece(template[..p], i)], Placeholders(shape, template[p + |name| + 2..]))
  {
  }

  lemma {:induction false} PrependTwice(a: seq<Piece>, b: seq<Piece>, r: Option<(seq<Piece>, string)>)
    ensures Prepend(a, Prepend(b, r)) == Prepend(a + b, r)
  {
    if r.Some? {
      assert a + (b + r.value.0) == (a + b) + r.value.0;
    }
  }

  /** `n` empty output slots. */
  function NoSlots(n: nat): (r: seq<Option<Ts.Property>>)
    ensures |r| == n && forall i :: 0 <= i < n ==> r[i].None?
  {
    if n == 0 then [] else NoSlots(n - 1) + [None]
  }

  /** The output properties when every one of them is filled in. */
  function AllFilled(out: seq<Option<Ts.Property>>): (r: Option<seq<Ts.Property>>)
    ensures r.Some? <==> forall i :: 0 <= i < |out| ==> out[i].Some?
    ensures r.Some? ==> |r.value| == |out| && forall i :: 0 <= i < |out| ==> Some(r.value[i]) == out[i]
  {
    if exists i :: 0 <= i < |out| && out[i].None? then None
    else Some(seq(|out|, i requires 0 <= i < |out| => out[i].value))
  }

  /** The embeddings of a shape that resolves are all well formed. */
  lemma {:induction false} ResolvedEmbeddingsValid(shape: seq<Zod.ShapeProperty>)
    requires ResolveEmbeddings(shape).Returns?
    ensures AllValid(ResolveEmbeddings(shape).value)
  {
    var embeddings := ResolveEmbeddings(shape).value;
    forall i | 0 <= i < |embeddings| ensures embeddings[i].Valid() {
      assert Returns(embeddings[i]) == ResolveEmbedding(shape[i].schema);
    }
  }

  /** The output properties when every shape property has a placeholder: property `i`,
    * under its own name, parses capture `1 + j` for the last piece `j` (counted from 0) that
    * names it. */
  function PiecesProperties(shape: seq<Zod.ShapeProperty>, embeddings: seq<Embedding>, pieces: seq<Piece>): (props: seq<Ts.Property>)
    requires |embeddings| == |shape|
  {
    seq(|shape|, i requires 0 <= i < |shape| => Captured(shape[i], embeddings[i], 1 + LastPiece(pieces, i)))
  }

  /** Every one of the first `n` properties is named by some piece. */
  predicate Covers(pieces: seq<Piece>, n: nat) {
    forall i :: 0 <= i < n ==> LastPiece(pieces, i) >= 0
  }

  /** Filling empty slots from capture 1 leaves no slot empty exactly when the pieces cover
    * the shape, and then the slots hold the properties of the pieces. */
  lemma {:induction false} FilledProperties(shape: seq<Zod.ShapeProperty>, embeddings: seq<Embedding>, pieces: seq<Piece>)
    requires |embeddings| == |shape| && PiecesIn(pieces, |shape|)
    ensures AllFilled(FillAll(shape, embeddings, NoSlots(|shape|), pieces, 1)) ==
      if Covers(pieces, |shape|) then Some(PiecesProperties(shape, embeddings, pieces)) else None
  {
    var out := FillAll(shape, embeddings, NoSlots(|shape|), pieces, 1);
    forall i | 0 <= i < |shape|
      ensures out[i] == if LastPiece(pieces, i) >= 0 then Filled(shape[i], embeddings[i], 1 + LastPiece(pieces, i)) else None
    {
      FillAllSlot(shape, embeddings, NoSlots(|shape|), pieces, 1, i);
    }
    if Covers(pieces, |shape|) {
      var props := PiecesProperties(shape, embeddings, pieces);
      assert AllFilled(out).Some?;
      assert AllFilled(out).value == props;
    } else {
      var i :| 0 <= i < |shape| && LastPiece(pieces, i) < 0;
      assert out[i].None?;
    }
  }

  /** The regular expression and the output properties of `objectFromTemplatedString`: the
    * embeddings panic first, then a placeholder that names no property; otherwise the pieces
    * give the regular expression and fill the slots from capture 1 on. */
  function ObjectTemplateParts(shape: seq<Zod.ShapeProperty>, template: string): (r: Outcome<(string, seq<Ts.Property>)>)
    ensures !r.Diverges?
  {
    var embeddings :- ResolveEmbeddings(shape);
    ResolvedEmbeddingsValid(shape);
    var found := Placeholders(shape, template);
    if found.None? then Panics("index out of range [-1]")
    else
      var (pieces, tail) := found.value;
      var out := FillAll(shape, embeddings, NoSlots(|shape|), pieces, 1);
      var props := AllFilled(out);
      if props.None? then Panics("a property has no placeholder in the template")
      else Returns((RegexOf(Captures(embeddings), pieces) + QuoteMeta(tail), props.value))
  }

  /** A template that gives an object: every property embeds, every placeholder names a
    * property, and every property has a placeholder. */
  predicate Templatable(shape: seq<Zod.ShapeProperty>, template: string) {
    ResolveEmbeddings(shape).Returns? && Placeholders(shape, template).Some?
    && Covers(Placeholders(shape, template).value.0, |shape|)
  }

  /** The regular expression of a templatable template: the text before each placeholder
    * quoted, then the capture of the property it names, then the quoted text after the
    * last placeholder. */
  function TemplatePattern(shape: seq<Zod.ShapeProperty>, template: string): string
    requires Templatable(shape, template)
  {
    ResolvedEmbeddingsValid(shape);
    var pieces := Placeholders(shape, template).value;
    RegexOf(Captures(ResolveEmbeddings(shape).value), pieces.0) + QuoteMeta(pieces.1)
  }

  /** The output properties of a templatable template, from its placeholders. */
  function TemplateProperties(shape: seq<Zod.ShapeProperty>, template: string): seq<Ts.Property>
    requires Templatable(shape, template)
  {
    PiecesProperties(shape, ResolveEmbeddings(shape).value, Placeholders(shape, template).value.0)
  }

  /** The parts in terms of the placeholders: they are there exactly for a templatable
    * template, and then they are its pattern and its properties. */
  lemma {:induction false} ObjectTemplatePartsSpec(shape: seq<Zod.ShapeProperty>, template: string)
    ensures ObjectTemplateParts(shape, template).Returns? <==> Templatable(shape, template)
    ensures Templatable(shape, template) ==>
      ObjectTemplateParts(shape, template) == Returns((TemplatePattern(shape, template), TemplateProperties(shape, template)))
  {
    if ResolveEmbeddings(shape).Returns? && Placeholders(shape, template).Some? {
      FilledProperties(shape, ResolveEmbeddings(shape).value, Placeholders(shape, template).value.0);
    }
  }

  /** The result of `objectFromTemplatedString`: the pattern and the object of the
    * properties of a templatable template, and a panic otherwise. */
  function ObjectTemplate(shape: seq<Zod.ShapeProperty>, template: string): (r: Outcome<(string, Source)>)
    ensures !r.Diverges?
    ensures r.Returns? <==> Templatable(shape, template)
    ensures r.Returns? ==> r.value == (TemplatePattern(shape, template), Ts.Object(TemplateProperties(shape, template)))
  {
    ObjectTemplatePartsSpec(shape, template);
    var parts :- ObjectTemplateParts(shape, template);
    Returns((parts.0, Ts.Object(parts.1)))
  }

  /** Piece `j` names property `i` and no later piece does. */
  predicate LastNaming(pieces: seq<Piece>, i: nat, j: int) {
    0 <= j < |pieces| && pieces[j].index == i && forall k :: j < k < |pieces| ==> pieces[k].index != i
  }

  /** The output properties of placeholders that cover the shape: one per shape property,
    * in shape order and under its name, parsing capture `1 + j` of the piece `j` that names
    * it last. */
  lemma {:induction false} ObjectTemplateProperties(shape: seq<Zod.ShapeProperty>, embeddings: seq<Embedding>, pieces: seq<Piece>)
    requires |embeddings| == |shape| && Covers(pieces, |shape|)
    ensures var props := PiecesProperties(shape, embeddings, pieces);
      |props| == |shape| &&
      forall i :: 0 <= i < |shape| ==> var j := LastPiece(pieces, i);
        LastNaming(pieces, i, j) && props[i] == Ts.Property(shape[i].name, embeddings[i].Parse(MatchSource(1 + j)))
  {
  }

  /** The object template once the embeddings resolve and the placeholders are found. */
  lemma {:induction false} ObjectTemplateFound(shape: seq<Zod.ShapeProperty>, template: string, embeddings: seq<Embedding>,
                                              pieces: seq<Piece>, tail: string)
    requires ResolveEmbeddings(shape) == Returns(embeddings) && Placeholders(shape, template) == Some((pieces, tail))
    ensures AllValid(embeddings) && |embeddings| == |shape| && PiecesIn(pieces, |shape|)
    ensures var props := AllFilled(FillAll(shape, embeddings, NoSlots(|shape|), pieces, 1));
      ObjectTemplate(shape, template) ==
        if props.None? then Panics("a property has no placeholder in the template")
        else Returns((RegexOf(Captures(embeddings), pieces) + QuoteMeta(tail), Ts.Object(props.value)))
  {
    ResolvedEmbeddingsValid(shape);
  }

  /** The object template when a placeholder names no property. */
  lemma {:induction false} ObjectTemplateUnnamed(shape: seq<Zod.ShapeProperty>, template: string)
    requires ResolveEmbeddings(shape).Returns? && Placeholders(shape, template).None?
    ensures ObjectTemplate(shape, template) == Panics("index out of range [-1]")
  {
  }

  /** The object template when an embedding panics. */
  lemma {:induction false} ObjectTemplateUnembedded(shape: seq<Zod.ShapeProperty>, template: string)
    requires ResolveEmbeddings(shape).IsFailure()
    ensures ObjectTemplate(shape, template) == ResolveEmbeddings(shape).PropagateFailure()
  {
  }

  /** The placeholder search over the names `a`, `b` finds `{b}` at the start of `{b}-{a}`. */
  lemma SwappedFirst()
    ensures FindPlaceholder("{b}-{a}", ["a", "b"], 0) == Some((0, "b"))
  {
    assert "{b}-{a}"[1..2] == "b";
    assert !PlaceholderAt("{b}-{a}", 0, "a");
    assert PlaceholderAt("{b}-{a}", 0, "b");
  }

  /** The placeholder search over the names `a`, `b` finds `{a}` after the dash of `-{a}`. */
  lemma SwappedSecond()
    ensures FindPlaceholder("-{a}", ["a", "b"], 0) == Some((1, "a"))
  {
    assert !PlaceholderAt("-{a}", 0, "a") && !PlaceholderAt("-{a}", 0, "b");
    assert MatchAt("-{a}", 0, ["a", "b"]).None?;
    assert PlaceholderAt("-{a}", 1, "a");
  }

  /** The pieces of `{b}-{a}` over a shape with the properties `a`, `b`: `b` first, then
    * `a` after a dash. */
  lemma {:induction false} SwappedPieces(sa: Zod.Schema, sb: Zod.Schema)
    ensures Placeholders([Zod.ShapeProperty("a", sa), Zod.ShapeProperty("b", sb)], "{b}-{a}") ==
      Some(([Piece("", 1), Piece("-", 0)], ""))
  {
    var shape := [Zod.ShapeProperty("a", sa), Zod.ShapeProperty("b", sb)];
    SwappedAlternatives(sa, sb);
    SwappedTail(sa, sb);
    SwappedFirst();
    assert "{b}-{a}"[..0] == "" && "{b}-{a}"[0 + |"b"| + 2..] == "-{a}";
    PlaceholdersStep(shape, "{b}-{a}", 0, "b", 1);
    assert [Piece("", 1)] + [Piece("-", 0)] == [Piece("", 1), Piece("-", 0)];
  }

  lemma SwappedAlternatives(sa: Zod.Schema, sb: Zod.Schema)
    ensures Alternatives([Zod.ShapeProperty("a", sa), Zod.ShapeProperty("b", sb)]) == ["a", "b"]
  {
    var shape := [Zod.ShapeProperty("a", sa), Zod.ShapeProperty("b", sb)];
    assert shape[1..] == [shape[1]];
  }

  /** The pieces of the `-{a}` left after `{b}`. */
  lemma {:induction false} SwappedTail(sa: Zod.Schema, sb: Zod.Schema)
    ensures Placeholders([Zod.ShapeProperty("a", sa), Zod.ShapeProperty("b", sb)], "-{a}") == Some(([Piece("-", 0)], ""))
  {
    var shape := [Zod.ShapeProperty("a", sa), Zod.ShapeProperty("b", sb)];
    SwappedAlternatives(sa, sb);
    SwappedSecond();
    assert "-{a}"[..1] == "-" && "-{a}"[1 + |"a"| + 2..] == "";
    assert Placeholders(shape, "") == Some(([], ""));
    PlaceholdersStep(shape, "-{a}", 1, "a", 0);
    assert [Piece("-", 0)] + [] == [Piece("-", 0)];
  }

  /** Two string properties embed as strings. */
  lemma {:induction false} SwappedEmbeddings(sa: Zod.Schema, sb: Zod.Schema)
    requires sa.StringType? && sb.StringType?
    ensures ResolveEmbeddings([Zod.ShapeProperty("a", sa), Zod.ShapeProperty("b", sb)]) ==
      Returns([StringEmbedding(sa), StringEmbedding(sb)])
  {
    var shape := [Zod.ShapeProperty("a", sa), Zod.ShapeProperty("b", sb)];
    assert ResolveEmbedding(sa) == Returns(StringEmbedding(sa));
    assert ResolveEmbedding(sb) == Returns(StringEmbedding(sb));
    var r := ResolveEmbeddings(shape);
    assert r.Returns? && |r.value| == 2;
    assert Returns(r.value[0]) == ResolveEmbedding(shape[0].schema);
    assert Returns(r.value[1]) == ResolveEmbedding(shape[1].schema);
    assert r.value == [StringEmbedding(sa), StringEmbedding(sb)];
  }

  /** The regular expression of the pieces of `{b}-{a}` over two string properties. */
  lemma {:induction false} SwappedRegex(sa: Zod.Schema, sb: Zod.Schema)
    ensures var captures := Captures([StringEmbedding(sa), StringEmbedding(sb)]);
      RegexOf(captures, [Piece("", 1), Piece("-", 0)]) + QuoteMeta("") == "(.*)-(.*)"
  {
    SwappedCaptures(sa, sb);
    var pieces := [Piece("", 1), Piece("-", 0)];
    assert QuoteMeta("-") == "-" by {
      assert !IsRegexSpecial('-');
    }
    assert RegexOf(["(.*)", "(.*)"], pieces[..1]) == "(.*)" by {
      assert pieces[..1][..0] == [];
    }
    assert pieces[..1] == [Piece("", 1)];
  }

  lemma SwappedCaptures(sa: Zod.Schema, sb: Zod.Schema)
    ensures Captures([StringEmbedding(sa), StringEmbedding(sb)]) == ["(.*)", "(.*)"]
  {
    var captures := Captures([StringEmbedding(sa), StringEmbedding(sb)]);
    assert Capture(StringEmbedding(sa)) == "(.*)";
    assert Capture(StringEmbedding(sb)) == "(.*)";
    assert captures[0] == "(.*)" && captures[1] == "(.*)";
  }

  /** The output properties of the pieces of `{b}-{a}` over two string properties: `a`
    * parses capture 2 and `b` capture 1. */
  lemma {:induction false} SwappedProperties(sa: Zod.Schema, sb: Zod.Schema)
    ensures var shape := [Zod.ShapeProperty("a", sa), Zod.ShapeProperty("b", sb)];
      AllFilled(FillAll(shape, [StringEmbedding(sa), StringEmbedding(sb)], NoSlots(2), [Piece("", 1), Piece("-", 0)], 1)) ==
        Some([Ts.Property("a", MatchSource(2)), Ts.Property("b", MatchSource(1))])
  {
    var shape := [Zod.ShapeProperty("a", sa), Zod.ShapeProperty("b", sb)];
    var embeddings := [StringEmbedding(sa), StringEmbedding(sb)];
    var pieces := [Piece("", 1), Piece("-", 0)];
    assert LastPiece(pieces, 0) == 1 && LastPiece(pieces, 1) == 0 by {
      assert pieces[1..] == [Piece("-", 0)];
    }
    FilledProperties(shape, embeddings, pieces);
    var props := PiecesProperties(shape, embeddings, pieces);
    assert props[0] == Ts.Property("a", MatchSource(2));
    assert props[1] == Ts.Property("b", MatchSource(1));
    assert props == [Ts.Property("a", MatchSource(2)), Ts.Property("b", MatchSource(1))];
  }

  /** Placeholders fill their properties in template order, not shape order: with two
    * string properties `a`, `b` and the template `{b}-{a}`, `b` takes capture 1 and `a`
    * capture 2. */
  lemma {:induction false} SwappedPlaceholders(sa: Zod.Schema, sb: Zod.Schema)
    requires sa.StringType? && sb.StringType?
    ensures ObjectTemplate([Zod.ShapeProperty("a", sa), Zod.ShapeProperty("b", sb)], "{b}-{a}") ==
      Returns(("(.*)-(.*)", Ts.Object([Ts.Property("a", MatchSource(2)), Ts.Property("b", MatchSource(1))])))
  {
    var shape := [Zod.ShapeProperty("a", sa), Zod.ShapeProperty("b", sb)];
    var pieces := [Piece("", 1), Piece("-", 0)];
    var embeddings := [StringEmbedding(sa), StringEmbedding(sb)];
    SwappedPieces(sa, sb);
    SwappedEmbeddings(sa, sb);
    ObjectTemplateFound(shape, "{b}-{a}", embeddings, pieces, "");
    SwappedRegex(sa, sb);
    SwappedProperties(sa, sb);
  }

  /** With an empty shape and no `{}` in the template, the regular expression is the quoted
    * template and there are no properties. */
  lemma {:induction false} ObjectTemplateWithoutPlaceholders(shape: seq<Zod.ShapeProperty>, template: string)
    requires |shape| == 0
    requires FindPlaceholder(template, [""], 0).None?
    ensures ObjectTemplateParts(shape, template) == Returns((QuoteMeta(template), []))
  {
    assert Placeholders(shape, template) == Some(([], template));
    assert ResolveEmbeddings(shape) == Returns([]);
    assert RegexOf(Captures([]), []) + QuoteMeta(template) == QuoteMeta(template);
    FilledProperties(shape, [], []);
    assert PiecesProperties(shape, [], []) == [];
  }

  /** With an empty shape the placeholder pattern is an empty alternation, so `{}` matches it,
    * no property has the empty name and the index -1 panics. */
  lemma {:induction false} EmptyShapeBracesPanic()
    ensures ObjectTemplateParts([], "{}").Panics?
  {
    assert PlaceholderAt("{}", 0, "");
    assert MatchAt("{}", 0, [""]) == Some("");
    assert FindPlaceholder("{}", [""], 0) == Some((0, ""));
    PlaceholdersStep([], "{}", 0, "", -1);
  }

  /** `objectFromTemplatedString`: one capture group per placeholder, numbered from 1 in the
    * order of the template, each filling the output property at its shape index. */
  method ObjectFromTemplatedString(shape: seq<Zod.ShapeProperty>, template: string) returns (r: Outcome<(string, Source)>)
    ensures r == ObjectTemplate(shape, template)
  {
    if ResolveEmbeddings(shape).IsFailure() {
      ObjectTemplateUnembedded(shape, template);
    }
    var embeddings :- ResolveEmbeddings(shape);
    ResolvedEmbeddingsValid(shape);
    var regex := "";
    var out := NoSlots(|shape|);
    var rest := template;
    var matchIndex: nat := 1;
    ghost var done: seq<Piece> := [];
    assert Placeholders(shape, template) == Prepend(done, Placeholders(shape, rest)) by {
      if Placeholders(shape, template).Some? {
        assert [] + Placeholders(shape, template).value.0 == Placeholders(shape, template).value.0;
      }
    }
    while true
      invariant PiecesIn(done, |shape|) && matchIndex == 1 + |done|
      invariant regex == RegexOf(Captures(embeddings), done)
      invariant out == FillAll(shape, embeddings, NoSlots(|shape|), done, 1)
      invariant Placeholders(shape, template) == Prepend(done, Placeholders(shape, rest))
      decreases |rest|
    {
      var loc := FindPlaceholder(rest, Alternatives(shape), 0);
      if loc.None? {
        break;
      }
      var (p, name) := loc.value;
      regex := regex + QuoteMeta(rest[..p]);
      var i := IndexOfName(shape, name);
      PlaceholdersStep(shape, rest, p, name, i);
      if i < 0 {
        ObjectTemplateUnnamed(shape, template);
        return Panics("index out of range [-1]");
      }
      regex := regex + Capture(embeddings[i]);
      out := out[i := Filled(shape[i], embeddings[i], matchIndex)];
      ghost var piece := Piece(rest[..p], i);
      var next := rest[p + |name| + 2..];
      assert PiecesIn(done + [piece], |shape|) && regex == RegexOf(Captures(embeddings), done + [piece]) by {
        RegexOfSnoc(Captures(embeddings), done, piece);
      }
      assert out == FillAll(shape, embeddings, NoSlots(|shape|), done + [piece], 1) by {
        FillAllSnoc(shape, embeddings, NoSlots(|shape|), done, 1, piece);
      }
      assert Placeholders(shape, template) == Prepend(done + [piece], Placeholders(shape, next)) by {
        PrependTwice(done, [piece], Placeholders(shape, next));
      }
      done := done + [piece];
      rest := next;
      matchIndex := matchIndex + 1;
    }
    assert Placeholders(shape, template) == Some((done, rest)) by {
      assert Placeholders(shape, rest) == Some(([], rest));
      assert done + [] == done;
    }
    ObjectTemplateFound(shape, template, embeddings, done, rest);
    regex := regex + QuoteMeta(rest);
    var props := AllFilled(out);
    if props.None? {
      return Panics("a property has no placeholder in the template");
    }
    return Returns((regex, Ts.Object(props.value)));
  }

  // ---------------------------------------------------------------------------------
  // The template transform

  /** The result of `fromTemplatedString`: an object is templated property by property,
    * anything else as one embedding. */
  function TemplatedString(schema: Zod.Schema, template: string): (r: Outcome<(string, Source)>)
    ensures !r.Diverges?
    ensures schema.ObjectType? ==> r == ObjectTemplate(schema.shape, template)
    ensures !schema.ObjectType? ==> r == ScalarTemplate(schema, template)
  {
    if schema.ObjectType? then ObjectTemplate(schema.Shape(), template) else ScalarTemplate(schema, template)
  }

  /** `fromTemplatedString`. */
  method FromTemplatedString(schema: Zod.Schema, template: string) returns (r: Outcome<(string, Source)>)
    ensures r == TemplatedString(schema, template)
  {
    if schema.ObjectType? {
      r := ObjectFromTemplatedString(schema.Shape(), template);
    } else {
      r := ScalarTemplate(schema, template);
    }
  }

  // The text of the transform between its placeholders.
  const TransformPart1 := "(s, ctx) => {\n    const re = "
  const TransformPart2 := TransformMatchLine + TransformIfLine + "        ctx.addIssue({ code: "
  const TransformMatchLine := ";\n    const match = re.exec(s);\n"
  const TransformIfLine := "    if (!match) {\n"
  const TransformPart3 := TransformIssueCode + "message: \"expected string of the form "
  const TransformIssueCode := ".ZodIssueCode.custom, "
  const TransformPart4 := TransformIssueEnd + "    }\n    return "
  const TransformIssueEnd := " matching \" + re });\n        return z.NEVER;\n"
  const TransformPart5 := ";\n}"

  const TransformFormat := TransformPart1 + Placeholder + TransformPart2 + Placeholder + TransformPart3
    + Placeholder + TransformPart4 + Placeholder + TransformPart5

  lemma TransformPart2Free()
    ensures '%' !in TransformPart2
  {
    assert '%' !in TransformMatchLine;
    assert '%' !in TransformIfLine;
  }

  lemma TransformPart3Free()
    ensures '%' !in TransformPart3
  {
    assert '%' !in TransformIssueCode;
  }

  lemma TransformPart4Free()
    ensures '%' !in TransformPart4
  {
    assert '%' !in TransformIssueEnd;
  }

  lemma CountPlaceholders4(a: string, b: string, c: string, d: string, e: string)
    requires '%' !in a && '%' !in b && '%' !in c && '%' !in d && '%' !in e
    ensures Strings.Count(a + Placeholder + b + Placeholder + c + Placeholder + d + Placeholder + e, Placeholder) == 4
  {
    assert a + Placeholder + b + Placeholder + c + Placeholder + d + Placeholder + e
      == a + Placeholder + (b + Placeholder + c + Placeholder + d + Placeholder + e);
    Strings.CountCons(a, Placeholder, b + Placeholder + c + Placeholder + d + Placeholder + e);
    Zod.CountPlaceholders3(b, c, d, e);
  }

  /** The transform has its four placeholders, so its `Transformf` does not panic. */
  lemma TransformFormatPlaceholders()
    ensures Strings.Count(TransformFormat, Placeholder) == 4
  {
    TransformPart2Free();
    TransformPart3Free();
    TransformPart4Free();
    CountPlaceholders4(TransformPart1, TransformPart2, TransformPart3, TransformPart4, TransformPart5);
  }

  /** The arguments of the transform: the anchored regular expression, the `z` import, the
    * template as escaped text, and the source that builds the value from `match`. */
  function TransformArgs(regex: string, template: string, transformMatch: Source): (r: seq<Source>)
    ensures |r| == 4
    ensures r[0] == Text("/^" + regex + "$/")
    ensures r[1] == Zod.Z
  {
    [Ts.RegexLiteral("^" + regex + "$"), Ts.ImportedName("zod", "z"), Ts.StringEscape(Ts.StringLiteral(template).text), transformMatch]
  }

  /** `applyTemplateTransform`: a string schema transformed by a function that matches the
    * anchored regular expression and builds the value from the captures. */
  method ApplyTemplateTransform(schema: Zod.Schema, template: string) returns (r: Outcome<Zod.Schema>)
    ensures r.Panics? <==> TemplatedString(schema, template).Panics?
    ensures r.Returns? ==>
      var t := TemplatedString(schema, template).value;
      r.value == Zod.String().Transform(Ts.Fmt(TransformFormat, TransformArgs(t.0, template, t.1)))
    ensures !r.Diverges?
  {
    var t :- FromTemplatedString(schema, template);
    TransformFormatPlaceholders();
    r := Zod.String().Transformf(TransformFormat, TransformArgs(t.0, template, t.1));
  }
}
