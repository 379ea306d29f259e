// Struct tags and the JSON view of a struct: `tagHasFlag` of gotypes/gozod/go.go and the field
// walk of gotypes/gozod/go_json.go.

module GoZodJson {
  import Strings
  import opened GoInsp

  // ---------------------------------------------------------------------------------
  // Tag flags

  /** The segments the flag loop visits in `rest`, the tag text after its name: one per comma
    * separated piece, except that a trailing empty piece is never reached. */
  function FlagSegments(rest: string): (r: seq<string>)
    decreases |rest|
  {
    if rest == "" then []
    else
      var c := Strings.Cut(rest, ",");
      [c.before] + FlagSegments(c.after)
  }

  /** The flags of a tag: the segments after the first comma. */
  function Flags(tag: string): seq<string> {
    FlagSegments(Strings.Cut(tag, ",").after)
  }

  /** Related to `strings.Split`: the visited segments are the split pieces, less a final empty
    * piece (present when the text is empty or ends with a comma). */
  lemma {:induction false} FlagSegmentsSplit(rest: string)
    ensures Strings.Split(rest, ",") == FlagSegments(rest) + (if rest == "" || rest[|rest| - 1] == ',' then [""] else [])
    decreases |rest|
  {
    if rest != "" {
      if Strings.Cut(rest, ",").found {
        FlagSegmentsSplit(Strings.Cut(rest, ",").after);
        SplitAtComma(rest);
      } else {
        SplitWithoutComma(rest);
      }
    }
  }

  /** The step of `FlagSegmentsSplit` at a comma. */
  lemma SplitAtComma(rest: string)
    requires rest != "" && Strings.Cut(rest, ",").found
    requires var after := Strings.Cut(rest, ",").after;
      Strings.Split(after, ",") == FlagSegments(after) + (if after == "" || after[|after| - 1] == ',' then [""] else [])
    ensures Strings.Split(rest, ",") == FlagSegments(rest) + (if rest == "" || rest[|rest| - 1] == ',' then [""] else [])
  {
    var c := Strings.Cut(rest, ",");
    var after := c.after;
    var t: seq<string> := if after == "" || after[|after| - 1] == ',' then [""] else [];
    EndsWithCommaAfter(rest, c.before, after);
    assert Strings.Split(rest, ",") == [c.before] + Strings.Split(after, ",");
    assert FlagSegments(rest) == [c.before] + FlagSegments(after);
    ConsBoth(c.before, Strings.Split(after, ","), FlagSegments(after), t);
  }

  /** Text after a comma ends with a comma exactly when the whole does (or it is empty). */
  lemma EndsWithCommaAfter(rest: string, before: string, after: string)
    requires rest == before + "," + after
    ensures (rest == "" || rest[|rest| - 1] == ',') <==> (after == "" || after[|after| - 1] == ',')
  {
    if after != "" {
      assert rest[|rest| - 1] == after[|after| - 1];
    } else {
      assert rest[|rest| - 1] == ',';
    }
  }

  /** Putting the same piece in front of both sides of `xs == ys + t`. */
  lemma ConsBoth<T>(x: T, xs: seq<T>, ys: seq<T>, t: seq<T>)
    requires xs == ys + t
    ensures [x] + xs == ([x] + ys) + t
  {
  }

  /** The last segment of `FlagSegmentsSplit`. */
  lemma SplitWithoutComma(rest: string)
    requires rest != "" && !Strings.Cut(rest, ",").found
    ensures Strings.Split(rest, ",") == FlagSegments(rest) + (if rest == "" || rest[|rest| - 1] == ',' then [""] else [])
  {
    var c := Strings.Cut(rest, ",");
    assert c.before == rest && c.after == "";
    assert FlagSegments(rest) == [rest] by {
      assert FlagSegments(c.after) == [];
    }
    assert Strings.Split(rest, ",") == [rest];
    assert "," == [','];
    Strings.CutChar(rest, ',');
    assert rest[|rest| - 1] in rest;
  }

  /** So a non-empty flag is among the flags exactly when it is one of the split pieces after
    * the name. */
  lemma FlagsAreSplitPieces(tag: string, flag: string)
    requires flag != ""
    ensures flag in Flags(tag) <==> flag in Strings.Split(Strings.Cut(tag, ",").after, ",")
  {
    FlagSegmentsSplit(Strings.Cut(tag, ",").after);
  }

  /** `tagHasFlag`: skips the name, then cuts off one segment at a time. */
  method TagHasFlag(tag: string, flag: string) returns (r: bool)
    ensures r <==> flag in Flags(tag)
  {
    var rest := Strings.Cut(tag, ",").after;
    while rest != ""
      invariant flag in Flags(tag) <==> flag in FlagSegments(rest)
      decreases |rest|
    {
      var c := Strings.Cut(rest, ",");
      if c.before == flag {
        return true;
      }
      rest := c.after;
    }
    return false;
  }

  /** A tag without a comma has no flags; the name in front of the first comma is never one. */
  lemma FlagsSkipName(name: string, rest: string)
    requires ',' !in name
    ensures Flags(name) == []
    ensures Flags(name + "," + rest) == FlagSegments(rest)
  {
    Strings.CutNoChar(name, ',');
    Strings.CutAtChar(name, ',', rest);
  }

  /** A tag `name,a,b` carries the flags `a` and `b`, in that order. */
  lemma TwoFlags(name: string, a: string, b: string)
    requires ',' !in name && ',' !in a && ',' !in b && b != ""
    ensures Flags(name + "," + a + "," + b) == [a, b]
  {
    assert name + "," + a + "," + b == name + "," + (a + "," + b);
    FlagsSkipName(name, a + "," + b);
    Strings.CutAtChar(a, ',', b);
    Strings.CutNoChar(b, ',');
    assert FlagSegments(b) == [b] + FlagSegments("");
  }

  /** The tag `,string,omitempty` carries both flags, and not its empty name. */
  lemma StringOmitemptyFlags()
    ensures Flags(",string,omitempty") == ["string", "omitempty"]
  {
    assert ",string,omitempty" == "" + "," + "string" + "," + "omitempty";
    TwoFlags("", "string", "omitempty");
  }

  // ---------------------------------------------------------------------------------
  // The JSON property of a field

  /** `jsonPropertyName`: the tag text before the first comma, unless that is empty. */
  function JSONPropertyName(field: StructField, tag: string): (r: string)
    ensures tag == "" || tag[0] == ',' ==> r == field.name
    ensures tag != "" && tag[0] != ',' ==> ',' !in r && |r| <= |tag| && tag[..|r|] == r && (|r| == |tag| || tag[|r|] == ',')
  {
    var c := Strings.Cut(tag, ",");
    Strings.CutChar(tag, ',');
    assert c.found ==> tag == c.before + "," + c.after;
    if c.before != "" then c.before else field.name
  }

  /** One call of a visitor of `forEachTopLevelJSONFieldAndEmbeddedType`. */
  datatype Visit =
    | PropertyField(name: string, field: StructField, tag: string)
    | EmbeddedType(t: GoType)

  /** What one field contributes: nothing for the tag `-`, the embedded visitor for an
    * anonymous field without a tag (exported or not), the property visitor for another
    * exported field, and nothing for an unexported one. */
  function FieldVisits(field: StructField): (r: seq<Visit>)
    ensures |r| <= 1
    ensures field.TagGet("json") == "-" ==> r == []
    ensures field.TagGet("json") != "-" && field.anonymous && field.TagGet("json") == "" ==> r == [EmbeddedType(field.typ)]
    ensures |r| == 1 && r[0].PropertyField? ==> field.exported && r[0].field == field && r[0].tag == field.TagGet("json")
  {
    var tag := field.TagGet("json");
    if tag == "-" then []
    else if field.anonymous && tag == "" then [EmbeddedType(field.typ)]
    else if field.exported then [PropertyField(JSONPropertyName(field, tag), field, tag)]
    else []
  }

  /** The visits of the fields, in declaration order. */
  function TopLevelVisits(fields: seq<StructField>): (r: seq<Visit>)
    ensures |r| <= |fields|
  {
    if |fields| == 0 then []
    else TopLevelVisits(fields[..|fields| - 1]) + FieldVisits(fields[|fields| - 1])
  }

  /** The walk distributes over concatenation: the visits follow the order of the fields. */
  lemma {:induction false} TopLevelVisitsAppend(a: seq<StructField>, b: seq<StructField>)
    ensures TopLevelVisits(a + b) == TopLevelVisits(a) + TopLevelVisits(b)
    decreases |b|
  {
    if |b| > 0 {
      var b' := b[..|b| - 1];
      assert (a + b)[..|a + b| - 1] == a + b';
      assert (a + b)[|a + b| - 1] == b[|b| - 1];
      TopLevelVisitsAppend(a, b');
    } else {
      assert a + b == a;
    }
  }

  /** `forEachTopLevelJSONFieldAndEmbeddedType`, with the two visitors replaced by the list of
    * calls they receive. `NumField` panics on anything but a struct, so callers pass structs. */
  method ForEachTopLevelJSONFieldAndEmbeddedType(t: GoType) returns (visits: seq<Visit>)
    requires t.kind == Struct
    ensures visits == TopLevelVisits(t.fields)
  {
    visits := [];
    for i := 0 to |t.fields|
      invariant visits == TopLevelVisits(t.fields[..i])
    {
      assert t.fields[..i + 1][..i] == t.fields[..i];
      var field := t.fields[i];
      var tag := field.TagGet("json");
      if tag == "-" {
        continue;
      }
      if field.anonymous && tag == "" {
        visits := visits + [EmbeddedType(field.typ)];
      } else if field.exported {
        visits := visits + [PropertyField(JSONPropertyName(field, tag), field, tag)];
      }
    }
    assert t.fields[..|t.fields|] == t.fields;
  }

  /** The tag `-` hides a field, while `-,` names its property `-`. */
  lemma DashTags(field: StructField)
    requires field.exported && !field.anonymous
    ensures field.TagGet("json") == "-" ==> FieldVisits(field) == []
    ensures field.TagGet("json") == "-," ==> FieldVisits(field) == [PropertyField("-", field, "-,")]
  {
    if field.TagGet("json") == "-," {
      assert "-," == "-" + "," + "";
      Strings.CutAtChar("-", ',', "");
    }
  }
}
