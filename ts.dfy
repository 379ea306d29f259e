// The source constructors of gotypes/ts/ts.go and the identifier test of gotypes/ts/literals.go.

module Ts {
  import opened Outcomes
  import opened Strings
  import opened TsSource
  import UtilSlices

  /** `Array(elements...)`. */
  function Array(elements: seq<Source>): (r: Source)
    ensures r.Group? && r.style == ArrayStyle && r.elements == elements
  {
    Group(ArrayStyle, elements)
  }

  function AsSource(str: string): (r: Source)
    ensures r.Text? && r.text == str
  {
    Text(str)
  }

  /** The line `DocComment` emits for one line of the comment. */
  function DocLine(line: string): (r: Source)
    ensures r.Text? && r.text == (if |line| == 0 then " *" else " * " + line)
  {
    if |line| == 0 then Text(" *") else Text(" * " + line)
  }

  /** `DocComment(comment)`: the trimmed comment framed by slash-star-star and star-slash. */
  function DocComment(comment: string): (r: Source)
    ensures |TrimSpace(comment)| == 0 ==> r == Text("")
    ensures |TrimSpace(comment)| > 0 ==>
      var lines := Split(TrimSpace(comment), "\n");
      r == Statements([Text("/**"), Statements(UtilSlices.MapSeq(lines, DocLine)), Text(" */")])
  {
    var trimmed := TrimSpace(comment);
    if |trimmed| == 0 then Text("")
    else Statements([Text("/**"), Statements(UtilSlices.MapSeq(Split(trimmed, "\n"), DocLine)), Text(" */")])
  }

  /** A comment made only of white space, such as the ideographic space U+3000, gives empty text. */
  lemma DocCommentOfSpaces(comment: string)
    requires forall i :: 0 <= i < |comment| ==> IsSpace(comment[i])
    ensures DocComment(comment) == Text("")
    ensures DocComment("\U{3000}\n\U{2003}") == Text("")
  {
    var c := "\U{3000}\n\U{2003}";
    assert IsSpace(c[0]) && IsSpace(c[1]) && IsSpace(c[2]);
  }

  /** `ImportedName(module, name)`: renders as `name`, importing it from `module`. */
  function ImportedName(moduleName: string, name: Identifier): (r: Source)
    ensures ImportsOf(r) == {Import(moduleName, name)}
    ensures r.WithImport? && r.text == name
  {
    WithImport(Import(moduleName, name), name)
  }

  /** Two placeholders around a separator free of `%`. */
  lemma CountTwoPlaceholders(mid: string)
    requires '%' !in mid
    ensures Count(Placeholder + mid + Placeholder, Placeholder) == 2
  {
    assert Placeholder + mid + Placeholder == "" + Placeholder + (mid + Placeholder);
    CountCons("", Placeholder, mid + Placeholder);
    assert mid + Placeholder == mid + Placeholder + "";
    CountCons(mid, Placeholder, "");
    CountNone("", Placeholder);
  }

  /** The source `Sourcef` builds once its placeholder count has been checked. */
  function Fmt(format: string, args: seq<Source>): (r: Source)
    ensures ImportsOf(r) == ImportsOfAll(args)
    ensures |args| == 0 ==> r == Text(format)
    ensures |args| > 0 ==> r == Group(Format(format), args)
  {
    if |args| == 0 then Text(format) else Group(Format(format), args)
  }

  /** `Sourcef(format, a...)`: panics when the number of `%s` placeholders is not the number of arguments. */
  function Sourcef(format: string, args: seq<Source>): (r: Outcome<Source>)
    ensures r.Panics? <==> Count(format, Placeholder) != |args|
    ensures r.Returns? ==> r.value == Fmt(format, args)
    ensures !r.Diverges?
  {
    if Count(format, Placeholder) != |args| then Panics(format) else Returns(Fmt(format, args))
  }

  lemma ImportsOfPair(a: Source, b: Source)
    ensures ImportsOfAll([a, b]) == ImportsOf(a) + ImportsOf(b)
  {
    assert [a, b][..1] == [a];
    assert [a][..0] == [];
    assert ImportsOfAll([a]) == ImportsOf(a);
    assert ImportsOfAll([a, b]) == ImportsOfAll([a]) + ImportsOf(b);
  }

  /** `Sourcef("%s%s", f, a)`: the two sources side by side. */
  function Juxtapose(f: Source, a: Source): (r: Source)
    ensures r == Group(Format(Placeholder + "" + Placeholder), [f, a])
    ensures ImportsOf(r) == ImportsOf(f) + ImportsOf(a)
  {
    ImportsOfPair(f, a);
    Fmt(Placeholder + "" + Placeholder, [f, a])
  }

  /** The format of `Juxtapose` has two placeholders, so `Sourcef` does not panic on it. */
  lemma JuxtaposeSourcef(f: Source, a: Source)
    ensures Sourcef(Placeholder + "" + Placeholder, [f, a]) == Returns(Juxtapose(f, a))
  {
    CountTwoPlaceholders("");
  }

  /** `Property.AsSource` formats with two placeholders, so its `Sourcef` does not panic. */
  lemma PropertySourcef(p: Property)
    ensures Sourcef(Placeholder + ": " + Placeholder, [PropertyKey(p.name), p.value]) == Returns(p.AsSource())
  {
    CountTwoPlaceholders(": ");
  }

  /** `InvokeFunction(callee, arguments...)`: the function followed by the parenthesised arguments. */
  function InvokeFunction(callee: Source, arguments: seq<Source>): (r: Source)
    ensures r == Juxtapose(callee, Group(InvocationStyle, arguments))
    ensures ImportsOf(r) == ImportsOf(callee) + ImportsOfAll(arguments)
  {
    Juxtapose(callee, Group(InvocationStyle, arguments))
  }

  /** `Sourcef("%s.%s", receiver, name)`. */
  function Member(receiver: Source, name: Identifier): (r: Source)
    ensures r == Group(Format(Placeholder + "." + Placeholder), [receiver, Text(name)])
    ensures ImportsOf(r) == ImportsOf(receiver)
  {
    ImportsOfPair(receiver, Text(name));
    Fmt(Placeholder + "." + Placeholder, [receiver, Text(name)])
  }

  lemma MemberSourcef(receiver: Source, name: Identifier)
    ensures Sourcef(Placeholder + "." + Placeholder, [receiver, Text(name)]) == Returns(Member(receiver, name))
  {
    CountTwoPlaceholders(".");
  }

  /** `InvokeMethod(receiver, name, arguments...)`. */
  function InvokeMethod(receiver: Source, name: Identifier, arguments: seq<Source>): (r: Source)
    ensures r == InvokeFunction(Member(receiver, name), arguments)
    ensures ImportsOf(r) == ImportsOf(receiver) + ImportsOfAll(arguments)
  {
    InvokeFunction(Member(receiver, name), arguments)
  }

  /** The decimal digits of `n`. */
  function NatText(n: nat): (r: string)
    ensures |r| > 0 && forall i :: 0 <= i < |r| ==> '0' <= r[i] <= '9'
    decreases n
  {
    if n < 10 then [Digit(n)] else NatText(n / 10) + [Digit(n % 10)]
  }

  function Digit(d: nat): (c: char)
    requires d < 10
    ensures '0' <= c <= '9' && c as int - '0' as int == d
  {
    ('0' as int + d) as char
  }

  /** Reads back a string of decimal digits. */
  function DigitsValue(s: string): nat
    requires forall i :: 0 <= i < |s| ==> '0' <= s[i] <= '9'
  {
    if |s| == 0 then 0 else 10 * DigitsValue(s[..|s| - 1]) + (s[|s| - 1] as int - '0' as int)
  }

  lemma {:induction false} NatTextRoundTrip(n: nat)
    ensures DigitsValue(NatText(n)) == n
    decreases n
  {
    if n >= 10 {
      var s := NatText(n);
      assert s[..|s| - 1] == NatText(n / 10);
      NatTextRoundTrip(n / 10);
    }
  }

  /** `NumberLiteral` on an integer: `%v` formatting, a minus sign before negative values. */
  function NumberLiteral(value: int): (r: Source)
    ensures r.Text?
    ensures value >= 0 ==> r.text == NatText(value)
    ensures value < 0 ==> r.text == "-" + NatText(-value)
  {
    if value < 0 then Text("-" + NatText(-value)) else Text(NatText(value))
  }

  /** A named value for `Object`. */
  datatype Property = Property(name: string, value: Source)
  {
    /** `Property.AsSource`: `name: value`, with the name quoted unless it is a TypeScript identifier. */
    function AsSource(): (r: Source)
      ensures r == Group(Format(Placeholder + ": " + Placeholder), [PropertyKey(name), value])
      ensures ImportsOf(r) == ImportsOf(PropertyKey(name)) + ImportsOf(value)
    {
      ImportsOfPair(PropertyKey(name), value);
      Fmt(Placeholder + ": " + Placeholder, [PropertyKey(name), value])
    }

    /** `Property.AsSource` as the code has it, with the unanchored identifier test. */
    function AsSourceAsWritten(): (r: Source)
      ensures IsValidIdentifierAsWritten(name) ==> r == Group(Format(Placeholder + ": " + Placeholder), [Text(name), value])
      ensures !IsValidIdentifierAsWritten(name) ==> r == Group(Format(Placeholder + ": " + Placeholder), [StringLiteral(name), value])
    {
      var key := if IsValidIdentifierAsWritten(name) then Text(name) else StringLiteral(name);
      Fmt(Placeholder + ": " + Placeholder, [key, value])
    }
  }

  /** The key `AsSource` writes for a property name. */
  function PropertyKey(name: string): (r: Source)
    ensures IsValidIdentifier(name) ==> r == Text(name)
    ensures !IsValidIdentifier(name) ==> r == StringLiteral(name)
  {
    if IsValidIdentifier(name) then Text(name) else StringLiteral(name)
  }

  function PropertySource(p: Property): Source {
    p.AsSource()
  }

  /** `Object(properties...)`: the properties as `name: value` pairs in braces. */
  function Object(properties: seq<Property>): (r: Source)
    ensures r.Group? && r.style == ObjectStyle
    ensures |r.elements| == |properties|
    ensures forall i :: 0 <= i < |properties| ==> r.elements[i] == properties[i].AsSource()
  {
    Group(ObjectStyle, UtilSlices.MapSeq(properties, PropertySource))
  }

  /** `RegexLiteral`: the regular expression between slashes, without escaping. */
  function RegexLiteral(re: string): (r: Source)
    ensures r == Text("/" + re + "/")
  {
    Text("/" + re + "/")
  }

  /** `Statements(statements...)` is `StatementGroups(0, statements...)`. */
  function Statements(statements: seq<Source>): (r: Source)
    ensures r == StatementGroups(0, statements)
  {
    StatementGroups(0, statements)
  }

  /** `StatementGroups(n, groups...)`; a negative count of blank lines writes none, as `for range n` does. */
  function StatementGroups(blankLinesBetweenGroups: int, groups: seq<Source>): (r: Source)
    ensures r.Group? && r.elements == groups
    ensures r.style == StatementLines(if blankLinesBetweenGroups < 0 then 0 else blankLinesBetweenGroups)
  {
    Group(StatementLines(if blankLinesBetweenGroups < 0 then 0 else blankLinesBetweenGroups), groups)
  }

  /** `StringEscape`: escapes `"` as `\"` and nothing else. */
  function StringEscape(str: string): (r: Source)
    ensures r.Text? && r.text == ReplaceChar(str, '"', "\\\"")
    ensures '"' !in str ==> r.text == str
  {
    Text(ReplaceChar(str, '"', "\\\""))
  }

  /** `StringLiteral`: the escaped string in double quotes. */
  function StringLiteral(str: string): (r: Source)
    ensures r.Text? && r.text == "\"" + StringEscape(str).text + "\""
    ensures r.text == QuotedText(str)
  {
    Text("\"" + StringEscape(str).text + "\"")
  }

  // ---------------------------------------------------------------------------------
  // Identifiers

  predicate IsIdentifierStart(c: char) {
    'a' <= c <= 'z' || 'A' <= c <= 'Z' || c == '_'
  }

  predicate IsIdentifierPart(c: char) {
    IsIdentifierStart(c) || '0' <= c <= '9'
  }

  /** `isValidIdentifier` as written: the pattern is matched anywhere in the string, so it
    * holds as soon as some character could start an identifier. */
  function IsValidIdentifierAsWritten(s: string): (r: bool)
    ensures r <==> exists i :: 0 <= i < |s| && IsIdentifierStart(s[i])
  {
    if |s| == 0 then false
    else if IsIdentifierStart(s[0]) then true
    else
      assert forall i :: 1 <= i < |s| ==> s[i] == s[1..][i - 1];
      IsValidIdentifierAsWritten(s[1..])
  }

  /** A whole string of the form the pattern describes: an identifier start followed by identifier parts. */
  predicate IsValidIdentifier(s: string) {
    |s| > 0 && IsIdentifierStart(s[0]) && forall i :: 1 <= i < |s| ==> IsIdentifierPart(s[i])
  }

  /** Every identifier the anchored test accepts, the code's test accepts too. */
  lemma ValidIdentifierAccepted(s: string)
    requires IsValidIdentifier(s)
    ensures IsValidIdentifierAsWritten(s)
  {
    assert IsIdentifierStart(s[0]);
  }

  /** `"a-b"` passes the code's test although it is no identifier, so the code writes the
    * property `a-b: ...` unquoted, which is not valid TypeScript. */
  lemma UnanchoredIdentifierCounterexample(v: Source)
    ensures IsValidIdentifierAsWritten("a-b") && !IsValidIdentifier("a-b")
    ensures Property("a-b", v).AsSourceAsWritten().elements[0] == Text("a-b")
    ensures Property("a-b", v).AsSource().elements[0] == StringLiteral("a-b")
  {
    assert IsIdentifierStart("a-b"[0]);
    assert !IsIdentifierPart("a-b"[1]);
  }

  /** The key `AsSource` writes is either a valid identifier, or a string literal. */
  lemma PropertyKeyWellFormed(name: string)
    ensures PropertyKey(name).Text?
    ensures IsValidIdentifier(PropertyKey(name).text) || PropertyKey(name).text == QuotedText(name)
  {
  }

  /** The examples of the primitive-type tests: `-` is quoted, `renamed` and `Exported` are not. */
  lemma IdentifierExamples()
    ensures !IsValidIdentifier("-") && !IsValidIdentifierAsWritten("-")
    ensures IsValidIdentifier("renamed") && IsValidIdentifier("Exported")
    ensures !IsValidIdentifier("") && !IsValidIdentifierAsWritten("")
  {
    assert !IsIdentifierStart("-"[0]);
    assert "-"[0] == '-';
  }
}
