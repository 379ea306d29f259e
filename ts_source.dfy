// The TypeScript source tree and its indentation-aware pretty-printer (gotypes/ts/source.go).
//
// A `Source` is a leaf of text, a leaf of text that also needs an import, or a group of
// sources laid out in one of three styles. Rendering writes into an indentation-aware
// writer whose whole state, besides the text written so far, is one `justWroteNewline`
// flag. The pure functions `Emit*` describe what rendering writes; the methods
// `Write*To` are the imperative rendering of the Go code, each proved to write exactly that.

module TsSource {
  import opened Strings
  import opened Ordering

  type Identifier = string

  /** A `tsImport`: the name `name` imported from the module `moduleName`. */
  datatype Import = Import(moduleName: string, name: Identifier)

  datatype GroupStyle =
    | Braced(open: string, singleLinePadding: string, closed: string, multilineThreshold: nat)
    | StatementLines(blankLines: nat)
    | Format(format: string)

  datatype Source =
    | Text(text: string)
    | WithImport(imp: Import, text: string)
    | Group(style: GroupStyle, elements: seq<Source>)

  const InvocationStyle := Braced("(", "", ")", 5)
  const ArrayStyle := Braced("[", "", "]", 2)
  const ObjectStyle := Braced("{", " ", "}", 2)

  /** One level of indentation, as `sourceWriter.indent` adds it. */
  const IndentUnit := "    "

  const Placeholder := "%s"

  /** The text of `StringLiteral(str)`: `str` with each `"` escaped, in double quotes. */
  function QuotedText(str: string): string {
    "\"" + ReplaceChar(str, '"', "\\\"") + "\""
  }

  // ---------------------------------------------------------------------------------
  // Imports

  function ImportsOf(s: Source): set<Import>
    decreases s
  {
    match s
    case Text(_) => {}
    case WithImport(imp, _) => {imp}
    case Group(_, es) => ImportsOfAll(es)
  }

  function ImportsOfAll(es: seq<Source>): set<Import>
    decreases es
  {
    if |es| == 0 then {} else ImportsOfAll(es[..|es| - 1]) + ImportsOf(es[|es| - 1])
  }

  /** The `imports` set `addToImports` fills. */
  class Imports {
    var byName: set<Import>

    constructor ()
      ensures byName == {}
    {
      byName := {};
    }

    /** `imports.Add`: inserting is idempotent, so every import is kept once. */
    method Add(imp: Import)
      modifies this
      ensures byName == old(byName) + {imp}
    {
      byName := byName + {imp};
    }
  }

  /** `addToImports`, recursively over the tree. */
  method AddToImports(s: Source, imps: Imports)
    modifies imps
    ensures imps.byName == old(imps.byName) + ImportsOf(s)
    decreases s
  {
    match s
    case Text(_) =>
    case WithImport(imp, _) =>
      imps.Add(imp);
    case Group(_, es) =>
      var i := 0;
      while i < |es|
        invariant 0 <= i <= |es|
        invariant imps.byName == old(imps.byName) + ImportsOfAll(es[..i])
      {
        assert es[..i + 1][..i] == es[..i];
        AddToImports(es[i], imps);
        i := i + 1;
      }
      assert es[..|es|] == es;
  }

  // ---------------------------------------------------------------------------------
  // The writer

  /** What an `indentationAwareWriter` has written, and its `justWroteNewline` flag. */
  datatype WState = WState(out: string, justWroteNewline: bool)

  /** `indentationAwareWriter.writeString`: the flag changes only on a non-empty write. */
  function WriteRaw(st: WState, s: string): WState {
    WState(st.out + s, if |s| > 0 then s[|s| - 1] == '\n' else st.justWroteNewline)
  }

  /** `WriteStringAtIndentation`: indentation goes out only at the start of a line. */
  function WriteAt(st: WState, indentation: string, s: string): WState {
    var st1 := if st.justWroteNewline then WriteRaw(st, indentation).(justWroteNewline := false) else st;
    WriteRaw(st1, s)
  }

  function Newline(st: WState): WState {
    WriteRaw(st, "\n")
  }

  function EnsuredNewline(st: WState): WState {
    if st.justWroteNewline then st else Newline(st)
  }

  function Newlines(st: WState, n: nat): WState {
    if n == 0 then st else Newline(Newlines(st, n - 1))
  }

  class IndentationAwareWriter {
    var written: string
    var justWroteNewline: bool

    constructor ()
      ensures written == "" && !justWroteNewline
    {
      written := "";
      justWroteNewline := false;
    }

    function State(): WState
      reads this
    {
      WState(written, justWroteNewline)
    }

    method WriteStringAtIndentation(indentation: string, s: string)
      modifies this
      ensures State() == WriteAt(old(State()), indentation, s)
    {
      if justWroteNewline {
        WriteRawString(indentation);
        justWroteNewline := false;
      }
      WriteRawString(s);
    }

    /** `writeString`. */
    method WriteRawString(s: string)
      modifies this
      ensures State() == WriteRaw(old(State()), s)
    {
      written := written + s;
      if |s| > 0 {
        justWroteNewline := s[|s| - 1] == '\n';
      }
    }

    method WriteNewline()
      modifies this
      ensures State() == Newline(old(State()))
    {
      WriteRawString("\n");
    }

    method EnsureNewline()
      modifies this
      ensures State() == EnsuredNewline(old(State()))
    {
      if !justWroteNewline {
        WriteNewline();
      }
    }
  }

  /** A `sourceWriter`: the shared writer together with the current indentation. */
  datatype SourceWriter = SourceWriter(w: IndentationAwareWriter, indentation: string)
  {
    method WriteString(s: string)
      modifies w
      ensures w.State() == WriteAt(old(w.State()), indentation, s)
    {
      w.WriteStringAtIndentation(indentation, s);
    }

    function Indent(): (r: SourceWriter)
      ensures r.w == w && r.indentation == indentation + IndentUnit
    {
      IndentBy(IndentUnit)
    }

    function IndentBy(additional: string): (r: SourceWriter)
      ensures r.w == w && r.indentation == indentation + additional
    {
      SourceWriter(w, indentation + additional)
    }
  }

  // ---------------------------------------------------------------------------------
  // What rendering writes

  /** The effect of `s.writeSourceTo` on a writer at indentation `ind` in state `st`. */
  function Emit(ind: string, s: Source, st: WState): WState
    decreases s
  {
    match s
    case Text(t) => WriteAt(st, ind, t)
    case WithImport(_, t) => WriteAt(st, ind, t)
    case Group(style, es) =>
      match style
      case Braced(o, p, c, th) => EmitBraced(ind, o, p, c, th, es, st)
      case StatementLines(n) => EmitStatements(ind, n, es, 0, st)
      case Format(f) =>
        var lines := Split(f, "\n");
        EmitFormat(ind, lines, lines[0], es, 0, st)
  }

  /** `bracedStyle.writeGroupTo`. */
  function EmitBraced(ind: string, o: string, p: string, c: string, th: nat, es: seq<Source>, st: WState): WState
    decreases es, 1
  {
    var st1 := WriteAt(st, ind, o);
    var st2 :=
      if |es| == 0 then st1
      else if |es| < th then WriteAt(EmitJoined(ind, es, 0, WriteAt(st1, ind, p)), ind, p)
      else Newline(EmitLines(ind + IndentUnit, es, 0, st1));
    WriteAt(st2, ind, c)
  }

  /** The single-line layout from element `i` on: elements separated by `", "`. */
  function EmitJoined(ind: string, es: seq<Source>, i: nat, st: WState): WState
    requires i <= |es|
    decreases es, 0, |es| - i
  {
    if i == |es| then st
    else EmitJoined(ind, es, i + 1, Emit(ind, es[i], if i == 0 then st else WriteAt(st, ind, ", ")))
  }

  /** The multi-line layout from element `i` on: each element on a new line, followed by `,`. */
  function EmitLines(inner: string, es: seq<Source>, i: nat, st: WState): WState
    requires i <= |es|
    decreases es, 0, |es| - i
  {
    if i == |es| then st
    else EmitLines(inner, es, i + 1, WriteAt(Emit(inner, es[i], Newline(st)), inner, ","))
  }

  /** `statementsStyle.writeGroupTo` from element `i` on. */
  function EmitStatements(ind: string, n: nat, es: seq<Source>, i: nat, st: WState): WState
    requires i <= |es|
    decreases es, 0, |es| - i
  {
    if i == |es| then st
    else EmitStatements(ind, n, es, i + 1, EnsuredNewline(Emit(ind, es[i], if i == 0 then st else Newlines(st, n))))
  }

  /** `sourcef.writeGroupTo` from argument `i` on, with `lines` the lines of the format not
    * yet finished and `remaining` the unwritten rest of `lines[0]`. Each argument is written
    * at the indentation of the line its placeholder is on. When the format runs out of
    * placeholders before the arguments do (which `Sourcef` never builds), Go fails with an
    * index error; the model stops writing there. */
  function EmitFormat(ind: string, lines: seq<string>, remaining: string, es: seq<Source>, i: nat, st: WState): WState
    requires |lines| >= 1 && i <= |es|
    decreases es, 0, |es| - i, |lines|
  {
    if i == |es| then EmitFormatRest(ind, lines, remaining, st)
    else
      var c := Cut(remaining, Placeholder);
      if c.found then
        EmitFormat(ind, lines, c.after, es, i + 1, Emit(ind + LeadingBlanks(lines[0]), es[i], WriteAt(st, ind, c.before)))
      else if |lines| == 1 then st
      else EmitFormat(ind, lines[1..], lines[1], es, i, Newline(WriteAt(st, ind, remaining)))
  }

  /** The final loop of `sourcef.writeGroupTo`: the rest of the format, line by line. */
  function EmitFormatRest(ind: string, lines: seq<string>, remaining: string, st: WState): WState
    requires |lines| >= 1
    decreases |lines|
  {
    var st1 := WriteAt(st, ind, remaining);
    if |lines| == 1 then st1 else EmitFormatRest(ind, lines[1..], lines[1], Newline(st1))
  }

  // ---------------------------------------------------------------------------------
  // Rendering

  /** `writeSourceTo`. */
  method WriteSourceTo(s: Source, sw: SourceWriter)
    modifies sw.w
    ensures sw.w.State() == Emit(sw.indentation, s, old(sw.w.State()))
    decreases s
  {
    match s
    case Text(t) =>
      sw.WriteString(t);
    case WithImport(_, t) =>
      sw.WriteString(t);
    case Group(style, es) =>
      match style
      case Braced(o, p, c, th) =>
        WriteBracedGroupTo(o, p, c, th, es, sw);
      case StatementLines(n) =>
        WriteStatementsTo(n, es, sw);
      case Format(f) =>
        WriteFormatTo(f, es, sw);
  }

  method WriteBracedGroupTo(o: string, p: string, c: string, th: nat, es: seq<Source>, sw: SourceWriter)
    modifies sw.w
    ensures sw.w.State() == EmitBraced(sw.indentation, o, p, c, th, es, old(sw.w.State()))
    decreases es, 1
  {
    ghost var st0 := sw.w.State();
    ghost var ind := sw.indentation;
    sw.WriteString(o);
    ghost var st1 := sw.w.State();
    if |es| > 0 {
      if |es| < th {
        sw.WriteString(p);
        ghost var stp := sw.w.State();
        var i := 0;
        while i < |es|
          invariant 0 <= i <= |es|
          invariant EmitJoined(ind, es, i, sw.w.State()) == EmitJoined(ind, es, 0, stp)
        {
          if i != 0 {
            sw.WriteString(", ");
          }
          WriteSourceTo(es[i], sw);
          i := i + 1;
        }
        sw.WriteString(p);
      } else {
        var inner := sw.Indent();
        var i := 0;
        while i < |es|
          invariant 0 <= i <= |es|
          invariant EmitLines(inner.indentation, es, i, sw.w.State()) == EmitLines(inner.indentation, es, 0, st1)
        {
          inner.w.WriteNewline();
          WriteSourceTo(es[i], inner);
          inner.WriteString(",");
          i := i + 1;
        }
        sw.w.WriteNewline();
      }
    }
    sw.WriteString(c);
  }

  method WriteStatementsTo(n: nat, es: seq<Source>, sw: SourceWriter)
    modifies sw.w
    ensures sw.w.State() == EmitStatements(sw.indentation, n, es, 0, old(sw.w.State()))
    decreases es, 1
  {
    ghost var st0 := sw.w.State();
    var i := 0;
    while i < |es|
      invariant 0 <= i <= |es|
      invariant EmitStatements(sw.indentation, n, es, i, sw.w.State()) == EmitStatements(sw.indentation, n, es, 0, st0)
    {
      if i != 0 {
        ghost var before := sw.w.State();
        var k := 0;
        while k < n
          invariant 0 <= k <= n
          invariant sw.w.State() == Newlines(before, k)
        {
          sw.w.WriteNewline();
          k := k + 1;
        }
      }
      WriteSourceTo(es[i], sw);
      sw.w.EnsureNewline();
      i := i + 1;
    }
  }

  method WriteFormatTo(format: string, es: seq<Source>, sw: SourceWriter)
    modifies sw.w
    ensures sw.w.State() == Emit(sw.indentation, Group(Format(format), es), old(sw.w.State()))
    decreases es, 1
  {
    ghost var ind := sw.indentation;
    var lines := Split(format, "\n");
    var remaining := lines[0];
    ghost var goal := EmitFormat(ind, lines, remaining, es, 0, sw.w.State());
    var i := 0;
    var stopped := false;
    while i < |es| && !stopped
      invariant 0 <= i <= |es| && |lines| >= 1
      invariant !stopped ==> EmitFormat(ind, lines, remaining, es, i, sw.w.State()) == goal
      invariant stopped ==> sw.w.State() == goal
      decreases |es| - i, if stopped then 0 else 1
    {
      var placed := false;
      while !placed && !stopped
        invariant |lines| >= 1 && i < |es|
        invariant !placed && !stopped ==> EmitFormat(ind, lines, remaining, es, i, sw.w.State()) == goal
        invariant placed ==> EmitFormat(ind, lines, remaining, es, i + 1, sw.w.State()) == goal
        invariant stopped ==> sw.w.State() == goal
        invariant !(placed && stopped)
        decreases |lines|, if placed || stopped then 0 else 1
      {
        var c := Cut(remaining, Placeholder);
        if c.found {
          sw.WriteString(c.before);
          WriteSourceTo(es[i], sw.IndentBy(LeadingBlanks(lines[0])));
          remaining := c.after;
          placed := true;
        } else if |lines| == 1 {
          stopped := true;
        } else {
          sw.WriteString(remaining);
          sw.w.WriteNewline();
          lines := lines[1..];
          remaining := lines[0];
        }
      }
      if placed {
        i := i + 1;
      }
    }
    if !stopped {
      while true
        invariant |lines| >= 1
        invariant EmitFormatRest(ind, lines, remaining, sw.w.State()) == goal
        decreases |lines|
      {
        sw.WriteString(remaining);
        if |lines| == 1 {
          break;
        }
        sw.w.WriteNewline();
        lines := lines[1..];
        remaining := lines[0];
      }
    }
  }

  // ---------------------------------------------------------------------------------
  // toString

  /** The import statement `toString` writes for one import. */
  function ImportLine(imp: Import): string {
    "import { " + imp.name + " } from " + QuotedText(imp.moduleName) + ";\n"
  }

  /** Imports sort by module, then by name. */
  function ImportKey(imp: Import): Key {
    [Str(imp.moduleName), Str(imp.name)]
  }

  lemma ImportKeyInjective(imps: set<Import>)
    ensures Injective(imps, ImportKey)
  {
    forall x, y | x in imps && y in imps && ImportKey(x) == ImportKey(y) ensures x == y {
      assert ImportKey(x)[0] == ImportKey(y)[0];
      assert ImportKey(x)[1] == ImportKey(y)[1];
    }
  }

  ghost function SortedImports(imps: set<Import>): (r: seq<Import>)
    ensures |r| == |imps|
    ensures forall i :: 0 <= i < |r| ==> r[i] in imps
    ensures forall imp :: imp in imps ==> imp in r
    ensures SortedBy(r, ImportKey)
  {
    ImportKeyInjective(imps);
    SortByKey(imps, ImportKey)
  }

  /** The import statements from `imps[i]` on, written at indentation "". */
  function WriteImportLines(imps: seq<Import>, i: nat, st: WState): WState
    requires i <= |imps|
    decreases |imps| - i
  {
    if i == |imps| then st else WriteImportLines(imps, i + 1, WriteAt(st, "", ImportLine(imps[i])))
  }

  /** The writer's state after `toString` has written the import block of `imps`. */
  function AfterImports(imps: seq<Import>): WState {
    var init := WState("", false);
    if |imps| > 0 then WriteAt(WriteImportLines(imps, 0, init), "", "\n") else init
  }

  /** `toString(s)`: the sorted import statements, a blank line if there are any, then `s`. */
  ghost function Render(s: Source): string {
    Emit("", s, AfterImports(SortedImports(ImportsOf(s)))).out
  }

  /** What a `Source`'s `String()` method returns: leaves give their text, groups render. */
  ghost function StringOf(s: Source): string {
    match s
    case Text(t) => t
    case WithImport(_, t) => t
    case Group(_, _) => Render(s)
  }

  method ToString(s: Source) returns (text: string)
    ensures text == Render(s)
  {
    var imps := new Imports();
    AddToImports(s, imps);
    var listed := Listing(imps.byName);
    ImportKeyInjective(imps.byName);
    SortListing(listed, ImportKey);
    var sortedImports := InsertionSort(listed, ImportKey);
    var w := new IndentationAwareWriter();
    var sw := SourceWriter(w, "");
    if |sortedImports| > 0 {
      var i := 0;
      while i < |sortedImports|
        invariant 0 <= i <= |sortedImports|
        invariant WriteImportLines(sortedImports, i, w.State()) == WriteImportLines(sortedImports, 0, WState("", false))
      {
        sw.WriteString(ImportLine(sortedImports[i]));
        i := i + 1;
      }
      sw.WriteString("\n");
    }
    WriteSourceTo(s, sw);
    text := w.written;
  }
}
