// What `toString` prints, as text: a reference layout for the sources the generator builds
// (texts and braced groups on one line, single-line formats, and statement groups), and the
// proof that the writer of gotypes/ts/source.go produces exactly that layout.

module TsLayout {
  import opened Strings
  import opened TsSource
  import Ts
  import UtilSlices

  /** A string whose last character, if any, is not a line break. */
  predicate EndsClean(x: string) {
    |x| == 0 || x[|x| - 1] != '\n'
  }

  predicate EndsWithNewline(x: string) {
    |x| > 0 && x[|x| - 1] == '\n'
  }

  predicate IsBlock(s: Source) {
    s.Group? && s.style.StatementLines?
  }

  /** Sources whose layout `Layout` describes: line breaks come only from multi-line braced
    * groups and statement groups; formats are one line with one placeholder per argument;
    * braced groups close with a non-empty text and hold no statement groups. */
  predicate Printable(s: Source)
    decreases s
  {
    match s
    case Text(t) => '\n' !in t
    case WithImport(_, t) => '\n' !in t
    case Group(style, es) =>
      match style
      case Braced(o, p, c, _) =>
        '\n' !in o && '\n' !in p && '\n' !in c && |c| > 0
        && forall i :: 0 <= i < |es| ==> Printable(es[i]) && !IsBlock(es[i])
      case Format(f) =>
        '\n' !in f && Count(f, Placeholder) == |es|
        && forall i :: 0 <= i < |es| ==> Printable(es[i]) && !IsBlock(es[i])
      case StatementLines(_) =>
        |es| > 0 && forall i :: 0 <= i < |es| ==> Printable(es[i])
  }

  predicate AllInline(es: seq<Source>) {
    forall i :: 0 <= i < |es| ==> Printable(es[i]) && !IsBlock(es[i])
  }

  predicate AllPrintable(es: seq<Source>) {
    forall i :: 0 <= i < |es| ==> Printable(es[i])
  }

  function NewlineText(n: nat): (r: string)
    ensures |r| == n && forall i :: 0 <= i < n ==> r[i] == '\n'
  {
    if n == 0 then "" else NewlineText(n - 1) + "\n"
  }

  /** The text `s` lays out as at indentation `ind`, from (but not including) the
    * indentation of its first line. Statement groups end with a line break, everything else
    * does not. */
  function Layout(ind: string, s: Source): (r: string)
    requires Printable(s)
    ensures IsBlock(s) ==> EndsWithNewline(r)
    ensures !IsBlock(s) ==> EndsClean(r)
    decreases s
  {
    match s
    case Text(t) => t
    case WithImport(_, t) => t
    case Group(style, es) =>
      match style
      case Braced(o, p, c, th) =>
        if |es| == 0 then o + c
        else if |es| < th then
          var j := Join(Layouts(ind, es, 0), ", ");
          JoinClean(Layouts(ind, es, 0), ", ");
          EndsCleanAppend(o + p + j + p, c);
          o + p + j + p + c
        else
          EndsCleanAppend(o + LinesText(ind + IndentUnit, Layouts(ind + IndentUnit, es, 0)) + "\n" + ind, c);
          o + LinesText(ind + IndentUnit, Layouts(ind + IndentUnit, es, 0)) + "\n" + ind + c
      case Format(f) =>
        var xs := Layouts(ind + LeadingBlanks(f), es, 0);
        SubstClean(f, xs);
        Subst(f, xs)
      case StatementLines(n) =>
        var xs := StatementPieces(ind, es, 0);
        JoinEndsWithNewline(xs, NewlineText(n) + ind);
        Join(xs, NewlineText(n) + ind)
  }

  /** The layouts of elements `i..` at indentation `ind`. */
  function Layouts(ind: string, es: seq<Source>, i: nat): (r: seq<string>)
    requires i <= |es| && AllInline(es)
    ensures |r| == |es| - i
    ensures forall k :: 0 <= k < |r| ==> EndsClean(r[k])
    decreases es, 0, |es| - i
  {
    if i == |es| then [] else [Layout(ind, es[i])] + Layouts(ind, es, i + 1)
  }

  /** Statements `i..`, each followed by a line break unless it ends with one already. */
  function StatementPieces(ind: string, es: seq<Source>, i: nat): (r: seq<string>)
    requires i <= |es| && AllPrintable(es)
    ensures |r| == |es| - i
    ensures forall k :: 0 <= k < |r| ==> EndsWithNewline(r[k])
    decreases es, 0, |es| - i
  {
    if i == |es| then []
    else [Layout(ind, es[i]) + (if IsBlock(es[i]) then "" else "\n")] + StatementPieces(ind, es, i + 1)
  }

  // ---------------------------------------------------------------------------------
  // Text combinators

  /** Each piece on a new line at indentation `inner`, followed by a comma. */
  function LinesText(inner: string, xs: seq<string>): string {
    if |xs| == 0 then "" else "\n" + inner + xs[0] + "," + LinesText(inner, xs[1..])
  }

  /** Each piece preceded by `sep`. */
  function Prefixed(sep: string, xs: seq<string>): string {
    if |xs| == 0 then "" else sep + xs[0] + Prefixed(sep, xs[1..])
  }

  /** `remaining` with its placeholders replaced, in order, by `xs` (nothing is left when
    * the placeholders run out first). */
  function Subst(remaining: string, xs: seq<string>): string {
    if |xs| == 0 then remaining
    else
      var c := Cut(remaining, Placeholder);
      if c.found then c.before + xs[0] + Subst(c.after, xs[1..]) else ""
  }

  lemma EndsCleanAppend(a: string, b: string)
    requires (EndsClean(a) || |b| > 0) && EndsClean(b)
    ensures EndsClean(a + b)
  {
    if |b| == 0 {
      assert a + b == a;
    }
  }

  lemma EndsWithNewlineAppend(a: string, b: string)
    requires EndsWithNewline(b)
    ensures EndsWithNewline(a + b)
  {
    assert (a + b)[|a + b| - 1] == b[|b| - 1];
  }

  lemma JoinPrefixed(xs: seq<string>, sep: string)
    requires |xs| > 0
    ensures Join(xs, sep) == xs[0] + Prefixed(sep, xs[1..])
    decreases |xs|
  {
    if |xs| == 1 {
      assert Prefixed(sep, xs[1..]) == "";
    } else {
      JoinPrefixed(xs[1..], sep);
      assert xs[1..][1..] == xs[2..];
    }
  }

  lemma {:induction false} JoinClean(xs: seq<string>, sep: string)
    requires EndsClean(sep) && forall k :: 0 <= k < |xs| ==> EndsClean(xs[k])
    ensures EndsClean(Join(xs, sep))
    decreases |xs|
  {
    if |xs| > 1 {
      JoinClean(xs[1..], sep);
      EndsCleanAppend(xs[0], sep);
      EndsCleanAppend(xs[0] + sep, Join(xs[1..], sep));
    }
  }

  lemma {:induction false} JoinEndsWithNewline(xs: seq<string>, sep: string)
    requires |xs| > 0 && forall k :: 0 <= k < |xs| ==> EndsWithNewline(xs[k])
    ensures EndsWithNewline(Join(xs, sep))
    decreases |xs|
  {
    if |xs| > 1 {
      JoinEndsWithNewline(xs[1..], sep);
      EndsWithNewlineAppend(xs[0] + sep, Join(xs[1..], sep));
    }
  }

  lemma CountStep(remaining: string, n: nat)
    requires n > 0 && Count(remaining, Placeholder) == n
    ensures Cut(remaining, Placeholder).found
    ensures Count(Cut(remaining, Placeholder).after, Placeholder) == n - 1
  {
  }

  lemma CutAfterNoNewline(remaining: string)
    requires '\n' !in remaining && Cut(remaining, Placeholder).found
    ensures '\n' !in Cut(remaining, Placeholder).before
    ensures '\n' !in Cut(remaining, Placeholder).after
  {
    var c := Cut(remaining, Placeholder);
    assert remaining == c.before + Placeholder + c.after;
    assert forall k :: 0 <= k < |c.before| ==> c.before[k] == remaining[k];
    assert forall k :: 0 <= k < |c.after| ==> c.after[k] == remaining[|c.before| + 2 + k];
  }

  lemma {:induction false} SubstClean(remaining: string, xs: seq<string>)
    requires '\n' !in remaining
    requires forall k :: 0 <= k < |xs| ==> EndsClean(xs[k])
    ensures EndsClean(Subst(remaining, xs))
    decreases |xs|
  {
    if |xs| > 0 && Cut(remaining, Placeholder).found {
      var c := Cut(remaining, Placeholder);
      CutAfterNoNewline(remaining);
      SubstClean(c.after, xs[1..]);
      SubstStep(remaining, xs);
      CleanThree(c.before, xs[0], Subst(c.after, xs[1..]));
    }
  }

  lemma CleanThree(a: string, b: string, c: string)
    requires '\n' !in a && EndsClean(b) && EndsClean(c)
    ensures EndsClean(a + b + c)
  {
    EndsCleanAppend(b, c);
    EndsCleanAppend(a, b + c);
    assert a + b + c == a + (b + c);
  }


  // ---------------------------------------------------------------------------------
  // The writer on concatenations

  lemma WriteRawConcat(st: WState, a: string, b: string)
    ensures WriteRaw(WriteRaw(st, a), b) == WriteRaw(st, a + b)
  {
    if |b| == 0 {
      assert a + b == a;
    }
  }

  /** Writing more raw text after an indented write continues the same write. */
  lemma WriteAtThenRaw(st: WState, ind: string, a: string, b: string)
    ensures WriteRaw(WriteAt(st, ind, a), b) == WriteAt(st, ind, a + b)
  {
    var st1 := if st.justWroteNewline then WriteRaw(st, ind).(justWroteNewline := false) else st;
    WriteRawConcat(st1, a, b);
  }

  lemma WriteAtCleanFlag(st: WState, ind: string, a: string)
    requires EndsClean(a)
    ensures !WriteAt(st, ind, a).justWroteNewline
  {
  }

  lemma WriteAtMidLine(st: WState, ind: string, a: string)
    requires !st.justWroteNewline
    ensures WriteAt(st, ind, a) == WriteRaw(st, a)
  {
  }

  /** At the start of a line, a non-empty indented write is the indentation and the text. */
  lemma WriteAtLineStart(st: WState, ind: string, a: string)
    requires st.justWroteNewline && |a| > 0
    ensures WriteAt(st, ind, a) == WriteRaw(st, ind + a)
  {
    assert (ind + a)[|ind + a| - 1] == a[|a| - 1];
  }

  /** Two indented writes, the first not ending a line, are one write. */
  lemma WriteAtConcat(st: WState, ind: string, a: string, b: string)
    requires EndsClean(a)
    ensures WriteAt(WriteAt(st, ind, a), ind, b) == WriteAt(st, ind, a + b)
  {
    WriteAtCleanFlag(st, ind, a);
    WriteAtMidLine(WriteAt(st, ind, a), ind, b);
    WriteAtThenRaw(st, ind, a, b);
  }

  lemma NewlinesText(st: WState, n: nat)
    requires st.justWroteNewline
    ensures Newlines(st, n) == WriteRaw(st, NewlineText(n))
    ensures Newlines(st, n).justWroteNewline
  {
    if n > 0 {
      NewlinesText(st, n - 1);
      WriteRawConcat(st, NewlineText(n - 1), "\n");
    }
  }

  // ---------------------------------------------------------------------------------
  // The writer produces the layout

  /** `writeSourceTo` writes `Layout(ind, s)`, indented at its start if a line has just ended. */
  lemma {:induction false} EmitLayout(ind: string, s: Source, st: WState)
    requires Printable(s)
    ensures Emit(ind, s, st) == WriteAt(st, ind, Layout(ind, s))
    decreases s
  {
    match s
    case Text(_) =>
    case WithImport(_, _) =>
    case Group(style, es) =>
      match style
      case Braced(o, p, c, th) =>
        EmitBracedLayout(ind, o, p, c, th, es, st);
      case Format(f) =>
        SplitWithout(f, "\n");
        EmitFormatLayout(ind, f, f, es, 0, st);
      case StatementLines(n) =>
        EmitStatementsLayout(ind, n, es, st);
  }

  lemma EmitBracedLayout(ind: string, o: string, p: string, c: string, th: nat, es: seq<Source>, st: WState)
    requires '\n' !in o && '\n' !in p && '\n' !in c && |c| > 0 && AllInline(es)
    ensures EmitBraced(ind, o, p, c, th, es, st) == WriteAt(st, ind, Layout(ind, Group(Braced(o, p, c, th), es)))
    decreases es, 1
  {
    var st1 := WriteAt(st, ind, o);
    if |es| == 0 {
      WriteAtConcat(st, ind, o, c);
    } else if |es| < th {
      EmitInlineBody(ind, o, p, es, st);
      var xs := Layouts(ind, es, 0);
      var j := Join(xs, ", ");
      JoinClean(xs, ", ");
      EndsCleanAppend(o + p, j);
      EndsCleanAppend(o + p + j, p);
      WriteAtConcat(st, ind, o + p + j + p, c);
    } else {
      EmitMultilineBody(ind, o, es, st);
      var l := LinesText(ind + IndentUnit, Layouts(ind + IndentUnit, es, 0));
      var st2 := WriteAt(st, ind, o + l + "\n");
      WriteAtLineStart(st2, ind, c);
      WriteAtThenRaw(st, ind, o + l + "\n", ind + c);
      assert o + l + "\n" + (ind + c) == o + l + "\n" + ind + c;
    }
  }

  /** The single-line body: padding, the elements separated by `", "`, padding. */
  lemma EmitInlineBody(ind: string, o: string, p: string, es: seq<Source>, st: WState)
    requires '\n' !in o && '\n' !in p && 0 < |es| && AllInline(es)
    ensures WriteAt(EmitJoined(ind, es, 0, WriteAt(WriteAt(st, ind, o), ind, p)), ind, p)
         == WriteAt(st, ind, o + p + Join(Layouts(ind, es, 0), ", ") + p)
    decreases es, 0
  {
    var stp := WriteAt(WriteAt(st, ind, o), ind, p);
    WriteAtConcat(st, ind, o, p);
    WriteAtCleanFlag(st, ind, o + p);
    var xs := Layouts(ind, es, 0);
    EmitJoinedLayout(ind, es, 0, stp);
    JoinPrefixed(xs, ", ");
    var j := Join(xs, ", ");
    WriteAtThenRaw(st, ind, o + p, j);
    JoinClean(xs, ", ");
    EndsCleanAppend(o + p, j);
    WriteAtConcat(st, ind, o + p + j, p);
  }

  /** The multi-line body: one element per line, then a line break. */
  lemma EmitMultilineBody(ind: string, o: string, es: seq<Source>, st: WState)
    requires '\n' !in o && AllInline(es)
    ensures Newline(EmitLines(ind + IndentUnit, es, 0, WriteAt(st, ind, o)))
         == WriteAt(st, ind, o + LinesText(ind + IndentUnit, Layouts(ind + IndentUnit, es, 0)) + "\n")
    ensures Newline(EmitLines(ind + IndentUnit, es, 0, WriteAt(st, ind, o))).justWroteNewline
    decreases es, 0
  {
    var inner := ind + IndentUnit;
    EmitLinesLayout(inner, es, 0, WriteAt(st, ind, o));
    var l := LinesText(inner, Layouts(inner, es, 0));
    WriteAtThenRaw(st, ind, o, l);
    WriteAtThenRaw(st, ind, o + l, "\n");
  }

  /** The joined elements from `i` on: `Prefixed` with `", "` after the first. */
  lemma {:induction false} EmitJoinedLayout(ind: string, es: seq<Source>, i: nat, st: WState)
    requires i <= |es| && AllInline(es) && !st.justWroteNewline
    ensures i == 0 && |es| > 0 ==> EmitJoined(ind, es, i, st) == WriteRaw(st, Join(Layouts(ind, es, 0), ", "))
    ensures i > 0 ==> EmitJoined(ind, es, i, st) == WriteRaw(st, Prefixed(", ", Layouts(ind, es, i)))
    decreases es, 0, |es| - i
  {
    var xs := Layouts(ind, es, i);
    if i < |es| {
      var sep := if i == 0 then "" else ", ";
      var pre := if i == 0 then st else WriteAt(st, ind, ", ");
      assert pre == WriteRaw(st, sep);
      var elem := Layout(ind, es[i]);
      EmitLayout(ind, es[i], pre);
      WriteAtMidLine(pre, ind, elem);
      WriteRawConcat(st, sep, elem);
      var next := WriteRaw(st, sep + elem);
      EndsCleanAppend(sep, elem);
      EmitJoinedLayout(ind, es, i + 1, next);
      assert xs[1..] == Layouts(ind, es, i + 1);
      var rest := Prefixed(", ", Layouts(ind, es, i + 1));
      if i + 1 == |es| {
        assert EmitJoined(ind, es, i + 1, next) == next;
        assert rest == "";
        assert sep + elem + rest == sep + elem;
      }
      WriteRawConcat(st, sep + elem, rest);
      JoinedHead(xs, sep, i == 0);
    } else {
      assert Prefixed(", ", xs) == "";
      assert WriteRaw(st, "") == st;
    }
  }

  /** The joined text is the first piece after its separator, then the rest prefixed. */
  lemma JoinedHead(xs: seq<string>, sep: string, first: bool)
    requires |xs| > 0 && sep == (if first then "" else ", ")
    ensures first ==> Join(xs, ", ") == sep + xs[0] + Prefixed(", ", xs[1..])
    ensures !first ==> Prefixed(", ", xs) == sep + xs[0] + Prefixed(", ", xs[1..])
  {
    if first {
      JoinPrefixed(xs, ", ");
      assert sep + xs[0] == xs[0];
    }
  }

  lemma {:induction false} EmitLinesLayout(inner: string, es: seq<Source>, i: nat, st: WState)
    requires i <= |es| && AllInline(es)
    ensures EmitLines(inner, es, i, st) == WriteRaw(st, LinesText(inner, Layouts(inner, es, i)))
    decreases es, 0, |es| - i
  {
    var xs := Layouts(inner, es, i);
    if i < |es| {
      var nl := Newline(st);
      var elem := Layout(inner, es[i]);
      EmitLayout(inner, es[i], nl);
      WriteAtConcat(nl, inner, elem, ",");
      WriteAtLineStart(nl, inner, elem + ",");
      WriteRawConcat(st, "\n", inner + (elem + ","));
      var next := WriteRaw(st, "\n" + (inner + (elem + ",")));
      EmitLinesLayout(inner, es, i + 1, next);
      assert xs[1..] == Layouts(inner, es, i + 1);
      var rest := LinesText(inner, Layouts(inner, es, i + 1));
      WriteRawConcat(st, "\n" + (inner + (elem + ",")), rest);
      assert "\n" + (inner + (elem + ",")) + rest == LinesText(inner, xs);
    } else {
      assert WriteRaw(st, "") == st;
    }
  }

  lemma {:induction false} EmitFormatLayout(ind: string, f: string, remaining: string, es: seq<Source>, i: nat, st: WState)
    requires i <= |es| && AllInline(es)
    requires '\n' !in f && '\n' !in remaining && Count(remaining, Placeholder) == |es| - i
    ensures EmitFormat(ind, [f], remaining, es, i, st) == WriteAt(st, ind, Subst(remaining, Layouts(ind + LeadingBlanks(f), es, i)))
    decreases es, 0, |es| - i
  {
    if i < |es| {
      var argInd := ind + LeadingBlanks(f);
      var c := Cut(remaining, Placeholder);
      assert c.found && Count(c.after, Placeholder) == |es| - (i + 1) && '\n' !in c.before && '\n' !in c.after by {
        CountStep(remaining, |es| - i);
        CutAfterNoNewline(remaining);
      }
      var elem := Layout(argInd, es[i]);
      var y := WriteAt(st, ind, c.before + elem);
      assert EmitFormat(ind, [f], remaining, es, i, st) == EmitFormat(ind, [f], c.after, es, i + 1, y) by {
        EmitLayout(argInd, es[i], WriteAt(st, ind, c.before));
        FormatWriteStep(st, ind, argInd, c.before, elem);
      }
      var rest := Subst(c.after, Layouts(argInd, es, i + 1));
      assert EmitFormat(ind, [f], c.after, es, i + 1, y) == WriteAt(y, ind, rest) by {
        EmitFormatLayout(ind, f, c.after, es, i + 1, y);
      }
      assert WriteAt(y, ind, rest) == WriteAt(st, ind, c.before + elem + rest) by {
        FormatWriteStep(st, ind, argInd, c.before, elem);
        FormatRestStep(st, ind, c.before + elem, rest);
      }
      assert c.before + elem + rest == Subst(remaining, Layouts(argInd, es, i)) by {
        LayoutsStep(argInd, es, i);
        SubstStep(remaining, Layouts(argInd, es, i));
      }
    }
  }

  /** In a format, the text before a placeholder and the argument at it are one write. */
  lemma FormatWriteStep(st: WState, ind: string, argInd: string, before: string, elem: string)
    requires EndsClean(before) && EndsClean(elem)
    ensures WriteAt(WriteAt(st, ind, before), argInd, elem) == WriteAt(st, ind, before + elem)
    ensures !WriteAt(st, ind, before + elem).justWroteNewline
  {
    WriteAtCleanFlag(st, ind, before);
    WriteAtMidLine(WriteAt(st, ind, before), argInd, elem);
    WriteAtThenRaw(st, ind, before, elem);
    EndsCleanAppend(before, elem);
    WriteAtCleanFlag(st, ind, before + elem);
  }

  lemma FormatRestStep(st: WState, ind: string, done: string, rest: string)
    requires !WriteAt(st, ind, done).justWroteNewline
    ensures WriteAt(WriteAt(st, ind, done), ind, rest) == WriteAt(st, ind, done + rest)
  {
    WriteAtMidLine(WriteAt(st, ind, done), ind, rest);
    WriteAtThenRaw(st, ind, done, rest);
  }

  lemma LayoutsStep(ind: string, es: seq<Source>, i: nat)
    requires i < |es| && AllInline(es)
    ensures Layouts(ind, es, i)[0] == Layout(ind, es[i])
    ensures Layouts(ind, es, i)[1..] == Layouts(ind, es, i + 1)
  {
  }

  lemma SubstStep(remaining: string, xs: seq<string>)
    requires |xs| > 0 && Cut(remaining, Placeholder).found
    ensures Subst(remaining, xs) == Cut(remaining, Placeholder).before + xs[0] + Subst(Cut(remaining, Placeholder).after, xs[1..])
  {
  }

  /** One statement: its layout, and a line break unless it ends with one. */
  lemma StatementLayout(ind: string, e: Source, st: WState)
    requires Printable(e) && Emit(ind, e, st) == WriteAt(st, ind, Layout(ind, e))
    ensures EnsuredNewline(Emit(ind, e, st)) == WriteAt(st, ind, Layout(ind, e) + (if IsBlock(e) then "" else "\n"))
  {
    var l := Layout(ind, e);
    if IsBlock(e) {
      assert l + "" == l;
    } else {
      WriteAtCleanFlag(st, ind, l);
      WriteAtThenRaw(st, ind, l, "\n");
    }
  }

  lemma {:induction false} EmitStatementsFrom(ind: string, n: nat, es: seq<Source>, i: nat, st: WState)
    requires 1 <= i <= |es| && AllPrintable(es) && st.justWroteNewline
    ensures EmitStatements(ind, n, es, i, st) == WriteRaw(st, Prefixed(NewlineText(n) + ind, StatementPieces(ind, es, i)))
    decreases es, 0, |es| - i
  {
    var xs := StatementPieces(ind, es, i);
    if i < |es| {
      var line := xs[0];
      NewlinesText(st, n);
      var y := Newlines(st, n);
      EmitLayout(ind, es[i], y);
      StatementLayout(ind, es[i], y);
      WriteAtLineStart(y, ind, line);
      WriteRawConcat(st, NewlineText(n), ind + line);
      var next := WriteRaw(st, NewlineText(n) + (ind + line));
      EmitStatementsFrom(ind, n, es, i + 1, next);
      assert xs[1..] == StatementPieces(ind, es, i + 1);
      var rest := Prefixed(NewlineText(n) + ind, StatementPieces(ind, es, i + 1));
      WriteRawConcat(st, NewlineText(n) + (ind + line), rest);
      assert NewlineText(n) + (ind + line) + rest == Prefixed(NewlineText(n) + ind, xs);
    } else {
      assert WriteRaw(st, "") == st;
    }
  }

  lemma EmitStatementsLayout(ind: string, n: nat, es: seq<Source>, st: WState)
    requires 0 < |es| && AllPrintable(es)
    ensures EmitStatements(ind, n, es, 0, st) == WriteAt(st, ind, Join(StatementPieces(ind, es, 0), NewlineText(n) + ind))
    decreases es, 1
  {
    var xs := StatementPieces(ind, es, 0);
    EmitLayout(ind, es[0], st);
    StatementLayout(ind, es[0], st);
    var next := WriteAt(st, ind, xs[0]);
    EmitStatementsFrom(ind, n, es, 1, next);
    assert xs[1..] == StatementPieces(ind, es, 1);
    var rest := Prefixed(NewlineText(n) + ind, xs[1..]);
    WriteAtThenRaw(st, ind, xs[0], rest);
    JoinPrefixed(xs, NewlineText(n) + ind);
  }

  // ---------------------------------------------------------------------------------
  // What `toString` returns

  /** The import block `toString` writes before the code. */
  function ImportHeader(imps: seq<Import>): (r: string)
    ensures |imps| == 0 ==> r == ""
  {
    if |imps| == 0 then "" else ImportLines(imps, 0) + "\n"
  }

  function ImportLines(imps: seq<Import>, i: nat): string
    requires i <= |imps|
    decreases |imps| - i
  {
    if i == |imps| then "" else ImportLine(imps[i]) + ImportLines(imps, i + 1)
  }

  lemma {:induction false} WriteImportLinesText(imps: seq<Import>, i: nat, st: WState)
    requires i <= |imps|
    requires i > 0 ==> st.justWroteNewline
    ensures i < |imps| ==> WriteImportLines(imps, i, st) == WriteAt(st, "", ImportLines(imps, i))
    ensures i < |imps| ==> WriteImportLines(imps, i, st).justWroteNewline
    ensures i == |imps| ==> WriteImportLines(imps, i, st) == st
    decreases |imps| - i
  {
    if i < |imps| {
      var line := ImportLine(imps[i]);
      var next := WriteAt(st, "", line);
      assert next.justWroteNewline;
      WriteImportLinesText(imps, i + 1, next);
      WriteAtThenRaw(st, "", line, ImportLines(imps, i + 1));
      if i + 1 < |imps| {
        WriteAtLineStart(next, "", ImportLines(imps, i + 1));
        assert "" + ImportLines(imps, i + 1) == ImportLines(imps, i + 1);
      } else {
        assert line + "" == line;
      }
    }
  }

  /** The writer after the import block: the header written, at the start of a line exactly
    * when there were imports. */
  lemma AfterImportsHeader(imps: seq<Import>)
    ensures AfterImports(imps) == WState(ImportHeader(imps), |imps| > 0)
  {
    if |imps| > 0 {
      var init := WState("", false);
      WriteImportLinesText(imps, 0, init);
      var st := WriteImportLines(imps, 0, init);
      WriteAtLineStart(st, "", "\n");
      WriteAtThenRaw(init, "", ImportLines(imps, 0), "\n");
    }
  }

  /** `toString` of a printable source: the sorted import block, then the layout at
    * indentation "". */
  lemma RenderLayout(s: Source)
    requires Printable(s)
    ensures Render(s) == ImportHeader(SortedImports(ImportsOf(s))) + Layout("", s)
  {
    var imps := SortedImports(ImportsOf(s));
    AfterImportsHeader(imps);
    EmitLayout("", s, AfterImports(imps));
  }

  /** With a single import, the header is its import statement and a blank line. */
  lemma SingleImportHeader(imp: Import)
    ensures ImportHeader(SortedImports({imp})) == ImportLine(imp) + "\n"
  {
    var r := SortedImports({imp});
    assert r == [imp];
    assert ImportLines(r, 1) == "";
  }

  // ---------------------------------------------------------------------------------
  // Layout of the constructors of gotypes/ts/ts.go

  lemma CutTwoPlaceholders(mid: string)
    requires '%' !in mid
    ensures Cut(Placeholder + mid + Placeholder, Placeholder) == CutResult("", mid + Placeholder, true)
    ensures Cut(mid + Placeholder, Placeholder) == CutResult(mid, "", true)
  {
    assert Placeholder + mid + Placeholder == "" + Placeholder + (mid + Placeholder);
    NoOccurrenceBefore("", Placeholder, mid + Placeholder);
    CutAfter("", Placeholder, mid + Placeholder);
    assert mid + Placeholder == mid + Placeholder + "";
    NoOccurrenceBefore(mid, Placeholder, "");
    CutAfter(mid, Placeholder, "");
  }

  /** A two-placeholder format is the first argument, the text between, the second. */
  lemma FormatTwo(mid: string, x: string, y: string)
    requires '%' !in mid
    ensures Subst(Placeholder + mid + Placeholder, [x, y]) == x + mid + y
  {
    CutTwoPlaceholders(mid);
    SubstTwo(Placeholder + mid + Placeholder, mid + Placeholder, mid, x, y);
  }

  /** Substitution into a text whose first placeholder starts it and whose second ends it. */
  lemma SubstTwo(f: string, tail: string, mid: string, x: string, y: string)
    requires Cut(f, Placeholder) == CutResult("", tail, true)
    requires Cut(tail, Placeholder) == CutResult(mid, "", true)
    ensures Subst(f, [x, y]) == x + mid + y
  {
    assert [x, y][1..] == [y];
    assert [y][1..] == [];
    assert Subst(tail, [y]) == mid + y + Subst("", []);
  }

  /** A format that starts with placeholder-free text `a` substitutes its first argument
    * right after `a`. */
  lemma SubstLead(a: string, rest: string, xs: seq<string>)
    requires '%' !in a && |xs| > 0
    ensures Subst(a + Placeholder + rest, xs) == a + xs[0] + Subst(rest, xs[1..])
  {
    NoOccurrenceBefore(a, Placeholder, rest);
    CutAfter(a, Placeholder, rest);
  }

  lemma Regroup5(a: string, p: string, b: string, q: string, c: string)
    ensures a + p + b + q + c == a + p + (b + q + c)
  {
  }

  lemma Regroup7(a: string, p: string, b: string, q: string, c: string, r: string, d: string)
    ensures a + p + b + q + c + r + d == a + p + (b + q + (c + r + d))
  {
  }

  /** The format `a%sb%sc` with its two placeholders filled. */
  lemma SubstPieces2(a: string, b: string, c: string, x: string, y: string)
    requires '%' !in a && '%' !in b && '%' !in c
    ensures Subst(a + Placeholder + b + Placeholder + c, [x, y]) == a + x + b + y + c
  {
    var rest := b + Placeholder + c;
    var f := a + Placeholder + b + Placeholder + c;
    assert f == a + Placeholder + rest by {
      Regroup5(a, Placeholder, b, Placeholder, c);
    }
    var xs := [x, y];
    assert Subst(f, xs) == a + x + Subst(rest, [y]) by {
      assert xs[0] == x && xs[1..] == [y];
      SubstLead(a, rest, xs);
    }
    assert Subst(rest, [y]) == b + y + c by {
      var ys := [y];
      assert ys[0] == y && ys[1..] == [];
      SubstLead(b, c, ys);
    }
    Regroup5(a, x, b, y, c);
  }

  /** The format `a%sb%sc%sd` with its three placeholders filled. */
  lemma SubstPieces3(a: string, b: string, c: string, d: string, x: string, y: string, z: string)
    requires '%' !in a && '%' !in b && '%' !in c && '%' !in d
    ensures Subst(a + Placeholder + b + Placeholder + c + Placeholder + d, [x, y, z]) == a + x + b + y + c + z + d
  {
    var rest := b + Placeholder + c + Placeholder + d;
    var f := a + Placeholder + b + Placeholder + c + Placeholder + d;
    assert f == a + Placeholder + rest by {
      Regroup5(a, Placeholder, b + Placeholder + c, Placeholder, d);
      Regroup7(a, Placeholder, b, Placeholder, c, Placeholder, d);
      Regroup5(b, Placeholder, c, Placeholder, d);
    }
    var xs := [x, y, z];
    assert xs[0] == x && xs[1..] == [y, z];
    assert Subst(f, xs) == a + x + Subst(rest, [y, z]) by {
      SubstLead(a, rest, xs);
    }
    assert Subst(rest, [y, z]) == b + y + c + z + d by {
      SubstPieces2(b, c, d, y, z);
    }
    Regroup5(b, y, c, z, d);
    Regroup7(a, x, b, y, c, z, d);
  }

  /** Placeholder-free pieces around `n` placeholders: the format has `n` placeholders. */
  lemma CountPieces(a: string, rest: string, n: nat)
    requires '%' !in a && Count(rest, Placeholder) == n
    ensures Count(a + Placeholder + rest, Placeholder) == n + 1
  {
    CountCons(a, Placeholder, rest);
  }

  /** The shape facts `Printable` needs of a one-line format of placeholder-free pieces. */
  lemma PiecesShape(a: string, rest: string, n: nat)
    requires |a| > 0 && a[0] !in {' ', '\t'} && '%' !in a && '\n' !in a
    requires '\n' !in rest && Count(rest, Placeholder) == n
    ensures Count(a + Placeholder + rest, Placeholder) == n + 1
    ensures '\n' !in a + Placeholder + rest
    ensures LeadingBlanks(a + Placeholder + rest) == ""
  {
    CountPieces(a, rest, n);
    assert (a + Placeholder + rest)[0] == a[0];
  }

  /** The layout of a format is the substitution of its arguments' layouts. */
  lemma FormatLayoutIs(ind: string, f: string, es: seq<Source>)
    requires '\n' !in f && Count(f, Placeholder) == |es| && LeadingBlanks(f) == "" && AllInline(es)
    ensures Printable(Group(Format(f), es))
    ensures Layout(ind, Group(Format(f), es)) == Subst(f, Layouts(ind, es, 0))
  {
    assert ind + LeadingBlanks(f) == ind;
  }

  /** A format `a%sb%sc` of one line and no leading blank, around two inline arguments. */
  lemma FormatPiecesLayout2(ind: string, a: string, b: string, c: string, e1: Source, e2: Source)
    requires |a| > 0 && a[0] !in {' ', '\t'}
    requires '%' !in a && '%' !in b && '%' !in c && '\n' !in a && '\n' !in b && '\n' !in c
    requires Printable(e1) && !IsBlock(e1) && Printable(e2) && !IsBlock(e2)
    ensures Printable(Group(Format(a + Placeholder + b + Placeholder + c), [e1, e2]))
    ensures Layout(ind, Group(Format(a + Placeholder + b + Placeholder + c), [e1, e2]))
      == a + Layout(ind, e1) + b + Layout(ind, e2) + c
  {
    var f := a + Placeholder + b + Placeholder + c;
    var rest := b + Placeholder + c;
    assert f == a + Placeholder + rest by {
      Regroup5(a, Placeholder, b, Placeholder, c);
    }
    assert Count(rest, Placeholder) == 1 && '\n' !in rest by {
      CountNone(c, Placeholder);
      CountPieces(b, c, 0);
    }
    PiecesShape(a, rest, 1);
    var es := [e1, e2];
    InlineTwo(e1, e2);
    FormatLayoutIs(ind, f, es);
    LayoutsTwo(ind, e1, e2);
    SubstPieces2(a, b, c, Layout(ind, e1), Layout(ind, e2));
  }

  /** A format `a%sb%sc%sd` of one line and no leading blank, around three inline arguments. */
  lemma FormatPiecesLayout3(ind: string, a: string, b: string, c: string, d: string, e1: Source, e2: Source, e3: Source)
    requires |a| > 0 && a[0] !in {' ', '\t'}
    requires '%' !in a && '%' !in b && '%' !in c && '%' !in d
    requires '\n' !in a && '\n' !in b && '\n' !in c && '\n' !in d
    requires Printable(e1) && !IsBlock(e1) && Printable(e2) && !IsBlock(e2) && Printable(e3) && !IsBlock(e3)
    ensures Printable(Group(Format(a + Placeholder + b + Placeholder + c + Placeholder + d), [e1, e2, e3]))
    ensures Layout(ind, Group(Format(a + Placeholder + b + Placeholder + c + Placeholder + d), [e1, e2, e3]))
      == a + Layout(ind, e1) + b + Layout(ind, e2) + c + Layout(ind, e3) + d
  {
    var f := a + Placeholder + b + Placeholder + c + Placeholder + d;
    var rest2 := c + Placeholder + d;
    var rest := b + Placeholder + rest2;
    assert f == a + Placeholder + rest by {
      Regroup7(a, Placeholder, b, Placeholder, c, Placeholder, d);
    }
    assert Count(rest2, Placeholder) == 1 && '\n' !in rest2 by {
      CountNone(d, Placeholder);
      CountPieces(c, d, 0);
    }
    assert Count(rest, Placeholder) == 2 && '\n' !in rest by {
      CountPieces(b, rest2, 1);
    }
    PiecesShape(a, rest, 2);
    var es := [e1, e2, e3];
    LayoutsThree(ind, e1, e2, e3);
    FormatLayoutIs(ind, f, es);
    SubstPieces3(a, b, c, d, Layout(ind, e1), Layout(ind, e2), Layout(ind, e3));
  }

  lemma InlineTwo(a: Source, b: Source)
    requires Printable(a) && !IsBlock(a) && Printable(b) && !IsBlock(b)
    ensures AllInline([a, b])
  {
    assert [a, b][0] == a && [a, b][1] == b;
  }

  lemma LayoutsThree(ind: string, a: Source, b: Source, c: Source)
    requires Printable(a) && !IsBlock(a) && Printable(b) && !IsBlock(b) && Printable(c) && !IsBlock(c)
    ensures AllInline([a, b, c])
    ensures Layouts(ind, [a, b, c], 0) == [Layout(ind, a), Layout(ind, b), Layout(ind, c)]
  {
    var es := [a, b, c];
    assert es[0] == a && es[1] == b && es[2] == c;
    assert Layouts(ind, es, 3) == [];
    assert Layouts(ind, es, 2) == [Layout(ind, c)];
    assert Layouts(ind, es, 1) == [Layout(ind, b), Layout(ind, c)];
  }

  lemma LayoutsTwo(ind: string, a: Source, b: Source)
    requires AllInline([a, b])
    ensures Printable(a) && Printable(b)
    ensures Layouts(ind, [a, b], 0) == [Layout(ind, a), Layout(ind, b)]
  {
    assert [a, b][0] == a && [a, b][1] == b;
    assert Layouts(ind, [a, b], 2) == [];
  }

  /** The layout of a two-argument format `%s<mid>%s`. */
  lemma FormatTwoLayout(ind: string, mid: string, a: Source, b: Source)
    requires '%' !in mid && '\n' !in mid
    requires Printable(a) && !IsBlock(a) && Printable(b) && !IsBlock(b)
    ensures Printable(Group(Format(Placeholder + mid + Placeholder), [a, b]))
    ensures Layout(ind, Group(Format(Placeholder + mid + Placeholder), [a, b])) == Layout(ind, a) + mid + Layout(ind, b)
  {
    CutTwoPlaceholders(mid);
    FormatPairLayout(ind, Placeholder + mid + Placeholder, mid + Placeholder, mid, a, b);
  }

  lemma FormatPairLayout(ind: string, f: string, tail: string, mid: string, a: Source, b: Source)
    requires Cut(f, Placeholder) == CutResult("", tail, true)
    requires Cut(tail, Placeholder) == CutResult(mid, "", true)
    requires '\n' !in mid
    requires Printable(a) && !IsBlock(a) && Printable(b) && !IsBlock(b)
    ensures Printable(Group(Format(f), [a, b]))
    ensures Layout(ind, Group(Format(f), [a, b])) == Layout(ind, a) + mid + Layout(ind, b)
  {
    PairFormatShape(f, tail, mid);
    assert AllInline([a, b]);
    LayoutsTwo(ind, a, b);
    SubstTwo(f, tail, mid, Layout(ind, a), Layout(ind, b));
    assert ind + LeadingBlanks(f) == ind;
  }

  /** A format cut as `%s<mid>%s` has two placeholders, no line break and no leading blank. */
  lemma PairFormatShape(f: string, tail: string, mid: string)
    requires Cut(f, Placeholder) == CutResult("", tail, true)
    requires Cut(tail, Placeholder) == CutResult(mid, "", true)
    requires '\n' !in mid
    ensures Count(f, Placeholder) == 2 && '\n' !in f && LeadingBlanks(f) == ""
  {
    assert Count(tail, Placeholder) == 1 by {
      CountNone("", Placeholder);
    }
    assert f == Placeholder + tail && tail == mid + Placeholder;
    PairNoNewline(f, tail, mid);
    LeadingBlanksPlaceholder(tail);
  }

  lemma PairNoNewline(f: string, tail: string, mid: string)
    requires f == Placeholder + tail && tail == mid + Placeholder && '\n' !in mid
    ensures '\n' !in f
  {
    assert forall k :: 0 <= k < |tail| ==> tail[k] == if k < |mid| then mid[k] else Placeholder[k - |mid|];
  }

  lemma LeadingBlanksPlaceholder(rest: string)
    ensures LeadingBlanks(Placeholder + rest) == ""
  {
  }

  /** The layout of a braced group: the empty group is its opening and closing text; fewer
    * elements than the threshold sit on one line, separated by `", "` inside the padding;
    * otherwise each element sits on its own line, one level deeper, followed by a comma. */
  lemma BracedLayout(ind: string, o: string, p: string, c: string, th: nat, es: seq<Source>)
    requires '\n' !in o && '\n' !in p && '\n' !in c && |c| > 0 && AllInline(es)
    ensures Printable(Group(Braced(o, p, c, th), es))
    ensures |es| == 0 ==> Layout(ind, Group(Braced(o, p, c, th), es)) == o + c
    ensures 0 < |es| < th ==> Layout(ind, Group(Braced(o, p, c, th), es)) == o + p + Join(Layouts(ind, es, 0), ", ") + p + c
    ensures 0 < |es| && th <= |es| ==>
      Layout(ind, Group(Braced(o, p, c, th), es))
      == o + LinesText(ind + IndentUnit, Layouts(ind + IndentUnit, es, 0)) + "\n" + ind + c
  {
  }

  /** `InvokeFunction` lays out as the function, then the arguments in parentheses: on one
    * line for fewer than five arguments, one per line otherwise. */
  lemma InvokeFunctionLayout(ind: string, callee: Source, args: seq<Source>)
    requires Printable(callee) && !IsBlock(callee) && AllInline(args)
    ensures Printable(Ts.InvokeFunction(callee, args))
    ensures Layout(ind, Ts.InvokeFunction(callee, args)) == Layout(ind, callee) + Layout(ind, Group(InvocationStyle, args))
  {
    var g := Group(InvocationStyle, args);
    assert Printable(g) && !IsBlock(g);
    JuxtaposeLayout(ind, callee, g);
  }

  /** Two sources side by side lay out as one layout after the other. */
  lemma JuxtaposeLayout(ind: string, f: Source, a: Source)
    requires Printable(f) && !IsBlock(f) && Printable(a) && !IsBlock(a)
    ensures Printable(Ts.Juxtapose(f, a))
    ensures Layout(ind, Ts.Juxtapose(f, a)) == Layout(ind, f) + Layout(ind, a)
  {
    FormatTwoLayout(ind, "", f, a);
    EmptyBetween(Layout(ind, f), Layout(ind, a));
  }

  lemma EmptyBetween(x: string, y: string)
    ensures x + "" + y == x + y
  {
  }

  /** `receiver.name` */
  lemma MemberLayout(ind: string, receiver: Source, name: Identifier)
    requires Printable(receiver) && !IsBlock(receiver) && '\n' !in name
    ensures Printable(Ts.Member(receiver, name))
    ensures Layout(ind, Ts.Member(receiver, name)) == Layout(ind, receiver) + "." + name
  {
    FormatTwoLayout(ind, ".", receiver, Text(name));
  }

  lemma InvokeMethodLayout(ind: string, receiver: Source, name: Identifier, args: seq<Source>)
    requires Printable(receiver) && !IsBlock(receiver) && '\n' !in name && AllInline(args)
    ensures Printable(Ts.InvokeMethod(receiver, name, args))
    ensures Layout(ind, Ts.InvokeMethod(receiver, name, args))
         == Layout(ind, receiver) + "." + name + Layout(ind, Group(InvocationStyle, args))
  {
    MemberLayout(ind, receiver, name);
    InvokeFunctionLayout(ind, Ts.Member(receiver, name), args);
  }

  /** `name: value`, the name bare if it is an identifier and quoted otherwise. */
  lemma PropertyLayout(ind: string, p: Ts.Property)
    requires Printable(p.value) && !IsBlock(p.value) && '\n' !in p.name
    ensures Printable(p.AsSource())
    ensures Layout(ind, p.AsSource()) == Ts.PropertyKey(p.name).text + ": " + Layout(ind, p.value)
  {
    var key := Ts.PropertyKey(p.name);
    assert '\n' !in key.text by {
      if !Ts.IsValidIdentifier(p.name) {
        QuotedTextNoNewline(p.name);
      }
    }
    FormatTwoLayout(ind, ": ", key, p.value);
  }

  lemma QuotedTextNoNewline(s: string)
    requires '\n' !in s
    ensures '\n' !in QuotedText(s)
  {
    ReplaceCharNoNewline(s);
  }

  lemma {:induction false} ReplaceCharNoNewline(s: string)
    requires '\n' !in s
    ensures '\n' !in ReplaceChar(s, '"', "\\\"")
  {
    if |s| > 0 {
      assert '\n' !in s[1..];
      ReplaceCharNoNewline(s[1..]);
    }
  }

  // ---------------------------------------------------------------------------------
  // Doc comments

  function DocLineText(line: string): (r: string)
    ensures '\n' !in line ==> '\n' !in r
  {
    if |line| == 0 then " *" else " * " + line
  }

  /** The comment lines from `i` on, each at indentation `ind` and followed by a line break. */
  function DocBody(ind: string, lines: seq<string>, i: nat): string
    requires i <= |lines|
    decreases |lines| - i
  {
    if i == |lines| then "" else ind + DocLineText(lines[i]) + "\n" + DocBody(ind, lines, i + 1)
  }

  /** A non-empty doc comment lays out as its opening line, one ` * ` line per line of the
    * trimmed comment (` *` alone for an empty line), and the closing line, each at the
    * indentation. */
  lemma DocCommentLayout(ind: string, comment: string)
    requires |TrimSpace(comment)| > 0
    ensures Printable(Ts.DocComment(comment))
    ensures var lines := Split(TrimSpace(comment), "\n");
      Layout(ind, Ts.DocComment(comment)) == "/**" + "\n" + DocBody(ind, lines, 0) + ind + " */" + "\n"
  {
    var lines := Split(TrimSpace(comment), "\n");
    SplitLinesFree(TrimSpace(comment));
    var es := UtilSlices.MapSeq(lines, Ts.DocLine);
    DocLinesLayout(ind, lines, es);
    var blk := Ts.Statements(es);
    assert Ts.DocComment(comment) == Group(StatementLines(0), [Text("/**"), blk, Text(" */")]);
    ThreeStatements(ind, "/**", blk, " */");
  }

  /** The pieces of a split at line breaks hold no line break. */
  lemma SplitLinesFree(s: string)
    ensures forall i :: 0 <= i < |Split(s, "\n")| ==> '\n' !in Split(s, "\n")[i]
  {
    var lines := Split(s, "\n");
    SplitPiecesFree(s, "\n");
    forall i | 0 <= i < |lines| ensures '\n' !in lines[i] {
      if '\n' in lines[i] {
        var k :| 0 <= k < |lines[i]| && lines[i][k] == '\n';
        assert OccursAt(lines[i], k, "\n");
      }
    }
  }

  /** Three statements, the middle one a statement group, with no blank lines between. */
  lemma ThreeStatements(ind: string, x: string, blk: Source, z: string)
    requires '\n' !in x && '\n' !in z && Printable(blk) && IsBlock(blk)
    ensures Printable(Group(StatementLines(0), [Text(x), blk, Text(z)]))
    ensures Layout(ind, Group(StatementLines(0), [Text(x), blk, Text(z)])) == x + "\n" + (ind + Layout(ind, blk)) + ind + z + "\n"
  {
    var es := [Text(x), blk, Text(z)];
    assert AllPrintable(es);
    StatementsLayoutIs(ind, 0, es);
    StatementPiecesStep(ind, es, 0);
    StatementPiecesStep(ind, es, 1);
    StatementPiecesStep(ind, es, 2);
    var b := Layout(ind, blk);
    assert b + "" == b;
    assert StatementPieces(ind, es, 3) == [];
    assert StatementPieces(ind, es, 0) == [x + "\n", b, z + "\n"];
    assert NewlineText(0) + ind == ind;
    JoinThree(x + "\n", b, z + "\n", ind);
    ThreeRegroup(x, ind, b, z);
  }

  lemma ThreeRegroup(x: string, ind: string, b: string, z: string)
    ensures x + "\n" + ind + (b + ind + (z + "\n")) == x + "\n" + (ind + b) + ind + z + "\n"
  {
  }

  lemma JoinThree(a: string, b: string, c: string, sep: string)
    ensures Join([a, b, c], sep) == a + sep + (b + sep + c)
  {
    assert [a, b, c][1..] == [b, c];
    assert [b, c][1..] == [c];
    assert Join([c], sep) == c;
    assert Join([b, c], sep) == b + sep + c;
  }

  /** The comment lines as a single statement group: at indentation `ind` they are `DocBody`. */
  lemma DocLinesLayout(ind: string, lines: seq<string>, es: seq<Source>)
    requires 0 < |lines| && forall k :: 0 <= k < |lines| ==> '\n' !in lines[k]
    requires |es| == |lines| && forall k :: 0 <= k < |lines| ==> es[k] == Ts.DocLine(lines[k])
    ensures Printable(Ts.Statements(es)) && IsBlock(Ts.Statements(es))
    ensures ind + Layout(ind, Ts.Statements(es)) == DocBody(ind, lines, 0)
  {
    assert AllPrintable(es);
    var pieces := StatementPieces(ind, es, 0);
    StatementsLayoutIs(ind, 0, es);
    DocLinesText(ind, lines, es, 0);
    PrefixedJoin(pieces, ind);
  }

  lemma StatementsLayoutIs(ind: string, n: nat, es: seq<Source>)
    requires 0 < |es| && AllPrintable(es)
    ensures Printable(Group(StatementLines(n), es))
    ensures Layout(ind, Group(StatementLines(n), es)) == Join(StatementPieces(ind, es, 0), NewlineText(n) + ind)
  {
  }

  lemma PrefixedJoin(xs: seq<string>, sep: string)
    requires |xs| > 0
    ensures sep + Join(xs, NewlineText(0) + sep) == Prefixed(sep, xs)
  {
    assert NewlineText(0) + sep == sep;
    JoinPrefixed(xs, sep);
  }

  lemma {:induction false} DocLinesText(ind: string, lines: seq<string>, es: seq<Source>, i: nat)
    requires i <= |lines|
    requires forall k :: 0 <= k < |lines| ==> '\n' !in lines[k]
    requires |es| == |lines| && forall k :: 0 <= k < |lines| ==> es[k] == Ts.DocLine(lines[k])
    requires AllPrintable(es)
    ensures Prefixed(ind, StatementPieces(ind, es, i)) == DocBody(ind, lines, i)
    decreases |lines| - i
  {
    if i < |lines| {
      var xs := StatementPieces(ind, es, i);
      var d := DocLineText(lines[i]);
      DocLineHead(ind, lines, es, i);
      DocLinesText(ind, lines, es, i + 1);
      PrefixedStep(ind, xs, d, DocBody(ind, lines, i + 1));
    }
  }

  /** The piece of comment line `i` is its text and a line break. */
  lemma DocLineHead(ind: string, lines: seq<string>, es: seq<Source>, i: nat)
    requires i < |lines| && |es| == |lines| && es[i] == Ts.DocLine(lines[i])
    requires AllPrintable(es)
    ensures StatementPieces(ind, es, i)[0] == DocLineText(lines[i]) + "\n"
    ensures StatementPieces(ind, es, i)[1..] == StatementPieces(ind, es, i + 1)
  {
    StatementPiecesStep(ind, es, i);
    DocLinePiece(ind, lines[i], es[i]);
  }

  lemma PrefixedStep(sep: string, xs: seq<string>, d: string, rest: string)
    requires |xs| > 0 && xs[0] == d + "\n" && Prefixed(sep, xs[1..]) == rest
    ensures Prefixed(sep, xs) == sep + d + "\n" + rest
  {
  }

  lemma DocLinePiece(ind: string, line: string, e: Source)
    requires e == Ts.DocLine(line)
    ensures Printable(e) ==> Layout(ind, e) + (if IsBlock(e) then "" else "\n") == DocLineText(line) + "\n"
  {
  }

  lemma StatementPiecesStep(ind: string, es: seq<Source>, i: nat)
    requires i < |es| && AllPrintable(es)
    ensures StatementPieces(ind, es, i) == [Layout(ind, es[i]) + (if IsBlock(es[i]) then "" else "\n")] + StatementPieces(ind, es, i + 1)
    ensures StatementPieces(ind, es, i)[1..] == StatementPieces(ind, es, i + 1)
  {
    var xs := StatementPieces(ind, es, i);
    assert xs[1..] == StatementPieces(ind, es, i + 1);
  }
}
