// The parts of Go's `strings` package that the modelled code relies on:
// `Cut`, `Split`, `Count`, `Join`, `LastIndex`, `TrimSpace`, `TrimLeft` and the
// byte-wise ordering of `cmp.Compare` on strings.

module Strings {
  import opened Outcomes

  /** `sep` occurs in `s` starting at index `i`. */
  predicate OccursAt(s: string, i: int, sep: string) {
    0 <= i && i + |sep| <= |s| && s[i..i + |sep|] == sep
  }

  lemma OccursAtShift(s: string, i: nat, sep: string)
    requires |s| > 0
    ensures OccursAt(s[1..], i, sep) <==> OccursAt(s, i + 1, sep)
  {
    if i + |sep| <= |s[1..]| {
      assert s[1..][i..i + |sep|] == s[i + 1..i + 1 + |sep|];
    }
  }

  lemma OccursAtShiftAll(s: string, sep: string)
    requires |s| > 0
    ensures forall j :: 1 <= j ==> (OccursAt(s, j, sep) <==> OccursAt(s[1..], j - 1, sep))
  {
    forall j | 1 <= j ensures OccursAt(s, j, sep) <==> OccursAt(s[1..], j - 1, sep) {
      OccursAtShift(s, j - 1, sep);
    }
  }

  /** The first index at which `sep` occurs in `s`, as `strings.Index` computes it. */
  function IndexOf(s: string, sep: string): (r: Option<nat>)
    ensures r.Some? ==> OccursAt(s, r.value, sep)
    decreases |s|
  {
    if OccursAt(s, 0, sep) then Some(0)
    else if |s| == 0 then None
    else
      var rest := IndexOf(s[1..], sep);
      OccursAtShiftAll(s, sep);
      match rest
      case Some(i) => Some(i + 1)
      case None => None
  }

  /** `IndexOf` finds the first occurrence, and finds nothing only when there is none. */
  lemma {:induction false} IndexOfFirst(s: string, sep: string)
    ensures IndexOf(s, sep).Some? ==> forall j :: 0 <= j < IndexOf(s, sep).value ==> !OccursAt(s, j, sep)
    ensures IndexOf(s, sep).None? ==> forall j :: 0 <= j <= |s| ==> !OccursAt(s, j, sep)
    decreases |s|
  {
    if !OccursAt(s, 0, sep) && |s| > 0 {
      IndexOfFirst(s[1..], sep);
      OccursAtShiftAll(s, sep);
    }
  }

  lemma IndexOfIs(s: string, sep: string, i: nat)
    requires OccursAt(s, i, sep)
    requires forall j :: 0 <= j < i ==> !OccursAt(s, j, sep)
    ensures IndexOf(s, sep) == Some(i)
  {
    IndexOfFirst(s, sep);
    var r := IndexOf(s, sep);
    if r.Some? && r.value < i {
    } else if r.Some? && r.value > i {
    }
  }

  /** What `strings.Cut(s, sep)` returns: `before, after, found`. */
  datatype CutResult = CutResult(before: string, after: string, found: bool)

  function Cut(s: string, sep: string): (r: CutResult)
    ensures r.found ==> s == r.before + sep + r.after
    ensures !r.found ==> r.before == s && r.after == ""
  {
    match IndexOf(s, sep)
    case Some(i) =>
      assert s == s[..i] + sep + s[i + |sep|..] by {
        assert s[i..i + |sep|] == sep;
        assert s == s[..i] + s[i..i + |sep|] + s[i + |sep|..];
      }
      CutResult(s[..i], s[i + |sep|..], true)
    case None => CutResult(s, "", false)
  }

  /** `Cut` splits at the first occurrence, and finds nothing only when there is none. */
  lemma CutFirst(s: string, sep: string)
    ensures Cut(s, sep).found ==> forall j :: 0 <= j < |Cut(s, sep).before| ==> !OccursAt(s, j, sep)
    ensures !Cut(s, sep).found <==> forall j :: 0 <= j <= |s| ==> !OccursAt(s, j, sep)
  {
    IndexOfFirst(s, sep);
  }

  /** Cutting at the first occurrence: if `a` has no occurrence of `sep`, even one that runs
    * into the `sep` that follows it, the cut happens right after `a`. */
  lemma CutAfter(a: string, sep: string, b: string)
    requires forall j :: 0 <= j < |a| ==> !OccursAt(a + sep + b, j, sep)
    ensures Cut(a + sep + b, sep) == CutResult(a, b, true)
  {
    var s := a + sep + b;
    assert s[|a|..|a| + |sep|] == sep;
    IndexOfIs(s, sep, |a|);
    assert s[..|a|] == a;
    assert s[|a| + |sep|..] == b;
  }

  /** A character that does not occur in `a` cannot start an occurrence of `sep` inside `a`. */
  lemma NoOccurrenceBefore(a: string, sep: string, b: string)
    requires |sep| > 0 && sep[0] !in a
    ensures forall j :: 0 <= j < |a| ==> !OccursAt(a + sep + b, j, sep)
  {
    var s := a + sep + b;
    forall j | 0 <= j < |a| ensures !OccursAt(s, j, sep) {
      assert s[j] == a[j];
      if j + |sep| <= |s| {
        assert s[j..j + |sep|][0] == s[j];
      }
    }
  }

  lemma NoOccurrence(s: string, sep: string)
    requires |sep| > 0 && sep[0] !in s
    ensures forall j :: 0 <= j <= |s| ==> !OccursAt(s, j, sep)
  {
    forall j | 0 <= j <= |s| ensures !OccursAt(s, j, sep) {
      if j + |sep| <= |s| {
        assert s[j..j + |sep|][0] == s[j];
      }
    }
  }

  /** `strings.Count(s, sep)` for a non-empty `sep`: the number of non-overlapping
    * occurrences, counted from the left. */
  function Count(s: string, sep: string): (n: nat)
    requires |sep| > 0
    ensures n == 0 <==> !Cut(s, sep).found
    decreases |s|
  {
    var c := Cut(s, sep);
    if c.found then 1 + Count(c.after, sep) else 0
  }

  lemma CountCons(a: string, sep: string, b: string)
    requires |sep| > 0 && sep[0] !in a
    ensures Count(a + sep + b, sep) == 1 + Count(b, sep)
  {
    NoOccurrenceBefore(a, sep, b);
    CutAfter(a, sep, b);
  }

  lemma CountNone(s: string, sep: string)
    requires |sep| > 0 && sep[0] !in s
    ensures Count(s, sep) == 0
  {
    NoOccurrence(s, sep);
    CutFirst(s, sep);
  }

  /** Cutting at a single character: found exactly when the character occurs, and the part
    * before the cut never holds it. */
  lemma CutChar(s: string, c: char)
    ensures Cut(s, [c]).found <==> c in s
    ensures c !in Cut(s, [c]).before
  {
    CutFirst(s, [c]);
    var r := Cut(s, [c]);
    forall j | 0 <= j < |s| ensures OccursAt(s, j, [c]) <==> s[j] == c {
      assert s[j..j + 1] == [s[j]];
    }
    if r.found {
      assert r.before == s[..|r.before|] by {
        assert s == r.before + [c] + r.after;
      }
    }
  }

  /** Cutting at a character the first part does not hold. */
  lemma CutAtChar(a: string, c: char, b: string)
    requires c !in a
    ensures Cut(a + [c] + b, [c]) == CutResult(a, b, true)
  {
    NoOccurrenceBefore(a, [c], b);
    CutAfter(a, [c], b);
  }

  lemma CutNoChar(s: string, c: char)
    requires c !in s
    ensures Cut(s, [c]) == CutResult(s, "", false)
  {
    CutChar(s, c);
  }

  /** `strings.Split(s, sep)` for a non-empty `sep`. */
  function Split(s: string, sep: string): (parts: seq<string>)
    requires |sep| > 0
    ensures |parts| >= 1
    ensures Join(parts, sep) == s
    decreases |s|
  {
    var c := Cut(s, sep);
    if c.found then [c.before] + Split(c.after, sep) else [s]
  }

  /** `strings.Join(parts, sep)`. */
  function Join(parts: seq<string>, sep: string): string
  {
    if |parts| == 0 then ""
    else if |parts| == 1 then parts[0]
    else parts[0] + sep + Join(parts[1..], sep)
  }

  lemma SplitWithout(s: string, sep: string)
    requires |sep| > 0 && sep[0] !in s
    ensures Split(s, sep) == [s]
  {
    NoOccurrence(s, sep);
    CutFirst(s, sep);
  }

  /** Every piece `Split` returns is free of `sep`. */
  lemma {:induction false} SplitPiecesFree(s: string, sep: string)
    requires |sep| > 0
    ensures forall i :: 0 <= i < |Split(s, sep)| ==> forall j :: 0 <= j <= |Split(s, sep)[i]| ==> !OccursAt(Split(s, sep)[i], j, sep)
    decreases |s|
  {
    var c := Cut(s, sep);
    CutFirst(s, sep);
    if c.found {
      SplitPiecesFree(c.after, sep);
      forall j | 0 <= j <= |c.before| ensures !OccursAt(c.before, j, sep) {
        if j + |sep| <= |c.before| {
          assert s[..|c.before|] == c.before;
          assert s[j..j + |sep|] == c.before[j..j + |sep|];
          assert !OccursAt(s, j, sep);
        }
      }
    }
  }

  /** `strings.LastIndex(s, string(c))`: the last index of `c` in `s`, or -1. */
  function LastIndexOf(s: string, c: char): (i: int)
    ensures -1 <= i < |s|
    ensures i >= 0 ==> s[i] == c
    ensures forall j :: i < j < |s| ==> s[j] != c
  {
    if |s| == 0 then -1
    else if s[|s| - 1] == c then |s| - 1
    else LastIndexOf(s[..|s| - 1], c)
  }

  /** The last occurrence is the one after which the character does not occur. */
  lemma LastIndexOfAt(a: string, c: char, b: string)
    requires c !in b
    ensures LastIndexOf(a + [c] + b, c) == |a|
  {
    var s := a + [c] + b;
    var i := LastIndexOf(s, c);
    assert s[|a|] == c;
  }

  /** The white space `strings.TrimSpace` removes: `unicode.IsSpace`, the Latin-1 spaces and
      the other characters of Unicode's White_Space property. */
  predicate IsSpace(c: char) {
    c in {' ', '\t', '\n', '\r', '\U{000B}', '\U{000C}', '\U{0085}', '\U{00A0}'}
    || c == '\U{1680}' || ('\U{2000}' <= c <= '\U{200A}') || c == '\U{2028}' || c == '\U{2029}'
    || c == '\U{202F}' || c == '\U{205F}' || c == '\U{3000}'
  }

  /** `strings.TrimLeft(s, IsSpace)`: the suffix left once the leading white space is removed. */
  function TrimLeftSpace(s: string): (r: string)
    ensures |r| <= |s| && r == s[|s| - |r|..]
    ensures forall i :: 0 <= i < |s| - |r| ==> IsSpace(s[i])
    ensures |r| > 0 ==> !IsSpace(r[0])
  {
    if |s| > 0 && IsSpace(s[0]) then TrimLeftSpace(s[1..]) else s
  }

  /** `strings.TrimRight(s, IsSpace)`: the prefix left once the trailing white space is removed. */
  function TrimRightSpace(s: string): (r: string)
    ensures |r| <= |s| && r == s[..|r|]
    ensures forall i :: |r| <= i < |s| ==> IsSpace(s[i])
    ensures |r| > 0 ==> !IsSpace(r[|r| - 1])
  {
    if |s| > 0 && IsSpace(s[|s| - 1]) then TrimRightSpace(s[..|s| - 1]) else s
  }

  /** `r` is the slice of `s` at `k` with only white space before and after it. */
  predicate SpaceBounded(s: string, k: int, r: string) {
    0 <= k <= |s| - |r| && r == s[k..k + |r|]
    && (forall i :: 0 <= i < k ==> IsSpace(s[i]))
    && (forall i :: k + |r| <= i < |s| ==> IsSpace(s[i]))
  }

  /** `strings.TrimSpace`: the slice of `s` between its leading and its trailing white space. */
  function TrimSpace(s: string): (r: string)
    ensures exists k :: SpaceBounded(s, k, r)
    ensures |r| > 0 ==> !IsSpace(r[0]) && !IsSpace(r[|r| - 1])
  {
    var l := TrimLeftSpace(s);
    var r := TrimRightSpace(l);
    assert SpaceBounded(s, |s| - |l|, r);
    r
  }

  /** The leading run of spaces and tabs: `s[:len(s)-len(strings.TrimLeft(s, " \t"))]`. */
  function LeadingBlanks(s: string): (r: string)
    ensures |r| <= |s| && r == s[..|r|]
    ensures forall i :: 0 <= i < |r| ==> r[i] in {' ', '\t'}
    ensures |r| < |s| ==> s[|r|] !in {' ', '\t'}
  {
    if |s| > 0 && s[0] in {' ', '\t'} then [s[0]] + LeadingBlanks(s[1..]) else ""
  }

  /** `strings.ReplaceAll(s, target, replacement)` for a single character `old`. */
  function ReplaceChar(s: string, target: char, replacement: string): (r: string)
    ensures target !in s ==> r == s
  {
    if |s| == 0 then ""
    else (if s[0] == target then replacement else [s[0]]) + ReplaceChar(s[1..], target, replacement)
  }

  lemma ReplaceCharAppend(a: string, b: string, target: char, replacement: string)
    ensures ReplaceChar(a + b, target, replacement) == ReplaceChar(a, target, replacement) + ReplaceChar(b, target, replacement)
  {
    if |a| > 0 {
      assert (a + b)[1..] == a[1..] + b;
      ReplaceCharAppend(a[1..], b, target, replacement);
    } else {
      assert a + b == b;
    }
  }

  /** The ordering `cmp.Compare` gives strings: byte-wise, which for code points is the
    * lexicographic order on characters. */
  predicate Less(a: string, b: string) {
    if |a| == 0 then |b| > 0
    else if |b| == 0 then false
    else a[0] < b[0] || (a[0] == b[0] && Less(a[1..], b[1..]))
  }

  lemma {:induction false} LessIrreflexive(a: string)
    ensures !Less(a, a)
  {
    if |a| > 0 {
      LessIrreflexive(a[1..]);
    }
  }

  lemma {:induction false} LessTransitive(a: string, b: string, c: string)
    requires Less(a, b) && Less(b, c)
    ensures Less(a, c)
  {
    if |a| > 0 && |b| > 0 && |c| > 0 && a[0] == b[0] == c[0] {
      LessTransitive(a[1..], b[1..], c[1..]);
    }
  }

  lemma {:induction false} LessTotal(a: string, b: string)
    requires a != b
    ensures Less(a, b) || Less(b, a)
  {
    if |a| > 0 && |b| > 0 && a[0] == b[0] {
      assert a == [a[0]] + a[1..] && b == [b[0]] + b[1..];
      LessTotal(a[1..], b[1..]);
    }
  }
}
