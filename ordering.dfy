// Sorting by a composite key, as the code does with `slices.SortFunc` and a comparison
// that first compares one field and then another (`cmp.Compare` on numbers and strings).
// All the sorts in the model sort elements whose keys are distinct, so the sorted order is
// unique and can be described by a function of the set of elements.

module Ordering {
  import Strings

  datatype KeyPart = Num(n: int) | Str(s: string)

  type Key = seq<KeyPart>

  predicate PartLess(a: KeyPart, b: KeyPart) {
    match (a, b)
    case (Num(x), Num(y)) => x < y
    case (Str(x), Str(y)) => Strings.Less(x, y)
    case (Num(_), Str(_)) => true
    case (Str(_), Num(_)) => false
  }

  /** Lexicographic comparison of keys: the first differing part decides. */
  predicate KeyLess(a: Key, b: Key) {
    if |a| == 0 then |b| > 0
    else if |b| == 0 then false
    else PartLess(a[0], b[0]) || (a[0] == b[0] && KeyLess(a[1..], b[1..]))
  }

  lemma PartLessIrreflexive(a: KeyPart)
    ensures !PartLess(a, a)
  {
    if a.Str? {
      Strings.LessIrreflexive(a.s);
    }
  }

  lemma PartLessTransitive(a: KeyPart, b: KeyPart, c: KeyPart)
    requires PartLess(a, b) && PartLess(b, c)
    ensures PartLess(a, c)
  {
    if a.Str? && b.Str? && c.Str? {
      Strings.LessTransitive(a.s, b.s, c.s);
    }
  }

  lemma PartLessTotal(a: KeyPart, b: KeyPart)
    requires a != b
    ensures PartLess(a, b) || PartLess(b, a)
  {
    if a.Str? && b.Str? {
      Strings.LessTotal(a.s, b.s);
    }
  }

  lemma PartLessAsymmetric(a: KeyPart, b: KeyPart)
    requires PartLess(a, b)
    ensures !PartLess(b, a)
  {
    if PartLess(b, a) {
      PartLessTransitive(a, b, a);
      PartLessIrreflexive(a);
    }
  }

  lemma {:induction false} KeyLessIrreflexive(a: Key)
    ensures !KeyLess(a, a)
  {
    if |a| > 0 {
      PartLessIrreflexive(a[0]);
      KeyLessIrreflexive(a[1..]);
    }
  }

  lemma {:induction false} KeyLessTransitive(a: Key, b: Key, c: Key)
    requires KeyLess(a, b) && KeyLess(b, c)
    ensures KeyLess(a, c)
  {
    if |a| > 0 && |b| > 0 && |c| > 0 {
      if PartLess(a[0], b[0]) && PartLess(b[0], c[0]) {
        PartLessTransitive(a[0], b[0], c[0]);
      } else if a[0] == b[0] && b[0] == c[0] {
        KeyLessTransitive(a[1..], b[1..], c[1..]);
      }
    }
  }

  lemma {:induction false} KeyLessTotal(a: Key, b: Key)
    requires a != b
    ensures KeyLess(a, b) || KeyLess(b, a)
  {
    if |a| > 0 && |b| > 0 {
      if a[0] != b[0] {
        PartLessTotal(a[0], b[0]);
      } else {
        assert a == [a[0]] + a[1..] && b == [b[0]] + b[1..];
        KeyLessTotal(a[1..], b[1..]);
      }
    }
  }

  lemma KeyLessAsymmetric(a: Key, b: Key)
    requires KeyLess(a, b)
    ensures !KeyLess(b, a)
  {
    if KeyLess(b, a) {
      KeyLessTransitive(a, b, a);
      KeyLessIrreflexive(a);
    }
  }

  ghost predicate Injective<T>(s: set<T>, key: T -> Key) {
    forall x, y :: x in s && y in s && key(x) == key(y) ==> x == y
  }

  ghost predicate IsLeast<T>(m: T, s: set<T>, key: T -> Key) {
    m in s && forall y :: y in s && y != m ==> KeyLess(key(m), key(y))
  }

  lemma {:induction false} LeastExists<T>(s: set<T>, key: T -> Key)
    requires s != {} && Injective(s, key)
    ensures exists m :: IsLeast(m, s, key)
    decreases |s|
  {
    var x :| x in s;
    var rest := s - {x};
    if rest == {} {
      assert s == {x};
      assert IsLeast(x, s, key);
    } else {
      LeastExists(rest, key);
      var m :| IsLeast(m, rest, key);
      KeyLessTotal(key(x), key(m));
      if KeyLess(key(x), key(m)) {
        forall y | y in s && y != x ensures KeyLess(key(x), key(y)) {
          if y != m {
            KeyLessTransitive(key(x), key(m), key(y));
          }
        }
        assert IsLeast(x, s, key);
      } else {
        assert IsLeast(m, s, key);
      }
    }
  }

  lemma LeastUnique<T>(m1: T, m2: T, s: set<T>, key: T -> Key)
    requires IsLeast(m1, s, key) && IsLeast(m2, s, key)
    ensures m1 == m2
  {
    if m1 != m2 {
      KeyLessAsymmetric(key(m1), key(m2));
    }
  }

  ghost predicate SortedBy<T>(r: seq<T>, key: T -> Key) {
    forall i, j :: 0 <= i < j < |r| ==> KeyLess(key(r[i]), key(r[j]))
  }

  /** The elements of `s` listed in increasing order of their (distinct) keys: the one
    * order a sort by those keys can produce. */
  ghost function SortByKey<T>(s: set<T>, key: T -> Key): (r: seq<T>)
    requires Injective(s, key)
    ensures |r| == |s|
    ensures forall i :: 0 <= i < |r| ==> r[i] in s
    ensures forall x :: x in s ==> x in r
    ensures SortedBy(r, key)
    decreases |s|
  {
    if s == {} then []
    else
      LeastExists(s, key);
      var m :| IsLeast(m, s, key);
      var rest := SortByKey(s - {m}, key);
      [m] + rest
  }

  /** `r` lists exactly the elements of `s`, in strictly increasing key order. */
  ghost predicate SortedListing<T>(r: seq<T>, s: set<T>, key: T -> Key) {
    SortedBy(r, key) && |r| == |s|
    && (forall i :: 0 <= i < |r| ==> r[i] in s)
    && (forall x :: x in s ==> x in r)
  }

  lemma ListingHead<T>(r: seq<T>, s: set<T>, key: T -> Key)
    requires SortedListing(r, s, key) && s != {}
    ensures |r| > 0 && IsLeast(r[0], s, key)
  {
    assert |r| > 0;
    forall y | y in s && y != r[0] ensures KeyLess(key(r[0]), key(y)) {
      var j :| 0 <= j < |r| && r[j] == y;
    }
  }

  lemma ListingTail<T>(r: seq<T>, s: set<T>, key: T -> Key)
    requires SortedListing(r, s, key) && |r| > 0
    ensures SortedListing(r[1..], s - {r[0]}, key)
  {
    var rest := s - {r[0]};
    forall i | 0 <= i < |r[1..]| ensures r[1..][i] in rest {
      KeyLessIrreflexive(key(r[0]));
      assert KeyLess(key(r[0]), key(r[i + 1]));
    }
    forall x | x in rest ensures x in r[1..] {
      var j :| 0 <= j < |r| && r[j] == x;
    }
  }

  /** A strictly sorted listing of exactly the elements of `s` is `SortByKey(s, key)`. */
  lemma {:induction false} SortedListingUnique<T>(r: seq<T>, s: set<T>, key: T -> Key)
    requires Injective(s, key)
    requires SortedListing(r, s, key)
    ensures r == SortByKey(s, key)
    decreases |s|
  {
    var q := SortByKey(s, key);
    if s != {} {
      ListingHead(r, s, key);
      ListingHead(q, s, key);
      LeastUnique(r[0], q[0], s, key);
      ListingTail(r, s, key);
      ListingTail(q, s, key);
      SortedListingUnique(r[1..], s - {r[0]}, key);
      SortedListingUnique(q[1..], s - {r[0]}, key);
      assert r == [r[0]] + r[1..] && q == [q[0]] + q[1..];
    }
  }

  /** Inserts `x` before the first element whose key is not smaller than its own. */
  function Insert<T>(x: T, r: seq<T>, key: T -> Key): (q: seq<T>)
    ensures |q| == |r| + 1
    ensures forall i :: 0 <= i < |q| ==> q[i] == x || q[i] in r
    ensures x in q && forall y :: y in r ==> y in q
  {
    if |r| == 0 then [x]
    else if KeyLess(key(x), key(r[0])) then [x] + r
    else [r[0]] + Insert(x, r[1..], key)
  }

  lemma {:induction false} InsertSorted<T>(x: T, r: seq<T>, key: T -> Key)
    requires SortedBy(r, key)
    requires forall i :: 0 <= i < |r| ==> key(r[i]) != key(x)
    ensures SortedBy(Insert(x, r, key), key)
  {
    if |r| > 0 && !KeyLess(key(x), key(r[0])) {
      KeyLessTotal(key(x), key(r[0]));
      InsertSorted(x, r[1..], key);
      var q := Insert(x, r, key);
      forall i, j | 0 <= i < j < |q| ensures KeyLess(key(q[i]), key(q[j])) {
        if i == 0 {
          if q[j] != x {
            var k :| 0 <= k < |r[1..]| && r[1..][k] == q[j];
            assert r[k + 1] == q[j];
          }
        } else {
          assert q[i] == Insert(x, r[1..], key)[i - 1];
        }
      }
    } else if |r| > 0 {
      var q := Insert(x, r, key);
      forall i, j | 0 <= i < j < |q| ensures KeyLess(key(q[i]), key(q[j])) {
        if i == 0 && j > 1 {
          KeyLessTransitive(key(x), key(r[0]), key(r[j - 1]));
        }
      }
    }
  }

  /** Sorts `xs` by inserting its elements one by one. */
  function InsertionSort<T>(xs: seq<T>, key: T -> Key): (r: seq<T>)
    ensures |r| == |xs|
    ensures forall i :: 0 <= i < |r| ==> r[i] in xs
    ensures forall x :: x in xs ==> x in r
  {
    if |xs| == 0 then []
    else Insert(xs[0], InsertionSort(xs[1..], key), key)
  }

  ghost predicate Distinct<T>(xs: seq<T>) {
    forall i, j :: 0 <= i < j < |xs| ==> xs[i] != xs[j]
  }

  function Elements<T>(xs: seq<T>): set<T> {
    set x | x in xs
  }

  lemma {:induction false} InsertionSortSorted<T>(xs: seq<T>, key: T -> Key)
    requires Distinct(xs) && Injective(Elements(xs), key)
    ensures SortedBy(InsertionSort(xs, key), key)
  {
    if |xs| > 0 {
      assert Elements(xs[1..]) <= Elements(xs);
      InsertionSortSorted(xs[1..], key);
      var r := InsertionSort(xs[1..], key);
      forall i | 0 <= i < |r| ensures key(r[i]) != key(xs[0]) {
        var k :| 0 <= k < |xs[1..]| && xs[1..][k] == r[i];
        assert xs[k + 1] == r[i];
      }
      InsertSorted(xs[0], r, key);
    }
  }

  /** A strictly sorted sequence has no duplicates. */
  lemma SortedDistinct<T>(r: seq<T>, key: T -> Key)
    requires SortedBy(r, key)
    ensures Distinct(r)
  {
    forall i, j | 0 <= i < j < |r| ensures r[i] != r[j] {
      if r[i] == r[j] {
        KeyLessIrreflexive(key(r[i]));
      }
    }
  }

  /** A duplicate-free sequence has as many elements as its set. */
  lemma {:induction false} DistinctElements<T>(xs: seq<T>)
    requires Distinct(xs)
    ensures |Elements(xs)| == |xs|
  {
    if |xs| > 0 {
      var rest := xs[1..];
      assert Distinct(rest) by {
        forall i, j | 0 <= i < j < |rest| ensures rest[i] != rest[j] {
          assert rest[i] == xs[i + 1] && rest[j] == xs[j + 1];
        }
      }
      DistinctElements(rest);
      assert xs == [xs[0]] + rest;
      assert xs[0] !in Elements(rest);
      assert Elements(xs) == {xs[0]} + Elements(rest);
    }
  }

  /** Two-part keys compare by their first part, then by their second. */
  lemma KeyLessPair(x1: KeyPart, y1: KeyPart, x2: KeyPart, y2: KeyPart)
    ensures KeyLess([x1, y1], [x2, y2]) <==> PartLess(x1, x2) || (x1 == x2 && PartLess(y1, y2))
  {
    assert [x1, y1][1..] == [y1] && [x2, y2][1..] == [y2];
    assert [y1][1..] == [] && [y2][1..] == [];
    assert !KeyLess([], []);
    assert KeyLess([y1], [y2]) <==> PartLess(y1, y2);
  }

  /** Two duplicate-free sequences with no common element concatenate without duplicates. */
  lemma DistinctConcat<T>(a: seq<T>, b: seq<T>)
    requires Distinct(a) && Distinct(b)
    requires forall x :: x in a ==> x !in b
    ensures Distinct(a + b)
  {
    forall i, j | 0 <= i < j < |a + b| ensures (a + b)[i] != (a + b)[j] {
      if j < |a| {
        assert (a + b)[i] == a[i] && (a + b)[j] == a[j];
      } else if i >= |a| {
        assert (a + b)[i] == b[i - |a|] && (a + b)[j] == b[j - |a|];
      } else {
        assert (a + b)[i] == a[i] && (a + b)[j] == b[j - |a|];
        assert a[i] in a;
      }
    }
  }

  /** A sequence is duplicate-free exactly when no element occurs twice in its multiset. */
  lemma {:induction false} DistinctMultiplicity<T>(xs: seq<T>)
    ensures Distinct(xs) <==> forall x :: multiset(xs)[x] <= 1
  {
    if |xs| > 0 {
      var h, t := xs[0], xs[1..];
      assert xs == [h] + t;
      DistinctMultiplicity(t);
      if Distinct(xs) {
        assert Distinct(t) by {
          forall i, j | 0 <= i < j < |t| ensures t[i] != t[j] {
            assert t[i] == xs[i + 1] && t[j] == xs[j + 1];
          }
        }
        assert h !in t by {
          forall k | 0 <= k < |t| ensures t[k] != h {
            assert t[k] == xs[k + 1];
          }
        }
      }
      if forall x :: multiset(xs)[x] <= 1 {
        assert forall x :: multiset(t)[x] <= multiset(xs)[x];
        assert multiset(t)[h] == 0;
        DistinctConcat([h], t);
      }
    }
  }

  lemma ElementsEmpty<T>(xs: seq<T>)
    ensures Elements(xs) == {} <==> xs == []
  {
    if xs != [] {
      assert xs[0] in Elements(xs);
    }
  }

  /** Deleting the element at `i` removes one occurrence of it. */
  lemma DeletePermutes<T>(s: seq<T>, i: nat)
    requires i < |s|
    ensures multiset(s[..i] + s[i + 1..]) + multiset{s[i]} == multiset(s)
  {
    assert s == s[..i] + [s[i]] + s[i + 1..];
  }

  /** Reordering keeps a sequence duplicate-free. */
  lemma DistinctPermutation<T>(a: seq<T>, b: seq<T>)
    requires multiset(a) == multiset(b) && Distinct(a)
    ensures Distinct(b)
  {
    DistinctMultiplicity(a);
    DistinctMultiplicity(b);
  }

  /** Sorting any duplicate-free listing of a set gives the set's unique sorted order. */
  lemma SortListing<T>(xs: seq<T>, key: T -> Key)
    requires Distinct(xs) && Injective(Elements(xs), key) && |Elements(xs)| == |xs|
    ensures InsertionSort(xs, key) == SortByKey(Elements(xs), key)
  {
    InsertionSortSorted(xs, key);
    SortedListingUnique(InsertionSort(xs, key), Elements(xs), key);
  }

  /** Lists the elements of a set in some order (the iteration order of a Go map). */
  method Listing<T>(s: set<T>) returns (xs: seq<T>)
    ensures Distinct(xs) && Elements(xs) == s && |xs| == |s|
  {
    xs := [];
    var left := s;
    while left != {}
      invariant Distinct(xs)
      invariant Elements(xs) + left == s
      invariant forall x :: x in left ==> x !in xs
      invariant |xs| + |left| == |s|
      decreases |left|
    {
      var x :| x in left;
      xs := xs + [x];
      left := left - {x};
    }
  }
}
