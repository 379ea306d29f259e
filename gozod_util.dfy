// The helpers of gotypes/gozod/util.go.

module GoZodUtil {
  import opened Outcomes

  /** Go strings are byte strings; `Capitalize` is the one helper whose result depends on it. */
  type byte = b: int | 0 <= b < 256

  /** The UTF-8 encoding of U+FFFD, which `strings.ToUpper` writes for an invalid byte. */
  const ReplacementCharacter: seq<byte> := [0xEF, 0xBF, 0xBD]

  /** `strings.ToUpper` of the one-byte string `[b]`: ASCII letters are upper-cased, other
    * ASCII bytes are kept, and a byte of 0x80 or more is not valid UTF-8 on its own. */
  function UpperByte(b: byte): (r: seq<byte>)
    ensures 'a' as int <= b <= 'z' as int ==> r == [b - 32]
    ensures b < 0x80 && !('a' as int <= b <= 'z' as int) ==> r == [b]
    ensures b >= 0x80 ==> r == ReplacementCharacter
  {
    if 'a' as int <= b <= 'z' as int then [b - 32]
    else if b < 0x80 then [b]
    else ReplacementCharacter
  }

  /** `capitalize`: the first byte upper-cased, the rest unchanged; `s[0:1]` panics on the
    * empty string. */
  function Capitalize(s: seq<byte>): (r: Outcome<seq<byte>>)
    ensures r.Panics? <==> |s| == 0
    ensures r.Returns? && s[0] < 0x80 ==> |r.value| == |s| && r.value[1..] == s[1..]
    ensures r.Returns? && s[0] < 0x80 ==> r.value[0] == (if 'a' as int <= s[0] <= 'z' as int then s[0] - 32 else s[0])
  {
    if |s| == 0 then Panics("slice bounds out of range [:1] with length 0")
    else Returns(UpperByte(s[0]) + s[1..])
  }

  /** Capitalizing is idempotent on strings that start with an ASCII byte. */
  lemma CapitalizeIdempotent(s: seq<byte>)
    requires |s| > 0 && s[0] < 0x80
    ensures Capitalize(Capitalize(s).value) == Capitalize(s)
  {
  }

  /** The elements `collectSlice` keeps: `element(i)` for each `i` below `cap` it accepts. */
  function Collected<T>(cap: nat, element: nat -> (T, bool)): (r: seq<T>)
    ensures |r| <= cap
    decreases cap
  {
    if cap == 0 then []
    else
      var (value, ok) := element(cap - 1);
      Collected(cap - 1, element) + (if ok then [value] else [])
  }

  /** Every kept element comes from an accepted index. */
  lemma {:induction false} CollectedFrom<T>(cap: nat, element: nat -> (T, bool), k: nat)
    requires k < |Collected(cap, element)|
    ensures exists i :: 0 <= i < cap && element(i).1 && element(i).0 == Collected(cap, element)[k]
    decreases cap
  {
    var prefix := Collected(cap - 1, element);
    if k < |prefix| {
      CollectedFrom(cap - 1, element, k);
    } else {
      assert element(cap - 1).1 && element(cap - 1).0 == Collected(cap, element)[k];
    }
  }

  /** An index that is accepted contributes an element. */
  lemma {:induction false} CollectedCount<T>(cap: nat, element: nat -> (T, bool))
    ensures |Collected(cap, element)| == |set i | 0 <= i < cap && element(i).1|
    decreases cap
  {
    if cap > 0 {
      CollectedCount(cap - 1, element);
      var before := set i | 0 <= i < cap - 1 && element(i).1;
      var now := set i | 0 <= i < cap && element(i).1;
      if element(cap - 1).1 {
        assert now == before + {cap - 1};
      } else {
        assert now == before;
      }
    }
  }

  /** `collectSlice`: `make` panics on a negative capacity; then one pass over the indices. */
  method CollectSlice<T>(cap: int, element: nat -> (T, bool)) returns (r: Outcome<seq<T>>)
    ensures r.Panics? <==> cap < 0
    ensures r.Returns? ==> r.value == Collected(cap, element)
  {
    if cap < 0 {
      return Panics("makeslice: cap out of range");
    }
    var slice: seq<T> := [];
    for i := 0 to cap
      invariant slice == Collected(i, element)
    {
      var (value, ok) := element(i);
      if ok {
        slice := slice + [value];
      }
    }
    return Returns(slice);
  }
}
