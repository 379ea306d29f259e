// Slice helpers of gotypes/util/slices.go.

module UtilSlices {

  /** The slice `Map(as, f)` fills: `f` applied to each element, in order. */
  function MapSeq<A, B>(xs: seq<A>, f: A -> B): (r: seq<B>)
    ensures |r| == |xs|
    ensures forall i :: 0 <= i < |xs| ==> r[i] == f(xs[i])
  {
    if |xs| == 0 then [] else [f(xs[0])] + MapSeq(xs[1..], f)
  }

  /** `Map`: a preallocated slice written element by element. */
  method Map<A, B>(xs: seq<A>, f: A -> B) returns (bs: seq<B>)
    ensures bs == MapSeq(xs, f)
  {
    bs := [];
    for i := 0 to |xs|
      invariant |bs| == i
      invariant forall j :: 0 <= j < i ==> bs[j] == f(xs[j])
    {
      bs := bs + [f(xs[i])];
    }
  }

  /** Mapping twice is mapping once with the composition. */
  lemma MapSeqCompose<A, B, C>(xs: seq<A>, f: A -> B, g: B -> C)
    ensures MapSeq(MapSeq(xs, f), g) == MapSeq(xs, x => g(f(x)))
  {
  }

  function Singleton<T>(value: T): (r: seq<T>)
    ensures |r| == 1 && r[0] == value
  {
    [value]
  }

  /** `Slice(values...)`: the variadic arguments themselves. */
  function Slice<T>(values: seq<T>): (r: seq<T>)
    ensures |r| == |values| && forall i :: 0 <= i < |r| ==> r[i] == values[i]
  {
    values
  }
}
