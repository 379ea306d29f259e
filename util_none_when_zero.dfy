// `NoneWhenZero` of gotypes/util/none_when_zero.go: a value that counts as absent exactly
// when it is the zero value of its type. The zero value is passed explicitly as `zero`.

module UtilNoneWhenZero {
  import Outcomes
  import opened UtilOptional
  import UtilZero
  import UtilSlices

  datatype NoneWhenZero<A(==)> = NoneWhenZero(v: A)
  {
    /** Absent exactly when the wrapper is the zero value, that is when `v` is. */
    predicate IsNone(zero: A) {
      UtilZero.IsZero(this, NoneWhenZero(zero))
    }

    predicate Is(value: A) {
      v == value
    }

    predicate HasValue(zero: A) {
      !IsNone(zero)
    }

    function All(pred: A -> bool, zero: A): (r: bool)
      ensures r <==> (v != zero ==> pred(v))
    {
      MapNoneWhenZeroWithDefault(this, true, pred, zero)
    }

    function Exists(pred: A -> bool, zero: A): (r: bool)
      ensures r <==> (v != zero && pred(v))
    {
      MapNoneWhenZeroWithDefault(this, false, pred, zero)
    }

    /** The arguments `IfPresent` passes to its callback. */
    function IfPresentCalls(zero: A): (calls: seq<A>)
      ensures |calls| <= 1 && (|calls| == 1 <==> v != zero)
      ensures |calls| == 1 ==> calls[0] == v
    {
      if HasValue(zero) then [v] else []
    }

    /** `Filter` tests the predicate even on the zero value, and keeps the receiver when it holds. */
    function Filter(pred: A -> bool, zero: A): (r: NoneWhenZero<A>)
      ensures pred(v) ==> r == this
      ensures !pred(v) ==> r.IsNone(zero)
    {
      if pred(v) then this else NoneZero(zero)
    }

    function Get(zero: A): (r: (A, bool))
      ensures r.0 == v && (r.1 <==> v != zero)
    {
      (v, HasValue(zero))
    }

    function GetOrElse(fallback: A, zero: A): (r: A)
      ensures v != zero ==> r == v
      ensures v == zero ==> r == fallback
    {
      if HasValue(zero) then v else fallback
    }

    function GetOrElseFunc(fallback: () -> A, zero: A): (r: A)
      ensures r == GetOrElse(fallback(), zero)
    {
      if HasValue(zero) then v else fallback()
    }

    /** `MustGet`: panics on the zero value. */
    function MustGet(zero: A): (r: Outcomes.Outcome<A>)
      ensures r.Returns? <==> v != zero
      ensures r.Returns? ==> r.value == v
    {
      if IsNone(zero) then Outcomes.Panics("Unexpectedly getting zero value") else Outcomes.Returns(v)
    }

    function Or(other: NoneWhenZero<A>, zero: A): (r: NoneWhenZero<A>)
      ensures v == zero ==> r == other
      ensures v != zero ==> r == this
    {
      if IsNone(zero) then other else this
    }

    function ToOption(zero: A): (r: Optional<A>)
      ensures r.v == v && (r.hasValue <==> v != zero)
    {
      var (value, ok) := Get(zero);
      TupleAsOptional(value, ok)
    }

    /** `ToPtr`: the nil pointer when absent, otherwise a pointer to the value. */
    function ToPtr(zero: A): (r: Outcomes.Option<A>)
      ensures r.None? <==> v == zero
      ensures r.Some? ==> r.value == v
    {
      if IsNone(zero) then Outcomes.None else Outcomes.Some(v)
    }

    function ToSlice(zero: A): (r: seq<A>)
      ensures v == zero ==> r == []
      ensures v != zero ==> r == [v]
    {
      MapNoneWhenZeroWithDefault(this, [], UtilSlices.Singleton, zero)
    }
  }

  function AsNoneWhenZero<A(==)>(value: A): (n: NoneWhenZero<A>)
    ensures n.v == value
  {
    NoneWhenZero(value)
  }

  function NoneZero<A(==)>(zero: A): (n: NoneWhenZero<A>)
    ensures n.IsNone(zero)
  {
    NoneWhenZero(zero)
  }

  /** An absent optional, or one holding the zero value, becomes absent. */
  function NoneWhenZeroFromOptional<A(==)>(o: Optional<A>, zero: A): (n: NoneWhenZero<A>)
    ensures n.IsNone(zero) <==> (!o.hasValue || o.v == zero)
    ensures o.hasValue ==> n.v == o.v
  {
    if o.hasValue then AsNoneWhenZero(o.v) else NoneZero(zero)
  }

  function FoldNoneWhenZero<A(==), B>(value: NoneWhenZero<A>, initial: B, f: (B, A) -> B, zero: A): (r: B)
    ensures value.v == zero ==> r == initial
    ensures value.v != zero ==> r == f(initial, value.v)
  {
    if value.IsNone(zero) then initial else f(initial, value.v)
  }

  /** `MapNoneWhenZero`: absent stays absent, and a result equal to the zero value of `B` is absent too. */
  function MapNoneWhenZero<A(==), B(==)>(value: NoneWhenZero<A>, f: A -> B, zeroA: A, zeroB: B): (r: NoneWhenZero<B>)
    ensures value.v == zeroA ==> r.IsNone(zeroB)
    ensures value.v != zeroA ==> r.v == f(value.v)
  {
    AsNoneWhenZero(MapNoneWhenZeroWithDefault(value, UtilZero.Zero(zeroB), f, zeroA))
  }

  function MapNoneWhenZeroWithDefault<A(==), B>(value: NoneWhenZero<A>, whenNone: B, f: A -> B, zero: A): (r: B)
    ensures value.v == zero ==> r == whenNone
    ensures value.v != zero ==> r == f(value.v)
  {
    if value.IsNone(zero) then whenNone else f(value.v)
  }

  function MapNoneWhenZeroWithDefaultFunc<A(==), B>(value: NoneWhenZero<A>, whenNone: () -> B, f: A -> B, zero: A): (r: B)
    ensures r == MapNoneWhenZeroWithDefault(value, whenNone(), f, zero)
  {
    if value.IsNone(zero) then whenNone() else f(value.v)
  }

  function FlatMapNoneWhenZero<A(==), B(==)>(value: NoneWhenZero<A>, f: A -> NoneWhenZero<B>, zeroA: A, zeroB: B): (r: NoneWhenZero<B>)
    ensures value.v == zeroA ==> r.IsNone(zeroB)
    ensures value.v != zeroA ==> r == f(value.v)
  {
    MapNoneWhenZeroWithDefaultFunc(value, () => NoneZero(zeroB), f, zeroA)
  }

  /** `Combine`: `f` on both values when both are present, and absent otherwise. */
  function Combine<A(==), B(==), C(==)>(a: NoneWhenZero<A>, b: NoneWhenZero<B>, f: (A, B) -> C, zeroA: A, zeroB: B, zeroC: C): (r: NoneWhenZero<C>)
    ensures a.v == zeroA || b.v == zeroB ==> r.IsNone(zeroC)
    ensures a.v != zeroA && b.v != zeroB ==> r.v == f(a.v, b.v)
  {
    FlatMapNoneWhenZero(a, (x: A) => MapNoneWhenZero(b, (y: B) => f(x, y), zeroB, zeroC), zeroA, zeroC)
  }

  function MapNoneWhenZeroToOptional<A(==), B>(value: NoneWhenZero<A>, f: A -> B, zeroA: A, zeroB: B): (r: Optional<B>)
    ensures r.hasValue <==> value.v != zeroA
    ensures r.hasValue ==> r.v == f(value.v)
  {
    MapNoneWhenZeroWithDefault(value, Optional(false, zeroB), (a: A) => AsOptional(f(a)), zeroA)
  }

  // The conversions optional.go defines towards `NoneWhenZero` (they live here because the
  // two types refer to each other).

  /** `MapOptionalToNoneWhenZero`. */
  function MapOptionalToNoneWhenZero<A, B(==)>(o: Optional<A>, f: A -> B, zeroB: B): (r: NoneWhenZero<B>)
    ensures !o.hasValue ==> r.IsNone(zeroB)
    ensures o.hasValue ==> r.v == f(o.v)
  {
    MapOptionalWithDefault(o, NoneZero(zeroB), (a: A) => AsNoneWhenZero(f(a)))
  }

  /** `ToNoneWhenZero`: keeps the stored value, whether or not the flag is set. */
  function ToNoneWhenZero<A(==)>(o: Optional<A>): (r: NoneWhenZero<A>)
    ensures r.v == o.v
  {
    AsNoneWhenZero(o.v)
  }

  // Laws

  /** `HasValue` is the negation of `IsNone`, and both depend only on whether `v` is zero. */
  lemma HasValueIffNonZero<A>(n: NoneWhenZero<A>, zero: A)
    ensures n.HasValue(zero) <==> UtilZero.IsNonZero(n.v, zero)
  {
  }

  /** Converting to an optional and back is the identity. */
  lemma ToOptionRoundTrip<A>(n: NoneWhenZero<A>, zero: A)
    ensures NoneWhenZeroFromOptional(n.ToOption(zero), zero) == n
  {
  }

  /** `ToSlice` lists the value exactly when `IfPresent` would pass it on. */
  lemma ToSliceIsIfPresent<A>(n: NoneWhenZero<A>, zero: A)
    ensures n.ToSlice(zero) == n.IfPresentCalls(zero)
  {
  }

  lemma OrAssociative<A>(a: NoneWhenZero<A>, b: NoneWhenZero<A>, c: NoneWhenZero<A>, zero: A)
    ensures a.Or(b, zero).Or(c, zero) == a.Or(b.Or(c, zero), zero)
  {
  }

  /** Combining is symmetric in its arguments, up to flipping `f`. */
  lemma CombineSymmetric<A, B, C>(a: NoneWhenZero<A>, b: NoneWhenZero<B>, f: (A, B) -> C, zeroA: A, zeroB: B, zeroC: C)
    ensures Combine(a, b, f, zeroA, zeroB, zeroC) == Combine(b, a, (y: B, x: A) => f(x, y), zeroB, zeroA, zeroC)
  {
  }
}
