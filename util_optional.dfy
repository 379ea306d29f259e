// `Optional` of gotypes/util/optional.go: a value together with a flag saying whether it is
// present. An absent optional still carries a value, the zero value of its type, which
// the constructors that produce one receive as the parameter `zero`.

module UtilOptional {
  import Outcomes
  import UtilSlices

  datatype Optional<A> = Optional(hasValue: bool, v: A)
  {
    /** `All`: true when absent, otherwise the predicate on the value. */
    function All(pred: A -> bool): (r: bool)
      ensures r <==> (hasValue ==> pred(v))
    {
      MapOptionalWithDefault(this, true, pred)
    }

    /** `Exists`: false when absent, otherwise the predicate on the value. */
    function Exists(pred: A -> bool): (r: bool)
      ensures r <==> (hasValue && pred(v))
    {
      MapOptionalWithDefault(this, false, pred)
    }

    /** The arguments `IfPresent` passes to its callback, in order. */
    function IfPresentCalls(): (calls: seq<A>)
      ensures |calls| <= 1
      ensures |calls| == 1 <==> hasValue
      ensures hasValue ==> calls[0] == v
    {
      if hasValue then [v] else []
    }

    /** `Filter`: keeps the optional if it holds a value satisfying the predicate. */
    function Filter(pred: A -> bool, zero: A): (r: Optional<A>)
      ensures hasValue && pred(v) ==> r == this
      ensures !(hasValue && pred(v)) ==> r == None(zero)
    {
      if hasValue && pred(v) then this else Optional(false, zero)
    }

    function Get(): (r: (A, bool))
      ensures TupleAsOptional(r.0, r.1) == this
    {
      (v, hasValue)
    }

    function GetOrElse(orElse: A): (r: A)
      ensures hasValue ==> r == v
      ensures !hasValue ==> r == orElse
    {
      if hasValue then v else orElse
    }

    /** `GetOrElseDefault`: the stored value, or the zero value when absent. */
    function GetOrElseDefault(zero: A): (r: A)
      ensures r == GetOrElse(zero)
    {
      if hasValue then v else zero
    }

    function GetOrElseFunc(orElse: () -> A): (r: A)
      ensures r == GetOrElse(orElse())
    {
      if hasValue then v else orElse()
    }

    predicate IsNone() {
      !hasValue
    }

    /** `MustGet`: panics when there is no value. */
    function MustGet(): (r: Outcomes.Outcome<A>)
      ensures r.Returns? <==> hasValue
      ensures r.Returns? ==> r.value == v
    {
      if hasValue then Outcomes.Returns(v) else Outcomes.Panics("Cannot get optional value")
    }

    /** `Or`: this optional if it holds a value, else `other`. */
    function Or(other: Optional<A>): (r: Optional<A>)
      ensures hasValue ==> r == this
      ensures !hasValue ==> r == other
    {
      if hasValue then this else other
    }
  }

  function AsOptional<A>(value: A): (o: Optional<A>)
    ensures o.hasValue && o.v == value
  {
    Optional(true, value)
  }

  /** `None[A]()`: no value, and the zero value in `V`. */
  function None<A>(zero: A): (o: Optional<A>)
    ensures o.IsNone() && o.v == zero
  {
    Optional(false, zero)
  }

  function TupleAsOptional<A>(value: A, hasValue: bool): (o: Optional<A>)
    ensures o.hasValue == hasValue && o.v == value
  {
    Optional(hasValue, value)
  }

  function FoldOptional<A, B>(o: Optional<A>, initial: B, f: (B, A) -> B): (r: B)
    ensures o.hasValue ==> r == f(initial, o.v)
    ensures !o.hasValue ==> r == initial
  {
    if o.hasValue then f(initial, o.v) else initial
  }

  /** `MapOptional`: an absent optional stays absent (with the zero value of `B`). */
  function MapOptional<A, B>(o: Optional<A>, f: A -> B, zero: B): (r: Optional<B>)
    ensures r.hasValue == o.hasValue
    ensures o.hasValue ==> r.v == f(o.v)
    ensures !o.hasValue ==> r == None(zero)
  {
    MapOptionalWithDefault(o, Optional(false, zero), (a: A) => AsOptional(f(a)))
  }

  function MapOptionalWithDefault<A, B>(o: Optional<A>, whenNone: B, f: A -> B): (r: B)
    ensures o.hasValue ==> r == f(o.v)
    ensures !o.hasValue ==> r == whenNone
  {
    if o.hasValue then f(o.v) else whenNone
  }

  function MapOptionalWithDefaultFunc<A, B>(o: Optional<A>, whenNone: () -> B, f: A -> B): (r: B)
    ensures r == MapOptionalWithDefault(o, whenNone(), f)
  {
    if o.hasValue then f(o.v) else whenNone()
  }

  // Laws

  /** `Get` and `TupleAsOptional` are inverse. */
  lemma GetRoundTrip<A>(value: A, hasValue: bool)
    ensures TupleAsOptional(value, hasValue).Get() == (value, hasValue)
  {
  }

  lemma MustGetAsOptional<A>(value: A)
    ensures AsOptional(value).MustGet() == Outcomes.Returns(value)
  {
  }

  /** `All` and `Exists` are dual. */
  lemma AllExistsDual<A>(o: Optional<A>, p: A -> bool)
    ensures o.All(p) == !o.Exists(x => !p(x))
  {
  }

  /** `Or` is associative, and an absent optional is its left identity. */
  lemma OrAssociative<A>(a: Optional<A>, b: Optional<A>, c: Optional<A>)
    ensures a.Or(b).Or(c) == a.Or(b.Or(c))
  {
  }

  lemma OrLeftIdentity<A>(zero: A, b: Optional<A>)
    ensures None(zero).Or(b) == b
  {
  }

  /** Filtering twice by the same predicate is filtering once. */
  lemma FilterIdempotent<A>(o: Optional<A>, p: A -> bool, zero: A)
    ensures o.Filter(p, zero).Filter(p, zero) == o.Filter(p, zero)
  {
  }

  /** Mapping by the identity changes nothing but the zero value of an absent optional. */
  lemma MapOptionalIdentity<A>(o: Optional<A>, zero: A)
    ensures MapOptional(o, x => x, zero) == (if o.hasValue then o else None(zero))
  {
  }

  lemma MapOptionalCompose<A, B, C>(o: Optional<A>, f: A -> B, g: B -> C, zeroB: B, zeroC: C)
    ensures MapOptional(MapOptional(o, f, zeroB), g, zeroC) == MapOptional(o, x => g(f(x)), zeroC)
  {
  }

  /** Folding is mapping with the initial value as the default. */
  lemma FoldIsMapWithDefault<A, B>(o: Optional<A>, initial: B, f: (B, A) -> B)
    ensures FoldOptional(o, initial, f) == MapOptionalWithDefault(o, initial, a => f(initial, a))
  {
  }

  /** `GetOrElse` agrees with `MapOptionalWithDefault` by the identity. */
  lemma GetOrElseIsMap<A>(o: Optional<A>, orElse: A)
    ensures o.GetOrElse(orElse) == MapOptionalWithDefault(o, orElse, x => x)
  {
  }

  /** `IfPresent` calls its callback exactly on the values `ToSlice`-style listing holds. */
  lemma IfPresentCallsSingleton<A>(value: A)
    ensures AsOptional(value).IfPresentCalls() == UtilSlices.Singleton(value)
  {
  }
}
