// gotypes/util/zero.go. Dafny has no built-in zero value, so the zero value of the type
// in question is passed explicitly.

module UtilZero {

  /** `Zero[T]()`: the zero value, which the caller names. */
  function Zero<T>(zero: T): (r: T)
    ensures r == zero
  {
    zero
  }

  predicate IsZero<T(==)>(value: T, zero: T) {
    value == zero
  }

  predicate IsNonZero<T(==)>(value: T, zero: T) {
    !IsZero(value, zero)
  }

  lemma ZeroIsZero<T>(zero: T)
    ensures IsZero(Zero(zero), zero)
    ensures !IsNonZero(Zero(zero), zero)
  {
  }

  lemma IsNonZeroIsNegation<T>(value: T, zero: T)
    ensures IsNonZero(value, zero) <==> value != zero
  {
  }
}
