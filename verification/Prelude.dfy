/** Shared types: `Result` stands for the exceptions the source throws. */
module Prelude {

  predicate NoRepeats<T(==)>(s: seq<T>) {
    forall i, j :: 0 <= i < j < |s| ==> s[i] != s[j]
  }

  datatype Option<+T> = None | Some(value: T) {
    function GetOr(default: T): T {
      match this
      case Some(v) => v
      case None => default
    }
  }

  datatype Result<+T, +E> = Ok(value: T) | Err(error: E) {
    predicate IsFailure() {
      Err?
    }

    function PropagateFailure<U>(): Result<U, E>
      requires Err?
    {
      Err(error)
    }

    function Extract(): T
      requires Ok?
    {
      value
    }

    /** Go on with the value, or keep the error. */
    function Then<U>(next: T -> Result<U, E>): Result<U, E> {
      match this
      case Ok(v) => next(v)
      case Err(e) => Err(e)
    }
  }
}

/** Small functions on numbers, and facts about products and quotients used one at a time. */
module Arithmetic {

  function Abs(x: int): nat {
    if x < 0 then -x else x
  }

  function Magnitude(x: real): real {
    if x < 0.0 then -x else x
  }

  function Min(a: real, b: real): real {
    if a <= b then a else b
  }

  function Max(a: real, b: real): real {
    if a >= b then a else b
  }

  lemma DivMod(x: int, d: int)
    requires d > 0
    ensures x / d * d + x % d == x && 0 <= x % d < d && (x >= 0 ==> x / d >= 0)
  {
  }

  lemma Distribute(k: int, a: int, b: int)
    ensures k * (a + b) == k * a + k * b && (a + b) * k == a * k + b * k
    ensures k * (a - b) == k * a - k * b && (a - b) * k == a * k - b * k
  {
  }

  lemma AtLeastOnce(k: int, d: int)
    requires k >= 1 && d > 0
    ensures k * d >= d
  {
  }

  lemma NextMultiple(p: int, q: int, d: int)
    requires d > 0
    ensures p < q ==> q * d >= p * d + d
  {
    if p < q {
      Distribute(d, q, p);
      AtLeastOnce(q - p, d);
    }
  }

  lemma QuotientUnique(x: int, d: int, q: int, r: int)
    requires d > 0 && 0 <= r < d && x == q * d + r
    ensures x / d == q && x % d == r
  {
    DivMod(x, d);
    NextMultiple(q, x / d, d);
    NextMultiple(x / d, q, d);
  }

  lemma CancelFactorReal(x: real, y: real, c: real)
    requires c != 0.0
    ensures x * c == y * c <==> x == y
  {
    assert (x - y) * c == x * c - y * c;
  }
}
