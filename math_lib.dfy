/** Numeric primitives shared by every calculator.

    The calculators call `Math.exp`, `Math.pow`, `Math.log`, `Math.log10` and
    `Math.PI`. Their values are not modelled: a `MathLib` carries them as
    uninterpreted functions, and `Lawful` grants only the few facts the proofs
    use. JavaScript numbers are modelled as exact reals. */
module MathLib {

  /** The transcendental functions the source calls, supplied by the caller. */
  datatype MathLib = MathLib(
    exp: real -> real,
    pow: (real, real) -> real,
    ln: real -> real,
    log10: real -> real,
    pi: real)

  /** The only facts about the transcendentals that the model relies on. */
  ghost predicate Lawful(m: MathLib)
  {
    && m.exp(0.0) == 1.0
    && (forall x :: m.exp(x) > 0.0)
    && (forall x :: m.pow(x, 1.0) == x)
    && m.pi > 0.0
  }

  /** A quotient whose divisor may be zero. JavaScript yields Infinity or NaN
      there; the model yields 0, and every other quotient is exact. */
  function Div(a: real, b: real): (q: real)
    ensures b != 0.0 ==> q * b == a
    ensures b == 0.0 ==> q == 0.0
  {
    if b == 0.0 then 0.0 else a / b
  }

  /** `Math.min` on two numbers. */
  function Min(a: real, b: real): (r: real)
    ensures r <= a && r <= b
    ensures r == a || r == b
  {
    if a <= b then a else b
  }

  /** `Math.round`: the nearest integer, halves rounded towards +Infinity. */
  function Round(x: real): (n: int)
    ensures x - 0.5 < n as real <= x + 0.5
  {
    (x + 0.5).Floor
  }

  /** A text input field: empty, a string `parseFloat` reads as a number, or
      a string it cannot read (NaN). */
  datatype Field = Empty | Num(value: real) | Unparseable

  /** `parseFloat(s) || 0`: NaN and 0 both become 0. */
  function OrZero(f: Field): (v: real)
    ensures f.Num? ==> v == f.value
    ensures !f.Num? ==> v == 0.0
  {
    match f
    case Num(x) => x
    case _ => 0.0
  }

  /** `parseFloat(s || '0')`: the empty string reads as 0, an unreadable one
      as NaN (None). */
  function OrZeroText(f: Field): (v: Option<real>)
    ensures v.None? <==> f.Unparseable?
    ensures f.Empty? ==> v == Some(0.0)
    ensures f.Num? ==> v == Some(f.value)
  {
    match f
    case Empty => Some(0.0)
    case Num(x) => Some(x)
    case Unparseable => None
  }

  datatype Option<+T> = None | Some(value: T)
}
