/**
 * Shared vocabulary of the active-filter synthesis core: the filter type and
 * approximation tags, the complex pole/zero value, the per-stage component
 * record with its defaults, the error kinds raised by the engines, and C++
 * integer division as the engines perform it.
 */
module FilterTypes {

  /** The highest order any approximation engine accepts (MaxOrder). */
  const MaxOrder: int := 50

  /** Filter::FType: the requested response; NoFilter is the "none" tag. */
  datatype FType = HighPass | LowPass | BandPass | BandStop | NoFilter

  /** Filter::FilterFunc: the approximation family; NoFunc is the "none" tag. */
  datatype FilterFunc = Butterworth | Chebyshev | Cauer | Bessel | InvChebyshev | NoFunc | User

  /** A pole or a zero, re + j*im. */
  datatype Complex = Complex(re: real, im: real)

  /** The complex conjugate: the mirror image in the real axis. */
  function Conj(c: Complex): Complex
  {
    Complex(c.re, -c.im)
  }

  /** A double as the component code sees it: finite, +infinity, -infinity or NaN. */
  datatype Value = Num(x: real) | PosInf | NegInf | NaN

  /** RC_elements: the components of one realised stage. */
  datatype RCElements = RCElements(
    n: int,
    r1: Value, r2: Value, r3: Value, r4: Value, r5: Value, r6: Value,
    c1: Value, c2: Value,
    au: Value)

  /** The fields that checkRCL inspects, in the order it inspects them. */
  datatype Field = R1 | R2 | R3 | R4 | R5 | R6 | C1 | C2

  /** The value a stage holds in a given field. */
  function FieldValue(e: RCElements, f: Field): Value
  {
    match f
    case R1 => e.r1
    case R2 => e.r2
    case R3 => e.r3
    case R4 => e.r4
    case R5 => e.r5
    case R6 => e.r6
    case C1 => e.c1
    case C2 => e.c2
  }

  /** A default-initialised RC_elements: stage 0, every resistor +infinity, capacitors and gain 0. */
  function DefaultElements(): (e: RCElements)
    ensures e.n == 0 && e.au == Num(0.0)
    ensures forall f :: FieldValue(e, f) == PosInf || FieldValue(e, f) == Num(0.0)
    ensures forall f :: FieldValue(e, f) == PosInf <==> f != C1 && f != C2
  {
    RCElements(0, PosInf, PosInf, PosInf, PosInf, PosInf, PosInf, Num(0.0), Num(0.0), Num(0.0))
  }

  /**
   * The FilterError exceptions, one kind per throw site family; the message
   * texts are not modelled.
   */
  datatype FilterError =
    | UnknownFunction            // calcFilter: a FilterFunc tag its switch does not handle
    | UnknownType                // calcFilter: an FType tag its switch does not handle
    | NoPoles                    // calcFilter: the engine left Poles empty
    | NoZeros(func: FilterFunc)  // calcFilter: Cauer or InvChebyshev left Zeros empty
    | TooHighOrder(order: int)   // an engine's order exceeds MaxOrder
    | TooLowOrder(order: int)    // calcChebyshev: estimated order below 1
    | InvalidOrder(order: int)   // calcBessel: order outside the table
    | MissingCoefficients        // calcUserTrFunc: empty numerator or denominator
    | InvalidValue(field: Field) // checkRCL: a NaN component value

  /** A call that either returns normally or throws a FilterError. */
  datatype Outcome = Pass | Fail(error: FilterError)

  /** A value that may be missing. */
  datatype Option<T> = None | Some(value: T)

  /** A value, or the FilterError that replaced it. */
  datatype Result<T> = Ok(value: T) | Err(error: FilterError)

  /**
   * The engines' parity test `n % 2 != 0`. C++ truncates the remainder toward
   * zero, so it can be -1 where Dafny's is 1; both are non-zero for exactly the
   * odd numbers (OddAgreesWithCpp).
   */
  predicate Odd(n: int)
  {
    n % 2 != 0
  }

  function Abs(a: int): nat
  {
    if a < 0 then -a else a
  }

  /** C++ integer division on int: the quotient truncated toward zero. */
  function CppDiv(a: int, b: int): int
    requires b != 0
  {
    if (a < 0) == (b < 0) then Abs(a) / Abs(b) else -(Abs(a) / Abs(b))
  }

  /** C++ `%` on int: the remainder left by CppDiv, with the sign of the dividend. */
  function CppRem(a: int, b: int): int
    requires b != 0
  {
    a - b * CppDiv(a, b)
  }

  /** Halving truncates toward zero: it never grows the magnitude and loses less than one. */
  lemma CppHalf(a: int)
    ensures Abs(2 * CppDiv(a, 2)) <= Abs(a) <= Abs(2 * CppDiv(a, 2)) + 1
    ensures a < 0 ==> CppDiv(a, 2) == -((-a) / 2) && CppDiv(a, 2) * 2 >= a
  {
  }

  /** On non-negative operands C++ and Dafny division agree. */
  lemma CppDivNonNegative(a: int, b: int)
    requires a >= 0 && b > 0
    ensures CppDiv(a, b) == a / b && CppRem(a, b) == a % b
  {
  }

  /** `n % 2 != 0` means the same under C++'s remainder as under Dafny's. */
  lemma OddAgreesWithCpp(n: int)
    ensures Odd(n) <==> CppRem(n, 2) != 0
    ensures CppRem(n, 2) == (if Odd(n) then (if n < 0 then -1 else 1) else 0)
  {
    if n < 0 {
      assert CppDiv(n, 2) == -((-n) / 2);
    }
  }
}
