/**
 * What each approximation engine of Filter does to the order field and the
 * pole and zero lists, as functions of the old state. The floating-point
 * formulas are parameters: an engine's estimated order is an int, a pole or
 * zero coordinate is whatever the given function returns for (k, N), and
 * sqrt is an arbitrary function on reals. The methods of the Filter class
 * are proved to produce exactly these runs.
 */
module Engines {
  import opened FilterTypes
  import opened OrderRules
  import opened BesselTable
  import opened Reform

  /** The part of a Filter that the engines change. */
  datatype State = State(order: int, poles: seq<Complex>, zeros: seq<Complex>)

  /** The outcome of an engine call together with the state it leaves behind. */
  datatype Run = Run(outcome: Outcome, state: State)

  /** One Cauer section's coefficients aa[i], bb[i], cc[i]. */
  datatype CauerCoeffs = CauerCoeffs(aa: real, bb: real, cc: real)

  function Max(a: int, b: int): int
  {
    if a < b then b else a
  }

  /** The points appended by `for (k=1; k<=N; k++) Poles.append(pole(k, N))`. */
  function PoleSweep(n: int, pole: (int, int) -> Complex): seq<Complex>
  {
    seq(Max(n, 0), k => pole(k + 1, n))
  }

  /** The zeros appended by calcInvChebyshev: (0, zeroIm(k, N)) for k = 1 .. N. */
  function ZeroSweep(n: int, zeroIm: (int, int) -> real): seq<Complex>
  {
    seq(Max(n, 0), k => Complex(0.0, zeroIm(k + 1, n)))
  }

  /** calcButterworth. */
  function ButterworthRun(t: FType, estimate: int, pole: (int, int) -> Complex, s: State): (r: Run)
    ensures r.outcome == Pass <==> estimate <= MaxOrder
    ensures r.outcome.Fail? ==> r.state == s
    ensures r.outcome == Pass ==> r.state.order == |r.state.poles| <= MaxOrder && r.state.zeros == []
  {
    match ButterworthOrder(t, estimate)
    case Err(e) => Run(Fail(e), s)
    case Ok(n) =>
      var ps := PoleSweep(n, pole);
      Run(Pass, State(|ps|, ps, []))
  }

  /** calcChebyshev. */
  function ChebyshevRun(t: FType, estimate: int, pole: (int, int) -> Complex, s: State): (r: Run)
    ensures r.outcome == Pass <==> 1 <= estimate <= MaxOrder
    ensures r.outcome.Fail? ==> r.state == s
    ensures r.outcome == Pass ==> 1 <= r.state.order == |r.state.poles| <= MaxOrder && r.state.zeros == []
  {
    match ChebyshevOrder(t, estimate)
    case Err(e) => Run(Fail(e), s)
    case Ok(n) =>
      var ps := PoleSweep(n, pole);
      Run(Pass, State(|ps|, ps, []))
  }

  /**
   * calcInvChebyshev: the order field takes the bumped estimate before the
   * MaxOrder check, so a refused order is still stored. The zeros and poles
   * are appended in loop order; there is no reform.
   */
  function InvChebyshevRun(t: FType, estimate: int, pole: (int, int) -> Complex,
                           zeroIm: (int, int) -> real, s: State): (r: Run)
    ensures r.state.order == BandBump(t, estimate)
    ensures r.outcome == Pass <==> estimate <= MaxOrder
    ensures r.outcome.Fail? ==> r.state.poles == s.poles && r.state.zeros == s.zeros
    ensures r.outcome == Pass ==> |r.state.poles| == |r.state.zeros| == Max(r.state.order, 0)
  {
    match BandOrder(t, estimate)
    case Err(e) => Run(Fail(e), s.(order := BandBump(t, estimate)))
    case Ok(n) => Run(Pass, State(n, PoleSweep(n, pole), ZeroSweep(n, zeroIm)))
  }

  /**
   * calcCauer writes cc[order-1] for an odd order, which is out of the array
   * for a negative odd order; the model admits every other estimate.
   */
  predicate CauerDefined(t: FType, estimate: int)
  {
    var n := BandBump(t, estimate);
    n >= 0 || !Odd(n)
  }

  /** r = (order - order%2)/2 with C++ truncation: the number of second-order sections. */
  function CauerSections(n: int): int
  {
    CppDiv(n - CppRem(n, 2), 2)
  }

  /** The upper-half zero of section i: (0, sqrt(aa[i])). */
  function CauerZero(c: CauerCoeffs, root: real -> real): Complex
  {
    Complex(0.0, root(c.aa))
  }

  /** The upper-half pole of section i: (-bb[i]/2, sqrt(4 cc[i] - bb[i]^2)/2). */
  function CauerPole(c: CauerCoeffs, root: real -> real): Complex
  {
    Complex(-0.5 * c.bb, 0.5 * root(-1.0 * c.bb * c.bb + 4.0 * c.cc))
  }

  /** The second loop of calcCauer: the conjugates of s, last first. */
  function Mirror(s: seq<Complex>): seq<Complex>
  {
    seq(|s|, j requires 0 <= j < |s| => Conj(s[|s| - 1 - j]))
  }

  /**
   * The lists calcCauer emits for an accepted order n: section i = 1 .. r has
   * coefficients section(i, n); the zeros are the r upper zeros followed by
   * their mirror, the poles are the r upper poles, the real pole (-P0, 0)
   * when n is odd, and the mirror of the upper poles.
   */
  function CauerLists(n: int, section: (int, int) -> CauerCoeffs, p0: int -> real, root: real -> real): (st: State)
    ensures st.order == n
    ensures |st.zeros| == 2 * Max(CauerSections(n), 0)
    ensures |st.poles| == |st.zeros| + (if Odd(n) then 1 else 0)
  {
    var upperPoles := CauerUpperPoles(n, section, root);
    var upperZeros := CauerUpperZeros(n, section, root);
    State(n, upperPoles + CauerMiddle(n, p0) + Mirror(upperPoles), upperZeros + Mirror(upperZeros))
  }

  /** The zeros of the first emission loop: one per section, i = 1 .. r. */
  function CauerUpperZeros(n: int, section: (int, int) -> CauerCoeffs, root: real -> real): seq<Complex>
  {
    seq(Max(CauerSections(n), 0), i => CauerZero(section(i + 1, n), root))
  }

  /** The poles of the first emission loop: one per section, i = 1 .. r. */
  function CauerUpperPoles(n: int, section: (int, int) -> CauerCoeffs, root: real -> real): seq<Complex>
  {
    seq(Max(CauerSections(n), 0), i => CauerPole(section(i + 1, n), root))
  }

  /** The first-order pole (-P0, 0), present for an odd order only. */
  function CauerMiddle(n: int, p0: int -> real): seq<Complex>
  {
    if Odd(n) then [Complex(-p0(n), 0.0)] else []
  }

  /**
   * calcCauer: cauerOrderEstim stores the bumped estimate in order, then an
   * order above MaxOrder is refused; otherwise the lists are CauerLists.
   */
  function CauerRun(t: FType, estimate: int, section: (int, int) -> CauerCoeffs,
                    p0: int -> real, root: real -> real, s: State): (r: Run)
    requires CauerDefined(t, estimate)
    ensures r.state.order == BandBump(t, estimate)
    ensures r.outcome == Pass <==> estimate <= MaxOrder
    ensures r.outcome.Fail? ==> r.state.poles == s.poles && r.state.zeros == s.zeros
  {
    match BandOrder(t, estimate)
    case Err(e) => Run(Fail(e), s.(order := BandBump(t, estimate)))
    case Ok(n) => Run(Pass, CauerLists(n, section, p0, root))
  }

  /**
   * calcBessel: the order must lie strictly between 0 and BesselPolesSize;
   * the poles are row order-1 of the table read as (re, im) pairs and then
   * reformed, and the zeros stay empty.
   */
  function BesselRun(s: State): (r: Run)
    ensures r.outcome == Pass <==> 0 < s.order < BesselPolesSize
    ensures r.outcome.Fail? ==> r == Run(Fail(InvalidOrder(s.order)), s)
    ensures r.outcome == Pass ==> r.state.order == s.order == |r.state.poles| && r.state.zeros == []
  {
    if s.order <= 0 || s.order >= BesselPolesSize then Run(Fail(InvalidOrder(s.order)), s)
    else Run(Pass, State(s.order, Reformed(BesselRow(s.order)), Reformed([])))
  }

  /**
   * calcUserTrFunc: both coefficient lists must be non-empty; the order is the
   * larger polynomial degree and is stored before the MaxOrder check; the
   * zeros and poles are the roots of the numerator and the denominator as the
   * root finder lists them, reformed.
   */
  function UserRun(vecA: seq<real>, vecB: seq<real>, numeratorRoots: seq<Complex>,
                   denominatorRoots: seq<Complex>, s: State): (r: Run)
    ensures r.outcome == Pass <==> 0 < |vecA| && 0 < |vecB| && Max(|vecA|, |vecB|) - 1 <= MaxOrder
    ensures r.outcome.Fail? ==> r.state.poles == s.poles && r.state.zeros == s.zeros
    ensures 0 < |vecA| && 0 < |vecB| ==> r.state.order == Max(|vecA|, |vecB|) - 1
    ensures r.outcome == Pass ==> |r.state.poles| == |denominatorRoots| && |r.state.zeros| == |numeratorRoots|
  {
    if |vecA| == 0 || |vecB| == 0 then Run(Fail(MissingCoefficients), s)
    else
      var n := Max(|vecA| - 1, |vecB| - 1);
      if n > MaxOrder then Run(Fail(TooHighOrder(n)), s.(order := n))
      else Run(Pass, State(n, Reformed(denominatorRoots), Reformed(numeratorRoots)))
  }

  /**
   * Butterworth and Chebyshev: a refused order leaves the state as it was;
   * an accepted one gives exactly N poles, pole(k, N) at index k-1, no zeros,
   * and sets order to the pole count.
   */
  lemma ButterworthChebyshevShape(t: FType, estimate: int, pole: (int, int) -> Complex, s: State)
    ensures var run := ButterworthRun(t, estimate, pole, s);
      && (run.outcome == Pass <==> estimate <= MaxOrder)
      && (run.outcome.Fail? ==> run.state == s && run.outcome.error == TooHighOrder(BandStopBump(t, estimate)))
      && (run.outcome == Pass ==>
            var n := BandStopBump(t, estimate);
            && run.state.order == |run.state.poles| == Max(n, 0) <= MaxOrder
            && run.state.zeros == []
            && forall k :: 1 <= k <= n ==> run.state.poles[k - 1] == pole(k, n))
    ensures var run := ChebyshevRun(t, estimate, pole, s);
      && (run.outcome == Pass <==> 1 <= estimate <= MaxOrder)
      && (run.outcome.Fail? ==> run.state == s)
      && (run.outcome == Pass ==>
            var n := BandStopBump(t, estimate);
            && 1 <= run.state.order == |run.state.poles| == n <= MaxOrder
            && run.state.zeros == []
            && forall k :: 1 <= k <= n ==> run.state.poles[k - 1] == pole(k, n))
  {
    CheckOrderAcceptsSameEstimates(t, estimate);
  }

  /**
   * Inverse Chebyshev: an accepted order N gives N zeros on the imaginary
   * axis and N poles, both in loop order (no reform); a refused one stores
   * the bumped order and leaves the lists alone.
   */
  lemma InvChebyshevShape(t: FType, estimate: int, pole: (int, int) -> Complex,
                          zeroIm: (int, int) -> real, s: State)
    ensures var run := InvChebyshevRun(t, estimate, pole, zeroIm, s);
      && run.state.order == BandBump(t, estimate)
      && (run.outcome == Pass <==> estimate <= MaxOrder)
      && (run.outcome.Fail? ==> run.state.poles == s.poles && run.state.zeros == s.zeros)
      && (run.outcome == Pass ==>
            var n := run.state.order;
            && |run.state.zeros| == |run.state.poles| == Max(n, 0)
            && (forall k :: 1 <= k <= n ==> run.state.zeros[k - 1] == Complex(0.0, zeroIm(k, n)))
            && (forall k :: 1 <= k <= n ==> run.state.poles[k - 1] == pole(k, n)))
  {
    CheckOrderAcceptsSameEstimates(t, estimate);
  }

  /** Truncating halving of the order minus its remainder is plain halving for order >= 0. */
  lemma CauerSectionsHalf(n: int)
    requires n >= 0
    ensures CauerSections(n) == n / 2
  {
    CppDivNonNegative(n, 2);
    CppDivNonNegative(n - n % 2, 2);
  }

  /** Position j of Mirror(s) is the conjugate of position |s|-1-j of s, and the mirror of the mirror is s. */
  lemma MirrorAt(s: seq<Complex>)
    ensures |Mirror(s)| == |s|
    ensures forall j :: 0 <= j < |s| ==> Mirror(s)[j] == Conj(s[|s| - 1 - j])
    ensures Mirror(Mirror(s)) == s
  {
    forall j | 0 <= j < |s|
      ensures Mirror(Mirror(s))[j] == s[j]
    {
      var c := s[j];
      assert Mirror(Mirror(s))[j] == Conj(Conj(c));
    }
  }

  /** The mirror is built one entry at a time: entry k is the conjugate of entry |s|-1-k of s. */
  lemma MirrorStep(s: seq<Complex>, k: int)
    requires 0 <= k < |s|
    ensures |Mirror(s)| == |s|
    ensures Mirror(s)[..k + 1] == Mirror(s)[..k] + [Conj(s[|s| - 1 - k])]
  {
  }

  /**
   * A list laid out as `up`, an optional middle entry, then Mirror(up) is
   * conjugate-symmetric: entry j and entry n-1-j are conjugates, except the
   * middle entry itself.
   */
  lemma MirroredLayout(up: seq<Complex>, middle: seq<Complex>)
    requires |middle| <= 1
    ensures var ps := up + middle + Mirror(up);
      && |ps| == 2 * |up| + |middle|
      && (forall j :: 0 <= j < |up| ==> ps[j] == up[j])
      && (|middle| == 1 ==> ps[|up|] == middle[0])
      && (forall j :: 0 <= j < |ps| && !(|middle| == 1 && j == |up|) ==> ps[|ps| - 1 - j] == Conj(ps[j]))
  {
    var ps := up + middle + Mirror(up);
    var n, r, m := |ps|, |up|, |middle|;
    forall j | 0 <= j < n && !(m == 1 && j == r)
      ensures ps[n - 1 - j] == Conj(ps[j])
    {
      if j < r {
        MirroredUpper(up, middle, j);
      } else {
        MirroredUpper(up, middle, n - 1 - j);
        ConjConj(ps[n - 1 - j]);
      }
    }
  }

  /** Conjugation is its own inverse. */
  lemma ConjConj(c: Complex)
    ensures Conj(Conj(c)) == c
  {
  }

  /** Entry j of the upper half reappears, conjugated, at the mirrored position. */
  lemma MirroredUpper(up: seq<Complex>, middle: seq<Complex>, j: int)
    requires 0 <= j < |up|
    ensures var ps := up + middle + Mirror(up);
      ps[j] == up[j] && ps[|ps| - 1 - j] == Conj(up[j])
  {
    var ps := up + middle + Mirror(up);
    var r, m := |up|, |middle|;
    assert ps[|ps| - 1 - j] == Mirror(up)[r - 1 - j];
  }

  /**
   * calcCauer stores the bumped estimate in order whether or not it is
   * refused, refuses exactly the estimates above MaxOrder, and leaves the
   * lists alone when it refuses.
   */
  lemma CauerOrder(t: FType, estimate: int, section: (int, int) -> CauerCoeffs,
                   p0: int -> real, root: real -> real, s: State)
    requires CauerDefined(t, estimate)
    ensures var run := CauerRun(t, estimate, section, p0, root, s);
      && run.state.order == BandBump(t, estimate)
      && (run.outcome == Pass <==> estimate <= MaxOrder)
      && (run.outcome.Fail? ==> run.state.poles == s.poles && run.state.zeros == s.zeros)
      && (run.outcome == Pass ==> run.state == CauerLists(BandBump(t, estimate), section, p0, root))
  {
    CheckOrderAcceptsSameEstimates(t, estimate);
  }

  /**
   * The Cauer emission layout for an order n >= 0 with r = n/2: 2r zeros and
   * n poles; zero j is (0, sqrt(aa[j])) and zero 2r-1-j its conjugate; pole j
   * is the section's upper pole, and pole j and pole n-1-j are conjugates;
   * for odd n the middle pole, index r, is (-P0, 0).
   */
  lemma CauerLayout(n: int, section: (int, int) -> CauerCoeffs, p0: int -> real, root: real -> real)
    requires n >= 0
    ensures var st := CauerLists(n, section, p0, root);
      var r := n / 2;
      var zs := st.zeros;
      var ps := st.poles;
      && |zs| == 2 * r && |ps| == n
      && (forall j :: 0 <= j < r ==> zs[j] == Complex(0.0, root(section(j + 1, n).aa)))
      && (forall j :: 0 <= j < r ==> zs[2 * r - 1 - j] == Conj(zs[j]))
      && (forall j :: 0 <= j < r ==> ps[j] == CauerPole(section(j + 1, n), root))
      && (forall j :: 0 <= j < n && !(Odd(n) && j == r) ==> ps[n - 1 - j] == Conj(ps[j]))
      && (Odd(n) ==> ps[r] == Complex(-p0(n), 0.0))
  {
    CauerSectionsHalf(n);
    var upperZeros := CauerUpperZeros(n, section, root);
    var st := CauerLists(n, section, p0, root);
    assert st.zeros == upperZeros + [] + Mirror(upperZeros);
    MirroredLayout(upperZeros, []);
    MirroredLayout(CauerUpperPoles(n, section, root), CauerMiddle(n, p0));
  }

  /**
   * Every order the Cauer model admits emits exactly max(n, 0) poles: n for
   * n >= 0, and none for a negative even n, whose truncated half is negative.
   */
  lemma CauerPoleCount(n: int, section: (int, int) -> CauerCoeffs, p0: int -> real, root: real -> real)
    requires n >= 0 || !Odd(n)
    ensures |CauerLists(n, section, p0, root).poles| == Max(n, 0)
    ensures n <= 0 ==> CauerLists(n, section, p0, root).poles == []
  {
    if n >= 0 {
      CauerSectionsHalf(n);
    } else {
      OddAgreesWithCpp(n);
      CppHalf(n);
      assert CauerSections(n) == CppDiv(n, 2) <= 0;
    }
  }

  /**
   * A first-order Cauer design has no second-order section, so it yields the
   * single real pole (-P0, 0) and no zeros at all.
   */
  lemma CauerFirstOrderHasNoZeros(t: FType, estimate: int, section: (int, int) -> CauerCoeffs,
                                  p0: int -> real, root: real -> real, s: State)
    requires BandBump(t, estimate) == 1
    ensures CauerDefined(t, estimate)
    ensures CauerRun(t, estimate, section, p0, root, s).outcome == Pass
    ensures CauerRun(t, estimate, section, p0, root, s).state.zeros == []
    ensures CauerRun(t, estimate, section, p0, root, s).state.poles == [Complex(-p0(1), 0.0)]
  {
    CauerSectionsHalf(1);
  }

  /**
   * calcBessel accepts exactly the orders 1 .. 19, so order 20 is refused
   * although the table has a row for it. An accepted order N gives N poles,
   * a permutation of row N-1 of the table, all in the open left half-plane,
   * and no zeros.
   */
  lemma BesselShape(s: State)
    ensures BesselPolesSize == 20
    ensures BesselRun(s).outcome == Pass <==> 1 <= s.order <= 19
    ensures BesselRun(s).outcome.Fail? ==> BesselRun(s) == Run(Fail(InvalidOrder(s.order)), s)
    ensures BesselRun(s).outcome == Pass ==>
      var st := BesselRun(s).state;
      && st.order == s.order == |st.poles|
      && multiset(st.poles) == multiset(BesselRow(s.order))
      && st.zeros == []
      && forall j :: 0 <= j < |st.poles| ==> st.poles[j].re < 0.0
  {
    BesselRowLengths();
    if 1 <= s.order <= 19 {
      var row := BesselRow(s.order);
      ReformedPermutes(row);
      ReformedShort<Complex>([]);
      BesselPolesStable(s.order);
      forall j | 0 <= j < |row|
        ensures Reformed(row)[j].re < 0.0
      {
        ReformedAt(row, j);
      }
    }
  }

  /** Row 20 of the table is never read: order 20 is refused. */
  lemma BesselOrderTwentyRefused(s: State)
    requires s.order == 20
    ensures BesselRun(s) == Run(Fail(InvalidOrder(20)), s)
  {
    BesselRowLengths();
  }

  /**
   * calcUserTrFunc: missing coefficients leave the state alone; otherwise the
   * order is the larger degree, stored even when it is refused; an accepted
   * order keeps the root lists as multisets, only reordered.
   */
  lemma UserShape(vecA: seq<real>, vecB: seq<real>, numeratorRoots: seq<Complex>,
                  denominatorRoots: seq<Complex>, s: State)
    ensures var run := UserRun(vecA, vecB, numeratorRoots, denominatorRoots, s);
      && (run.outcome == Fail(MissingCoefficients) <==> |vecA| == 0 || |vecB| == 0)
      && (run.outcome == Fail(MissingCoefficients) ==> run.state == s)
      && (run.outcome == Pass <==> 1 <= |vecA| <= MaxOrder + 1 && 1 <= |vecB| <= MaxOrder + 1)
      && (|vecA| > 0 && |vecB| > 0 ==>
            && run.state.order == Max(|vecA|, |vecB|) - 1
            && 0 <= run.state.order)
      && (run.outcome == Pass ==>
            && multiset(run.state.poles) == multiset(denominatorRoots)
            && multiset(run.state.zeros) == multiset(numeratorRoots)
            && run.state.poles == Reformed(denominatorRoots)
            && run.state.zeros == Reformed(numeratorRoots))
  {
    ReformedPermutes(denominatorRoots);
    ReformedPermutes(numeratorRoots);
  }
}
