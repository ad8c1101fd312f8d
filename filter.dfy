/**
 * The Filter class: its order, pole, zero and stage lists, the approximation
 * engines that fill them, and calcFilter, which runs one engine, validates its
 * output, realises the stages and counts the components. Every method is
 * proved to leave the state that the matching function of Engines, or
 * FilterRun below, prescribes.
 */
module ActiveFilter {
  import opened FilterTypes
  import opened OrderRules
  import opened BesselTable
  import opened Reform
  import opened Engines
  import opened Components

  /**
   * The numeric inputs of calcFilter that the model does not compute: each
   * engine's estimated order (the ceil or round of its formula), its pole and
   * zero coordinates as functions of (k, N), the Cauer section coefficients
   * and first-order pole P0 as functions of the order, sqrt, the root finder
   * applied to a coefficient list, and the topology's stage realisation
   * (calcLowPass .. calcBandStop of a concrete filter) as a function of the
   * type and the engine's result.
   */
  datatype Numerics = Numerics(
    butterworthEstimate: int,
    butterworthPole: (int, int) -> Complex,
    chebyshevEstimate: int,
    chebyshevPole: (int, int) -> Complex,
    invChebyshevEstimate: int,
    invChebyshevPole: (int, int) -> Complex,
    invChebyshevZero: (int, int) -> real,
    cauerEstimate: int,
    cauerSection: (int, int) -> CauerCoeffs,
    cauerP0: int -> real,
    sqrt: real -> real,
    roots: seq<real> -> seq<Complex>,
    stages: (FType, State) -> seq<RCElements>)

  /** The fields calcFilter may change. */
  datatype Design = Design(
    order: int,
    poles: seq<Complex>,
    zeros: seq<Complex>,
    sections: seq<RCElements>,
    nr: int,
    nc: int,
    nopamp: int)

  /** What calcFilter leaves behind: how it ended and the fields as they then are. */
  datatype FilterResult = FilterResult(outcome: Outcome, design: Design)

  /** The engine calcFilter's first switch selects; an unhandled tag raises and changes nothing. */
  function EngineRun(f: FilterFunc, t: FType, num: Numerics, vecA: seq<real>, vecB: seq<real>, s: State): Run
    requires f == Cauer ==> CauerDefined(t, num.cauerEstimate)
  {
    match f
    case Chebyshev => ChebyshevRun(t, num.chebyshevEstimate, num.chebyshevPole, s)
    case Butterworth => ButterworthRun(t, num.butterworthEstimate, num.butterworthPole, s)
    case Cauer => CauerRun(t, num.cauerEstimate, num.cauerSection, num.cauerP0, num.sqrt, s)
    case InvChebyshev => InvChebyshevRun(t, num.invChebyshevEstimate, num.invChebyshevPole, num.invChebyshevZero, s)
    case Bessel => BesselRun(s)
    case User => UserRun(vecA, vecB, num.roots(vecB), num.roots(vecA), s)
    case NoFunc => Run(Fail(UnknownFunction), s)
  }

  /**
   * Nr = Nr1*(order/2), Nc = Nc1*(order/2) and Nopamp = Nop1*order/2, the last
   * evaluated left to right, all with C++ truncating division.
   */
  function Counted(d: Design, nr1: int, nc1: int, nop1: int): (r: Design)
    ensures r.order == d.order && r.poles == d.poles && r.zeros == d.zeros && r.sections == d.sections
    ensures d.order >= 0 ==> r.nr == nr1 * (d.order / 2) && r.nc == nc1 * (d.order / 2)
    ensures d.order < 0 ==> r.nr == -(nr1 * ((-d.order) / 2)) && r.nc == -(nc1 * ((-d.order) / 2))
  {
    d.(nr := nr1 * CppDiv(d.order, 2), nc := nc1 * CppDiv(d.order, 2), nopamp := CppDiv(nop1 * d.order, 2))
  }

  /**
   * calcFilter: clear the stages, poles and zeros; run the engine; refuse an
   * empty pole list, and an empty zero list for Cauer and inverse Chebyshev;
   * realise the stages for the filter type (an unhandled type raises); run
   * checkRCL; set the component counters. A raise leaves every change made
   * before it in place.
   */
  function FilterRun(f: FilterFunc, t: FType, num: Numerics, vecA: seq<real>, vecB: seq<real>,
                     nr1: int, nc1: int, nop1: int, d: Design): (r: FilterResult)
    requires f == Cauer ==> CauerDefined(t, num.cauerEstimate)
    ensures f == NoFunc ==> r.outcome == Fail(UnknownFunction) && r.design.poles == [] && r.design.zeros == []
    ensures r.outcome == Pass ==> f != NoFunc && t != NoFilter && |r.design.poles| > 0
    ensures r.outcome.Fail? ==> r.design.nr == d.nr && r.design.nc == d.nc && r.design.nopamp == d.nopamp
  {
    Validate(f, t, num.stages, EngineRun(f, t, num, vecA, vecB, State(d.order, [], [])), nr1, nc1, nop1, d)
  }

  /** calcFilter after its engine has run, given the engine's outcome and state. */
  function Validate(f: FilterFunc, t: FType, stages: (FType, State) -> seq<RCElements>, run: Run,
                    nr1: int, nc1: int, nop1: int, d: Design): (r: FilterResult)
    ensures r.design.order == run.state.order && r.design.poles == run.state.poles && r.design.zeros == run.state.zeros
    ensures r.outcome == Pass <==>
      && run.outcome == Pass && |run.state.poles| > 0
      && (|run.state.zeros| == 0 ==> f != Cauer && f != InvChebyshev)
      && t != NoFilter && CheckRCL(stages(t, run.state)) == Pass
    ensures r.outcome == Pass ==> r.design.sections == stages(t, run.state)
    ensures r.outcome.Fail? ==> r.design.nr == d.nr && r.design.nc == d.nc && r.design.nopamp == d.nopamp
  {
    var e := Design(run.state.order, run.state.poles, run.state.zeros, [], d.nr, d.nc, d.nopamp);
    if run.outcome.Fail? then FilterResult(run.outcome, e)
    else if |e.poles| == 0 then FilterResult(Fail(NoPoles), e)
    else if |e.zeros| == 0 && (f == Cauer || f == InvChebyshev) then FilterResult(Fail(NoZeros(f)), e)
    else if t == NoFilter then FilterResult(Fail(UnknownType), e)
    else
      var realised := e.(sections := stages(t, run.state));
      var checked := CheckRCL(realised.sections);
      if checked.Fail? then FilterResult(checked, realised)
      else FilterResult(Pass, Counted(realised, nr1, nc1, nop1))
  }

  /** Every engine that passes leaves an order of at most MaxOrder. */
  lemma EngineOrderBound(f: FilterFunc, t: FType, num: Numerics, vecA: seq<real>, vecB: seq<real>, s: State)
    requires f == Cauer ==> CauerDefined(t, num.cauerEstimate)
    ensures var run := EngineRun(f, t, num, vecA, vecB, s);
      run.outcome == Pass ==> f != NoFunc && run.state.order <= MaxOrder
  {
    AcceptedOrderBounds(t, num.butterworthEstimate);
    AcceptedOrderBounds(t, num.chebyshevEstimate);
    AcceptedOrderBounds(t, num.invChebyshevEstimate);
    AcceptedOrderBounds(t, num.cauerEstimate);
    CheckOrderAcceptsSameEstimates(t, num.cauerEstimate);
    BesselRowLengths();
  }

  /**
   * Every engine except the user-defined one that passes leaves one pole per
   * order (none when the order is 0 or less): Butterworth and Chebyshev set
   * the order to the pole count, the others emit one pole per order.
   */
  lemma EnginePoleCount(f: FilterFunc, t: FType, num: Numerics, vecA: seq<real>, vecB: seq<real>, s: State)
    requires f == Cauer ==> CauerDefined(t, num.cauerEstimate)
    ensures var run := EngineRun(f, t, num, vecA, vecB, s);
      run.outcome == Pass && f != User ==> |run.state.poles| == Max(run.state.order, 0)
  {
    var run := EngineRun(f, t, num, vecA, vecB, s);
    if run.outcome == Pass && f == Cauer {
      CauerOrder(t, num.cauerEstimate, num.cauerSection, num.cauerP0, num.sqrt, s);
      CauerPoleCount(BandBump(t, num.cauerEstimate), num.cauerSection, num.cauerP0, num.sqrt);
    }
  }

  /**
   * What a passing calcFilter guarantees: a known approximation and type,
   * at least one pole, at least one zero for Cauer and inverse Chebyshev, an
   * order of at most MaxOrder, the stages the topology realised from the
   * engine's lists with no NaN among them, and the counters
   * Nr = Nr1*(order/2), Nc = Nc1*(order/2), Nopamp = Nop1*order/2. A raise
   * leaves the counters as they were.
   */
  lemma CalcFilterGuarantees(f: FilterFunc, t: FType, num: Numerics, vecA: seq<real>, vecB: seq<real>,
                             nr1: int, nc1: int, nop1: int, d: Design)
    requires f == Cauer ==> CauerDefined(t, num.cauerEstimate)
    ensures var res := FilterRun(f, t, num, vecA, vecB, nr1, nc1, nop1, d);
      var e := res.design;
      res.outcome == Pass ==>
        && f != NoFunc && t != NoFilter
        && |e.poles| > 0
        && ((f == Cauer || f == InvChebyshev) ==> |e.zeros| > 0)
        && e.order <= MaxOrder
        && (f != User ==> 1 <= e.order && |e.poles| == e.order)
        && e.sections == num.stages(t, State(e.order, e.poles, e.zeros))
        && (forall i :: 0 <= i < |e.sections| ==> NaNFree(e.sections[i]))
        && e.nr == nr1 * CppDiv(e.order, 2)
        && e.nc == nc1 * CppDiv(e.order, 2)
        && e.nopamp == CppDiv(nop1 * e.order, 2)
    ensures var res := FilterRun(f, t, num, vecA, vecB, nr1, nc1, nop1, d);
      res.outcome.Fail? ==> res.design.nr == d.nr && res.design.nc == d.nc && res.design.nopamp == d.nopamp
  {
    EngineOrderBound(f, t, num, vecA, vecB, State(d.order, [], []));
    EnginePoleCount(f, t, num, vecA, vecB, State(d.order, [], []));
  }

  /**
   * The user-defined transfer function, for a root finder that returns one
   * root per degree: a passing design has an order of at least 1, as many
   * poles as the denominator's degree and as many zeros as the numerator's,
   * and neither exceeds the order.
   */
  lemma CalcFilterUserOrder(t: FType, num: Numerics, vecA: seq<real>, vecB: seq<real>,
                            nr1: int, nc1: int, nop1: int, d: Design)
    requires |vecA| > 0 ==> |num.roots(vecA)| == |vecA| - 1
    requires |vecB| > 0 ==> |num.roots(vecB)| == |vecB| - 1
    ensures var res := FilterRun(User, t, num, vecA, vecB, nr1, nc1, nop1, d);
      var e := res.design;
      res.outcome == Pass ==>
        && 1 <= e.order <= MaxOrder
        && |e.poles| == |vecA| - 1 <= e.order
        && |e.zeros| == |vecB| - 1 <= e.order
  {
  }

  /**
   * The tags calcFilter's switches do not handle: NoFunc raises before any
   * engine runs, leaving the cleared lists and the order as they were;
   * NoFilter never passes and realises no stage.
   */
  lemma CalcFilterUnknownTags(f: FilterFunc, t: FType, num: Numerics, vecA: seq<real>, vecB: seq<real>,
                              nr1: int, nc1: int, nop1: int, d: Design)
    requires f == Cauer ==> CauerDefined(t, num.cauerEstimate)
    ensures f == NoFunc ==> FilterRun(f, t, num, vecA, vecB, nr1, nc1, nop1, d)
                            == FilterResult(Fail(UnknownFunction), d.(poles := [], zeros := [], sections := []))
    ensures t == NoFilter ==> FilterRun(f, t, num, vecA, vecB, nr1, nc1, nop1, d).outcome != Pass
    ensures t == NoFilter ==> FilterRun(f, t, num, vecA, vecB, nr1, nc1, nop1, d).design.sections == []
  {
  }

  /**
   * Nop1*order/2 rounds once, after the product, while Nr and Nc halve the
   * order first: for order, Nop1 >= 0 the op-amp count exceeds Nop1*(order/2)
   * by Nop1/2 exactly when the order is odd. Order 3 with two op-amps per
   * stage gives Nopamp = 3 but Nop1*(order/2) = 2.
   */
  lemma {:induction false} NopampRounding(order: int, nop1: int)
    requires order >= 0 && nop1 >= 0
    ensures CppDiv(nop1 * order, 2) == nop1 * CppDiv(order, 2) + (if Odd(order) then nop1 / 2 else 0)
    ensures order == 3 && nop1 == 2 ==> CppDiv(nop1 * order, 2) == 3 && nop1 * CppDiv(order, 2) == 2
  {
    var h := order / 2;
    CppDivNonNegative(order, 2);
    assert nop1 * order >= 0;
    CppDivNonNegative(nop1 * order, 2);
    if Odd(order) {
      assert order == 2 * h + 1;
      assert nop1 * order == 2 * (nop1 * h) + nop1;
    } else {
      assert order == 2 * h;
      assert nop1 * order == 2 * (nop1 * h);
    }
  }

  /**
   * Orders that pass an engine but fail calcFilter: a Butterworth or inverse
   * Chebyshev order of 0 or less yields no pole, and a first-order Cauer
   * design yields one real pole but no zero.
   */
  lemma CalcFilterDegenerateOrders(f: FilterFunc, t: FType, num: Numerics, vecA: seq<real>, vecB: seq<real>,
                                   nr1: int, nc1: int, nop1: int, d: Design)
    ensures f == Butterworth && BandStopBump(t, num.butterworthEstimate) <= 0 ==>
      FilterRun(f, t, num, vecA, vecB, nr1, nc1, nop1, d).outcome == Fail(NoPoles)
    ensures f == InvChebyshev && BandBump(t, num.invChebyshevEstimate) <= 0 ==>
      FilterRun(f, t, num, vecA, vecB, nr1, nc1, nop1, d).outcome == Fail(NoPoles)
    ensures f == Cauer && BandBump(t, num.cauerEstimate) == 1 ==>
      CauerDefined(t, num.cauerEstimate)
      && FilterRun(f, t, num, vecA, vecB, nr1, nc1, nop1, d).outcome == Fail(NoZeros(Cauer))
  {
    if f == Cauer && BandBump(t, num.cauerEstimate) == 1 {
      CauerFirstOrderHasNoZeros(t, num.cauerEstimate, num.cauerSection, num.cauerP0, num.sqrt, State(d.order, [], []));
    }
  }

  /**
   * A Bessel filter passes every engine check exactly for the requested
   * orders 1 .. 19; then it has one pole per order and no zeros, and the
   * outcome depends only on the type and the realised stages.
   */
  lemma CalcFilterBessel(t: FType, num: Numerics, vecA: seq<real>, vecB: seq<real>,
                         nr1: int, nc1: int, nop1: int, d: Design)
    ensures var res := FilterRun(Bessel, t, num, vecA, vecB, nr1, nc1, nop1, d);
      && (!(1 <= d.order <= 19) ==> res.outcome == Fail(InvalidOrder(d.order)))
      && (1 <= d.order <= 19 ==>
            && |res.design.poles| == d.order && res.design.zeros == []
            && (res.outcome == Pass <==>
                  t != NoFilter && forall i :: 0 <= i < |res.design.sections| ==> NaNFree(res.design.sections[i])))
  {
    BesselShape(State(d.order, [], []));
  }

  class Filter {
    var ftype: FType
    var ffunc: FilterFunc
    var order: int
    var poles: seq<Complex>
    var zeros: seq<Complex>
    var vecB: seq<real>      // transfer-function numerator
    var vecA: seq<real>      // transfer-function denominator
    var sections: seq<RCElements>
    var nr: int              // total resistors
    var nc: int              // total capacitors
    var nopamp: int          // total op-amps
    var nr1: int             // resistors per stage
    var nc1: int             // capacitors per stage
    var nop1: int            // op-amps per stage

    /** The fields the engines change. */
    function Engine(): State
      reads this`order, this`poles, this`zeros
    {
      State(order, poles, zeros)
    }

    /** The fields calcFilter changes. */
    function Snapshot(): Design
      reads this`order, this`poles, this`zeros, this`sections, this`nr, this`nc, this`nopamp
    {
      Design(order, poles, zeros, sections, nr, nc, nopamp)
    }

    /** getOrder: a const accessor of the order field. */
    function GetOrder(): (o: int)
      reads this`order
      ensures o == order
    {
      order
    }

    /**
     * The constructor keeps the approximation, the type and the requested
     * order (which only Bessel reads); the lists start empty. The per-stage
     * counts are those of the concrete topology.
     */
    constructor (ffunc: FilterFunc, ftype: FType, parOrder: int, nr1: int, nc1: int, nop1: int)
      ensures this.ffunc == ffunc && this.ftype == ftype && order == parOrder && GetOrder() == parOrder
      ensures poles == [] && zeros == [] && vecA == [] && vecB == [] && sections == []
      ensures this.nr1 == nr1 && this.nc1 == nc1 && this.nop1 == nop1
      ensures nr == 0 && nc == 0 && nopamp == 0
    {
      this.ffunc := ffunc;
      this.ftype := ftype;
      order := parOrder;
      poles := [];
      zeros := [];
      vecA := [];
      vecB := [];
      sections := [];
      this.nr1 := nr1;
      this.nc1 := nc1;
      this.nop1 := nop1;
      nr := 0;
      nc := 0;
      nopamp := 0;
    }

    /** set_TrFunc: store the denominator and numerator coefficients. */
    method SetTrFunc(a: seq<real>, b: seq<real>)
      modifies this`vecA, this`vecB
      ensures vecA == a && vecB == b
    {
      vecA := a;
      vecB := b;
    }

    /** reformPolesZeros: reform the pole list, then the zero list. */
    method ReformPolesZeros()
      modifies this`poles, this`zeros
      ensures poles == Reformed(old(poles)) && zeros == Reformed(old(zeros))
    {
      poles := ReformList(poles);
      zeros := ReformList(zeros);
    }

    /** Appends pole(k, n) for k = 1 .. n to the pole list. */
    method AppendPoles(n: int, pole: (int, int) -> Complex)
      modifies this`poles
      ensures poles == old(poles) + PoleSweep(n, pole)
    {
      var k := 1;
      while k <= n
        invariant 1 <= k <= Max(n, 0) + 1
        invariant poles == old(poles) + seq(k - 1, j => pole(j + 1, n))
      {
        poles := poles + [pole(k, n)];
        k := k + 1;
      }
    }

    /** calcButterworth: bump for band-stop, check the cap, then one pole per order. */
    method CalcButterworth(estimate: int, pole: (int, int) -> Complex) returns (out: Outcome)
      modifies this`order, this`poles, this`zeros
      ensures Run(out, Engine()) == ButterworthRun(ftype, estimate, pole, old(Engine()))
    {
      var n := estimate;
      OddAgreesWithCpp(n);
      if ftype == BandStop && CppRem(n, 2) != 0 {
        n := n + 1;
      }
      if n > MaxOrder {
        return Fail(TooHighOrder(n));
      }
      poles := [];
      zeros := [];
      AppendPoles(n, pole);
      order := |poles|;
      out := Pass;
    }

    /** calcChebyshev: check the bounds on the estimate, bump for band-stop, then one pole per order. */
    method CalcChebyshev(estimate: int, pole: (int, int) -> Complex) returns (out: Outcome)
      modifies this`order, this`poles, this`zeros
      ensures Run(out, Engine()) == ChebyshevRun(ftype, estimate, pole, old(Engine()))
    {
      var n := estimate;
      if n < 1 {
        return Fail(TooLowOrder(n));
      }
      if n > MaxOrder {
        return Fail(TooHighOrder(n));
      }
      OddAgreesWithCpp(n);
      if ftype == BandStop && CppRem(n, 2) != 0 {
        n := n + 1;
      }
      poles := [];
      zeros := [];
      AppendPoles(n, pole);
      order := |poles|;
      out := Pass;
    }

    /**
     * calcInvChebyshev: store the estimate in order, bump for band filters,
     * check the cap, then order zeros on the imaginary axis and order poles.
     */
    method CalcInvChebyshev(estimate: int, pole: (int, int) -> Complex, zeroIm: (int, int) -> real)
      returns (out: Outcome)
      modifies this`order, this`poles, this`zeros
      ensures Run(out, Engine()) == InvChebyshevRun(ftype, estimate, pole, zeroIm, old(Engine()))
    {
      order := estimate;
      OddAgreesWithCpp(order);
      if (ftype == BandPass || ftype == BandStop) && CppRem(order, 2) != 0 {
        order := order + 1;
      }
      if order > MaxOrder {
        return Fail(TooHighOrder(order));
      }
      var n := order;
      poles := [];
      zeros := [];
      var k := 1;
      while k <= n
        invariant 1 <= k <= Max(n, 0) + 1
        invariant zeros == seq(k - 1, j => Complex(0.0, zeroIm(j + 1, n)))
        invariant poles == [] && order == n
      {
        zeros := zeros + [Complex(0.0, zeroIm(k, n))];
        k := k + 1;
      }
      assert zeros == ZeroSweep(n, zeroIm);
      AppendPoles(n, pole);
      out := Pass;
    }

    /** cauerOrderEstim: store the estimate in order, bumped to even for band filters. */
    method CauerOrderEstim(estimate: int)
      modifies this`order
      ensures order == BandBump(ftype, estimate)
    {
      order := estimate;
      OddAgreesWithCpp(order);
      if (ftype == BandPass || ftype == BandStop) && CppRem(order, 2) != 0 {
        order := order + 1;
      }
    }

    /**
     * calcCauer: estimate the order, check the cap, fill the section arrays
     * aa, bb, cc (50 entries each) for i = 1 .. r, store P0 at index order-1
     * for an odd order, then emit the lists (EmitCauer).
     */
    method CalcCauer(estimate: int, section: (int, int) -> CauerCoeffs, p0: int -> real, root: real -> real)
      returns (out: Outcome)
      requires CauerDefined(ftype, estimate)
      modifies this`order, this`poles, this`zeros
      ensures Run(out, Engine()) == CauerRun(ftype, estimate, section, p0, root, old(Engine()))
    {
      var aa := new real[50];
      var bb := new real[50];
      var cc := new real[50];
      CauerOrderEstim(estimate);
      CheckOrderAcceptsSameEstimates(ftype, estimate);
      if order > MaxOrder {
        return Fail(TooHighOrder(order));
      }
      var n := order;
      var r := CppDiv(n - CppRem(n, 2), 2);
      FillSections(n, r, aa, bb, cc, section, p0);
      EmitCauer(n, r, aa, bb, cc, section, p0, root);
      out := Pass;
    }

    /**
     * The section loop of calcCauer: aa, bb, cc at index i-1 hold section i
     * for i = 1 .. r; for an odd order, cc[order-1] = P0 and bb[order-1] = 0.
     */
    method FillSections(n: int, r: int, aa: array<real>, bb: array<real>, cc: array<real>,
                        section: (int, int) -> CauerCoeffs, p0: int -> real)
      requires aa.Length == 50 && bb.Length == 50 && cc.Length == 50
      requires aa != bb && bb != cc && aa != cc
      requires n <= MaxOrder && (n >= 0 || !Odd(n)) && r == CauerSections(n)
      modifies aa, bb, cc
      ensures r <= 25
      ensures forall j :: 0 <= j < r ==> section(j + 1, n) == CauerCoeffs(aa[j], bb[j], cc[j])
      ensures Odd(n) ==> 1 <= n && cc[n - 1] == p0(n)
    {
      var P0 := p0(n);
      OddAgreesWithCpp(n);
      if n >= 0 {
        CauerSectionsHalf(n);
      }
      var i := 1;
      while i <= r
        invariant 1 <= i <= Max(r, 0) + 1
        invariant forall j :: 0 <= j < i - 1 ==> section(j + 1, n) == CauerCoeffs(aa[j], bb[j], cc[j])
      {
        var c := section(i, n);
        aa[i - 1] := c.aa;
        bb[i - 1] := c.bb;
        cc[i - 1] := c.cc;
        i := i + 1;
      }
      if CppRem(n, 2) != 0 {
        cc[n - 1] := P0;
        bb[n - 1] := 0.0;
      }
    }

    /**
     * The emission loops of calcCauer: for i = 0 .. r-1 the zero (0, sqrt(aa[i]))
     * and the pole (-bb[i]/2, sqrt(4 cc[i] - bb[i]^2)/2); then (-cc[order-1], 0)
     * for an odd order; then the conjugates for i = r-1 down to 0.
     */
    method EmitCauer(n: int, r: int, aa: array<real>, bb: array<real>, cc: array<real>,
                     ghost section: (int, int) -> CauerCoeffs, ghost p0: int -> real, root: real -> real)
      requires aa.Length == 50 && bb.Length == 50 && cc.Length == 50
      requires n <= MaxOrder && (n >= 0 || !Odd(n)) && r == CauerSections(n)
      requires forall j :: 0 <= j < r ==> section(j + 1, n) == CauerCoeffs(aa[j], bb[j], cc[j])
      requires Odd(n) ==> 1 <= n && cc[n - 1] == p0(n)
      modifies this`poles, this`zeros
      ensures poles == CauerLists(n, section, p0, root).poles
      ensures zeros == CauerLists(n, section, p0, root).zeros
    {
      OddAgreesWithCpp(n);
      if n >= 0 {
        CauerSectionsHalf(n);
      }
      ghost var upperPoles := CauerUpperPoles(n, section, root);
      ghost var middle := CauerMiddle(n, p0);
      zeros := [];
      poles := [];
      EmitUpper(n, r, aa, bb, cc, section, root);
      assert poles == upperPoles;
      if CppRem(n, 2) != 0 {
        poles := poles + [Complex(-cc[n - 1], 0.0)];
      }
      assert poles == upperPoles + middle;
      EmitMirror(n, r, aa, bb, cc, section, root);
    }

    /** The first emission loop, appending each section's upper zero and upper pole. */
    method EmitUpper(n: int, r: int, aa: array<real>, bb: array<real>, cc: array<real>,
                     ghost section: (int, int) -> CauerCoeffs, root: real -> real)
      requires aa.Length == 50 && bb.Length == 50 && cc.Length == 50
      requires r == CauerSections(n) && r <= 25
      requires forall j :: 0 <= j < r ==> section(j + 1, n) == CauerCoeffs(aa[j], bb[j], cc[j])
      modifies this`poles, this`zeros
      ensures zeros == old(zeros) + CauerUpperZeros(n, section, root)
      ensures poles == old(poles) + CauerUpperPoles(n, section, root)
    {
      ghost var upperZeros := CauerUpperZeros(n, section, root);
      ghost var upperPoles := CauerUpperPoles(n, section, root);
      var i := 0;
      while i < r
        invariant 0 <= i <= Max(r, 0)
        invariant zeros == old(zeros) + upperZeros[..i] && poles == old(poles) + upperPoles[..i]
      {
        var sec := CauerCoeffs(aa[i], bb[i], cc[i]);
        zeros := zeros + [CauerZero(sec, root)];
        poles := poles + [CauerPole(sec, root)];
        i := i + 1;
      }
    }

    /** The second emission loop, appending the conjugates of the upper zeros and poles, last first. */
    method EmitMirror(n: int, r: int, aa: array<real>, bb: array<real>, cc: array<real>,
                      ghost section: (int, int) -> CauerCoeffs, root: real -> real)
      requires aa.Length == 50 && bb.Length == 50 && cc.Length == 50
      requires r == CauerSections(n) && r <= 25
      requires forall j :: 0 <= j < r ==> section(j + 1, n) == CauerCoeffs(aa[j], bb[j], cc[j])
      modifies this`poles, this`zeros
      ensures zeros == old(zeros) + Mirror(CauerUpperZeros(n, section, root))
      ensures poles == old(poles) + Mirror(CauerUpperPoles(n, section, root))
    {
      ghost var upperZeros := CauerUpperZeros(n, section, root);
      ghost var upperPoles := CauerUpperPoles(n, section, root);
      ghost var m := Max(r, 0);
      ghost var k := 0;
      var i := r - 1;
      while i >= 0
        invariant 0 <= k <= m
        invariant r >= 0 ==> i == m - 1 - k
        invariant r < 0 ==> k == 0 && i < 0
        invariant zeros == old(zeros) + Mirror(upperZeros)[..k]
        invariant poles == old(poles) + Mirror(upperPoles)[..k]
      {
        var sec := CauerCoeffs(aa[i], bb[i], cc[i]);
        MirrorStep(upperZeros, k);
        MirrorStep(upperPoles, k);
        zeros := zeros + [Conj(CauerZero(sec, root))];
        poles := poles + [Conj(CauerPole(sec, root))];
        i := i - 1;
        k := k + 1;
      }
      MirrorAt(upperZeros);
      MirrorAt(upperPoles);
    }

    /**
     * calcBessel: refuse an order outside 1 .. BesselPolesSize-1, read order
     * (re, im) pairs from row order-1 of the table, then reform.
     */
    method CalcBessel() returns (out: Outcome)
      modifies this`poles, this`zeros
      ensures Run(out, Engine()) == BesselRun(old(Engine()))
    {
      if order <= 0 || order >= BesselPolesSize {
        return Fail(InvalidOrder(order));
      }
      zeros := [];
      ReadBesselRow(order);
      ReformPolesZeros();
      out := Pass;
    }

    /** calcBessel's loop: pole i is (BesselPoles[n-1][2i], BesselPoles[n-1][2i+1]). */
    method ReadBesselRow(n: int)
      requires 1 <= n < BesselPolesSize
      modifies this`poles
      ensures poles == BesselRow(n)
    {
      assert BesselPolesSize == 20;
      poles := [];
      var i := 0;
      while i < n
        invariant 0 <= i <= n
        invariant |poles| == i && forall j :: 0 <= j < i ==> poles[j] == BesselRow(n)[j]
      {
        poles := poles + [Complex(Entry(n - 1, 2 * i), Entry(n - 1, 2 * i + 1))];
        i := i + 1;
      }
    }

    /**
     * calcUserTrFunc: refuse missing coefficients, take the larger degree as
     * the order and check the cap, then the roots of the numerator are the
     * zeros and those of the denominator the poles, reformed.
     */
    method CalcUserTrFunc(roots: seq<real> -> seq<Complex>) returns (out: Outcome)
      modifies this`order, this`poles, this`zeros
      ensures Run(out, Engine()) == UserRun(vecA, vecB, roots(vecB), roots(vecA), old(Engine()))
    {
      if |vecA| == 0 || |vecB| == 0 {
        return Fail(MissingCoefficients);
      }
      var aOrder := |vecA| - 1;
      var bOrder := |vecB| - 1;
      order := Max(aOrder, bOrder);
      if order > MaxOrder {
        return Fail(TooHighOrder(order));
      }
      zeros := roots(vecB);
      poles := roots(vecA);
      ReformPolesZeros();
      out := Pass;
    }

    /** calcFilter's first switch: run the engine of ffunc; an unhandled tag raises. */
    method RunEngine(num: Numerics) returns (out: Outcome)
      requires ffunc == Cauer ==> CauerDefined(ftype, num.cauerEstimate)
      modifies this`order, this`poles, this`zeros
      ensures Run(out, Engine()) == EngineRun(ffunc, ftype, num, vecA, vecB, old(Engine()))
    {
      match ffunc {
        case Chebyshev =>
          out := CalcChebyshev(num.chebyshevEstimate, num.chebyshevPole);
        case Butterworth =>
          out := CalcButterworth(num.butterworthEstimate, num.butterworthPole);
        case Cauer =>
          out := CalcCauer(num.cauerEstimate, num.cauerSection, num.cauerP0, num.sqrt);
        case InvChebyshev =>
          out := CalcInvChebyshev(num.invChebyshevEstimate, num.invChebyshevPole, num.invChebyshevZero);
        case Bessel =>
          out := CalcBessel();
        case User =>
          out := CalcUserTrFunc(num.roots);
        case NoFunc =>
          out := Fail(UnknownFunction);
      }
    }

    /**
     * calcFilter, with the stage realisation of the concrete topology given
     * by num.stages. A Cauer design needs an estimate whose bumped order is
     * not negative and odd.
     */
    method CalcFilter(num: Numerics) returns (out: Outcome)
      requires ffunc == Cauer ==> CauerDefined(ftype, num.cauerEstimate)
      modifies this`order, this`poles, this`zeros, this`sections, this`nr, this`nc, this`nopamp
      ensures FilterResult(out, Snapshot()) == FilterRun(ffunc, ftype, num, vecA, vecB, nr1, nc1, nop1, old(Snapshot()))
    {
      sections := [];
      poles := [];
      zeros := [];
      out := RunEngine(num);
      out := Finish(out, num.stages, old(Snapshot()));
    }

    /**
     * calcFilter after the engine's switch: the checks on the lists, the
     * stage switch, checkRCL and the counters.
     */
    method Finish(engineOut: Outcome, stages: (FType, State) -> seq<RCElements>, ghost d: Design)
      returns (out: Outcome)
      requires sections == [] && nr == d.nr && nc == d.nc && nopamp == d.nopamp
      modifies this`sections, this`nr, this`nc, this`nopamp
      ensures FilterResult(out, Snapshot()) == Validate(ffunc, ftype, stages, Run(engineOut, Engine()), nr1, nc1, nop1, d)
    {
      out := engineOut;
      if out.Fail? {
        return;
      }
      if |poles| == 0 {
        return Fail(NoPoles);
      }
      if |zeros| == 0 {
        if ffunc == Cauer {
          return Fail(NoZeros(Cauer));
        }
        if ffunc == InvChebyshev {
          return Fail(NoZeros(InvChebyshev));
        }
      }
      match ftype {
        case LowPass =>
          sections := sections + stages(LowPass, Engine());
        case HighPass =>
          sections := sections + stages(HighPass, Engine());
        case BandPass =>
          sections := sections + stages(BandPass, Engine());
        case BandStop =>
          sections := sections + stages(BandStop, Engine());
        case NoFilter =>
          return Fail(UnknownType);
      }
      assert sections == stages(ftype, Engine());
      out := CheckRCL(sections);
      if out.Fail? {
        return;
      }
      SetCounters();
    }

    /** calcFilter's last step: the component totals from the per-stage counts and the order. */
    method SetCounters()
      modifies this`nr, this`nc, this`nopamp
      ensures Snapshot() == Counted(old(Snapshot()), nr1, nc1, nop1)
    {
      nr := nr1 * CppDiv(order, 2);
      nc := nc1 * CppDiv(order, 2);
      nopamp := CppDiv(nop1 * order, 2);
    }
  }
}
