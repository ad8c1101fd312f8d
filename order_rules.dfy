/**
 * Order post-processing of the approximation engines: the even-order bump for
 * band filters and the checks against MaxOrder (and, for Chebyshev, against 1).
 * Each engine takes its estimated order (the ceil/round of a floating-point
 * formula) as an integer and either accepts an order or raises.
 */
module OrderRules {
  import opened FilterTypes

  /**
   * calcButterworth and calcChebyshev: an odd order is bumped to the next even
   * one, for band-stop filters only (`if (N%2!=0) N++`).
   */
  function BandStopBump(t: FType, n: int): (r: int)
    ensures n <= r <= n + 1
    ensures t == BandStop ==> !Odd(r)
    ensures t != BandStop || !Odd(n) ==> r == n
  {
    if t == BandStop && Odd(n) then n + 1 else n
  }

  /**
   * calcInvChebyshev and cauerOrderEstim: an odd order is bumped to the next
   * even one, for band-pass and band-stop filters.
   */
  function BandBump(t: FType, n: int): (r: int)
    ensures n <= r <= n + 1
    ensures t == BandPass || t == BandStop ==> !Odd(r)
    ensures (t != BandPass && t != BandStop) || !Odd(n) ==> r == n
  {
    if (t == BandPass || t == BandStop) && Odd(n) then n + 1 else n
  }

  /** calcButterworth: bump first, then refuse an order above MaxOrder, naming the bumped order. */
  function ButterworthOrder(t: FType, estimate: int): (r: Result<int>)
    ensures r.Ok? <==> estimate <= MaxOrder
    ensures r.Ok? ==> r.value == BandStopBump(t, estimate) <= MaxOrder
    ensures r.Err? ==> r.error == TooHighOrder(BandStopBump(t, estimate)) && r.error.order > MaxOrder
  {
    var n := BandStopBump(t, estimate);
    if n > MaxOrder then Err(TooHighOrder(n)) else Ok(n)
  }

  /**
   * calcChebyshev: refuse an estimate below 1 or above MaxOrder first, then
   * bump; the errors name the unbumped estimate.
   */
  function ChebyshevOrder(t: FType, estimate: int): (r: Result<int>)
    ensures r.Ok? <==> 1 <= estimate <= MaxOrder
    ensures r.Ok? ==> 1 <= r.value == BandStopBump(t, estimate) <= MaxOrder
    ensures r.Err? ==> r.error == (if estimate < 1 then TooLowOrder(estimate) else TooHighOrder(estimate))
  {
    if estimate < 1 then Err(TooLowOrder(estimate))
    else if estimate > MaxOrder then Err(TooHighOrder(estimate))
    else Ok(BandStopBump(t, estimate))
  }

  /**
   * calcInvChebyshev and calcCauer: the order field becomes the bumped
   * estimate, then an order above MaxOrder is refused. There is no lower bound.
   */
  function BandOrder(t: FType, estimate: int): (r: Result<int>)
    ensures r.Ok? <==> estimate <= MaxOrder
    ensures r.Ok? ==> r.value == BandBump(t, estimate) <= MaxOrder
    ensures r.Err? ==> r.error == TooHighOrder(BandBump(t, estimate)) && r.error.order > MaxOrder
  {
    var n := BandBump(t, estimate);
    if n > MaxOrder then Err(TooHighOrder(n)) else Ok(n)
  }

  /**
   * Both bumps add exactly one, and only to an odd order of a type they
   * apply to; low-pass and high-pass orders are never changed, and an order
   * of a type a bump applies to comes out even.
   */
  lemma BumpFacts(t: FType, n: int)
    ensures BandStopBump(t, n) == n || (BandStopBump(t, n) == n + 1 && t == BandStop && Odd(n))
    ensures BandBump(t, n) == n || (BandBump(t, n) == n + 1 && (t == BandPass || t == BandStop) && Odd(n))
    ensures t == BandStop ==> !Odd(BandStopBump(t, n))
    ensures t == BandPass || t == BandStop ==> !Odd(BandBump(t, n))
    ensures t == LowPass || t == HighPass ==> BandStopBump(t, n) == n && BandBump(t, n) == n
    ensures t == BandPass ==> BandStopBump(t, n) == n
  {
  }

  /** Every engine accepts only orders up to MaxOrder, and Chebyshev only from 1 on. */
  lemma AcceptedOrderBounds(t: FType, estimate: int)
    ensures ButterworthOrder(t, estimate).Ok? ==> ButterworthOrder(t, estimate).value <= MaxOrder
    ensures ChebyshevOrder(t, estimate).Ok? ==> 1 <= ChebyshevOrder(t, estimate).value <= MaxOrder
    ensures BandOrder(t, estimate).Ok? ==> BandOrder(t, estimate).value <= MaxOrder
  {
  }

  /**
   * Band-stop Butterworth and Chebyshev orders, and band-pass and band-stop
   * inverse-Chebyshev and Cauer orders, are even once accepted.
   */
  lemma AcceptedOrderEven(t: FType, estimate: int)
    ensures t == BandStop && ButterworthOrder(t, estimate).Ok? ==> !Odd(ButterworthOrder(t, estimate).value)
    ensures t == BandStop && ChebyshevOrder(t, estimate).Ok? ==> !Odd(ChebyshevOrder(t, estimate).value)
    ensures (t == BandPass || t == BandStop) && BandOrder(t, estimate).Ok? ==> !Odd(BandOrder(t, estimate).value)
  {
  }

  /**
   * Because MaxOrder is even, checking the cap before or after the bump
   * accepts the same estimates: exactly those up to MaxOrder (and, for
   * Chebyshev, from 1 on).
   */
  lemma CheckOrderAcceptsSameEstimates(t: FType, estimate: int)
    ensures ButterworthOrder(t, estimate).Ok? <==> estimate <= MaxOrder
    ensures BandOrder(t, estimate).Ok? <==> estimate <= MaxOrder
    ensures ChebyshevOrder(t, estimate).Ok? <==> 1 <= estimate <= MaxOrder
    ensures ButterworthOrder(t, estimate).Ok? ==> ButterworthOrder(t, estimate).value == BandStopBump(t, estimate)
    ensures ChebyshevOrder(t, estimate).Ok? ==> ChebyshevOrder(t, estimate).value == BandStopBump(t, estimate)
    ensures BandOrder(t, estimate).Ok? ==> BandOrder(t, estimate).value == BandBump(t, estimate)
  {
  }

  /**
   * The order of the checks shows in the error: an estimate of 51 for a
   * band-stop filter is reported as 52 by Butterworth, which bumps first,
   * and as 51 by Chebyshev, which checks first.
   */
  lemma TooHighReportsDiffer()
    ensures ButterworthOrder(BandStop, 51) == Err(TooHighOrder(52))
    ensures ChebyshevOrder(BandStop, 51) == Err(TooHighOrder(51))
    ensures BandOrder(BandPass, 51) == Err(TooHighOrder(52))
    ensures ButterworthOrder(LowPass, 51) == Err(TooHighOrder(51))
  {
  }
}
