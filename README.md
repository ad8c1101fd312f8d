# Active-filter synthesis core, modelled in Dafny

This project models the discrete skeleton of the `Filter` class of the Qucs
active-filter designer (`qucs-activefilter`), together with the Bessel pole
table it reads.

A `Filter` takes an approximation (Butterworth, Chebyshev, inverse Chebyshev,
Cauer, Bessel or a user-defined transfer function) and a response type
(low-pass, high-pass, band-pass, band-stop). `calcFilter` then does four things:

1. It clears the stage, pole and zero lists.
2. It runs the approximation engine. The engine sets the filter `order` and
   fills the pole and zero lists.
3. It validates the engine's output and realises the stages for the response
   type.
4. It checks the component values for NaN and counts the resistors, capacitors
   and op-amps.

The part list shows component values with a unit prefix chosen by
`autoscaleResistor` and `autoscaleCapacitor`.

The floating-point formulas are parameters of the model. These are the order
estimates, the pole and zero trigonometry, the Cauer nome series, `sqrt`, the
polynomial root finder and the topology's stage realisation. Everything
discrete is modelled and proved:

- the order bumps and caps;
- how many poles and zeros each engine emits, and where;
- the reform permutation;
- the Bessel table's shape;
- the calcFilter checks and counters;
- the unit scaling.

Files:

- `filter_types.dfy` (module `FilterTypes`): the enums, complex values, the
  `RC_elements` record and its defaults, the error kinds, and C++ truncating
  division.
- `order_rules.dfy` (module `OrderRules`): the per-engine order bump and the
  checks against `MaxOrder`.
- `bessel_table.dfy` (module `BesselTable`): the `BesselPoles` table and
  `BesselPolesSize`, with the table's proved shape.
- `reform.dfy` (module `Reform`): `reformPolesZeros` as a function on lists
  and as a loop.
- `engines.dfy` (module `Engines`): what each engine does to `order` and the
  lists, as functions of the old state.
- `components.dfy` (module `Components`): the autoscaling, the part-list
  cells, and `checkRCL`.
- `filter.dfy` (module `ActiveFilter`): the `Filter` class, whose methods are
  proved to produce the engine runs, and `calcFilter` as a whole.

C++ exceptions are an `Outcome`: `Pass`, or `Fail` with a `FilterError`.
Fields assigned before a throw keep their new values, as in the source. For
example, `calcInvChebyshev`, `calcCauer` and `calcUserTrFunc` store the new
order before checking it against `MaxOrder`.

## Model

| member | source | states |
|---|---|---|
| `FilterTypes.OddAgreesWithCpp` | qucs-activefilter/filter.cpp:537-539 | `n%2 != 0` under C++ truncation holds exactly for odd n, negative n included; the remainder is -1, 0 or 1 by sign and parity |
| `FilterTypes.CppDivNonNegative` | qucs-activefilter/filter.cpp:180-182 | for non-negative operands, C++ division and remainder agree with Euclidean ones |
| `FilterTypes.CppHalf` | qucs-activefilter/filter.cpp:647 | halving truncates toward zero: it never grows the magnitude, loses less than one, and rounds negative odd numbers up (so a negative even Cauer order has no sections) |
| `FilterTypes.DefaultElements` | qucs-activefilter/filter.h:28-39 | a default stage is number 0 with gain 0; R1..R6 are +inf and C1, C2 are 0, so no field is NaN |
| `OrderRules.BumpFacts` | qucs-activefilter/filter.cpp:509-511 | the bumps add exactly one, only to odd orders of the types they apply to (band-stop for Butterworth/Chebyshev, band-pass and band-stop for inverse Chebyshev/Cauer); low-pass and high-pass are never bumped; bumped orders are even |
| `OrderRules.AcceptedOrderBounds` | qucs-activefilter/filter.cpp:495-507 | every accepted order is at most 50; a Chebyshev order is also at least 1 |
| `OrderRules.AcceptedOrderEven` | qucs-activefilter/filter.cpp:564-566 | accepted orders are even for the types whose engine bumps |
| `OrderRules.CheckOrderAcceptsSameEstimates` | qucs-activefilter/filter.cpp:537-543 | checking the cap before or after the bump accepts the same estimates (those up to 50, and from 1 for Chebyshev), and the accepted order is the bumped estimate |
| `OrderRules.TooHighReportsDiffer` | qucs-activefilter/filter.cpp:505-511 | Chebyshev, which checks before bumping, reports the unbumped estimate 51; Butterworth and the band engines report 52 |
| `OrderRules.BandStopBump` | qucs-activefilter/filter.cpp:509-511 | the result is n or n+1; band-stop results are even; other types and even n are left as they are |
| `OrderRules.BandBump` | qucs-activefilter/filter.cpp:564-566 | the result is n or n+1; band-pass and band-stop results are even; other types and even n are left as they are |
| `OrderRules.ButterworthOrder` | qucs-activefilter/filter.cpp:537-543 | accepts exactly the estimates ≤ 50, as the bumped order; otherwise a too-high error naming the bumped order, which exceeds 50 |
| `OrderRules.ChebyshevOrder` | qucs-activefilter/filter.cpp:495-511 | accepts exactly the estimates 1..50, as the bumped order in 1..50; below 1 a too-low error, above 50 a too-high error, both naming the unbumped estimate |
| `OrderRules.BandOrder` | qucs-activefilter/filter.cpp:562-570 | accepts exactly the estimates ≤ 50, as the bumped order; otherwise a too-high error naming the bumped order, which exceeds 50 |
| `BesselTable.BesselRowLengths` | qucs-activefilter/bessel.h:9-73 | the table has 20 rows; row n-1 lists 2n values, except row 18, which lists 39 values ending in 0.0 |
| `BesselTable.BesselRowChecked` | qucs-activefilter/bessel.h:11-70 | each row lies within width 40 and is zero-padded; its poles are stable and paired as adjacent conjugates; it has exactly n mod 2 real poles |
| `BesselTable.BesselTableShape` | qucs-activefilter/bessel.h:9-73 | BesselPolesSize is 20; every row holds its 2n values within the declared width 40; every entry past them reads as 0.0 |
| `BesselTable.BesselPolesStable` | qucs-activefilter/bessel.h:11-70 | every tabulated pole has a strictly negative real part |
| `BesselTable.BesselPolesConjugate` | qucs-activefilter/bessel.h:14-70 | non-real poles come as adjacent conjugate pairs; each row's imaginary parts sum to 0; odd orders have exactly one real pole and even orders none |
| `BesselTable.BesselLowOrders` | qucs-activefilter/bessel.h:11-16 | order 1 is exactly (-1, 0); order 2 is exactly (-1.5, ±0.866025) |
| `BesselTable.StableFromAll` | qucs-activefilter/bessel.h:11-70 | the recursive stability scan implies every pole from i on is stable |
| `BesselTable.PairedImagSum` | qucs-activefilter/bessel.h:14-70 | a conjugate-paired suffix has imaginary parts summing to 0 |
| `BesselTable.PairedRealParity` | qucs-activefilter/bessel.h:11-70 | in a conjugate-paired suffix, the parity of the real-pole count is the parity of its length |
| `BesselTable.BesselRow` | qucs-activefilter/filter.cpp:720-722 | the n poles calcBessel reads from row n-1 as (re, im) pairs; its length is n |
| `Reform.SwapPrefixAt` | qucs-activefilter/filter.cpp:764-769 | after k rounds, position j holds the entry from its mirror exactly when j or its mirror is an odd index below k |
| `Reform.ReformedAt` | qucs-activefilter/filter.cpp:759-774 | reform moves exactly the odd indices i < Np/2 and their mirrors Np-1-i, each to the other's place; every other entry stays put |
| `Reform.ReformIndexInvolution` | qucs-activefilter/filter.cpp:764-769 | the position mapping is its own inverse |
| `Reform.ReformedInvolution` | qucs-activefilter/filter.cpp:759-774 | reforming twice restores the list |
| `Reform.ReformedPermutes` | qucs-activefilter/filter.cpp:759-774 | reform keeps the length and the multiset of entries |
| `Reform.SwapPrefixPermutes` | qucs-activefilter/filter.cpp:768 | every round of the loop only exchanges entries |
| `Reform.ReformedShort` | qucs-activefilter/filter.cpp:764-767 | lists of up to three entries are unchanged |
| `Reform.ReformedFixed` | qucs-activefilter/filter.cpp:764-767 | the first and last entries never move, nor do even positions of the first half or their mirrors |
| `Reform.ReformedExamples` | qucs-activefilter/filter.cpp:759-774 | 4, 6 and 8 entries come out as [a,c,b,d], [a,e,c,d,b,f] and [a,g,c,e,d,f,b,h] |
| `Reform.ReformList` | qucs-activefilter/filter.cpp:761-770 | the in-place swap loop computes the reform function, so it preserves length and multiset |
| `Reform.Reformed` | qucs-activefilter/filter.cpp:759-774 | the list after all Np/2 rounds, of the same length (its contents: ReformedAt) |
| `Reform.SwapPrefix` | qucs-activefilter/filter.cpp:764-769 | the list after the first k rounds, of the same length (its contents: SwapPrefixAt) |
| `Engines.ButterworthChebyshevShape` | qucs-activefilter/filter.cpp:487-556 | Butterworth passes iff the estimate is ≤ 50, Chebyshev iff it is in 1..50; a failure leaves the state unchanged; a pass gives N poles with pole(k, N) at index k-1, no zeros, and order = pole count |
| `Engines.InvChebyshevShape` | qucs-activefilter/filter.cpp:558-592 | order becomes the bumped estimate even when refused; a pass gives N zeros (0, im) and N poles in loop order, without reform |
| `Engines.CauerSectionsHalf` | qucs-activefilter/filter.cpp:647 | r = (order - order%2)/2 is order/2 for order ≥ 0 |
| `Engines.MirrorAt` | qucs-activefilter/filter.cpp:702-708 | entry j of the mirrored half is the conjugate of upper entry r-1-j; mirroring twice is the identity |
| `Engines.MirroredLayout` | qucs-activefilter/filter.cpp:687-708 | upper half, optional middle, then the mirror: entry j and entry n-1-j are conjugates, except the middle |
| `Engines.CauerOrder` | qucs-activefilter/filter.cpp:594-619 | calcCauer stores the bumped estimate in order, refuses exactly the estimates above 50, and on refusal leaves the lists unchanged |
| `Engines.CauerLayout` | qucs-activefilter/filter.cpp:687-708 | with r = order/2: 2r zeros and `order` poles; zero j is (0, sqrt aa) and zero 2r-1-j its conjugate; poles mirror around the real pole (-P0, 0) at index r for odd orders |
| `Engines.CauerFirstOrderHasNoZeros` | qucs-activefilter/filter.cpp:682-700 | order 1 gives the single pole (-P0, 0) and no zeros |
| `Engines.BesselShape` | qucs-activefilter/filter.cpp:711-725 | passes iff 1 ≤ order ≤ 19; a refusal changes nothing; a pass gives `order` stable poles forming a permutation of the table row, and no zeros |
| `Engines.BesselOrderTwentyRefused` | qucs-activefilter/filter.cpp:713 | order 20 is refused although the table has a row for it |
| `Engines.UserShape` | qucs-activefilter/filter.cpp:727-757 | empty coefficients raise and change nothing; otherwise order = max degree, stored even when above 50; a pass keeps both root lists as multisets, reformed |
| `Engines.ButterworthRun` | qucs-activefilter/filter.cpp:529-556 | passes iff the estimate is ≤ 50; a raise changes nothing; a pass sets order to the pole count, at most 50, with no zeros |
| `Engines.ChebyshevRun` | qucs-activefilter/filter.cpp:487-527 | passes iff the estimate is in 1..50; a raise changes nothing; a pass sets order to the pole count, in 1..50, with no zeros |
| `Engines.InvChebyshevRun` | qucs-activefilter/filter.cpp:558-592 | order becomes the bumped estimate in every case; passes iff the estimate is ≤ 50; a raise keeps the lists; a pass has max(order, 0) poles and as many zeros |
| `Engines.CauerRun` | qucs-activefilter/filter.cpp:594-709 | order becomes the bumped estimate in every case; passes iff the estimate is ≤ 50; a raise keeps the lists |
| `Engines.CauerLists` | qucs-activefilter/filter.cpp:687-708 | keeps the order; 2·max(r, 0) zeros, and as many poles plus one for an odd order |
| `Engines.CauerPoleCount` | qucs-activefilter/filter.cpp:647-708 | every admitted order n emits max(n, 0) poles: n for n ≥ 0 and none for a negative even n |
| `Engines.BesselRun` | qucs-activefilter/filter.cpp:711-725 | passes iff 0 < order < BesselPolesSize; a raise names the order and changes nothing; a pass keeps the order, with that many poles and no zeros |
| `Engines.UserRun` | qucs-activefilter/filter.cpp:727-757 | passes iff both coefficient lists are non-empty and the larger degree is ≤ 50; order is that degree whenever both are non-empty; a raise keeps the lists; a pass has one pole per denominator root and one zero per numerator root |
| `Components.AutoscaleResistor` | qucs-activefilter/filter.cpp:417-437 | +inf returns unchanged with no prefix; a finite R (kΩ) gets "M" iff R ≥ 1000, "k" iff 1 ≤ R < 1000 (value R), else ""; value × prefix multiplier = R in ohms |
| `Components.AutoscaleCapacitor` | qucs-activefilter/filter.cpp:439-455 | a finite C (µF) gets "u" iff C ≥ 1 (value C), "n" iff 0.001 ≤ C < 1, else "p"; value × multiplier = C in farads; +inf is "u", NaN and -inf are "p" |
| `Components.ResistorCell` | qucs-activefilter/filter.cpp:292-302 | +inf is "not used", 0 is "short", anything else is shown autoscaled |
| `Components.CapacitorCell` | qucs-activefilter/filter.cpp:284-291 | 0 is "not used", anything else is shown autoscaled |
| `Components.DefaultStageNotUsed` | qucs-activefilter/filter.h:28-39 | a default stage has N = 0 and Au = 0; all six resistors and both capacitors show "not used"; none is NaN |
| `Components.FirstNaN` | qucs-activefilter/filter.cpp:460-483 | names the first NaN field in R1..R6, C1, C2 order, with none before it; None iff there is no NaN |
| `Components.CheckRCL` | qucs-activefilter/filter.cpp:457-485 | passes iff no stage holds a NaN; a failure is an invalid-value error |
| `Components.CheckRCLNamesFirstNaN` | qucs-activefilter/filter.cpp:459-484 | a failure names the first NaN field of the first stage that holds one |
| `ActiveFilter.EngineOrderBound` | qucs-activefilter/filter.cpp:126-144 | every engine that passes has a known tag and leaves an order ≤ 50 |
| `ActiveFilter.EnginePoleCount` | qucs-activefilter/filter.cpp:487-725 | every engine except the user-defined one that passes leaves max(order, 0) poles |
| `ActiveFilter.CalcFilterGuarantees` | qucs-activefilter/filter.cpp:117-183 | a pass implies: known tags; at least one pole; zeros for Cauer and inverse Chebyshev; order ≤ 50; for every engine but the user-defined one, 1 ≤ order = pole count; NaN-free stages realised from the engine's lists; Nr = Nr1·(order/2), Nc = Nc1·(order/2), Nopamp = Nop1·order/2. A raise keeps the counters |
| `ActiveFilter.CalcFilterUserOrder` | qucs-activefilter/filter.cpp:727-757 | with a root finder returning one root per degree, a passing user-defined design has 1 ≤ order ≤ 50, as many poles as the denominator's degree and as many zeros as the numerator's, both at most the order |
| `ActiveFilter.CalcFilterUnknownTags` | qucs-activefilter/filter.cpp:142-174 | NoFunc raises before any engine runs, leaving cleared lists; NoFilter never passes and realises no stage |
| `ActiveFilter.NopampRounding` | qucs-activefilter/filter.cpp:180-182 | Nop1·order/2 exceeds Nop1·(order/2) by Nop1/2 exactly for odd orders (order 3, Nop1 2: 3 vs 2) |
| `ActiveFilter.CalcFilterDegenerateOrders` | qucs-activefilter/filter.cpp:147-158 | Butterworth or inverse Chebyshev orders ≤ 0 end in "no poles"; first-order Cauer ends in "no zeros" |
| `ActiveFilter.CalcFilterBessel` | qucs-activefilter/filter.cpp:117-183 | Bessel raises an invalid order outside 1..19; inside, it has `order` poles and no zeros, and passes iff the type is known and the stages are NaN-free |
| `ActiveFilter.FilterRun` | qucs-activefilter/filter.cpp:117-183 | NoFunc raises with the lists cleared; a pass has known tags and at least one pole; a raise keeps the counters |
| `ActiveFilter.Validate` | qucs-activefilter/filter.cpp:147-183 | keeps the engine's order and lists; passes iff the engine passed, there is a pole, there is a zero for Cauer and inverse Chebyshev, the type is known and the realised stages are NaN-free; a pass stores those stages; a raise keeps the counters |
| `ActiveFilter.Counted` | qucs-activefilter/filter.cpp:180-182 | changes only the counters; Nr = Nr1·(order/2) and Nc = Nc1·(order/2), halving toward zero for negative orders too |
| `ActiveFilter.Filter.constructor` | qucs-activefilter/filter.cpp:35-70 | keeps approximation, type and requested order; lists start empty |
| `ActiveFilter.Filter.GetOrder` | qucs-activefilter/filter.h:122-125 | returns the order field, which is the requested order right after construction |
| `ActiveFilter.Filter.SetTrFunc` | qucs-activefilter/filter.cpp:776-780 | stores the denominator and numerator coefficients |
| `ActiveFilter.Filter.ReformPolesZeros` | qucs-activefilter/filter.cpp:759-774 | poles and zeros become their reformed lists |
| `ActiveFilter.Filter.AppendPoles` | qucs-activefilter/filter.cpp:548-553 | appends pole(k, N) for k = 1..N |
| `ActiveFilter.Filter.CalcButterworth` | qucs-activefilter/filter.cpp:529-556 | the new order/poles/zeros and outcome are exactly the Butterworth run of the old state |
| `ActiveFilter.Filter.CalcChebyshev` | qucs-activefilter/filter.cpp:487-527 | the new state and outcome are exactly the Chebyshev run |
| `ActiveFilter.Filter.CalcInvChebyshev` | qucs-activefilter/filter.cpp:558-592 | the new state and outcome are exactly the inverse-Chebyshev run |
| `ActiveFilter.Filter.CauerOrderEstim` | qucs-activefilter/filter.cpp:594-606 | order becomes the estimate bumped to even for band filters |
| `ActiveFilter.Filter.CalcCauer` | qucs-activefilter/filter.cpp:608-709 | the new state and outcome are exactly the Cauer run; every aa/bb/cc index stays inside the 50-entry arrays |
| `ActiveFilter.Filter.FillSections` | qucs-activefilter/filter.cpp:650-685 | aa/bb/cc[i-1] hold section i for i = 1..r, with r ≤ 25; for odd orders, cc[order-1] = P0 |
| `ActiveFilter.Filter.EmitCauer` | qucs-activefilter/filter.cpp:687-708 | the emitted lists are the Cauer layout |
| `ActiveFilter.Filter.EmitUpper` | qucs-activefilter/filter.cpp:690-696 | appends the r upper zeros and poles |
| `ActiveFilter.Filter.EmitMirror` | qucs-activefilter/filter.cpp:702-708 | appends the conjugates of the upper zeros and poles, last first |
| `ActiveFilter.Filter.CalcBessel` | qucs-activefilter/filter.cpp:711-725 | the new state and outcome are exactly the Bessel run: orders outside 1..19 raise with the lists untouched, otherwise the table row is read and reformed |
| `ActiveFilter.Filter.ReadBesselRow` | qucs-activefilter/filter.cpp:717-722 | the poles become row n-1 of the table read as n (re, im) pairs |
| `ActiveFilter.Filter.CalcUserTrFunc` | qucs-activefilter/filter.cpp:727-757 | the new state and outcome are exactly the user-function run |
| `ActiveFilter.Filter.RunEngine` | qucs-activefilter/filter.cpp:126-145 | runs the engine for the approximation tag; NoFunc raises |
| `ActiveFilter.Filter.CalcFilter` | qucs-activefilter/filter.cpp:117-183 | the new fields and outcome are exactly those of the calcFilter pipeline on the old ones |
| `ActiveFilter.Filter.Finish` | qucs-activefilter/filter.cpp:147-183 | the post-engine checks, stage switch, checkRCL and counters follow the pipeline |
| `ActiveFilter.Filter.SetCounters` | qucs-activefilter/filter.cpp:180-182 | the counters become those Counted prescribes; nothing else changes |

The table itself is the constant `BesselTable.BesselPoles` (bessel.h:9-71).
`BesselTable.BesselPolesSize` (bessel.h:73) is its row count. Constants carry
no contract; their content is stated by `BesselRowLengths`,
`BesselTableShape` and the lemmas after them.

## Left out

- Floating-point formulas are parameters (the `Numerics` datatype), not
  computed:
  - the order estimates (`ceil`/`round` of `log10`, `acosh`, `pow`), which
    enter as integers;
  - pole and zero trigonometry, as functions of (k, N);
  - the Cauer nome series and section coefficients `aa`/`bb`/`cc`, and `P0`;
  - `sqrt`.
- Arithmetic is exact. The narrowing of coordinates to `std::complex<float>`
  and the rounding of the autoscale products are not modelled.
- `Components.AutoscaleResistor`, `Components.AutoscaleCapacitor`: these are
  stated over exact reals. In doubles, `R*1e3*1e-6` need not equal `R/1000`
  exactly, so the "value × multiplier" equalities hold only up to rounding.
- CalcFilterGuarantees: for the user-defined transfer function it does not
  tie the order to the poles, because the root finder is a parameter and may
  return any list. `ActiveFilter.CalcFilterUserOrder` states the tie for a
  root finder that returns one root per degree.
- Root finding: `qf_poly` is not part of this model. The root finder is a
  function from a coefficient list to a list of roots. Its result becomes the
  new pole or zero list. This is the same as appending, because `calcFilter`
  has just cleared both lists.
- The constructor's band-to-low-pass prototype transform (`Fc`, `Fs`, `Ap`,
  `Q`, …) and its debug output are not modelled. The constructor keeps only
  the tags and the requested order.
- The constructor leaves `Nr`, `Nc` and `Nopamp` uninitialised in C++; the
  model starts them at 0.
- The per-stage counts `Nr1`, `Nc1`, `Nop1` are set by the topology
  subclasses; here they are constructor parameters.
- The topology subclasses (Sallen-Key, multiple feedback) are not modelled.
  Their `calcLowPass` … `calcBandStop` overrides are a stage-realisation
  parameter: a function of the type and the engine's result. The base
  class's empty versions correspond to a function returning no stages.
- The schematic, part-list and pole/zero-list text generation are not
  modelled. Only the part list's choice between "not used", "short" and a
  scaled value is modelled. `calcFirstOrder` is not modelled either.
- Error messages: each throw site is an error kind, without its text.
- `ActiveFilter.Filter.CalcCauer`: calcCauer writes `cc[order-1]` for an odd
  order, which is outside the array for a negative odd order. So the model
  requires the bumped estimate not to be negative and odd
  (`CauerDefined`), and `ActiveFilter.Filter.CalcFilter` requires the same
  for Cauer designs.
