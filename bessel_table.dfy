/**
 * The Bessel prototype table: normalised pole coordinates for orders 1 to 20,
 * stored as in the C header, one row of (re, im) pairs per order, and the
 * facts about it that the Bessel engine relies on.
 */
module BesselTable {
  import opened FilterTypes

  /** The declared width of every row of the C array, BesselPoles[][40]. */
  const BesselWidth: int := 40

  /**
   * The listed initialisers of BesselPoles; row n-1 belongs to order n and
   * lists its n poles as re, im, re, im, ... C fills every entry past the
   * listed ones with 0.0 (see Entry). The row for order 19 lists one trailing
   * 0.0 beyond its 19 poles. Longer rows are written as pieces of five poles
   * joined by +, which keeps the verifier's evaluation of them shallow; the
   * joined row is the initialiser list.
   */
  const BesselPoles: seq<seq<real>> := [
    /* order 1 */ [-1.000000, 0.000000],
    /* order 2 */ [-1.500000, 0.866025, -1.500000, -0.866025],
    /* order 3 */ [-1.838907, 1.754381, -1.838907, -1.754381, -2.322185, 0.000000],
    /* order 4 */ [-2.103789, 2.657418, -2.103789, -2.657418, -2.896211, 0.867234, -2.896211, -0.867234],
    /* order 5 */ [-2.324674, 3.571023, -2.324674, -3.571023, -3.646739, 0.000000, -3.351956, 1.742661, -3.351956, -1.742661],
    /* order 6 */ [-2.515932, 4.492673, -2.515932, -4.492673, -3.735708, 2.626272, -3.735708, -2.626272, -4.248359, 0.867510] + [-4.248359, -0.867510],
    /* order 7 */ [-2.685677, 5.420694, -2.685677, -5.420694, -4.070139, 3.517174, -4.070139, -3.517174, -4.971787, 0.000000] + [-4.758291, 1.739286, -4.758291, -1.739286],
    /* order 8 */ [-2.838984, 6.353911, -2.838984, -6.353911, -4.368289, 4.414443, -4.368289, -4.414443, -5.204841, 2.616175] + [-5.204841, -2.616175, -5.587886, 0.867614, -5.587886, -0.867614],
    /* order 9 */ [-2.979261, 7.291464, -2.979261, -7.291464, -4.638440, 5.317272, -4.638440, -5.317272, -5.604422, 3.498157] + [-5.604422, -3.498157, -6.297019, 0.000000, -6.129368, 1.737848, -6.129368, -1.737848],
    /* order 10 */ [-3.108916, 8.232699, -3.108916, -8.232699, -4.886220, 6.224985, -4.886220, -6.224985, -5.967528, 4.384947] + [-5.967528, -4.384947, -6.615291, 2.611568, -6.615291, -2.611568, -6.922045, 0.867665, -6.922045, -0.867665],
    /* order 11 */ [-3.229722, 9.177112, -3.229722, -9.177112, -5.115648, 7.137021, -5.115648, -7.137021, -6.301337, 5.276192] + [-6.301337, -5.276192, -7.057892, 3.489015, -7.057892, -3.489015, -7.622340, 0.000000, -7.484230, 1.737103] + [-7.484230, -1.737103],
    /* order 12 */ [-3.343023, 10.124297, -3.343023, -10.124297, -5.329709, 8.052907, -5.329709, -8.052907, -6.611004, 6.171535] + [-6.611004, -6.171535, -7.465571, 4.370170, -7.465571, -4.370170, -7.997271, 2.609067, -7.997271, -2.609067] + [-8.253422, 0.867694, -8.253422, -0.867694],
    /* order 13 */ [-3.449867, 11.073929, -3.449867, -11.073929, -5.530681, 8.972248, -5.530681, -8.972248, -6.900373, 7.070644] + [-6.900373, -7.070644, -7.844380, 5.254903, -7.844380, -5.254903, -8.470592, 3.483868, -8.470592, -3.483868] + [-8.947710, 0.000000, -8.830252, 1.736666, -8.830252, -1.736666],
    /* order 14 */ [-3.551087, 12.025738, -3.551087, -12.025738, -5.720352, 9.894708, -5.720352, -9.894708, -7.172396, 7.973217] + [-7.172396, -7.973217, -8.198847, 6.143041, -8.198847, -6.143041, -8.911001, 4.361604, -8.911001, -4.361604] + [-9.363146, 2.607553, -9.363146, -2.607553, -9.583171, 0.867711, -9.583171, -0.867711],
    /* order 15 */ [-3.647357, 12.979501, -3.647357, -12.979501, -5.900152, 10.819999, -5.900152, -10.819999, -7.429397, 8.878983] + [-7.429397, -8.878983, -8.532459, 7.034394, -8.532459, -7.034394, -9.323599, 5.242259, -9.323599, -5.242259] + [-9.859567, 3.480671, -9.859567, -3.480671, -10.273109, 0.000000, -10.170914, 1.736389, -10.170914, -1.736389],
    /* order 16 */ [-3.739232, 13.935028, -3.739232, -13.935028, -6.071241, 11.747875, -6.071241, -11.747875, -7.673241, 9.787697] + [-7.673241, -9.787697, -8.847968, 7.928773, -8.847968, -7.928773, -9.712326, 6.125761, -9.712326, -6.125761] + [-10.325121, 4.356163, -10.325121, -4.356163, -10.911887, 0.867721, -10.911887, -0.867721, -10.718985, 2.606568] + [-10.718985, -2.606568],
    /* order 17 */ [-3.827174, 14.892159, -3.827174, -14.892159, -6.234581, 12.678120, -6.234581, -12.678120, -7.905450, 10.699145] + [-7.905450, -10.699145, -9.147588, 8.825998, -9.147588, -8.825998, -10.080296, 7.012010, -10.080296, -7.012010] + [-10.764132, 5.234075, -10.764132, -5.234075, -11.233439, 3.478542, -11.233439, -3.478542, -11.598530, 0.000000] + [-11.508076, 1.736203, -11.508076, -1.736203],
    /* order 18 */ [-3.911572, 15.850754, -3.911572, -15.850754, -6.390973, 13.610547, -6.390973, -13.610547, -8.127284, 11.613132] + [-8.127284, -11.613132, -9.433133, 9.725901, -9.433133, -9.725901, -10.430010, 7.900893, -10.430010, -7.900893] + [-11.180044, 6.114391, -11.180044, -6.114391, -11.718943, 4.352488, -11.718943, -4.352488, -12.068139, 2.605877] + [-12.068139, -2.605877, -12.239902, 0.867741, -12.239902, -0.867741],
    /* order 19 */ [-3.992759, 16.810692, -3.992759, -16.810692, -6.541095, 14.544991, -6.541095, -14.544991, -8.339801, 12.529484] + [-8.339801, -12.529484, -9.706101, 10.628321, -9.706101, -10.628321, -10.763544, 8.792290, -10.763544, -8.792290] + [-11.575589, 6.997092, -11.575589, -6.997092, -12.179243, 5.228415, -12.179243, -5.228415, -12.597062, 3.477100] + [-12.597062, -3.477100, -12.923980, 0.000000, -12.842816, 1.736037, -12.842816, -1.736037, 0.0],
    /* order 20 */ [-4.071019, 17.771869, -4.071019, -17.771869, -6.685527, 15.481306, -6.685527, -15.481306, -8.543895, 13.448046] + [-8.543895, -13.448046, -9.967765, 11.533112, -9.967765, -11.533112, -11.082571, 9.686112, -11.082571, -9.686112] + [-11.953103, 7.881991, -11.953103, -7.881991, -12.617294, 6.106632, -12.617294, -6.106632, -13.098755, 4.349634] + [-13.098755, -4.349634, -13.567377, 0.867486, -13.567377, -0.867486, -13.412693, 2.605660, -13.412693, -2.605660]
  ]

  /** sizeof(BesselPoles)/sizeof(BesselPoles[0]): the number of rows. */
  const BesselPolesSize: int := |BesselPoles|

  /** The array element BesselPoles[row][col], zero where no initialiser was listed. */
  function Entry(row: int, col: int): real
    requires 0 <= row < BesselPolesSize && 0 <= col < BesselWidth
  {
    if col < |BesselPoles[row]| then BesselPoles[row][col] else 0.0
  }

  /** The n poles that calcBessel reads for order n: (Entry(n-1, 2i), Entry(n-1, 2i+1)) for i < n. */
  function BesselRow(n: int): (r: seq<Complex>)
    requires 1 <= n <= BesselPolesSize
    ensures |r| == n
  {
    seq(n, i requires 0 <= i < n => Complex(Entry(n - 1, 2 * i), Entry(n - 1, 2 * i + 1)))
  }

  /** The entries of a row past its row+1 poles are zero. */
  predicate ZeroPadded(row: int)
    requires 0 <= row < BesselPolesSize
  {
    forall j :: 2 * (row + 1) <= j < BesselWidth ==> Entry(row, j) == 0.0
  }

  /** Every pole of ps from index i on lies in the open left half-plane. */
  predicate StableFrom(ps: seq<Complex>, i: nat)
    decreases |ps| - i
  {
    i >= |ps| || (ps[i].re < 0.0 && StableFrom(ps, i + 1))
  }

  /**
   * From index i on, ps consists of real poles and of adjacent conjugate
   * pairs listed upper member first.
   */
  predicate PairedFrom(ps: seq<Complex>, i: nat)
    decreases |ps| - i
  {
    if i >= |ps| then true
    else if ps[i].im == 0.0 then PairedFrom(ps, i + 1)
    else ps[i].im > 0.0 && i + 1 < |ps| && ps[i + 1] == Complex(ps[i].re, -ps[i].im) && PairedFrom(ps, i + 2)
  }

  /** The number of poles of ps from index i on that lie on the real axis. */
  function RealCountFrom(ps: seq<Complex>, i: nat): nat
    decreases |ps| - i
  {
    if i >= |ps| then 0 else (if ps[i].im == 0.0 then 1 else 0) + RealCountFrom(ps, i + 1)
  }

  /** The sum of the imaginary parts of the poles of ps from index i on. */
  function ImagSumFrom(ps: seq<Complex>, i: nat): real
    decreases |ps| - i
  {
    if i >= |ps| then 0.0 else ps[i].im + ImagSumFrom(ps, i + 1)
  }

  /** StableFrom is the quantified statement it abbreviates. */
  lemma {:induction false} StableFromAll(ps: seq<Complex>, i: nat)
    requires StableFrom(ps, i)
    ensures forall j :: i <= j < |ps| ==> ps[j].re < 0.0
    decreases |ps| - i
  {
    if i < |ps| {
      StableFromAll(ps, i + 1);
    }
  }

  /** Conjugate pairs cancel: a paired list has imaginary parts summing to zero. */
  lemma {:induction false} PairedImagSum(ps: seq<Complex>, i: nat)
    requires PairedFrom(ps, i)
    ensures ImagSumFrom(ps, i) == 0.0
    decreases |ps| - i
  {
    if i < |ps| {
      if ps[i].im == 0.0 {
        PairedImagSum(ps, i + 1);
      } else {
        PairedImagSum(ps, i + 2);
      }
    }
  }

  /** Only real poles can be unpaired, so their count has the parity of the length. */
  lemma {:induction false} PairedRealParity(ps: seq<Complex>, i: nat)
    requires i <= |ps| && PairedFrom(ps, i)
    ensures RealCountFrom(ps, i) % 2 == (|ps| - i) % 2
    decreases |ps| - i
  {
    if i < |ps| {
      if ps[i].im == 0.0 {
        PairedRealParity(ps, i + 1);
      } else {
        PairedRealParity(ps, i + 2);
        assert RealCountFrom(ps, i + 1) == RealCountFrom(ps, i + 2);
      }
    }
  }

  /** A real pole in the left half-plane extends a stable, paired tail by one. */
  lemma RealStep(ps: seq<Complex>, i: nat)
    requires i < |ps| && ps[i].re < 0.0 && ps[i].im == 0.0
    requires StableFrom(ps, i + 1) && PairedFrom(ps, i + 1)
    ensures StableFrom(ps, i) && PairedFrom(ps, i)
    ensures RealCountFrom(ps, i) == RealCountFrom(ps, i + 1) + 1
  {
  }

  /** A conjugate pair in the left half-plane extends a stable, paired tail by two. */
  lemma PairStep(ps: seq<Complex>, i: nat)
    requires i + 1 < |ps| && ps[i].re < 0.0 && ps[i].im > 0.0 && ps[i + 1] == Complex(ps[i].re, -ps[i].im)
    requires StableFrom(ps, i + 2) && PairedFrom(ps, i + 2)
    ensures StableFrom(ps, i) && PairedFrom(ps, i)
    ensures RealCountFrom(ps, i) == RealCountFrom(ps, i + 2)
  {
  }

  /**
   * What the engine relies on in the poles of order n: they lie in the left
   * half-plane, come as real poles and conjugate pairs, and exactly n % 2 of
   * them are real.
   */
  predicate RowChecked(n: int)
    requires 1 <= n <= BesselPolesSize
  {
    && StableFrom(BesselRow(n), 0) && PairedFrom(BesselRow(n), 0)
    && RealCountFrom(BesselRow(n), 0) == n % 2
  }

  /**
   * The table has 20 rows, and row n-1 lists exactly its n poles, except that
   * order 19 lists one trailing 0.0.
   */
  lemma BesselRowLengths()
    ensures BesselPolesSize == 20
    ensures forall n :: 1 <= n <= BesselPolesSize ==> |BesselPoles[n - 1]| == if n == 19 then 39 else 2 * n
    ensures BesselPoles[18][38] == 0.0
  {
  }

  // Row by row: RowNPoles reads the signs and the conjugate pattern of the
  // listed numbers, and RowNChecked folds them into RowChecked(N) from the
  // last pole back to the first.

  lemma Row1Poles()
    ensures BesselRow(1)[0].re < 0.0 && BesselRow(1)[0].im == 0.0
  {
    var r := BesselPoles[0];
    assert |r| == 2;
    assert r[0] < 0.0 && r[1] == 0.0;
  }

  lemma Row1Checked()
    ensures RowChecked(1)
  {
    Row1Poles();
    var ps := BesselRow(1);
    RealStep(ps, 0);
  }

  lemma Row2Poles()
    ensures BesselRow(2)[0].re < 0.0 && BesselRow(2)[0].im > 0.0 && BesselRow(2)[1] == Complex(BesselRow(2)[0].re, -BesselRow(2)[0].im)
  {
    var r := BesselPoles[1];
    assert |r| == 4;
    assert r[0] < 0.0 && r[1] != 0.0 && r[2] == r[0] && r[3] == -r[1];
  }

  lemma Row2Checked()
    ensures RowChecked(2)
  {
    Row2Poles();
    var ps := BesselRow(2);
    PairStep(ps, 0);
  }

  lemma Row3Poles()
    ensures BesselRow(3)[0].re < 0.0 && BesselRow(3)[0].im > 0.0 && BesselRow(3)[1] == Complex(BesselRow(3)[0].re, -BesselRow(3)[0].im)
    ensures BesselRow(3)[2].re < 0.0 && BesselRow(3)[2].im == 0.0
  {
    var r := BesselPoles[2];
    assert |r| == 6;
    assert r[0] < 0.0 && r[1] != 0.0 && r[2] == r[0] && r[3] == -r[1];
    assert r[4] < 0.0 && r[5] == 0.0;
  }

  lemma Row3Checked()
    ensures RowChecked(3)
  {
    Row3Poles();
    var ps := BesselRow(3);
    RealStep(ps, 2);
    PairStep(ps, 0);
  }

  lemma Row4Poles()
    ensures BesselRow(4)[0].re < 0.0 && BesselRow(4)[0].im > 0.0 && BesselRow(4)[1] == Complex(BesselRow(4)[0].re, -BesselRow(4)[0].im)
    ensures BesselRow(4)[2].re < 0.0 && BesselRow(4)[2].im > 0.0 && BesselRow(4)[3] == Complex(BesselRow(4)[2].re, -BesselRow(4)[2].im)
  {
    var r := BesselPoles[3];
    assert |r| == 8;
    assert r[0] < 0.0 && r[1] != 0.0 && r[2] == r[0] && r[3] == -r[1];
    assert r[4] < 0.0 && r[5] != 0.0 && r[6] == r[4] && r[7] == -r[5];
  }

  lemma Row4Checked()
    ensures RowChecked(4)
  {
    Row4Poles();
    var ps := BesselRow(4);
    PairStep(ps, 2);
    PairStep(ps, 0);
  }

  lemma Row5Poles()
    ensures BesselRow(5)[0].re < 0.0 && BesselRow(5)[0].im > 0.0 && BesselRow(5)[1] == Complex(BesselRow(5)[0].re, -BesselRow(5)[0].im)
    ensures BesselRow(5)[2].re < 0.0 && BesselRow(5)[2].im == 0.0
    ensures BesselRow(5)[3].re < 0.0 && BesselRow(5)[3].im > 0.0 && BesselRow(5)[4] == Complex(BesselRow(5)[3].re, -BesselRow(5)[3].im)
  {
    var r := BesselPoles[4];
    assert |r| == 10;
    assert r[0] < 0.0 && r[1] != 0.0 && r[2] == r[0] && r[3] == -r[1];
    assert r[4] < 0.0 && r[5] == 0.0;
    assert r[6] < 0.0 && r[7] != 0.0 && r[8] == r[6] && r[9] == -r[7];
  }

  lemma Row5Checked()
    ensures RowChecked(5)
  {
    Row5Poles();
    var ps := BesselRow(5);
    PairStep(ps, 3);
    RealStep(ps, 2);
    PairStep(ps, 0);
  }

  lemma Row6Poles()
    ensures BesselRow(6)[0].re < 0.0 && BesselRow(6)[0].im > 0.0 && BesselRow(6)[1] == Complex(BesselRow(6)[0].re, -BesselRow(6)[0].im)
    ensures BesselRow(6)[2].re < 0.0 && BesselRow(6)[2].im > 0.0 && BesselRow(6)[3] == Complex(BesselRow(6)[2].re, -BesselRow(6)[2].im)
    ensures BesselRow(6)[4].re < 0.0 && BesselRow(6)[4].im > 0.0 && BesselRow(6)[5] == Complex(BesselRow(6)[4].re, -BesselRow(6)[4].im)
  {
    var r := BesselPoles[5];
    assert |r| == 12;
    assert r[0] < 0.0 && r[1] != 0.0 && r[2] == r[0] && r[3] == -r[1];
    assert r[4] < 0.0 && r[5] != 0.0 && r[6] == r[4] && r[7] == -r[5];
    assert r[8] < 0.0 && r[9] != 0.0 && r[10] == r[8] && r[11] == -r[9];
  }

  lemma Row6Checked()
    ensures RowChecked(6)
  {
    Row6Poles();
    var ps := BesselRow(6);
    PairStep(ps, 4);
    PairStep(ps, 2);
    PairStep(ps, 0);
  }

  lemma Row7Poles()
    ensures BesselRow(7)[0].re < 0.0 && BesselRow(7)[0].im > 0.0 && BesselRow(7)[1] == Complex(BesselRow(7)[0].re, -BesselRow(7)[0].im)
    ensures BesselRow(7)[2].re < 0.0 && BesselRow(7)[2].im > 0.0 && BesselRow(7)[3] == Complex(BesselRow(7)[2].re, -BesselRow(7)[2].im)
    ensures BesselRow(7)[4].re < 0.0 && BesselRow(7)[4].im == 0.0
    ensures BesselRow(7)[5].re < 0.0 && BesselRow(7)[5].im > 0.0 && BesselRow(7)[6] == Complex(BesselRow(7)[5].re, -BesselRow(7)[5].im)
  {
    var r := BesselPoles[6];
    assert |r| == 14;
    assert r[0] < 0.0 && r[1] != 0.0 && r[2] == r[0] && r[3] == -r[1];
    assert r[4] < 0.0 && r[5] != 0.0 && r[6] == r[4] && r[7] == -r[5];
    assert r[8] < 0.0 && r[9] == 0.0;
    assert r[10] < 0.0 && r[11] != 0.0 && r[12] == r[10] && r[13] == -r[11];
  }

  lemma Row7Checked()
    ensures RowChecked(7)
  {
    Row7Poles();
    var ps := BesselRow(7);
    PairStep(ps, 5);
    RealStep(ps, 4);
    PairStep(ps, 2);
    PairStep(ps, 0);
  }

  lemma Row8Poles()
    ensures BesselRow(8)[0].re < 0.0 && BesselRow(8)[0].im > 0.0 && BesselRow(8)[1] == Complex(BesselRow(8)[0].re, -BesselRow(8)[0].im)
    ensures BesselRow(8)[2].re < 0.0 && BesselRow(8)[2].im > 0.0 && BesselRow(8)[3] == Complex(BesselRow(8)[2].re, -BesselRow(8)[2].im)
    ensures BesselRow(8)[4].re < 0.0 && BesselRow(8)[4].im > 0.0 && BesselRow(8)[5] == Complex(BesselRow(8)[4].re, -BesselRow(8)[4].im)
    ensures BesselRow(8)[6].re < 0.0 && BesselRow(8)[6].im > 0.0 && BesselRow(8)[7] == Complex(BesselRow(8)[6].re, -BesselRow(8)[6].im)
  {
    var r := BesselPoles[7];
    assert |r| == 16;
    assert r[0] < 0.0 && r[1] != 0.0 && r[2] == r[0] && r[3] == -r[1];
    assert r[4] < 0.0 && r[5] != 0.0 && r[6] == r[4] && r[7] == -r[5];
    assert r[8] < 0.0 && r[9] != 0.0 && r[10] == r[8] && r[11] == -r[9];
    assert r[12] < 0.0 && r[13] != 0.0 && r[14] == r[12] && r[15] == -r[13];
  }

  lemma Row8Checked()
    ensures RowChecked(8)
  {
    Row8Poles();
    var ps := BesselRow(8);
    PairStep(ps, 6);
    PairStep(ps, 4);
    PairStep(ps, 2);
    PairStep(ps, 0);
  }

  lemma Row9Poles()
    ensures BesselRow(9)[0].re < 0.0 && BesselRow(9)[0].im > 0.0 && BesselRow(9)[1] == Complex(BesselRow(9)[0].re, -BesselRow(9)[0].im)
    ensures BesselRow(9)[2].re < 0.0 && BesselRow(9)[2].im > 0.0 && BesselRow(9)[3] == Complex(BesselRow(9)[2].re, -BesselRow(9)[2].im)
    ensures BesselRow(9)[4].re < 0.0 && BesselRow(9)[4].im > 0.0 && BesselRow(9)[5] == Complex(BesselRow(9)[4].re, -BesselRow(9)[4].im)
    ensures BesselRow(9)[6].re < 0.0 && BesselRow(9)[6].im == 0.0
    ensures BesselRow(9)[7].re < 0.0 && BesselRow(9)[7].im > 0.0 && BesselRow(9)[8] == Complex(BesselRow(9)[7].re, -BesselRow(9)[7].im)
  {
    var r := BesselPoles[8];
    assert |r| == 18;
    assert r[0] < 0.0 && r[1] != 0.0 && r[2] == r[0] && r[3] == -r[1];
    assert r[4] < 0.0 && r[5] != 0.0 && r[6] == r[4] && r[7] == -r[5];
    assert r[8] < 0.0 && r[9] != 0.0 && r[10] == r[8] && r[11] == -r[9];
    assert r[12] < 0.0 && r[13] == 0.0;
    assert r[14] < 0.0 && r[15] != 0.0 && r[16] == r[14] && r[17] == -r[15];
  }

  lemma Row9Checked()
    ensures RowChecked(9)
  {
    Row9Poles();
    var ps := BesselRow(9);
    PairStep(ps, 7);
    RealStep(ps, 6);
    PairStep(ps, 4);
    PairStep(ps, 2);
    PairStep(ps, 0);
  }

  lemma Row10Poles()
    ensures BesselRow(10)[0].re < 0.0 && BesselRow(10)[0].im > 0.0 && BesselRow(10)[1] == Complex(BesselRow(10)[0].re, -BesselRow(10)[0].im)
    ensures BesselRow(10)[2].re < 0.0 && BesselRow(10)[2].im > 0.0 && BesselRow(10)[3] == Complex(BesselRow(10)[2].re, -BesselRow(10)[2].im)
    ensures BesselRow(10)[4].re < 0.0 && BesselRow(10)[4].im > 0.0 && BesselRow(10)[5] == Complex(BesselRow(10)[4].re, -BesselRow(10)[4].im)
    ensures BesselRow(10)[6].re < 0.0 && BesselRow(10)[6].im > 0.0 && BesselRow(10)[7] == Complex(BesselRow(10)[6].re, -BesselRow(10)[6].im)
    ensures BesselRow(10)[8].re < 0.0 && BesselRow(10)[8].im > 0.0 && BesselRow(10)[9] == Complex(BesselRow(10)[8].re, -BesselRow(10)[8].im)
  {
    var r := BesselPoles[9];
    assert |r| == 20;
    assert r[0] < 0.0 && r[1] != 0.0 && r[2] == r[0] && r[3] == -r[1];
    assert r[4] < 0.0 && r[5] != 0.0 && r[6] == r[4] && r[7] == -r[5];
    assert r[8] < 0.0 && r[9] != 0.0 && r[10] == r[8] && r[11] == -r[9];
    assert r[12] < 0.0 && r[13] != 0.0 && r[14] == r[12] && r[15] == -r[13];
    assert r[16] < 0.0 && r[17] != 0.0 && r[18] == r[16] && r[19] == -r[17];
  }

  lemma Row10Checked()
    ensures RowChecked(10)
  {
    Row10Poles();
    var ps := BesselRow(10);
    PairStep(ps, 8);
    PairStep(ps, 6);
    PairStep(ps, 4);
    PairStep(ps, 2);
    PairStep(ps, 0);
  }

  lemma Row11Poles()
    ensures BesselRow(11)[0].re < 0.0 && BesselRow(11)[0].im > 0.0 && BesselRow(11)[1] == Complex(BesselRow(11)[0].re, -BesselRow(11)[0].im)
    ensures BesselRow(11)[2].re < 0.0 && BesselRow(11)[2].im > 0.0 && BesselRow(11)[3] == Complex(BesselRow(11)[2].re, -BesselRow(11)[2].im)
    ensures BesselRow(11)[4].re < 0.0 && BesselRow(11)[4].im > 0.0 && BesselRow(11)[5] == Complex(BesselRow(11)[4].re, -BesselRow(11)[4].im)
    ensures BesselRow(11)[6].re < 0.0 && BesselRow(11)[6].im > 0.0 && BesselRow(11)[7] == Complex(BesselRow(11)[6].re, -BesselRow(11)[6].im)
    ensures BesselRow(11)[8].re < 0.0 && BesselRow(11)[8].im == 0.0
    ensures BesselRow(11)[9].re < 0.0 && BesselRow(11)[9].im > 0.0 && BesselRow(11)[10] == Complex(BesselRow(11)[9].re, -BesselRow(11)[9].im)
  {
    var r := BesselPoles[10];
    assert |r| == 22;
    assert r[0] < 0.0 && r[1] != 0.0 && r[2] == r[0] && r[3] == -r[1];
    assert r[4] < 0.0 && r[5] != 0.0 && r[6] == r[4] && r[7] == -r[5];
    assert r[8] < 0.0 && r[9] != 0.0 && r[10] == r[8] && r[11] == -r[9];
    assert r[12] < 0.0 && r[13] != 0.0 && r[14] == r[12] && r[15] == -r[13];
    assert r[16] < 0.0 && r[17] == 0.0;
    assert r[18] < 0.0 && r[19] != 0.0 && r[20] == r[18] && r[21] == -r[19];
  }

  lemma Row11Checked()
    ensures RowChecked(11)
  {
    Row11Poles();
    var ps := BesselRow(11);
    PairStep(ps, 9);
    RealStep(ps, 8);
    PairStep(ps, 6);
    PairStep(ps, 4);
    PairStep(ps, 2);
    PairStep(ps, 0);
  }

  lemma Row12Poles()
    ensures BesselRow(12)[0].re < 0.0 && BesselRow(12)[0].im > 0.0 && BesselRow(12)[1] == Complex(BesselRow(12)[0].re, -BesselRow(12)[0].im)
    ensures BesselRow(12)[2].re < 0.0 && BesselRow(12)[2].im > 0.0 && BesselRow(12)[3] == Complex(BesselRow(12)[2].re, -BesselRow(12)[2].im)
    ensures BesselRow(12)[4].re < 0.0 && BesselRow(12)[4].im > 0.0 && BesselRow(12)[5] == Complex(BesselRow(12)[4].re, -BesselRow(12)[4].im)
    ensures BesselRow(12)[6].re < 0.0 && BesselRow(12)[6].im > 0.0 && BesselRow(12)[7] == Complex(BesselRow(12)[6].re, -BesselRow(12)[6].im)
    ensures BesselRow(12)[8].re < 0.0 && BesselRow(12)[8].im > 0.0 && BesselRow(12)[9] == Complex(BesselRow(12)[8].re, -BesselRow(12)[8].im)
    ensures BesselRow(12)[10].re < 0.0 && BesselRow(12)[10].im > 0.0 && BesselRow(12)[11] == Complex(BesselRow(12)[10].re, -BesselRow(12)[10].im)
  {
    var r := BesselPoles[11];
    assert |r| == 24;
    assert r[0] < 0.0 && r[1] != 0.0 && r[2] == r[0] && r[3] == -r[1];
    assert r[4] < 0.0 && r[5] != 0.0 && r[6] == r[4] && r[7] == -r[5];
    assert r[8] < 0.0 && r[9] != 0.0 && r[10] == r[8] && r[11] == -r[9];
    assert r[12] < 0.0 && r[13] != 0.0 && r[14] == r[12] && r[15] == -r[13];
    assert r[16] < 0.0 && r[17] != 0.0 && r[18] == r[16] && r[19] == -r[17];
    assert r[20] < 0.0 && r[21] != 0.0 && r[22] == r[20] && r[23] == -r[21];
  }

  lemma Row12Checked()
    ensures RowChecked(12)
  {
    Row12Poles();
    var ps := BesselRow(12);
    PairStep(ps, 10);
    PairStep(ps, 8);
    PairStep(ps, 6);
    PairStep(ps, 4);
    PairStep(ps, 2);
    PairStep(ps, 0);
  }

  lemma Row13Poles()
    ensures BesselRow(13)[0].re < 0.0 && BesselRow(13)[0].im > 0.0 && BesselRow(13)[1] == Complex(BesselRow(13)[0].re, -BesselRow(13)[0].im)
    ensures BesselRow(13)[2].re < 0.0 && BesselRow(13)[2].im > 0.0 && BesselRow(13)[3] == Complex(BesselRow(13)[2].re, -BesselRow(13)[2].im)
    ensures BesselRow(13)[4].re < 0.0 && BesselRow(13)[4].im > 0.0 && BesselRow(13)[5] == Complex(BesselRow(13)[4].re, -BesselRow(13)[4].im)
    ensures BesselRow(13)[6].re < 0.0 && BesselRow(13)[6].im > 0.0 && BesselRow(13)[7] == Complex(BesselRow(13)[6].re, -BesselRow(13)[6].im)
    ensures BesselRow(13)[8].re < 0.0 && BesselRow(13)[8].im > 0.0 && BesselRow(13)[9] == Complex(BesselRow(13)[8].re, -BesselRow(13)[8].im)
    ensures BesselRow(13)[10].re < 0.0 && BesselRow(13)[10].im == 0.0
    ensures BesselRow(13)[11].re < 0.0 && BesselRow(13)[11].im > 0.0 && BesselRow(13)[12] == Complex(BesselRow(13)[11].re, -BesselRow(13)[11].im)
  {
    var r := BesselPoles[12];
    assert |r| == 26;
    assert r[0] < 0.0 && r[1] != 0.0 && r[2] == r[0] && r[3] == -r[1];
    assert r[4] < 0.0 && r[5] != 0.0 && r[6] == r[4] && r[7] == -r[5];
    assert r[8] < 0.0 && r[9] != 0.0 && r[10] == r[8] && r[11] == -r[9];
    assert r[12] < 0.0 && r[13] != 0.0 && r[14] == r[12] && r[15] == -r[13];
    assert r[16] < 0.0 && r[17] != 0.0 && r[18] == r[16] && r[19] == -r[17];
    assert r[20] < 0.0 && r[21] == 0.0;
    assert r[22] < 0.0 && r[23] != 0.0 && r[24] == r[22] && r[25] == -r[23];
  }

  lemma Row13Checked()
    ensures RowChecked(13)
  {
    Row13Poles();
    var ps := BesselRow(13);
    PairStep(ps, 11);
    RealStep(ps, 10);
    PairStep(ps, 8);
    PairStep(ps, 6);
    PairStep(ps, 4);
    PairStep(ps, 2);
    PairStep(ps, 0);
  }

  lemma Row14Poles()
    ensures BesselRow(14)[0].re < 0.0 && BesselRow(14)[0].im > 0.0 && BesselRow(14)[1] == Complex(BesselRow(14)[0].re, -BesselRow(14)[0].im)
    ensures BesselRow(14)[2].re < 0.0 && BesselRow(14)[2].im > 0.0 && BesselRow(14)[3] == Complex(BesselRow(14)[2].re, -BesselRow(14)[2].im)
    ensures BesselRow(14)[4].re < 0.0 && BesselRow(14)[4].im > 0.0 && BesselRow(14)[5] == Complex(BesselRow(14)[4].re, -BesselRow(14)[4].im)
    ensures BesselRow(14)[6].re < 0.0 && BesselRow(14)[6].im > 0.0 && BesselRow(14)[7] == Complex(BesselRow(14)[6].re, -BesselRow(14)[6].im)
    ensures BesselRow(14)[8].re < 0.0 && BesselRow(14)[8].im > 0.0 && BesselRow(14)[9] == Complex(BesselRow(14)[8].re, -BesselRow(14)[8].im)
    ensures BesselRow(14)[10].re < 0.0 && BesselRow(14)[10].im > 0.0 && BesselRow(14)[11] == Complex(BesselRow(14)[10].re, -BesselRow(14)[10].im)
    ensures BesselRow(14)[12].re < 0.0 && BesselRow(14)[12].im > 0.0 && BesselRow(14)[13] == Complex(BesselRow(14)[12].re, -BesselRow(14)[12].im)
  {
    var r := BesselPoles[13];
    assert |r| == 28;
    assert r[0] < 0.0 && r[1] != 0.0 && r[2] == r[0] && r[3] == -r[1];
    assert r[4] < 0.0 && r[5] != 0.0 && r[6] == r[4] && r[7] == -r[5];
    assert r[8] < 0.0 && r[9] != 0.0 && r[10] == r[8] && r[11] == -r[9];
    assert r[12] < 0.0 && r[13] != 0.0 && r[14] == r[12] && r[15] == -r[13];
    assert r[16] < 0.0 && r[17] != 0.0 && r[18] == r[16] && r[19] == -r[17];
    assert r[20] < 0.0 && r[21] != 0.0 && r[22] == r[20] && r[23] == -r[21];
    assert r[24] < 0.0 && r[25] != 0.0 && r[26] == r[24] && r[27] == -r[25];
  }

  lemma Row14Checked()
    ensures RowChecked(14)
  {
    Row14Poles();
    var ps := BesselRow(14);
    PairStep(ps, 12);
    PairStep(ps, 10);
    PairStep(ps, 8);
    PairStep(ps, 6);
    PairStep(ps, 4);
    PairStep(ps, 2);
    PairStep(ps, 0);
  }

  lemma Row15Poles()
    ensures BesselRow(15)[0].re < 0.0 && BesselRow(15)[0].im > 0.0 && BesselRow(15)[1] == Complex(BesselRow(15)[0].re, -BesselRow(15)[0].im)
    ensures BesselRow(15)[2].re < 0.0 && BesselRow(15)[2].im > 0.0 && BesselRow(15)[3] == Complex(BesselRow(15)[2].re, -BesselRow(15)[2].im)
    ensures BesselRow(15)[4].re < 0.0 && BesselRow(15)[4].im > 0.0 && BesselRow(15)[5] == Complex(BesselRow(15)[4].re, -BesselRow(15)[4].im)
    ensures BesselRow(15)[6].re < 0.0 && BesselRow(15)[6].im > 0.0 && BesselRow(15)[7] == Complex(BesselRow(15)[6].re, -BesselRow(15)[6].im)
    ensures BesselRow(15)[8].re < 0.0 && BesselRow(15)[8].im > 0.0 && BesselRow(15)[9] == Complex(BesselRow(15)[8].re, -BesselRow(15)[8].im)
    ensures BesselRow(15)[10].re < 0.0 && BesselRow(15)[10].im > 0.0 && BesselRow(15)[11] == Complex(BesselRow(15)[10].re, -BesselRow(15)[10].im)
    ensures BesselRow(15)[12].re < 0.0 && BesselRow(15)[12].im == 0.0
    ensures BesselRow(15)[13].re < 0.0 && BesselRow(15)[13].im > 0.0 && BesselRow(15)[14] == Complex(BesselRow(15)[13].re, -BesselRow(15)[13].im)
  {
    var r := BesselPoles[14];
    assert |r| == 30;
    assert r[0] < 0.0 && r[1] != 0.0 && r[2] == r[0] && r[3] == -r[1];
    assert r[4] < 0.0 && r[5] != 0.0 && r[6] == r[4] && r[7] == -r[5];
    assert r[8] < 0.0 && r[9] != 0.0 && r[10] == r[8] && r[11] == -r[9];
    assert r[12] < 0.0 && r[13] != 0.0 && r[14] == r[12] && r[15] == -r[13];
    assert r[16] < 0.0 && r[17] != 0.0 && r[18] == r[16] && r[19] == -r[17];
    assert r[20] < 0.0 && r[21] != 0.0 && r[22] == r[20] && r[23] == -r[21];
    assert r[24] < 0.0 && r[25] == 0.0;
    assert r[26] < 0.0 && r[27] != 0.0 && r[28] == r[26] && r[29] == -r[27];
  }

  lemma Row15Checked()
    ensures RowChecked(15)
  {
    Row15Poles();
    var ps := BesselRow(15);
    PairStep(ps, 13);
    RealStep(ps, 12);
    PairStep(ps, 10);
    PairStep(ps, 8);
    PairStep(ps, 6);
    PairStep(ps, 4);
    PairStep(ps, 2);
    PairStep(ps, 0);
  }

  lemma Row16Poles()
    ensures BesselRow(16)[0].re < 0.0 && BesselRow(16)[0].im > 0.0 && BesselRow(16)[1] == Complex(BesselRow(16)[0].re, -BesselRow(16)[0].im)
    ensures BesselRow(16)[2].re < 0.0 && BesselRow(16)[2].im > 0.0 && BesselRow(16)[3] == Complex(BesselRow(16)[2].re, -BesselRow(16)[2].im)
    ensures BesselRow(16)[4].re < 0.0 && BesselRow(16)[4].im > 0.0 && BesselRow(16)[5] == Complex(BesselRow(16)[4].re, -BesselRow(16)[4].im)
    ensures BesselRow(16)[6].re < 0.0 && BesselRow(16)[6].im > 0.0 && BesselRow(16)[7] == Complex(BesselRow(16)[6].re, -BesselRow(16)[6].im)
    ensures BesselRow(16)[8].re < 0.0 && BesselRow(16)[8].im > 0.0 && BesselRow(16)[9] == Complex(BesselRow(16)[8].re, -BesselRow(16)[8].im)
    ensures BesselRow(16)[10].re < 0.0 && BesselRow(16)[10].im > 0.0 && BesselRow(16)[11] == Complex(BesselRow(16)[10].re, -BesselRow(16)[10].im)
    ensures BesselRow(16)[12].re < 0.0 && BesselRow(16)[12].im > 0.0 && BesselRow(16)[13] == Complex(BesselRow(16)[12].re, -BesselRow(16)[12].im)
    ensures BesselRow(16)[14].re < 0.0 && BesselRow(16)[14].im > 0.0 && BesselRow(16)[15] == Complex(BesselRow(16)[14].re, -BesselRow(16)[14].im)
  {
    var r := BesselPoles[15];
    assert |r| == 32;
    assert r[0] < 0.0 && r[1] != 0.0 && r[2] == r[0] && r[3] == -r[1];
    assert r[4] < 0.0 && r[5] != 0.0 && r[6] == r[4] && r[7] == -r[5];
    assert r[8] < 0.0 && r[9] != 0.0 && r[10] == r[8] && r[11] == -r[9];
    assert r[12] < 0.0 && r[13] != 0.0 && r[14] == r[12] && r[15] == -r[13];
    assert r[16] < 0.0 && r[17] != 0.0 && r[18] == r[16] && r[19] == -r[17];
    assert r[20] < 0.0 && r[21] != 0.0 && r[22] == r[20] && r[23] == -r[21];
    assert r[24] < 0.0 && r[25] != 0.0 && r[26] == r[24] && r[27] == -r[25];
    assert r[28] < 0.0 && r[29] != 0.0 && r[30] == r[28] && r[31] == -r[29];
  }

  lemma Row16Checked()
    ensures RowChecked(16)
  {
    Row16Poles();
    var ps := BesselRow(16);
    PairStep(ps, 14);
    PairStep(ps, 12);
    PairStep(ps, 10);
    PairStep(ps, 8);
    PairStep(ps, 6);
    PairStep(ps, 4);
    PairStep(ps, 2);
    PairStep(ps, 0);
  }

  lemma Row17Poles()
    ensures BesselRow(17)[0].re < 0.0 && BesselRow(17)[0].im > 0.0 && BesselRow(17)[1] == Complex(BesselRow(17)[0].re, -BesselRow(17)[0].im)
    ensures BesselRow(17)[2].re < 0.0 && BesselRow(17)[2].im > 0.0 && BesselRow(17)[3] == Complex(BesselRow(17)[2].re, -BesselRow(17)[2].im)
    ensures BesselRow(17)[4].re < 0.0 && BesselRow(17)[4].im > 0.0 && BesselRow(17)[5] == Complex(BesselRow(17)[4].re, -BesselRow(17)[4].im)
    ensures BesselRow(17)[6].re < 0.0 && BesselRow(17)[6].im > 0.0 && BesselRow(17)[7] == Complex(BesselRow(17)[6].re, -BesselRow(17)[6].im)
    ensures BesselRow(17)[8].re < 0.0 && BesselRow(17)[8].im > 0.0 && BesselRow(17)[9] == Complex(BesselRow(17)[8].re, -BesselRow(17)[8].im)
    ensures BesselRow(17)[10].re < 0.0 && BesselRow(17)[10].im > 0.0 && BesselRow(17)[11] == Complex(BesselRow(17)[10].re, -BesselRow(17)[10].im)
    ensures BesselRow(17)[12].re < 0.0 && BesselRow(17)[12].im > 0.0 && BesselRow(17)[13] == Complex(BesselRow(17)[12].re, -BesselRow(17)[12].im)
    ensures BesselRow(17)[14].re < 0.0 && BesselRow(17)[14].im == 0.0
    ensures BesselRow(17)[15].re < 0.0 && BesselRow(17)[15].im > 0.0 && BesselRow(17)[16] == Complex(BesselRow(17)[15].re, -BesselRow(17)[15].im)
  {
    var r := BesselPoles[16];
    assert |r| == 34;
    assert r[0] < 0.0 && r[1] != 0.0 && r[2] == r[0] && r[3] == -r[1];
    assert r[4] < 0.0 && r[5] != 0.0 && r[6] == r[4] && r[7] == -r[5];
    assert r[8] < 0.0 && r[9] != 0.0 && r[10] == r[8] && r[11] == -r[9];
    assert r[12] < 0.0 && r[13] != 0.0 && r[14] == r[12] && r[15] == -r[13];
    assert r[16] < 0.0 && r[17] != 0.0 && r[18] == r[16] && r[19] == -r[17];
    assert r[20] < 0.0 && r[21] != 0.0 && r[22] == r[20] && r[23] == -r[21];
    assert r[24] < 0.0 && r[25] != 0.0 && r[26] == r[24] && r[27] == -r[25];
    assert r[28] < 0.0 && r[29] == 0.0;
    assert r[30] < 0.0 && r[31] != 0.0 && r[32] == r[30] && r[33] == -r[31];
  }

  lemma Row17Checked()
    ensures RowChecked(17)
  {
    Row17Poles();
    var ps := BesselRow(17);
    PairStep(ps, 15);
    RealStep(ps, 14);
    PairStep(ps, 12);
    PairStep(ps, 10);
    PairStep(ps, 8);
    PairStep(ps, 6);
    PairStep(ps, 4);
    PairStep(ps, 2);
    PairStep(ps, 0);
  }

  lemma Row18Poles()
    ensures BesselRow(18)[0].re < 0.0 && BesselRow(18)[0].im > 0.0 && BesselRow(18)[1] == Complex(BesselRow(18)[0].re, -BesselRow(18)[0].im)
    ensures BesselRow(18)[2].re < 0.0 && BesselRow(18)[2].im > 0.0 && BesselRow(18)[3] == Complex(BesselRow(18)[2].re, -BesselRow(18)[2].im)
    ensures BesselRow(18)[4].re < 0.0 && BesselRow(18)[4].im > 0.0 && BesselRow(18)[5] == Complex(BesselRow(18)[4].re, -BesselRow(18)[4].im)
    ensures BesselRow(18)[6].re < 0.0 && BesselRow(18)[6].im > 0.0 && BesselRow(18)[7] == Complex(BesselRow(18)[6].re, -BesselRow(18)[6].im)
    ensures BesselRow(18)[8].re < 0.0 && BesselRow(18)[8].im > 0.0 && BesselRow(18)[9] == Complex(BesselRow(18)[8].re, -BesselRow(18)[8].im)
    ensures BesselRow(18)[10].re < 0.0 && BesselRow(18)[10].im > 0.0 && BesselRow(18)[11] == Complex(BesselRow(18)[10].re, -BesselRow(18)[10].im)
    ensures BesselRow(18)[12].re < 0.0 && BesselRow(18)[12].im > 0.0 && BesselRow(18)[13] == Complex(BesselRow(18)[12].re, -BesselRow(18)[12].im)
    ensures BesselRow(18)[14].re < 0.0 && BesselRow(18)[14].im > 0.0 && BesselRow(18)[15] == Complex(BesselRow(18)[14].re, -BesselRow(18)[14].im)
    ensures BesselRow(18)[16].re < 0.0 && BesselRow(18)[16].im > 0.0 && BesselRow(18)[17] == Complex(BesselRow(18)[16].re, -BesselRow(18)[16].im)
  {
    var r := BesselPoles[17];
    assert |r| == 36;
    assert r[0] < 0.0 && r[1] != 0.0 && r[2] == r[0] && r[3] == -r[1];
    assert r[4] < 0.0 && r[5] != 0.0 && r[6] == r[4] && r[7] == -r[5];
    assert r[8] < 0.0 && r[9] != 0.0 && r[10] == r[8] && r[11] == -r[9];
    assert r[12] < 0.0 && r[13] != 0.0 && r[14] == r[12] && r[15] == -r[13];
    assert r[16] < 0.0 && r[17] != 0.0 && r[18] == r[16] && r[19] == -r[17];
    assert r[20] < 0.0 && r[21] != 0.0 && r[22] == r[20] && r[23] == -r[21];
    assert r[24] < 0.0 && r[25] != 0.0 && r[26] == r[24] && r[27] == -r[25];
    assert r[28] < 0.0 && r[29] != 0.0 && r[30] == r[28] && r[31] == -r[29];
    assert r[32] < 0.0 && r[33] != 0.0 && r[34] == r[32] && r[35] == -r[33];
  }

  lemma Row18Checked()
    ensures RowChecked(18)
  {
    Row18Poles();
    var ps := BesselRow(18);
    PairStep(ps, 16);
    PairStep(ps, 14);
    PairStep(ps, 12);
    PairStep(ps, 10);
    PairStep(ps, 8);
    PairStep(ps, 6);
    PairStep(ps, 4);
    PairStep(ps, 2);
    PairStep(ps, 0);
  }

  lemma Row19Poles()
    ensures BesselRow(19)[0].re < 0.0 && BesselRow(19)[0].im > 0.0 && BesselRow(19)[1] == Complex(BesselRow(19)[0].re, -BesselRow(19)[0].im)
    ensures BesselRow(19)[2].re < 0.0 && BesselRow(19)[2].im > 0.0 && BesselRow(19)[3] == Complex(BesselRow(19)[2].re, -BesselRow(19)[2].im)
    ensures BesselRow(19)[4].re < 0.0 && BesselRow(19)[4].im > 0.0 && BesselRow(19)[5] == Complex(BesselRow(19)[4].re, -BesselRow(19)[4].im)
    ensures BesselRow(19)[6].re < 0.0 && BesselRow(19)[6].im > 0.0 && BesselRow(19)[7] == Complex(BesselRow(19)[6].re, -BesselRow(19)[6].im)
    ensures BesselRow(19)[8].re < 0.0 && BesselRow(19)[8].im > 0.0 && BesselRow(19)[9] == Complex(BesselRow(19)[8].re, -BesselRow(19)[8].im)
    ensures BesselRow(19)[10].re < 0.0 && BesselRow(19)[10].im > 0.0 && BesselRow(19)[11] == Complex(BesselRow(19)[10].re, -BesselRow(19)[10].im)
    ensures BesselRow(19)[12].re < 0.0 && BesselRow(19)[12].im > 0.0 && BesselRow(19)[13] == Complex(BesselRow(19)[12].re, -BesselRow(19)[12].im)
    ensures BesselRow(19)[14].re < 0.0 && BesselRow(19)[14].im > 0.0 && BesselRow(19)[15] == Complex(BesselRow(19)[14].re, -BesselRow(19)[14].im)
    ensures BesselRow(19)[16].re < 0.0 && BesselRow(19)[16].im == 0.0
    ensures BesselRow(19)[17].re < 0.0 && BesselRow(19)[17].im > 0.0 && BesselRow(19)[18] == Complex(BesselRow(19)[17].re, -BesselRow(19)[17].im)
  {
    var r := BesselPoles[18];
    assert |r| == 39;
    assert r[0] < 0.0 && r[1] != 0.0 && r[2] == r[0] && r[3] == -r[1];
    assert r[4] < 0.0 && r[5] != 0.0 && r[6] == r[4] && r[7] == -r[5];
    assert r[8] < 0.0 && r[9] != 0.0 && r[10] == r[8] && r[11] == -r[9];
    assert r[12] < 0.0 && r[13] != 0.0 && r[14] == r[12] && r[15] == -r[13];
    assert r[16] < 0.0 && r[17] != 0.0 && r[18] == r[16] && r[19] == -r[17];
    assert r[20] < 0.0 && r[21] != 0.0 && r[22] == r[20] && r[23] == -r[21];
    assert r[24] < 0.0 && r[25] != 0.0 && r[26] == r[24] && r[27] == -r[25];
    assert r[28] < 0.0 && r[29] != 0.0 && r[30] == r[28] && r[31] == -r[29];
    assert r[32] < 0.0 && r[33] == 0.0;
    assert r[34] < 0.0 && r[35] != 0.0 && r[36] == r[34] && r[37] == -r[35];
  }

  lemma Row19Checked()
    ensures RowChecked(19)
  {
    Row19Poles();
    var ps := BesselRow(19);
    PairStep(ps, 17);
    RealStep(ps, 16);
    PairStep(ps, 14);
    PairStep(ps, 12);
    PairStep(ps, 10);
    PairStep(ps, 8);
    PairStep(ps, 6);
    PairStep(ps, 4);
    PairStep(ps, 2);
    PairStep(ps, 0);
  }

  lemma Row20Poles()
    ensures BesselRow(20)[0].re < 0.0 && BesselRow(20)[0].im > 0.0 && BesselRow(20)[1] == Complex(BesselRow(20)[0].re, -BesselRow(20)[0].im)
    ensures BesselRow(20)[2].re < 0.0 && BesselRow(20)[2].im > 0.0 && BesselRow(20)[3] == Complex(BesselRow(20)[2].re, -BesselRow(20)[2].im)
    ensures BesselRow(20)[4].re < 0.0 && BesselRow(20)[4].im > 0.0 && BesselRow(20)[5] == Complex(BesselRow(20)[4].re, -BesselRow(20)[4].im)
    ensures BesselRow(20)[6].re < 0.0 && BesselRow(20)[6].im > 0.0 && BesselRow(20)[7] == Complex(BesselRow(20)[6].re, -BesselRow(20)[6].im)
    ensures BesselRow(20)[8].re < 0.0 && BesselRow(20)[8].im > 0.0 && BesselRow(20)[9] == Complex(BesselRow(20)[8].re, -BesselRow(20)[8].im)
    ensures BesselRow(20)[10].re < 0.0 && BesselRow(20)[10].im > 0.0 && BesselRow(20)[11] == Complex(BesselRow(20)[10].re, -BesselRow(20)[10].im)
    ensures BesselRow(20)[12].re < 0.0 && BesselRow(20)[12].im > 0.0 && BesselRow(20)[13] == Complex(BesselRow(20)[12].re, -BesselRow(20)[12].im)
    ensures BesselRow(20)[14].re < 0.0 && BesselRow(20)[14].im > 0.0 && BesselRow(20)[15] == Complex(BesselRow(20)[14].re, -BesselRow(20)[14].im)
    ensures BesselRow(20)[16].re < 0.0 && BesselRow(20)[16].im > 0.0 && BesselRow(20)[17] == Complex(BesselRow(20)[16].re, -BesselRow(20)[16].im)
    ensures BesselRow(20)[18].re < 0.0 && BesselRow(20)[18].im > 0.0 && BesselRow(20)[19] == Complex(BesselRow(20)[18].re, -BesselRow(20)[18].im)
  {
    var r := BesselPoles[19];
    assert |r| == 40;
    assert r[0] < 0.0 && r[1] != 0.0 && r[2] == r[0] && r[3] == -r[1];
    assert r[4] < 0.0 && r[5] != 0.0 && r[6] == r[4] && r[7] == -r[5];
    assert r[8] < 0.0 && r[9] != 0.0 && r[10] == r[8] && r[11] == -r[9];
    assert r[12] < 0.0 && r[13] != 0.0 && r[14] == r[12] && r[15] == -r[13];
    assert r[16] < 0.0 && r[17] != 0.0 && r[18] == r[16] && r[19] == -r[17];
    assert r[20] < 0.0 && r[21] != 0.0 && r[22] == r[20] && r[23] == -r[21];
    assert r[24] < 0.0 && r[25] != 0.0 && r[26] == r[24] && r[27] == -r[25];
    assert r[28] < 0.0 && r[29] != 0.0 && r[30] == r[28] && r[31] == -r[29];
    assert r[32] < 0.0 && r[33] != 0.0 && r[34] == r[32] && r[35] == -r[33];
    assert r[36] < 0.0 && r[37] != 0.0 && r[38] == r[36] && r[39] == -r[37];
  }

  lemma Row20Checked()
    ensures RowChecked(20)
  {
    Row20Poles();
    var ps := BesselRow(20);
    PairStep(ps, 18);
    PairStep(ps, 16);
    PairStep(ps, 14);
    PairStep(ps, 12);
    PairStep(ps, 10);
    PairStep(ps, 8);
    PairStep(ps, 6);
    PairStep(ps, 4);
    PairStep(ps, 2);
    PairStep(ps, 0);
  }

  /** Every row of the table passes RowChecked. */
  lemma BesselRowChecked(n: int)
    requires 1 <= n <= BesselPolesSize
    ensures 2 * n <= |BesselPoles[n - 1]| <= BesselWidth
    ensures ZeroPadded(n - 1)
    ensures StableFrom(BesselRow(n), 0) && PairedFrom(BesselRow(n), 0)
    ensures RealCountFrom(BesselRow(n), 0) == n % 2
  {
    BesselRowLengths();
    if n == 1 {
      Row1Checked();
    } else if n == 2 {
      Row2Checked();
    } else if n == 3 {
      Row3Checked();
    } else if n == 4 {
      Row4Checked();
    } else if n == 5 {
      Row5Checked();
    } else if n == 6 {
      Row6Checked();
    } else if n == 7 {
      Row7Checked();
    } else if n == 8 {
      Row8Checked();
    } else if n == 9 {
      Row9Checked();
    } else if n == 10 {
      Row10Checked();
    } else if n == 11 {
      Row11Checked();
    } else if n == 12 {
      Row12Checked();
    } else if n == 13 {
      Row13Checked();
    } else if n == 14 {
      Row14Checked();
    } else if n == 15 {
      Row15Checked();
    } else if n == 16 {
      Row16Checked();
    } else if n == 17 {
      Row17Checked();
    } else if n == 18 {
      Row18Checked();
    } else if n == 19 {
      Row19Checked();
    } else {
      Row20Checked();
    }
  }

  /** The table has 20 rows; row n-1 holds n poles in its first 2n entries and zero padding after them. */
  lemma BesselTableShape()
    ensures BesselPolesSize == 20
    ensures forall n :: 1 <= n <= BesselPolesSize ==> 2 * n <= |BesselPoles[n - 1]| <= BesselWidth
    ensures forall row, j :: 0 <= row < BesselPolesSize && 2 * (row + 1) <= j < BesselWidth ==> Entry(row, j) == 0.0
  {
    forall n | 1 <= n <= BesselPolesSize
      ensures 2 * n <= |BesselPoles[n - 1]| <= BesselWidth
      ensures ZeroPadded(n - 1)
    {
      BesselRowChecked(n);
    }
  }

  /** Every tabulated pole has a strictly negative real part. */
  lemma BesselPolesStable(n: int)
    requires 1 <= n <= BesselPolesSize
    ensures forall i :: 0 <= i < n ==> BesselRow(n)[i].re < 0.0
  {
    BesselRowChecked(n);
    StableFromAll(BesselRow(n), 0);
  }

  /**
   * Each row is made of real poles and adjacent conjugate pairs, so its
   * imaginary parts sum to zero; odd orders have exactly one real pole and
   * even orders none.
   */
  lemma BesselPolesConjugate(n: int)
    requires 1 <= n <= BesselPolesSize
    ensures PairedFrom(BesselRow(n), 0)
    ensures ImagSumFrom(BesselRow(n), 0) == 0.0
    ensures RealCountFrom(BesselRow(n), 0) == if n % 2 == 1 then 1 else 0
  {
    BesselRowChecked(n);
    PairedImagSum(BesselRow(n), 0);
  }

  /** The first two rows, exactly. */
  lemma BesselLowOrders()
    ensures BesselRow(1) == [Complex(-1.0, 0.0)]
    ensures BesselRow(2) == [Complex(-1.5, 0.866025), Complex(-1.5, -0.866025)]
  {
    assert BesselRow(1)[0] == Complex(-1.0, 0.0);
    assert BesselRow(2)[0] == Complex(-1.5, 0.866025);
    assert BesselRow(2)[1] == Complex(-1.5, -0.866025);
  }
}
