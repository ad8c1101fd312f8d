/**
 * Component values of a realised stage: the unit scaling the part list
 * applies to resistors (given in kilo-ohms) and capacitors (given in
 * micro-farads), the choice between "not used", "short" and a scaled value,
 * and the scan for NaN values that calcFilter runs over every stage.
 * Arithmetic is exact; the doubles' rounding is not modelled.
 */
module Components {
  import opened FilterTypes

  /** A value together with the unit prefix chosen for it. */
  datatype Scaled = Scaled(value: Value, suffix: string)

  /** x * k for a positive factor k, with the IEEE rules for the non-finite values. */
  function ScaleBy(v: Value, k: real): (w: Value)
    requires k > 0.0
    ensures v.Num? <==> w.Num?
    ensures v.Num? ==> w.x == v.x * k
    ensures !v.Num? ==> w == v
  {
    match v
    case Num(x) => Num(x * k)
    case _ => v
  }

  /** `v >= t` on a double: false for NaN, true for +infinity, false for -infinity. */
  predicate AtLeast(v: Value, t: real)
  {
    match v
    case Num(x) => x >= t
    case PosInf => true
    case NegInf => false
    case NaN => false
  }

  /** The multiplier of a resistor prefix: ohms per displayed unit. */
  function OhmsPer(suffix: string): real
  {
    if suffix == "M" then 1000000.0 else if suffix == "k" then 1000.0 else 1.0
  }

  /** The multiplier of a capacitor prefix: farads per displayed unit. */
  function FaradsPer(suffix: string): real
  {
    if suffix == "u" then 0.000001 else if suffix == "n" then 0.000000001 else 0.000000000001
  }

  /**
   * autoscaleResistor: an infinite resistance is returned as it is, with no
   * prefix. Otherwise the value in kilo-ohms is converted to ohms and shown in
   * mega-ohms from 1e6 ohms on, in kilo-ohms from 1e3 ohms on, else in ohms.
   */
  function AutoscaleResistor(r: Value): (s: Scaled)
    ensures r == PosInf ==> s == Scaled(PosInf, "")
    ensures !r.Num? ==> s.value == r && s.suffix == ""
    ensures r.Num? ==> s.value.Num?
    ensures r.Num? ==> (s.suffix == "M" <==> r.x >= 1000.0)
    ensures r.Num? ==> (s.suffix == "k" <==> 1.0 <= r.x < 1000.0)
    ensures r.Num? ==> (s.suffix == "" <==> r.x < 1.0)
    ensures r.Num? ==> s.value.x * OhmsPer(s.suffix) == r.x * 1000.0
    ensures r.Num? && s.suffix == "M" ==> s.value.x >= 1.0
    ensures r.Num? && s.suffix == "k" ==> s.value == r && 1.0 <= s.value.x < 1000.0
    ensures r.Num? && s.suffix == "" ==> s.value.x < 1000.0
  {
    if r == PosInf then Scaled(r, "")
    else
      var ohms := ScaleBy(r, 1000.0);
      if AtLeast(ohms, 1000000.0) then Scaled(ScaleBy(ohms, 0.000001), "M")
      else if AtLeast(ohms, 1000.0) then Scaled(ScaleBy(ohms, 0.001), "k")
      else Scaled(ohms, "")
  }

  /**
   * autoscaleCapacitor: the value in micro-farads is converted to farads and
   * shown in micro-farads from 1e-6 F on, in nano-farads from 1e-9 F on, else
   * in pico-farads. +infinity counts as large, NaN and -infinity as small.
   */
  function AutoscaleCapacitor(c: Value): (s: Scaled)
    ensures c == PosInf ==> s == Scaled(PosInf, "u")
    ensures c == NaN || c == NegInf ==> s == Scaled(c, "p")
    ensures c.Num? ==> s.value.Num?
    ensures c.Num? ==> (s.suffix == "u" <==> c.x >= 1.0)
    ensures c.Num? ==> (s.suffix == "n" <==> 0.001 <= c.x < 1.0)
    ensures c.Num? ==> (s.suffix == "p" <==> c.x < 0.001)
    ensures c.Num? ==> s.value.x * FaradsPer(s.suffix) == c.x * 0.000001
    ensures c.Num? && s.suffix == "u" ==> s.value == c
    ensures c.Num? && s.suffix == "n" ==> 1.0 <= s.value.x < 1000.0
    ensures c.Num? && s.suffix == "p" ==> s.value.x < 1000.0
  {
    var farads := ScaleBy(c, 0.000001);
    if AtLeast(farads, 0.000001) then Scaled(ScaleBy(farads, 1000000.0), "u")
    else if AtLeast(farads, 0.000000001) then Scaled(ScaleBy(farads, 1000000000.0), "n")
    else Scaled(ScaleBy(farads, 1000000000000.0), "p")
  }

  /** What the part list prints for one component. */
  datatype Cell = NotUsed | Short | Shown(scaled: Scaled)

  /** The part-list entry of a resistor: +infinity is "not used", 0 is "short". */
  function ResistorCell(r: Value): (c: Cell)
    ensures c == NotUsed <==> r == PosInf
    ensures c == Short <==> r == Num(0.0)
    ensures c.Shown? ==> c.scaled == AutoscaleResistor(r) && r != PosInf && r != Num(0.0)
  {
    if r == PosInf then NotUsed
    else if r == Num(0.0) then Short
    else Shown(AutoscaleResistor(r))
  }

  /** The part-list entry of a capacitor: 0 is "not used". */
  function CapacitorCell(c: Value): (cell: Cell)
    ensures cell == NotUsed <==> c == Num(0.0)
    ensures cell != Short
    ensures cell.Shown? ==> cell.scaled == AutoscaleCapacitor(c)
  {
    if c == Num(0.0) then NotUsed else Shown(AutoscaleCapacitor(c))
  }

  /**
   * A default-initialised stage is number 0 with no gain, and every one of
   * its resistors and capacitors is printed as "not used".
   */
  lemma DefaultStageNotUsed()
    ensures DefaultElements().n == 0 && DefaultElements().au == Num(0.0)
    ensures forall f :: f in {R1, R2, R3, R4, R5, R6} ==> ResistorCell(FieldValue(DefaultElements(), f)) == NotUsed
    ensures CapacitorCell(DefaultElements().c1) == NotUsed && CapacitorCell(DefaultElements().c2) == NotUsed
    ensures forall f :: FieldValue(DefaultElements(), f) != NaN
  {
  }

  /** The position of a field in the order checkRCL tests them. */
  function FieldRank(f: Field): nat
  {
    match f
    case R1 => 0
    case R2 => 1
    case R3 => 2
    case R4 => 3
    case R5 => 4
    case R6 => 5
    case C1 => 6
    case C2 => 7
  }

  /** A stage none of whose checked fields is NaN. */
  predicate NaNFree(e: RCElements)
  {
    forall f :: FieldValue(e, f) != NaN
  }

  /** The first field of a stage, in checking order, that holds NaN; None if there is none. */
  function FirstNaN(e: RCElements): (r: Option<Field>)
    ensures r.None? <==> NaNFree(e)
    ensures r.Some? ==> FieldValue(e, r.value) == NaN
    ensures r.Some? ==> forall g :: FieldRank(g) < FieldRank(r.value) ==> FieldValue(e, g) != NaN
  {
    if e.r1 == NaN then assert FieldValue(e, R1) == NaN; Some(R1)
    else if e.r2 == NaN then assert FieldValue(e, R2) == NaN; Some(R2)
    else if e.r3 == NaN then assert FieldValue(e, R3) == NaN; Some(R3)
    else if e.r4 == NaN then assert FieldValue(e, R4) == NaN; Some(R4)
    else if e.r5 == NaN then assert FieldValue(e, R5) == NaN; Some(R5)
    else if e.r6 == NaN then assert FieldValue(e, R6) == NaN; Some(R6)
    else if e.c1 == NaN then assert FieldValue(e, C1) == NaN; Some(C1)
    else if e.c2 == NaN then assert FieldValue(e, C2) == NaN; Some(C2)
    else None
  }

  /**
   * checkRCL: scans the stages in order and, within a stage, R1 .. R6, C1,
   * C2; the first NaN raises an error naming its field. It passes exactly
   * when no stage holds a NaN.
   */
  function CheckRCL(sections: seq<RCElements>): (o: Outcome)
    ensures o == Pass <==> forall i :: 0 <= i < |sections| ==> NaNFree(sections[i])
    ensures o.Fail? ==> o.error.InvalidValue?
  {
    if |sections| == 0 then Pass
    else match FirstNaN(sections[0])
      case Some(f) => Fail(InvalidValue(f))
      case None =>
        var rest := CheckRCL(sections[1..]);
        assert forall i :: 1 <= i < |sections| ==> sections[i] == sections[1..][i - 1];
        rest
  }

  /**
   * An error from checkRCL names the first NaN field of the first stage that
   * holds one: every stage before it is free of NaN.
   */
  lemma {:induction false} CheckRCLNamesFirstNaN(sections: seq<RCElements>)
    requires CheckRCL(sections).Fail?
    ensures exists i :: 0 <= i < |sections| && FirstNaN(sections[i]) == Some(CheckRCL(sections).error.field)
                      && forall k :: 0 <= k < i ==> NaNFree(sections[k])
  {
    if FirstNaN(sections[0]).Some? {
      assert FirstNaN(sections[0]) == Some(CheckRCL(sections).error.field);
    } else {
      CheckRCLNamesFirstNaN(sections[1..]);
      var i :| 0 <= i < |sections| - 1 && FirstNaN(sections[1..][i]) == Some(CheckRCL(sections[1..]).error.field)
               && forall k :: 0 <= k < i ==> NaNFree(sections[1..][k]);
      assert FirstNaN(sections[i + 1]) == Some(CheckRCL(sections).error.field);
      assert forall k :: 0 <= k < i + 1 ==> NaNFree(sections[k]) by {
        forall k | 0 <= k < i + 1
          ensures NaNFree(sections[k])
        {
          if k > 0 {
            assert sections[k] == sections[1..][k - 1];
          }
        }
      }
    }
  }
}
