/**
 * DimensionArrangement: the eight layouts of the channel (C), depth (Z) and
 * time (T) axes behind the two spatial axes X and Y.  Each layout records,
 * for every axis, whether it is present and its index in the source array
 * (dimC, dimZ, dimT), and for Z and T their index in the space a projector
 * works in (targetDimZ, targetDimT), where the C axis has been sliced away.
 * The table is reproduced as written, including two irregular entries:
 * XYC places its channel axis at index 0, and dropT maps XYZT to XYT.
 */
module Arrangement {

  /** The constructor arguments of one enum constant, in the source's order. */
  datatype Row = Row(
    hasC: bool, hasZ: bool, hasT: bool,
    dimC: nat, dimZ: nat, targetDimZ: nat, dimT: nat, targetDimT: nat)

  datatype DimensionArrangement = XY | XYC | XYZ | XYT | XYCT | XYCZ | XYZT | XYCZT {

    function Table(): Row
    {
      match this
      case XY    => Row(false, false, false, 0, 0, 0, 0, 0)
      case XYC   => Row(true, false, false, 0, 0, 0, 0, 0)
      case XYZ   => Row(false, true, false, 0, 2, 2, 0, 0)
      case XYT   => Row(false, false, true, 0, 0, 0, 2, 2)
      case XYCT  => Row(true, false, true, 2, 0, 0, 3, 2)
      case XYCZ  => Row(true, true, false, 2, 3, 2, 0, 0)
      case XYZT  => Row(false, true, true, 0, 2, 2, 3, 3)
      case XYCZT => Row(true, true, true, 2, 3, 2, 4, 3)
    }

    predicate HasC() { Table().hasC }
    predicate HasZ() { Table().hasZ }
    predicate HasT() { Table().hasT }

    /** The source index of the channel axis; every layout with C has one inside the source rank. */
    function DimC(): (d: nat)
      ensures HasC() ==> d < NumDimensions()
    {
      Table().dimC
    }

    /** The source index of Z: right after X, Y and a present C. */
    function DimZ(): (d: nat)
      ensures HasZ() ==> 2 <= d < NumDimensions()
      ensures HasZ() ==> d == 2 + (if HasC() then 1 else 0)
    {
      Table().dimZ
    }

    /** The source index of T: after X, Y and the present C and Z. */
    function DimT(): (d: nat)
      ensures HasT() ==> 2 <= d < NumDimensions()
      ensures HasT() ==> d == 2 + (if HasC() then 1 else 0) + (if HasZ() then 1 else 0)
    {
      Table().dimT
    }

    /** The rank of the space a projector works in: C, when present, has been sliced away. */
    function ProjectorRank(): nat
    {
      if HasC() then NumDimensions() - 1 else NumDimensions()
    }

    /**
     * Where Z sits once C is sliced away: one lower than dimZ when C is present.
     * Whatever the layout, it is a valid coordinate of the projector.
     */
    function TargetDimZ(): (d: nat)
      ensures d < ProjectorRank()
      ensures HasZ() ==> d == DimZ() - (if HasC() then 1 else 0)
    {
      Table().targetDimZ
    }

    /** Where T sits once C is sliced away; always a valid coordinate of the projector. */
    function TargetDimT(): (d: nat)
      ensures d < ProjectorRank()
      ensures HasT() ==> d == DimT() - (if HasC() then 1 else 0)
    {
      Table().targetDimT
    }

    /** numDimensions(): two spatial axes plus one per present axis. */
    function NumDimensions(): (n: nat)
      ensures 2 <= n <= 5
      ensures n == 2 <==> this == XY
      ensures n == 5 <==> this == XYCZT
    {
      var n := 2;
      var n := if HasC() then n + 1 else n;
      var n := if HasZ() then n + 1 else n;
      if HasT() then n + 1 else n
    }

    /** dropC(): the layout with the channel axis removed. */
    function DropC(): (r: DimensionArrangement)
      ensures r == FromFlags(false, HasZ(), HasT())
      ensures !HasC() ==> r == this
      ensures r.NumDimensions() == NumDimensions() - (if HasC() then 1 else 0)
    {
      match this
      case XYC => XY
      case XYCT => XYT
      case XYCZ => XYZ
      case XYCZT => XYZT
      case _ => this
    }

    /** dropZ(): the layout with the depth axis removed. */
    function DropZ(): (r: DimensionArrangement)
      ensures r == FromFlags(HasC(), false, HasT())
      ensures !HasZ() ==> r == this
      ensures r.NumDimensions() == NumDimensions() - (if HasZ() then 1 else 0)
    {
      match this
      case XYZ => XY
      case XYCZ => XYC
      case XYZT => XYT
      case XYCZT => XYCT
      case _ => this
    }

    /**
     * dropT(): the layout with the time axis removed -- except for XYZT,
     * which the source maps to XYT, losing Z and keeping T.  The rank still
     * drops by one.
     */
    function DropT(): (r: DimensionArrangement)
      ensures this != XYZT ==> r == FromFlags(HasC(), HasZ(), false)
      ensures this == XYZT ==> r == XYT && r.HasT() && !r.HasZ()
      ensures !HasT() ==> r == this
      ensures r.NumDimensions() == NumDimensions() - (if HasT() then 1 else 0)
    {
      match this
      case XYT => XY
      case XYCT => XYC
      case XYZT => XYT
      case XYCZT => XYCZ
      case _ => this
    }
  }

  /**
   * The layout with the given presence flags.  Not in the source: the
   * reference the drop operations are checked against.
   */
  function FromFlags(hasC: bool, hasZ: bool, hasT: bool): (a: DimensionArrangement)
    ensures a.HasC() == hasC && a.HasZ() == hasZ && a.HasT() == hasT
  {
    if hasC then
      if hasZ then (if hasT then XYCZT else XYCZ)
      else (if hasT then XYCT else XYC)
    else
      if hasZ then (if hasT then XYZT else XYZ)
      else (if hasT then XYT else XY)
  }

  /** The eight layouts are exactly the eight combinations of presence flags. */
  lemma FlagsDetermineLayout(a: DimensionArrangement)
    ensures FromFlags(a.HasC(), a.HasZ(), a.HasT()) == a
  {
  }

  /** The non-spatial axes. */
  datatype AxisName = C | Z | T

  /** The non-spatial axes a layout has. */
  function PresentAxes(a: DimensionArrangement): set<AxisName>
  {
    (if a.HasC() then {C} else {}) + (if a.HasZ() then {Z} else {}) + (if a.HasT() then {T} else {})
  }

  /** numDimensions() is two plus the number of present axes. */
  lemma NumDimensionsCountsAxes(a: DimensionArrangement)
    ensures a.NumDimensions() == 2 + |PresentAxes(a)|
  {
    var c: set<AxisName> := if a.HasC() then {C} else {};
    var z: set<AxisName> := if a.HasZ() then {Z} else {};
    var t: set<AxisName> := if a.HasT() then {T} else {};
    assert PresentAxes(a) == c + z + t;
    assert c !! z && (c + z) !! t;
  }

  /** dropC and dropZ are idempotent; dropT is not, on XYZT. */
  lemma DropIdempotence(a: DimensionArrangement)
    ensures a.DropC().DropC() == a.DropC()
    ensures a.DropZ().DropZ() == a.DropZ()
    ensures a.DropT().DropT() == a.DropT() <==> a != XYZT
  {
  }

  /** XYC is the one layout whose channel axis is not at index 2. */
  lemma ChannelIndexIrregularity(a: DimensionArrangement)
    ensures a.HasC() ==> (a.DimC() == 2 <==> a != XYC)
    ensures XYC.HasC() && XYC.DimC() == 0
  {
  }
}
