/**
 * ImgLib2IcyFunctions: guessing the axis layout of an image from its rank
 * and extents (heuristics), and wrapping an image as a virtual sequence
 * with that layout.
 */
module IcyFunctions {
  import opened Errors
  import opened ImgLib2
  import opened Arrangement
  import opened PluginVirtualSequence

  /** At most this many planes along an axis make it a channel axis. */
  const MaxChannels := 5
  /** At most this many planes along a non-channel axis make it a depth axis. */
  const MaxSlices := 41

  /**
   * heuristics: rank 2 or less is XY; rank 3 is C, Z or T by the extent of
   * axis 2; rank 4 is CZ or CT when axis 2 is short enough to be C (then
   * Z or T by the extent of axis 3), otherwise ZT; rank 5 is XYCZT; a
   * higher rank is refused.
   */
  function Heuristics(source: SourceView): (r: Result<DimensionArrangement>)
    ensures r.Failure? <==> source.NumDimensions() > 5
    ensures r.Failure? ==> r.error == TooManyDimensions(source.NumDimensions())
    ensures r.Success? && source.NumDimensions() >= 2 ==> r.value.NumDimensions() == source.NumDimensions()
  {
    var n := source.NumDimensions();
    if n <= 2 then Success(XY)
    else if n == 3 then
      var l := source.Dimension(2);
      if l <= MaxChannels then Success(XYC)
      else if l <= MaxSlices then Success(XYZ)
      else Success(XYT)
    else if n == 4 then
      var l1 := source.Dimension(2);
      if l1 <= MaxChannels then
        var l2 := source.Dimension(3);
        if l2 <= MaxSlices then Success(XYCZ) else Success(XYCT)
      else Success(XYZT)
    else if n == 5 then Success(XYCZT)
    else Failure(TooManyDimensions(n))
  }

  /** Below rank 2 the guess is still XY, whose rank 2 the constructor's rank check then refuses. */
  lemma HeuristicsBelowRankTwo(source: SourceView)
    requires source.NumDimensions() < 2
    ensures Heuristics(source) == Success(XY)
    ensures Configure(source, XY) == Failure(DimensionalityMismatch(2, source.NumDimensions()))
  {
  }

  /**
   * The rank 3 and rank 4 thresholds, stated per layout: the extent of axis
   * 2 decides whether there is a channel axis, and the extent of the next
   * non-channel axis decides depth against time.
   */
  lemma HeuristicsThresholds(source: SourceView)
    requires 3 <= source.NumDimensions() <= 4
    ensures Heuristics(source).value.HasC() <==> source.Dimension(2) <= MaxChannels
    ensures source.NumDimensions() == 3 ==>
      (Heuristics(source).value.HasZ() <==> MaxChannels < source.Dimension(2) <= MaxSlices)
    ensures source.NumDimensions() == 3 ==>
      (Heuristics(source).value.HasT() <==> source.Dimension(2) > MaxSlices)
    ensures source.NumDimensions() == 4 && source.Dimension(2) <= MaxChannels ==>
      (Heuristics(source).value.HasZ() <==> source.Dimension(3) <= MaxSlices)
    ensures source.NumDimensions() == 4 && source.Dimension(2) > MaxChannels ==>
      Heuristics(source).value == XYZT
  {
  }

  /**
   * wrap(img) = wrap(img, heuristics(img)): the guessed layout, then the
   * virtual sequence constructor.  A rank above 5 fails in the guess; a
   * rank below 2 and an unsupported pixel type fail in the constructor.
   */
  method Wrap(source: SourceView) returns (r: Result<VirtualSequence>)
    ensures r.Failure? <==>
      source.NumDimensions() < 2 || source.NumDimensions() > 5
      || source.pixelType !in {UnsignedByteType, UnsignedShortType, FloatType}
    ensures source.NumDimensions() > 5 ==> r == Failure(TooManyDimensions(source.NumDimensions()))
    ensures r.Success? ==>
      && fresh(r.value) && r.value.Valid()
      && r.value.source == source && r.value.arrangement == Heuristics(source).value
      && r.value.arrangement.NumDimensions() == source.NumDimensions()
  {
    var arrangement := Heuristics(source);
    if arrangement.Failure? {
      return Failure(arrangement.error);
    }
    r := VirtualSequence.Create(source, arrangement.value);
  }
}
