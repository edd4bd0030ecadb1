/**
 * The lazily mapped Sequence of the plugin package: a view on an ImgLib2
 * source whose one IcyBufferedImage is refilled, channel by channel, by a
 * 2-D projector per channel.  The projectors are re-positioned and mapped
 * only when the requested (t, z) differs from the cache key
 * (previousT, previousZ), and every query hands out the same image object.
 */
module PluginVirtualSequence {
  import opened Errors
  import opened ImgLib2
  import opened Icy
  import opened Arrangement

  /** What the constructor derives from the source before it builds anything. */
  datatype Layout = Layout(
    sizeX: nat, sizeY: nat,
    minZ: int, maxZ: int,
    sizeZ: nat, sizeT: nat, sizeC: nat,
    storage: PixelType, converter: Converter, dataType: DataType)

  /**
   * The checks and size computations of the constructor: first the rank
   * check, then the pixel type switch (unsigned byte, unsigned short and
   * float only).  An absent axis has extent 1, and an absent Z the range 0..0.
   */
  function Configure(source: SourceView, arrangement: DimensionArrangement): (r: Result<Layout>)
    ensures r.Success? <==>
      source.NumDimensions() == arrangement.NumDimensions()
      && source.pixelType in {UnsignedByteType, UnsignedShortType, FloatType}
    ensures source.NumDimensions() != arrangement.NumDimensions() ==>
      r == Failure(DimensionalityMismatch(arrangement.NumDimensions(), source.NumDimensions()))
    ensures source.NumDimensions() == arrangement.NumDimensions() && source.pixelType == PixelType.NonNativeType ==>
      r == Failure(Error.NonNativeType)
    ensures (source.NumDimensions() == arrangement.NumDimensions()
             && source.pixelType !in {UnsignedByteType, UnsignedShortType, FloatType, PixelType.NonNativeType}) ==>
      r == Failure(UnsupportedType)
    ensures r.Success? ==>
      && (source.pixelType == UnsignedByteType <==> r.value.dataType == UBYTE)
      && (source.pixelType == UnsignedShortType <==> r.value.dataType == USHORT)
      && (source.pixelType == FloatType <==> r.value.dataType == FLOAT)
    ensures r.Success? ==> var l := r.value;
      && l.sizeX == source.Dimension(0) && l.sizeY == source.Dimension(1)
      && l.maxZ - l.minZ + 1 == l.sizeZ
      && (arrangement.HasZ() ==> l.minZ == source.Min(arrangement.DimZ()) && l.sizeZ == source.Dimension(arrangement.DimZ()))
      && (!arrangement.HasZ() ==> l.minZ == 0 && l.maxZ == 0 && l.sizeZ == 1)
      && l.sizeT == (if arrangement.HasT() then source.Dimension(arrangement.DimT()) else 1)
      && l.sizeC == (if arrangement.HasC() then source.Dimension(arrangement.DimC()) else 1)
      && l.storage == source.pixelType
      && (l.dataType == UBYTE <==> l.converter == Clamp(0, 255))
      && (l.dataType == USHORT <==> l.converter == Clamp(0, 65535))
      && (l.dataType == FLOAT <==> l.converter == ToFloat)
  {
    if source.NumDimensions() != arrangement.NumDimensions() then
      Failure(DimensionalityMismatch(arrangement.NumDimensions(), source.NumDimensions()))
    else
      var sizeX := source.Dimension(0);
      var sizeY := source.Dimension(1);
      var (minZ, maxZ, sizeZ) :=
        if arrangement.HasZ() then
          var d := arrangement.DimZ();
          (source.Min(d), source.Max(d), source.Dimension(d))
        else (0, 0, 1);
      var sizeT := if arrangement.HasT() then source.Dimension(arrangement.DimT()) else 1;
      var sizeC := if arrangement.HasC() then source.Dimension(arrangement.DimC()) else 1;
      match source.pixelType
      case NonNativeType => Failure(Error.NonNativeType)
      case UnsignedByteType =>
        Success(Layout(sizeX, sizeY, minZ, maxZ, sizeZ, sizeT, sizeC, UnsignedByteType, Clamp(0, 255), UBYTE))
      case UnsignedShortType =>
        Success(Layout(sizeX, sizeY, minZ, maxZ, sizeZ, sizeT, sizeC, UnsignedShortType, Clamp(0, 65535), USHORT))
      case FloatType =>
        Success(Layout(sizeX, sizeY, minZ, maxZ, sizeZ, sizeT, sizeC, FloatType, ToFloat, FLOAT))
      case _ => Failure(UnsupportedType)
  }

  /** The data a channel's projector reads: the hyperslice at that channel, or the whole source. */
  function ChannelView(arrangement: DimensionArrangement, c: nat): View
  {
    if arrangement.HasC() then HyperSlice(arrangement.DimC(), c) else Whole
  }

  /**
   * Z and T are written to different projector coordinates exactly when the
   * layout has Z or T; for XY and XYC both are written to coordinate 0.
   */
  predicate DistinctTargets(arrangement: DimensionArrangement)
  {
    arrangement.TargetDimZ() != arrangement.TargetDimT()
  }

  lemma DistinctTargetsIffDepthOrTime(arrangement: DimensionArrangement)
    ensures DistinctTargets(arrangement) <==> arrangement.HasZ() || arrangement.HasT()
  {
  }

  /**
   * The projectors the constructor builds: with a channel axis, one per
   * channel over that channel's hyperslice, otherwise one over the whole
   * source; each is mapped once at the origin.
   */
  method NewProjectors(arrangement: DimensionArrangement, sizeC: nat) returns (ps: seq<Projector>)
    requires !arrangement.HasC() ==> sizeC == 1
    ensures |ps| == sizeC
    ensures forall i :: 0 <= i < |ps| ==>
      fresh(ps[i]) && ps[i].view == ChannelView(arrangement, i)
      && ps[i].position == Zeros(arrangement.ProjectorRank()) && ps[i].mapped == [Zeros(arrangement.ProjectorRank())]
    ensures forall i, j :: 0 <= i < j < |ps| ==> ps[i] != ps[j]
  {
    var rank := arrangement.ProjectorRank();
    ps := [];
    if arrangement.HasC() {
      for c := 0 to sizeC
        invariant |ps| == c
        invariant forall k :: 0 <= k < c ==>
          fresh(ps[k]) && ps[k].view == ChannelView(arrangement, k)
          && ps[k].position == Zeros(rank) && ps[k].mapped == [Zeros(rank)]
        invariant forall i, j :: 0 <= i < j < c ==> ps[i] != ps[j]
      {
        var projector := new Projector(HyperSlice(arrangement.DimC(), c), rank);
        projector.Map();
        ps := ps + [projector];
      }
    } else {
      var projector := new Projector(Whole, rank);
      projector.Map();
      ps := [projector];
    }
  }

  class VirtualSequence {
    const arrangement: DimensionArrangement
    ghost const source: SourceView
    const layout: Layout
    const image: IcyBufferedImage
    const projectors: array<Projector>
    var volumetricImage: VirtualVolumetricImage?
    var previousT: int
    var previousZ: int

    /** The layout is the one the constructor's checks produced from the source. */
    ghost predicate Configured()
    {
      Configure(source, arrangement) == Success(layout)
    }

    /**
     * Projector c reads channel c (or the whole source), has one coordinate
     * per axis of what it reads, and its buffer shows its current position.
     */
    predicate ProjectorOk(p: Projector, c: nat)
      reads p
    {
      p.view == ChannelView(arrangement, c)
      && |p.position| == arrangement.ProjectorRank()
      && |p.mapped| > 0 && p.mapped[|p.mapped| - 1] == p.position
    }

    /**
     * When Z and T have coordinates of their own, a cache key other than the
     * initial -1 is the coordinate every projector is positioned at.
     */
    predicate KeysShown()
      reads this, projectors, projectors[..]
    {
      DistinctTargets(arrangement) ==>
        (previousZ != -1 ==> forall i :: 0 <= i < projectors.Length ==>
          arrangement.TargetDimZ() < |projectors[i].position| && projectors[i].position[arrangement.TargetDimZ()] == previousZ)
        && (previousT != -1 ==> forall i :: 0 <= i < projectors.Length ==>
          arrangement.TargetDimT() < |projectors[i].position| && projectors[i].position[arrangement.TargetDimT()] == previousT)
    }

    ghost predicate Valid()
      reads this, projectors, projectors[..]
    {
      Configured()
      && projectors.Length == layout.sizeC
      && (forall i, j :: 0 <= i < j < projectors.Length ==> projectors[i] != projectors[j])
      && (forall i :: 0 <= i < projectors.Length ==> ProjectorOk(projectors[i], i))
      && volumetricImage != null && volumetricImage.outer == this
      && KeysShown()
    }

    /** Every projector's buffer was last mapped with Z at `z` and T at `t`. */
    ghost predicate Shows(t: int, z: int)
      reads this, projectors, projectors[..]
    {
      forall i :: 0 <= i < projectors.Length ==>
        var p := projectors[i];
        |p.mapped| > 0
        && arrangement.TargetDimZ() < |p.mapped[|p.mapped| - 1]|
        && arrangement.TargetDimT() < |p.mapped[|p.mapped| - 1]|
        && p.mapped[|p.mapped| - 1][arrangement.TargetDimZ()] == z
        && p.mapped[|p.mapped| - 1][arrangement.TargetDimT()] == t
    }

    /** A valid view whose keys are set (and not the initial -1) shows them. */
    lemma KeysAreShown()
      requires Valid() && DistinctTargets(arrangement)
      requires previousT != -1 && previousZ != -1
      ensures Shows(previousT, previousZ)
    {
      forall i | 0 <= i < projectors.Length
        ensures var p := projectors[i];
          p.mapped[|p.mapped| - 1][arrangement.TargetDimZ()] == previousZ
      {
        assert ProjectorOk(projectors[i], i);
      }
    }

    /**
     * The constructor, on a source the checks accept: one projector per
     * channel (one over the whole source when there is no channel axis),
     * each mapped once at the origin; both cache keys start at -1.
     */
    constructor (source: SourceView, arrangement: DimensionArrangement)
      requires Configure(source, arrangement).Success?
      ensures this.source == source && this.arrangement == arrangement
      ensures layout == Configure(source, arrangement).value
      ensures Valid()
      ensures previousT == -1 && previousZ == -1
      ensures image.sizeX == layout.sizeX && image.sizeY == layout.sizeY
      ensures image.sizeC == layout.sizeC && image.dataType == layout.dataType
      ensures forall i :: 0 <= i < projectors.Length ==>
        fresh(projectors[i]) && projectors[i].mapped == [Zeros(arrangement.ProjectorRank())]
    {
      var layout := Configure(source, arrangement).value;
      var ps := NewProjectors(arrangement, layout.sizeC);
      this.arrangement := arrangement;
      this.source := source;
      this.layout := layout;
      image := new IcyBufferedImage(layout.sizeX, layout.sizeY, layout.sizeC, layout.dataType);
      projectors := new Projector[|ps|](i requires 0 <= i < |ps| => ps[i]);
      previousT := -1;
      previousZ := -1;
      new;
      volumetricImage := new VirtualVolumetricImage(this);
    }

    /** Construction as a caller sees it: the constructor's exceptions become failures. */
    static method Create(source: SourceView, arrangement: DimensionArrangement) returns (r: Result<VirtualSequence>)
      ensures r.Failure? <==> Configure(source, arrangement).Failure?
      ensures r.Failure? ==> r.error == Configure(source, arrangement).error
      ensures r.Success? ==>
        && fresh(r.value) && r.value.Valid()
        && r.value.source == source && r.value.arrangement == arrangement
        && r.value.previousT == -1 && r.value.previousZ == -1
    {
      var config := Configure(source, arrangement);
      if config.Failure? {
        return Failure(config.error);
      }
      var vs := new VirtualSequence(source, arrangement);
      return Success(vs);
    }

    /** The projectors are distinct objects, each with one coordinate per axis it reads. */
    ghost predicate Shape()
      reads this, projectors, projectors[..]
    {
      (forall i, j :: 0 <= i < j < projectors.Length ==> projectors[i] != projectors[j])
      && forall i :: 0 <= i < projectors.Length ==> |projectors[i].position| == arrangement.ProjectorRank()
    }

    lemma ValidShape()
      requires Valid()
      ensures Shape()
    {
      forall i | 0 <= i < projectors.Length
        ensures |projectors[i].position| == arrangement.ProjectorRank()
      {
        assert ProjectorOk(projectors[i], i);
      }
    }

    /** The loop of getImage: every projector, in index order, moves Z, then T, then maps. */
    method MapAtZT(t: int, z: int)
      requires Shape()
      modifies projectors[..]
      ensures forall k :: 0 <= k < projectors.Length ==>
        projectors[k].position
          == old(projectors[k].position)[arrangement.TargetDimZ() := z][arrangement.TargetDimT() := t]
        && projectors[k].mapped == old(projectors[k].mapped) + [projectors[k].position]
    {
      for i := 0 to projectors.Length
        invariant forall k :: 0 <= k < i ==>
          projectors[k].position
            == old(projectors[k].position)[arrangement.TargetDimZ() := z][arrangement.TargetDimT() := t]
          && projectors[k].mapped == old(projectors[k].mapped) + [projectors[k].position]
        invariant forall k :: i <= k < projectors.Length ==> unchanged(projectors[k])
      {
        var projector := projectors[i];
        projector.SetPosition(z, arrangement.TargetDimZ());
        projector.SetPosition(t, arrangement.TargetDimT());
        projector.Map();
      }
    }

    /** The loop of getVolumetricImage: every projector, in index order, moves T, then maps. */
    method MapAtT(t: int)
      requires Shape()
      modifies projectors[..]
      ensures forall k :: 0 <= k < projectors.Length ==>
        projectors[k].position == old(projectors[k].position)[arrangement.TargetDimT() := t]
        && projectors[k].mapped == old(projectors[k].mapped) + [projectors[k].position]
    {
      for i := 0 to projectors.Length
        invariant forall k :: 0 <= k < i ==>
          projectors[k].position == old(projectors[k].position)[arrangement.TargetDimT() := t]
          && projectors[k].mapped == old(projectors[k].mapped) + [projectors[k].position]
        invariant forall k :: i <= k < projectors.Length ==> unchanged(projectors[k])
      {
        var projector := projectors[i];
        projector.SetPosition(t, arrangement.TargetDimT());
        projector.Map();
      }
    }

    /** The loop of the volumetric image's getImage: every projector, in index order, moves Z, then maps. */
    method MapAtZ(z: int)
      requires Shape()
      modifies projectors[..]
      ensures forall k :: 0 <= k < projectors.Length ==>
        projectors[k].position == old(projectors[k].position)[arrangement.TargetDimZ() := z]
        && projectors[k].mapped == old(projectors[k].mapped) + [projectors[k].position]
    {
      for i := 0 to projectors.Length
        invariant forall k :: 0 <= k < i ==>
          projectors[k].position == old(projectors[k].position)[arrangement.TargetDimZ() := z]
          && projectors[k].mapped == old(projectors[k].mapped) + [projectors[k].position]
        invariant forall k :: i <= k < projectors.Length ==> unchanged(projectors[k])
      {
        var projector := projectors[i];
        projector.SetPosition(z, arrangement.TargetDimZ());
        projector.Map();
      }
    }

    /**
     * getImage(t, z): on a key change every projector, in index order, moves
     * Z then T and maps; then both keys are set.  On the same key nothing
     * moves or maps.  The result is always the one image.
     */
    method GetImage(t: int, z: int) returns (img: IcyBufferedImage)
      requires Valid()
      modifies this`previousT, this`previousZ, projectors[..]
      ensures Valid()
      ensures img == image
      ensures previousT == t && previousZ == z
      ensures old(previousT) == t && old(previousZ) == z ==>
        forall i :: 0 <= i < projectors.Length ==> unchanged(projectors[i])
      ensures old(previousT) != t || old(previousZ) != z ==>
        forall i :: 0 <= i < projectors.Length ==>
          projectors[i].position
            == old(projectors[i].position)[arrangement.TargetDimZ() := z][arrangement.TargetDimT() := t]
          && projectors[i].mapped == old(projectors[i].mapped) + [projectors[i].position]
      ensures DistinctTargets(arrangement) && t != -1 && z != -1 ==> Shows(t, z)
    {
      if previousT != t || previousZ != z {
        MoveTo(t, z);
      }
      img := image;
      if DistinctTargets(arrangement) && t != -1 && z != -1 {
        KeysAreShown();
      }
    }

    /** The cache-miss branch of getImage: every projector moves Z and T and maps, then both keys are set. */
    method MoveTo(t: int, z: int)
      requires Valid()
      modifies this`previousT, this`previousZ, projectors[..]
      ensures Valid()
      ensures previousT == t && previousZ == z
      ensures forall i :: 0 <= i < projectors.Length ==>
        projectors[i].position
          == old(projectors[i].position)[arrangement.TargetDimZ() := z][arrangement.TargetDimT() := t]
        && projectors[i].mapped == old(projectors[i].mapped) + [projectors[i].position]
    {
      ValidShape();
      MapAtZT(t, z);
      previousT := t;
      previousZ := z;
      forall k | 0 <= k < projectors.Length
        ensures ProjectorOk(projectors[k], k)
        ensures DistinctTargets(arrangement) ==>
          projectors[k].position[arrangement.TargetDimZ()] == z
          && projectors[k].position[arrangement.TargetDimT()] == t
      {
        assert old(ProjectorOk(projectors[k], k));
      }
      assert KeysShown();
    }

    /**
     * getVolumetricImage(t): on a new t every projector moves T and maps,
     * and only previousT is updated.  The result is always the one
     * volumetric image.
     */
    method GetVolumetricImage(t: int) returns (v: VirtualVolumetricImage)
      requires Valid()
      modifies this`previousT, projectors[..]
      ensures Valid()
      ensures v == volumetricImage && v.outer == this
      ensures previousT == t && previousZ == old(previousZ)
      ensures old(previousT) == t ==>
        forall i :: 0 <= i < projectors.Length ==> unchanged(projectors[i])
      ensures old(previousT) != t ==>
        forall i :: 0 <= i < projectors.Length ==>
          projectors[i].position == old(projectors[i].position)[arrangement.TargetDimT() := t]
          && projectors[i].mapped == old(projectors[i].mapped) + [projectors[i].position]
    {
      if t != previousT {
        ValidShape();
        MapAtT(t);
        previousT := t;
        forall k | 0 <= k < projectors.Length
          ensures ProjectorOk(projectors[k], k)
        {
          assert old(ProjectorOk(projectors[k], k));
        }
        assert KeysShown();
      }
      v := volumetricImage;
    }

    /** getSizeT(): the extent of the T axis, 1 when the layout has none. */
    function SizeT(): (n: nat)
      requires Configured()
      ensures n == (if arrangement.HasT() then source.Dimension(arrangement.DimT()) else 1)
    {
      layout.sizeT
    }

    /** getSizeZ() and getSizeZ(t): the extent of the Z axis, 1 when the layout has none. */
    function SizeZ(): (n: nat)
      requires Configured()
      ensures n == (if arrangement.HasZ() then source.Dimension(arrangement.DimZ()) else 1)
    {
      layout.sizeZ
    }

    /** getSizeX() and getSizeY(): the extents of source axes 0 and 1. */
    function SizeXY(): (xy: (nat, nat))
      requires Configured()
      ensures xy == (source.Dimension(0), source.Dimension(1))
    {
      (layout.sizeX, layout.sizeY)
    }
  }

  /**
   * The volumetric image getVolumetricImage hands out: the stack of Z planes
   * at the current T, backed by its sequence's projectors and cache keys.
   */
  class VirtualVolumetricImage {
    const outer: VirtualSequence

    constructor (outer: VirtualSequence)
      ensures this.outer == outer
    {
      this.outer := outer;
    }

    /**
     * getImage(z): on a new z every projector moves Z and maps, and only
     * previousZ is updated.  The result is always the sequence's image.
     */
    method GetImage(z: int) returns (img: IcyBufferedImage)
      requires outer.Valid()
      modifies outer`previousZ, outer.projectors[..]
      ensures outer.Valid()
      ensures img == outer.image
      ensures outer.previousZ == z && outer.previousT == old(outer.previousT)
      ensures old(outer.previousZ) == z ==>
        forall i :: 0 <= i < outer.projectors.Length ==> unchanged(outer.projectors[i])
      ensures old(outer.previousZ) != z ==>
        forall i :: 0 <= i < outer.projectors.Length ==>
          outer.projectors[i].position == old(outer.projectors[i].position)[outer.arrangement.TargetDimZ() := z]
          && outer.projectors[i].mapped == old(outer.projectors[i].mapped) + [outer.projectors[i].position]
    {
      var projectors := outer.projectors;
      if outer.previousZ != z {
        outer.ValidShape();
        outer.MapAtZ(z);
        outer.previousZ := z;
        forall k | 0 <= k < projectors.Length
          ensures outer.ProjectorOk(projectors[k], k)
        {
          assert old(outer.ProjectorOk(projectors[k], k));
        }
        assert outer.KeysShown();
      }
      img := outer.image;
    }

    /** getFirstImage(): getImage(minZ). */
    method GetFirstImage() returns (img: IcyBufferedImage)
      requires outer.Valid()
      modifies outer`previousZ, outer.projectors[..]
      ensures outer.Valid()
      ensures img == outer.image
      ensures outer.previousZ == outer.layout.minZ && outer.previousT == old(outer.previousT)
      ensures outer.arrangement.HasZ() ==> outer.previousZ == outer.source.Min(outer.arrangement.DimZ())
      ensures old(outer.previousZ) == outer.layout.minZ ==>
        forall i :: 0 <= i < outer.projectors.Length ==> unchanged(outer.projectors[i])
      ensures old(outer.previousZ) != outer.layout.minZ ==>
        forall i :: 0 <= i < outer.projectors.Length ==>
          outer.projectors[i].position
            == old(outer.projectors[i].position)[outer.arrangement.TargetDimZ() := outer.layout.minZ]
          && outer.projectors[i].mapped == old(outer.projectors[i].mapped) + [outer.projectors[i].position]
    {
      img := GetImage(outer.layout.minZ);
    }

    /** getLastImage(): getImage(maxZ). */
    method GetLastImage() returns (img: IcyBufferedImage)
      requires outer.Valid()
      modifies outer`previousZ, outer.projectors[..]
      ensures outer.Valid()
      ensures img == outer.image
      ensures outer.previousZ == outer.layout.maxZ && outer.previousT == old(outer.previousT)
      ensures outer.arrangement.HasZ() ==> outer.previousZ == outer.source.Max(outer.arrangement.DimZ())
      ensures old(outer.previousZ) == outer.layout.maxZ ==>
        forall i :: 0 <= i < outer.projectors.Length ==> unchanged(outer.projectors[i])
      ensures old(outer.previousZ) != outer.layout.maxZ ==>
        forall i :: 0 <= i < outer.projectors.Length ==>
          outer.projectors[i].position
            == old(outer.projectors[i].position)[outer.arrangement.TargetDimZ() := outer.layout.maxZ]
          && outer.projectors[i].mapped == old(outer.projectors[i].mapped) + [outer.projectors[i].position]
    {
      img := GetImage(outer.layout.maxZ);
    }

    /** getNumImage(): the number of Z planes. */
    function NumImage(): (n: nat)
      requires outer.Configured()
      ensures n == outer.SizeZ()
      ensures outer.arrangement.HasZ() ==> n == outer.source.Dimension(outer.arrangement.DimZ())
      ensures !outer.arrangement.HasZ() ==> n == 1
    {
      outer.layout.sizeZ
    }

    /** getSize(): the same count as getNumImage(). */
    function Size(): (n: nat)
      requires outer.Configured()
      ensures n == NumImage()
    {
      outer.layout.sizeZ
    }

    /** isEmpty(): no Z planes, which only a Z axis of extent 0 gives. */
    function IsEmpty(): (b: bool)
      requires outer.Configured()
      ensures b <==> NumImage() < 1
      ensures b <==> outer.arrangement.HasZ() && outer.source.Dimension(outer.arrangement.DimZ()) == 0
    {
      outer.layout.sizeZ < 1
    }
  }

  /** The first getImage on a fresh view always maps, since the keys start at -1. */
  method FirstGetImageMaps(source: SourceView, arrangement: DimensionArrangement, t: int, z: int)
    returns (vs: VirtualSequence)
    requires Configure(source, arrangement).Success?
    requires t != -1 || z != -1
    ensures forall i :: 0 <= i < vs.projectors.Length ==> |vs.projectors[i].mapped| == 2
  {
    vs := new VirtualSequence(source, arrangement);
    var img := vs.GetImage(t, z);
  }

  /** A second getImage with the same (t, z) maps nothing and returns the same image. */
  method RepeatedGetImageIsCached(vs: VirtualSequence, t: int, z: int)
    returns (first: IcyBufferedImage, second: IcyBufferedImage)
    requires vs.Valid()
    modifies vs`previousT, vs`previousZ, vs.projectors[..]
    ensures first == second == vs.image
    ensures forall i :: 0 <= i < vs.projectors.Length ==>
      |vs.projectors[i].mapped| <= |old(vs.projectors[i].mapped)| + 1
  {
    first := vs.GetImage(t, z);
    second := vs.GetImage(t, z);
  }
}
