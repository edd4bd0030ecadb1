/**
 * The older, single-channel virtual sequence of the display package.  It
 * reads Z from source axis 2 and T from source axis 3, and keeps one 2-D
 * projector over the whole source, mapped once in the constructor.  Its
 * getVolumetricImage(t) moves projector coordinate 1 without mapping, and
 * the volumetric image's getImage(z) moves coordinate 0 and maps.  Both are
 * axes the projector iterates over, so coordinates 2 and 3, the plane the
 * image shows, stay at the origin whatever (t, z) is asked for.
 */
module DisplayVirtualSequence {
  import opened Errors
  import opened ImgLib2
  import opened Icy
  import opened Adapters

  /** What the constructor reads from the source and the data type. */
  datatype LegacyLayout = LegacyLayout(
    sizeX: nat, sizeY: nat,
    minZ: int, maxZ: int, sizeZ: nat,
    minT: int, maxT: int, sizeT: nat,
    storage: PixelType, converter: Converter)

  /**
   * The constructor's reads and switch: extents of axes 0 and 1, range and
   * extent of axes 2 (Z) and 3 (T), which a source of rank below 4 does
   * not have; then FLOAT is stored as float, UBYTE and USHORT both as
   * unsigned short with a clamp to their own range, and anything else is
   * refused.
   */
  function Configure(source: SourceView, dataType: DataType): (r: Result<LegacyLayout>)
    ensures r.Success? <==> source.NumDimensions() >= 4 && dataType in {FLOAT, UBYTE, USHORT}
    ensures source.NumDimensions() < 4 ==> r == Failure(IndexOutOfBounds)
    ensures source.NumDimensions() >= 4 && dataType !in {FLOAT, UBYTE, USHORT} ==> r == Failure(UnsupportedType)
    ensures r.Success? ==> var l := r.value;
      && l.sizeX == source.Dimension(0) && l.sizeY == source.Dimension(1)
      && l.minZ == source.Min(2) && l.maxZ - l.minZ + 1 == l.sizeZ == source.Dimension(2)
      && l.minT == source.Min(3) && l.maxT - l.minT + 1 == l.sizeT == source.Dimension(3)
      && (dataType == FLOAT <==> l.storage == FloatType)
      && (dataType != FLOAT ==> l.storage == UnsignedShortType)
      && (l.converter == ToFloat <==> dataType == FLOAT)
      && (dataType == UBYTE ==> l.converter == Clamp(0, 255))
      && (dataType == USHORT ==> l.converter == Clamp(0, 65535))
  {
    if source.NumDimensions() < 4 then Failure(IndexOutOfBounds)
    else
      var sizeX := source.Dimension(0);
      var sizeY := source.Dimension(1);
      var (minZ, maxZ, sizeZ) := (source.Min(2), source.Max(2), source.Dimension(2));
      var (minT, maxT, sizeT) := (source.Min(3), source.Max(3), source.Dimension(3));
      match dataType
      case FLOAT => Success(LegacyLayout(sizeX, sizeY, minZ, maxZ, sizeZ, minT, maxT, sizeT, FloatType, ToFloat))
      case UBYTE => Success(LegacyLayout(sizeX, sizeY, minZ, maxZ, sizeZ, minT, maxT, sizeT, UnsignedShortType, Clamp(0, 255)))
      case USHORT => Success(LegacyLayout(sizeX, sizeY, minZ, maxZ, sizeZ, minT, maxT, sizeT, UnsignedShortType, Clamp(0, 65535)))
      case _ => Failure(UnsupportedType)
  }

  /**
   * The image wraps the projector's unsigned storage array, so an 8-bit
   * source is shown as a 16-bit image.
   */
  lemma ByteSourceShownAsShort(source: SourceView)
    requires source.NumDimensions() >= 4
    ensures DataTypeOf(Configure(source, UBYTE).value.storage) == USHORT
    ensures DataTypeOf(Configure(source, USHORT).value.storage) == USHORT
    ensures DataTypeOf(Configure(source, FLOAT).value.storage) == FLOAT
  {
  }

  class VirtualSequence {
    ghost const source: SourceView
    const dataType: DataType
    const layout: LegacyLayout
    const projector: Projector
    const image: IcyBufferedImage
    var volumetricImage: VirtualVolumetricImage?
    var previousT: int
    var previousZ: int

    /** Every snapshot the projector has mapped leaves coordinates 2 and up at the origin. */
    ghost predicate AtOrigin(position: seq<int>)
    {
      |position| == source.NumDimensions() && |position| >= 2 && position[2..] == Zeros(|position| - 2)
    }

    ghost predicate Valid()
      reads this, projector
    {
      && Configure(source, dataType) == Success(layout)
      && projector.view == Whole
      && AtOrigin(projector.position)
      && |projector.mapped| > 0
      && (forall i :: 0 <= i < |projector.mapped| ==> AtOrigin(projector.mapped[i]))
      && (previousZ != -1 ==> projector.position[0] == previousZ)
      && (previousT != -1 ==> projector.position[1] == previousT)
      && volumetricImage != null && volumetricImage.outer == this
    }

    /** The plane the image currently shows: the Z and T coordinates of the last map. */
    ghost function Shown(): (zt: (int, int))
      reads this, projector
      requires Valid()
      ensures zt == (0, 0)
    {
      var last := projector.mapped[|projector.mapped| - 1];
      assert last[2..][0] == last[2] && last[2..][1] == last[3];
      (last[2], last[3])
    }

    /**
     * The constructor, on a source and data type the checks accept: one
     * projector over the whole source, mapped once at the origin, an image
     * of the source's X and Y extents over the projector's storage, and
     * both cache keys at -1.
     */
    constructor (source: SourceView, dataType: DataType)
      requires Configure(source, dataType).Success?
      ensures this.source == source && this.dataType == dataType
      ensures layout == Configure(source, dataType).value
      ensures Valid()
      ensures previousT == -1 && previousZ == -1
      ensures fresh(projector) && projector.mapped == [Zeros(source.NumDimensions())]
      ensures image.sizeX == layout.sizeX && image.sizeY == layout.sizeY
      ensures image.sizeC == 1 && image.dataType == DataTypeOf(layout.storage)
    {
      var layout := Configure(source, dataType).value;
      var n := source.NumDimensions();
      var p := new Projector(Whole, n);
      p.Map();
      this.source := source;
      this.dataType := dataType;
      this.layout := layout;
      projector := p;
      image := new IcyBufferedImage(layout.sizeX, layout.sizeY, 1, DataTypeOf(layout.storage));
      previousT := -1;
      previousZ := -1;
      new;
      volumetricImage := new VirtualVolumetricImage(this);
    }

    /** Construction as a caller sees it: the constructor's exceptions become failures. */
    static method Create(source: SourceView, dataType: DataType) returns (r: Result<VirtualSequence>)
      ensures r.Failure? <==> Configure(source, dataType).Failure?
      ensures r.Failure? ==> r.error == Configure(source, dataType).error
      ensures r.Success? ==>
        && fresh(r.value) && r.value.Valid()
        && r.value.source == source && r.value.dataType == dataType
        && r.value.previousT == -1 && r.value.previousZ == -1
    {
      var config := Configure(source, dataType);
      if config.Failure? {
        return Failure(config.error);
      }
      var vs := new VirtualSequence(source, dataType);
      return Success(vs);
    }

    /**
     * getVolumetricImage(t): on a new t the projector's coordinate 1 moves
     * to t and previousT is updated, with no map, so the image keeps
     * showing what it showed.  The result is always the one volumetric image.
     */
    method GetVolumetricImage(t: int) returns (v: VirtualVolumetricImage)
      requires Valid()
      modifies this`previousT, projector`position
      ensures Valid()
      ensures v == volumetricImage && v.outer == this
      ensures previousT == t && previousZ == old(previousZ)
      ensures projector.mapped == old(projector.mapped)
      ensures old(previousT) == t ==> projector.position == old(projector.position)
      ensures old(previousT) != t ==> projector.position == old(projector.position)[1 := t]
    {
      if t != previousT {
        projector.SetPosition(t, 1);
        previousT := t;
        assert projector.position[2..] == old(projector.position)[2..];
      }
      v := volumetricImage;
    }

    /** getSizeT(): the extent of source axis 3. */
    function SizeT(): (n: nat)
      requires Configure(source, dataType) == Success(layout)
      ensures n == source.Dimension(3)
    {
      layout.sizeT
    }

    /** getSizeZ() and getSizeZ(t): the extent of source axis 2. */
    function SizeZ(): (n: nat)
      requires Configure(source, dataType) == Success(layout)
      ensures n == source.Dimension(2)
    {
      layout.sizeZ
    }
  }

  /** The volumetric image getVolumetricImage hands out, backed by its sequence's projector. */
  class VirtualVolumetricImage {
    const outer: VirtualSequence

    constructor (outer: VirtualSequence)
      ensures this.outer == outer
    {
      this.outer := outer;
    }

    /**
     * getImage(z): on a new z the projector's coordinate 0 moves to z, it
     * maps, and previousZ is updated.  The result is always the sequence's
     * image, and what it shows is the plane at the origin of Z and T.
     */
    method GetImage(z: int) returns (img: IcyBufferedImage)
      requires outer.Valid()
      modifies outer`previousZ, outer.projector
      ensures outer.Valid()
      ensures img == outer.image
      ensures outer.previousZ == z && outer.previousT == old(outer.previousT)
      ensures old(outer.previousZ) == z ==> unchanged(outer.projector)
      ensures old(outer.previousZ) != z ==>
        && outer.projector.position == old(outer.projector.position)[0 := z]
        && outer.projector.mapped == old(outer.projector.mapped) + [outer.projector.position]
      ensures outer.Shown() == (0, 0)
    {
      var projector := outer.projector;
      if outer.previousZ != z {
        projector.SetPosition(z, 0);
        projector.Map();
        outer.previousZ := z;
        assert projector.position[2..] == old(projector.position)[2..];
        assert forall i :: 0 <= i < |projector.mapped| - 1 ==> projector.mapped[i] == old(projector.mapped)[i];
      }
      img := outer.image;
    }

    /** getFirstImage(): getImage(minZ). */
    method GetFirstImage() returns (img: IcyBufferedImage)
      requires outer.Valid()
      modifies outer`previousZ, outer.projector
      ensures outer.Valid()
      ensures img == outer.image
      ensures outer.previousZ == outer.source.Min(2) && outer.previousT == old(outer.previousT)
      ensures old(outer.previousZ) == outer.layout.minZ ==> unchanged(outer.projector)
      ensures old(outer.previousZ) != outer.layout.minZ ==>
        && outer.projector.position == old(outer.projector.position)[0 := outer.layout.minZ]
        && outer.projector.mapped == old(outer.projector.mapped) + [outer.projector.position]
      ensures outer.Shown() == (0, 0)
    {
      img := GetImage(outer.layout.minZ);
    }

    /** getLastImage(): getImage(maxZ). */
    method GetLastImage() returns (img: IcyBufferedImage)
      requires outer.Valid()
      modifies outer`previousZ, outer.projector
      ensures outer.Valid()
      ensures img == outer.image
      ensures outer.previousZ == outer.source.Max(2) && outer.previousT == old(outer.previousT)
      ensures old(outer.previousZ) == outer.layout.maxZ ==> unchanged(outer.projector)
      ensures old(outer.previousZ) != outer.layout.maxZ ==>
        && outer.projector.position == old(outer.projector.position)[0 := outer.layout.maxZ]
        && outer.projector.mapped == old(outer.projector.mapped) + [outer.projector.position]
      ensures outer.Shown() == (0, 0)
    {
      img := GetImage(outer.layout.maxZ);
    }

    /** getNumImage(): the extent of source axis 2. */
    function NumImage(): (n: nat)
      requires Configure(outer.source, outer.dataType) == Success(outer.layout)
      ensures n == outer.source.Dimension(2)
    {
      outer.layout.sizeZ
    }

    /** getSize(): the same count as getNumImage(). */
    function Size(): (n: nat)
      requires Configure(outer.source, outer.dataType) == Success(outer.layout)
      ensures n == NumImage()
    {
      outer.layout.sizeZ
    }

    /** isEmpty(): no Z planes, which only an axis 2 of extent 0 gives. */
    function IsEmpty(): (b: bool)
      requires Configure(outer.source, outer.dataType) == Success(outer.layout)
      ensures b <==> outer.source.Dimension(2) == 0
    {
      outer.layout.sizeZ < 1
    }
  }

  /**
   * Whatever (t, z) a caller walks to, through getVolumetricImage(t) and
   * then getImage(z), the image shows the plane at the origin of Z and T.
   */
  method WalkShowsOrigin(vs: VirtualSequence, t: int, z: int) returns (img: IcyBufferedImage)
    requires vs.Valid()
    modifies vs`previousT, vs`previousZ, vs.projector
    ensures img == vs.image
    ensures vs.previousT == t && vs.previousZ == z
    ensures vs.Valid() && vs.Shown() == (0, 0)
  {
    var v := vs.GetVolumetricImage(t);
    img := v.GetImage(z);
  }
}
