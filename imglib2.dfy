/**
 * The parts of ImgLib2 the core touches, reduced to what the core observes:
 * intervals (rank, per-axis min and extent, pixel type), the 2-D projector
 * (a position vector and a log of the positions at which it was mapped) and
 * planar images (dimensions and a slot-to-plane map).
 */
module ImgLib2 {

  /** ImgLib2 pixel types; NonNativeType stands for every type that is not a NativeType. */
  datatype PixelType =
    | ByteType | UnsignedByteType | ShortType | UnsignedShortType
    | IntType | UnsignedIntType | LongType | UnsignedLongType
    | FloatType | DoubleType | NonNativeType

  /** One axis of an interval: its minimum coordinate and its extent. */
  datatype Axis = Axis(min: int, size: nat)

  /** A RandomAccessibleInterval as the core reads it. */
  datatype SourceView = SourceView(axes: seq<Axis>, pixelType: PixelType) {
    function NumDimensions(): nat { |axes| }

    function Dimension(d: nat): nat
      requires d < |axes|
    {
      axes[d].size
    }

    function Min(d: nat): int
      requires d < |axes|
    {
      axes[d].min
    }

    function Max(d: nat): (m: int)
      requires d < |axes|
      ensures m - Min(d) + 1 == Dimension(d)
    {
      axes[d].min + axes[d].size - 1
    }
  }

  /** Pixel converters: round and clamp to [lo, hi], or a plain cast to float. */
  datatype Converter = Clamp(lo: int, hi: int) | ToFloat

  /** The data a projector reads: the whole source, or its hyperslice at `pos` along `dim`. */
  datatype View = Whole | HyperSlice(dim: nat, pos: nat)

  function Zeros(n: nat): (z: seq<int>)
    ensures |z| == n && forall i :: 0 <= i < n ==> z[i] == 0
  {
    seq(n, _ => 0)
  }

  /**
   * IterableIntervalProjector2D.  It iterates dimensions 0 and 1 of its view
   * and takes every other coordinate from `position`; `mapped` logs the
   * position at each call of map(), so its last entry is what the target
   * buffer currently shows.
   */
  class Projector {
    const view: View
    var position: seq<int>
    var mapped: seq<seq<int>>

    /** A fresh projector starts at the origin of its view and has not mapped yet. */
    constructor (view: View, rank: nat)
      ensures this.view == view && position == Zeros(rank) && mapped == []
    {
      this.view := view;
      position := Zeros(rank);
      mapped := [];
    }

    /** setPosition(value, d): moves coordinate d only. */
    method SetPosition(value: int, d: nat)
      requires d < |position|
      modifies this`position
      ensures position == old(position)[d := value]
    {
      position := position[d := value];
    }

    /** map(): recomputes the target buffer at the current position. */
    method Map()
      modifies this`mapped
      ensures mapped == old(mapped) + [position]
    {
      mapped := mapped + [position];
    }
  }

  /** A PlanarImg: its dimensions and the planes set so far, by slot number. */
  datatype PlanarImg<P> = PlanarImg(pixelType: PixelType, dims: seq<int>, slots: map<int, P>)

  /** setPlane(no, plane). */
  function SetPlane<P>(img: PlanarImg<P>, no: int, plane: P): (r: PlanarImg<P>)
    ensures r.dims == img.dims && r.pixelType == img.pixelType
    ensures r.slots.Keys == img.slots.Keys + {no} && r.slots[no] == plane
    ensures forall k :: k in img.slots && k != no ==> r.slots[k] == img.slots[k]
  {
    img.(slots := img.slots[no := plane])
  }

  /** The number of planes a PlanarImg of these dimensions holds: the product of dims[2..]. */
  function NumSlices(dims: seq<int>): int
  {
    if |dims| <= 2 then 1 else Product(dims[2..])
  }

  function Product(s: seq<int>): int
  {
    if s == [] then 1 else s[0] * Product(s[1..])
  }
}
