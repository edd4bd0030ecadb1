/**
 * The parts of Icy the core touches: the pixel data type tag, sequences
 * (sizes plus a plane lookup) and IcyBufferedImage as an object whose only
 * observable property is its identity and shape.
 */
module Icy {

  /** icy.type.DataType. */
  datatype DataType =
    | UBYTE | BYTE | USHORT | SHORT | UINT | INT | ULONG | LONG | FLOAT | DOUBLE | UNDEFINED

  /**
   * A Sequence: its sizes, its data type and `plane(t, z, c)`, the planar
   * data getDataXY(t, z, c) returns.  Pixel data is opaque (type P).
   */
  datatype Sequence<P> = Sequence(
    sizeX: nat, sizeY: nat, sizeC: nat, sizeZ: nat, sizeT: nat,
    dataType: DataType,
    plane: (int, int, int) -> P)

  /**
   * getAllImage(): the images of the sequence, t outer and z inner, each
   * given as its sizeC channel planes.
   */
  function AllImages<P>(s: Sequence<P>): (images: seq<seq<P>>)
    ensures |images| == s.sizeT * s.sizeZ
    ensures forall i :: 0 <= i < |images| ==> |images[i]| == s.sizeC
  {
    ImagesFrom(s, s.sizeT)
  }

  /** The images of the first `t` time points. */
  function ImagesFrom<P>(s: Sequence<P>, t: nat): (images: seq<seq<P>>)
    ensures |images| == t * s.sizeZ
    ensures forall i :: 0 <= i < |images| ==> |images[i]| == s.sizeC
    decreases t
  {
    if t == 0 then [] else ImagesFrom(s, t - 1) + Stack(s, t - 1)
  }

  /** getImage(t, z) of every z of time point t. */
  function Stack<P>(s: Sequence<P>, t: int): (images: seq<seq<P>>)
    ensures |images| == s.sizeZ
    ensures forall z :: 0 <= z < s.sizeZ ==> images[z] == Image(s, t, z)
  {
    seq(s.sizeZ, z => Image(s, t, z))
  }

  /** getImage(t, z): the sizeC channel planes of one image. */
  function Image<P>(s: Sequence<P>, t: int, z: int): (channels: seq<P>)
    ensures |channels| == s.sizeC
    ensures forall c :: 0 <= c < s.sizeC ==> channels[c] == s.plane(t, z, c)
  {
    seq(s.sizeC, c => s.plane(t, z, c))
  }

  /** Image number t * sizeZ + z of getAllImage() is the image at (t, z). */
  lemma AllImagesAt<P>(s: Sequence<P>, t: nat, z: nat, c: nat)
    requires t < s.sizeT && z < s.sizeZ && c < s.sizeC
    ensures t * s.sizeZ + z < |AllImages(s)|
    ensures |AllImages(s)[t * s.sizeZ + z]| == s.sizeC
    ensures AllImages(s)[t * s.sizeZ + z][c] == s.plane(t, z, c)
  {
    ImagesFromAt(s, s.sizeT, t, z);
  }

  lemma {:induction false} ImagesFromAt<P>(s: Sequence<P>, n: nat, t: nat, z: nat)
    requires t < n && z < s.sizeZ
    ensures t * s.sizeZ + z < |ImagesFrom(s, n)|
    ensures ImagesFrom(s, n)[t * s.sizeZ + z] == Image(s, t, z)
    decreases n
  {
    var prefix, last := ImagesFrom(s, n - 1), Stack(s, n - 1);
    if t < n - 1 {
      ImagesFromAt(s, n - 1, t, z);
      assert (prefix + last)[t * s.sizeZ + z] == prefix[t * s.sizeZ + z];
    } else {
      assert t * s.sizeZ == |prefix|;
      assert (prefix + last)[|prefix| + z] == last[z];
    }
  }

  /** An IcyBufferedImage, known by its identity, its shape and its data type. */
  class IcyBufferedImage {
    const sizeX: int
    const sizeY: int
    const sizeC: int
    const dataType: DataType

    constructor (sizeX: int, sizeY: int, sizeC: int, dataType: DataType)
      ensures this.sizeX == sizeX && this.sizeY == sizeY
      ensures this.sizeC == sizeC && this.dataType == dataType
    {
      this.sizeX := sizeX;
      this.sizeY := sizeY;
      this.sizeC := sizeC;
      this.dataType := dataType;
    }
  }
}
