/**
 * ImgLib2IcySequenceAdapter: a whole Icy sequence as one planar ImgLib2
 * image.  The image's axes are X, Y, C, Z, T with singleton axes removed,
 * and its planes are the channels of getAllImage(), image after image.
 */
module SequenceAdapter {
  import opened Errors
  import opened ImgLib2
  import opened Icy
  import opened MixedRadix
  import opened Adapters

  /** getDims: the five extents in the order X, Y, C, Z, T. */
  function GetDims<P>(s: Sequence<P>): (dims: seq<int>)
    ensures |dims| == 5
  {
    [s.sizeX, s.sizeY, s.sizeC, s.sizeZ, s.sizeT]
  }

  /** getSqueezedDims: getDims with every extent <= 1 removed. */
  function GetSqueezedDims<P>(s: Sequence<P>): seq<int>
  {
    Squeezed(GetDims(s))
  }

  /**
   * With X and Y wider than one pixel they stay the first two axes, and the
   * image has one slice per plane the sequence holds once every size is
   * at least 1.
   */
  lemma SqueezedDimsHoldEveryPlane<P>(s: Sequence<P>)
    requires s.sizeX > 1 && s.sizeY > 1
    requires s.sizeC >= 1 && s.sizeZ >= 1 && s.sizeT >= 1
    ensures GetSqueezedDims(s) == [s.sizeX, s.sizeY] + Squeezed([s.sizeC, s.sizeZ, s.sizeT])
    ensures NumSlices(GetSqueezedDims(s)) == |SequencePlanes(s)|
  {
    NumSlicesOfSqueezed(s.sizeX, s.sizeY, s.sizeC, s.sizeZ, s.sizeT);
    SequencePlanesCount(s);
  }

  /**
   * A sequence one pixel wide loses its X axis in the squeeze, so the
   * following extents move up and the image has fewer slices than the
   * planes written into it.
   */
  lemma NarrowSequenceHasTooFewSlices<P>(s: Sequence<P>)
    requires s.sizeX == 1 && s.sizeY > 1
    requires s.sizeC > 1 && s.sizeZ > 1 && s.sizeT > 1
    ensures GetSqueezedDims(s) == [s.sizeY, s.sizeC, s.sizeZ, s.sizeT]
    ensures NumSlices(GetSqueezedDims(s)) < |SequencePlanes(s)|
  {
    var squeezed := [s.sizeY, s.sizeC, s.sizeZ, s.sizeT];
    assert GetSqueezedDims(s) == squeezed by {
      assert GetDims(s) == [s.sizeX] + squeezed;
      SqueezedAppend([s.sizeX], squeezed);
      assert Squeezed([s.sizeX]) == Squeezed([]) + [];
      SqueezedIdentity(squeezed);
    }
    var zt := s.sizeZ * s.sizeT;
    assert NumSlices(squeezed) == zt by {
      assert squeezed[2..] == [s.sizeZ, s.sizeT];
      assert [s.sizeZ, s.sizeT][1..] == [s.sizeT];
      assert [s.sizeT][1..] == [];
      assert Product([s.sizeT]) == s.sizeT;
      assert Product([s.sizeZ, s.sizeT]) == s.sizeZ * s.sizeT;
    }
    SequencePlanesCount(s);
    assert zt > 0 by {
      MulMonotone(s.sizeZ, 1, s.sizeT);
    }
    MulMonotone(zt, 2, s.sizeC);
    assert s.sizeC * s.sizeZ * s.sizeT == zt * s.sizeC;
  }

  /**
   * wrapByte and its siblings: a planar image over the squeezed dims, then
   * for each image of getAllImage() and each channel c < sizeC, the plane
   * goes to slot `no`, counting up from 0.
   */
  method WrapPlanes<P>(s: Sequence<P>, pixelType: PixelType) returns (img: PlanarImg<P>)
    ensures img.pixelType == pixelType && img.dims == GetSqueezedDims(s)
    ensures Holds(img.slots, SequencePlanes(s))
  {
    var dims := SqueezeSingletonDims(GetDims(s));
    img := PlanarImg(pixelType, dims, map[]);
    var no := 0;
    var images := AllImages(s);
    for i := 0 to |images|
      invariant img.pixelType == pixelType && img.dims == dims
      invariant no == |Flattened(images[..i])|
      invariant Holds(img.slots, Flattened(images[..i]))
    {
      var image := images[i];
      ghost var done := Flattened(images[..i]);
      for c := 0 to s.sizeC
        invariant img.pixelType == pixelType && img.dims == dims
        invariant no == |done| + c
        invariant Holds(img.slots, done + image[..c])
      {
        assert image[..c + 1] == image[..c] + [image[c]];
        img := SetPlane(img, no, image[c]);
        no := no + 1;
      }
      assert images[..i + 1][..i] == images[..i];
      assert image[..s.sizeC] == image;
    }
    assert images[..|images|] == images;
  }

  /**
   * wrap: the pixel type follows the sequence's data type; LONG, ULONG and
   * anything unknown are refused.
   */
  method Wrap<P>(s: Sequence<P>) returns (r: Result<PlanarImg<P>>)
    ensures r.Failure? <==> s.dataType in {LONG, ULONG, UNDEFINED}
    ensures r.Failure? ==> r.error == UnsupportedDataType
    ensures r.Success? ==>
      && DataTypeOf(r.value.pixelType) == s.dataType
      && r.value.dims == GetSqueezedDims(s)
      && Holds(r.value.slots, SequencePlanes(s))
  {
    var pixelType := PlanarTypeFor(s.dataType);
    if pixelType.Failure? {
      return Failure(pixelType.error);
    }
    var img := WrapPlanes(s, pixelType.value);
    return Success(img);
  }

  /**
   * Read back through the image: slot c + sizeC * (z + sizeZ * t) of a
   * wrapped sequence holds plane (t, z, c), and every slot is below
   * sizeC * sizeZ * sizeT.
   */
  lemma WrappedPlaneAt<P>(s: Sequence<P>, img: PlanarImg<P>, t: nat, z: nat, c: nat)
    requires Holds(img.slots, SequencePlanes(s))
    requires t < s.sizeT && z < s.sizeZ && c < s.sizeC
    ensures Encode(c, z, t, s.sizeC, s.sizeZ) in img.slots
    ensures img.slots[Encode(c, z, t, s.sizeC, s.sizeZ)] == s.plane(t, z, c)
    ensures forall k :: k in img.slots <==> 0 <= k < s.sizeC * s.sizeZ * s.sizeT
  {
    SequencePlanesAt(s, t, z, c);
    SequencePlanesCount(s);
  }
}
