/**
 * net.imglib2.img.IcySequenceAdapter: the older whole-sequence adapter.  It
 * writes the planes in the same t, z, c order as ImgLib2IcySequenceAdapter,
 * but its squeezeSingletonDims fills the new dims array from the new,
 * all-zero array instead of from the original dims, so whenever there is
 * something to squeeze the image's dims come out as zeros.
 */
module NetSequenceAdapter {
  import opened Errors
  import opened ImgLib2
  import opened Icy
  import opened MixedRadix
  import opened Adapters

  /**
   * What the squeeze returns as written: the original dims when none is
   * <= 1, otherwise as many zeros as there are entries > 1.
   */
  function AsWrittenSqueeze(dims: seq<int>): (r: seq<int>)
    ensures |r| == |Squeezed(dims)|
  {
    SqueezedLength(dims);
    if Singletons(dims) == 0 then dims else Zeros(|dims| - Singletons(dims))
  }

  /** No singleton is counted exactly when every entry is > 1. */
  lemma {:induction false} NoSingletons(dims: seq<int>)
    ensures Singletons(dims) == 0 <==> forall i :: 0 <= i < |dims| ==> dims[i] > 1
    decreases |dims|
  {
    if dims != [] {
      var init := dims[..|dims| - 1];
      NoSingletons(init);
      assert forall i :: 0 <= i < |init| ==> init[i] == dims[i];
    }
  }

  /**
   * The squeeze as written agrees with removing the singleton entries only
   * when there is nothing to remove or nothing to keep.
   */
  lemma AsWrittenSqueezeAgrees(dims: seq<int>)
    ensures AsWrittenSqueeze(dims) == Squeezed(dims) <==>
      Singletons(dims) == 0 || Singletons(dims) == |dims|
  {
    SqueezedLength(dims);
    NoSingletons(dims);
    SqueezedIdentity(dims);
    var r := Squeezed(dims);
    if Singletons(dims) != 0 && Singletons(dims) != |dims| {
      assert r[0] > 1;
      assert AsWrittenSqueeze(dims)[0] == 0;
    }
  }

  /**
   * squeezeSingletonDims as written: count the entries <= 1; with none,
   * hand back the same array; otherwise allocate a zeroed array of the
   * remaining length and run the copy loop over that new array.
   */
  method SqueezeSingletonDims(originalDims: array<int>) returns (dims: array<int>)
    ensures dims[..] == AsWrittenSqueeze(originalDims[..])
    ensures Singletons(originalDims[..]) == 0 ==> dims == originalDims
    ensures Singletons(originalDims[..]) != 0 ==> fresh(dims)
  {
    var squeeze := 0;
    for i := 0 to originalDims.Length
      invariant squeeze == Singletons(originalDims[..i])
    {
      assert originalDims[..i + 1][..i] == originalDims[..i];
      if originalDims[i] <= 1 {
        squeeze := squeeze + 1;
      }
    }
    assert originalDims[..originalDims.Length] == originalDims[..];
    if squeeze == 0 {
      return originalDims;
    }
    SqueezedLength(originalDims[..]);
    dims := new int[originalDims.Length - squeeze](_ => 0);
    var index := 0;
    for i := 0 to dims.Length
      invariant index == 0
      invariant dims[..] == Zeros(dims.Length)
    {
      var l := dims[i];
      index := CopyIfWide(dims, index, l);
    }
  }

  /** One step of the copy loop: an entry > 1 goes to position `index`, which then moves on. */
  method CopyIfWide(dims: array<int>, index: int, l: int) returns (next: int)
    requires 0 <= index < dims.Length
    modifies dims
    ensures l > 1 ==> next == index + 1 && dims[..] == old(dims[..])[index := l]
    ensures l <= 1 ==> next == index && dims[..] == old(dims[..])
  {
    next := index;
    if l > 1 {
      dims[next] := l;
      next := next + 1;
    }
  }

  /** getSqueezedDims: the array [X, Y, C, Z, T], squeezed as written. */
  method GetSqueezedDims<P>(s: Sequence<P>) returns (dims: array<int>)
    ensures dims[..] == AsWrittenSqueeze([s.sizeX, s.sizeY, s.sizeC, s.sizeZ, s.sizeT])
  {
    var oDims := new int[5];
    oDims[0], oDims[1], oDims[2], oDims[3], oDims[4] := s.sizeX, s.sizeY, s.sizeC, s.sizeZ, s.sizeT;
    assert oDims[..] == [s.sizeX, s.sizeY, s.sizeC, s.sizeZ, s.sizeT];
    dims := SqueezeSingletonDims(oDims);
  }

  /**
   * The image's dims for a sequence of at least one plane along every
   * axis: the five extents when each is > 1, otherwise zeros, one fewer
   * for each extent equal to 1.
   */
  lemma NetDims<P>(s: Sequence<P>)
    requires s.sizeX >= 1 && s.sizeY >= 1 && s.sizeC >= 1 && s.sizeZ >= 1 && s.sizeT >= 1
    ensures var dims := [s.sizeX, s.sizeY, s.sizeC, s.sizeZ, s.sizeT];
      && (s.sizeX > 1 && s.sizeY > 1 && s.sizeC > 1 && s.sizeZ > 1 && s.sizeT > 1 ==>
            AsWrittenSqueeze(dims) == dims)
      && (s.sizeX == 1 || s.sizeY == 1 || s.sizeC == 1 || s.sizeZ == 1 || s.sizeT == 1 ==>
            forall i :: 0 <= i < |AsWrittenSqueeze(dims)| ==> AsWrittenSqueeze(dims)[i] == 0)
  {
    var dims := [s.sizeX, s.sizeY, s.sizeC, s.sizeZ, s.sizeT];
    NoSingletons(dims);
    if s.sizeX == 1 {
      assert dims[0] <= 1;
    } else if s.sizeY == 1 {
      assert dims[1] <= 1;
    } else if s.sizeC == 1 {
      assert dims[2] <= 1;
    } else if s.sizeZ == 1 {
      assert dims[3] <= 1;
    } else if s.sizeT == 1 {
      assert dims[4] <= 1;
    }
  }

  /**
   * With one or two extents equal to 1 and every other extent > 1, the
   * dims come out as three or four zeros, so the planar image has no slice
   * at all while the sequence has at least one plane to write.
   */
  lemma NetImageHasNoSlices<P>(s: Sequence<P>)
    requires s.sizeX >= 1 && s.sizeY >= 1 && s.sizeC >= 1 && s.sizeZ >= 1 && s.sizeT >= 1
    requires 0 < Singletons([s.sizeX, s.sizeY, s.sizeC, s.sizeZ, s.sizeT]) <= 2
    ensures NumSlices(AsWrittenSqueeze([s.sizeX, s.sizeY, s.sizeC, s.sizeZ, s.sizeT])) == 0
    ensures |SequencePlanes(s)| > 0
  {
    var z := AsWrittenSqueeze([s.sizeX, s.sizeY, s.sizeC, s.sizeZ, s.sizeT]);
    assert |z| >= 3 && z[2..][0] == 0;
    SequencePlanesCount(s);
    MulMonotone(s.sizeC, 1, s.sizeZ);
    MulMonotone(s.sizeC * s.sizeZ, 1, s.sizeT);
  }

  /** A single-channel, single-frame z-stack of at least 2 x 2 x 2 is one such sequence. */
  lemma ZStackHasNoSlices<P>(s: Sequence<P>)
    requires s.sizeX > 1 && s.sizeY > 1 && s.sizeZ > 1 && s.sizeC == 1 && s.sizeT == 1
    ensures NumSlices(AsWrittenSqueeze([s.sizeX, s.sizeY, s.sizeC, s.sizeZ, s.sizeT])) == 0 < |SequencePlanes(s)|
  {
    var dims := [s.sizeX, s.sizeY, s.sizeC, s.sizeZ, s.sizeT];
    assert Singletons(dims) == 2 by {
      var xyczt, xycz, xyc, xy, x := dims, dims[..4], dims[..3], dims[..2], dims[..1];
      assert xyczt[..4] == xycz && xycz[..3] == xyc && xyc[..2] == xy && xy[..1] == x && x[..0] == [];
      assert Singletons(x) == 0 && Singletons(xy) == 0 && Singletons(xyc) == 1 && Singletons(xycz) == 1;
    }
    NetImageHasNoSlices(s);
  }

  /**
   * wrapByte and its siblings: a planar image over the squeezed dims, then
   * for t < sizeT, z < sizeZ, c < sizeC the plane getDataXY(t, z, c) goes
   * to slot `no`, counting up from 0.
   */
  method WrapPlanes<P>(s: Sequence<P>, pixelType: PixelType) returns (img: PlanarImg<P>)
    ensures img.pixelType == pixelType
    ensures img.dims == AsWrittenSqueeze([s.sizeX, s.sizeY, s.sizeC, s.sizeZ, s.sizeT])
    ensures Holds(img.slots, SequencePlanes(s))
  {
    var dims := GetSqueezedDims(s);
    img := PlanarImg(pixelType, dims[..], map[]);
    ghost var planes := SequencePlanes(s);
    ghost var d := img.dims;
    var no := 0;
    for t := 0 to s.sizeT
      invariant img.pixelType == pixelType && img.dims == d
      invariant no == Encode(0, 0, t, s.sizeC, s.sizeZ)
      invariant HoldsFirst(img.slots, planes, no)
    {
      img, no := WrapFrame(s, planes, img, no, t);
      CarryMiddle(t, s.sizeC, s.sizeZ);
    }
    CarryTop(s.sizeC, s.sizeZ, s.sizeT);
    SequencePlanesCount(s);
  }

  /** The first n slots hold the first n planes, and there are no others. */
  ghost predicate HoldsFirst<P>(slots: map<int, P>, planes: seq<P>, n: int)
  {
    && 0 <= n <= |planes|
    && (forall k :: k in slots <==> 0 <= k < n)
    && (forall k :: 0 <= k < n ==> slots[k] == planes[k])
  }

  /** The z and c loops for one time point. */
  method WrapFrame<P>(s: Sequence<P>, ghost planes: seq<P>, img: PlanarImg<P>, no: int, t: nat)
    returns (img': PlanarImg<P>, no': int)
    requires planes == SequencePlanes(s)
    requires t < s.sizeT
    requires no == Encode(0, 0, t, s.sizeC, s.sizeZ)
    requires HoldsFirst(img.slots, planes, no)
    ensures img'.pixelType == img.pixelType && img'.dims == img.dims
    ensures no' == Encode(0, s.sizeZ, t, s.sizeC, s.sizeZ)
    ensures HoldsFirst(img'.slots, planes, no')
  {
    img', no' := img, no;
    for z := 0 to s.sizeZ
      invariant img'.pixelType == img.pixelType && img'.dims == img.dims
      invariant no' == Encode(0, z, t, s.sizeC, s.sizeZ)
      invariant HoldsFirst(img'.slots, planes, no')
    {
      for c := 0 to s.sizeC
        invariant img'.pixelType == img.pixelType && img'.dims == img.dims
        invariant no' == Encode(c, z, t, s.sizeC, s.sizeZ)
        invariant HoldsFirst(img'.slots, planes, no')
      {
        SequencePlanesAt(s, t, z, c);
        img' := SetPlane(img', no', s.plane(t, z, c));
        no' := no' + 1;
      }
      CarryLow(z, t, s.sizeC, s.sizeZ);
    }
  }

  /**
   * wrap: the pixel type follows the sequence's data type; LONG, ULONG and
   * anything unknown are refused.
   */
  method Wrap<P>(s: Sequence<P>) returns (r: Result<PlanarImg<P>>)
    ensures r.Failure? <==> s.dataType in {LONG, ULONG, UNDEFINED}
    ensures r.Failure? ==> r.error == UnsupportedDataType
    ensures r.Success? ==>
      && DataTypeOf(r.value.pixelType) == s.dataType
      && r.value.dims == AsWrittenSqueeze([s.sizeX, s.sizeY, s.sizeC, s.sizeZ, s.sizeT])
      && Holds(r.value.slots, SequencePlanes(s))
  {
    var pixelType := PlanarTypeFor(s.dataType);
    if pixelType.Failure? {
      return Failure(pixelType.error);
    }
    var img := WrapPlanes(s, pixelType.value);
    return Success(img);
  }
}
