/**
 * ImgLib2IcySplitSequenceAdapter: cuts a Sequence into several planar
 * images along the axes the caller chooses to split.  Planes are visited t
 * outer, z middle, c inner; each goes to the image numbered by its split
 * coordinates (linearIndexFromCoordinate) and, inside it, to the next free
 * plane slot.  Images are created on first use.
 */
module SplitSequenceAdapter {
  import opened Errors
  import opened ImgLib2
  import opened Icy
  import opened MixedRadix
  import opened Arrangement
  import opened Adapters
  import opened SplitRouting

  /**
   * linearIndexFromCoordinate: A * c + B * z + C * t with the multipliers
   * of the source's eight-way table.  It is 0 when nothing is split.
   */
  function LinearIndexFromCoordinate(c: int, z: int, t: int, sizeC: int, sizeZ: int,
                                     splitC: bool, splitZ: bool, splitT: bool): (index: int)
    ensures !splitC && !splitZ && !splitT ==> index == 0
  {
    var (a, b, m) :=
      if splitC then
        if splitZ then (1, sizeC, if splitT then sizeC * sizeZ else 0)
        else (1, 0, if splitT then sizeC else 0)
      else
        if splitZ then (0, 1, if splitT then sizeZ else 0)
        else (0, 0, if splitT then 1 else 0);
    a * c + b * z + m * t
  }

  /** The table computes the mixed-radix image number of the split coordinates. */
  lemma LinearIndexIsBucket(sp: Split, c: int, z: int, t: int)
    ensures LinearIndexFromCoordinate(c, z, t, sp.sizeC, sp.sizeZ, sp.splitC, sp.splitZ, sp.splitT)
      == sp.Bucket(c, z, t)
  {
    var (sizeC, sizeZ) := (sp.sizeC, sp.sizeZ);
    if sp.splitC && sp.splitZ && sp.splitT {
      assert sizeC * (z + sizeZ * t) == sizeC * z + (sizeC * sizeZ) * t;
    } else if sp.splitC && !sp.splitZ && sp.splitT {
      assert sp.Bucket(c, z, t) == c + sizeC * (0 + 1 * t);
    } else if !sp.splitC && sp.splitZ && sp.splitT {
      assert sp.Bucket(c, z, t) == 0 + 1 * (z + sizeZ * t);
    }
  }

  /** The image number ignores the coordinates of unsplit axes. */
  lemma LinearIndexIgnoresKeptAxes(sp: Split, c: int, z: int, t: int, c': int, z': int, t': int)
    requires sp.splitC ==> c == c'
    requires sp.splitZ ==> z == z'
    requires sp.splitT ==> t == t'
    ensures LinearIndexFromCoordinate(c, z, t, sp.sizeC, sp.sizeZ, sp.splitC, sp.splitZ, sp.splitT)
      == LinearIndexFromCoordinate(c', z', t', sp.sizeC, sp.sizeZ, sp.splitC, sp.splitZ, sp.splitT)
  {
    LinearIndexIsBucket(sp, c, z, t);
    LinearIndexIsBucket(sp, c', z', t');
  }


  /** The split configuration of a sequence. */
  function SplitOf<P>(s: Sequence<P>, splitC: bool, splitZ: bool, splitT: bool): Split
  {
    Split(s.sizeC, s.sizeZ, s.sizeT, splitC, splitZ, splitT)
  }

  /**
   * getDimensionArrangement: the base layout with dropC, dropZ and dropT
   * applied in that order, each only for an axis that is split.  The result
   * has the channel axis exactly when the base has it and it is not split,
   * and one axis fewer per split axis the base has; it is the layout of the
   * remaining flags except when the last drop meets XYZT, which it turns
   * into XYT.
   */
  function GetDimensionArrangement(base: DimensionArrangement, splitC: bool, splitZ: bool, splitT: bool)
    : (r: DimensionArrangement)
    ensures r.HasC() <==> base.HasC() && !splitC
    ensures r.NumDimensions() == base.NumDimensions()
      - (if splitC && base.HasC() then 1 else 0)
      - (if splitZ && base.HasZ() then 1 else 0)
      - (if splitT && base.HasT() then 1 else 0)
    ensures var mid := FromFlags(base.HasC() && !splitC, base.HasZ() && !splitZ, base.HasT());
      && (splitT && mid == XYZT ==> r == XYT)
      && (!(splitT && mid == XYZT) ==> r == FromFlags(mid.HasC(), mid.HasZ(), base.HasT() && !splitT))
  {
    var da := base;
    var da := if splitC then da.DropC() else da;
    var da := if splitZ then da.DropZ() else da;
    if splitT then da.DropT() else da
  }

  /** The extent getDims gives an axis: 0 when it is split. */
  function Extent(split: bool, size: nat): int
  {
    if split then 0 else size
  }

  /** getDims: [X, Y, C, Z, T] with every split axis given extent 0. */
  function GetDims<P>(s: Sequence<P>, splitC: bool, splitZ: bool, splitT: bool): seq<int>
  {
    [s.sizeX, s.sizeY, Extent(splitC, s.sizeC), Extent(splitZ, s.sizeZ), Extent(splitT, s.sizeT)]
  }

  /** An axis's extent when it is kept, nothing when it is split. */
  function KeptExtent(split: bool, size: nat): seq<int>
  {
    if split then [] else [size]
  }

  /** The extents of the axes that are not split, in C, Z, T order. */
  function KeptExtents<P>(s: Sequence<P>, splitC: bool, splitZ: bool, splitT: bool): seq<int>
  {
    KeptExtent(splitC, s.sizeC) + KeptExtent(splitZ, s.sizeZ) + KeptExtent(splitT, s.sizeT)
  }

  /** getSqueezedDims: the dimensions of every planar image the router creates. */
  function GetSqueezedDims<P>(s: Sequence<P>, splitC: bool, splitZ: bool, splitT: bool): (dims: seq<int>)
    ensures forall i :: 0 <= i < |dims| ==> dims[i] > 1
  {
    Squeezed(GetDims(s, splitC, splitZ, splitT))
  }

  /** A split axis never reaches the squeezed dimensions: only X, Y and the kept extents do. */
  lemma {:induction false} SqueezedDimsDropSplitAxes<P>(s: Sequence<P>, splitC: bool, splitZ: bool, splitT: bool)
    ensures GetSqueezedDims(s, splitC, splitZ, splitT) == Squeezed([s.sizeX as int, s.sizeY as int] + KeptExtents(s, splitC, splitZ, splitT))
  {
    var xy: seq<int> := [s.sizeX, s.sizeY];
    var ec, ez, et := Extent(splitC, s.sizeC), Extent(splitZ, s.sizeZ), Extent(splitT, s.sizeT);
    var kc, kz, kt := KeptExtent(splitC, s.sizeC), KeptExtent(splitZ, s.sizeZ), KeptExtent(splitT, s.sizeT);
    assert GetDims(s, splitC, splitZ, splitT) == xy + [ec, ez, et];
    SqueezedAppend(xy, [ec, ez, et]);
    SqueezedTriple(ec, ez, et);
    SqueezedExtent(splitC, s.sizeC);
    SqueezedExtent(splitZ, s.sizeZ);
    SqueezedExtent(splitT, s.sizeT);
    SqueezedAppend(xy, kc + kz + kt);
    SqueezedAppend(kc + kz, kt);
    SqueezedAppend(kc, kz);
  }

  /** A split axis's 0 is squeezed away just as its absence would be. */
  lemma SqueezedExtent(split: bool, size: nat)
    ensures Squeezed([Extent(split, size)]) == Squeezed(KeptExtent(split, size))
  {
    assert [Extent(split, size)][..0] == [];
  }

  /**
   * With X and Y wider than one pixel and no empty axis, each planar image
   * holds exactly as many planes as the router puts in it.
   */
  lemma SqueezedDimsHoldEveryBucket<P>(s: Sequence<P>, splitC: bool, splitZ: bool, splitT: bool)
    requires s.sizeX > 1 && s.sizeY > 1 && s.sizeC >= 1 && s.sizeZ >= 1 && s.sizeT >= 1
    ensures NumSlices(GetSqueezedDims(s, splitC, splitZ, splitT)) == SplitOf(s, splitC, splitZ, splitT).PlanesPerBucket()
  {
    var c := if splitC then 0 else s.sizeC;
    var z := if splitZ then 0 else s.sizeZ;
    var t := if splitT then 0 else s.sizeT;
    assert GetDims(s, splitC, splitZ, splitT) == [s.sizeX, s.sizeY, c, z, t];
    NumSlicesOfSqueezed(s.sizeX, s.sizeY, c, z, t);
  }

  lemma AppendThenUpdate<T>(xs: seq<T>, x: T, y: T)
    ensures (xs + [x])[|xs| := y] == xs + [y]
  {
  }

  /** Once every plane is visited, the state is a complete routing. */
  lemma RoutingComplete<P>(s: Sequence<P>, splitC: bool, splitZ: bool, splitT: bool, pixelType: PixelType,
                           imgs: seq<PlanarImg<P>>, counters: seq<int>)
    requires var sp := SplitOf(s, splitC, splitZ, splitT);
      Routed(s, sp, GetSqueezedDims(s, splitC, splitZ, splitT), pixelType, imgs, counters, sp.NumPlanes())
    ensures IsRouting(s, splitC, splitZ, splitT, pixelType, imgs)
  {
    var sp := SplitOf(s, splitC, splitZ, splitT);
    forall c, z, t | sp.InRange(c, z, t)
      ensures sp.Visit(c, z, t) < sp.NumPlanes()
    {
      RouteBounds(sp, c, z, t);
    }
    if sp.NumPlanes() > 0 {
      PositiveFactors(sp.sizeC, sp.sizeZ, sp.sizeT);
      RouteBounds(sp, 0, 0, 0);
      var c, z, t := RouteOnto(sp, sp.NumBuckets() - 1, 0);
      forall b | 0 <= b < |imgs|
        ensures counters[b] == sp.PlanesPerBucket()
      {
        var c', z', t' := RouteOnto(sp, b, sp.PlanesPerBucket() - 1);
      }
    }
  }

  /**
   * What the routing loop delivers: one image per image number (none when
   * the sequence has no plane), each of the squeezed dimensions and with
   * its slots 0 .. planes-per-image - 1 filled, and every plane (c, z, t)
   * at slot Slot(c, z, t) of image Bucket(c, z, t).
   */
  ghost predicate IsRouting<P>(s: Sequence<P>, splitC: bool, splitZ: bool, splitT: bool,
                               pixelType: PixelType, imgs: seq<PlanarImg<P>>)
  {
    var sp := SplitOf(s, splitC, splitZ, splitT);
    |imgs| == (if sp.NumPlanes() == 0 then 0 else sp.NumBuckets())
    && (forall b :: 0 <= b < |imgs| ==>
          imgs[b].dims == GetSqueezedDims(s, splitC, splitZ, splitT) && imgs[b].pixelType == pixelType
          && SlotsBelow(imgs[b].slots, sp.PlanesPerBucket()))
    && (forall c, z, t :: sp.InRange(c, z, t) ==>
          0 <= sp.Bucket(c, z, t) < |imgs| && 0 <= sp.Slot(c, z, t) < sp.PlanesPerBucket()
          && imgs[sp.Bucket(c, z, t)].slots[sp.Slot(c, z, t)] == s.plane(t, z, c))
  }

  /**
   * The body of the wrap* loop for plane (c, z, t): its image number; a new
   * planar image of the squeezed dimensions with a counter at 0 when that
   * number is not yet in the list; the plane stored at the counter, which
   * then advances.
   */
  method RoutePlane<P>(s: Sequence<P>, splitC: bool, splitZ: bool, splitT: bool, pixelType: PixelType,
                       ghost sp: Split, ghost dims: seq<int>,
                       imgs0: seq<PlanarImg<P>>, counters0: seq<int>, c: int, z: int, t: int)
    returns (imgs: seq<PlanarImg<P>>, planeCounters: seq<int>)
    requires sp == SplitOf(s, splitC, splitZ, splitT) && dims == GetSqueezedDims(s, splitC, splitZ, splitT)
    requires sp.InRange(c, z, t)
    requires Routed(s, sp, dims, pixelType, imgs0, counters0, sp.Visit(c, z, t))
    ensures Routed(s, sp, dims, pixelType, imgs, planeCounters, sp.Visit(c, z, t) + 1)
  {
    NextPlane(s, sp, dims, pixelType, imgs0, counters0, c, z, t);
    imgs, planeCounters := StorePlane(s, splitC, splitZ, splitT, pixelType, imgs0, counters0, c, z, t);
    Delivered(s, sp, dims, pixelType, imgs0, counters0, c, z, t, imgs, planeCounters);
  }

  /** The innermost loop of the t-z-c walk: every channel of plane (z, t), in order. */
  method RouteRow<P>(s: Sequence<P>, splitC: bool, splitZ: bool, splitT: bool, pixelType: PixelType,
                     ghost sp: Split, ghost dims: seq<int>,
                     imgs0: seq<PlanarImg<P>>, counters0: seq<int>, z: int, t: int)
    returns (imgs: seq<PlanarImg<P>>, planeCounters: seq<int>)
    requires sp == SplitOf(s, splitC, splitZ, splitT) && dims == GetSqueezedDims(s, splitC, splitZ, splitT)
    requires 0 <= z < sp.sizeZ && 0 <= t < sp.sizeT
    requires Routed(s, sp, dims, pixelType, imgs0, counters0, sp.Visit(0, z, t))
    ensures Routed(s, sp, dims, pixelType, imgs, planeCounters, sp.Visit(0, z + 1, t))
  {
    imgs, planeCounters := imgs0, counters0;
    var c := 0;
    while c < s.sizeC
      invariant 0 <= c <= s.sizeC
      invariant Routed(s, sp, dims, pixelType, imgs, planeCounters, sp.Visit(c, z, t))
    {
      imgs, planeCounters := RoutePlane(s, splitC, splitZ, splitT, pixelType, sp, dims, imgs, planeCounters, c, z, t);
      c := c + 1;
    }
    CarryLow(z, t, s.sizeC, s.sizeZ);
  }

  /**
   * Stores the plane (c, z, t) in the image its linear index names, at the
   * slot that image's counter names; an index one past the list first opens
   * an empty image with the squeezed dimensions.
   */
  method StorePlane<P>(s: Sequence<P>, splitC: bool, splitZ: bool, splitT: bool, pixelType: PixelType,
                       imgs0: seq<PlanarImg<P>>, counters0: seq<int>, c: int, z: int, t: int)
    returns (imgs: seq<PlanarImg<P>>, planeCounters: seq<int>)
    requires SplitOf(s, splitC, splitZ, splitT).InRange(c, z, t)
    requires |imgs0| == |counters0| && SplitOf(s, splitC, splitZ, splitT).Bucket(c, z, t) <= |imgs0|
    ensures var b, plane := SplitOf(s, splitC, splitZ, splitT).Bucket(c, z, t), s.plane(t, z, c);
      && (b < |imgs0| ==>
            && imgs == imgs0[b := SetPlane(imgs0[b], counters0[b], plane)]
            && planeCounters == counters0[b := counters0[b] + 1])
      && (b == |imgs0| ==>
            && imgs == imgs0 + [SetPlane(PlanarImg(pixelType, GetSqueezedDims(s, splitC, splitZ, splitT), map[]), 0, plane)]
            && planeCounters == counters0 + [1])
  {
    ghost var sp := SplitOf(s, splitC, splitZ, splitT);
    imgs, planeCounters := imgs0, counters0;
    var index := LinearIndexFromCoordinate(c, z, t, s.sizeC, s.sizeZ, splitC, splitZ, splitT);
    LinearIndexIsBucket(sp, c, z, t);
    RouteBounds(sp, c, z, t);
    var img: PlanarImg<P>;
    var count: int;
    if index >= |imgs| {
      var squeezed := SqueezeSingletonDims(GetDims(s, splitC, splitZ, splitT));
      img := PlanarImg(pixelType, squeezed, map[]);
      imgs := imgs + [img];
      count := 0;
      planeCounters := planeCounters + [count];
    } else {
      img := imgs[index];
      count := planeCounters[index];
    }
    img := SetPlane(img, count, s.plane(t, z, c));
    count := count + 1;
    imgs := imgs[index := img];
    planeCounters := planeCounters[index := count];
    if index == |imgs0| {
      ghost var empty := PlanarImg(pixelType, GetSqueezedDims(s, splitC, splitZ, splitT), map[]);
      AppendThenUpdate(imgs0, empty, SetPlane(empty, 0, s.plane(t, z, c)));
      AppendThenUpdate(counters0, 0, 1);
    }
  }

  /**
   * The wrap* loop, for any plane type: planes are visited t, z, c; a plane
   * whose image number is not yet in the list opens a new planar image of
   * the squeezed dimensions with a counter at 0; the plane is stored at its
   * image's counter, which then advances.
   */
  method Route<P>(s: Sequence<P>, splitC: bool, splitZ: bool, splitT: bool, pixelType: PixelType)
    returns (imgs: seq<PlanarImg<P>>)
    ensures IsRouting(s, splitC, splitZ, splitT, pixelType, imgs)
  {
    ghost var sp := SplitOf(s, splitC, splitZ, splitT);
    ghost var dims := GetSqueezedDims(s, splitC, splitZ, splitT);
    var planeCounters;
    imgs, planeCounters := RouteAll(s, splitC, splitZ, splitT, pixelType, sp, dims);
    RoutingComplete(s, splitC, splitZ, splitT, pixelType, imgs, planeCounters);
  }

  /** The t-z-c walk over every plane, starting from no images. */
  method RouteAll<P>(s: Sequence<P>, splitC: bool, splitZ: bool, splitT: bool, pixelType: PixelType,
                     ghost sp: Split, ghost dims: seq<int>)
    returns (imgs: seq<PlanarImg<P>>, planeCounters: seq<int>)
    requires sp == SplitOf(s, splitC, splitZ, splitT) && dims == GetSqueezedDims(s, splitC, splitZ, splitT)
    ensures Routed(s, sp, dims, pixelType, imgs, planeCounters, sp.NumPlanes())
  {
    imgs, planeCounters := [], [];
    var sizeC, sizeZ, sizeT := s.sizeC, s.sizeZ, s.sizeT;
    RoutingStarts(s, sp, dims, pixelType);
    var t := 0;
    while t < sizeT
      invariant 0 <= t <= sizeT
      invariant Routed(s, sp, dims, pixelType, imgs, planeCounters, sp.Visit(0, 0, t))
    {
      imgs, planeCounters := RouteSlab(s, splitC, splitZ, splitT, pixelType, sp, dims, imgs, planeCounters, t);
      t := t + 1;
    }
    CarryTop(sizeC, sizeZ, sizeT);
  }

  /** The middle loop of the t-z-c walk: every plane of time point t, in order. */
  method RouteSlab<P>(s: Sequence<P>, splitC: bool, splitZ: bool, splitT: bool, pixelType: PixelType,
                      ghost sp: Split, ghost dims: seq<int>,
                      imgs0: seq<PlanarImg<P>>, counters0: seq<int>, t: int)
    returns (imgs: seq<PlanarImg<P>>, planeCounters: seq<int>)
    requires sp == SplitOf(s, splitC, splitZ, splitT) && dims == GetSqueezedDims(s, splitC, splitZ, splitT)
    requires 0 <= t < sp.sizeT
    requires Routed(s, sp, dims, pixelType, imgs0, counters0, sp.Visit(0, 0, t))
    ensures Routed(s, sp, dims, pixelType, imgs, planeCounters, sp.Visit(0, 0, t + 1))
  {
    imgs, planeCounters := imgs0, counters0;
    var z := 0;
    while z < s.sizeZ
      invariant 0 <= z <= s.sizeZ
      invariant Routed(s, sp, dims, pixelType, imgs, planeCounters, sp.Visit(0, z, t))
    {
      imgs, planeCounters := RouteRow(s, splitC, splitZ, splitT, pixelType, sp, dims, imgs, planeCounters, z, t);
      z := z + 1;
    }
    CarryMiddle(t, s.sizeC, s.sizeZ);
  }

  /** Every filled slot of every image holds exactly one plane of the sequence. */
  lemma EverySlotHoldsOnePlane<P>(s: Sequence<P>, splitC: bool, splitZ: bool, splitT: bool,
                                  pixelType: PixelType, imgs: seq<PlanarImg<P>>, b: int, k: int)
    returns (c: int, z: int, t: int)
    requires IsRouting(s, splitC, splitZ, splitT, pixelType, imgs)
    requires 0 <= b < |imgs| && k in imgs[b].slots
    ensures var sp := SplitOf(s, splitC, splitZ, splitT);
      && sp.InRange(c, z, t) && sp.Bucket(c, z, t) == b && sp.Slot(c, z, t) == k
      && imgs[b].slots[k] == s.plane(t, z, c)
      && forall c', z', t' :: sp.InRange(c', z', t') && sp.Bucket(c', z', t') == b && sp.Slot(c', z', t') == k
           ==> c' == c && z' == z && t' == t
  {
    var sp := SplitOf(s, splitC, splitZ, splitT);
    c, z, t := RouteOnto(sp, b, k);
    forall c', z', t' | sp.InRange(c', z', t') && sp.Bucket(c', z', t') == b && sp.Slot(c', z', t') == k
      ensures c' == c && z' == z && t' == t
    {
      RouteInjective(sp, c, z, t, c', z', t');
    }
  }

  /**
   * wrap: the element-type switch, then the routing loop.  LONG, ULONG and
   * unknown types fail before any image is created.
   */
  method Wrap<P>(s: Sequence<P>, splitC: bool, splitZ: bool, splitT: bool)
    returns (r: Result<seq<PlanarImg<P>>>)
    ensures r.Failure? <==> s.dataType in {LONG, ULONG, UNDEFINED}
    ensures r.Failure? ==> r.error == UnsupportedDataType
    ensures r.Success? ==> IsRouting(s, splitC, splitZ, splitT, PlanarTypeFor(s.dataType).value, r.value)
  {
    var pixelType := PlanarTypeFor(s.dataType);
    if pixelType.Failure? {
      return Failure(pixelType.error);
    }
    var imgs := Route(s, splitC, splitZ, splitT, pixelType.value);
    return Success(imgs);
  }

  /** Two channels, three slices, one frame, split on C: two images, image c holding z = 0, 1, 2 in order. */
  lemma SplitChannelsExample<P>(s: Sequence<P>, pixelType: PixelType, imgs: seq<PlanarImg<P>>)
    requires s.sizeC == 2 && s.sizeZ == 3 && s.sizeT == 1
    requires IsRouting(s, true, false, false, pixelType, imgs)
    ensures |imgs| == 2
    ensures forall c, z :: 0 <= c < 2 && 0 <= z < 3 ==> imgs[c].slots[z] == s.plane(0, z, c)
  {
    var sp := SplitOf(s, true, false, false);
    forall c, z | 0 <= c < 2 && 0 <= z < 3
      ensures imgs[c].slots[z] == s.plane(0, z, c)
    {
      assert sp.InRange(c, z, 0);
      assert sp.Bucket(c, z, 0) == c;
      assert sp.Slot(c, z, 0) == z;
    }
  }

  /** Nothing split: one image holding every plane in visiting order. */
  lemma NoSplitExample<P>(s: Sequence<P>, pixelType: PixelType, imgs: seq<PlanarImg<P>>)
    requires s.sizeC == 1 && s.sizeZ == 1 && s.sizeT == 4
    requires IsRouting(s, false, false, false, pixelType, imgs)
    ensures |imgs| == 1 && imgs[0].slots.Keys == {0, 1, 2, 3}
    ensures forall t :: 0 <= t < 4 ==> imgs[0].slots[t] == s.plane(t, 0, 0)
  {
    var sp := SplitOf(s, false, false, false);
    assert SlotsBelow(imgs[0].slots, 4);
    assert forall k :: k in imgs[0].slots.Keys <==> k in {0, 1, 2, 3};
    forall t | 0 <= t < 4
      ensures imgs[0].slots[t] == s.plane(t, 0, 0)
    {
      assert sp.InRange(0, 0, t);
      assert sp.Slot(0, 0, t) == t;
    }
  }
}
