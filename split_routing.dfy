/**
 * The routing of ImgLib2IcySplitSequenceAdapter, stated on plane
 * coordinates: which image and which slot each plane (c, z, t) of a
 * sequence goes to, and the state of the t-z-c loop after its first n
 * planes.  The loop itself is in SplitSequenceAdapter.
 */
module SplitRouting {
  import opened ImgLib2
  import opened Icy
  import opened MixedRadix

  /**
   * The extents of the three non-spatial axes and which of them are split.
   * Every plane (c, z, t) has three numbers: its visiting rank, the number
   * of its image (a mixed-radix number of its split coordinates) and its
   * slot in that image (a mixed-radix number of its unsplit coordinates).
   */
  datatype Split = Split(sizeC: nat, sizeZ: nat, sizeT: nat, splitC: bool, splitZ: bool, splitT: bool) {

    predicate InRange(c: int, z: int, t: int)
    {
      0 <= c < sizeC && 0 <= z < sizeZ && 0 <= t < sizeT
    }

    /** How many planes the t-z-c loops visit before (c, z, t). */
    function Visit(c: int, z: int, t: int): int
    {
      Encode(c, z, t, sizeC, sizeZ)
    }

    /** Radix of an axis in the image number: its extent if split, else 1. */
    function SplitRadix(split: bool, size: nat): nat { if split then size else 1 }
    /** Radix of an axis in the slot number: its extent if not split, else 1. */
    function KeptRadix(split: bool, size: nat): nat { if split then 1 else size }
    function SplitDigit(split: bool, x: int): int { if split then x else 0 }
    function KeptDigit(split: bool, x: int): int { if split then 0 else x }

    /** The image a plane goes to: its split coordinates in mixed radix, c fastest. */
    function Bucket(c: int, z: int, t: int): int
    {
      Encode(SplitDigit(splitC, c), SplitDigit(splitZ, z), SplitDigit(splitT, t),
             SplitRadix(splitC, sizeC), SplitRadix(splitZ, sizeZ))
    }

    /** The slot a plane takes in its image: its unsplit coordinates in mixed radix, c fastest. */
    function Slot(c: int, z: int, t: int): int
    {
      Encode(KeptDigit(splitC, c), KeptDigit(splitZ, z), KeptDigit(splitT, t),
             KeptRadix(splitC, sizeC), KeptRadix(splitZ, sizeZ))
    }

    function NumPlanes(): nat { sizeC * sizeZ * sizeT }

    function NumBuckets(): nat
    {
      SplitRadix(splitC, sizeC) * SplitRadix(splitZ, sizeZ) * SplitRadix(splitT, sizeT)
    }

    function PlanesPerBucket(): nat
    {
      KeptRadix(splitC, sizeC) * KeptRadix(splitZ, sizeZ) * KeptRadix(splitT, sizeT)
    }
  }

  /** Visit rank, image number and slot of an in-range plane are within their ranges. */
  lemma RouteBounds(sp: Split, c: int, z: int, t: int)
    requires sp.InRange(c, z, t)
    ensures 0 <= sp.Visit(c, z, t) < sp.NumPlanes()
    ensures 0 <= sp.Bucket(c, z, t) < sp.NumBuckets()
    ensures 0 <= sp.Slot(c, z, t) < sp.PlanesPerBucket()
  {
    Bounds(c, z, t, sp.sizeC, sp.sizeZ, sp.sizeT);
    Bounds(sp.SplitDigit(sp.splitC, c), sp.SplitDigit(sp.splitZ, z), sp.SplitDigit(sp.splitT, t),
           sp.SplitRadix(sp.splitC, sp.sizeC), sp.SplitRadix(sp.splitZ, sp.sizeZ), sp.SplitRadix(sp.splitT, sp.sizeT));
    Bounds(sp.KeptDigit(sp.splitC, c), sp.KeptDigit(sp.splitZ, z), sp.KeptDigit(sp.splitT, t),
           sp.KeptRadix(sp.splitC, sp.sizeC), sp.KeptRadix(sp.splitZ, sp.sizeZ), sp.KeptRadix(sp.splitT, sp.sizeT));
  }

  /** The three orderings, each as the lexicographic order of its digits. */
  lemma RouteOrders(sp: Split, c: int, z: int, t: int, c': int, z': int, t': int)
    requires sp.InRange(c, z, t) && sp.InRange(c', z', t')
    ensures sp.Visit(c, z, t) < sp.Visit(c', z', t') <==> LexLess(c, z, t, c', z', t')
    ensures sp.Visit(c, z, t) == sp.Visit(c', z', t') <==> (c == c' && z == z' && t == t')
    ensures sp.Bucket(c, z, t) < sp.Bucket(c', z', t') <==>
      LexLess(sp.SplitDigit(sp.splitC, c), sp.SplitDigit(sp.splitZ, z), sp.SplitDigit(sp.splitT, t),
              sp.SplitDigit(sp.splitC, c'), sp.SplitDigit(sp.splitZ, z'), sp.SplitDigit(sp.splitT, t'))
    ensures sp.Bucket(c, z, t) == sp.Bucket(c', z', t') <==>
      (sp.splitC ==> c == c') && (sp.splitZ ==> z == z') && (sp.splitT ==> t == t')
    ensures sp.Slot(c, z, t) < sp.Slot(c', z', t') <==>
      LexLess(sp.KeptDigit(sp.splitC, c), sp.KeptDigit(sp.splitZ, z), sp.KeptDigit(sp.splitT, t),
              sp.KeptDigit(sp.splitC, c'), sp.KeptDigit(sp.splitZ, z'), sp.KeptDigit(sp.splitT, t'))
    ensures sp.Slot(c, z, t) == sp.Slot(c', z', t') <==>
      (!sp.splitC ==> c == c') && (!sp.splitZ ==> z == z') && (!sp.splitT ==> t == t')
  {
    Order(c, z, t, c', z', t', sp.sizeC, sp.sizeZ, sp.sizeT);
    Order(sp.SplitDigit(sp.splitC, c), sp.SplitDigit(sp.splitZ, z), sp.SplitDigit(sp.splitT, t),
          sp.SplitDigit(sp.splitC, c'), sp.SplitDigit(sp.splitZ, z'), sp.SplitDigit(sp.splitT, t'),
          sp.SplitRadix(sp.splitC, sp.sizeC), sp.SplitRadix(sp.splitZ, sp.sizeZ), sp.SplitRadix(sp.splitT, sp.sizeT));
    Order(sp.KeptDigit(sp.splitC, c), sp.KeptDigit(sp.splitZ, z), sp.KeptDigit(sp.splitT, t),
          sp.KeptDigit(sp.splitC, c'), sp.KeptDigit(sp.splitZ, z'), sp.KeptDigit(sp.splitT, t'),
          sp.KeptRadix(sp.splitC, sp.sizeC), sp.KeptRadix(sp.splitZ, sp.sizeZ), sp.KeptRadix(sp.splitT, sp.sizeT));
  }

  /** No two planes share an (image, slot) pair. */
  lemma RouteInjective(sp: Split, c: int, z: int, t: int, c': int, z': int, t': int)
    requires sp.InRange(c, z, t) && sp.InRange(c', z', t')
    requires sp.Bucket(c, z, t) == sp.Bucket(c', z', t') && sp.Slot(c, z, t) == sp.Slot(c', z', t')
    ensures c == c' && z == z' && t == t'
  {
    RouteOrders(sp, c, z, t, c', z', t');
  }

  /** Inside one image, slots are taken in visiting order. */
  lemma SlotOrderIsVisitOrder(sp: Split, c: int, z: int, t: int, c': int, z': int, t': int)
    requires sp.InRange(c, z, t) && sp.InRange(c', z', t')
    requires sp.Bucket(c, z, t) == sp.Bucket(c', z', t')
    ensures sp.Slot(c, z, t) < sp.Slot(c', z', t') <==> sp.Visit(c, z, t) < sp.Visit(c', z', t')
  {
    RouteOrders(sp, c, z, t, c', z', t');
  }

  /** The plane at slot 0 of a lower-numbered image is visited earlier. */
  lemma LowerBucketsOpenFirst(sp: Split, c: int, z: int, t: int, c': int, z': int, t': int)
    requires sp.InRange(c, z, t) && sp.InRange(c', z', t')
    requires sp.Bucket(c', z', t') < sp.Bucket(c, z, t) && sp.Slot(c', z', t') == 0
    ensures sp.Visit(c', z', t') < sp.Visit(c, z, t)
  {
    RouteOrders(sp, c, z, t, c', z', t');
    RouteOrders(sp, c', z', t', c, z, t);
    RouteOrders(sp, c', z', t', 0, 0, 0);
  }

  /** Every (image, slot) pair in range is taken by some plane. */
  lemma RouteOnto(sp: Split, b: int, s: int) returns (c: int, z: int, t: int)
    requires 0 <= b < sp.NumBuckets() && 0 <= s < sp.PlanesPerBucket()
    ensures sp.InRange(c, z, t) && sp.Bucket(c, z, t) == b && sp.Slot(c, z, t) == s
  {
    var rc, rz, rt := sp.SplitRadix(sp.splitC, sp.sizeC), sp.SplitRadix(sp.splitZ, sp.sizeZ), sp.SplitRadix(sp.splitT, sp.sizeT);
    var kc, kz, kt := sp.KeptRadix(sp.splitC, sp.sizeC), sp.KeptRadix(sp.splitZ, sp.sizeZ), sp.KeptRadix(sp.splitT, sp.sizeT);
    PositiveFactors(rc, rz, rt);
    PositiveFactors(kc, kz, kt);
    var bc, bz, bt := Decode(b, rc, rz, rt);
    var kc', kz', kt' := Decode(s, kc, kz, kt);
    c := if sp.splitC then bc else kc';
    z := if sp.splitZ then bz else kz';
    t := if sp.splitT then bt else kt';
  }

  /** The filled slots are exactly 0 .. n - 1. */
  ghost predicate SlotsBelow<P>(slots: map<int, P>, n: int)
  {
    forall k :: k in slots <==> 0 <= k < n
  }

  /**
   * The router's state after the first n visited planes: an image per
   * image number met so far, all of the squeezed dimensions, each with a
   * counter of its filled slots; every visited plane sits at its slot, and
   * no unvisited plane's slot is filled yet.
   */
  ghost predicate Routed<P>(s: Sequence<P>, sp: Split, dims: seq<int>, pixelType: PixelType,
                            imgs: seq<PlanarImg<P>>, counters: seq<int>, n: int)
  {
    |imgs| == |counters| && |imgs| <= sp.NumBuckets() && |imgs| <= n
    && (forall b :: 0 <= b < |imgs| ==>
          imgs[b].dims == dims && imgs[b].pixelType == pixelType
          && 0 <= counters[b] <= sp.PlanesPerBucket() && SlotsBelow(imgs[b].slots, counters[b]))
    && (forall c, z, t {:trigger sp.Bucket(c, z, t)} :: sp.InRange(c, z, t) && sp.Visit(c, z, t) < n ==>
          0 <= sp.Bucket(c, z, t) < |imgs| && 0 <= sp.Slot(c, z, t) < counters[sp.Bucket(c, z, t)]
          && imgs[sp.Bucket(c, z, t)].slots[sp.Slot(c, z, t)] == s.plane(t, z, c))
    && (forall c, z, t {:trigger sp.Bucket(c, z, t)} :: sp.InRange(c, z, t) && sp.Visit(c, z, t) >= n ==>
          !(0 <= sp.Bucket(c, z, t) < |imgs|) || sp.Slot(c, z, t) >= counters[sp.Bucket(c, z, t)])
  }

  /** Before the first plane, the empty list of images is a routing state. */
  lemma RoutingStarts<P>(s: Sequence<P>, sp: Split, dims: seq<int>, pixelType: PixelType)
    ensures Routed(s, sp, dims, pixelType, [], [], sp.Visit(0, 0, 0))
  {
    forall c, z, t | sp.InRange(c, z, t)
      ensures sp.Visit(c, z, t) >= 0
    {
      RouteBounds(sp, c, z, t);
    }
  }

  /**
   * The plane visited next either opens the next image, at slot 0 (so an
   * image number beyond the list is always exactly its length), or goes
   * to an existing image at the slot its counter names.
   */
  lemma NextPlane<P>(s: Sequence<P>, sp: Split, dims: seq<int>, pixelType: PixelType,
                     imgs: seq<PlanarImg<P>>, counters: seq<int>, c: int, z: int, t: int)
    requires sp.InRange(c, z, t)
    requires Routed(s, sp, dims, pixelType, imgs, counters, sp.Visit(c, z, t))
    ensures 0 <= sp.Bucket(c, z, t) <= |imgs|
    ensures sp.Bucket(c, z, t) == |imgs| ==> sp.Slot(c, z, t) == 0
    ensures sp.Bucket(c, z, t) < |imgs| ==> sp.Slot(c, z, t) == counters[sp.Bucket(c, z, t)]
  {
    RouteBounds(sp, c, z, t);
    var b, k := sp.Bucket(c, z, t), sp.Slot(c, z, t);
    if b > |imgs| {
      var c', z', t' := RouteOnto(sp, |imgs|, 0);
      LowerBucketsOpenFirst(sp, c, z, t, c', z', t');
    } else if b == |imgs| && k > 0 {
      var c', z', t' := RouteOnto(sp, b, 0);
      SlotOrderIsVisitOrder(sp, c', z', t', c, z, t);
    } else if b < |imgs| && k > counters[b] {
      var c', z', t' := RouteOnto(sp, b, counters[b]);
      SlotOrderIsVisitOrder(sp, c', z', t', c, z, t);
    }
  }

  /** Storing the next plane at its slot and advancing that counter keeps the router's state. */
  lemma Delivered<P>(s: Sequence<P>, sp: Split, dims: seq<int>, pixelType: PixelType,
                     imgs: seq<PlanarImg<P>>, counters: seq<int>, c: int, z: int, t: int,
                     imgs': seq<PlanarImg<P>>, counters': seq<int>)
    requires sp.InRange(c, z, t)
    requires Routed(s, sp, dims, pixelType, imgs, counters, sp.Visit(c, z, t))
    requires Stored(s, sp, dims, pixelType, imgs, counters, c, z, t, imgs', counters')
    ensures Routed(s, sp, dims, pixelType, imgs', counters', sp.Visit(c, z, t) + 1)
  {
    StoredShape(s, sp, dims, pixelType, imgs, counters, c, z, t, imgs', counters');
    StoredVisited(s, sp, dims, pixelType, imgs, counters, c, z, t, imgs', counters');
    StoredUnvisited(s, sp, dims, pixelType, imgs, counters, c, z, t, imgs', counters');
  }

  /**
   * One step of the loop: the plane (c, z, t) is stored at the slot its
   * image's counter names, in an existing image or in a freshly opened one.
   */
  ghost predicate Stored<P>(s: Sequence<P>, sp: Split, dims: seq<int>, pixelType: PixelType,
                            imgs: seq<PlanarImg<P>>, counters: seq<int>, c: int, z: int, t: int,
                            imgs': seq<PlanarImg<P>>, counters': seq<int>)
    requires |imgs| == |counters|
  {
    var b := sp.Bucket(c, z, t);
    && 0 <= b <= |imgs|
    && (b < |imgs| ==>
          && sp.Slot(c, z, t) == counters[b]
          && imgs' == imgs[b := SetPlane(imgs[b], counters[b], s.plane(t, z, c))]
          && counters' == counters[b := counters[b] + 1])
    && (b == |imgs| ==>
          && sp.Slot(c, z, t) == 0
          && imgs' == imgs + [SetPlane(PlanarImg(pixelType, dims, map[]), 0, s.plane(t, z, c))]
          && counters' == counters + [1])
  }

  /** A step keeps every image's shape and its slots exactly those below its counter. */
  lemma StoredShape<P>(s: Sequence<P>, sp: Split, dims: seq<int>, pixelType: PixelType,
                       imgs: seq<PlanarImg<P>>, counters: seq<int>, c: int, z: int, t: int,
                       imgs': seq<PlanarImg<P>>, counters': seq<int>)
    requires sp.InRange(c, z, t)
    requires Routed(s, sp, dims, pixelType, imgs, counters, sp.Visit(c, z, t))
    requires Stored(s, sp, dims, pixelType, imgs, counters, c, z, t, imgs', counters')
    ensures |imgs'| == |counters'| && |imgs'| <= sp.NumBuckets() && |imgs'| <= sp.Visit(c, z, t) + 1
    ensures forall b :: 0 <= b < |imgs'| ==>
          imgs'[b].dims == dims && imgs'[b].pixelType == pixelType
          && 0 <= counters'[b] <= sp.PlanesPerBucket() && SlotsBelow(imgs'[b].slots, counters'[b])
    ensures sp.Bucket(c, z, t) < |imgs'| && counters'[sp.Bucket(c, z, t)] == sp.Slot(c, z, t) + 1
    ensures imgs'[sp.Bucket(c, z, t)].slots[sp.Slot(c, z, t)] == s.plane(t, z, c)
    ensures forall i :: 0 <= i < |imgs'| && i != sp.Bucket(c, z, t) ==>
          imgs'[i] == imgs[i] && counters'[i] == counters[i]
    ensures forall key :: key != sp.Slot(c, z, t) && key in imgs'[sp.Bucket(c, z, t)].slots ==>
          sp.Bucket(c, z, t) < |imgs| && key in imgs[sp.Bucket(c, z, t)].slots
          && imgs'[sp.Bucket(c, z, t)].slots[key] == imgs[sp.Bucket(c, z, t)].slots[key]
  {
    RouteBounds(sp, c, z, t);
    var b, k := sp.Bucket(c, z, t), sp.Slot(c, z, t);
    assert |imgs'| == |counters'| && b < |imgs'| && counters'[b] == k + 1;
    assert imgs'[b].dims == dims && imgs'[b].pixelType == pixelType;
    assert forall i :: 0 <= i < |imgs'| && i != b ==> imgs'[i] == imgs[i] && counters'[i] == counters[i];
    assert imgs'[b].slots[k] == s.plane(t, z, c);
    assert SlotsBelow(imgs'[b].slots, k + 1);
  }

  /** After a step, every plane visited so far, this one included, sits at its slot. */
  lemma StoredVisited<P>(s: Sequence<P>, sp: Split, dims: seq<int>, pixelType: PixelType,
                         imgs: seq<PlanarImg<P>>, counters: seq<int>, c: int, z: int, t: int,
                         imgs': seq<PlanarImg<P>>, counters': seq<int>)
    requires sp.InRange(c, z, t)
    requires Routed(s, sp, dims, pixelType, imgs, counters, sp.Visit(c, z, t))
    requires Stored(s, sp, dims, pixelType, imgs, counters, c, z, t, imgs', counters')
    ensures |imgs'| == |counters'|
    ensures forall c', z', t' {:trigger sp.Bucket(c', z', t')} ::
          sp.InRange(c', z', t') && sp.Visit(c', z', t') < sp.Visit(c, z, t) + 1 ==>
          0 <= sp.Bucket(c', z', t') < |imgs'| && 0 <= sp.Slot(c', z', t') < counters'[sp.Bucket(c', z', t')]
          && imgs'[sp.Bucket(c', z', t')].slots[sp.Slot(c', z', t')] == s.plane(t', z', c')
  {
    StoredShape(s, sp, dims, pixelType, imgs, counters, c, z, t, imgs', counters');
    forall c', z', t' | sp.InRange(c', z', t') && sp.Visit(c', z', t') < sp.Visit(c, z, t) + 1
      ensures 0 <= sp.Bucket(c', z', t') < |imgs'| && 0 <= sp.Slot(c', z', t') < counters'[sp.Bucket(c', z', t')]
      ensures imgs'[sp.Bucket(c', z', t')].slots[sp.Slot(c', z', t')] == s.plane(t', z', c')
    {
      RouteOrders(sp, c, z, t, c', z', t');
    }
  }

  /** After a step, no plane still to be visited owns a slot below its image's counter. */
  lemma StoredUnvisited<P>(s: Sequence<P>, sp: Split, dims: seq<int>, pixelType: PixelType,
                           imgs: seq<PlanarImg<P>>, counters: seq<int>, c: int, z: int, t: int,
                           imgs': seq<PlanarImg<P>>, counters': seq<int>)
    requires sp.InRange(c, z, t)
    requires Routed(s, sp, dims, pixelType, imgs, counters, sp.Visit(c, z, t))
    requires Stored(s, sp, dims, pixelType, imgs, counters, c, z, t, imgs', counters')
    ensures |imgs'| == |counters'|
    ensures forall c', z', t' {:trigger sp.Bucket(c', z', t')} ::
          sp.InRange(c', z', t') && sp.Visit(c', z', t') >= sp.Visit(c, z, t) + 1 ==>
          !(0 <= sp.Bucket(c', z', t') < |imgs'|) || sp.Slot(c', z', t') >= counters'[sp.Bucket(c', z', t')]
  {
    StoredShape(s, sp, dims, pixelType, imgs, counters, c, z, t, imgs', counters');
    forall c', z', t' | sp.InRange(c', z', t') && sp.Visit(c', z', t') >= sp.Visit(c, z, t) + 1
      ensures !(0 <= sp.Bucket(c', z', t') < |imgs'|) || sp.Slot(c', z', t') >= counters'[sp.Bucket(c', z', t')]
    {
      if sp.Bucket(c', z', t') == sp.Bucket(c, z, t) {
        SlotOrderIsVisitOrder(sp, c, z, t, c', z', t');
      }
    }
  }
}
