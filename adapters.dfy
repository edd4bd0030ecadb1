/**
 * What the sequence adapters share: removing singleton dimensions
 * (squeezeSingletonDims, written identically in the whole-sequence and the
 * split adapter) and the switch from an Icy data type to the ImgLib2 pixel
 * type of the planar image built for it.
 */
module Adapters {
  import opened Errors
  import opened ImgLib2
  import opened Icy
  import opened MixedRadix

  /** The entries of `dims` greater than 1, in their original order. */
  function Squeezed(dims: seq<int>): (r: seq<int>)
    ensures |r| <= |dims|
    ensures forall i :: 0 <= i < |r| ==> r[i] > 1
  {
    if dims == [] then []
    else
      var last := dims[|dims| - 1];
      Squeezed(dims[..|dims| - 1]) + (if last > 1 then [last] else [])
  }

  /** The number of entries <= 1. */
  function Singletons(dims: seq<int>): nat
  {
    if dims == [] then 0
    else Singletons(dims[..|dims| - 1]) + (if dims[|dims| - 1] <= 1 then 1 else 0)
  }

  /**
   * squeezeSingletonDims: copies the entries > 1 into a buffer as long as
   * the input, then truncates the buffer to the number copied.
   */
  method SqueezeSingletonDims(originalDims: seq<int>) returns (dims: seq<int>)
    ensures dims == Squeezed(originalDims)
  {
    var buffer := new int[|originalDims|](_ => 0);
    var index := 0;
    for i := 0 to |originalDims|
      invariant index <= i
      invariant buffer[..index] == Squeezed(originalDims[..i])
    {
      var l := originalDims[i];
      assert originalDims[..i + 1][..i] == originalDims[..i];
      if l <= 1 {
        continue;
      }
      buffer[index] := l;
      index := index + 1;
    }
    assert originalDims[..|originalDims|] == originalDims;
    dims := buffer[..index];
  }

  /** Squeezing distributes over concatenation. */
  lemma {:induction false} SqueezedAppend(a: seq<int>, b: seq<int>)
    ensures Squeezed(a + b) == Squeezed(a) + Squeezed(b)
    decreases |b|
  {
    if b != [] {
      var b' := b[..|b| - 1];
      assert (a + b)[..|a + b| - 1] == a + b';
      SqueezedAppend(a, b');
    } else {
      assert a + b == a;
    }
  }

  /** Three entries squeeze one by one. */
  lemma SqueezedTriple(a: int, b: int, c: int)
    ensures Squeezed([a, b, c]) == Squeezed([a]) + Squeezed([b]) + Squeezed([c])
  {
    assert [a, b, c][..2] == [a, b] && [a, b][..1] == [a] && [a][..0] == [];
    assert Squeezed([b]) == Squeezed([]) + (if b > 1 then [b] else []);
    assert Squeezed([c]) == Squeezed([]) + (if c > 1 then [c] else []);
  }

  /** Exactly the entries > 1 survive. */
  lemma {:induction false} SqueezedMembers(dims: seq<int>, x: int)
    ensures x in Squeezed(dims) <==> x in dims && x > 1
    decreases |dims|
  {
    if dims != [] {
      var init := dims[..|dims| - 1];
      SqueezedMembers(init, x);
      assert dims == init + [dims[|dims| - 1]];
    }
  }

  /** The result is as long as the input minus its singleton entries. */
  lemma {:induction false} SqueezedLength(dims: seq<int>)
    ensures |Squeezed(dims)| == |dims| - Singletons(dims)
    decreases |dims|
  {
    if dims != [] {
      SqueezedLength(dims[..|dims| - 1]);
    }
  }

  /** Squeezing changes nothing exactly when no entry is <= 1. */
  lemma {:induction false} SqueezedIdentity(dims: seq<int>)
    ensures Squeezed(dims) == dims <==> forall i :: 0 <= i < |dims| ==> dims[i] > 1
    decreases |dims|
  {
    if dims != [] {
      var init := dims[..|dims| - 1];
      SqueezedIdentity(init);
      if forall i :: 0 <= i < |dims| ==> dims[i] > 1 {
        assert forall i :: 0 <= i < |init| ==> init[i] > 1;
        assert dims == init + [dims[|dims| - 1]];
      }
    }
  }

  /** Squeezing twice is squeezing once. */
  lemma SqueezedIdempotent(dims: seq<int>)
    ensures Squeezed(Squeezed(dims)) == Squeezed(dims)
  {
    SqueezedIdentity(Squeezed(dims));
  }

  /** An extent as it counts in a plane count: singleton and empty extents count as 1. */
  function AtLeastOne(x: int): int
  {
    if x > 1 then x else 1
  }

  /** The product of what squeezing three extents leaves. */
  lemma SqueezedProduct3(a: int, b: int, c: int)
    ensures Product(Squeezed([a, b, c])) == AtLeastOne(a) * AtLeastOne(b) * AtLeastOne(c)
  {
    assert [a, b, c][..2] == [a, b] && [a, b][..1] == [a] && [a][..0] == [];
    var sa := if a > 1 then [a] else [];
    var sb := if b > 1 then [b] else [];
    var sc := if c > 1 then [c] else [];
    assert Squeezed([a]) == sa by { assert Squeezed([a]) == Squeezed([]) + sa; }
    assert Squeezed([a, b]) == sa + sb;
    assert Squeezed([a, b, c]) == sa + sb + sc;
    ProductAppend(sa + sb, sc);
    ProductAppend(sa, sb);
  }

  lemma {:induction false} ProductAppend(a: seq<int>, b: seq<int>)
    ensures Product(a + b) == Product(a) * Product(b)
    decreases |a|
  {
    if a != [] {
      assert (a + b)[1..] == a[1..] + b;
      ProductAppend(a[1..], b);
    } else {
      assert a + b == b;
    }
  }

  /**
   * Squeezing [X, Y, a, b, c] with X and Y > 1 keeps X and Y in front; the
   * planar image then holds one slice per combination of the non-singleton
   * extents among a, b, c.
   */
  lemma NumSlicesOfSqueezed(x: int, y: int, a: int, b: int, c: int)
    requires x > 1 && y > 1
    ensures Squeezed([x, y, a, b, c]) == [x, y] + Squeezed([a, b, c])
    ensures NumSlices(Squeezed([x, y, a, b, c])) == AtLeastOne(a) * AtLeastOne(b) * AtLeastOne(c)
  {
    assert [x, y, a, b, c] == [x, y] + [a, b, c];
    SqueezedAppend([x, y], [a, b, c]);
    assert [x, y][..1] == [x] && [x][..0] == [];
    assert Squeezed([x, y]) == [x, y];
    var r := Squeezed([x, y, a, b, c]);
    assert r == [x, y] + Squeezed([a, b, c]);
    assert r[2..] == Squeezed([a, b, c]);
    SqueezedProduct3(a, b, c);
  }

  /** The planes of a list of images, image after image and, within an image, channel after channel. */
  function Flattened<P>(images: seq<seq<P>>): seq<P>
    decreases |images|
  {
    if images == [] then [] else Flattened(images[..|images| - 1]) + images[|images| - 1]
  }

  /** Images of `width` planes each flatten to |images| * width planes. */
  lemma {:induction false} FlattenedLength<P>(images: seq<seq<P>>, width: nat)
    requires forall i :: 0 <= i < |images| ==> |images[i]| == width
    ensures |Flattened(images)| == |images| * width
    decreases |images|
  {
    if images != [] {
      FlattenedLength(images[..|images| - 1], width);
    }
  }

  /** Plane c of image j is plane number c + width * j of the flattened list. */
  lemma {:induction false} FlattenedAt<P>(images: seq<seq<P>>, width: nat, j: nat, c: nat)
    requires forall i :: 0 <= i < |images| ==> |images[i]| == width
    requires j < |images| && c < width
    ensures c + width * j < |Flattened(images)|
    ensures Flattened(images)[c + width * j] == images[j][c]
    decreases |images|
  {
    var init, last := images[..|images| - 1], images[|images| - 1];
    var prefix := Flattened(init);
    assert Flattened(images) == prefix + last;
    if j < |init| {
      FlattenedAt(init, width, j, c);
    } else {
      FlattenedLength(init, width);
      assert |prefix| == width * j;
      assert (prefix + last)[|prefix| + c] == last[c];
    }
  }

  /**
   * The planes of a sequence in the order both adapters write them: t
   * outer, then z, then c.  Plane (t, z, c) is number c + sizeC * (z +
   * sizeZ * t), and there are sizeT * sizeZ * sizeC of them.
   */
  ghost function SequencePlanes<P>(s: Sequence<P>): seq<P>
  {
    Flattened(AllImages(s))
  }

  lemma SequencePlanesCount<P>(s: Sequence<P>)
    ensures |SequencePlanes(s)| == s.sizeC * s.sizeZ * s.sizeT
  {
    FlattenedLength(AllImages(s), s.sizeC);
    assert (s.sizeT * s.sizeZ) * s.sizeC == s.sizeC * s.sizeZ * s.sizeT;
  }

  lemma SequencePlanesAt<P>(s: Sequence<P>, t: nat, z: nat, c: nat)
    requires t < s.sizeT && z < s.sizeZ && c < s.sizeC
    ensures 0 <= Encode(c, z, t, s.sizeC, s.sizeZ) < |SequencePlanes(s)|
    ensures SequencePlanes(s)[Encode(c, z, t, s.sizeC, s.sizeZ)] == s.plane(t, z, c)
  {
    AllImagesAt(s, t, z, c);
    FlattenedAt(AllImages(s), s.sizeC, t * s.sizeZ + z, c);
    assert Encode(c, z, t, s.sizeC, s.sizeZ) == c + s.sizeC * (t * s.sizeZ + z);
  }

  /** The slots of a planar image are numbered 0 .. |planes| - 1 and slot k holds planes[k]. */
  ghost predicate Holds<P>(slots: map<int, P>, planes: seq<P>)
  {
    && (forall k :: k in slots <==> 0 <= k < |planes|)
    && (forall k :: 0 <= k < |planes| ==> slots[k] == planes[k])
  }

  /** Holding a list of planes determines the slots. */
  lemma HoldsUnique<P>(a: map<int, P>, b: map<int, P>, planes: seq<P>)
    requires Holds(a, planes) && Holds(b, planes)
    ensures a == b
  {
    forall k
      ensures k in a <==> k in b
    {
      assert k in a <==> 0 <= k < |planes|;
    }
    assert a.Keys == b.Keys;
    assert forall k :: k in a ==> a[k] == b[k];
  }

  /**
   * The `wrap` switch: the pixel type of the planar image built for each
   * supported data type.  LONG, ULONG and anything else raise an exception.
   */
  function PlanarTypeFor(dataType: DataType): (r: Result<PixelType>)
    ensures r.Failure? <==> dataType in {LONG, ULONG, UNDEFINED}
    ensures r.Failure? ==> r.error == UnsupportedDataType
    ensures r.Success? ==> DataTypeOf(r.value) == dataType
  {
    match dataType
    case BYTE => Success(ByteType)
    case INT => Success(IntType)
    case SHORT => Success(ShortType)
    case UBYTE => Success(UnsignedByteType)
    case UINT => Success(UnsignedIntType)
    case USHORT => Success(UnsignedShortType)
    case DOUBLE => Success(DoubleType)
    case FLOAT => Success(FloatType)
    case _ => Failure(UnsupportedDataType)
  }

  /** The Icy data type that corresponds to an ImgLib2 pixel type (the reverse mapping). */
  function DataTypeOf(pixelType: PixelType): DataType
  {
    match pixelType
    case ByteType => BYTE
    case UnsignedByteType => UBYTE
    case ShortType => SHORT
    case UnsignedShortType => USHORT
    case IntType => INT
    case UnsignedIntType => UINT
    case LongType => LONG
    case UnsignedLongType => ULONG
    case FloatType => FLOAT
    case DoubleType => DOUBLE
    case NonNativeType => UNDEFINED
  }
}
