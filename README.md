# imglib2-icy: axis bookkeeping between ImgLib2 images and Icy sequences

This project models the index and axis bookkeeping of imglib2-icy, the bridge
between ImgLib2 images and Icy sequences. Pixel values are opaque: a plane has
an abstract type `P`, and a sequence is its five sizes, its data type and a
plane lookup `plane(t, z, c)`. An ImgLib2 source is its axes (min and extent
each) and its pixel type. A 2-D projector is an object with a position vector
and a list of the positions at which it was mapped. A planar image is its
pixel type, its dimension list and a map from slot number to plane.

The model has five parts, one module each (plus shared modules).

- `Arrangement`: the `DimensionArrangement` enum. It holds the eight C/Z/T
  presence layouts, their source and projector indices, `numDimensions` and
  `dropC`/`dropZ`/`dropT`. Two entries are kept exactly as written:
  - `XYC` puts its channel axis at index 0;
  - `dropT` maps `XYZT` to `XYT`, which loses Z and keeps T.
- `IcyFunctions`: the layout guess `heuristics` and `wrap(img)`.
- `PluginVirtualSequence`: the lazily mapped view of an ImgLib2 source as an
  Icy sequence.
  - There is one projector per channel, and one image object that never
    changes.
  - The cache keys `previousT`/`previousZ` start at -1.
  - A key change moves and maps every projector, in index order.
  - `getVolumetricImage(t)` updates only the T key. The volumetric image's
    `getImage(z)` updates only the Z key.
- `SplitRouting` and `SplitSequenceAdapter`: the split adapter.
  - Planes are visited t outer, z middle, c inner.
  - Each plane goes to the image that `linearIndexFromCoordinate` numbers,
    at that image's plane counter.
  - Images are created on first use, with the squeezed dims of
    `getDims`, in which split axes have extent 0.
  - The proofs show three things: a new image number always equals the
    length of the list; every plane lands in exactly one (image, slot); and
    each image's slots fill 0, 1, 2, … in visiting order.
- `Adapters`, `SequenceAdapter` and `NetSequenceAdapter`: the two
  whole-sequence adapters.
  - Both number planes consecutively: plane (t, z, c) goes to slot
    c + sizeC · (z + sizeZ · t).
  - The `plugins` adapter squeezes correctly.
  - The `net` adapter's `squeezeSingletonDims` copies from its own new,
    zero-filled array. So whenever some extent is ≤ 1 it returns zeros, one
    per extent > 1. It is modelled as written (`AsWrittenSqueeze`), with
    lemmas that say exactly when it differs from the correct squeeze.
  - With one or two extents equal to 1 and at least three above 1, as in a
    single-channel, single-frame z-stack, those zeros leave the image with
    no slice at all (`NetImageHasNoSlices`, `ZStackHasNoSlices`).
  - A sequence one pixel wide also loses its X axis in the correct squeeze.
    Its image then has fewer slices than the planes written into it
    (`NarrowSequenceHasTooFewSlices`).
- `DisplayVirtualSequence`: the older single-channel view.
  - It reads Z and T from source axes 2 and 3.
  - It moves projector coordinate 1 for T (without mapping) and coordinate 0
    for Z. Those are the X and Y axes the 2-D projector iterates over.
  - As a result the plane it shows stays at Z = T = 0, whatever is asked
    for (`WalkShowsOrigin`).
  - Its projector reads the source itself, not a zero-min view, so Z = T = 0
    are absolute source coordinates.
  - An 8-bit source is stored, and shown, as unsigned 16-bit.

Exceptions become `Failure` values of `Errors.Result`. The error kind names
the exception's cause: a rank mismatch, a non-native type, an unsupported
type, too many dimensions, an unsupported data type, or an index out of
bounds.

## Model

Source paths are relative to the repository root.

| member | source | states |
|---|---|---|
| Arrangement.DimensionArrangement.DimC | src/main/java/plugins/tinevez/imglib2icy/VirtualSequence.java:34-41 | a present channel axis has a source index below the layout's rank |
| Arrangement.DimensionArrangement.DimZ | src/main/java/plugins/tinevez/imglib2icy/VirtualSequence.java:34-41 | a present Z axis sits at source index 2 + [hasC], inside the rank |
| Arrangement.DimensionArrangement.DimT | src/main/java/plugins/tinevez/imglib2icy/VirtualSequence.java:34-41 | a present T axis sits at source index 2 + [hasC] + [hasZ], inside the rank |
| Arrangement.DimensionArrangement.TargetDimZ | src/main/java/plugins/tinevez/imglib2icy/VirtualSequence.java:34-41 | always a valid projector coordinate; for a present Z it is dimZ minus [hasC] |
| Arrangement.DimensionArrangement.TargetDimT | src/main/java/plugins/tinevez/imglib2icy/VirtualSequence.java:34-41 | always a valid projector coordinate; for a present T it is dimT minus [hasC] |
| Arrangement.DimensionArrangement.NumDimensions | src/main/java/plugins/tinevez/imglib2icy/VirtualSequence.java:71-81 | the rank is between 2 and 5; it is 2 only for XY and 5 only for XYCZT |
| Arrangement.DimensionArrangement.DropC | src/main/java/plugins/tinevez/imglib2icy/VirtualSequence.java:83-98 | clears the C flag and keeps Z and T; the identity without C; the rank drops by one exactly when C is present |
| Arrangement.DimensionArrangement.DropZ | src/main/java/plugins/tinevez/imglib2icy/VirtualSequence.java:100-115 | clears the Z flag and keeps C and T; the identity without Z; the rank drops by one exactly when Z is present |
| Arrangement.DimensionArrangement.DropT | src/main/java/plugins/tinevez/imglib2icy/VirtualSequence.java:117-132 | clears the T flag and keeps C and Z, except that XYZT becomes XYT (T kept, Z lost); the identity without T; the rank drops by one exactly when T is present |
| Arrangement.FromFlags | src/main/java/plugins/tinevez/imglib2icy/VirtualSequence.java:34-41 | the layout with the given presence flags, the reference the drops are stated against |
| Arrangement.FlagsDetermineLayout | src/main/java/plugins/tinevez/imglib2icy/VirtualSequence.java:34-41 | the eight layouts are exactly the eight flag combinations |
| Arrangement.NumDimensionsCountsAxes | src/main/java/plugins/tinevez/imglib2icy/VirtualSequence.java:71-81 | the rank is 2 plus the number of present non-spatial axes |
| Arrangement.DropIdempotence | src/main/java/plugins/tinevez/imglib2icy/VirtualSequence.java:83-132 | dropC and dropZ are idempotent; dropT is idempotent on every layout except XYZT |
| Arrangement.ChannelIndexIrregularity | src/main/java/plugins/tinevez/imglib2icy/VirtualSequence.java:35 | XYC is the only layout with a channel axis whose index is not 2; its index is 0 |
| IcyFunctions.Heuristics | src/main/java/plugins/tinevez/imglib2icy/ImgLib2IcyFunctions.java:30-83 | fails exactly above rank 5, with that rank; for ranks 2 to 5 the guessed layout has the source's rank |
| IcyFunctions.HeuristicsBelowRankTwo | src/main/java/plugins/tinevez/imglib2icy/ImgLib2IcyFunctions.java:33-36 | below rank 2 the guess is XY, which the constructor's rank check then rejects |
| IcyFunctions.HeuristicsThresholds | src/main/java/plugins/tinevez/imglib2icy/ImgLib2IcyFunctions.java:37-74 | ranks 3 and 4: a channel axis exactly when axis 2 has at most 5 planes; Z or T by the 41-plane threshold; rank 4 without C is XYZT |
| IcyFunctions.Wrap | src/main/java/plugins/tinevez/imglib2icy/ImgLib2IcyFunctions.java:23-28 | fails exactly for rank below 2, rank above 5 or an unsupported pixel type; otherwise a valid view with the guessed layout |
| PluginVirtualSequence.Configure | src/main/java/plugins/tinevez/imglib2icy/VirtualSequence.java:172-244 | succeeds exactly when the ranks agree and the type is unsigned byte, unsigned short or float; the error for each failure; the sizes, with 1 (and Z range 0..0) for absent axes; each converter paired with its data type; unsigned byte, unsigned short and float give UBYTE, USHORT and FLOAT respectively |
| PluginVirtualSequence.DistinctTargetsIffDepthOrTime | src/main/java/plugins/tinevez/imglib2icy/VirtualSequence.java:34-41 | Z and T have different projector coordinates exactly when the layout has Z or T |
| PluginVirtualSequence.NewProjectors | src/main/java/plugins/tinevez/imglib2icy/VirtualSequence.java:248-298 | sizeC distinct fresh projectors, projector c over channel c's hyperslice (or the whole source), each mapped once at the origin |
| PluginVirtualSequence.VirtualSequence.constructor | src/main/java/plugins/tinevez/imglib2icy/VirtualSequence.java:167-303 | the configured layout, keys at -1, one fresh projector per channel mapped once, the image's shape and type |
| PluginVirtualSequence.VirtualSequence.Create | src/main/java/plugins/tinevez/imglib2icy/VirtualSequence.java:172-244 | fails exactly when the constructor's checks throw, with their error; otherwise a fresh valid view with keys at -1 |
| PluginVirtualSequence.VirtualSequence.KeysAreShown | src/main/java/plugins/tinevez/imglib2icy/VirtualSequence.java:310-325 | with distinct Z/T coordinates and both keys set, every projector was last mapped at the keys |
| PluginVirtualSequence.VirtualSequence.MapAtZT | src/main/java/plugins/tinevez/imglib2icy/VirtualSequence.java:314-320 | every projector moves Z then T and maps once at its new position |
| PluginVirtualSequence.VirtualSequence.MapAtT | src/main/java/plugins/tinevez/imglib2icy/VirtualSequence.java:332-337 | every projector moves T and maps once at its new position |
| PluginVirtualSequence.VirtualSequence.MapAtZ | src/main/java/plugins/tinevez/imglib2icy/VirtualSequence.java:413-418 | every projector moves Z and maps once at its new position |
| PluginVirtualSequence.VirtualSequence.GetImage | src/main/java/plugins/tinevez/imglib2icy/VirtualSequence.java:310-325 | always the same image; both keys set; no projector changes on the same key; on a new key each moves and maps once; the image then shows (t, z) |
| PluginVirtualSequence.VirtualSequence.MoveTo | src/main/java/plugins/tinevez/imglib2icy/VirtualSequence.java:312-323 | the cache-miss branch: every projector moves and maps, both keys set, the view stays valid |
| PluginVirtualSequence.VirtualSequence.GetVolumetricImage | src/main/java/plugins/tinevez/imglib2icy/VirtualSequence.java:328-341 | always the same volumetric image; only previousT changes among the keys; projectors move T and map only on a new t |
| PluginVirtualSequence.VirtualSequence.SizeT | src/main/java/plugins/tinevez/imglib2icy/VirtualSequence.java:343-347 | the extent of the T axis, 1 without one |
| PluginVirtualSequence.VirtualSequence.SizeZ | src/main/java/plugins/tinevez/imglib2icy/VirtualSequence.java:349-359 | the extent of the Z axis, 1 without one |
| PluginVirtualSequence.VirtualSequence.SizeXY | src/main/java/plugins/tinevez/imglib2icy/VirtualSequence.java:361-371 | the extents of source axes 0 and 1 |
| PluginVirtualSequence.VirtualVolumetricImage.GetImage | src/main/java/plugins/tinevez/imglib2icy/VirtualSequence.java:409-422 | always the sequence's image; only previousZ changes among the keys; projectors move Z and map only on a new z |
| PluginVirtualSequence.VirtualVolumetricImage.GetFirstImage | src/main/java/plugins/tinevez/imglib2icy/VirtualSequence.java:424-428 | getImage(minZ): the Z key becomes the source's Z minimum |
| PluginVirtualSequence.VirtualVolumetricImage.GetLastImage | src/main/java/plugins/tinevez/imglib2icy/VirtualSequence.java:430-434 | getImage(maxZ): the Z key becomes the source's Z maximum |
| PluginVirtualSequence.VirtualVolumetricImage.NumImage | src/main/java/plugins/tinevez/imglib2icy/VirtualSequence.java:436-440 | the number of Z planes: the Z extent, or 1 without Z |
| PluginVirtualSequence.VirtualVolumetricImage.Size | src/main/java/plugins/tinevez/imglib2icy/VirtualSequence.java:442-446 | the same count as getNumImage |
| PluginVirtualSequence.VirtualVolumetricImage.IsEmpty | src/main/java/plugins/tinevez/imglib2icy/VirtualSequence.java:460-464 | true exactly when there are no Z planes, which only a Z axis of extent 0 gives |
| PluginVirtualSequence.FirstGetImageMaps | src/main/java/plugins/tinevez/imglib2icy/VirtualSequence.java:147-149 | since the keys start at -1, the first getImage maps every projector |
| PluginVirtualSequence.RepeatedGetImageIsCached | src/main/java/plugins/tinevez/imglib2icy/VirtualSequence.java:310-325 | two getImage calls with the same (t, z) return the same image and map at most once |
| SplitSequenceAdapter.LinearIndexFromCoordinate | src/main/java/plugins/tinevez/imglib2icy/ImgLib2IcySplitSequenceAdapter.java:97-171 | 0 when nothing is split |
| SplitSequenceAdapter.LinearIndexIsBucket | src/main/java/plugins/tinevez/imglib2icy/ImgLib2IcySplitSequenceAdapter.java:97-171 | the eight-way table computes the mixed-radix number of the split coordinates, c fastest |
| SplitSequenceAdapter.LinearIndexIgnoresKeptAxes | src/main/java/plugins/tinevez/imglib2icy/ImgLib2IcySplitSequenceAdapter.java:97-171 | the index depends only on the coordinates of split axes |
| SplitSequenceAdapter.GetDimensionArrangement | src/main/java/plugins/tinevez/imglib2icy/ImgLib2IcySplitSequenceAdapter.java:32-48 | C is kept exactly when present and not split; the rank drops by one per split axis present; the result is the layout of the remaining flags, except XYZT meeting dropT |
| SplitSequenceAdapter.GetSqueezedDims | src/main/java/plugins/tinevez/imglib2icy/ImgLib2IcySplitSequenceAdapter.java:91-95 | every remaining extent is > 1 |
| SplitSequenceAdapter.SqueezedDimsDropSplitAxes | src/main/java/plugins/tinevez/imglib2icy/ImgLib2IcySplitSequenceAdapter.java:50-95 | the squeezed dims are X, Y and the extents of the unsplit axes, squeezed: a split axis never appears |
| SplitSequenceAdapter.SqueezedDimsHoldEveryBucket | src/main/java/plugins/tinevez/imglib2icy/ImgLib2IcySplitSequenceAdapter.java:240 | with X and Y wider than 1 and no empty axis, each image has exactly as many slices as planes routed to it |
| SplitSequenceAdapter.StorePlane | src/main/java/plugins/tinevez/imglib2icy/ImgLib2IcySplitSequenceAdapter.java:232-255 | the plane goes to its image at that image's counter, which advances; an index one past the list first appends an empty image with counter 0 |
| SplitSequenceAdapter.RoutePlane | src/main/java/plugins/tinevez/imglib2icy/ImgLib2IcySplitSequenceAdapter.java:232-255 | storing the next visited plane keeps the routing invariant, one plane further on |
| SplitSequenceAdapter.RouteRow | src/main/java/plugins/tinevez/imglib2icy/ImgLib2IcySplitSequenceAdapter.java:230-256 | the c loop keeps the routing invariant across one (z, t) |
| SplitSequenceAdapter.RouteSlab | src/main/java/plugins/tinevez/imglib2icy/ImgLib2IcySplitSequenceAdapter.java:228-257 | the z loop keeps the routing invariant across one t |
| SplitSequenceAdapter.RouteAll | src/main/java/plugins/tinevez/imglib2icy/ImgLib2IcySplitSequenceAdapter.java:219-258 | from no images, the t loop routes every plane |
| SplitSequenceAdapter.Route | src/main/java/plugins/tinevez/imglib2icy/ImgLib2IcySplitSequenceAdapter.java:217-260 | the result is a complete routing: one image per image number, each of the squeezed dims with slots 0 .. planes-per-image - 1, plane (c, z, t) at its slot |
| SplitSequenceAdapter.RoutingComplete | src/main/java/plugins/tinevez/imglib2icy/ImgLib2IcySplitSequenceAdapter.java:226-258 | once every plane is visited, the list has product-of-split-sizes images, each counter at product-of-unsplit-sizes |
| SplitSequenceAdapter.EverySlotHoldsOnePlane | src/main/java/plugins/tinevez/imglib2icy/ImgLib2IcySplitSequenceAdapter.java:226-258 | every filled slot holds the plane of exactly one (c, z, t) |
| SplitSequenceAdapter.Wrap | src/main/java/plugins/tinevez/imglib2icy/ImgLib2IcySplitSequenceAdapter.java:189-214 | fails exactly for LONG, ULONG and unknown types, before any image exists; otherwise a complete routing with the matching pixel type |
| SplitSequenceAdapter.SplitChannelsExample | src/main/java/plugins/tinevez/imglib2icy/ImgLib2IcySplitSequenceAdapter.java:226-258 | two channels, three slices, split on C: two images, image c holding z = 0, 1, 2 in order |
| SplitSequenceAdapter.NoSplitExample | src/main/java/plugins/tinevez/imglib2icy/ImgLib2IcySplitSequenceAdapter.java:226-258 | nothing split: one image holding the planes in visiting order |
| SplitRouting.RouteBounds | src/main/java/plugins/tinevez/imglib2icy/ImgLib2IcySplitSequenceAdapter.java:226-258 | visit rank, image number and slot of an in-range plane are within their ranges |
| SplitRouting.RouteOrders | src/main/java/plugins/tinevez/imglib2icy/ImgLib2IcySplitSequenceAdapter.java:226-258 | visit rank, image number and slot each order planes lexicographically by their digits, and are equal exactly when those digits are |
| SplitRouting.RouteInjective | src/main/java/plugins/tinevez/imglib2icy/ImgLib2IcySplitSequenceAdapter.java:226-258 | no two planes share an (image, slot) pair |
| SplitRouting.RouteOnto | src/main/java/plugins/tinevez/imglib2icy/ImgLib2IcySplitSequenceAdapter.java:226-258 | every (image, slot) pair in range is taken by some plane |
| SplitRouting.SlotOrderIsVisitOrder | src/main/java/plugins/tinevez/imglib2icy/ImgLib2IcySplitSequenceAdapter.java:252-255 | inside one image, slots are taken in visiting order |
| SplitRouting.LowerBucketsOpenFirst | src/main/java/plugins/tinevez/imglib2icy/ImgLib2IcySplitSequenceAdapter.java:238-245 | slot 0 of a lower-numbered image is visited earlier |
| SplitRouting.RoutingStarts | src/main/java/plugins/tinevez/imglib2icy/ImgLib2IcySplitSequenceAdapter.java:219-220 | the empty lists are a routing state before the first plane |
| SplitRouting.NextPlane | src/main/java/plugins/tinevez/imglib2icy/ImgLib2IcySplitSequenceAdapter.java:238-250 | an index at or past the list is exactly its length, with slot 0; otherwise the slot is the image's counter |
| SplitRouting.Delivered | src/main/java/plugins/tinevez/imglib2icy/ImgLib2IcySplitSequenceAdapter.java:252-255 | storing the next plane and advancing its counter keeps the routing invariant |
| SplitRouting.StoredShape | src/main/java/plugins/tinevez/imglib2icy/ImgLib2IcySplitSequenceAdapter.java:252-255 | a step keeps the lists equally long, the images' shape, and each image's slots exactly those below its counter; other images are untouched |
| SplitRouting.StoredVisited | src/main/java/plugins/tinevez/imglib2icy/ImgLib2IcySplitSequenceAdapter.java:252-255 | after a step every plane visited so far sits at its slot |
| SplitRouting.StoredUnvisited | src/main/java/plugins/tinevez/imglib2icy/ImgLib2IcySplitSequenceAdapter.java:252-255 | after a step no plane still to visit owns a filled slot |
| Adapters.Squeezed | src/main/java/plugins/tinevez/imglib2icy/ImgLib2IcySequenceAdapter.java:50-63 | no longer than the input, every entry > 1 |
| Adapters.SqueezeSingletonDims | src/main/java/plugins/tinevez/imglib2icy/ImgLib2IcySplitSequenceAdapter.java:173-186 | the buffer-and-truncate loop returns the entries > 1 in their order |
| Adapters.SqueezedMembers | src/main/java/plugins/tinevez/imglib2icy/ImgLib2IcySequenceAdapter.java:50-63 | a value survives exactly when it is in the input and > 1 |
| Adapters.SqueezedLength | src/main/java/plugins/tinevez/imglib2icy/ImgLib2IcySequenceAdapter.java:50-63 | the result's length is the input's minus the number of entries <= 1 |
| Adapters.SqueezedIdentity | src/main/java/plugins/tinevez/imglib2icy/ImgLib2IcySequenceAdapter.java:50-63 | the squeeze changes nothing exactly when every entry is > 1 |
| Adapters.SqueezedIdempotent | src/main/java/plugins/tinevez/imglib2icy/ImgLib2IcySequenceAdapter.java:50-63 | squeezing twice is squeezing once |
| Adapters.SqueezedAppend | src/main/java/plugins/tinevez/imglib2icy/ImgLib2IcySequenceAdapter.java:50-63 | the squeeze distributes over concatenation, so order is kept |
| Adapters.NumSlicesOfSqueezed | src/main/java/plugins/tinevez/imglib2icy/ImgLib2IcySequenceAdapter.java:43-47 | with X and Y > 1 they stay in front, and the slice count is the product of the other extents, each counted as at least 1 |
| Adapters.FlattenedLength | src/main/java/plugins/tinevez/imglib2icy/ImgLib2IcySequenceAdapter.java:122-130 | images of sizeC planes each give (number of images) · sizeC planes |
| Adapters.FlattenedAt | src/main/java/plugins/tinevez/imglib2icy/ImgLib2IcySequenceAdapter.java:122-130 | channel c of image i is plane number i · sizeC + c |
| Adapters.SequencePlanesCount | src/main/java/net/imglib2/img/IcySequenceAdapter.java:119-131 | a sequence has sizeC · sizeZ · sizeT planes |
| Adapters.SequencePlanesAt | src/main/java/net/imglib2/img/IcySequenceAdapter.java:119-131 | plane (t, z, c) is number c + sizeC · (z + sizeZ · t) |
| Adapters.HoldsUnique | src/main/java/plugins/tinevez/imglib2icy/ImgLib2IcySequenceAdapter.java:118-132 | two images holding the same plane list have the same slots, so both adapters fill the same slots |
| Adapters.PlanarTypeFor | src/main/java/plugins/tinevez/imglib2icy/ImgLib2IcySequenceAdapter.java:90-116 | fails exactly for LONG, ULONG and unknown types; otherwise the pixel type of the same data type |
| Icy.AllImagesAt | src/main/java/plugins/tinevez/imglib2icy/ImgLib2IcySequenceAdapter.java:122-126 | image t · sizeZ + z of getAllImage holds plane (t, z, c) as channel c |
| SequenceAdapter.GetDims | src/main/java/plugins/tinevez/imglib2icy/ImgLib2IcySequenceAdapter.java:30-41 | five extents, X, Y, C, Z, T |
| SequenceAdapter.SqueezedDimsHoldEveryPlane | src/main/java/plugins/tinevez/imglib2icy/ImgLib2IcySequenceAdapter.java:43-47 | with X and Y > 1 and no empty axis, the image has one slice per plane of the sequence |
| SequenceAdapter.NarrowSequenceHasTooFewSlices | src/main/java/plugins/tinevez/imglib2icy/ImgLib2IcySequenceAdapter.java:43-47 | a one-pixel-wide sequence loses X in the squeeze and gets fewer slices than planes |
| SequenceAdapter.WrapPlanes | src/main/java/plugins/tinevez/imglib2icy/ImgLib2IcySequenceAdapter.java:118-132 | the image has the squeezed dims, and slot k holds plane k of getAllImage, channel after channel, for exactly k below the plane count |
| SequenceAdapter.Wrap | src/main/java/plugins/tinevez/imglib2icy/ImgLib2IcySequenceAdapter.java:90-116 | fails exactly for LONG, ULONG and unknown types; otherwise the matching pixel type, squeezed dims and every plane in order |
| SequenceAdapter.WrappedPlaneAt | src/main/java/plugins/tinevez/imglib2icy/ImgLib2IcySequenceAdapter.java:118-132 | plane (t, z, c) sits at slot c + sizeC · (z + sizeZ · t), and the slots are exactly 0 .. sizeC · sizeZ · sizeT - 1 |
| NetSequenceAdapter.AsWrittenSqueeze | src/main/java/net/imglib2/img/IcySequenceAdapter.java:40-62 | as long as the correct squeeze |
| NetSequenceAdapter.NoSingletons | src/main/java/net/imglib2/img/IcySequenceAdapter.java:42-50 | no entry is counted exactly when every entry is > 1 |
| NetSequenceAdapter.AsWrittenSqueezeAgrees | src/main/java/net/imglib2/img/IcySequenceAdapter.java:40-62 | the squeeze as written equals the correct one exactly when nothing or everything is squeezed |
| NetSequenceAdapter.SqueezeSingletonDims | src/main/java/net/imglib2/img/IcySequenceAdapter.java:40-62 | the same array when nothing is <= 1; otherwise a fresh array of the shorter length, all zeros |
| NetSequenceAdapter.CopyIfWide | src/main/java/net/imglib2/img/IcySequenceAdapter.java:56-59 | an entry > 1 is written at the index, which advances; otherwise nothing changes |
| NetSequenceAdapter.GetSqueezedDims | src/main/java/net/imglib2/img/IcySequenceAdapter.java:23-37 | the squeeze as written of [X, Y, C, Z, T] |
| NetSequenceAdapter.NetDims | src/main/java/net/imglib2/img/IcySequenceAdapter.java:23-62 | with every size >= 1: all sizes > 1 give [X, Y, C, Z, T]; any size 1 gives only zeros |
| NetSequenceAdapter.NetImageHasNoSlices | src/main/java/net/imglib2/img/IcySequenceAdapter.java:23-62 | with every size >= 1 and one or two of them equal to 1, the as-written dims give 0 slices while the sequence has at least one plane |
| NetSequenceAdapter.ZStackHasNoSlices | src/main/java/net/imglib2/img/IcySequenceAdapter.java:23-62 | a single-channel, single-frame z-stack of at least 2 x 2 x 2 gets 0 slices for at least one plane |
| NetSequenceAdapter.WrapPlanes | src/main/java/net/imglib2/img/IcySequenceAdapter.java:116-133 | the image has the as-written dims, and slot c + sizeC · (z + sizeZ · t) holds plane (t, z, c), for exactly the slots below the plane count |
| NetSequenceAdapter.WrapFrame | src/main/java/net/imglib2/img/IcySequenceAdapter.java:122-130 | the z and c loops of one t fill the next sizeZ · sizeC slots in order |
| NetSequenceAdapter.Wrap | src/main/java/net/imglib2/img/IcySequenceAdapter.java:89-114 | fails exactly for LONG, ULONG and unknown types; otherwise the matching pixel type, the as-written dims and every plane in order, written to the slot map whether or not the image has that many slices |
| DisplayVirtualSequence.Configure | src/main/java/net/imglib2/img/display/icy/VirtualSequence.java:60-94 | succeeds exactly for rank >= 4 and FLOAT, UBYTE or USHORT; sizes and ranges of axes 0 to 3; float storage only for FLOAT, otherwise unsigned short; each converter paired with its data type |
| DisplayVirtualSequence.ByteSourceShownAsShort | src/main/java/net/imglib2/img/display/icy/VirtualSequence.java:83-103 | UBYTE and USHORT sources are stored as USHORT, FLOAT as FLOAT |
| DisplayVirtualSequence.VirtualSequence.Shown | src/main/java/net/imglib2/img/display/icy/VirtualSequence.java:215-224 | in a valid view the last mapped plane is at Z = T = 0 |
| DisplayVirtualSequence.VirtualSequence.constructor | src/main/java/net/imglib2/img/display/icy/VirtualSequence.java:53-129 | the configured layout, keys at -1, one fresh projector mapped once at the origin, a one-channel image of the storage type |
| DisplayVirtualSequence.VirtualSequence.Create | src/main/java/net/imglib2/img/display/icy/VirtualSequence.java:53-94 | fails exactly when the constructor throws, with its error; otherwise a fresh valid view with keys at -1 |
| DisplayVirtualSequence.VirtualSequence.GetVolumetricImage | src/main/java/net/imglib2/img/display/icy/VirtualSequence.java:150-159 | always the same volumetric image; only previousT changes; a new t moves coordinate 1 and maps nothing |
| DisplayVirtualSequence.VirtualSequence.SizeT | src/main/java/net/imglib2/img/display/icy/VirtualSequence.java:161-165 | the extent of source axis 3 |
| DisplayVirtualSequence.VirtualSequence.SizeZ | src/main/java/net/imglib2/img/display/icy/VirtualSequence.java:167-177 | the extent of source axis 2 |
| DisplayVirtualSequence.VirtualVolumetricImage.GetImage | src/main/java/net/imglib2/img/display/icy/VirtualSequence.java:215-224 | always the same image; only previousZ changes; a new z moves coordinate 0 and maps once; the shown plane stays at Z = T = 0 |
| DisplayVirtualSequence.VirtualVolumetricImage.GetFirstImage | src/main/java/net/imglib2/img/display/icy/VirtualSequence.java:226-230 | getImage(minZ): the Z key becomes the minimum of axis 2; the projector moves coordinate 0 to minZ and maps once exactly when the Z key was not already minZ, and is untouched otherwise |
| DisplayVirtualSequence.VirtualVolumetricImage.GetLastImage | src/main/java/net/imglib2/img/display/icy/VirtualSequence.java:232-236 | getImage(maxZ): the Z key becomes the maximum of axis 2; the projector moves coordinate 0 to maxZ and maps once exactly when the Z key was not already maxZ, and is untouched otherwise |
| DisplayVirtualSequence.VirtualVolumetricImage.NumImage | src/main/java/net/imglib2/img/display/icy/VirtualSequence.java:238-242 | the extent of source axis 2 |
| DisplayVirtualSequence.VirtualVolumetricImage.Size | src/main/java/net/imglib2/img/display/icy/VirtualSequence.java:244-248 | the same count as getNumImage |
| DisplayVirtualSequence.VirtualVolumetricImage.IsEmpty | src/main/java/net/imglib2/img/display/icy/VirtualSequence.java:262-266 | true exactly when axis 2 has extent 0 |
| DisplayVirtualSequence.WalkShowsOrigin | src/main/java/net/imglib2/img/display/icy/VirtualSequence.java:150-224 | whatever getVolumetricImage(t) then getImage(z) asks for, both keys are set and the shown plane is at Z = T = 0 |

## Left out

- Pixel values and pixel conversion are not modelled. This covers the converters, `ArrayImgs`/`PlanarImgs` storage, `Views.hyperSlice`/`zeroMin` and what `map()` writes. A plane is opaque, and a projector's map is recorded as a snapshot of its position.
- `IterableIntervalProjector2D`, `Sequence` and `IcyBufferedImage` are library code. They appear only through the abstractions above. In `PluginVirtualSequence`, projector positions are relative to the zero-min view the projectors read. In `DisplayVirtualSequence` they are absolute source coordinates, because its projector reads the source itself.
- In `PluginVirtualSequence`, `getFirstImage`/`getLastImage` pass the source's Z minimum/maximum as the key, while the projectors read the zero-min view. For a source whose Z does not start at 0, the first image is therefore not the first plane. The model keeps this as written.
- `PlanarImg.setPlane` is a map update. A slot beyond the image's slice count is accepted rather than raising an exception. `NarrowSequenceHasTooFewSlices` and `NetImageHasNoSlices` show when the squeeze makes that happen.
- NetSequenceAdapter.Wrap: where the source's first `setPlane` throws because the as-written dims leave the image with 0 slices (`NetImageHasNoSlices`; a single-channel, single-frame z-stack is one case, `ZStackHasNoSlices`), the model still succeeds and stores every plane in the slot map. The contract does not promise that failure.
- The `(int)` casts of `long` extents, and `int` overflow of plane counters and image numbers, are not modelled: sizes are unbounded naturals.
- The eight `wrap*` copies per adapter are modelled once, generic over the plane type. The `wrap` switch is modelled by `PlanarTypeFor`.
- The loops of `wrap*` and of the view's projector walks are split into helper methods (`RouteAll`/`RouteSlab`/`RouteRow`, `WrapFrame`, `MapAtZT`/`MapAtT`/`MapAtZ`). Only the loop structure differs from a single method.
- `ImgLib2IcyFunctions.getDimensionArrangement(Sequence)` is not part of this model, so `SplitSequenceAdapter.GetDimensionArrangement` takes the base layout as a parameter.
- `ImgLib2IcyFunctions.wrap(img, arrangement)` is the view constructor (`PluginVirtualSequence.VirtualSequence.Create`).
- `ImgLib2IcyFunctions.wrap(Sequence)` and the `wrapByte` to `wrapUnsignedShort` forwards (ImgLib2IcyFunctions.java:90-139) are one-line calls into the sequence adapter; they are covered by `SequenceAdapter.Wrap`. `wrap(IcyBufferedImage)` also builds a one-image sequence, which is Icy code.
- `getCalibration` in both sequence adapters copies four floating-point metadata values. It is not modelled.
- These overrides only throw `UnsupportedOperationException` and are not modelled: `getAllImage`, `getAllVolumetricImage`, `getImages`, `clear`, `setImage` and `removeImage`. Neither are `getRef`, `onImageAdded`, the view's name, or the legacy image's colour model.
- `ImgLib2SequenceSplitter` (dialog glue) and `ImgLib2Test` (a message dialog) are user-interface code.
- The code is single-threaded; no concurrency is modelled.
- PluginVirtualSequence.VirtualSequence.GetImage: the image shows (t, z) only when Z and T have their own projector coordinates and neither key is -1. For XY and XYC both are written to coordinate 0, which the contract does not describe beyond the position update.
- DisplayVirtualSequence.Configure: a source of rank below 4 fails with an index error, standing for the exception the ImgLib2 accessor raises; which exception that is belongs to ImgLib2.
