/** Upload of a rectangle of pixel data into a texture through a staging
    buffer: the size of the staging span, the packing of each plane's rows
    into it, and the buffer-to-image copy regions. Sizes are unbounded
    integers here; see README for the 32-bit arithmetic of the source. */
module TextureUpload {
  import opened Common
  import opened Vk
  import opened PixelFormat
  import opened TextureState
  import opened Arith

  type byte = bv8

  /** The rectangle arguments of `write_pixels`: source row stride in bytes,
      size, source position and destination position, all in pixels. */
  datatype Rect = Rect(stride: nat, width: nat, height: nat, srcX: nat, srcY: nat, dstX: nat, dstY: nat)

  /** A suballocated range of a staging buffer. */
  datatype Allocation = Allocation(start: nat, size: nat)

  /** A span handed out by the staging allocator; `buffer` is empty when the
      allocator could not provide one. */
  datatype BufferSpan = BufferSpan(buffer: Option<nat>, alloc: Allocation)

  /** Every subsampling factor is non-zero, so the divisions are defined. */
  predicate Subsampled(planes: seq<FormatPlane>) {
    forall i :: 0 <= i < |planes| ==> planes[i].hsub > 0 && planes[i].vsub > 0
  }

  /** Source and destination rectangles lie inside the texture. */
  predicate InsideTexture(u: Rect, width: nat, height: nat) {
    && u.srcX + u.width <= width && u.srcY + u.height <= height
    && u.dstX + u.width <= width && u.dstY + u.height <= height
  }

  /** The alignment checks as written: the height is checked against the
      horizontal subsampling factor. */
  predicate AlignedAsWritten(planes: seq<FormatPlane>, u: Rect)
    requires Subsampled(planes)
  {
    forall i :: 0 <= i < |planes| ==>
      && u.dstX % planes[i].hsub == 0 && u.dstY % planes[i].vsub == 0
      && u.width % planes[i].hsub == 0 && u.height % planes[i].hsub == 0
  }

  /** The alignment evidently intended: horizontal quantities are multiples
      of `hsub`, vertical ones of `vsub`. */
  predicate Aligned(planes: seq<FormatPlane>, u: Rect)
    requires Subsampled(planes)
  {
    forall i :: 0 <= i < |planes| ==>
      && u.dstX % planes[i].hsub == 0 && u.dstY % planes[i].vsub == 0
      && u.width % planes[i].hsub == 0 && u.height % planes[i].vsub == 0
  }

  /** The YUYV entry of the table. */
  const YuyvPlanes: seq<FormatPlane> := [FormatPlane(32, 2, 1)]

  /** A 2x1 upload into a YUYV texture is aligned in both directions (one
      macropixel, one row) but fails the checks as written. */
  lemma HeightCheckCounterexample()
    ensures Formats[4].drmFormat == DRM_FORMAT_YUYV && Formats[4].planes == YuyvPlanes
    ensures Subsampled(YuyvPlanes)
    ensures Aligned(YuyvPlanes, Rect(4, 2, 1, 0, 0, 0, 0))
    ensures !AlignedAsWritten(YuyvPlanes, Rect(4, 2, 1, 0, 0, 0, 0))
  {
    assert YuyvPlanes[0].hsub == 2;
  }

  /** On the table the checks as written are stricter than the intended ones:
      they never admit a misaligned upload, they only reject aligned ones. */
  lemma AsWrittenStricterOnTable(i: nat, u: Rect)
    requires i < |Formats|
    ensures Subsampled(Formats[i].planes)
    ensures AlignedAsWritten(Formats[i].planes, u) ==> Aligned(Formats[i].planes, u)
  {
    FormatTableShape();
    TableVsubDividesHsub();
    var planes := Formats[i].planes;
    if AlignedAsWritten(planes, u) {
      forall k | 0 <= k < |planes|
        ensures u.height % planes[k].vsub == 0
      {
        assert ValidPlane(planes[k]);
        assert planes[k].hsub % planes[k].vsub == 0;
      }
    }
  }

  /** Bytes of one packed row of a plane (`packed_stride`). */
  function PackedStride(p: FormatPlane, width: nat): nat
    requires p.hsub > 0
  {
    Div(Mul(p.bpb / 8, width), p.hsub)
  }

  /** Rows of a plane in an upload of the given height. */
  function PlaneRows(p: FormatPlane, height: nat): nat
    requires p.vsub > 0
  {
    Div(height, p.vsub)
  }

  /** Bytes between two source rows of a plane. */
  function SourceStride(p: FormatPlane, stride: nat): nat
    requires p.hsub > 0
  {
    Div(stride, p.hsub)
  }

  /** Bytes one plane occupies in the staging span. */
  function PackedPlaneSize(p: FormatPlane, width: nat, height: nat): nat
    requires p.hsub > 0 && p.vsub > 0
  {
    Mul(PlaneRows(p, height), PackedStride(p, width))
  }

  /** Bytes the first `n` planes occupy in the staging span: the offset of
      plane `n` inside it. */
  function StagingOffset(planes: seq<FormatPlane>, width: nat, height: nat, n: nat): nat
    requires Subsampled(planes) && n <= |planes|
  {
    if n == 0 then 0
    else StagingOffset(planes, width, height, n - 1) + PackedPlaneSize(planes[n - 1], width, height)
  }

  /** `bsize`: the size of the staging span for an upload. */
  function StagingSize(planes: seq<FormatPlane>, width: nat, height: nat): nat
    requires Subsampled(planes)
  {
    StagingOffset(planes, width, height, |planes|)
  }

  /** Bytes one plane occupies in the source data: all its rows, each
      `stride / hsub` bytes long. */
  function SourcePlaneSize(p: FormatPlane, stride: nat, height: nat): nat
    requires p.hsub > 0 && p.vsub > 0
  {
    Mul(SourceStride(p, stride), PlaneRows(p, height))
  }

  /** Offset in the source data of the first row of plane `n`: the planes are
      stored one after the other. */
  function SourcePlaneBase(planes: seq<FormatPlane>, stride: nat, height: nat, n: nat): nat
    requires Subsampled(planes) && n <= |planes|
  {
    if n == 0 then 0
    else SourcePlaneBase(planes, stride, height, n - 1) + SourcePlaneSize(planes[n - 1], stride, height)
  }

  /** Bytes skipped in a source plane before row `srcY / vsub`. */
  function RowSkip(p: FormatPlane, stride: nat, srcY: nat): nat
    requires p.hsub > 0 && p.vsub > 0
  {
    Mul(SourceStride(p, stride), Div(srcY, p.vsub))
  }

  /** Bytes skipped in a source row before pixel `srcX`. */
  function ColumnSkip(p: FormatPlane, srcX: nat): nat
    requires p.hsub > 0
  {
    Div(Mul(p.bpb / 8, srcX), p.hsub)
  }

  /** Offset in the source data of the first byte of plane `i` to upload. */
  function SourceStart(planes: seq<FormatPlane>, u: Rect, i: nat): nat
    requires Subsampled(planes) && i < |planes|
  {
    SourcePlaneBase(planes, u.stride, u.height, i)
      + RowSkip(planes[i], u.stride, u.srcY) + ColumnSkip(planes[i], u.srcX)
  }

  lemma SliceLeft(a: seq<byte>, b: seq<byte>, lo: nat, hi: nat)
    requires lo <= hi <= |a|
    ensures (a + b)[lo .. hi] == a[lo .. hi]
  {
  }

  lemma SliceRight(a: seq<byte>, b: seq<byte>)
    ensures (a + b)[|a| .. |a| + |b|] == b
  {
  }

  lemma SliceWithin(whole: seq<byte>, part: seq<byte>, off: nat, lo: nat, hi: nat)
    requires off + |part| <= |whole| && whole[off .. off + |part|] == part
    requires lo <= hi <= |part|
    ensures whole[off + lo .. off + hi] == part[lo .. hi]
  {
    assert forall j :: 0 <= j < hi - lo ==> whole[off + lo .. off + hi][j] == part[lo .. hi][j];
  }

  /** `rows` rows of `len` bytes, `rs` bytes apart, starting at `start`, are
      all inside the data. */
  predicate RowsFit(data: seq<byte>, start: nat, rs: nat, len: nat, rows: nat) {
    rows == 0 || start + Mul(rows - 1, rs) + len <= |data|
  }

  lemma RowsFitShrink(data: seq<byte>, start: nat, rs: nat, len: nat, rows: nat, k: nat)
    requires RowsFit(data, start, rs, len, rows) && k <= rows
    ensures RowsFit(data, start, rs, len, k)
    ensures k < rows ==> start + Mul(k, rs) + len <= |data|
  {
    if k > 0 {
      MulMonotone(k - 1, rows - 1, rs);
    }
    if k < rows {
      MulMonotone(k, rows - 1, rs);
    }
  }

  /** The first `rows` rows of a source plane, concatenated. */
  function GatherRows(data: seq<byte>, start: nat, rs: nat, len: nat, rows: nat): (r: seq<byte>)
    requires RowsFit(data, start, rs, len, rows)
    ensures |r| == Mul(rows, len)
  {
    if rows == 0 then []
    else
      RowsFitShrink(data, start, rs, len, rows, rows - 1);
      MulSucc(rows - 1, len);
      GatherRows(data, start, rs, len, rows - 1) + data[start + Mul(rows - 1, rs) .. start + Mul(rows - 1, rs) + len]
  }

  /** Row `k` of the gathered bytes is row `k` of the source. */
  lemma {:induction false} GatherRowsPlacement(data: seq<byte>, start: nat, rs: nat, len: nat, rows: nat, k: nat)
    requires RowsFit(data, start, rs, len, rows) && k < rows
    ensures start + Mul(k, rs) + len <= |data|
    ensures Mul(k + 1, len) <= Mul(rows, len)
    ensures GatherRows(data, start, rs, len, rows)[Mul(k, len) .. Mul(k + 1, len)]
      == data[start + Mul(k, rs) .. start + Mul(k, rs) + len]
  {
    RowsFitShrink(data, start, rs, len, rows, k);
    MulMonotone(k + 1, rows, len);
    MulSucc(k, len);
    RowsFitShrink(data, start, rs, len, rows, rows - 1);
    var prefix := GatherRows(data, start, rs, len, rows - 1);
    MulSucc(rows - 1, len);
    if k == rows - 1 {
      assert GatherRows(data, start, rs, len, rows)[Mul(k, len) .. Mul(k + 1, len)]
        == data[start + Mul(k, rs) .. start + Mul(k, rs) + len];
    } else {
      GatherRowsPlacement(data, start, rs, len, rows - 1, k);
      MulMonotone(k + 1, rows - 1, len);
      assert GatherRows(data, start, rs, len, rows)[Mul(k, len) .. Mul(k + 1, len)]
        == prefix[Mul(k, len) .. Mul(k + 1, len)];
    }
  }

  /** When rows follow each other without padding the gathered rows are one
      contiguous block: the single-copy fast path equals the row-by-row copy. */
  lemma {:induction false} ContiguousRows(data: seq<byte>, start: nat, len: nat, rows: nat)
    requires RowsFit(data, start, len, len, rows) && rows > 0
    ensures start + Mul(rows, len) <= |data|
    ensures GatherRows(data, start, len, len, rows) == data[start .. start + Mul(rows, len)]
  {
    MulSucc(rows - 1, len);
    if rows > 1 {
      RowsFitShrink(data, start, len, len, rows, rows - 1);
      ContiguousRows(data, start, len, rows - 1);
      assert data[start .. start + Mul(rows, len)]
        == data[start .. start + Mul(rows - 1, len)] + data[start + Mul(rows - 1, len) .. start + Mul(rows, len)];
    }
  }

  /** Every plane's rows lie inside the source data. */
  predicate SourceCovers(data: seq<byte>, planes: seq<FormatPlane>, u: Rect)
    requires Subsampled(planes)
  {
    forall i {:trigger SourceStart(planes, u, i)} :: 0 <= i < |planes| ==>
      RowsFit(data, SourceStart(planes, u, i), SourceStride(planes[i], u.stride),
        PackedStride(planes[i], u.width), PlaneRows(planes[i], u.height))
  }

  lemma PlaneRowsFit(data: seq<byte>, planes: seq<FormatPlane>, u: Rect, i: nat)
    requires Subsampled(planes) && SourceCovers(data, planes, u) && i < |planes|
    ensures RowsFit(data, SourceStart(planes, u, i), SourceStride(planes[i], u.stride),
      PackedStride(planes[i], u.width), PlaneRows(planes[i], u.height))
  {
  }

  /** The concatenation of the first `n` parts. */
  function Concat(parts: seq<seq<byte>>, n: nat): seq<byte>
    requires n <= |parts|
  {
    if n == 0 then [] else Concat(parts, n - 1) + parts[n - 1]
  }

  /** The total length of the first `n` parts. */
  function SumLengths(parts: seq<seq<byte>>, n: nat): nat
    requires n <= |parts|
  {
    if n == 0 then 0 else SumLengths(parts, n - 1) + |parts[n - 1]|
  }

  lemma {:induction false} ConcatLength(parts: seq<seq<byte>>, n: nat)
    requires n <= |parts|
    ensures |Concat(parts, n)| == SumLengths(parts, n)
  {
    if n > 0 {
      ConcatLength(parts, n - 1);
    }
  }

  /** Part `i` sits in the concatenation between the lengths of the parts
      before it and the parts up to it. */
  lemma {:induction false} ConcatSlice(parts: seq<seq<byte>>, i: nat, n: nat)
    requires i < n <= |parts|
    ensures SumLengths(parts, i + 1) <= SumLengths(parts, n) == |Concat(parts, n)|
    ensures Concat(parts, n)[SumLengths(parts, i) .. SumLengths(parts, i + 1)] == parts[i]
  {
    ConcatLength(parts, n);
    ConcatLength(parts, n - 1);
    if n == i + 1 {
      SliceRight(Concat(parts, i), parts[i]);
    } else {
      ConcatSlice(parts, i, n - 1);
      SliceLeft(Concat(parts, n - 1), parts[n - 1], SumLengths(parts, i), SumLengths(parts, i + 1));
    }
  }

  /** A piece of part `i` sits in the concatenation shifted by the lengths of
      the parts before it. */
  lemma ConcatPiece(parts: seq<seq<byte>>, i: nat, n: nat, lo: nat, hi: nat)
    requires i < n <= |parts| && lo <= hi <= |parts[i]|
    ensures SumLengths(parts, i) + hi <= |Concat(parts, n)|
    ensures Concat(parts, n)[SumLengths(parts, i) + lo .. SumLengths(parts, i) + hi] == parts[i][lo .. hi]
  {
    ConcatSlice(parts, i, n);
    SliceWithin(Concat(parts, n), parts[i], SumLengths(parts, i), lo, hi);
  }

  /** The rows of plane `i` as they are laid out in the staging span. */
  function PlaneBytes(data: seq<byte>, planes: seq<FormatPlane>, u: Rect, i: nat): (r: seq<byte>)
    requires Subsampled(planes) && SourceCovers(data, planes, u) && i < |planes|
    ensures |r| == PackedPlaneSize(planes[i], u.width, u.height)
  {
    GatherRows(data, SourceStart(planes, u, i), SourceStride(planes[i], u.stride),
      PackedStride(planes[i], u.width), PlaneRows(planes[i], u.height))
  }

  /** The packed bytes of every plane, in plane order. */
  function AllPlaneBytes(data: seq<byte>, planes: seq<FormatPlane>, u: Rect): (r: seq<seq<byte>>)
    requires Subsampled(planes) && SourceCovers(data, planes, u)
    ensures |r| == |planes|
    ensures forall i :: 0 <= i < |planes| ==> r[i] == PlaneBytes(data, planes, u, i)
  {
    FirstPlaneBytes(data, planes, u, |planes|)
  }

  function FirstPlaneBytes(data: seq<byte>, planes: seq<FormatPlane>, u: Rect, n: nat): (r: seq<seq<byte>>)
    requires Subsampled(planes) && SourceCovers(data, planes, u) && n <= |planes|
    ensures |r| == n
    ensures forall i :: 0 <= i < n ==> r[i] == PlaneBytes(data, planes, u, i)
  {
    if n == 0 then [] else FirstPlaneBytes(data, planes, u, n - 1) + [PlaneBytes(data, planes, u, n - 1)]
  }

  /** The staging contents after the first `n` planes have been packed. */
  function Staged(data: seq<byte>, planes: seq<FormatPlane>, u: Rect, n: nat): seq<byte>
    requires Subsampled(planes) && SourceCovers(data, planes, u) && n <= |planes|
  {
    Concat(AllPlaneBytes(data, planes, u), n)
  }

  /** Parts whose lengths are the packed plane sizes have, together, the
      length of the staging offsets. */
  lemma {:induction false} PartLengths(parts: seq<seq<byte>>, planes: seq<FormatPlane>, width: nat, height: nat, n: nat)
    requires Subsampled(planes) && |parts| == |planes| && n <= |planes|
    requires forall i :: 0 <= i < |planes| ==> |parts[i]| == PackedPlaneSize(planes[i], width, height)
    ensures SumLengths(parts, n) == StagingOffset(planes, width, height, n)
  {
    if n > 0 {
      PartLengths(parts, planes, width, height, n - 1);
    }
  }

  lemma PackedLengths(data: seq<byte>, planes: seq<FormatPlane>, u: Rect, n: nat)
    requires Subsampled(planes) && SourceCovers(data, planes, u) && n <= |planes|
    ensures SumLengths(AllPlaneBytes(data, planes, u), n) == StagingOffset(planes, u.width, u.height, n)
  {
    PartLengths(AllPlaneBytes(data, planes, u), planes, u.width, u.height, n);
  }

  lemma StagedStep(data: seq<byte>, planes: seq<FormatPlane>, u: Rect, i: nat)
    requires Subsampled(planes) && SourceCovers(data, planes, u) && i < |planes|
    ensures Staged(data, planes, u, i + 1) == Staged(data, planes, u, i) + PlaneBytes(data, planes, u, i)
  {
  }

  /** The packed planes fill the staging span exactly: its length is `bsize`. */
  lemma StagedLength(data: seq<byte>, planes: seq<FormatPlane>, u: Rect, n: nat)
    requires Subsampled(planes) && SourceCovers(data, planes, u) && n <= |planes|
    ensures |Staged(data, planes, u, n)| == StagingOffset(planes, u.width, u.height, n)
  {
    ConcatLength(AllPlaneBytes(data, planes, u), n);
    PackedLengths(data, planes, u, n);
  }

  /** Row `k` of a part made of gathered rows, located in the concatenation. */
  lemma RowInConcat(parts: seq<seq<byte>>, i: nat, n: nat,
                    data: seq<byte>, start: nat, rs: nat, len: nat, rows: nat, k: nat)
    requires i < n <= |parts| && k < rows
    requires RowsFit(data, start, rs, len, rows) && parts[i] == GatherRows(data, start, rs, len, rows)
    ensures start + Mul(k, rs) + len <= |data|
    ensures SumLengths(parts, i) + Mul(k + 1, len) <= |Concat(parts, n)|
    ensures Concat(parts, n)[SumLengths(parts, i) + Mul(k, len) .. SumLengths(parts, i) + Mul(k + 1, len)]
      == data[start + Mul(k, rs) .. start + Mul(k, rs) + len]
  {
    GatherRowsPlacement(data, start, rs, len, rows, k);
    ConcatPiece(parts, i, n, Mul(k, len), Mul(k + 1, len));
  }

  /** Where every uploaded row ends up: row `k` of plane `i` sits in the
      staging span at the plane's offset plus `k` packed rows, and holds the
      source bytes of that row. */
  lemma StagedRowPlacement(data: seq<byte>, planes: seq<FormatPlane>, u: Rect, i: nat, k: nat)
    requires Subsampled(planes) && SourceCovers(data, planes, u) && i < |planes|
    requires k < PlaneRows(planes[i], u.height)
    ensures var off := StagingOffset(planes, u.width, u.height, i);
      var len := PackedStride(planes[i], u.width);
      var src := SourceStart(planes, u, i) + Mul(k, SourceStride(planes[i], u.stride));
      && |Staged(data, planes, u, |planes|)| == StagingSize(planes, u.width, u.height)
      && off + Mul(k + 1, len) <= StagingSize(planes, u.width, u.height)
      && src + len <= |data|
      && Staged(data, planes, u, |planes|)[off + Mul(k, len) .. off + Mul(k + 1, len)] == data[src .. src + len]
  {
    var parts := AllPlaneBytes(data, planes, u);
    StagedLength(data, planes, u, |planes|);
    PackedLengths(data, planes, u, i);
    RowInConcat(parts, i, |planes|, data, SourceStart(planes, u, i), SourceStride(planes[i], u.stride),
      PackedStride(planes[i], u.width), PlaneRows(planes[i], u.height), k);
  }

  /** `plane_aspect`: the aspect bit of plane `i`; the source treats any other
      index as unreachable. */
  function PlaneAspect(i: nat): (a: Flags)
    requires i < 3
    ensures a == IMAGE_ASPECT_PLANE_0 << i
  {
    if i == 0 then IMAGE_ASPECT_PLANE_0
    else if i == 1 then IMAGE_ASPECT_PLANE_1
    else IMAGE_ASPECT_PLANE_2
  }

  /** One buffer-to-image copy region (VkBufferImageCopy): offsets and sizes in
      texels of the plane, the buffer offset in bytes. */
  datatype CopyRegion = CopyRegion(
    bufferOffset: nat,
    rowLength: nat,
    imageHeight: nat,
    offsetX: nat,
    offsetY: nat,
    extentWidth: nat,
    extentHeight: nat,
    aspect: Flags)

  /** The copy region of plane `i` for an upload into a span at `spanStart`. */
  function PlaneCopy(planes: seq<FormatPlane>, u: Rect, spanStart: nat, i: nat): CopyRegion
    requires Subsampled(planes) && i < |planes| && |planes| <= 3
  {
    var p := planes[i];
    CopyRegion(
      spanStart + StagingOffset(planes, u.width, u.height, i),
      Div(u.width, p.hsub),
      Div(u.height, p.vsub),
      Div(u.dstX, p.hsub),
      Div(u.dstY, p.vsub),
      Div(u.width, p.hsub),
      Div(u.height, p.vsub),
      if |planes| == 1 then IMAGE_ASPECT_COLOR else PlaneAspect(i))
  }

  /** Copy region `i`, scaled back by the plane's subsampling factors, is
      exactly the destination rectangle: no pixel column or row is lost to
      rounding. */
  predicate RegionExact(planes: seq<FormatPlane>, u: Rect, spanStart: nat, i: nat)
    requires Subsampled(planes) && i < |planes| && |planes| <= 3
  {
    var c := PlaneCopy(planes, u, spanStart, i);
    && Mul(c.offsetX, planes[i].hsub) == u.dstX && Mul(c.offsetY, planes[i].vsub) == u.dstY
    && Mul(c.extentWidth, planes[i].hsub) == u.width && Mul(c.extentHeight, planes[i].vsub) == u.height
  }

  /** The intended alignment is exactly the condition under which every
      plane's copy region covers the destination rectangle without rounding. */
  lemma AlignedIffRegionsExact(planes: seq<FormatPlane>, u: Rect, spanStart: nat)
    requires Subsampled(planes) && |planes| <= 3
    ensures Aligned(planes, u) <==> forall i :: 0 <= i < |planes| ==> RegionExact(planes, u, spanStart, i)
  {
    forall i | 0 <= i < |planes|
      ensures RegionExact(planes, u, spanStart, i) <==>
        && u.dstX % planes[i].hsub == 0 && u.dstY % planes[i].vsub == 0
        && u.width % planes[i].hsub == 0 && u.height % planes[i].vsub == 0
    {
      MultipleIff(u.dstX, planes[i].hsub);
      MultipleIff(u.dstY, planes[i].vsub);
      MultipleIff(u.width, planes[i].hsub);
      MultipleIff(u.height, planes[i].vsub);
    }
  }

  /** Every copy region lies inside the plane's image: offset plus extent
      never exceed the texture size divided by the subsampling factor. */
  lemma CopyRegionInsidePlane(planes: seq<FormatPlane>, u: Rect, spanStart: nat, i: nat, width: nat, height: nat)
    requires Subsampled(planes) && i < |planes| && |planes| <= 3
    requires InsideTexture(u, width, height)
    ensures var c := PlaneCopy(planes, u, spanStart, i);
      && c.offsetX + c.extentWidth <= Div(width, planes[i].hsub)
      && c.offsetY + c.extentHeight <= Div(height, planes[i].vsub)
  {
    DivAddBound(u.dstX, u.width, width, planes[i].hsub);
    DivAddBound(u.dstY, u.height, height, planes[i].vsub);
  }

  /** The copy regions tile the staging span: each starts where the previous
      plane's bytes end, the first at the span start and the last ends at
      the span start plus `bsize`. */
  lemma CopyRegionsTileSpan(planes: seq<FormatPlane>, u: Rect, spanStart: nat, i: nat)
    requires Subsampled(planes) && |planes| <= 3 && i < |planes|
    ensures i == 0 ==> PlaneCopy(planes, u, spanStart, i).bufferOffset == spanStart
    ensures i + 1 < |planes| ==>
      PlaneCopy(planes, u, spanStart, i + 1).bufferOffset
        == PlaneCopy(planes, u, spanStart, i).bufferOffset + PackedPlaneSize(planes[i], u.width, u.height)
    ensures i + 1 == |planes| ==>
      PlaneCopy(planes, u, spanStart, i).bufferOffset + PackedPlaneSize(planes[i], u.width, u.height)
        == spanStart + StagingSize(planes, u.width, u.height)
  {
  }

  /** Outcome of `write_pixels`: either nothing was recorded, or the staging
      bytes written into the span and the copy regions recorded. */
  datatype WriteResult =
    | WriteFailed
    | Written(staging: seq<byte>, copies: seq<CopyRegion>)

  /** `bsize`, summed plane by plane as the source does. */
  method ComputeStagingSize(planes: seq<FormatPlane>, width: nat, height: nat) returns (bsize: nat)
    requires Subsampled(planes)
    ensures bsize == StagingSize(planes, width, height)
  {
    bsize := 0;
    for i := 0 to |planes|
      invariant bsize == StagingOffset(planes, width, height, i)
    {
      var p := planes[i];
      bsize := bsize + PackedPlaneSize(p, width, height);
    }
  }

  /** Row-by-row copy of one plane into the staging span. */
  method CopyRows(data: seq<byte>, start: nat, rs: nat, len: nat, rows: nat) returns (out: seq<byte>)
    requires RowsFit(data, start, rs, len, rows)
    ensures out == GatherRows(data, start, rs, len, rows)
  {
    out := [];
    for row := 0 to rows
      invariant RowsFit(data, start, rs, len, row)
      invariant out == GatherRows(data, start, rs, len, row)
    {
      RowsFitShrink(data, start, rs, len, rows, row);
      RowsFitShrink(data, start, rs, len, rows, row + 1);
      out := out + data[start + Mul(row, rs) .. start + Mul(row, rs) + len];
    }
  }

  /** The bytes of plane `i` for the staging span, read from the source
      starting at `base`, the offset of the plane's first row: a single block
      copy when the whole width of tightly packed rows is uploaded, row by
      row otherwise. */
  method PackPlane(data: seq<byte>, planes: seq<FormatPlane>, u: Rect, i: nat, base: nat, textureWidth: nat)
    returns (planeBytes: seq<byte>)
    requires Subsampled(planes) && SourceCovers(data, planes, u) && i < |planes|
    requires base == SourcePlaneBase(planes, u.stride, u.height, i)
    ensures planeBytes == PlaneBytes(data, planes, u, i)
  {
    var p := planes[i];
    var packed := PackedStride(p, u.width);
    var rs := SourceStride(p, u.stride);
    var rows := PlaneRows(p, u.height);
    var start := base + RowSkip(p, u.stride, u.srcY) + ColumnSkip(p, u.srcX);
    assert start == SourceStart(planes, u, i);
    PlaneRowsFit(data, planes, u, i);
    if u.srcX == 0 && u.width == textureWidth && rs == packed {
      if rows == 0 {
        planeBytes := [];
      } else {
        ContiguousRows(data, start, packed, rows);
        planeBytes := data[start .. start + Mul(rows, packed)];
      }
    } else {
      planeBytes := CopyRows(data, start, rs, packed, rows);
    }
  }

  /** `write_pixels`: the upload fails without side effects when no staging
      span of exactly `bsize` bytes is available or mapping it fails;
      otherwise every plane's rows are packed into the span in plane order
      (one block copy when the source rows are already packed), one copy
      region per plane is recorded, and the texture is marked as used in the
      current frame. The source demands an in-bounds, aligned rectangle and
      source data holding every row. */
  method WritePixels(r: Renderer, t: Texture, u: Rect, data: seq<byte>, span: BufferSpan, mapOk: bool)
    returns (res: WriteResult, t': Texture)
    requires Subsampled(t.format.planes) && |t.format.planes| <= 3
    requires InsideTexture(u, t.width, t.height)
    requires Aligned(t.format.planes, u)
    requires SourceCovers(data, t.format.planes, u)
    ensures res.Written? <==>
      span.buffer.Some? && span.alloc.size == StagingSize(t.format.planes, u.width, u.height) && mapOk
    ensures res.WriteFailed? ==> t' == t
    ensures res.Written? ==> t' == t.(lastUsed := r.frame)
    ensures res.Written? ==> |res.staging| == span.alloc.size
    ensures res.Written? ==> res.staging == Staged(data, t.format.planes, u, |t.format.planes|)
    ensures res.Written? ==> |res.copies| == |t.format.planes|
    ensures res.Written? ==> forall i :: 0 <= i < |t.format.planes| ==>
      res.copies[i] == PlaneCopy(t.format.planes, u, span.alloc.start, i)
  {
    var planes := t.format.planes;
    var bsize := ComputeStagingSize(planes, u.width, u.height);
    if span.buffer.None? || span.alloc.size != bsize {
      return WriteFailed, t;
    }
    if !mapOk {
      return WriteFailed, t;
    }
    var staging: seq<byte> := [];
    var copies: seq<CopyRegion> := [];
    var base := 0;
    for i := 0 to |planes|
      invariant staging == Staged(data, planes, u, i)
      invariant base == SourcePlaneBase(planes, u.stride, u.height, i)
      invariant |copies| == i
      invariant forall k :: 0 <= k < i ==> copies[k] == PlaneCopy(planes, u, span.alloc.start, k)
    {
      var p := planes[i];
      var rows := PlaneRows(p, u.height);
      StagedLength(data, planes, u, i);
      var bufOff := span.alloc.start + |staging|;
      var planeBytes := PackPlane(data, planes, u, i, base, t.width);
      StagedStep(data, planes, u, i);
      staging := staging + planeBytes;
      var aspect := if |planes| == 1 then IMAGE_ASPECT_COLOR else PlaneAspect(i);
      copies := copies + [CopyRegion(bufOff, Div(u.width, p.hsub), rows, Div(u.dstX, p.hsub), Div(u.dstY, p.vsub),
        Div(u.width, p.hsub), rows, aspect)];
      base := base + SourcePlaneSize(p, u.stride, u.height);
    }
    StagedLength(data, planes, u, |planes|);
    return Written(staging, copies), t.(lastUsed := r.frame);
  }
}
