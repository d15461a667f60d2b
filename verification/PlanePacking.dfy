/** Android video input: the strided planes of a frame are packed tightly into
    the codec's flat input buffer. */
module PlanePacking {
  import opened Core
  import Bits

  type Plane = seq<Byte>

  datatype Format = I420 | NV12

  /** A CPU frame: up to three planes with the strides the caller supplied. */
  datatype Frame = Frame(width: nat, height: nat, planes: seq<Plane>, stride: seq<int>)

  /** `BufferSizeFor` for the two 4:2:0 formats. */
  function BufferSizeFor(width: int, height: int): nat {
    if width <= 0 || height <= 0 || width % 2 != 0 || height % 2 != 0 then 0
    else
      SizePositive(width, height);
      width * height * 3 / 2
  }

  lemma SizePositive(a: int, b: int)
    requires 0 < a && 0 < b
    ensures 0 < a * b
  {
  }

  /** The plane from its row `y` on: `y` strides further. */
  function FromRow(plane: Plane, stride: nat, y: nat): Plane {
    if y == 0 then plane
    else
      var s := FromRow(plane, stride, y - 1);
      if stride <= |s| then s[stride..] else []
  }

  /** The visible pixels of row `y`; [] where the plane is too small. */
  function Row(plane: Plane, stride: nat, width: nat, y: nat): Plane {
    if width <= |FromRow(plane, stride, y)| then FromRow(plane, stride, y)[..width] else []
  }

  /** The visible pixels of the first `n` rows, without the padding. */
  function Rows(plane: Plane, stride: nat, width: nat, n: nat): Plane {
    if n == 0 then [] else Rows(plane, stride, width, n - 1) + Row(plane, stride, width, n - 1)
  }

  /** The plane has `n` full rows of `width` bytes, `stride` apart. */
  predicate Covers(plane: Plane, stride: nat, width: nat, n: nat) {
    forall y :: 0 <= y < n ==> width <= |FromRow(plane, stride, y)|
  }

  lemma NextMultiple(y: nat, stride: nat)
    ensures (y + 1) * stride == y * stride + stride
  {
  }

  /** The byte a row starts at. */
  function Offset(stride: nat, y: nat): nat {
    if y == 0 then 0 else Offset(stride, y - 1) + stride
  }

  lemma {:induction false} OffsetIs(stride: nat, y: nat)
    ensures Offset(stride, y) == y * stride
  {
    if y != 0 {
      OffsetIs(stride, y - 1);
      NextMultiple(y - 1, stride);
    }
  }

  lemma {:induction false} OffsetGrows(stride: nat, y: nat, n: nat)
    requires y <= n
    ensures Offset(stride, y) <= Offset(stride, n)
    decreases n
  {
    if y < n {
      OffsetGrows(stride, y, n - 1);
    }
  }

  lemma {:induction false} FromOffset(plane: Plane, stride: nat, y: nat)
    ensures FromRow(plane, stride, y) ==
            if Offset(stride, y) <= |plane| then plane[Offset(stride, y)..] else []
  {
    if y != 0 {
      FromOffset(plane, stride, y - 1);
      if Offset(stride, y) <= |plane| {
        DropTwice(plane, Offset(stride, y - 1), stride);
      }
    }
  }

  lemma FromRowAt(plane: Plane, stride: nat, y: nat)
    ensures y * stride <= |plane| ==> FromRow(plane, stride, y) == plane[y * stride..]
    ensures y * stride > |plane| ==> FromRow(plane, stride, y) == []
  {
    FromOffset(plane, stride, y);
    OffsetIs(stride, y);
  }

  /** In bytes: a plane covers `n` rows when the last one ends inside it. */
  lemma CoversMeansLastRowFits(plane: Plane, stride: nat, width: nat, n: nat)
    requires 0 < n && 0 < width
    ensures Covers(plane, stride, width, n) <==> (n - 1) * stride + width <= |plane|
  {
    CoversByOffset(plane, stride, width, n);
    OffsetIs(stride, n - 1);
  }

  lemma CoversByOffset(plane: Plane, stride: nat, width: nat, n: nat)
    requires 0 < n && 0 < width
    ensures Covers(plane, stride, width, n) <==> Offset(stride, n - 1) + width <= |plane|
  {
    FromOffset(plane, stride, n - 1);
    if Offset(stride, n - 1) + width <= |plane| {
      forall y | 0 <= y < n ensures width <= |FromRow(plane, stride, y)| {
        FromOffset(plane, stride, y);
        OffsetGrows(stride, y, n - 1);
      }
    }
  }

  lemma Monotone(a: nat, b: nat, c: nat)
    requires a <= b
    ensures a * c <= b * c
  {
    assert b * c == a * c + (b - a) * c;
  }

  lemma {:induction false} RowsSize(plane: Plane, stride: nat, width: nat, n: nat)
    requires Covers(plane, stride, width, n)
    ensures |Rows(plane, stride, width, n)| == n * width
    decreases n
  {
    if n != 0 {
      RowsSize(plane, stride, width, n - 1);
      NextMultiple(n - 1, width);
    }
  }

  /** Unpacking: pixel (x, y) of the plane is byte y * width + x of its rows. */
  lemma {:induction false} PixelAt(plane: Plane, stride: nat, width: nat, n: nat, y: nat, x: nat)
    requires Covers(plane, stride, width, n) && y < n && x < width
    ensures y * width + x < |Rows(plane, stride, width, n)| && y * stride + x < |plane|
    ensures Rows(plane, stride, width, n)[y * width + x] == plane[y * stride + x]
    decreases n
  {
    RowsSize(plane, stride, width, n - 1);
    if y < n - 1 {
      PixelAt(plane, stride, width, n - 1, y, x);
    } else {
      PixelInRow(plane, stride, width, n, y, x);
    }
  }

  lemma {:induction false} RowsGrow(plane: Plane, stride: nat, width: nat, n: nat, y: nat)
    requires y < n
    ensures |Rows(plane, stride, width, y)| + |Row(plane, stride, width, y)| <= |Rows(plane, stride, width, n)|
    decreases n
  {
    if y < n - 1 {
      RowsGrow(plane, stride, width, n - 1, y);
    }
  }

  lemma PixelInRow(plane: Plane, stride: nat, width: nat, n: nat, y: nat, x: nat)
    requires Covers(plane, stride, width, n) && y < n && x < width
    ensures |Row(plane, stride, width, y)| == width && y * stride + x < |plane|
    ensures Row(plane, stride, width, y)[x] == plane[y * stride + x]
  {
    RowIs(plane, stride, width, n, y);
  }

  /** A row that the plane covers, in bytes. */
  lemma RowIs(plane: Plane, stride: nat, width: nat, n: nat, y: nat)
    requires Covers(plane, stride, width, n) && y < n
    ensures width == 0 ==> Row(plane, stride, width, y) == []
    ensures width > 0 ==>
              y * stride + width <= |plane| &&
              Row(plane, stride, width, y) == plane[y * stride..y * stride + width]
  {
    assert width <= |FromRow(plane, stride, y)|;
    FromRowAt(plane, stride, y);
    if width > 0 {
      SliceOfTail(plane, y * stride, y * stride + width);
    }
  }

  lemma RowsNext(plane: Plane, stride: nat, width: nat, n: nat, y: nat)
    requires Covers(plane, stride, width, n) && y < n
    ensures |Rows(plane, stride, width, y)| == y * width
    ensures Rows(plane, stride, width, y + 1) == Rows(plane, stride, width, y) + Row(plane, stride, width, y)
    ensures |Rows(plane, stride, width, y)| + |Row(plane, stride, width, y)| <= |Rows(plane, stride, width, n)|
  {
    RowsSize(plane, stride, width, y);
    RowsGrow(plane, stride, width, n, y);
  }

  // ----- Writing into the buffer -----

  function Splice(s: Plane, at: nat, src: Plane): Plane
    requires at + |src| <= |s|
  {
    s[..at] + src + s[at + |src|..]
  }

  predicate Holds(s: Plane, off: nat, data: Plane) {
    off + |data| <= |s| && s[off..off + |data|] == data
  }

  lemma SpliceKeeps(s: Plane, at: nat, src: Plane, off: nat, data: Plane)
    requires at + |src| <= |s| && Holds(s, off, data)
    requires off + |data| <= at || at + |src| <= off
    ensures Holds(Splice(s, at, src), off, data)
  {
    var t := Splice(s, at, src);
    forall k | 0 <= k < |data| ensures t[off..off + |data|][k] == data[k] {
      assert t[off + k] == s[off + k] == s[off..off + |data|][k];
    }
  }

  lemma SpliceExtends(s: Plane, src: Plane, off: nat, data: Plane)
    requires off + |data| + |src| <= |s| && Holds(s, off, data)
    ensures Holds(Splice(s, off + |data|, src), off, data + src)
  {
    var t := Splice(s, off + |data|, src);
    SpliceKeeps(s, off + |data|, src, off, data);
    assert t[off + |data|..off + |data| + |src|] == src;
    assert t[off..off + |data + src|] == t[off..off + |data|] + t[off + |data|..off + |data| + |src|];
  }

  /** `std::memcpy` of one row. */
  method CopyRow(buf: array<Byte>, at: nat, src: Plane)
    requires at + |src| <= buf.Length
    modifies buf
    ensures buf[..] == Splice(old(buf[..]), at, src)
  {
    forall k | 0 <= k < |src| {
      buf[at + k] := src[k];
    }
  }

  // ----- The layout -----

  /** The stride in force: the caller's, or the tight one if none was given. */
  function Effective(stride: int, tight: nat): nat {
    if stride > 0 then stride else tight
  }

  /** The frame's planes are as large as the copy loops assume. In `kI420` both
      chroma planes are read with the stride of the first. */
  predicate Readable(f: Frame, format: Format) {
    && |f.planes| == 3 && |f.stride| == 3
    && Covers(f.planes[0], Effective(f.stride[0], f.width), f.width, f.height)
    && (format == NV12 ==> Covers(f.planes[1], Effective(f.stride[1], f.width), f.width, f.height / 2))
    && (format == I420 ==>
          && Covers(f.planes[1], Effective(f.stride[1], f.width / 2), f.width / 2, f.height / 2)
          && Covers(f.planes[2], Effective(f.stride[1], f.width / 2), f.width / 2, f.height / 2))
  }

  function Luma(f: Frame): Plane
    requires |f.planes| == 3 && |f.stride| == 3
  {
    Rows(f.planes[0], Effective(f.stride[0], f.width), f.width, f.height)
  }

  function Chroma(f: Frame, k: nat): Plane
    requires |f.planes| == 3 && |f.stride| == 3 && k < 3
  {
    Rows(f.planes[k], Effective(f.stride[1], f.width / 2), f.width / 2, f.height / 2)
  }

  function Interleaved(f: Frame): Plane
    requires |f.planes| == 3 && |f.stride| == 3
  {
    Rows(f.planes[1], Effective(f.stride[1], f.width), f.width, f.height / 2)
  }

  /** The whole tight frame. */
  function Packed(f: Frame, format: Format): Plane
    requires |f.planes| == 3 && |f.stride| == 3
  {
    match format
    case I420 => Luma(f) + Chroma(f, 1) + Chroma(f, 2)
    case NV12 => Luma(f) + Interleaved(f)
  }

  lemma HalfProduct(a: nat, b: nat)
    ensures (2 * a) * (2 * b) == 4 * (a * b)
    ensures (2 * b) * (2 * a) == 4 * (a * b)
    ensures b * (2 * a) == 2 * (a * b)
    ensures b * a == a * b
  {
  }

  lemma LumaSize(f: Frame, format: Format)
    requires Readable(f, format)
    ensures |Luma(f)| == f.width * f.height
  {
    RowsSize(f.planes[0], Effective(f.stride[0], f.width), f.width, f.height);
    assert f.width * f.height == f.height * f.width;
  }

  lemma ChromaSize(f: Frame)
    requires Readable(f, I420)
    ensures |Chroma(f, 1)| == |Chroma(f, 2)| == (f.width / 2) * (f.height / 2)
  {
    var a, b := f.width / 2, f.height / 2;
    RowsSize(f.planes[1], Effective(f.stride[1], a), a, b);
    RowsSize(f.planes[2], Effective(f.stride[1], a), a, b);
    assert a * b == b * a;
  }

  /** For any dimensions: the planes tile the buffer that `BufferSizeFor` asks for
      if and only if both are even; else it asks for nothing. */
  lemma PackedFillsBufferIff(f: Frame, format: Format)
    requires Readable(f, format) && 0 < f.width && 0 < f.height
    ensures |Packed(f, format)| == BufferSizeFor(f.width, f.height) <==> f.width % 2 == 0 && f.height % 2 == 0
  {
    if f.width % 2 == 0 && f.height % 2 == 0 {
      PackedFillsBuffer(f, format);
    } else {
      LumaSize(f, format);
      SizePositive(f.width, f.height);
    }
  }

  lemma PackedFillsBuffer(f: Frame, format: Format)
    requires Readable(f, format) && 0 < f.width && 0 < f.height && f.width % 2 == 0 && f.height % 2 == 0
    ensures |Packed(f, format)| == BufferSizeFor(f.width, f.height)
  {
    var a, b := f.width / 2, f.height / 2;
    HalfProduct(a, b);
    LumaSize(f, format);
    if format == I420 {
      ChromaSize(f);
    } else {
      RowsSize(f.planes[1], Effective(f.stride[1], f.width), f.width, b);
    }
    assert f.width == 2 * a && f.height == 2 * b;
    assert BufferSizeFor(f.width, f.height) == 4 * (a * b) * 3 / 2;
  }

  /** What BufferSizeFor asks for: one and a half bytes a pixel for even positive
      dimensions, else nothing. */
  lemma BufferSizeIs(width: int, height: int)
    ensures width > 0 && height > 0 && width % 2 == 0 && height % 2 == 0 ==>
              2 * BufferSizeFor(width, height) == 3 * (width * height)
    ensures !(width > 0 && height > 0 && width % 2 == 0 && height % 2 == 0) ==> BufferSizeFor(width, height) == 0
  {
    if width > 0 && height > 0 && width % 2 == 0 && height % 2 == 0 {
      HalfProduct(width / 2, height / 2);
    }
  }

  /** Byte `to` of the rows is byte `from` of the plane. */
  predicate Maps(rows: Plane, to: int, plane: Plane, from: int) {
    0 <= to < |rows| && 0 <= from < |plane| && rows[to] == plane[from]
  }

  lemma RowsMap(plane: Plane, stride: nat, width: nat, n: nat, y: nat, x: nat, to: int, from: int)
    requires Covers(plane, stride, width, n) && y < n && x < width
    requires to == y * width + x && from == y * stride + x
    ensures Maps(Rows(plane, stride, width, n), to, plane, from)
  {
    PixelAt(plane, stride, width, n, y, x);
  }

  lemma MapsInPiece(a: Plane, b: Plane, c: Plane, to: int, plane: Plane, from: int)
    ensures Maps(a, to, plane, from) ==> Maps(a + b + c, to, plane, from)
    ensures Maps(b, to, plane, from) ==> Maps(a + b + c, |a| + to, plane, from)
    ensures Maps(c, to, plane, from) ==> Maps(a + b + c, |a| + |b| + to, plane, from)
  {
  }

  /** Unpacking the flat `kI420` buffer: the luma byte of pixel (x, y), and the U and V
      bytes of chroma position (x, y), each at its place behind the planes before it. */
  lemma UnpackI420(f: Frame, x: nat, y: nat, strideY: nat, strideC: nat, to: int, from: int, u: int, v: int)
    requires Readable(f, I420)
    requires strideY == (if f.stride[0] > 0 then f.stride[0] else f.width)
    requires strideC == (if f.stride[1] > 0 then f.stride[1] else f.width / 2)
    requires u == f.width * f.height && v == u + (f.width / 2) * (f.height / 2)
    ensures x < f.width && y < f.height && to == y * f.width + x && from == y * strideY + x ==>
              Maps(Packed(f, I420), to, f.planes[0], from)
    ensures x < f.width / 2 && y < f.height / 2 && to == y * (f.width / 2) + x && from == y * strideC + x ==>
              Maps(Packed(f, I420), u + to, f.planes[1], from) && Maps(Packed(f, I420), v + to, f.planes[2], from)
  {
    LumaSize(f, I420);
    ChromaSize(f);
    if x < f.width && y < f.height && to == y * f.width + x && from == y * strideY + x {
      RowsMap(f.planes[0], strideY, f.width, f.height, y, x, to, from);
      MapsInPiece(Luma(f), Chroma(f, 1), Chroma(f, 2), to, f.planes[0], from);
    }
    if x < f.width / 2 && y < f.height / 2 && to == y * (f.width / 2) + x && from == y * strideC + x {
      RowsMap(f.planes[1], strideC, f.width / 2, f.height / 2, y, x, to, from);
      RowsMap(f.planes[2], strideC, f.width / 2, f.height / 2, y, x, to, from);
      MapsInPiece(Luma(f), Chroma(f, 1), Chroma(f, 2), to, f.planes[1], from);
      MapsInPiece(Luma(f), Chroma(f, 1), Chroma(f, 2), to, f.planes[2], from);
    }
  }

  /** And the flat `kNV12` buffer. */
  lemma UnpackNV12(f: Frame, x: nat, y: nat, strideY: nat, strideC: nat, to: int, from: int, uv: int)
    requires Readable(f, NV12)
    requires strideY == (if f.stride[0] > 0 then f.stride[0] else f.width)
    requires strideC == (if f.stride[1] > 0 then f.stride[1] else f.width)
    requires uv == f.width * f.height
    ensures x < f.width && y < f.height && to == y * f.width + x && from == y * strideY + x ==>
              Maps(Packed(f, NV12), to, f.planes[0], from)
    ensures x < f.width && y < f.height / 2 && to == y * f.width + x && from == y * strideC + x ==>
              Maps(Packed(f, NV12), uv + to, f.planes[1], from)
  {
    LumaSize(f, NV12);
    NothingBehind(Luma(f), Interleaved(f));
    if x < f.width && y < f.height && to == y * f.width + x && from == y * strideY + x {
      RowsMap(f.planes[0], strideY, f.width, f.height, y, x, to, from);
      MapsInPiece(Luma(f), Interleaved(f), [], to, f.planes[0], from);
    }
    if x < f.width && y < f.height / 2 && to == y * f.width + x && from == y * strideC + x {
      RowsMap(f.planes[1], strideC, f.width, f.height / 2, y, x, to, from);
      MapsInPiece(Luma(f), Interleaved(f), [], to, f.planes[1], from);
    }
  }

  lemma NothingBehind(a: Plane, b: Plane)
    ensures a + b + [] == a + b
  {
  }

  // ----- The copy loops -----

  /** The buffer holds two pieces of the frame, and around them what it did. */
  predicate SoFar(s: Plane, u: nat, us: Plane, v: nat, vs: Plane, before: Plane, after: Plane) {
    && Holds(s, u, us) && Holds(s, v, vs)
    && Holds(s, 0, before) && |after| <= |s| && Holds(s, |s| - |after|, after)
  }

  /** Appending a row to the first piece. */
  lemma ExtendFirst(s: Plane, u: nat, us: Plane, v: nat, vs: Plane, before: Plane, after: Plane, row: Plane)
    requires SoFar(s, u, us, v, vs, before, after)
    requires |before| <= u && u + |us| + |row| <= v && v + |vs| + |after| <= |s|
    ensures SoFar(Splice(s, u + |us|, row), u, us + row, v, vs, before, after)
  {
    SpliceExtends(s, row, u, us);
    SpliceKeeps(s, u + |us|, row, v, vs);
    SpliceKeeps(s, u + |us|, row, 0, before);
    SpliceKeeps(s, u + |us|, row, |s| - |after|, after);
  }

  /** Appending a row to the second piece. */
  lemma ExtendSecond(s: Plane, u: nat, us: Plane, v: nat, vs: Plane, before: Plane, after: Plane, row: Plane)
    requires SoFar(s, u, us, v, vs, before, after)
    requires |before| <= u && u + |us| <= v && v + |vs| + |row| + |after| <= |s|
    ensures SoFar(Splice(s, v + |vs|, row), u, us, v, vs + row, before, after)
  {
    SpliceExtends(s, row, v, vs);
    SpliceKeeps(s, v + |vs|, row, u, us);
    SpliceKeeps(s, v + |vs|, row, 0, before);
    SpliceKeeps(s, v + |vs|, row, |s| - |after|, after);
  }

  /** Row `y` of a plane, read at `y * stride`. */
  method VisibleRow(plane: Plane, stride: nat, width: nat, n: nat, y: nat) returns (row: Plane)
    requires Covers(plane, stride, width, n) && y < n
    ensures row == Row(plane, stride, width, y)
  {
    RowIs(plane, stride, width, n, y);
    var from := y * stride;
    row := if width > 0 then plane[from..from + width] else [];
  }

  /** A row goes behind the first piece. */
  method PutFirst(buf: array<Byte>, at: nat, row: Plane, ghost u: nat, ghost us: Plane, ghost v: nat, ghost vs: Plane,
                  ghost before: Plane, ghost after: Plane)
    requires SoFar(buf[..], u, us, v, vs, before, after) && at == u + |us|
    requires |before| <= u && u + |us| + |row| <= v && v + |vs| + |after| <= buf.Length
    modifies buf
    ensures SoFar(buf[..], u, us + row, v, vs, before, after)
  {
    ExtendFirst(buf[..], u, us, v, vs, before, after, row);
    CopyRow(buf, at, row);
  }

  /** A row goes behind the second piece. */
  method PutSecond(buf: array<Byte>, at: nat, row: Plane, ghost u: nat, ghost us: Plane, ghost v: nat, ghost vs: Plane,
                   ghost before: Plane, ghost after: Plane)
    requires SoFar(buf[..], u, us, v, vs, before, after) && at == v + |vs|
    requires |before| <= u && u + |us| <= v && v + |vs| + |row| + |after| <= buf.Length
    modifies buf
    ensures SoFar(buf[..], u, us, v, vs + row, before, after)
  {
    ExtendSecond(buf[..], u, us, v, vs, before, after, row);
    CopyRow(buf, at, row);
  }

  /** A whole plane goes to the buffer at `v`, between `u` pieces before it and
      `after` behind it. */
  method CopyRows(buf: array<Byte>, ghost us: Plane, v: nat, plane: Plane, stride: nat, width: nat, n: nat, ghost after: Plane)
    requires Covers(plane, stride, width, n)
    requires v + |Rows(plane, stride, width, n)| + |after| <= buf.Length
    requires |us| <= v && SoFar(buf[..], 0, us, v, [], [], after)
    modifies buf
    ensures SoFar(buf[..], 0, us, v, Rows(plane, stride, width, n), [], after)
  {
    var y := 0;
    while y < n
      invariant y <= n
      invariant SoFar(buf[..], 0, us, v, Rows(plane, stride, width, y), [], after)
    {
      var row := VisibleRow(plane, stride, width, n, y);
      RowsNext(plane, stride, width, n, y);
      PutSecond(buf, v + y * width, row, 0, us, v, Rows(plane, stride, width, y), [], after);
      y := y + 1;
    }
  }

  /** The `kI420` chroma loop: one row of U, then one row of V. */
  method CopyChroma(buf: array<Byte>, ghost luma: Plane, u: nat, uPlane: Plane, v: nat, vPlane: Plane,
                    stride: nat, width: nat, n: nat, ghost after: Plane)
    requires Covers(uPlane, stride, width, n) && Covers(vPlane, stride, width, n)
    requires u + |Rows(uPlane, stride, width, n)| <= v
    requires v + |Rows(vPlane, stride, width, n)| + |after| <= buf.Length
    requires |luma| <= u && SoFar(buf[..], u, [], v, [], luma, after)
    modifies buf
    ensures SoFar(buf[..], u, Rows(uPlane, stride, width, n), v, Rows(vPlane, stride, width, n), luma, after)
  {
    var y := 0;
    while y < n
      invariant y <= n
      invariant SoFar(buf[..], u, Rows(uPlane, stride, width, y), v, Rows(vPlane, stride, width, y), luma, after)
    {
      var uRow := VisibleRow(uPlane, stride, width, n, y);
      var vRow := VisibleRow(vPlane, stride, width, n, y);
      RowsNext(uPlane, stride, width, n, y);
      RowsNext(vPlane, stride, width, n, y);
      PutFirst(buf, u + y * width, uRow, u, Rows(uPlane, stride, width, y), v, Rows(vPlane, stride, width, y), luma, after);
      PutSecond(buf, v + y * width, vRow, u, Rows(uPlane, stride, width, y + 1), v, Rows(vPlane, stride, width, y), luma, after);
      y := y + 1;
    }
  }

  /** `QueueInput` for a codec configured `width` x `height`. The codec may have
      no free slot, hand out no buffer, or refuse the filled one. `handed` bytes are
      queued. With odd dimensions nothing is asked of the buffer, and the caller
      alone can see to it that the planes fit. */
  method QueueInput(width: nat, height: nat, format: Format, f: Frame, slot: bool, buf: array?<Byte>, queued: bool)
    returns (st: Status, handed: nat)
    requires 0 < width && 0 < height
    requires f.width == width && f.height == height ==> Readable(f, format)
    requires f.width == width && f.height == height && buf != null && BufferSizeFor(width, height) == 0 ==>
               |Packed(f, format)| <= buf.Length
    modifies buf
    ensures f.width != width || f.height != height ==> st == InvalidArgument
    ensures f.width == width && f.height == height ==>
              st == if slot && buf != null && BufferSizeFor(width, height) <= buf.Length && queued then Ok else EncodeFailed
    ensures buf != null && f.width == width && f.height == height && slot && BufferSizeFor(width, height) <= buf.Length ==>
              |Packed(f, format)| <= buf.Length &&
              buf[..] == Packed(f, format) + old(buf[|Packed(f, format)|..])
    ensures buf != null && !(f.width == width && f.height == height && slot && BufferSizeFor(width, height) <= buf.Length) ==>
              buf[..] == old(buf[..])
    // The codec gets the whole frame if the dimensions are even, else nothing of it.
    ensures st == Ok ==> (handed == |Packed(f, format)| <==> width % 2 == 0 && height % 2 == 0)
    ensures st == Ok ==> handed == BufferSizeFor(width, height)
  {
    handed := 0;
    if f.width != width || f.height != height {
      return InvalidArgument, 0;
    }
    if !slot {
      return EncodeFailed, 0;
    }
    var need := BufferSizeFor(width, height);
    if buf == null || buf.Length < need {
      return EncodeFailed, 0;
    }
    PackedFillsBufferIff(f, format);
    Fill(format, f, buf);
    handed := need;
    st := if queued then Ok else EncodeFailed;
  }

  /** The copy part of `QueueInput`. */
  method Fill(format: Format, f: Frame, buf: array<Byte>)
    requires Readable(f, format) && |Packed(f, format)| <= buf.Length
    modifies buf
    ensures buf[..] == Packed(f, format) + old(buf[|Packed(f, format)|..])
  {
    ghost var after := buf[|Packed(f, format)|..];
    CopyRows(buf, [], 0, f.planes[0], Effective(f.stride[0], f.width), f.width, f.height, after);
    if format == I420 {
      FillPlanar(f, buf, after);
    } else {
      FillSemiPlanar(f, buf, after);
    }
  }

  /** The `kNV12` half of `Fill`: interleaved chroma behind the finished luma. */
  method FillSemiPlanar(f: Frame, buf: array<Byte>, ghost after: Plane)
    requires Readable(f, NV12) && |Packed(f, NV12)| + |after| == buf.Length
    requires SoFar(buf[..], 0, [], 0, Luma(f), [], after)
    modifies buf
    ensures buf[..] == Packed(f, NV12) + after
  {
    var uv := f.width * f.height;
    LumaSize(f, NV12);
    CopyRows(buf, Luma(f), uv, f.planes[1], Effective(f.stride[1], f.width), f.width, f.height / 2, after);
    Assemble(buf[..], 0, Luma(f), uv, Interleaved(f), [], after);
    assert [] + Luma(f) == Luma(f);
  }

  /** The `kI420` half of `Fill`: U and V behind the finished luma. */
  method FillPlanar(f: Frame, buf: array<Byte>, ghost after: Plane)
    requires Readable(f, I420) && |Packed(f, I420)| + |after| == buf.Length
    requires SoFar(buf[..], 0, [], 0, Luma(f), [], after)
    modifies buf
    ensures buf[..] == Packed(f, I420) + after
  {
    var u := f.width * f.height;
    var v := u + (f.width / 2) * (f.height / 2);
    LumaSize(f, I420);
    ChromaSize(f);
    CopyChroma(buf, Luma(f), u, f.planes[1], v, f.planes[2],
      Effective(f.stride[1], f.width / 2), f.width / 2, f.height / 2, after);
    Assemble(buf[..], u, Chroma(f, 1), v, Chroma(f, 2), Luma(f), after);
  }

  // ----- What the codec reads back -----

  /** In `kI420` the V rows come out as the caller laid them out, whatever they
      contain, exactly when V uses the stride given for U (or has only one row):
      `QueueInput` never looks at the third stride. */
  lemma VPlaneNeedsStrideOfU(strideU: nat, strideV: nat, width: nat, n: nat)
    requires 0 < width <= strideU && width <= strideV
    ensures (forall plane :: Covers(plane, strideU, width, n) && Covers(plane, strideV, width, n) ==>
               Rows(plane, strideU, width, n) == Rows(plane, strideV, width, n)) <==>
            strideU == strideV || n <= 1
  {
    if n <= 1 && strideU != strideV {
      forall plane ensures Rows(plane, strideU, width, n) == Rows(plane, strideV, width, n) {
        assert Rows(plane, strideU, width, 0) == Rows(plane, strideV, width, 0);
      }
    } else if strideU != strideV {
      StridesDiffer(strideU, strideV, width, n);
    }
  }

  /** A plane that is 1 at the start of the second row under one stride only. */
  lemma StridesDiffer(strideU: nat, strideV: nat, width: nat, n: nat)
    requires 0 < width <= strideU && width <= strideV && strideU != strideV && 2 <= n
    ensures exists plane :: Covers(plane, strideU, width, n) && Covers(plane, strideV, width, n) &&
              Rows(plane, strideU, width, n) != Rows(plane, strideV, width, n)
  {
    var size := n * strideU + n * strideV + width;
    var plane := seq(size, i => if i == strideU then 1 as Byte else 0 as Byte);
    LongEnough(plane, strideU, width, n);
    LongEnough(plane, strideV, width, n);
    Monotone(2, n, strideU);
    Monotone(2, n, strideV);
    RowsTellApart(plane, strideU, strideV, width, n);
  }

  lemma LongEnough(plane: Plane, stride: nat, width: nat, n: nat)
    requires 0 < width && 0 < n && n * stride + width <= |plane|
    ensures Covers(plane, stride, width, n)
  {
    NextMultiple(n - 1, stride);
    CoversMeansLastRowFits(plane, stride, width, n);
  }

  lemma RowsTellApart(plane: Plane, strideU: nat, strideV: nat, width: nat, n: nat)
    requires 0 < width && 2 <= n && Covers(plane, strideU, width, n) && Covers(plane, strideV, width, n)
    requires strideU < |plane| && strideV < |plane| && plane[strideU] != plane[strideV]
    ensures Rows(plane, strideU, width, n) != Rows(plane, strideV, width, n)
  {
    PixelAt(plane, strideU, width, n, 1, 0);
    PixelAt(plane, strideV, width, n, 1, 0);
  }

  /** Pieces that leave no gap make up the buffer. */
  lemma Assemble(s: Plane, u: nat, us: Plane, v: nat, vs: Plane, before: Plane, after: Plane)
    requires SoFar(s, u, us, v, vs, before, after)
    requires u == |before| && v == u + |us| && |s| == v + |vs| + |after|
    ensures s == before + us + vs + after
  {
    assert s == s[..u] + s[u..v] + s[v..v + |vs|] + s[v + |vs|..];
  }
}
