/**
  Packed 32-bit pixel frames as the capture callback receives them, the
  zero-copy descriptor that the crop builds over a frame's memory, and the
  byte arithmetic that relates the two.
 */
module PixelBuffers {

  /** The packed four-byte formats the capture callback distinguishes. */
  datatype PixelFormat = ARGB32 | BGRA32 | RGBA32

  /** Every supported format stores one pixel in four bytes. */
  const BytesPerPixel: nat := 4

  /** A crop rectangle in whole pixels: origin (`x`, `y`), then its size. */
  datatype Rect = Rect(x: nat, y: nat, width: nat, height: nat)

  /**
    A pixel-buffer descriptor that wraps existing bytes: the byte index of
    its first pixel in the memory it points into, its size in pixels, its
    row stride in bytes and the format it declares.
   */
  datatype View = View(base: nat, width: nat, height: nat, rowBytes: nat, format: PixelFormat)

  /** Index of byte `k` of pixel (`row`, `col`) of a raster whose first byte is `base` and whose rows are `rowBytes` apart. */
  function Address(base: nat, rowBytes: nat, row: nat, col: nat, k: nat): (index: nat)
  {
    base + row * rowBytes + col * BytesPerPixel + k
  }

  /** The crop's start offset: the first byte of the rectangle's origin pixel in the source. */
  function StartOffset(rect: Rect, rowBytes: nat): (start: nat)
    ensures start == Address(0, rowBytes, rect.y, rect.x, 0)
  {
    rect.y * rowBytes + rect.x * BytesPerPixel
  }

  /**
    The rectangle lies inside the memory of a frame with `height` rows of
    `rowBytes` bytes: its rows exist and its right edge does not pass the
    end of a row.
   */
  predicate WithinRows(rect: Rect, rowBytes: nat, height: nat)
  {
    rect.y + rect.height <= height && (rect.x + rect.width) * BytesPerPixel <= rowBytes
  }

  /** Every byte that `v` describes has an index below `length`. */
  ghost predicate ViewInside(v: View, length: nat)
  {
    forall r: nat, c: nat, k: nat :: r < v.height && c < v.width && k < BytesPerPixel ==>
      Address(v.base, v.rowBytes, r, c, k) < length
  }

  /**
    The descriptor the crop builds over a source whose rows are `rowBytes`
    apart: it starts at the rectangle's origin, has the rectangle's size,
    keeps the source's stride and declares BGRA. Byte `k` of its pixel
    (`r`, `c`) is byte `k` of source pixel (`rect.y + r`, `rect.x + c`).
   */
  function CropView(rect: Rect, rowBytes: nat): (v: View)
    ensures v.width == rect.width && v.height == rect.height
    ensures v.rowBytes == rowBytes && v.format == BGRA32
    ensures forall r: nat, c: nat, k: nat ::
      Address(v.base, v.rowBytes, r, c, k) == Address(0, rowBytes, rect.y + r, rect.x + c, k)
  {
    View(StartOffset(rect, rowBytes), rect.width, rect.height, rowBytes, BGRA32)
  }

  /** The row bytes of row `r` of `v` lie inside a memory of `length` bytes. */
  predicate RowInside(v: View, r: nat, length: nat)
  {
    v.base + r * v.rowBytes + v.width * BytesPerPixel <= length
  }

  /** The bytes of row `r` of `v`, pixel after pixel, read through the descriptor from `mem`. */
  function ViewRow(mem: seq<bv8>, v: View, r: nat): (row: seq<bv8>)
    requires RowInside(v, r, |mem|)
    ensures |row| == v.width * BytesPerPixel
  {
    seq(v.width * BytesPerPixel, j requires 0 <= j < v.width * BytesPerPixel =>
      mem[Address(v.base, v.rowBytes, r, j / BytesPerPixel, j % BytesPerPixel)])
  }

  /** Multiplying by a natural number keeps the order of natural numbers. */
  lemma {:induction false} MulMonotonic(a: nat, b: nat, n: nat)
    requires a <= b
    ensures a * n <= b * n
  {
    if a < b {
      MulMonotonic(a, b - 1, n);
      assert b * n == (b - 1) * n + n;
    }
  }

  /** In row-major order with rows `n` apart, an earlier row ends before a later row begins. */
  lemma RowMajorOrder(a: nat, b: nat, a': nat, b': nat, n: nat)
    requires b < n && a < a'
    ensures a * n + b < a' * n + b'
  {
    MulMonotonic(a + 1, a', n);
    assert (a + 1) * n == a * n + n;
  }

  /** Every byte of a crop view that lies within the rows of its source is a byte of the source's memory. */
  lemma CropViewInsideFrame(rect: Rect, rowBytes: nat, height: nat)
    requires WithinRows(rect, rowBytes, height)
    ensures ViewInside(CropView(rect, rowBytes), rowBytes * height)
  {
    var v := CropView(rect, rowBytes);
    forall r: nat, c: nat, k: nat | r < v.height && c < v.width && k < BytesPerPixel
      ensures Address(v.base, v.rowBytes, r, c, k) < rowBytes * height
    {
      assert (rect.x + c) * BytesPerPixel + k < (rect.x + rect.width) * BytesPerPixel;
      RowMajorOrder(rect.y + r, (rect.x + c) * BytesPerPixel + k, height, 0, rowBytes);
      assert height * rowBytes == rowBytes * height;
    }
  }

  /**
    Distinct pixel bytes of a crop view are distinct bytes of the source:
    the view never aliases itself, so it shows each selected source byte once.
   */
  lemma CropViewInjective(rect: Rect, rowBytes: nat, r1: nat, c1: nat, k1: nat, r2: nat, c2: nat, k2: nat)
    requires (rect.x + rect.width) * BytesPerPixel <= rowBytes
    requires c1 < rect.width && c2 < rect.width && k1 < BytesPerPixel && k2 < BytesPerPixel
    requires (r1, c1, k1) != (r2, c2, k2)
    ensures var v := CropView(rect, rowBytes);
      Address(v.base, v.rowBytes, r1, c1, k1) != Address(v.base, v.rowBytes, r2, c2, k2)
  {
    var b1 := (rect.x + c1) * BytesPerPixel + k1;
    var b2 := (rect.x + c2) * BytesPerPixel + k2;
    assert b1 < rowBytes && b2 < rowBytes;
    if r1 < r2 {
      RowMajorOrder(rect.y + r1, b1, rect.y + r2, b2, rowBytes);
    } else if r2 < r1 {
      RowMajorOrder(rect.y + r2, b2, rect.y + r1, b1, rowBytes);
    } else if c1 < c2 {
      RowMajorOrder(rect.x + c1, k1, rect.x + c2, k2, BytesPerPixel);
    } else if c2 < c1 {
      RowMajorOrder(rect.x + c2, k2, rect.x + c1, k1, BytesPerPixel);
    }
  }

  /**
    Each row of a crop view is one contiguous run of source bytes: the
    `width * 4` bytes that start at the row's first selected pixel. Rows of
    the view are `rowBytes` apart in the source, so the view is the source
    rectangle row for row without any byte being copied.
   */
  lemma CropRowIsSourceSlice(mem: seq<bv8>, rect: Rect, rowBytes: nat, height: nat, r: nat)
    requires WithinRows(rect, rowBytes, height) && rowBytes * height <= |mem|
    requires r < rect.height
    ensures RowInside(CropView(rect, rowBytes), r, |mem|)
    ensures ViewRow(mem, CropView(rect, rowBytes), r)
         == mem[Address(0, rowBytes, rect.y + r, rect.x, 0)..Address(0, rowBytes, rect.y + r, rect.x + rect.width, 0)]
  {
    var v := CropView(rect, rowBytes);
    MulMonotonic(rect.y + r + 1, height, rowBytes);
    assert (rect.y + r + 1) * rowBytes == (rect.y + r) * rowBytes + rowBytes;
    assert height * rowBytes == rowBytes * height;
    assert RowInside(v, r, |mem|);
    var first := Address(0, rowBytes, rect.y + r, rect.x, 0);
    var row := ViewRow(mem, v, r);
    forall j | 0 <= j < |row|
      ensures row[j] == mem[first + j]
    {
      assert Address(v.base, v.rowBytes, r, j / BytesPerPixel, j % BytesPerPixel) == first + j;
    }
  }

  /**
    A frame of packed pixels: its memory, its size in pixels, its row
    stride, its format, whether its memory exposes a base address, and how
    many read-only locks are held on it.
   */
  class PixelBuffer {
    const data: array<bv8>
    const width: nat
    const height: nat
    const rowBytes: nat
    const format: PixelFormat
    const hasBaseAddress: bool
    var readLocks: nat

    /** Rows hold at least `width` pixels and the memory holds every row. */
    ghost predicate Valid()
    {
      width * BytesPerPixel <= rowBytes && rowBytes * height <= data.Length
    }

    constructor (data: array<bv8>, width: nat, height: nat, rowBytes: nat, format: PixelFormat, hasBaseAddress: bool)
      requires width * BytesPerPixel <= rowBytes && rowBytes * height <= data.Length
      ensures Valid() && readLocks == 0
      ensures this.data == data && this.width == width && this.height == height
      ensures this.rowBytes == rowBytes && this.format == format && this.hasBaseAddress == hasBaseAddress
    {
      this.data := data;
      this.width := width;
      this.height := height;
      this.rowBytes := rowBytes;
      this.format := format;
      this.hasBaseAddress := hasBaseAddress;
      readLocks := 0;
    }
  }
}
