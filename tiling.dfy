/**
 * The tiling of the render target (src/tiling.rs): with size 1 every filter
 * renders full-frame and two textures ping-pong by parity; with a larger size
 * the target is a size-by-size grid of width-by-height cells, filter f drawing
 * into cell f in row-major order and reading the cell of filter f - 1.
 */
module Tiling {
  import opened Common

  /** A pair of f32 values; every value here is a small whole number or a ratio, so it is kept exact. */
  datatype Vec2 = Vec2(x: real, y: real)

  /** The arguments of `render_pass.set_viewport`: origin, extent and depth range. */
  datatype Viewport = Viewport(x: real, y: real, w: real, h: real, minDepth: real, maxDepth: real)

  datatype Tiling = Tiling(height: u32, size: u32, width: u32)

  /** A u32 product as release builds compute it: modulo 2^32. */
  function Mul32(a: u32, b: u32): (r: u32)
    ensures a * b < 0x1_0000_0000 ==> r == a * b
  {
    var product: int := a * b;
    if product < 0x1_0000_0000 then product else product % 0x1_0000_0000
  }

  /** `Tiling::image_read`: a grid always reads the image; a single tile only on an even filter count. */
  function ImageRead(t: Tiling, filters: u32): (r: bool)
    ensures t.size != 1 ==> r
    ensures t.size == 1 ==> (r <==> !SourceRead(t, filters))
  {
    if t.size == 1 then filters % 2 == 0 else true
  }

  /** `Tiling::source_read`: a grid always reads the source; a single tile only on an odd filter count. */
  function SourceRead(t: Tiling, filters: u32): (r: bool)
    ensures t.size != 1 ==> r
    ensures t.size == 1 ==> (r <==> filters % 2 == 1)
  {
    if t.size == 1 then filters % 2 == 1 else true
  }

  /** `Tiling::offset`: the top-left corner of filter f's cell; `%` and `/` by a zero size panic. */
  function Offset(t: Tiling, f: u32): (r: Vec2)
    requires t.size != 0
    ensures 0.0 <= r.x < 0x1_0000_0000 as real && r.x == r.x.Floor as real
    ensures 0.0 <= r.y < 0x1_0000_0000 as real && r.y == r.y.Floor as real
  {
    if t.size == 1 then Vec2(0.0, 0.0)
    else
      var col, row := f % t.size, f / t.size;
      Vec2(Mul32(t.width, col) as real, Mul32(t.height, row) as real)
  }

  /** `Tiling::resolution`: the cell extent, in whole pixels. */
  function Resolution(t: Tiling): (r: Vec2)
    ensures r.x.Floor == t.width as int && r.y.Floor == t.height as int
    ensures r.x == r.x.Floor as real && r.y == r.y.Floor as real
  {
    Vec2(t.width as real, t.height as real)
  }

  /** `Tiling::set_viewport`: the viewport it sets on the render pass, or None when it returns early. */
  function SetViewport(t: Tiling, f: u32): (r: Option<Viewport>)
    requires t.size != 0
    ensures r.Some? <==> t.size != 1
    ensures r.Some? ==> Vec2(r.value.w, r.value.h) == Resolution(t) && r.value.minDepth == 0.0 && r.value.maxDepth == 0.0
  {
    if t.size == 1 then None
    else
      var col, row := f % t.size, f / t.size;
      Some(Viewport(Mul32(col, t.width) as real, Mul32(row, t.height) as real, t.width as real, t.height as real, 0.0, 0.0))
  }

  /**
   * `Tiling::source_offset`: the cell of filter f - 1 in texture coordinates.
   * Filter 0 has no predecessor and returns before the division, so only a
   * later filter needs a non-zero size.
   */
  function SourceOffset(t: Tiling, f: u32): (r: Vec2)
    requires t.size != 0 || f == 0
    ensures f == 0 ==> r == Vec2(0.0, 0.0)
  {
    if t.size == 1 || f == 0 then Vec2(0.0, 0.0)
    else
      var g := f - 1;
      var row, col := g / t.size, g % t.size;
      Vec2(col as real / t.size as real, row as real / t.size as real)
  }

  /** A single tile: the two reads alternate with the filter count's parity, so exactly one holds. */
  lemma SingleTileParity(t: Tiling, k: u32)
    requires t.size == 1
    ensures ImageRead(t, k) <==> k % 2 == 0
    ensures SourceRead(t, k) <==> k % 2 == 1
    ensures ImageRead(t, k) != SourceRead(t, k)
  {
  }

  /** A grid (or a zero size): both reads always hold. */
  lemma GridReadsBoth(t: Tiling, k: u32)
    requires t.size != 1
    ensures ImageRead(t, k) && SourceRead(t, k)
  {
  }

  /** Whatever the size and count, at least one read happens. */
  lemma SomeRead(t: Tiling, k: u32)
    ensures ImageRead(t, k) || SourceRead(t, k)
  {
    if t.size == 1 {
      SingleTileParity(t, k);
    }
  }

  /** Filter f's cell is column f mod size and row f div size, scaled by the cell extent. */
  lemma OffsetIsCell(t: Tiling, f: u32)
    requires t.size > 1
    requires t.width * (f % t.size) < 0x1_0000_0000 && t.height * (f / t.size) < 0x1_0000_0000
    ensures Offset(t, f) == Vec2((t.width * (f % t.size)) as real, (t.height * (f / t.size)) as real)
  {
  }

  /** A single tile always draws at the origin. */
  lemma SingleTileOffset(t: Tiling, f: u32)
    requires t.size == 1
    ensures Offset(t, f) == Vec2(0.0, 0.0) && SourceOffset(t, f) == Vec2(0.0, 0.0)
    ensures SetViewport(t, f) == None
  {
  }

  /** On a grid the viewport's origin is the cell's offset. */
  lemma ViewportIsCell(t: Tiling, f: u32)
    requires t.size > 1
    ensures SetViewport(t, f).Some? && Vec2(SetViewport(t, f).value.x, SetViewport(t, f).value.y) == Offset(t, f)
  {
    var col, row := f % t.size, f / t.size;
    assert t.width * col == col * t.width;
    assert t.height * row == row * t.height;
  }

  /** Texture coordinates are fractions of the grid: in [0, 1) across and at least 0 down. */
  lemma SourceOffsetInUnit(t: Tiling, f: u32)
    requires t.size != 0 || f == 0
    ensures 0.0 <= SourceOffset(t, f).x < 1.0
    ensures 0.0 <= SourceOffset(t, f).y
  {
    if t.size != 1 && f != 0 {
      var g := f - 1;
      var col := g % t.size;
      assert (col as real) < (t.size as real);
      DivBelowOne(col as real, t.size as real);
    }
  }

  lemma DivBelowOne(a: real, b: real)
    requires 0.0 <= a < b
    ensures 0.0 <= a / b < 1.0
  {
  }

  /**
   * Filter f reads the cell filter f - 1 drew: scaled back by the grid size,
   * its source offset is the column and row of that cell, and scaled by the
   * whole target's extent it is that cell's pixel offset.
   */
  lemma SourceIsPreviousCell(t: Tiling, f: u32)
    requires t.size > 1 && f >= 1
    requires t.width * ((f - 1) % t.size) < 0x1_0000_0000 && t.height * ((f - 1) / t.size) < 0x1_0000_0000
    ensures SourceOffset(t, f).x * t.size as real == ((f - 1) % t.size) as real
    ensures SourceOffset(t, f).y * t.size as real == ((f - 1) / t.size) as real
    ensures SourceOffset(t, f).x * (t.size as real * t.width as real) == Offset(t, f - 1).x
    ensures SourceOffset(t, f).y * (t.size as real * t.height as real) == Offset(t, f - 1).y
  {
    var g := f - 1;
    var col, row := g % t.size, g / t.size;
    var n := t.size as real;
    RatioTimes(col as real, n, t.width as real);
    RatioTimes(row as real, n, t.height as real);
    OffsetIsCell(t, g);
  }

  /** (a / n) * (n * w) == a * w */
  lemma RatioTimes(a: real, n: real, w: real)
    requires n > 0.0
    ensures (a / n) * n == a
    ensures (a / n) * (n * w) == a * w
  {
    calc {
      (a / n) * (n * w);
      ((a / n) * n) * w;
      a * w;
    }
  }
}
