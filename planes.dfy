/**
  De-interleaving a packed RGB24 scanline into three byte planes and interleaving three
  planes back (split_rgb24_to_planes and merge_planes_to_rgb24). A C pointer into a larger
  buffer is modelled by an array and an offset into it.
 */
module Planes {
  import opened Ints

  /** Component c (0 = red, 1 = green, 2 = blue) of the first width pixels of a packed row. */
  function Channel(row: seq<byte>, c: nat, width: nat): (p: seq<byte>)
    requires c < 3 && 3 * width <= |row|
    ensures |p| == width
    ensures forall x :: 0 <= x < width ==> p[x] == row[3 * x + c]
  {
    seq(width, x requires 0 <= x < width => row[3 * x + c])
  }

  /** The packed row whose pixel x is (r[x], g[x], b[x]): three bytes per pixel, in pixel
      order. */
  function Interleave(r: seq<byte>, g: seq<byte>, b: seq<byte>): (m: seq<byte>)
    requires |r| == |g| == |b|
    ensures |m| == 3 * |r|
    ensures forall x :: 0 <= x < |r| ==> m[3 * x] == r[x] && m[3 * x + 1] == g[x] && m[3 * x + 2] == b[x]
    decreases |r|
  {
    if r == [] then [] else [r[0], g[0], b[0]] + Interleave(r[1..], g[1..], b[1..])
  }

  /** Splitting a row and merging the planes back gives the first 3 * width bytes of the row. */
  lemma {:induction false} MergeOfSplit(row: seq<byte>, width: nat)
    requires 3 * width <= |row|
    ensures Interleave(Channel(row, 0, width), Channel(row, 1, width), Channel(row, 2, width)) == row[..3 * width]
  {
    var m := Interleave(Channel(row, 0, width), Channel(row, 1, width), Channel(row, 2, width));
    forall i | 0 <= i < 3 * width
      ensures m[i] == row[i]
    {
      var x, c := i / 3, i % 3;
      assert i == 3 * x + c;
      if c == 0 {
        assert m[3 * x] == Channel(row, 0, width)[x];
      } else if c == 1 {
        assert m[3 * x + 1] == Channel(row, 1, width)[x];
      } else {
        assert m[3 * x + 2] == Channel(row, 2, width)[x];
      }
    }
  }

  /** Merging three planes into a row and splitting that row gives the planes back. */
  lemma {:induction false} SplitOfMerge(r: seq<byte>, g: seq<byte>, b: seq<byte>)
    requires |r| == |g| == |b|
    ensures 3 * |r| <= |Interleave(r, g, b)|
    ensures Channel(Interleave(r, g, b), 0, |r|) == r
    ensures Channel(Interleave(r, g, b), 1, |r|) == g
    ensures Channel(Interleave(r, g, b), 2, |r|) == b
  {
  }

  /** split_rgb24_to_planes on the row that starts at offset off of rgb: writes pixels
      0 .. width-1 of each plane and nothing else. */
  method SplitRgb24ToPlanes(rgb: array<byte>, off: nat, r: array<byte>, g: array<byte>, b: array<byte>, width: nat)
    requires off + 3 * width <= rgb.Length
    requires width <= r.Length && width <= g.Length && width <= b.Length
    requires r != g && g != b && r != b
    requires rgb != r && rgb != g && rgb != b
    modifies r, g, b
    ensures forall x :: 0 <= x < width ==> r[x] == rgb[off + 3 * x] && g[x] == rgb[off + 3 * x + 1] && b[x] == rgb[off + 3 * x + 2]
    ensures forall x :: width <= x < r.Length ==> r[x] == old(r[x])
    ensures forall x :: width <= x < g.Length ==> g[x] == old(g[x])
    ensures forall x :: width <= x < b.Length ==> b[x] == old(b[x])
    ensures r[..width] == Channel(rgb[off..off + 3 * width], 0, width)
    ensures g[..width] == Channel(rgb[off..off + 3 * width], 1, width)
    ensures b[..width] == Channel(rgb[off..off + 3 * width], 2, width)
  {
    for x := 0 to width
      invariant forall i :: 0 <= i < x ==> r[i] == rgb[off + 3 * i] && g[i] == rgb[off + 3 * i + 1] && b[i] == rgb[off + 3 * i + 2]
      invariant forall i :: x <= i < r.Length ==> r[i] == old(r[i])
      invariant forall i :: x <= i < g.Length ==> g[i] == old(g[i])
      invariant forall i :: x <= i < b.Length ==> b[i] == old(b[i])
    {
      r[x] := rgb[3 * x + off];
      g[x] := rgb[3 * x + 1 + off];
      b[x] := rgb[3 * x + 2 + off];
    }
  }

  /** merge_planes_to_rgb24 into the row that starts at offset off of rgb: writes bytes
      off .. off + 3*width - 1 and nothing else. */
  method MergePlanesToRgb24(rgb: array<byte>, off: nat, r: array<byte>, g: array<byte>, b: array<byte>, width: nat)
    requires off + 3 * width <= rgb.Length
    requires width <= r.Length && width <= g.Length && width <= b.Length
    requires rgb != r && rgb != g && rgb != b
    modifies rgb
    ensures forall x :: 0 <= x < width ==> rgb[off + 3 * x] == r[x] && rgb[off + 3 * x + 1] == g[x] && rgb[off + 3 * x + 2] == b[x]
    ensures forall i :: 0 <= i < rgb.Length && !(off <= i < off + 3 * width) ==> rgb[i] == old(rgb[i])
    ensures rgb[off..off + 3 * width] == Interleave(r[..width], g[..width], b[..width])
  {
    for x := 0 to width
      invariant forall i :: 0 <= i < x ==> rgb[off + 3 * i] == r[i] && rgb[off + 3 * i + 1] == g[i] && rgb[off + 3 * i + 2] == b[i]
      invariant forall i :: 0 <= i < rgb.Length && !(off <= i < off + 3 * x) ==> rgb[i] == old(rgb[i])
    {
      rgb[3 * x + off] := r[x];
      rgb[3 * x + 1 + off] := g[x];
      rgb[3 * x + 2 + off] := b[x];
    }
    ghost var m := Interleave(r[..width], g[..width], b[..width]);
    forall i | 0 <= i < 3 * width
      ensures rgb[off + i] == m[i]
    {
      var x, c := i / 3, i % 3;
      assert i == 3 * x + c;
      if c == 0 {
        assert m[3 * x] == r[..width][x];
      } else if c == 1 {
        assert m[3 * x + 1] == g[..width][x];
      } else {
        assert m[3 * x + 2] == b[..width][x];
      }
    }
  }
}
