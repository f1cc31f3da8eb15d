/**
  The persistent state config_input allocates: six grids of float rows (an accumulator and a
  burn-in grid per channel, float ** in the source) and six byte planes for one line of each
  channel before and after processing.
 */
module Grids {
  import opened Ints
  import opened Accumulate

  /** Six pairwise distinct objects. */
  predicate Distinct6<T(==)>(a: T, b: T, c: T, d: T, e: T, f: T)
  {
    && a != b && a != c && a != d && a != e && a != f
    && b != c && b != d && b != e && b != f
    && c != d && c != e && c != f
    && d != e && d != f
    && e != f
  }

  /** sizeof(float *) on a 64-bit target. */
  const FLOAT_PTR_SIZE: nat := 8

  /** Bytes config_input allocates for each scratch plane src_r .. out_b: height * sizeof(float *). */
  function ScratchBytesAsWritten(height: nat): nat
  {
    height * FLOAT_PTR_SIZE
  }

  /** Floats config_input allocates for each row of a grid: width. */
  function RowFloatsAsWritten(width: nat): nat
  {
    width
  }

  /** The scratch planes as allocated are too short for the plane loop, which reads and writes
      PlaneLen(width) bytes of them, whenever width exceeds 8 * height. */
  lemma ScratchAsWrittenTooShort(width: nat, height: nat)
    requires FLOAT_PTR_SIZE * height < width
    ensures ScratchBytesAsWritten(height) < PlaneLen(width)
  {
  }

  /** For example a 1920 x 200 frame: 1600 scratch bytes against 1920 touched. */
  lemma ScratchAsWrittenTooShortAt1920x200()
    ensures ScratchBytesAsWritten(200) == 1600 && PlaneLen(1920) == 1920
  {
  }

  /** A grid row as allocated is too short for the plane loop, which reads and writes
      PlaneLen(width) floats of it, whenever width is not a multiple of eight. */
  lemma RowAsWrittenTooShort(width: nat)
    requires width % LANES != 0
    ensures RowFloatsAsWritten(width) < PlaneLen(width)
  {
  }

  /** g is a grid of h rows of n entries whose row y carries the tag (c, y); rows with
      different tags are different arrays. */
  ghost predicate IsGrid(g: seq<array<real>>, h: nat, n: nat, tag: map<array<real>, (nat, nat)>, c: nat)
  {
    && |g| == h
    && forall y :: 0 <= y < h ==> g[y].Length == n && g[y] in tag && tag[g[y]] == (c, y)
  }

  /** Every entry of every row of a grid is zero. */
  ghost predicate RowsZeroed(g: seq<array<real>>)
    reads g
  {
    forall y, x :: 0 <= y < |g| && 0 <= x < g[y].Length ==> g[y][x] == 0.0
  }

  /** Every byte of a plane is zero. */
  ghost predicate PlaneZeroed(p: array<byte>)
    reads p
  {
    forall x :: 0 <= x < p.Length ==> p[x] == 0
  }

  /** An allocation loop of config_input for one grid: h rows of n zeroed floats, row y tagged
      (c, y) in tag, which extends tag0. */
  method NewGrid(h: nat, n: nat, c: nat, ghost tag0: map<array<real>, (nat, nat)>)
    returns (g: seq<array<real>>, ghost tag: map<array<real>, (nat, nat)>)
    ensures IsGrid(g, h, n, tag, c)
    ensures forall y :: 0 <= y < h ==> fresh(g[y])
    ensures RowsZeroed(g)
    ensures forall o :: o in tag0 ==> o in tag && tag[o] == tag0[o]
  {
    g, tag := [], tag0;
    for y := 0 to h
      invariant IsGrid(g, y, n, tag, c)
      invariant forall i :: 0 <= i < y ==> fresh(g[i])
      invariant RowsZeroed(g)
      invariant forall o :: o in tag0 ==> o in tag && tag[o] == tag0[o]
    {
      var row := new real[n](_ => 0.0);
      g := g + [row];
      tag := tag[row := (c, y)];
    }
  }

  /** av_mallocz for a scratch plane of n bytes. */
  method NewPlane(n: nat) returns (p: array<byte>)
    ensures fresh(p) && p.Length == n
    ensures PlaneZeroed(p)
  {
    p := new byte[n](_ => 0);
  }

  /** The arrays of an instance for w x h frames: six grids of h rows of PlaneLen(w) floats
      whose rows are told apart by tag (grid c, row y), and six different scratch planes of
      PlaneLen(w) bytes. */
  ghost predicate Allocated(w: nat, h: nat, tag: map<array<real>, (nat, nat)>,
                            aR: seq<array<real>>, aG: seq<array<real>>, aB: seq<array<real>>,
                            bR: seq<array<real>>, bG: seq<array<real>>, bB: seq<array<real>>,
                            sR: array<byte>, sG: array<byte>, sB: array<byte>,
                            oR: array<byte>, oG: array<byte>, oB: array<byte>)
  {
    var n := PlaneLen(w);
    && IsGrid(aR, h, n, tag, 0) && IsGrid(aG, h, n, tag, 1) && IsGrid(aB, h, n, tag, 2)
    && IsGrid(bR, h, n, tag, 3) && IsGrid(bG, h, n, tag, 4) && IsGrid(bB, h, n, tag, 5)
    && sR.Length == n && sG.Length == n && sB.Length == n
    && oR.Length == n && oG.Length == n && oB.Length == n
    && Distinct6(sR, sG, sB, oR, oG, oB)
  }

  /** The allocations of config_input for w x h frames: the six grids and the six scratch
      planes, all new and zeroed. */
  method Allocate(w: nat, h: nat)
    returns (ghost tag: map<array<real>, (nat, nat)>,
             aR: seq<array<real>>, aG: seq<array<real>>, aB: seq<array<real>>,
             bR: seq<array<real>>, bG: seq<array<real>>, bB: seq<array<real>>,
             sR: array<byte>, sG: array<byte>, sB: array<byte>,
             oR: array<byte>, oG: array<byte>, oB: array<byte>)
    ensures Allocated(w, h, tag, aR, aG, aB, bR, bG, bB, sR, sG, sB, oR, oG, oB)
    ensures RowsZeroed(aR) && RowsZeroed(aG) && RowsZeroed(aB)
    ensures RowsZeroed(bR) && RowsZeroed(bG) && RowsZeroed(bB)
    ensures PlaneZeroed(sR) && PlaneZeroed(sG) && PlaneZeroed(sB)
    ensures PlaneZeroed(oR) && PlaneZeroed(oG) && PlaneZeroed(oB)
    ensures forall y :: 0 <= y < h ==> fresh(aR[y]) && fresh(aG[y]) && fresh(aB[y])
    ensures forall y :: 0 <= y < h ==> fresh(bR[y]) && fresh(bG[y]) && fresh(bB[y])
    ensures fresh(sR) && fresh(sG) && fresh(sB) && fresh(oR) && fresh(oG) && fresh(oB)
  {
    var n := PlaneLen(w);
    ghost var t0, t1, t2, t3, t4;
    aR, t0 := NewGrid(h, n, 0, map[]);
    aG, t1 := NewGrid(h, n, 1, t0);
    aB, t2 := NewGrid(h, n, 2, t1);
    bR, t3 := NewGrid(h, n, 3, t2);
    bG, t4 := NewGrid(h, n, 4, t3);
    bB, tag := NewGrid(h, n, 5, t4);
    sR := NewPlane(n);
    sG := NewPlane(n);
    sB := NewPlane(n);
    oR := NewPlane(n);
    oG := NewPlane(n);
    oB := NewPlane(n);
  }
}
