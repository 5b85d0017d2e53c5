/** Which blocks allocation takes, and which bitmap blocks that touches: balloc takes the first free block. */
module FirstFit {
  import opened Layout
  import opened Blocks
  import opened FileTree
  import opened FileGrow
  import opened Transaction

  /** The bitmap block that holds the bit of `x`. */
  function MapBlock(x: nat): (m: nat) {
    BMAPSTART + x / BPB
  }

  function MapBlocks(s: set<nat>): (m: set<nat>) {
    set x | x in s :: MapBlock(x)
  }

  /** Blocks marked in `c` that were free in `b`. */
  function Taken(b: seq<Block>, c: seq<Block>): (s: set<nat>)
    requires |b| == FSSIZE && |c| == FSSIZE
  {
    set x: nat | x < FSSIZE && Used(c, x) && !Used(b, x)
  }

  /** From blocks `b` with `l` logged to blocks `c` with `m` logged: nothing was freed, the blocks taken are the first
      free ones, and the bitmap blocks logged are those of the blocks taken. */
  ghost predicate Charged(b: seq<Block>, l: set<nat>, c: seq<Block>, m: set<nat>) {
    && |b| == FSSIZE && |c| == FSSIZE && l <= m
    && (forall x: nat :: x < FSSIZE && Used(b, x) ==> Used(c, x))
    && (forall x, y: nat :: x in Taken(b, c) && y < x ==> Used(c, y))
    && (forall x :: x in m && IsBitmap(x) ==> x in l || x in MapBlocks(Taken(b, c)))
    && (forall x :: x in Taken(b, c) ==> x in m && MapBlock(x) in m)
  }

  lemma ChargedNothing(b: seq<Block>, l: set<nat>)
    requires |b| == FSSIZE
    ensures Charged(b, l, b, l)
  {
    hide Used;
  }

  lemma ChargedAlloc(b: seq<Block>, l: set<nat>, x: nat)
    requires |b| == FSSIZE && NMETA <= x < FSSIZE && !Used(b, x) && forall y: nat :: y < x ==> Used(b, y)
    ensures Charged(b, l, Allocated(b, x), l + {MapBlock(x), x})
  {
    hide Used, Allocated;
    var c := Allocated(b, x);
    forall y: nat | y < FSSIZE ensures Used(c, y) == (y == x || Used(b, y)) { UsedAfterAllocated(b, x, y); }
    assert Taken(b, c) == {x};
    assert MapBlock(x) in MapBlocks({x});
  }

  /** Writing a block that is not a bitmap block. */
  lemma ChargedWrite(b: seq<Block>, l: set<nat>, c: seq<Block>, m: set<nat>, x: nat, data: Block)
    requires Charged(b, l, c, m) && x < FSSIZE && !IsBitmap(x)
    ensures Charged(b, l, c[x := data], m + {x})
  {
    var d: seq<Block> := c[x := data];
    SameBits(c, x, data);
    hide Used;
    assert forall y: nat :: y < FSSIZE ==> Used(d, y) == Used(c, y);
    assert Taken(b, d) == Taken(b, c);
  }

  lemma SameBits(c: seq<Block>, x: nat, data: Block)
    requires |c| == FSSIZE && x < FSSIZE && !IsBitmap(x)
    ensures forall y: nat :: y < FSSIZE ==> Used(c[x := data], y) == Used(c, y)
  {
    hide Bit;
  }

  lemma ChargedTrans(b: seq<Block>, l: set<nat>, c: seq<Block>, m: set<nat>, d: seq<Block>, n: set<nat>)
    requires Charged(b, l, c, m) && Charged(c, m, d, n)
    ensures Charged(b, l, d, n)
  {
    hide Used;
    assert Taken(b, d) == Taken(b, c) + Taken(c, d);
    MapBlocksJoin(Taken(b, c), Taken(c, d));
    hide MapBlocks;
  }

  lemma MapBlocksJoin(s: set<nat>, t: set<nat>)
    ensures MapBlocks(s + t) == MapBlocks(s) + MapBlocks(t)
  {
  }

  function FreeBlocks(b: seq<Block>): (s: set<nat>)
    requires |b| == FSSIZE
  {
    set x: nat | x < FSSIZE && !Used(b, x)
  }

  /** When a disk has become full, what was taken is all that was free. */
  lemma AllTaken(b: seq<Block>, c: seq<Block>)
    requires |b| == FSSIZE && |c| == FSSIZE && forall x: nat :: x < FSSIZE ==> Used(c, x)
    ensures FreeBlocks(b) == Taken(b, c)
  {
    hide Used;
  }

  /** The first `n` free blocks from block `x` on. */
  function FirstFree(b: seq<Block>, x: nat, n: nat): (s: set<nat>)
    requires |b| == FSSIZE && x <= FSSIZE
    decreases FSSIZE - x
  {
    if x == FSSIZE || n == 0 then {}
    else if Used(b, x) then FirstFree(b, x + 1, n)
    else {x} + FirstFree(b, x + 1, n - 1)
  }

  /** A set of free blocks that leaves out none below any of its own is the first free ones. */
  lemma {:induction false} FirstOnes(b: seq<Block>, x: nat, n: nat, s: set<nat>)
    requires |b| == FSSIZE && x <= FSSIZE && |s| <= n
    requires forall y :: y in s ==> x <= y < FSSIZE && !Used(b, y)
    requires forall y, z: nat :: y in s && x <= z < y && !Used(b, z) ==> z in s
    ensures s <= FirstFree(b, x, n) && (|s| == n ==> s == FirstFree(b, x, n))
    decreases FSSIZE - x
  {
    hide Used;
    if x == FSSIZE || n == 0 {
      assert s == {};
    } else if Used(b, x) {
      FirstOnes(b, x + 1, n, s);
    } else if x in s {
      FirstOnes(b, x + 1, n - 1, s - {x});
    } else {
      assert s == {};
    }
  }

  /** More blocks mean more of the first free ones. */
  lemma {:induction false} FirstFreeGrows(b: seq<Block>, x: nat, m: nat, n: nat)
    requires |b| == FSSIZE && x <= FSSIZE && m <= n
    ensures FirstFree(b, x, m) <= FirstFree(b, x, n)
    decreases FSSIZE - x
  {
    hide Used;
    if x < FSSIZE && m > 0 {
      if Used(b, x) { FirstFreeGrows(b, x + 1, m, n); } else { FirstFreeGrows(b, x + 1, m - 1, n - 1); }
    }
  }

  /** The size of a transaction, exactly: besides the other blocks, the bitmap blocks of the first free blocks, as many
      as it took. */
  lemma ExactSize(b: seq<Block>, c: seq<Block>, m: set<nat>)
    requires Charged(b, {}, c, m)
    ensures Taken(b, c) == FirstFree(b, 0, |Taken(b, c)|)
    ensures BitmapPart(m) == MapBlocks(FirstFree(b, 0, |Taken(b, c)|))
    ensures |m| == |NonBitmap(m)| + |MapBlocks(FirstFree(b, 0, |Taken(b, c)|))|
  {
    var s := Taken(b, c);
    FirstOnes(b, 0, |s|, s);
    hide Used;
    BitmapShare(m);
    forall x | x in MapBlocks(s) ensures x in m && IsBitmap(x) {
      var y :| y in s && x == MapBlock(y);
    }
    assert BitmapPart(m) == MapBlocks(s);
  }
}
