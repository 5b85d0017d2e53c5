/** What a transaction owes the log: every block it changed has been passed to log_write. */
module Transaction {
  import opened Layout
  import opened Blocks
  import opened Indexing

  ghost function NonBitmap(logged: set<nat>): (s: set<nat>) {
    set x | x in logged && !IsBitmap(x)
  }

  ghost function BitmapPart(logged: set<nat>): (s: set<nat>) {
    set x | x in logged && IsBitmap(x)
  }

  /** Bitmap blocks add at most 25 to any set of blocks. */
  lemma BitmapShare(logged: set<nat>)
    ensures |logged| == |NonBitmap(logged)| + |BitmapPart(logged)| && |BitmapPart(logged)| <= NBITMAP
  {
    assert logged == NonBitmap(logged) + BitmapPart(logged);
    RangeSize(BMAPSTART, NBITMAP);
    SubsetSize(BitmapPart(logged), Range(BMAPSTART, NBITMAP));
  }

  /** From blocks `b` with `l` logged to blocks `c` with `m` logged. */
  ghost predicate Covers(b: seq<Block>, l: set<nat>, c: seq<Block>, m: set<nat>) {
    && |b| == FSSIZE && |c| == FSSIZE && l <= m
    && (forall x :: x in m ==> x in l || Home(x))
    && (forall x: nat :: x < FSSIZE && x !in m ==> c[x] == b[x])
  }

  lemma CoversNothing(b: seq<Block>, l: set<nat>)
    requires |b| == FSSIZE
    ensures Covers(b, l, b, l)
  {
  }

  lemma CoversWrite(b: seq<Block>, l: set<nat>, c: seq<Block>, m: set<nat>, x: nat, data: Block)
    requires Covers(b, l, c, m) && x < FSSIZE && Home(x)
    ensures Covers(b, l, c[x := data], m + {x})
  {
  }

  lemma CoversTrans(b: seq<Block>, l: set<nat>, c: seq<Block>, m: set<nat>, d: seq<Block>, n: set<nat>)
    requires Covers(b, l, c, m) && Covers(c, m, d, n)
    ensures Covers(b, l, d, n)
  {
  }

  /** One transaction: the blocks as file system code saw them at begin_op and at end_op, and those it logged. */
  datatype Tx = Tx(before: seq<Block>, logged: set<nat>, after: seq<Block>)
}
