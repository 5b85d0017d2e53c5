/** How many distinct blocks one transaction of writei logs, told from the file system before it. */
module TransactionSize {
  import opened Layout
  import opened Blocks
  import opened Indexing
  import opened Transaction
  import opened FirstFit
  import opened FileTree
  import opened FileGrow
  import opened FileNodes
  import opened BlockMap
  import opened FileContent
  import opened FileFree
  import opened InodeTable

  const MAXCHUNK := 9216             // ((MAXOPBLOCKS - 1 - 1 - 2) / 2) * 512
  const MAXTAKEN := 24

  // ---------- the size, from numbers known before ----------

  /** The positions on the way to the `n` file blocks from `a` on that hold no block while the file has `ext` blocks. */
  function NewPos(ext: nat, a: nat, n: nat): (s: set<Pos>)
    requires a + n <= MAXFILE
  {
    set p | p in Window(a, n) && p.k < NROOTS && First(p) >= ext
  }

  /** The index blocks that get a pointer to one of them. */
  function Gainers(s: set<Pos>): (r: set<Pos>) {
    set p | p in s && !Top(p) :: Up(p)
  }

  /** Free blocks that writing `len` bytes at `off` needs while the file has `size` bytes. */
  function Need(size: nat, off: nat, len: nat): (n: nat)
    requires off + len <= MAXBYTES
  {
    WindowBound(off, len);
    |NewPos(SizeBlocks(size), off / BSIZE, Touched(off, len))|
  }

  /** Blocks it logs besides bitmap blocks: the file blocks touched, the index blocks that get a pointer, and the
      inode's block if the file grows. */
  function OtherBlocks(size: nat, off: nat, len: nat): (n: nat)
    requires off + len <= MAXBYTES
  {
    WindowBound(off, len);
    Touched(off, len) + |Gainers(NewPos(SizeBlocks(size), off / BSIZE, Touched(off, len)))|
    + if len > 0 && off + len > size then 1 else 0
  }

  /** The size of the transaction on disk `b`: the bitmap blocks are those of the first free blocks. */
  function TxSize(b: seq<Block>, size: nat, off: nat, len: nat): (n: nat)
    requires |b| == FSSIZE && off + len <= MAXBYTES
  {
    OtherBlocks(size, off, len) + |MapBlocks(FirstFree(b, 0, Need(size, off, len)))|
  }

  lemma WindowBound(off: nat, len: nat)
    requires off + len <= MAXBYTES
    ensures off / BSIZE + Touched(off, len) <= MAXFILE
  {
  }

  /** A chunk needs at most 24 free blocks and logs at most 25 blocks besides bitmap blocks. */
  lemma ChunkBounds(size: nat, off: nat, len: nat)
    requires len <= MAXCHUNK && off + len <= MAXBYTES
    ensures Need(size, off, len) <= MAXTAKEN && OtherBlocks(size, off, len) <= 25
  {
    WindowBound(off, len);
    var a, n, ext := off / BSIZE, Touched(off, len), SizeBlocks(size);
    assert n <= 19;
    UpperSize(a, n);
    LeavesAre(a, n);
    var s := NewPos(ext, a, n);
    forall u | u in Gainers(s) ensures u in Upper(Window(a, n)) {
      var p :| p in s && !Top(p) && Up(p) == u;
      WindowInTree(a, n, p);
    }
    hide Leaves, Window, First;
    assert s <= Leaves(a, n) + Upper(Window(a, n));
    hide NewPos, Gainers, Upper;
    SubsetSize(s, Leaves(a, n) + Upper(Window(a, n)));
    SubsetSize(Gainers(s), Upper(Window(a, n)));
    assert |Leaves(a, n) + Upper(Window(a, n))| <= |Leaves(a, n)| + |Upper(Window(a, n))|;
  }

  /** Overwriting within the blocks a file has needs none and logs the blocks touched, and the inode's if the size
      changes within the last block; so it fits on any disk. */
  lemma OverwriteSize(b: seq<Block>, size: nat, off: nat, len: nat)
    requires |b| == FSSIZE && off + len <= MAXBYTES && off / BSIZE + Touched(off, len) <= SizeBlocks(size)
    ensures Need(size, off, len) == 0
    ensures TxSize(b, size, off, len) == Touched(off, len) + if len > 0 && off + len > size then 1 else 0
    ensures len <= MAXCHUNK ==> TxSize(b, size, off, len) <= 20
  {
    WindowBound(off, len);
    var a, n, ext := off / BSIZE, Touched(off, len), SizeBlocks(size);
    forall p | p in Window(a, n) ensures InTree(p) && First(p) < ext { WindowInTree(a, n, p); }
    hide Window, First;
    assert NewPos(ext, a, n) == {};
    assert Gainers({}) == {};
    hide NewPos, Gainers;
    assert MapBlocks({}) == {};
  }

  /** A chunk whose new blocks lie in at most 15 bitmap blocks stays within MAXOPBLOCKS. */
  lemma FewMapsFit(b: seq<Block>, size: nat, off: nat, len: nat)
    requires |b| == FSSIZE && len <= MAXCHUNK && off + len <= MAXBYTES
    requires |MapBlocks(FirstFree(b, 0, Need(size, off, len)))| <= 15
    ensures TxSize(b, size, off, len) <= MAXOPBLOCKS
  {
    ChunkBounds(size, off, len);
    hide Need, OtherBlocks;
  }

  // ---------- the same from the state before ----------

  /** The positions on the way to the `n` file blocks from `a` on that hold no block yet. */
  ghost function Missing(f: Fs, i: nat, a: nat, n: nat): (s: set<Pos>)
    requires Shaped(f) && i < NINODES && a + n <= MAXFILE
  {
    set p | p in Window(a, n) && Node(f, i, p) == 0
  }

  lemma MissingBySize(f: Fs, i: nat, a: nat, n: nat, ext: nat)
    requires Shaped(f) && i < NINODES && a + n <= MAXFILE && Tight(f, i, ext)
    ensures Missing(f, i, a, n) == NewPos(ext, a, n)
  {
    forall p | p in Window(a, n) ensures InTree(p) && (Node(f, i, p) == 0 <==> First(p) >= ext) {
      WindowInTree(a, n, p);
    }
    hide Window, First, Node, Shaped;
  }

  // ---------- what the loop of writei logs ----------

  /** One round, at file block `bn`: besides bitmap blocks it logs the data block, and the index blocks on the way
      that are new or have a new block below them. */
  ghost predicate BlockLogged(f: Fs, l: set<nat>, g: Fs, m: set<nat>, i: nat, bn: nat) {
    && Shaped(g) && i < NINODES && bn < MAXFILE && l <= m
    && (forall x :: x in m ==> x in l || IsBitmap(x) || (x in PathOf(g, i, bn) && Due(f.own, g.own, x)))
    && (forall x :: x in g.own && x !in f.own ==> x in PathOf(g, i, bn))
    && Node(g, i, Leaf(bn)) in m
  }

  /** A data block, or an index block that is new or has a new block below it. */
  ghost predicate Due(own: Owners, o: Owners, x: nat) {
    x in o && (o[x].lev == 0 || Earned(own, o, x))
  }

  ghost predicate LoggedWithin(f: Fs, l: set<nat>, g: Fs, m: set<nat>, i: nat, a: nat, n: nat) {
    && Shaped(g) && i < NINODES && a + n <= MAXFILE
    && (forall x :: x in m ==> x in l || IsBitmap(x) || (x in Nodes(g, i, Window(a, n)) && Due(f.own, g.own, x)))
    && (forall x :: x in g.own && x !in f.own ==> x in Nodes(g, i, Window(a, n)))
    && (forall p :: p in Leaves(a, n) ==> Node(g, i, p) in m)
  }

  lemma BlockIsLogged(f: Fs, l: set<nat>, g: Fs, m: set<nat>, i: nat, bn: nat, addr: nat)
    requires Links(g) && Shaped(g) && i < NINODES && bn < MAXFILE && l <= m && addr == Lookup(g.blocks, g.inodes[i], bn)
    requires Along(f.own, l, g.own, m, PathOf(g, i, bn)) && addr in PathOf(g, i, bn) && addr in g.own
    requires g.own[addr].lev == 0
    ensures BlockLogged(f, l, g, m + {addr}, i, bn)
  {
    hide Lookup, Node, Links, PathOf;
    LookupNode(g, i, bn);
  }

  lemma LoggedNothing(f: Fs, l: set<nat>, i: nat, a: nat)
    requires Shaped(f) && i < NINODES && a <= MAXFILE
    ensures LoggedWithin(f, l, f, l, i, a, 0)
  {
    hide Node, Due;
  }

  lemma DueTrans(own: Owners, o: Owners, p: Owners, x: nat)
    requires forall y :: y in own ==> y in o && o[y] == own[y]
    requires forall y :: y in o ==> y in p && p[y] == o[y]
    ensures Due(own, o, x) || Due(o, p, x) ==> Due(own, p, x)
  {
    EarnedTrans(own, o, p, x);
    hide Earned;
  }

  /** The nodes of a filled window stay. */
  lemma WindowStays(g: Fs, h: Fs, i: nat, s: set<Pos>)
    requires Links(g) && Links(h) && Shaped(g) && Shaped(h) && i < NINODES && OwnGrew(g.own, h.own, i)
    requires AllThere(g, i, s)
    ensures Nodes(h, i, s) == Nodes(g, i, s) && forall p :: p in s ==> Node(h, i, p) == Node(g, i, p)
  {
    hide Node, Links, Shaped;
    GrewKeeps(g.own, h.own, i, i);
    forall p | p in s ensures Node(h, i, p) == Node(g, i, p) { NodeStays(g, h, i, p); }
    NodesSame(g, h, i, s);
  }

  lemma LoggedMore(f: Fs, l0: set<nat>, g: Fs, l: set<nat>, h: Fs, m: set<nat>, i: nat, a: nat, n: nat)
    requires LoggedWithin(f, l0, g, l, i, a, n) && BlockLogged(g, l, h, m, i, a + n) && Links(g) && Links(h)
    requires OwnGrew(f.own, g.own, i) && OwnGrew(g.own, h.own, i) && AllThere(g, i, Window(a, n))
    ensures LoggedWithin(f, l0, h, m, i, a, n + 1)
  {
    hide Node, Links, Due, RootSlot, Nodes, AllThere;
    WindowStays(g, h, i, Window(a, n));
    NodesJoin(h, i, Window(a, n), PathPos(a + n));
    LeavesAre(a, n);
    forall x | x in m
      ensures x in l0 || IsBitmap(x) || (x in Nodes(h, i, Window(a, n + 1)) && Due(f.own, h.own, x))
    {
      DueTrans(f.own, g.own, h.own, x);
    }
  }

  lemma FilledThere(f: Fs, g: Fs, i: nat, a: nat, n: nat)
    requires Filled(f, g, i, a, n)
    ensures AllThere(g, i, Window(a, n))
  {
    hide Node, Shaped, InTree;
    forall p | p in Window(a, n) ensures InTree(p) { WindowInTree(a, n, p); }
  }

  lemma LoggedIsCovered(b: seq<Block>, l: set<nat>, c: seq<Block>, m: set<nat>)
    requires Covers(b, l, c, m)
    ensures l <= m
  {
  }

  lemma WroteFilled(f: Fs, g: Fs, i: nat, off: nat, src: seq<Byte>, tot: nat)
    requires Shaped(f) && Shaped(g) && i < NINODES && tot <= |src| && Wrote(f, g, i, off, src, tot)
    ensures Filled(f, g, i, off / BSIZE, Touched(off, tot)) && OwnGrew(f.own, g.own, i)
  {
    hide Filled, OwnGrew, Patched, Lookup;
  }

  lemma LoggedRound(f: Fs, l0: set<nat>, g: Fs, l: set<nat>, h: Fs, m: set<nat>, i: nat, off: nat, src: seq<Byte>,
                    tot: nat, n: nat)
    requires Forest(g) && Forest(h) && Shaped(f) && Shaped(g) && i < NINODES && tot + n <= |src| && 0 < n
    requires (tot == 0 || (off + tot) % BSIZE == 0) && (off + tot) % BSIZE + n <= BSIZE
    requires Wrote(f, g, i, off, src, tot) && OwnGrew(g.own, h.own, i)
    requires LoggedWithin(f, l0, g, l, i, off / BSIZE, Touched(off, tot))
    requires BlockLogged(g, l, h, m, i, (off + tot) / BSIZE)
    ensures LoggedWithin(f, l0, h, m, i, off / BSIZE, Touched(off, tot + n))
  {
    hide LoggedWithin, BlockLogged, Forest, Links, OwnGrew, Filled, Wrote, AllThere, Shaped, Touched;
    TouchedMore(off, tot, n);
    ForestLinks(g);
    ForestLinks(h);
    WroteFilled(f, g, i, off, src, tot);
    FilledThere(f, g, i, off / BSIZE, Touched(off, tot));
    LoggedMore(f, l0, g, l, h, m, i, off / BSIZE, Touched(off, tot));
  }

  // ---------- exactly ----------

  /** The forest has grown by the nodes on the way to `n` file blocks. */
  ghost predicate Added(f: Fs, g: Fs, i: nat, a: nat, n: nat) {
    && Forest(f) && Forest(g) && Shaped(f) && Shaped(g) && OwnGrew(f.own, g.own, i) && Filled(f, g, i, a, n)
    && forall x :: x in g.own && x !in f.own ==> x in Nodes(g, i, Window(a, n))
  }

  /** What the loop has done when it has touched the `n` file blocks from `a` on. */
  ghost predicate Done(f: Fs, g: Fs, m: set<nat>, i: nat, a: nat, n: nat) {
    && Added(f, g, i, a, n)
    && Covers(f.blocks, {}, g.blocks, m) && Charged(f.blocks, {}, g.blocks, m) && LoggedWithin(f, {}, g, m, i, a, n)
  }

  /** In a filled window, a position held no block before exactly if its block is new. */
  lemma NewExactly(f: Fs, g: Fs, i: nat, p: Pos)
    requires Links(f) && Links(g) && Shaped(f) && Shaped(g) && i < NINODES && OwnGrew(f.own, g.own, i)
    requires Node(g, i, p) != 0
    ensures Node(f, i, p) == 0 <==> Node(g, i, p) !in f.own
    ensures Node(f, i, p) != 0 ==> Node(f, i, p) == Node(g, i, p)
    ensures Node(g, i, p) in g.own && g.own[Node(g, i, p)] == Own(SlotAt(g, i, p), p.lev)
  {
    hide Node, Links, RootSlot;
    NodeOwn(g, i, p);
    if Node(f, i, p) == 0 {
      NodeNew(f, g, i, p);
    } else {
      GrewKeeps(f.own, g.own, i, i);
      NodeOwn(f, i, p);
      NodeStays(f, g, i, p);
    }
  }

  /** A new block was free and is used now. */
  lemma NewIsTaken(f: Fs, g: Fs, x: nat)
    requires Forest(f) && Forest(g) && OwnsMore(f.own, g.own)
    ensures |f.blocks| == |g.blocks| == FSSIZE && (x in Taken(f.blocks, g.blocks) <==> x in g.own && x !in f.own)
    ensures x in Taken(f.blocks, g.blocks) ==> NMETA <= x
  {
    hide Used, Links;
    ForestShaped(f);
    ForestShaped(g);
    assert Shaped(g) && Shaped(f);
  }

  lemma NewIsLogged(f: Fs, g: Fs, m: set<nat>, x: nat)
    requires Forest(f) && Forest(g) && Charged(f.blocks, {}, g.blocks, m) && OwnsMore(f.own, g.own)
    requires x in g.own && x !in f.own
    ensures x in NonBitmap(m)
  {
    NewIsTaken(f, g, x);
    hide Forest, Taken;
  }

  ghost predicate OwnsMore(own: Owners, o: Owners) {
    forall x :: x in own ==> x in o
  }

  /** An old index block with a new block below it has changed, so it was logged. */
  lemma GainerLogged(f: Fs, g: Fs, m: set<nat>, i: nat, p: Pos)
    requires Links(f) && Links(g) && Shaped(f) && Shaped(g) && i < NINODES && OwnGrew(f.own, g.own, i)
    requires Covers(f.blocks, {}, g.blocks, m) && !Top(p)
    requires Node(f, i, p) == 0 != Node(g, i, p) && Node(g, i, Up(p)) in f.own
    ensures Node(g, i, Up(p)) in m && Node(g, i, Up(p)) in NonBitmap(m)
  {
    hide Word, Links;
    NodeOwn(g, i, p);
    NewExactly(f, g, i, Up(p));
    NodeOwn(f, i, Up(p));
    assert Legal(p);
    hide OwnGrew;
  }

  /** The positions whose blocks are logged. */
  ghost function LoggedPos(f: Fs, i: nat, a: nat, n: nat): (s: set<Pos>)
    requires Shaped(f) && i < NINODES && a + n <= MAXFILE
  {
    Leaves(a, n) + Gainers(Missing(f, i, a, n))
  }

  lemma LoggedPosIn(f: Fs, i: nat, a: nat, n: nat)
    requires Shaped(f) && i < NINODES && a + n <= MAXFILE
    ensures Gainers(Missing(f, i, a, n)) <= Upper(Window(a, n)) && LoggedPos(f, i, a, n) <= Window(a, n)
    ensures |LoggedPos(f, i, a, n)| == n + |Gainers(Missing(f, i, a, n))|
  {
    hide Node, Shaped;
    LeavesAre(a, n);
    var s := Gainers(Missing(f, i, a, n));
    forall u | u in s ensures u in Window(a, n) && u.lev > 0 {
      var p :| p in Missing(f, i, a, n) && !Top(p) && Up(p) == u;
      WindowInTree(a, n, p);
    }
    assert Leaves(a, n) !! s;
    hide Leaves, Gainers, Missing, Window;
    assert |Leaves(a, n) + s| == |Leaves(a, n)| + |s|;
  }

  /** Every block at such a position is logged. */
  lemma AreLogged(f: Fs, g: Fs, m: set<nat>, i: nat, a: nat, n: nat, p: Pos)
    requires Done(f, g, m, i, a, n) && p in LoggedPos(f, i, a, n)
    ensures Shaped(g) && Node(g, i, p) in NonBitmap(m)
  {
    LeavesAre(a, n);
    FilledThere(f, g, i, a, n);
    hide Node, Used, BitmapExact, Covers, Charged, Window, Leaves, RootSlot;
    LoggedPosIn(f, i, a, n);
    NodeOwn(g, i, p);
    if p !in Leaves(a, n) {
      var c :| c in Missing(f, i, a, n) && !Top(c) && Up(c) == p;
      hide Links;
      if Node(g, i, p) in f.own {
        GainerLogged(f, g, m, i, c);
      } else {
        NewIsLogged(f, g, m, Node(g, i, p));
      }
    }
  }

  /** Whatever is logged besides bitmap blocks is at such a position. */
  lemma NoOthersLogged(f: Fs, g: Fs, m: set<nat>, i: nat, a: nat, n: nat, x: nat)
    requires Done(f, g, m, i, a, n) && x in NonBitmap(m)
    ensures Shaped(g) && x in Nodes(g, i, LoggedPos(f, i, a, n))
  {
    FilledThere(f, g, i, a, n);
    hide Node, Used, BitmapExact, Covers, Charged, Window, Leaves, RootSlot, Filled, Links;
    assert x in Nodes(g, i, Window(a, n)) && Due(f.own, g.own, x);
    var p :| p in Window(a, n) && x == Node(g, i, p);
    ForestLinks(f);
    ForestLinks(g);
    NewExactly(f, g, i, p);
    LeavesAre(a, n);
    if p.lev > 0 {
      var c := GainerOf(f, g, m, i, a, n, p);
      assert c in Missing(f, i, a, n) && !Top(c) && Up(c) == p;
      assert p in Gainers(Missing(f, i, a, n));
    }
  }

  /** The new block below an index block that was logged. */
  lemma GainerOf(f: Fs, g: Fs, m: set<nat>, i: nat, a: nat, n: nat, p: Pos) returns (c: Pos)
    requires Done(f, g, m, i, a, n) && Shaped(g) && p in Window(a, n) && p.lev > 0
    requires Earned(f.own, g.own, Node(g, i, p))
    ensures c in Missing(f, i, a, n) && !Top(c) && Up(c) == p
  {
    FilledThere(f, g, i, a, n);
    hide Node, Used, BitmapExact, Covers, Charged, Window, Leaves, RootSlot, Filled, Links;
    ForestLinks(f);
    ForestLinks(g);
    var x := Node(g, i, p);
    if x !in f.own {
      NewExactly(f, g, i, p);
      c := DownInWindow(a, n, p);
      if Node(f, i, c) != 0 { NodeOwn(f, i, c); }
    } else {
      var y :| y in g.own && y !in f.own && g.own[y].at.Entry? && g.own[y].at.blk == x;
      c :| c in Window(a, n) && y == Node(g, i, c);
      NewExactly(f, g, i, c);
      WindowInTree(a, n, c);
      assert !Top(c) && Node(g, i, Up(c)) == Node(g, i, p);
      NodeInjective(g, i, Up(c), i, p);
    }
  }

  /** Exactly the blocks at these positions are logged, and exactly the missing ones were taken. */
  lemma ExactLogs(f: Fs, g: Fs, m: set<nat>, i: nat, a: nat, n: nat)
    requires Done(f, g, m, i, a, n)
    ensures Shaped(f) && Shaped(g) && |NonBitmap(m)| == n + |Gainers(Missing(f, i, a, n))|
    ensures |Taken(f.blocks, g.blocks)| == |Missing(f, i, a, n)|
  {
    assert Links(g) && Shaped(g) && AllThere(g, i, Window(a, n)) by {
      FilledThere(f, g, i, a, n);
      hide Node, Used, BitmapExact, Covers, Charged, Window, Leaves, LoggedWithin, Filled;
    }
    DoneAdded(f, g, m, i, a, n);
    hide Done, Added, Node, Window, Leaves, Gainers, Links, NonBitmap, Missing, Taken, LoggedPos;
    LoggedPosIn(f, i, a, n);
    var s := LoggedPos(f, i, a, n);
    assert AllThere(g, i, s);
    NodesSize(g, i, s);
    forall x | x in NonBitmap(m) ensures x in Nodes(g, i, s) { NoOthersLogged(f, g, m, i, a, n, x); }
    forall x | x in Nodes(g, i, s) ensures x in NonBitmap(m) {
      var p :| p in s && x == Node(g, i, p);
      AreLogged(f, g, m, i, a, n, p);
    }
    assert NonBitmap(m) == Nodes(g, i, s);
    NewCount(f, g, i, a, n);
  }

  lemma DoneAdded(f: Fs, g: Fs, m: set<nat>, i: nat, a: nat, n: nat)
    requires Done(f, g, m, i, a, n)
    ensures Added(f, g, i, a, n)
  {
  }

  /** As many blocks were taken as were missing. */
  lemma NewCount(f: Fs, g: Fs, i: nat, a: nat, n: nat)
    requires Added(f, g, i, a, n)
    ensures |f.blocks| == |g.blocks| == FSSIZE && |Taken(f.blocks, g.blocks)| == |Missing(f, i, a, n)|
  {
    FilledThere(f, g, i, a, n);
    hide Node, Used, BitmapExact, Window, RootSlot, Filled, Links, Taken;
    ForestLinks(f);
    ForestLinks(g);
    var s := Missing(f, i, a, n);
    NodesSize(g, i, s);
    NewIsTaken(f, g, 0);
    forall x ensures x in Taken(f.blocks, g.blocks) <==> x in Nodes(g, i, s) {
      NewIsTaken(f, g, x);
      if x in g.own && x !in f.own {
        var p :| p in Window(a, n) && x == Node(g, i, p);
        NewExactly(f, g, i, p);
      }
      if x in Nodes(g, i, s) {
        var p :| p in s && x == Node(g, i, p);
        NewExactly(f, g, i, p);
      }
    }
    assert Taken(f.blocks, g.blocks) == Nodes(g, i, s);
  }

  /** The transaction of a completed writei, from `f` to blocks `r`, is as large as the numbers before it say. */
  ghost predicate ExactTx(f: Fs, r: Fs, m: set<nat>, i: nat, off: nat, len: nat) {
    && Shaped(f) && |r.blocks| == FSSIZE && i < NINODES && off + len <= MAXBYTES
    && var size := f.inodes[i].size;
       && |NonBitmap(m)| == OtherBlocks(size, off, len) && |Taken(f.blocks, r.blocks)| == Need(size, off, len)
       && |m| == TxSize(f.blocks, size, off, len)
  }

  /** A write that was completed found the blocks it needs. */
  lemma WroteNeeds(f: Fs, l0: set<nat>, g: Fs, l: set<nat>, i: nat, off: nat, src: seq<Byte>)
    requires Forest(f) && Forest(g) && Shaped(f) && Shaped(g) && i < NINODES && off + |src| <= MAXBYTES && FileOk(f, i)
    requires Wrote(f, g, i, off, src, |src|) && LoggedWithin(f, l0, g, l, i, off / BSIZE, Touched(off, |src|))
    ensures |f.blocks| == |g.blocks| == FSSIZE && Added(f, g, i, off / BSIZE, Touched(off, |src|))
    ensures |Taken(f.blocks, g.blocks)| == Need(f.inodes[i].size, off, |src|) <= |FreeBlocks(f.blocks)|
  {
    assert Added(f, g, i, off / BSIZE, Touched(off, |src|)) by {
      hide Forest, OwnGrew, Filled, Patched, Lookup, Node, Nodes, Due, Window;
    }
    hide Forest, Wrote, LoggedWithin, Added, Lookup, Encodable, Used, Tight;
    MissingBySize(f, i, off / BSIZE, Touched(off, |src|), SizeBlocks(f.inodes[i].size));
    NewCount(f, g, i, off / BSIZE, Touched(off, |src|));
    SubsetSize(Taken(f.blocks, g.blocks), FreeBlocks(f.blocks));
  }

  lemma TxIsExact(f: Fs, g: Fs, l: set<nat>, r: Fs, m: set<nat>, i: nat, off: nat, src: seq<Byte>)
    requires Forest(f) && Forest(g) && Shaped(f) && Shaped(g) && i < NINODES && off + |src| <= MAXBYTES && FileOk(f, i)
    requires Added(f, g, i, off / BSIZE, Touched(off, |src|))
    requires LoggedWithin(f, {}, g, l, i, off / BSIZE, Touched(off, |src|))
    requires Covers(f.blocks, {}, g.blocks, l) && Charged(f.blocks, {}, g.blocks, l) && |r.blocks| == FSSIZE
    requires Charged(f.blocks, {}, r.blocks, m)
    requires forall x: nat :: x < FSSIZE ==> Used(r.blocks, x) == Used(g.blocks, x)
    requires m == if |src| > 0 && off + |src| > f.inodes[i].size then l + {INODESTART + i / IPB} else l
    ensures ExactTx(f, r, m, i, off, |src|)
  {
    hide Forest, Added, LoggedWithin, Covers, Done, Used, Tight, FileOk, Missing, NewPos, Gainers, Taken;
    hide Charged, NonBitmap, FirstFree, MapBlocks, Touched, SizeBlocks;
    WindowBound(off, |src|);
    var a, n, b := off / BSIZE, Touched(off, |src|), INODESTART + i / IPB;
    DoneIs(f, g, l, i, a, n);
    var ext := SizeBlocks(f.inodes[i].size);
    FileTight(f, i);
    MissingBySize(f, i, a, n, ext);
    SameTaken(f.blocks, g.blocks, r.blocks);
    InodeBlockApart(f, g, l, i, a, n, b);
    ExactLogs(f, g, l, i, a, n);
    ExactSize(f.blocks, r.blocks, m);
    OneOther(l, b);
  }

  lemma FileTight(f: Fs, i: nat)
    requires Shaped(f) && i < NINODES && FileOk(f, i)
    ensures Tight(f, i, SizeBlocks(f.inodes[i].size))
  {
  }

  lemma DoneIs(f: Fs, g: Fs, m: set<nat>, i: nat, a: nat, n: nat)
    requires Added(f, g, i, a, n) && LoggedWithin(f, {}, g, m, i, a, n)
    requires Covers(f.blocks, {}, g.blocks, m) && Charged(f.blocks, {}, g.blocks, m)
    ensures Done(f, g, m, i, a, n) && |f.blocks| == |g.blocks| == FSSIZE
  {
    hide Added, LoggedWithin, Charged;
  }

  lemma SameTaken(b: seq<Block>, c: seq<Block>, d: seq<Block>)
    requires |b| == |c| == |d| == FSSIZE && forall x: nat :: x < FSSIZE ==> Used(d, x) == Used(c, x)
    ensures Taken(b, d) == Taken(b, c)
  {
    hide Used;
  }

  lemma OneOther(l: set<nat>, b: nat)
    requires b !in l && !IsBitmap(b)
    ensures |NonBitmap(l + {b})| == |NonBitmap(l)| + 1
  {
    assert NonBitmap(l + {b}) == NonBitmap(l) + {b};
  }

  /** Inode blocks are not file blocks. */
  lemma InodeBlockApart(f: Fs, g: Fs, l: set<nat>, i: nat, a: nat, n: nat, b: nat)
    requires Done(f, g, l, i, a, n) && b < BMAPSTART
    ensures b !in l && !IsBitmap(b)
  {
    hide Node, Used, BitmapExact, Covers, Charged, Window, Leaves, RootSlot, Filled, Earned;
    ForestLinks(g);
    assert InRange(g.own);
    hide Links;
  }

  // ---------- when the disk is full ----------

  /** The loop found the disk full at the block after the first `k`; what it had added and logged is on the way there.
      */
  ghost predicate StuckIn(f: Fs, l: set<nat>, h: Fs, m: set<nat>, i: nat, a: nat, k: nat) {
    && Shaped(h) && i < NINODES && a + k < MAXFILE && Node(h, i, Leaf(a + k)) == 0
    && (forall x :: x in m ==> x in l || IsBitmap(x) || (x in Nodes(h, i, Window(a, k + 1)) && x in h.own))
    && (forall x :: x in h.own && x !in f.own ==> x in Nodes(h, i, Window(a, k + 1)))
  }

  ghost predicate StuckAt(f: Fs, l: set<nat>, h: Fs, m: set<nat>, i: nat, off: nat, len: nat) {
    && Forest(f) && Forest(h) && Shaped(f) && OwnGrew(f.own, h.own, i)
    && exists k: nat :: k < Touched(off, len) && StuckIn(f, l, h, m, i, off / BSIZE, k)
  }

  lemma StuckRound(f: Fs, l0: set<nat>, g: Fs, l: set<nat>, h: Fs, m: set<nat>, i: nat, off: nat, src: seq<Byte>,
                   tot: nat, n: nat)
    requires Forest(f) && Forest(g) && Shaped(f) && Shaped(g) && i < NINODES && tot + n <= |src| && 0 < n
    requires (tot == 0 || (off + tot) % BSIZE == 0) && (off + tot) % BSIZE + n <= BSIZE && (off + tot) / BSIZE < MAXFILE
    requires Wrote(f, g, i, off, src, tot) && LoggedWithin(f, l0, g, l, i, off / BSIZE, Touched(off, tot))
    requires Covers(f.blocks, l0, g.blocks, l) && Charged(f.blocks, l0, g.blocks, l)
    requires Stuck(g, l, h, m, i, (off + tot) / BSIZE)
    ensures StuckAt(f, l0, h, m, i, off, |src|)
    ensures Covers(f.blocks, l0, h.blocks, m) && Charged(f.blocks, l0, h.blocks, m)
  {
    TouchedMore(off, tot, n);
    var a, k := off / BSIZE, Touched(off, tot);
    FilledThere(f, g, i, a, k);
    hide Stuck, Forest, Covers, Charged, Along, Lookup, Patched, Filled, AllThere, LoggedWithin;
    StuckFacts(g, l, h, m, i, a + k);
    CoversTrans(f.blocks, l0, g.blocks, l, h.blocks, m);
    ChargedTrans(f.blocks, l0, g.blocks, l, h.blocks, m);
    OwnGrewTrans(f.own, g.own, h.own, i);
    ForestLinks(g);
    ForestLinks(h);
    StuckAfter(f, l0, g, l, h, m, i, a, k);
    assert k < Touched(off, |src|);
  }

  lemma StuckAfter(f: Fs, l0: set<nat>, g: Fs, l: set<nat>, h: Fs, m: set<nat>, i: nat, a: nat, k: nat)
    requires Links(g) && Links(h) && Shaped(g) && Shaped(h) && i < NINODES && a + k < MAXFILE
    requires LoggedWithin(f, l0, g, l, i, a, k) && AllThere(g, i, Window(a, k)) && OwnGrew(g.own, h.own, i)
    requires Along(g.own, l, h.own, m, PathOf(h, i, a + k)) && Lookup(h.blocks, h.inodes[i], a + k) == 0
    ensures StuckIn(f, l0, h, m, i, a, k)
  {
    hide Node, Links, RootSlot, Nodes, AllThere, Lookup;
    LookupNode(h, i, a + k);
    WindowStays(g, h, i, Window(a, k));
    NodesJoin(h, i, Window(a, k), PathPos(a + k));
    hide PathPos;
  }

  /** The loop finds the disk full only when fewer blocks are free than it needs; and a chunk has logged few blocks. */
  lemma StuckNeeds(f: Fs, l: set<nat>, h: Fs, m: set<nat>, i: nat, off: nat, len: nat)
    requires StuckAt(f, l, h, m, i, off, len) && i < NINODES && off + len <= MAXBYTES && FileOk(f, i)
    requires |h.blocks| == FSSIZE && forall x: nat :: x < FSSIZE ==> Used(h.blocks, x)
    ensures |f.blocks| == FSSIZE && |FreeBlocks(f.blocks)| < Need(f.inodes[i].size, off, len)
    ensures l == {} && len <= MAXCHUNK ==> |NonBitmap(m)| <= 25
  {
    hide Forest, OwnGrew, StuckIn, Lookup, Encodable, Used, Tight, Missing, NewPos;
    var k: nat :| k < Touched(off, len) && StuckIn(f, l, h, m, i, off / BSIZE, k);
    MissingBySize(f, i, off / BSIZE, Touched(off, len), SizeBlocks(f.inodes[i].size));
    AllTaken(f.blocks, h.blocks);
    StuckTook(f, l, h, m, i, off / BSIZE, k, Touched(off, len));
    if l == {} && len <= MAXCHUNK { StuckLogs(f, h, m, i, off / BSIZE, k); }
  }

  lemma StuckTook(f: Fs, l: set<nat>, h: Fs, m: set<nat>, i: nat, a: nat, k: nat, n: nat)
    requires Forest(f) && Forest(h) && Shaped(f) && OwnGrew(f.own, h.own, i) && StuckIn(f, l, h, m, i, a, k) && k < n
    requires a + n <= MAXFILE
    ensures |f.blocks| == |h.blocks| == FSSIZE && |Taken(f.blocks, h.blocks)| < |Missing(f, i, a, n)|
  {
    hide Forest, Node, RootSlot, Links, Taken, Window, OwnsMore, InRange, Climbs, Leaf;
    hide OwnGrew, StuckIn;
    StuckShape(f, l, h, m, i, a, k);
    var s := set p | p in Missing(f, i, a, n) && Node(h, i, p) != 0;
    ForestLinks(f);
    ForestLinks(h);
    GrewOwnsMore(f.own, h.own, i);
    NewIsTaken(f, h, 0);
    forall p | p in s ensures InTree(p) { WindowInTree(a, n, p); }
    forall x | x in Taken(f.blocks, h.blocks) ensures x in Nodes(h, i, s) {
      var p := StuckNew(f, l, h, m, i, a, k, n, x);
    }
    LeafMissing(f, l, h, m, i, a, k, n);
    hide Nodes, Missing;
    NodesSize(h, i, s);
    SubsetSize(Taken(f.blocks, h.blocks), Nodes(h, i, s));
    SubsetSize(s + {Leaf(a + k)}, Missing(f, i, a, n));
  }

  lemma StuckShape(f: Fs, l: set<nat>, h: Fs, m: set<nat>, i: nat, a: nat, k: nat)
    requires StuckIn(f, l, h, m, i, a, k)
    ensures Shaped(h) && i < NINODES && a + k < MAXFILE
  {
  }

  lemma GrewOwnsMore(own: Owners, o: Owners, i: nat)
    requires OwnGrew(own, o, i)
    ensures OwnsMore(own, o)
  {
    hide RootSlot;
  }

  lemma StuckNew(f: Fs, l: set<nat>, h: Fs, m: set<nat>, i: nat, a: nat, k: nat, n: nat, x: nat) returns (p: Pos)
    requires Forest(f) && Forest(h) && Shaped(f) && OwnGrew(f.own, h.own, i) && StuckIn(f, l, h, m, i, a, k) && k < n
    requires a + n <= MAXFILE && |f.blocks| == |h.blocks| == FSSIZE && x in Taken(f.blocks, h.blocks)
    ensures p in Missing(f, i, a, n) && Node(h, i, p) == x != 0
  {
    hide Forest, Node, RootSlot, Links, Taken, Window, OwnGrew, InRange, Climbs, OwnsMore;
    ForestLinks(f);
    ForestLinks(h);
    GrewOwnsMore(f.own, h.own, i);
    NewIsTaken(f, h, x);
    p :| p in Window(a, k + 1) && x == Node(h, i, p);
    NewExactly(f, h, i, p);
    WindowGrows(a, k + 1, n, p);
  }

  lemma LeafMissing(f: Fs, l: set<nat>, h: Fs, m: set<nat>, i: nat, a: nat, k: nat, n: nat)
    requires Links(f) && Links(h) && Shaped(f) && OwnGrew(f.own, h.own, i) && StuckIn(f, l, h, m, i, a, k) && k < n
    requires a + n <= MAXFILE
    ensures Leaf(a + k) in Missing(f, i, a, n) && Node(h, i, Leaf(a + k)) == 0
  {
    hide Node, RootSlot, Links, Window, Leaf;
    LeafInWindow(a, n, a + k);
    if Node(f, i, Leaf(a + k)) != 0 {
      GrewKeeps(f.own, h.own, i, i);
      NodeStays(f, h, i, Leaf(a + k));
    }
  }

  lemma WindowGrows(a: nat, m: nat, n: nat, p: Pos)
    requires m <= n && a + n <= MAXFILE && p in Window(a, m)
    ensures p in Window(a, n)
  {
    WindowPaths(a, m, p);
    WindowPaths(a, n, p);
  }

  lemma StuckLogs(f: Fs, h: Fs, m: set<nat>, i: nat, a: nat, k: nat)
    requires Forest(h) && StuckIn(f, {}, h, m, i, a, k) && k < 19
    ensures |NonBitmap(m)| <= 25
  {
    ForestLinks(h);
    LeavesAre(a, k);
    UpperSize(a, k + 1);
    var s := set p | p in Leaves(a, k) + Upper(Window(a, k + 1)) && Node(h, i, p) != 0;
    hide Node, Used, BitmapExact, RootSlot, Window, Leaves;
    forall p | p in s ensures InTree(p) {
      if p in Leaves(a, k) { WindowInTree(a, k, p); } else { WindowInTree(a, k + 1, p); }
    }
    NodesSize(h, i, s);
    forall x | x in NonBitmap(m) ensures x in Nodes(h, i, s) {
      var p :| p in Window(a, k + 1) && x == Node(h, i, p);
      StuckPlace(h, i, a, k, p, x);
    }
    hide Links, NonBitmap;
    SubsetSize(NonBitmap(m), Nodes(h, i, s));
    SubsetSize(s, Leaves(a, k) + Upper(Window(a, k + 1)));
  }

  /** A position that holds a block is above the data blocks or one of the first `k` of these. */
  lemma StuckPlace(h: Fs, i: nat, a: nat, k: nat, p: Pos, x: nat)
    requires Links(h) && Shaped(h) && i < NINODES && a + k < MAXFILE && Node(h, i, Leaf(a + k)) == 0
    requires p in Window(a, k + 1) && x == Node(h, i, p) && x in h.own
    ensures x != 0 && (p in Leaves(a, k) || p in Upper(Window(a, k + 1)))
  {
    assert InRange(h.own);
    hide Node, Links, Leaves, Window, Leaf;
    if p.lev == 0 {
      WindowInTree(a, k + 1, p);
      assert First(p) != a + k;
      hide First;
      LeafInWindow(a, k, First(p));
      LeavesAre(a, k);
    }
  }
}
