/** What itrunc frees: the subtrees of owned blocks. */
module FileFree {
  import opened Layout
  import opened Blocks
  import opened Indexing
  import opened Transaction
  import opened FileTree
  import opened FileGrow
  import opened FileNodes
  import opened InodeTable
  import opened FileContent

  /** The slot through which the climb from `b` first leaves the blocks below `v`, that is, word k of
      `v` when `b` hangs below it; otherwise the root slot of `b`. */
  ghost function Through(own: Owners, b: nat, v: nat): (s: Slot)
    requires InRange(own) && Climbs(own) && b in own
    decreases 3 - own[b].lev
  {
    match own[b].at
    case Root(_, _) => own[b].at
    case Entry(p, _) => if p == v then own[b].at else Through(own, p, v)
  }

  /** `b` is `v` or hangs below it. */
  ghost predicate Within(own: Owners, b: nat, v: nat)
    requires InRange(own) && Climbs(own)
  {
    b in own && (b == v || Through(own, b, v).Entry?)
  }

  /** `b` hangs below one of the first `n` pointers of index block `v`. */
  ghost predicate Below(own: Owners, b: nat, v: nat, n: nat)
    requires InRange(own) && Climbs(own)
  {
    b in own && Through(own, b, v).Entry? && Through(own, b, v).k < n
  }

  lemma {:induction false} ThroughBlock(own: Owners, b: nat, v: nat)
    requires InRange(own) && Climbs(own) && b in own
    ensures var s := Through(own, b, v); (s.Entry? ==> s.blk == v && v in own && own[v].lev > own[b].lev && s.k < WORDS)
    ensures v in own && own[v].lev == 0 ==> Through(own, b, v).Root?
    decreases 3 - own[b].lev
  {
    match own[b].at
    case Root(_, _) =>
    case Entry(p, _) => if p != v { ThroughBlock(own, p, v); }
  }

  /** A block below `v` is within the child it climbs through, and the other way round. */
  lemma {:induction false} WithinChild(f: Fs, b: nat, v: nat, k: nat)
    requires Links(f) && b in f.own && v in f.own && f.own[v].lev > 0 && k < WORDS && Word(f.blocks[v], k) != 0
    ensures Within(f.own, b, Word(f.blocks[v], k)) <==> Through(f.own, b, v) == Entry(v, k)
    decreases 3 - f.own[b].lev
  {
    hide Word;
    var c := Word(f.blocks[v], k);
    Child(f, v, k);
    var s := f.own[b].at;
    assert Value(f, s) == b;
    if s.Entry? && b != c {
      if s.blk != v {
        WithinChild(f, s.blk, v, k);
        if s.blk == c {
        }
      } else {
        assert s != Entry(v, k);
        if Within(f.own, b, c) {
          ThroughBlock(f.own, b, c);
          ThroughUp(f.own, v, c);
        }
      }
    }
  }

  lemma ThroughUp(own: Owners, v: nat, c: nat)
    requires InRange(own) && Climbs(own) && v in own && c in own && own[c].lev < own[v].lev
    ensures Through(own, v, c).Root?
  {
    ThroughBlock(own, v, c);
  }

  /** An empty pointer has nothing below it. */
  lemma {:induction false} NothingBelow(f: Fs, b: nat, v: nat, k: nat)
    requires Links(f) && b in f.own && v in f.own && f.own[v].lev > 0 && k < WORDS && Word(f.blocks[v], k) == 0
    ensures Through(f.own, b, v) != Entry(v, k)
    decreases 3 - f.own[b].lev
  {
    hide Word;
    var s := f.own[b].at;
    assert Value(f, s) == b;
    if s.Entry? && s.blk != v { NothingBelow(f, s.blk, v, k); }
  }

  lemma {:induction false} WithinRoot(f: Fs, b: nat, i: nat, k: nat)
    requires Links(f) && b in f.own && i < NINODES && k < NROOTS && f.inodes[i].addrs[k] != 0
    ensures Within(f.own, b, f.inodes[i].addrs[k]) <==> RootSlot(f.own, b) == Root(i, k)
    decreases 3 - f.own[b].lev
  {
    hide Word;
    var c := f.inodes[i].addrs[k];
    RootChild(f, i, k);
    var s := f.own[b].at;
    assert Value(f, s) == b;
    if s.Entry? && b != c {
      if s.blk != c {
        WithinRoot(f, s.blk, i, k);
      } else {
        assert RootSlot(f.own, b) == RootSlot(f.own, c) == Root(i, k);
      }
    }
  }

  lemma {:induction false} NoRoot(f: Fs, b: nat, i: nat, k: nat)
    requires Links(f) && b in f.own && i < NINODES && k < NROOTS && f.inodes[i].addrs[k] == 0
    ensures RootSlot(f.own, b) != Root(i, k)
    decreases 3 - f.own[b].lev
  {
    hide Word;
    var s := f.own[b].at;
    assert Value(f, s) == b;
    if s.Entry? { NoRoot(f, s.blk, i, k); }
  }

  // ---------- freeing ----------

  ghost predicate SameButBitmap(blocks: seq<Block>, r: seq<Block>) {
    && |blocks| == |r| == FSSIZE
    && forall x :: 0 <= x < FSSIZE && !(BMAPSTART <= x < BMAPSTART + NBITMAP) ==> r[x] == blocks[x]
  }

  lemma LinksShaped(f: Fs)
    requires Links(f)
    ensures Shaped(f) && Climbs(f.own)
  {
    hide Word;
  }

  lemma BelowNone(own: Owners, v: nat)
    requires InRange(own) && Climbs(own)
    ensures forall x :: !Below(own, x, v, 0)
  {
  }

  /** One more pointer of `v`: the blocks below it are those within its child. */
  lemma BelowMore(f: Fs, v: nat, k: nat)
    requires Links(f) && v in f.own && f.own[v].lev > 0 && k < WORDS
    ensures forall x :: Below(f.own, x, v, k + 1) <==>
              Below(f.own, x, v, k) || (Word(f.blocks[v], k) != 0 && Within(f.own, x, Word(f.blocks[v], k)))
    ensures Word(f.blocks[v], k) != 0 ==>
              forall x :: Within(f.own, x, Word(f.blocks[v], k)) ==> Within(f.own, x, v) && !Below(f.own, x, v, k)
  {
    hide Word; hide Through;
    var c := Word(f.blocks[v], k);
    forall x
      ensures Below(f.own, x, v, k + 1) <==> Below(f.own, x, v, k) || (c != 0 && Within(f.own, x, c))
      ensures c != 0 && Within(f.own, x, c) ==> Within(f.own, x, v) && !Below(f.own, x, v, k)
    {
      if x in f.own {
        ThroughBlock(f.own, x, v);
        if c != 0 { WithinChild(f, x, v, k); } else { NothingBelow(f, x, v, k); }
      }
    }
  }

  /** All pointers of `v` together: everything within `v` but `v` itself. */
  lemma BelowAll(own: Owners, v: nat)
    requires InRange(own) && Climbs(own) && v in own
    ensures forall x :: Within(own, x, v) <==> x == v || Below(own, x, v, WORDS)
    ensures !Below(own, v, v, WORDS)
    ensures own[v].lev == 0 ==> forall x :: Within(own, x, v) ==> x == v
  {
    hide Through;
    forall x | x in own
      ensures Within(own, x, v) <==> x == v || Below(own, x, v, WORDS)
      ensures own[v].lev == 0 && Within(own, x, v) ==> x == v
    {
      ThroughBlock(own, x, v);
    }
    ThroughBlock(own, v, v);
  }

  /** `b` belongs to file `i` through one of its first `n` root pointers. */
  ghost predicate Freed(own: Owners, b: nat, i: nat, n: nat)
    requires InRange(own) && Climbs(own)
  {
    b in own && RootSlot(own, b).ino == i && RootSlot(own, b).k < n
  }

  lemma FreedMore(f: Fs, i: nat, k: nat)
    requires Links(f) && i < NINODES && k < NROOTS
    ensures forall x :: Freed(f.own, x, i, k + 1) <==>
              Freed(f.own, x, i, k) || (f.inodes[i].addrs[k] != 0 && Within(f.own, x, f.inodes[i].addrs[k]))
    ensures f.inodes[i].addrs[k] != 0 ==>
              forall x :: Within(f.own, x, f.inodes[i].addrs[k]) ==> x in f.own && !Freed(f.own, x, i, k)
  {
    hide Word; hide RootSlot; hide Through;
    var c := f.inodes[i].addrs[k];
    forall x
      ensures Freed(f.own, x, i, k + 1) <==> Freed(f.own, x, i, k) || (c != 0 && Within(f.own, x, c))
      ensures c != 0 && Within(f.own, x, c) ==> !Freed(f.own, x, i, k)
    {
      if x in f.own {
        if c != 0 { WithinRoot(f, x, i, k); } else { NoRoot(f, x, i, k); }
      }
    }
  }

  lemma {:induction false} RootSlotRange(own: Owners, b: nat)
    requires InRange(own) && Climbs(own) && b in own
    ensures RootSlot(own, b).ino < NINODES && RootSlot(own, b).k < NROOTS
    decreases 3 - own[b].lev
  {
    if own[b].at.Entry? { RootSlotRange(own, own[b].at.blk); }
  }

  /** The owner records that are left when file `i` is gone. */
  ghost function Pruned(own: Owners, i: nat): (r: Owners)
    requires InRange(own) && Climbs(own)
    ensures forall b :: b in r <==> b in own && RootSlot(own, b).ino != i
    ensures forall b :: b in r ==> r[b] == own[b]
  {
    map b | b in own && RootSlot(own, b).ino != i :: own[b]
  }

  /** Clearing a file's pointers and exactly its blocks' bits leaves a forest of the other files. */
  lemma PruneForest(f: Fs, g: Fs, i: nat)
    requires Forest(f) && Shaped(f) && i < NINODES && SameButBitmap(f.blocks, g.blocks)
    requires g.own == Pruned(f.own, i)
    requires g.inodes == f.inodes[i := f.inodes[i].(addrs := EMPTY, size := 0)]
    requires forall x :: 0 <= x < FSSIZE ==> Used(g.blocks, x) == (Used(f.blocks, x) && !Freed(f.own, x, i, NROOTS))
    ensures Forest(g) && Shaped(g)
  {
    hide Word; hide Used;
    forall x | x in f.own ensures RootSlot(f.own, x).k < NROOTS { RootSlotRange(f.own, x); }
    assert InRange(g.own);
    forall x | x in g.own ensures IsSlot(g.own, g.own[x].at) && g.own[x].lev == TargetLevel(g.own, g.own[x].at) {
    }
    PruneLinks(f, g, i);
  }

  lemma PruneLinks(f: Fs, g: Fs, i: nat)
    requires Links(f) && Shaped(f) && i < NINODES && SameButBitmap(f.blocks, g.blocks)
    requires g.own == Pruned(f.own, i) && InRange(g.own) && Climbs(g.own)
    requires g.inodes == f.inodes[i := f.inodes[i].(addrs := EMPTY, size := 0)]
    ensures Links(g)
  {
    hide Word;
    forall s | IsSlot(g.own, s)
      ensures IsSlot(f.own, s)
      ensures Value(g, s) == if s.Root? && s.ino == i then 0 else Value(f, s)
      ensures Value(g, s) != 0 ==> Value(g, s) in g.own && g.own[Value(g, s)].at == s
    {
      var v := Value(g, s);
      assert IsSlot(f.own, s);
      assert v == if s.Root? && s.ino == i then EMPTY[s.k] else Value(f, s);
      if v != 0 {
        assert v in f.own && f.own[v].at == s;
        assert RootSlot(f.own, v) == if s.Root? then s else RootSlot(f.own, s.blk);
      }
    }
    forall x | x in g.own ensures Value(g, g.own[x].at) == x {
      assert Value(f, f.own[x].at) == x;
    }
  }

  lemma PruneFiles(f: Fs, g: Fs, i: nat)
    requires Forest(f) && Shaped(f) && Forest(g) && Shaped(g) && i < NINODES && SameButBitmap(f.blocks, g.blocks)
    requires g.inodes == f.inodes[i := f.inodes[i].(addrs := EMPTY, size := 0)]
    requires forall j :: 0 <= j < NINODES ==> FileOk(f, j)
    ensures forall j :: 0 <= j < NINODES ==> (
              FileOk(f, j) && FileOk(g, j) && Content(g, j) == if j == i then [] else Content(f, j))
  {
    hide Lookup; hide Used;
    forall j, n | 0 <= j < NINODES && j != i && 0 <= n < MAXFILE
      ensures Lookup(g.blocks, g.inodes[j], n) == Lookup(f.blocks, f.inodes[j], n)
      ensures FileBlock(g.blocks, g.inodes[j], n) == FileBlock(f.blocks, f.inodes[j], n)
    {
      LookupFrame(f, g.blocks, j, n);
      if Lookup(f.blocks, f.inodes[j], n) != 0 { LookupWhere(f, j, n); }
    }
    hide FileBlock; hide BitmapExact; hide Tight;
    assert forall x :: x in f.own ==> g.blocks[x] == f.blocks[x];
    hide Links;
    TightEmpty(g, i);
    forall j | 0 <= j < NINODES
      ensures FileOk(f, j) && FileOk(g, j) && Content(g, j) == if j == i then [] else Content(f, j)
    {
      assert FileOk(f, j);
      if j != i {
        TightFrame(f, g, j, SizeBlocks(f.inodes[j].size));
        forall p | 0 <= p < f.inodes[j].size ensures ByteAt(g, j, p) == ByteAt(f, j, p) {
          BlockIndex(p);
        }
      }
    }
  }

  lemma FreedNone(own: Owners, i: nat)
    requires InRange(own) && Climbs(own)
    ensures forall x :: !Freed(own, x, i, 0)
  {
  }

  lemma OwnedAreUsed(f: Fs)
    requires Forest(f)
    ensures forall x: nat :: x in f.own ==> x < FSSIZE && Used(f.blocks, x)
  {
    hide Used;
  }

  lemma FileEncodable(f: Fs, i: nat)
    requires Shaped(f) && i < NINODES && FileOk(f, i)
    ensures Encodable(f.inodes[i])
  {
  }

  lemma UsedFrame(blocks: seq<Block>, r: seq<Block>)
    requires |blocks| == |r| == FSSIZE && forall x :: BMAPSTART <= x < BMAPSTART + NBITMAP ==> r[x] == blocks[x]
    ensures forall x: nat :: x < FSSIZE ==> Used(r, x) == Used(blocks, x)
  {
    hide Bit;
    forall x: nat | x < FSSIZE ensures Used(r, x) == Used(blocks, x) {
      assert BMAPSTART + x / BPB < BMAPSTART + NBITMAP;
    }
  }

  /** What an inode record holds besides the size and the pointers has no part in the file's contents. */
  lemma RecordKeepsFiles(g: Fs, h: Fs, i: nat, ino: Inode)
    requires Forest(g) && Shaped(g) && i < NINODES && (forall j :: 0 <= j < NINODES ==> FileOk(g, j))
    requires h == g.(inodes := g.inodes[i := ino]) && Encodable(ino)
    requires ino.addrs == g.inodes[i].addrs && ino.size == g.inodes[i].size
    requires ino.typ == 0 ==> ino.addrs == EMPTY && ino.size == 0
    ensures Forest(h) && Shaped(h)
    ensures forall j :: 0 <= j < NINODES ==> FileOk(g, j) && FileOk(h, j) && Content(h, j) == Content(g, j)
  {
    hide Word; hide Used; hide Lookup; hide Content;
    forall s | IsSlot(g.own, s) ensures Value(h, s) == Value(g, s) {}
    hide Links, Tight;
    forall j | 0 <= j < NINODES ensures FileOk(g, j) && FileOk(h, j) && Content(h, j) == Content(g, j) {
      assert FileOk(g, j);
      TightFrame(g, h, j, SizeBlocks(g.inodes[j].size));
      forall n | 0 <= n < MAXFILE ensures Lookup(h.blocks, h.inodes[j], n) == Lookup(g.blocks, g.inodes[j], n) {
        LookupAddrs(h.blocks, h.inodes[j], g.inodes[j], n);
      }
      forall p | 0 <= p < g.inodes[j].size ensures ByteAt(h, j, p) == ByteAt(g, j, p) {
        BlockIndex(p);
      }
    }
  }

  /** The pointer that a block hangs from is not empty. */
  lemma {:induction false} RootPointer(f: Fs, b: nat)
    requires Links(f) && b in f.own
    ensures var s := RootSlot(f.own, b); s.ino < NINODES && s.k < NROOTS && f.inodes[s.ino].addrs[s.k] != 0
    decreases 3 - f.own[b].lev
  {
    hide Word;
    assert IsSlot(f.own, f.own[b].at) && Value(f, f.own[b].at) == b;
    if f.own[b].at.Entry? { RootPointer(f, f.own[b].at.blk); }
  }

  /** Conservation: the bitmap is exactly the metadata and the trees of the allocated inodes. */
  lemma UsedByAllocated(f: Fs, b: nat)
    requires Forest(f) && Shaped(f) && b < FSSIZE && forall j :: 0 <= j < NINODES ==> FileOk(f, j)
    ensures Climbs(f.own)
    ensures Used(f.blocks, b) <==>
      b < NMETA || (b in f.own && RootSlot(f.own, b).ino < NINODES && f.inodes[RootSlot(f.own, b).ino].typ != 0)
  {
    hide Used; hide Lookup;
    if b in f.own {
      RootPointer(f, b);
      var s := RootSlot(f.own, b);
      assert FileOk(f, s.ino);
      assert EMPTY[s.k] == 0;
    }
  }

  /** Freeing a file logs bitmap blocks and one inode block: at most 26 of them. */
  lemma FreeLogs(logged: set<nat>, b: nat)
    requires forall x :: x in logged ==> (BMAPSTART <= x < BMAPSTART + NBITMAP) || x == b
    ensures |logged| <= NBITMAP + 1 && |NonBitmap(logged)| <= 1
  {
    RangeSize(BMAPSTART, NBITMAP);
    SubsetSize(logged, Range(BMAPSTART, NBITMAP) + {b});
    SubsetSize(NonBitmap(logged), {b});
  }

  /** A file that owned nothing, grown and then truncated, leaves the owner records as they were. */
  lemma TruncateUndoesGrowth(own: Owners, o: Owners, i: nat)
    requires OwnGrew(own, o, i) && forall x :: x in own ==> RootSlot(own, x).ino != i
    ensures Pruned(o, i) == own
  {
    hide RootSlot;
    forall x | x in own ensures RootSlot(o, x) == RootSlot(own, x) {
      RootSlotStable(own, o, x);
    }
  }

  lemma SameOwnersSameBits(f: Fs, g: Fs)
    requires Forest(f) && Forest(g) && f.own == g.own
    ensures |f.blocks| == |g.blocks| == FSSIZE && forall x: nat :: x < FSSIZE ==> Used(g.blocks, x) == Used(f.blocks, x)
  {
    hide Used;
  }
}
