/** How the forest of files changes when a block is attached or a data block is overwritten. */
module FileGrow {
  import opened Layout
  import opened Blocks
  import opened FileTree

  // ---------- every owned block is reached ----------

  /** The chain of owners of `b` is a path down from a root pointer. */
  lemma {:induction false} Reached(f: Fs, b: nat, lev: nat, idx: nat)
    requires Links(f) && b in f.own && f.own[b].lev == lev && idx < Span(lev)
    ensures var (i, k, full) := WhereIs(f.own, b, lev, idx);
            && i < NINODES && k < NROOTS && full < Span(RootLevel(k))
            && Descend(f.blocks, f.inodes[i].addrs[k], RootLevel(k), full) == Descend(f.blocks, b, lev, idx)
    decreases 3 - lev
  {
    hide Word, Digit, Rest, Span;
    var s := f.own[b].at;
    assert Value(f, s) == b;
    if s.Entry? {
      UpDigits(s.k, lev, idx);
      assert s.blk in f.own && NMETA <= s.blk < FSSIZE && f.own[s.blk].lev == lev + 1;
      assert Word(f.blocks[s.blk], s.k) == b;
      Reached(f, s.blk, lev + 1, s.k * Span(lev) + idx);
      hide Links, Value;
    }
  }

  lemma UpDigits(k: nat, lev: nat, idx: nat)
    requires k < WORDS && idx < Span(lev)
    ensures var up := k * Span(lev) + idx;
            up < Span(lev + 1) && Digit(up, lev + 1) == k && Rest(up, lev + 1) == idx
  {
    EntryIndex(k, Span(lev), idx);
  }

  lemma EntryIndex(k: nat, s: nat, idx: nat)
    requires k < WORDS && idx < s
    ensures k * s + idx < WORDS * s && (k * s + idx) / s == k && (k * s + idx) % s == idx
  {
    MulLe(k + 1, WORDS, s);
    DivUnique(k * s + idx, s, k, idx);
  }

  lemma DivUnique(x: nat, s: nat, q: nat, r: nat)
    requires x == q * s + r && r < s
    ensures x / s == q && x % s == r
  {
    DivMod(x, s);
    if x / s < q { MulLe(x / s + 1, q, s); } else if x / s > q { MulLe(q + 1, x / s, s); }
  }

  function BlockNumber(k: nat, idx: nat): (bn: nat)
    requires k < NROOTS
  {
    if k < 10 then k else if k == 10 then 10 + idx else if k == 11 then 138 + idx else 16522 + idx
  }

  /** The trees partition the owned leaf blocks: each is mapped at exactly one place of one file. */
  lemma LeafIsMapped(f: Fs, b: nat)
    requires Links(f) && b in f.own && f.own[b].lev == 0
    ensures exists i, bn {:trigger Lookup(f.blocks, f.inodes[i], bn)} ::
      0 <= i < NINODES && 0 <= bn < MAXFILE && Lookup(f.blocks, f.inodes[i], bn) == b
  {
    hide Word;
    Reached(f, b, 0, 0);
    var (i, k, idx) := WhereIs(f.own, b, 0, 0);
    assert Span(1) == 128 && Span(2) == 16384 && Span(3) == 2097152;
    var bn := BlockNumber(k, idx);
    assert RootOf(bn) == k && LeafOf(bn) == idx;
    assert Lookup(f.blocks, f.inodes[i], bn) == b;
  }

  // ---------- allocation ----------

  /** balloc's effect on the disk: the bit is set and the block is zeroed. */
  function Allocated(blocks: seq<Block>, b: nat): (r: seq<Block>)
    requires |blocks| == FSSIZE && b < FSSIZE
    ensures |r| == FSSIZE
  {
    blocks[BMAPSTART + b / BPB := SetBit(blocks[BMAPSTART + b / BPB], b % BPB, true)][b := Zero()]
  }

  lemma UsedAfterAllocated(blocks: seq<Block>, b: nat, x: nat)
    requires |blocks| == FSSIZE && NMETA <= b < FSSIZE && x < FSSIZE
    ensures Used(Allocated(blocks, b), x) == (x == b || Used(blocks, x))
  {
    hide Bit; hide SetBit;
    if x / BPB == b / BPB {
      BitAfterSet(blocks[BMAPSTART + b / BPB], b % BPB, true, x % BPB);
    }
  }

  lemma BitmapAfterAllocated(blocks: seq<Block>, own: Owners, b: nat, o: Own)
    requires BitmapExact(blocks, own) && NMETA <= b < FSSIZE
    ensures BitmapExact(Allocated(blocks, b), own[b := o])
  {
    hide Used; hide Allocated;
    forall x: nat | x < FSSIZE
      ensures Used(Allocated(blocks, b), x) <==> x < NMETA || x in own[b := o]
    {
      UsedAfterAllocated(blocks, b, x);
    }
  }

  /** Blocks above the metadata keep their bits when the bitmap blocks do. */
  lemma BitmapFrame(blocks: seq<Block>, r: seq<Block>, own: Owners)
    requires BitmapExact(blocks, own) && |r| == FSSIZE
    requires forall x :: BMAPSTART <= x < BMAPSTART + NBITMAP ==> r[x] == blocks[x]
    ensures BitmapExact(r, own)
  {
    hide Bit;
    forall x: nat | x < FSSIZE ensures Used(r, x) == Used(blocks, x) {
      assert BMAPSTART + x / BPB < BMAPSTART + NBITMAP;
    }
  }

  // ---------- growing the forest ----------

  ghost predicate Shaped(f: Fs) {
    |f.blocks| == FSSIZE && ValidInodes(f.inodes) && InRange(f.own)
  }

  /** From `f` to `g`: owner records, non-zero pointers and leaf blocks stay as they are, and the
      leaf blocks that were added are all zeroes. */
  ghost predicate Ext(f: Fs, g: Fs)
    requires Shaped(f) && Shaped(g)
  {
    && (forall x :: x in f.own ==> x in g.own && g.own[x] == f.own[x])
    && (forall x :: x in f.own && f.own[x].lev == 0 ==> g.blocks[x] == f.blocks[x])
    && (forall x :: x in g.own && x !in f.own && g.own[x].lev == 0 ==> g.blocks[x] == Zero())
    && (forall x, k :: x in f.own && f.own[x].lev > 0 && 0 <= k < WORDS && Word(f.blocks[x], k) != 0 ==>
          Word(g.blocks[x], k) == Word(f.blocks[x], k))
    && (forall i, k :: 0 <= i < NINODES && 0 <= k < NROOTS && f.inodes[i].addrs[k] != 0 ==>
          g.inodes[i].addrs[k] == f.inodes[i].addrs[k])
  }

  lemma ExtRefl(f: Fs)
    requires Shaped(f)
    ensures Ext(f, f)
  {
  }

  lemma ForestClimbs(f: Fs)
    requires Forest(f)
    ensures InRange(f.own) && Climbs(f.own)
  {
    hide Used;
  }

  lemma ForestLinks(f: Fs)
    requires Forest(f)
    ensures Links(f)
  {
    hide Links;
  }

  lemma ForestShaped(f: Fs)
    requires Forest(f)
    ensures Shaped(f)
  {
    hide Used;
  }

  lemma ExtTrans(f: Fs, g: Fs, h: Fs)
    requires Shaped(f) && Shaped(g) && Shaped(h) && Ext(f, g) && Ext(g, h)
    ensures Ext(f, h)
  {
    hide Word; hide Zero;
  }

  lemma ExtPointer(f: Fs, g: Fs, p: nat, k: nat)
    requires Shaped(f) && Shaped(g) && Ext(f, g)
    requires p in f.own && f.own[p].lev > 0 && k < WORDS && Word(f.blocks[p], k) != 0
    ensures Word(g.blocks[p], k) == Word(f.blocks[p], k)
  {
    hide Word;
  }

  lemma {:induction false} DescendExt(f: Fs, g: Fs, v: nat, lev: nat, idx: nat)
    requires Links(f) && Shaped(g) && Ext(f, g)
    requires v in f.own && f.own[v].lev == lev && idx < Span(lev) && Descend(f.blocks, v, lev, idx) != 0
    ensures Descend(g.blocks, v, lev, idx) == Descend(f.blocks, v, lev, idx)
    decreases lev
  {
    hide Word; hide Digit; hide Rest;
    assert |f.blocks| == |g.blocks| == FSSIZE && NMETA <= v < FSSIZE;
    hide Links; hide Ext;
    if lev > 0 {
      hide Span;
      var k := Digit(idx, lev);
      Child(f, v, k);
      ExtPointer(f, g, v, k);
      DescendExt(f, g, Word(f.blocks[v], k), lev - 1, Rest(idx, lev));
    }
  }

  lemma DescendNull(blocks: seq<Block>, lev: nat, idx: nat)
    requires |blocks| == FSSIZE && idx < Span(lev)
    ensures Descend(blocks, 0, lev, idx) == 0
  {
  }

  /** A file block that is mapped stays mapped to the same disk block. */
  lemma LookupStable(f: Fs, g: Fs, j: nat, n: nat)
    requires Links(f) && Shaped(g) && Ext(f, g)
    requires j < NINODES && n < MAXFILE && Lookup(f.blocks, f.inodes[j], n) != 0
    ensures Lookup(g.blocks, g.inodes[j], n) == Lookup(f.blocks, f.inodes[j], n)
  {
    hide Word; hide Descend; hide LeafOf;
    var k, idx := RootOf(n), LeafOf(n);
    DescendNull(f.blocks, RootLevel(k), idx);
    RootChild(f, j, k);
    DescendExt(f, g, f.inodes[j].addrs[k], RootLevel(k), idx);
  }

  /** A file block that was unmapped can only be mapped to a block that was not owned before. */
  lemma NewMappingIsNew(f: Fs, g: Fs, j: nat, n: nat)
    requires Links(f) && Links(g) && Ext(f, g)
    requires j < NINODES && n < MAXFILE && Lookup(f.blocks, f.inodes[j], n) == 0
    requires Lookup(g.blocks, g.inodes[j], n) != 0
    ensures var d := Lookup(g.blocks, g.inodes[j], n); d in g.own && g.own[d].lev == 0 && d !in f.own
  {
    hide Word; hide Lookup;
    var d := Lookup(g.blocks, g.inodes[j], n);
    LookupWhere(g, j, n);
    if d in f.own {
      assert f.own[d].lev == 0;
      LeafIsMapped(f, d);
      var i, bn :| 0 <= i < NINODES && 0 <= bn < MAXFILE && Lookup(f.blocks, f.inodes[i], bn) == d;
      LookupStable(f, g, i, bn);
      LookupInjective(g, i, bn, j, n);
    }
  }

  /** Growing the forest changes no byte that any file reads. */
  lemma FlatAfterGrow(f: Fs, g: Fs, j: nat, n: nat)
    requires Links(f) && Links(g) && Ext(f, g)
    requires j < NINODES && n < MAXFILE
    ensures FileBlock(g.blocks, g.inodes[j], n) == FileBlock(f.blocks, f.inodes[j], n)
  {
    hide Word; hide Lookup;
    if Lookup(f.blocks, f.inodes[j], n) != 0 {
      LookupWhere(f, j, n);
      LookupStable(f, g, j, n);
    } else if Lookup(g.blocks, g.inodes[j], n) != 0 {
      NewMappingIsNew(f, g, j, n);
    }
  }

  /** If `d` is the only leaf added, and (i, bn) maps to it, no other file block is remapped. */
  lemma OthersUnmoved(f: Fs, g: Fs, i: nat, bn: nat, j: nat, n: nat)
    requires Links(f) && Links(g) && Ext(f, g)
    requires i < NINODES && bn < MAXFILE && j < NINODES && n < MAXFILE && (i != j || bn != n)
    requires forall x :: x in g.own && x !in f.own && g.own[x].lev == 0 ==> x == Lookup(g.blocks, g.inodes[i], bn)
    ensures Lookup(g.blocks, g.inodes[j], n) == Lookup(f.blocks, f.inodes[j], n)
  {
    hide Word; hide Lookup; hide Ext;
    if Lookup(f.blocks, f.inodes[j], n) != 0 {
      LookupStable(f, g, j, n);
    } else if Lookup(g.blocks, g.inodes[j], n) != 0 {
      NewMappingIsNew(f, g, j, n);
      LookupInjective(g, i, bn, j, n);
    }
  }

  lemma FreshIsNew(f: Fs, b: nat)
    requires Forest(f) && b < FSSIZE && !Used(f.blocks, b)
    ensures NMETA <= b && b !in f.own && BMAPSTART + b / BPB < BMAPSTART + NBITMAP
  {
    hide Used; hide Links;
  }

  function EntrySet(blocks: seq<Block>, b: nat, p: nat, k: nat): (r: seq<Block>)
    requires |blocks| == FSSIZE && b < FSSIZE && p < FSSIZE && k < WORDS
    ensures |r| == FSSIZE
  {
    Allocated(blocks, b)[p := SetWord(Allocated(blocks, b)[p], k, b)]
  }

  lemma EntryWords(blocks: seq<Block>, own: Owners, b: nat, p: nat, k: nat, x: nat, j: nat)
    requires |blocks| == FSSIZE && InRange(own) && NMETA <= b < FSSIZE && b !in own && BMAPSTART + b / BPB < NMETA
    requires p in own && k < WORDS && x in own && j < WORDS
    ensures Word(EntrySet(blocks, b, p, k)[x], j) == if x == p && j == k then b else Word(blocks[x], j)
    ensures x != p ==> EntrySet(blocks, b, p, k)[x] == blocks[x]
  {
    hide Word; hide SetWord; hide SetBit;
    if x == p { WordAfterSet(blocks[p], k, b, j); }
  }

  lemma EntryDisk(f: Fs, b: nat, p: nat, k: nat, o: Owners)
    requires Forest(f) && b < FSSIZE && !Used(f.blocks, b) && p in f.own && k < WORDS
    requires b !in f.own && BMAPSTART + b / BPB < NMETA <= b && b in o && o == f.own[b := o[b]]
    ensures var r := EntrySet(f.blocks, b, p, k);
            && BitmapExact(r, o) && r[b] == Zero()
            && (forall x, j :: x in f.own && 0 <= j < WORDS ==>
                  Word(r[x], j) == if x == p && j == k then b else Word(f.blocks[x], j))
            && (forall x :: x in f.own && x != p ==> r[x] == f.blocks[x])
            && (forall j :: 0 <= j < WORDS ==> Word(r[b], j) == 0)
  {
    hide Word; hide SetWord; hide SetBit; hide Used; hide Zero; hide BitmapExact; hide EntrySet;
    var r := EntrySet(f.blocks, b, p, k);
    assert BitmapExact(r, o) && r[b] == Zero() by {
      BitmapAfterAllocated(f.blocks, f.own, b, o[b]);
      EntryForm(f.blocks, b, p, k);
      BitmapFrame(Allocated(f.blocks, b), r, o);
    }
    forall x, j | x in f.own && 0 <= j < WORDS
      ensures Word(r[x], j) == if x == p && j == k then b else Word(f.blocks[x], j)
    {
      EntryWords(f.blocks, f.own, b, p, k, x, j);
    }
    forall x | x in f.own && x != p ensures r[x] == f.blocks[x] {
      EntryWords(f.blocks, f.own, b, p, k, x, 0);
    }
    forall j | 0 <= j < WORDS ensures Word(r[b], j) == 0 {
      WordOfZero(j);
    }
  }

  /** Storing a fresh block in an empty pointer of an owned index block. */
  lemma AttachEntry(f: Fs, b: nat, p: nat, k: nat)
    requires Forest(f) && b < FSSIZE && !Used(f.blocks, b)
    requires p in f.own && f.own[p].lev > 0 && k < WORDS && Word(f.blocks[p], k) == 0
    ensures b !in f.own && BMAPSTART + b / BPB < NMETA <= b
    ensures var g := Fs(EntrySet(f.blocks, b, p, k), f.inodes, f.own[b := Own(Entry(p, k), f.own[p].lev - 1)]);
            Forest(g) && Ext(f, g)
  {
    hide Word; hide Used; hide Zero; hide BitmapExact; hide EntrySet;
    FreshIsNew(f, b);
    var g := Fs(EntrySet(f.blocks, b, p, k), f.inodes, f.own[b := Own(Entry(p, k), f.own[p].lev - 1)]);
    EntryDisk(f, b, p, k, g.own);
    assert Climbs(g.own);
    EntryLinks(f, b, p, k, g.blocks, g.own);
    assert Shaped(f);
    hide Links;
    assert Ext(f, g);
  }

  lemma EntryForm(blocks: seq<Block>, b: nat, p: nat, k: nat)
    requires |blocks| == FSSIZE && b < FSSIZE && p < FSSIZE && k < WORDS
    ensures EntrySet(blocks, b, p, k) == Allocated(blocks, b)[p := SetWord(Allocated(blocks, b)[p], k, b)]
  {
  }

  lemma EntryLinks(f: Fs, b: nat, p: nat, k: nat, r: seq<Block>, o: Owners)
    requires Links(f) && NMETA <= b < FSSIZE && b !in f.own && |r| == FSSIZE
    requires p in f.own && f.own[p].lev > 0 && k < WORDS && Word(f.blocks[p], k) == 0
    requires o == f.own[b := Own(Entry(p, k), f.own[p].lev - 1)] && InRange(o) && Climbs(o)
    requires forall x, j :: x in f.own && 0 <= j < WORDS ==>
      Word(r[x], j) == if x == p && j == k then b else Word(f.blocks[x], j)
    requires forall j :: 0 <= j < WORDS ==> Word(r[b], j) == 0
    ensures Links(Fs(r, f.inodes, o))
  {
    hide Word;
    forall x | x in o ensures Value(Fs(r, f.inodes, o), o[x].at) == x {
      if x != b { assert f.own[x].at != Entry(p, k); }
    }
    forall s | IsSlot(o, s) && Value(Fs(r, f.inodes, o), s) != 0
      ensures Value(Fs(r, f.inodes, o), s) in o && o[Value(Fs(r, f.inodes, o), s)].at == s
    {
      if s != Entry(p, k) {
        assert IsSlot(f.own, s);
      }
    }
  }

  function RootSet(inodes: seq<Inode>, i: nat, k: nat, b: nat): (r: seq<Inode>)
    requires i < |inodes| && k < |inodes[i].addrs|
  {
    inodes[i := inodes[i].(addrs := inodes[i].addrs[k := b])]
  }

  /** Storing a fresh block in an empty pointer of an inode. */
  lemma AttachRoot(f: Fs, b: nat, i: nat, k: nat)
    requires Forest(f) && b < FSSIZE && !Used(f.blocks, b)
    requires i < NINODES && k < NROOTS && f.inodes[i].addrs[k] == 0
    ensures b !in f.own && BMAPSTART + b / BPB < NMETA <= b
    ensures var g := Fs(Allocated(f.blocks, b), RootSet(f.inodes, i, k, b), f.own[b := Own(Root(i, k), RootLevel(k))]);
            Forest(g) && Ext(f, g)
  {
    hide Word; hide SetBit; hide Used; hide BitmapExact; hide Zero;
    FreshIsNew(f, b);
    var g := Fs(Allocated(f.blocks, b), RootSet(f.inodes, i, k, b), f.own[b := Own(Root(i, k), RootLevel(k))]);
    BitmapAfterAllocated(f.blocks, f.own, b, g.own[b]);
    assert (forall x :: x in f.own ==> g.blocks[x] == f.blocks[x]) && g.blocks[b] == Zero();
    hide Allocated;
    forall j | 0 <= j < WORDS ensures Word(g.blocks[b], j) == 0 {
      WordOfZero(j);
    }
    assert Climbs(g.own);
    RootLinks(f, b, i, k, g.blocks, g.own);
    assert Shaped(f) && Shaped(g);
    RootShape(f.inodes, i, k, b);
    hide Links, RootSet, Shaped, Climbs;
    ExtAdded(f, g, b);
  }

  /** A zeroed block was added, and no pointer in use changed. */
  lemma ExtAdded(f: Fs, g: Fs, b: nat)
    requires Shaped(f) && Shaped(g) && b in g.own && b !in f.own && g.own == f.own[b := g.own[b]]
    requires (forall x :: x in f.own ==> g.blocks[x] == f.blocks[x]) && g.blocks[b] == Zero()
    requires forall j, n :: 0 <= j < NINODES && 0 <= n < NROOTS && f.inodes[j].addrs[n] != 0 ==>
      g.inodes[j].addrs[n] == f.inodes[j].addrs[n]
    ensures Ext(f, g)
  {
    hide Word, Zero;
  }

  lemma RootShape(inodes: seq<Inode>, i: nat, k: nat, b: nat)
    requires ValidInodes(inodes) && i < NINODES && k < NROOTS && inodes[i].addrs[k] == 0
    ensures ValidInodes(RootSet(inodes, i, k, b)) && |inodes| == NINODES == |RootSet(inodes, i, k, b)|
    ensures forall j, n :: 0 <= j < NINODES && 0 <= n < NROOTS ==>
      |inodes[j].addrs| == NROOTS == |RootSet(inodes, i, k, b)[j].addrs|
      && (inodes[j].addrs[n] != 0 ==> RootSet(inodes, i, k, b)[j].addrs[n] == inodes[j].addrs[n])
  {
  }

  lemma RootLinks(f: Fs, b: nat, i: nat, k: nat, r: seq<Block>, o: Owners)
    requires Links(f) && NMETA <= b < FSSIZE && b !in f.own && |r| == FSSIZE
    requires i < NINODES && k < NROOTS && f.inodes[i].addrs[k] == 0
    requires o == f.own[b := Own(Root(i, k), RootLevel(k))] && InRange(o) && Climbs(o)
    requires forall x :: x in f.own ==> r[x] == f.blocks[x]
    requires forall j :: 0 <= j < WORDS ==> Word(r[b], j) == 0
    ensures Links(Fs(r, RootSet(f.inodes, i, k, b), o))
  {
    hide Word;
    var n := RootSet(f.inodes, i, k, b);
    forall x | x in o ensures Value(Fs(r, n, o), o[x].at) == x {
      if x != b { assert f.own[x].at != Root(i, k); }
    }
    forall s | IsSlot(o, s) && Value(Fs(r, n, o), s) != 0
      ensures Value(Fs(r, n, o), s) in o && o[Value(Fs(r, n, o), s)].at == s
    {
      if s != Root(i, k) {
        assert IsSlot(f.own, s);
      }
    }
  }

  // ---------- overwriting ----------

  /** Overwriting a leaf block, or a block that is neither owned nor in the bitmap. */
  lemma OverwriteKeepsForest(f: Fs, d: nat, data: Block)
    requires Forest(f) && d < FSSIZE
    requires (d in f.own && f.own[d].lev == 0) || d < BMAPSTART
    ensures Forest(f.(blocks := f.blocks[d := data]))
  {
    hide Word; hide Used;
    var r := f.blocks[d := data];
    BitmapFrame(f.blocks, r, f.own);
    forall s | IsSlot(f.own, s) ensures Value(f.(blocks := r), s) == Value(f, s) {}
  }

  lemma {:induction false} DescendFrame(f: Fs, r: seq<Block>, v: nat, lev: nat, idx: nat)
    requires Links(f) && |r| == FSSIZE && idx < Span(lev)
    requires forall x :: x in f.own && f.own[x].lev > 0 ==> r[x] == f.blocks[x]
    requires v == 0 || (v in f.own && f.own[v].lev == lev)
    ensures Descend(r, v, lev, idx) == Descend(f.blocks, v, lev, idx)
    decreases lev
  {
    hide Word; hide Digit; hide Rest;
    if v != 0 && lev > 0 {
      hide Span;
      var k := Digit(idx, lev);
      if Word(f.blocks[v], k) != 0 { Child(f, v, k); }
      DescendFrame(f, r, Word(f.blocks[v], k), lev - 1, Rest(idx, lev));
    }
  }

  /** Lookups depend on index blocks alone. */
  lemma LookupFrame(f: Fs, r: seq<Block>, j: nat, n: nat)
    requires Links(f) && |r| == FSSIZE && j < NINODES && n < MAXFILE
    requires forall x :: x in f.own && f.own[x].lev > 0 ==> r[x] == f.blocks[x]
    ensures Lookup(r, f.inodes[j], n) == Lookup(f.blocks, f.inodes[j], n)
  {
    hide Word; hide Descend;
    var k := RootOf(n);
    if f.inodes[j].addrs[k] != 0 { RootChild(f, j, k); }
    DescendFrame(f, r, f.inodes[j].addrs[k], RootLevel(k), LeafOf(n));
  }

  /** Writing the block that file block (i, bn) maps to changes that file block and no other. */
  lemma FlatAfterWrite(f: Fs, i: nat, bn: nat, data: Block, j: nat, n: nat)
    requires Links(f) && i < NINODES && bn < MAXFILE && j < NINODES && n < MAXFILE
    requires Lookup(f.blocks, f.inodes[i], bn) != 0
    ensures var d := Lookup(f.blocks, f.inodes[i], bn);
            && d in f.own && f.own[d].lev == 0
            && Lookup(f.blocks[d := data], f.inodes[j], n) == Lookup(f.blocks, f.inodes[j], n)
            && FileBlock(f.blocks[d := data], f.inodes[j], n) ==
              if i == j && bn == n then data else FileBlock(f.blocks, f.inodes[j], n)
  {
    hide Word; hide Lookup;
    LookupWhere(f, i, bn);
    var d := Lookup(f.blocks, f.inodes[i], bn);
    LookupFrame(f, f.blocks[d := data], j, n);
    if Lookup(f.blocks, f.inodes[j], n) == d && (i != j || bn != n) {
      LookupInjective(f, i, bn, j, n);
    }
  }
}
