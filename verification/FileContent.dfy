/** Files as byte sequences. */
module FileContent {
  import opened Layout
  import opened Blocks
  import opened FileTree
  import opened FileGrow
  import opened FileNodes
  import opened BlockMap
  import opened Transaction
  import opened FirstFit
  import opened InodeTable

  const MAXBYTES := 1082201088       // MAXFILE * BSIZE

  lemma BlockIndex(p: nat)
    requires p < MAXBYTES
    ensures p / BSIZE < MAXFILE
  {
  }

  /** Byte `p` of file `i`; bytes that no block holds read as 0. */
  function ByteAt(f: Fs, i: nat, p: nat): (b: Byte)
    requires Shaped(f) && i < NINODES && p < MAXBYTES
  {
    BlockIndex(p);
    FileBlock(f.blocks, f.inodes[i], p / BSIZE)[p % BSIZE]
  }

  ghost function Content(f: Fs, i: nat): (c: seq<Byte>)
    requires Shaped(f) && i < NINODES && f.inodes[i].size <= MAXBYTES
    ensures |c| == f.inodes[i].size
    ensures forall p :: 0 <= p < |c| ==> c[p] == ByteAt(f, i, p)
  {
    seq(f.inodes[i].size, p requires 0 <= p < f.inodes[i].size => ByteAt(f, i, p))
  }

  /** Blocks that `size` bytes need. */
  function SizeBlocks(size: nat): (n: nat) {
    (size + BSIZE - 1) / BSIZE
  }

  /** The inode fits its record, every block below the file's size is mapped, and the tree has no other nodes than
      these blocks need. */
  ghost predicate FileOk(f: Fs, i: nat)
    requires Shaped(f) && i < NINODES
  {
    && Encodable(f.inodes[i]) && f.inodes[i].size <= MAXBYTES
    && (f.inodes[i].typ == 0 ==> f.inodes[i].addrs == EMPTY && f.inodes[i].size == 0)
    && Tight(f, i, SizeBlocks(f.inodes[i].size))
    && forall n :: 0 <= n < MAXFILE && n * BSIZE < f.inodes[i].size ==> Lookup(f.blocks, f.inodes[i], n) != 0
  }

  /** `c` overwritten with `src` from `off` on, and extended if `src` reaches past its end. */
  function Splice(c: seq<Byte>, off: nat, src: seq<Byte>): (r: seq<Byte>)
    requires off <= |c|
  {
    c[..off] + src + (if off + |src| <= |c| then c[off + |src|..] else [])
  }

  /** `g` reads like `f` except for `src` at `off` of file `i`. */
  ghost predicate Patched(f: Fs, g: Fs, i: nat, off: nat, src: seq<Byte>)
    requires Shaped(f) && Shaped(g)
  {
    forall j, p :: 0 <= j < NINODES && 0 <= p < MAXBYTES ==>
      ByteAt(g, j, p) == if j == i && off <= p < off + |src| then src[p - off] else ByteAt(f, j, p)
  }

  lemma PatchedContent(f: Fs, g: Fs, i: nat, off: nat, src: seq<Byte>, j: nat)
    requires Shaped(f) && Shaped(g) && Patched(f, g, i, off, src) && i < NINODES && j < NINODES
    requires f.inodes[j].size <= MAXBYTES && off <= f.inodes[i].size && off + |src| <= MAXBYTES
    requires g.inodes[j].size == if j == i && off + |src| > f.inodes[j].size then off + |src| else f.inodes[j].size
    ensures Content(g, j) == if j == i then Splice(Content(f, j), off, src) else Content(f, j)
  {
    hide ByteAt; hide Content;
    var c, d := Content(g, j), if j == i then Splice(Content(f, j), off, src) else Content(f, j);
    assert |c| == |d|;
    forall p | 0 <= p < |c| ensures c[p] == d[p] {
      assert ByteAt(g, j, p) == if j == i && off <= p < off + |src| then src[p - off] else ByteAt(f, j, p);
    }
  }

  /** One patch after another is one patch with the pieces joined. */
  lemma PatchedJoin(f: Fs, g: Fs, h: Fs, i: nat, off: nat, src: seq<Byte>, more: seq<Byte>)
    requires Shaped(f) && Shaped(g) && Shaped(h)
    requires Patched(f, g, i, off, src) && Patched(g, h, i, off + |src|, more)
    ensures Patched(f, h, i, off, src + more)
  {
    hide ByteAt;
    forall j, p | 0 <= j < NINODES && 0 <= p < MAXBYTES
      ensures ByteAt(h, j, p) ==
        if j == i && off <= p < off + |src + more| then (src + more)[p - off] else ByteAt(f, j, p)
    {
      assert ByteAt(h, j, p) ==
        if j == i && off + |src| <= p < off + |src| + |more| then more[p - off - |src|] else ByteAt(g, j, p);
    }
  }

  lemma SpliceJoin(c: seq<Byte>, off: nat, src: seq<Byte>, more: seq<Byte>)
    requires off <= |c|
    ensures off + |src| <= |Splice(c, off, src)|
    ensures Splice(Splice(c, off, src), off + |src|, more) == Splice(c, off, src + more)
  {
  }

  /** What writing `piece` inside one block of a file does to the bytes of all files. */
  lemma WriteBlockPatches(f: Fs, g: Fs, i: nat, pos: nat, piece: seq<Byte>)
    requires Shaped(f) && Links(g) && Shaped(g) && SameFlat(f, g) && i < NINODES
    requires pos % BSIZE + |piece| <= BSIZE && pos < MAXBYTES && pos / BSIZE < MAXFILE
    requires Lookup(g.blocks, g.inodes[i], pos / BSIZE) != 0
    ensures var d := Lookup(g.blocks, g.inodes[i], pos / BSIZE);
            && d in g.own && g.own[d].lev == 0 && d < FSSIZE
            && var data := g.blocks[d][..pos % BSIZE] + piece + g.blocks[d][pos % BSIZE + |piece|..];
            && |data| == BSIZE
            && Patched(f, g.(blocks := g.blocks[d := data]), i, pos, piece)
            && OnlyMaps(g, g.(blocks := g.blocks[d := data]), i, pos / BSIZE)
            && Lookup(g.blocks[d := data], g.inodes[i], pos / BSIZE) == d
  {
    hide Lookup; hide FileBlock; hide Links;
    var bn, o := pos / BSIZE, pos % BSIZE;
    var d := Lookup(g.blocks, g.inodes[i], bn);
    FlatAfterWrite(g, i, bn, Zero(), i, bn);
    var data: Block := g.blocks[d][..o] + piece + g.blocks[d][o + |piece|..];
    var h := g.(blocks := g.blocks[d := data]);
    assert FileBlock(g.blocks, g.inodes[i], bn) == g.blocks[d] by { MappedBlock(g, i, bn); }
    forall j, n | 0 <= j < NINODES && 0 <= n < MAXFILE
      ensures Lookup(h.blocks, h.inodes[j], n) == Lookup(g.blocks, g.inodes[j], n)
      ensures FileBlock(h.blocks, h.inodes[j], n) ==
        if j == i && n == bn then data else FileBlock(f.blocks, f.inodes[j], n)
    {
      FlatAfterWrite(g, i, bn, data, j, n);
    }
    forall j, p | 0 <= j < NINODES && 0 <= p < MAXBYTES
      ensures ByteAt(h, j, p) == if j == i && pos <= p < pos + |piece| then piece[p - pos] else ByteAt(f, j, p)
    {
      BlockIndex(p);
      assert FileBlock(h.blocks, h.inodes[j], p / BSIZE) ==
        if j == i && p / BSIZE == bn then data else FileBlock(f.blocks, f.inodes[j], p / BSIZE);
      assert p / BSIZE == bn && o <= p % BSIZE < o + |piece| <==> pos <= p < pos + |piece|;
    }
  }

  lemma Adjoin(c: seq<Byte>, a: nat, b: nat, d: nat)
    requires a <= b <= d <= |c|
    ensures c[a..b] + c[b..d] == c[a..d]
  {
  }

  /** The part of a file's content that falls in one block is that part of the block. */
  lemma PieceOfContent(f: Fs, i: nat, pos: nat, m: nat)
    requires Forest(f) && Shaped(f) && i < NINODES && FileOk(f, i)
    requires pos < f.inodes[i].size && pos + m <= f.inodes[i].size && pos % BSIZE + m <= BSIZE
    ensures pos / BSIZE < MAXFILE && Lookup(f.blocks, f.inodes[i], pos / BSIZE) != 0
    ensures var d := Lookup(f.blocks, f.inodes[i], pos / BSIZE);
            d < FSSIZE && f.blocks[d][pos % BSIZE..pos % BSIZE + m] == Content(f, i)[pos..pos + m]
  {
    hide Lookup; hide FileBlock; hide Encodable; hide Content; hide Used;
    BlockIndex(pos);
    assert pos / BSIZE * BSIZE <= pos;
    MappedBlock(f, i, pos / BSIZE);
    hide Links;
    var d, c := Lookup(f.blocks, f.inodes[i], pos / BSIZE), Content(f, i);
    forall q | pos <= q < pos + m ensures c[q] == f.blocks[d][pos % BSIZE + q - pos] {
      assert q / BSIZE == pos / BSIZE && q % BSIZE == pos % BSIZE + q - pos;
    }
  }

  lemma MappedBlock(g: Fs, i: nat, bn: nat)
    requires Links(g) && i < NINODES && bn < MAXFILE && Lookup(g.blocks, g.inodes[i], bn) != 0
    ensures var d := Lookup(g.blocks, g.inodes[i], bn);
      d < FSSIZE && FileBlock(g.blocks, g.inodes[i], bn) == g.blocks[d]
  {
    hide Lookup;
    LookupWhere(g, i, bn);
  }

  lemma WriteBlockFacts(f: Fs, l: set<nat>, g: Fs, m: set<nat>, i: nat, pos: nat, piece: seq<Byte>, addr: nat)
    requires i < NINODES && pos < MAXBYTES && pos / BSIZE < MAXFILE && pos % BSIZE + |piece| <= BSIZE
    requires Mapped(f, l, g, m, i, pos / BSIZE, addr)
    ensures Shaped(f) && Shaped(g) && Forest(g) && NMETA <= addr < FSSIZE
    ensures var data := g.blocks[addr][..pos % BSIZE] + piece + g.blocks[addr][pos % BSIZE + |piece|..];
            var h := g.(blocks := g.blocks[addr := data]);
            && |data| == BSIZE && Forest(h)
            && Patched(f, h, i, pos, piece) && OnlyMaps(f, h, i, pos / BSIZE)
            && Lookup(h.blocks, h.inodes[i], pos / BSIZE) == addr
            && Along(f.own, l, g.own, m, PathOf(h, i, pos / BSIZE)) && addr in PathOf(h, i, pos / BSIZE)
            && Filled(f, h, i, pos / BSIZE, 1)
    ensures addr in g.own && g.own[addr].lev == 0
    ensures forall x :: 0 <= x < BMAPSTART ==> g.blocks[x] == f.blocks[x]
    ensures OnlyAddrs(f, g, i) && OwnGrew(f.own, g.own, i) && Covers(f.blocks, l, g.blocks, m)
    ensures Charged(f.blocks, l, g.blocks, m)
  {
    hide Lookup, FileBlock, Used, Ext, Patched, PathOf, BitmapExact, Links, Along, Filled;
    MappedFlat(f, l, g, m, i, pos / BSIZE, addr);
    WriteBlockPatches(f, g, i, pos, piece);
    var data: Block := g.blocks[addr][..pos % BSIZE] + piece + g.blocks[addr][pos % BSIZE + |piece|..];
    OverwriteKeepsForest(g, addr, data);
    MappedLeaf(f, l, g, m, i, pos / BSIZE, addr);
    LeafPath(g, addr, data, i, pos / BSIZE);
    AlongNew(f.own, l, g.own, m, PathOf(g, i, pos / BSIZE));
    PathFilled(f, g, g.(blocks := g.blocks[addr := data]), i, pos / BSIZE);
  }

  lemma MappedLeaf(f: Fs, l: set<nat>, g: Fs, m: set<nat>, i: nat, bn: nat, addr: nat)
    requires i < NINODES && bn < MAXFILE && Mapped(f, l, g, m, i, bn, addr)
    ensures Links(g) && addr in g.own && g.own[addr].lev == 0
  {
    hide Lookup, Used, Ext, PathOf, BitmapExact, Covers, Charged, Along, OwnGrew;
    LookupWhere(g, i, bn);
    hide Links;
  }

  /** Overwriting a leaf block leaves every way as it is; the leaf is on its own. */
  lemma LeafPath(g: Fs, d: nat, data: Block, i: nat, bn: nat)
    requires Links(g) && Shaped(g) && d in g.own && g.own[d].lev == 0 && i < NINODES && bn < MAXFILE
    ensures PathOf(g.(blocks := g.blocks[d := data]), i, bn) == PathOf(g, i, bn)
    ensures Lookup(g.blocks, g.inodes[i], bn) != 0 ==> Lookup(g.blocks, g.inodes[i], bn) in PathOf(g, i, bn)
  {
    var h := g.(blocks := g.blocks[d := data]);
    hide Word, Node, Lookup, Links;
    LookupNode(g, i, bn);
    LeafOnPath(bn);
    forall p | p in PathPos(bn) ensures Node(h, i, p) == Node(g, i, p) { NodeFrame(g, h, i, p); }
    NodesSame(g, h, i, PathPos(bn));
  }

  lemma PathFilled(f: Fs, g: Fs, h: Fs, i: nat, bn: nat)
    requires Links(f) && Links(g) && Shaped(f) && Shaped(g) && Shaped(h) && i < NINODES && bn < MAXFILE
    requires OwnGrew(f.own, g.own, i) && (forall x :: x in g.own && x !in f.own ==> x in PathOf(g, i, bn))
    requires Lookup(g.blocks, g.inodes[i], bn) != 0 && h.inodes == g.inodes
    requires forall x :: x in g.own && g.own[x].lev > 0 ==> h.blocks[x] == g.blocks[x]
    ensures Filled(f, h, i, bn, 1)
  {
    hide Node, Links, Lookup, OwnGrew, PathOf, PathPos;
    assert Window(bn, 0) == {};
    assert Window(bn, 1) == PathPos(bn);
    forall j, p | 0 <= j < NINODES && InTree(p)
      ensures Node(g, j, p) != 0 <==> Node(f, j, p) != 0 || (j == i && p in Window(bn, 1))
    {
      NodesAfter(f, g, i, bn, j, p);
    }
    FilledFrame(f, g, h, i, bn, 1);
  }

  /** File blocks that `tot` bytes at `off` touch. */
  function Touched(off: nat, tot: nat): (n: nat) {
    if tot == 0 then 0 else (off + tot - 1) / BSIZE - off / BSIZE + 1
  }

  /** writei from `f`, after `tot` bytes of `src` at `off` of file `i`. */
  ghost predicate Wrote(f: Fs, g: Fs, i: nat, off: nat, src: seq<Byte>, tot: nat)
    requires Shaped(f) && Shaped(g) && i < NINODES && tot <= |src|
  {
    && Patched(f, g, i, off, src[..tot])
    && OnlyAddrs(f, g, i) && OwnGrew(f.own, g.own, i)
    && (forall j, n :: 0 <= j < NINODES && 0 <= n < MAXFILE && Lookup(f.blocks, f.inodes[j], n) != 0 ==>
          Lookup(g.blocks, g.inodes[j], n) != 0)
    && (forall n :: 0 <= n < MAXFILE && off / BSIZE <= n && n * BSIZE < off + tot ==>
          Lookup(g.blocks, g.inodes[i], n) != 0)
    && (g.inodes != f.inodes ==> off + tot > f.inodes[i].size)
    && Filled(f, g, i, off / BSIZE, Touched(off, tot))
  }

  lemma WroteNothing(f: Fs, i: nat, off: nat, src: seq<Byte>)
    requires Shaped(f) && Climbs(f.own) && i < NINODES && FileOk(f, i) && off <= f.inodes[i].size
    ensures Wrote(f, f, i, off, src, 0)
  {
    hide Lookup; hide ByteAt; hide Encodable; hide Tight;
    FilledNone(f, i, off / BSIZE);
    hide Filled;
    assert Patched(f, f, i, off, src[..0]);
    forall n | 0 <= n < MAXFILE && off / BSIZE <= n && n * BSIZE < off + 0
      ensures Lookup(f.blocks, f.inodes[i], n) != 0
    {
    }
  }

  lemma WroteMore(f: Fs, g: Fs, h: Fs, i: nat, off: nat, src: seq<Byte>, tot: nat, m: nat)
    requires Shaped(f) && Shaped(g) && Shaped(h) && i < NINODES && tot + m <= |src| && 0 < m
    requires FileOk(f, i) && off <= f.inodes[i].size && off + |src| <= MAXBYTES && Wrote(f, g, i, off, src, tot)
    requires (off + tot) % BSIZE + m <= BSIZE && (off + tot) / BSIZE < MAXFILE
    requires Patched(g, h, i, off + tot, src[tot..tot + m]) && OnlyMaps(g, h, i, (off + tot) / BSIZE)
    requires OnlyAddrs(g, h, i) && OwnGrew(g.own, h.own, i)
    requires Lookup(h.blocks, h.inodes[i], (off + tot) / BSIZE) != 0
    requires Lookup(g.blocks, g.inodes[i], (off + tot) / BSIZE) != 0 ==> h.inodes == g.inodes
    requires tot == 0 || (off + tot) % BSIZE == 0
    requires Filled(g, h, i, (off + tot) / BSIZE, 1)
    ensures Wrote(f, h, i, off, src, tot + m)
  {
    hide Lookup; hide Patched; hide Encodable; hide OwnGrew; hide Filled; hide Tight;
    TouchedMore(off, tot, m);
    FilledMore(f, g, h, i, off / BSIZE, Touched(off, tot));
    OwnGrewTrans(f.own, g.own, h.own, i);
    PatchedJoin(f, g, h, i, off, src[..tot], src[tot..tot + m]);
    assert src[..tot] + src[tot..tot + m] == src[..tot + m];
    var bn := (off + tot) / BSIZE;
    forall n | 0 <= n < MAXFILE && off / BSIZE <= n && n * BSIZE < off + tot + m
      ensures Lookup(h.blocks, h.inodes[i], n) != 0
    {
      if n != bn { assert n * BSIZE < off + tot; }
    }
    if h.inodes != g.inodes {
      assert Lookup(f.blocks, f.inodes[i], bn) == 0;
      assert bn * BSIZE >= f.inodes[i].size;
    }
  }

  /** Each round of writei touches the next file block. */
  lemma TouchedMore(off: nat, tot: nat, m: nat)
    requires (tot == 0 || (off + tot) % BSIZE == 0) && 0 < m && (off + tot) % BSIZE + m <= BSIZE
    ensures (off + tot) / BSIZE == off / BSIZE + Touched(off, tot) && Touched(off, tot + m) == Touched(off, tot) + 1
  {
    assert (off + tot + m - 1) / BSIZE == off / BSIZE + Touched(off, tot);
  }

  /** The state after writei: content, soundness, and the other files. */
  lemma WroteAll(f: Fs, g: Fs, h: Fs, i: nat, off: nat, src: seq<Byte>)
    requires Shaped(f) && Shaped(g) && Forest(h) && Shaped(h) && i < NINODES
    requires (forall j :: 0 <= j < NINODES ==> FileOk(f, j)) && off <= f.inodes[i].size && off + |src| <= MAXBYTES
    requires f.inodes[i].typ != 0
    requires Wrote(f, g, i, off, src, |src|)
    requires h.blocks == g.blocks && h.own == g.own
    requires h.inodes ==
      g.inodes[i := g.inodes[i].(size := if off + |src| > f.inodes[i].size then off + |src| else f.inodes[i].size)]
    ensures forall j :: 0 <= j < NINODES ==>
      FileOk(f, j) && FileOk(h, j) && Content(h, j) == if j == i then Splice(Content(f, j), off, src) else Content(f, j)
  {
    hide Lookup; hide Content; hide Used;
    assert src[..|src|] == src;
    PatchedAddrs(f, g, h, i, off, src);
    forall j | 0 <= j < NINODES
      ensures FileOk(f, j) && FileOk(h, j)
      ensures Content(h, j) == if j == i then Splice(Content(f, j), off, src) else Content(f, j)
    {
      assert FileOk(f, j);
      WroteFileOk(f, g, h, i, off, src, j);
      PatchedContent(f, h, i, off, src, j);
    }
  }

  lemma WroteFileOk(f: Fs, g: Fs, h: Fs, i: nat, off: nat, src: seq<Byte>, j: nat)
    requires Shaped(f) && Shaped(g) && Forest(h) && Shaped(h) && i < NINODES && j < NINODES
    requires FileOk(f, j) && off <= f.inodes[i].size && off + |src| <= MAXBYTES
    requires f.inodes[i].typ != 0
    requires Wrote(f, g, i, off, src, |src|) && h.blocks == g.blocks
    requires h.inodes ==
      g.inodes[i := g.inodes[i].(size := if off + |src| > f.inodes[i].size then off + |src| else f.inodes[i].size)]
    ensures FileOk(h, j)
  {
    hide Lookup; hide Used; hide Patched; hide Links; hide BitmapExact; hide Tight;
    AddrsEncodable(h, j);
    WroteTight(f, g, h, i, off, src, j);
    forall n | 0 <= n < MAXFILE && n * BSIZE < h.inodes[j].size
      ensures Lookup(h.blocks, h.inodes[j], n) != 0
    {
      LookupAddrs(h.blocks, h.inodes[j], g.inodes[j], n);
      if n * BSIZE < f.inodes[j].size {
        assert Lookup(f.blocks, f.inodes[j], n) != 0;
      } else {
        assert j == i && off / BSIZE <= n;
      }
    }
  }

  /** After a write the tree has what the new size needs. */
  lemma WroteTight(f: Fs, g: Fs, h: Fs, i: nat, off: nat, src: seq<Byte>, j: nat)
    requires Shaped(f) && Shaped(g) && Links(h) && Shaped(h) && i < NINODES && j < NINODES
    requires FileOk(f, j) && off <= f.inodes[i].size && off + |src| <= MAXBYTES
    requires Filled(f, g, i, off / BSIZE, Touched(off, |src|)) && h.blocks == g.blocks
    requires h.inodes ==
      g.inodes[i := g.inodes[i].(size := if off + |src| > f.inodes[i].size then off + |src| else f.inodes[i].size)]
    requires j != i ==> g.inodes[j] == f.inodes[j]
    ensures Tight(h, j, SizeBlocks(h.inodes[j].size))
  {
    hide Links, Filled, Tight, Lookup, Encodable, InRange;
    var ext := SizeBlocks(f.inodes[j].size);
    if j == i {
      TightAfter(f, g, i, off / BSIZE, Touched(off, |src|), ext);
      TightFrame(h, g, j, SizeBlocks(h.inodes[j].size));
    } else {
      TightOthers(f, g, i, off / BSIZE, Touched(off, |src|), j, ext);
      TightFrame(h, g, j, ext);
    }
  }

  lemma LookupAddrs(blocks: seq<Block>, a: Inode, b: Inode, n: nat)
    requires |blocks| == FSSIZE && a.addrs == b.addrs && |a.addrs| == NROOTS && n < MAXFILE
    ensures Lookup(blocks, a, n) == Lookup(blocks, b, n)
  {
  }

  lemma PatchedAddrs(f: Fs, g: Fs, h: Fs, i: nat, off: nat, src: seq<Byte>)
    requires Shaped(f) && Shaped(g) && Shaped(h) && Patched(f, g, i, off, src) && h.blocks == g.blocks
    requires forall j :: 0 <= j < NINODES ==> h.inodes[j].addrs == g.inodes[j].addrs
    ensures Patched(f, h, i, off, src)
  {
    hide Lookup;
    forall j, p | 0 <= j < NINODES && 0 <= p < MAXBYTES ensures ByteAt(h, j, p) == ByteAt(g, j, p) {
      BlockIndex(p);
      LookupAddrs(h.blocks, h.inodes[j], g.inodes[j], p / BSIZE);
    }
  }

  lemma AddrsEncodable(f: Fs, j: nat)
    requires Forest(f) && Shaped(f) && j < NINODES
    ensures forall k :: 0 <= k < NROOTS ==> f.inodes[j].addrs[k] < WORDLIMIT
  {
    hide Used; hide Links;
    forall k | 0 <= k < NROOTS ensures f.inodes[j].addrs[k] < WORDLIMIT {
      if f.inodes[j].addrs[k] != 0 { RootChild(f, j, k); }
    }
  }

  /** Files do not depend on blocks below the bitmap. */
  lemma MetaFrame(f: Fs, g: Fs)
    requires Forest(f) && Shaped(f) && Shaped(g) && g.inodes == f.inodes && g.own == f.own
    requires forall x :: BMAPSTART <= x < FSSIZE ==> g.blocks[x] == f.blocks[x]
    ensures forall j :: 0 <= j < NINODES && FileOk(f, j) ==> FileOk(g, j) && Content(g, j) == Content(f, j)
  {
    hide Lookup; hide Encodable; hide Used;
    forall j, n | 0 <= j < NINODES && 0 <= n < MAXFILE
      ensures Lookup(g.blocks, g.inodes[j], n) == Lookup(f.blocks, f.inodes[j], n)
      ensures FileBlock(g.blocks, g.inodes[j], n) == FileBlock(f.blocks, f.inodes[j], n)
    {
      LookupFrame(f, g.blocks, j, n);
      if Lookup(f.blocks, f.inodes[j], n) != 0 { LookupWhere(f, j, n); }
    }
    hide FileBlock; hide BitmapExact; hide Tight;
    assert forall x :: x in f.own ==> g.blocks[x] == f.blocks[x];
    hide Links;
    forall j | 0 <= j < NINODES && FileOk(f, j) ensures FileOk(g, j) && Content(g, j) == Content(f, j) {
      TightFrame(f, g, j, SizeBlocks(f.inodes[j].size));
      forall p | 0 <= p < f.inodes[j].size ensures ByteAt(g, j, p) == ByteAt(f, j, p) {
        BlockIndex(p);
      }
    }
  }

  lemma DiskInodesFrame(blocks: seq<Block>, r: seq<Block>)
    requires |blocks| == |r| == FSSIZE && forall x :: 0 <= x < BMAPSTART ==> r[x] == blocks[x]
    ensures forall j :: 0 <= j < NINODES ==> DiskInode(r, j) == DiskInode(blocks, j)
  {
    hide GetInode;
    forall j | 0 <= j < NINODES ensures DiskInode(r, j) == DiskInode(blocks, j) {
      assert INODESTART + j / IPB < BMAPSTART;
    }
  }

  lemma SizeKeepsForest(g: Fs, i: nat, size: nat)
    requires Forest(g) && Shaped(g) && i < NINODES
    ensures var h := g.(inodes := g.inodes[i := g.inodes[i].(size := size)]); Forest(h) && Shaped(h)
  {
    hide Word; hide Used;
    var h := g.(inodes := g.inodes[i := g.inodes[i].(size := size)]);
    forall s | IsSlot(g.own, s) ensures Value(h, s) == Value(g, s) {}
  }

  /** The end of writei: the size is set if the file grew. */
  ghost function Sized(f: Fs, g: Fs, i: nat, off: nat, src: seq<Byte>): (h: Fs)
    requires Shaped(f) && Shaped(g) && i < NINODES
  {
    if off + |src| > f.inodes[i].size then g.(inodes := g.inodes[i := g.inodes[i].(size := off + |src|)]) else g
  }

  lemma WroteSized(f: Fs, g: Fs, h: Fs, i: nat, off: nat, src: seq<Byte>)
    requires Shaped(f) && Forest(g) && Shaped(g) && i < NINODES && h == Sized(f, g, i, off, src)
    requires (forall j :: 0 <= j < NINODES ==> FileOk(f, j)) && off <= f.inodes[i].size && off + |src| <= MAXBYTES
    requires f.inodes[i].typ != 0
    requires Wrote(f, g, i, off, src, |src|)
    ensures Forest(h) && Shaped(h) && OnlyAddrs(f, g, i) && h.own == g.own && OwnGrew(f.own, g.own, i)
    ensures forall j :: 0 <= j < NINODES ==> (
              FileOk(f, j) && FileOk(h, j) &&
              Content(h, j) == if j == i then Splice(Content(f, j), off, src) else Content(f, j))
    ensures off + |src| <= f.inodes[i].size ==> g.inodes == f.inodes
  {
    hide Lookup; hide Content; hide Forest; hide FileOk; hide Patched;
    var size := if off + |src| > f.inodes[i].size then off + |src| else f.inodes[i].size;
    SizeKeepsForest(g, i, size);
    assert h == g.(inodes := g.inodes[i := g.inodes[i].(size := size)]);
    WroteAll(f, g, h, i, off, src);
  }

  ghost predicate SyncedAt(f: Fs, j: nat)
    requires Shaped(f) && j < NINODES
  {
    DiskInode(f.blocks, j) == f.inodes[j]
  }

  /** The invariant of the file system: every block has one owner and one bit, and every file is as its size says. */
  ghost predicate Sound(f: Fs) {
    Forest(f) && Shaped(f) && forall j :: 0 <= j < NINODES ==> FileOk(f, j)
  }

  ghost predicate Synced(f: Fs) {
    Shaped(f) && forall j :: 0 <= j < NINODES ==> SyncedAt(f, j)
  }

  /** Of the inodes, only the size and the pointers of `i` differ. */
  ghost predicate OnlyGrew(f: Fs, g: Fs, i: nat)
    requires i < NINODES
  {
    && |f.inodes| == |g.inodes| == NINODES
    && g.inodes[i] == f.inodes[i].(addrs := g.inodes[i].addrs, size := g.inodes[i].size)
    && forall j :: 0 <= j < NINODES && j != i ==> g.inodes[j] == f.inodes[j]
  }

  /** A completed write of `src` at `off` of file `i`: the file is overwritten and extended, every
      other file is as before, all files are sound, and in-memory inodes that matched the disk do so
      again. */
  ghost predicate WriteResult(f: Fs, g: Fs, i: nat, off: nat, src: seq<Byte>) {
    && Shaped(f) && Shaped(g) && i < NINODES && off <= f.inodes[i].size && OnlyGrew(f, g, i)
    && (forall j :: 0 <= j < NINODES ==> (
          && FileOk(f, j) && FileOk(g, j)
          && Content(g, j) == if j == i then Splice(Content(f, j), off, src) else Content(f, j)))
    && (forall j :: 0 <= j < NINODES && SyncedAt(f, j) ==> SyncedAt(g, j))
  }

  /** Two consecutive writes are one write of both pieces. */
  lemma WriteResultJoin(f: Fs, g: Fs, h: Fs, i: nat, off: nat, src: seq<Byte>, more: seq<Byte>)
    requires WriteResult(f, g, i, off, src) && WriteResult(g, h, i, off + |src|, more)
    ensures WriteResult(f, h, i, off, src + more)
  {
    hide Encodable; hide Lookup; hide SyncedAt; hide Content; hide Splice; hide InRange;
    forall j | 0 <= j < NINODES
      ensures FileOk(f, j) && FileOk(h, j)
      ensures Content(h, j) == if j == i then Splice(Content(f, j), off, src + more) else Content(f, j)
    {
      assert FileOk(f, j) && FileOk(g, j) && FileOk(h, j);
      if j == i { SizedContent(f, i); SpliceJoin(Content(f, i), off, src, more); }
    }
  }

  lemma SizedContent(f: Fs, i: nat)
    requires Shaped(f) && i < NINODES && FileOk(f, i)
    ensures |Content(f, i)| == f.inodes[i].size
  {
  }
}
