/** The block map bmap, level by level, against the generic trees of FileTree. */
module BlockMap {
  import opened Layout
  import opened Blocks
  import opened FileTree
  import opened FileGrow
  import opened FileNodes
  import opened Transaction
  import opened FirstFit

  /** A block of owner records `o` that was not in `own`, or that has a new block below it. */
  ghost predicate Earned(own: Owners, o: Owners, x: nat) {
    x in o && (x !in own || exists y :: y in o && y !in own && o[y].at.Entry? && o[y].at.blk == x)
  }

  lemma EarnedTrans(own: Owners, o: Owners, p: Owners, x: nat)
    requires forall y :: y in own ==> y in o && o[y] == own[y]
    requires forall y :: y in o ==> y in p && p[y] == o[y]
    ensures Earned(own, o, x) || Earned(o, p, x) ==> Earned(own, p, x)
  {
    if Earned(own, o, x) && x in own {
      var y :| y in o && y !in own && o[y].at.Entry? && o[y].at.blk == x;
      assert y in p && p[y] == o[y];
    } else if Earned(o, p, x) && x in own {
      var y :| y in p && y !in o && p[y].at.Entry? && p[y].at.blk == x;
      assert y !in own;
    }
  }

  /** What every step of the block map keeps. Along `path`, it logs besides bitmap blocks the index blocks that are new
      or have a new block below them, and the new data block. */
  ghost predicate Grew(f: Fs, l: set<nat>, g: Fs, m: set<nat>, path: set<nat>) {
    && Forest(f) && Forest(g) && Shaped(f) && Shaped(g) && Ext(f, g)
    && Covers(f.blocks, l, g.blocks, m) && Charged(f.blocks, l, g.blocks, m)
    && (forall x :: 0 <= x < BMAPSTART ==> g.blocks[x] == f.blocks[x])
    && Along(f.own, l, g.own, m, path)
  }

  ghost predicate Along(own: Owners, l: set<nat>, o: Owners, m: set<nat>, path: set<nat>) {
    && (forall x :: x in o && x !in own ==> x in path)
    && (forall x :: x in m ==> x in l || IsBitmap(x) || (x in path && Earned(own, o, x)))
  }

  lemma AlongTrans(own: Owners, l: set<nat>, o: Owners, m: set<nat>, path: set<nat>, p: Owners, n: set<nat>,
                   more: set<nat>)
    requires Along(own, l, o, m, path) && Along(o, m, p, n, more)
    requires forall y :: y in own ==> y in o && o[y] == own[y]
    requires forall y :: y in o ==> y in p && p[y] == o[y]
    ensures Along(own, l, p, n, path + more)
  {
    hide Earned;
    forall x | x in n ensures x in l || IsBitmap(x) || (x in path + more && Earned(own, p, x)) {
      EarnedTrans(own, o, p, x);
    }
  }

  lemma AlongMore(own: Owners, l: set<nat>, o: Owners, m: set<nat>, path: set<nat>, more: set<nat>)
    requires Along(own, l, o, m, path) && path <= more
    ensures Along(own, l, o, m, more)
  {
    hide Earned;
  }

  lemma AlongNew(own: Owners, l: set<nat>, o: Owners, m: set<nat>, path: set<nat>)
    requires Along(own, l, o, m, path)
    ensures forall x :: x in o && x !in own ==> x in path
  {
    hide Earned;
  }

  lemma GrewRefl(f: Fs, l: set<nat>)
    requires Forest(f)
    ensures Grew(f, l, f, l, {})
  {
    hide Used, Links;
    ForestShaped(f);
    ExtRefl(f);
    CoversNothing(f.blocks, l);
    ChargedNothing(f.blocks, l);
    hide BitmapExact;
  }

  lemma GrewMore(f: Fs, l: set<nat>, g: Fs, m: set<nat>, path: set<nat>, more: set<nat>)
    requires Grew(f, l, g, m, path) && path <= more
    ensures Grew(f, l, g, m, more)
  {
    AlongMore(f.own, l, g.own, m, path, more);
    hide Forest, Ext, Covers, Charged, Along;
  }

  lemma GrewTrans(f: Fs, l: set<nat>, g: Fs, m: set<nat>, path: set<nat>, h: Fs, n: set<nat>, more: set<nat>)
    requires Grew(f, l, g, m, path) && Grew(g, m, h, n, more)
    ensures Grew(f, l, h, n, path + more)
  {
    AlongTrans(f.own, l, g.own, m, path, h.own, n, more);
    hide Forest; hide Ext; hide Covers; hide Charged; hide Along;
    ExtTrans(f, g, h);
    CoversTrans(f.blocks, l, g.blocks, m, h.blocks, n);
    ChargedTrans(f.blocks, l, g.blocks, m, h.blocks, n);
  }

  lemma GrewPointer(f: Fs, l: set<nat>, g: Fs, m: set<nat>, path: set<nat>, p: nat, k: nat)
    requires Grew(f, l, g, m, path) && p in f.own && f.own[p].lev > 0 && k < WORDS && Word(f.blocks[p], k) != 0
    ensures p in g.own && g.own[p] == f.own[p] && Word(g.blocks[p], k) == Word(f.blocks[p], k)
  {
    hide Forest; hide Word;
    ExtPointer(f, g, p, k);
  }

  /** The blocks that hold file block `bn` and the pointers to it. */
  ghost function PathOf(f: Fs, i: nat, bn: nat): (s: set<nat>)
    requires Shaped(f) && i < NINODES && bn < MAXFILE
  {
    Nodes(f, i, PathPos(bn))
  }

  lemma Digits1(idx: nat)
    requires idx < 128
    ensures idx < Span(1) && Digit(idx, 1) == idx && Rest(idx, 1) == 0
  {
  }

  lemma Digits2(idx: nat)
    requires idx < 16384
    ensures idx < Span(2) && Digit(idx, 2) == idx / 128 && Rest(idx, 2) == idx % 128
  {
    assert Span(1) == 128 && Span(2) == 16384;
  }

  lemma Digits3(idx: nat)
    requires idx < 2097152
    ensures idx < Span(3) && Digit(idx, 3) == idx / 16384 && Rest(idx, 3) == idx % 16384
    ensures idx % 16384 / 128 == idx / 128 % 128 && idx % 16384 % 128 == idx % 128
  {
    assert Span(2) == 16384 by { assert Span(1) == 128; }
    assert Span(3) == 2097152;
  }

  lemma DescendStep(blocks: seq<Block>, v: nat, lev: nat, idx: nat, k: nat, rest: nat)
    requires |blocks| == FSSIZE && lev > 0 && idx < Span(lev) && k == Digit(idx, lev) && rest == Rest(idx, lev)
    ensures Descend(blocks, v, lev, idx) == Descend(blocks, At(blocks, v, k), lev - 1, rest)
  {
    hide Word; hide Digit; hide Rest; hide Span;
  }

  lemma DescendLeaf(blocks: seq<Block>, v: nat, idx: nat)
    requires |blocks| == FSSIZE && idx < Span(0)
    ensures Descend(blocks, v, 0, idx) == if v < FSSIZE then v else 0
  {
  }

  lemma NodesJoin(f: Fs, i: nat, s: set<Pos>, t: set<Pos>)
    requires Shaped(f) && i < NINODES
    ensures Nodes(f, i, s + t) == Nodes(f, i, s) + Nodes(f, i, t)
  {
    hide Node, Shaped;
  }

  lemma NodesOne(f: Fs, i: nat, p: Pos)
    requires Shaped(f) && i < NINODES
    ensures Nodes(f, i, {p}) == {Node(f, i, p)}
  {
    hide Node, Shaped;
  }

  lemma NodesFour(f: Fs, i: nat, p: Pos, q: Pos, r: Pos, s: Pos)
    requires Shaped(f) && i < NINODES
    ensures Nodes(f, i, {p, q, r, s}) == {Node(f, i, p), Node(f, i, q), Node(f, i, r), Node(f, i, s)}
  {
    hide Node, Shaped, Nodes;
    assert {p, q, r, s} == {p} + {q} + {r} + {s};
    NodesOne(f, i, p);
    NodesOne(f, i, q);
    NodesOne(f, i, r);
    NodesOne(f, i, s);
    NodesJoin(f, i, {p}, {q});
    NodesJoin(f, i, {p} + {q}, {r});
    NodesJoin(f, i, {p} + {q} + {r}, {s});
  }

  lemma Direct(f: Fs, i: nat, bn: nat)
    requires Shaped(f) && i < NINODES && bn < 10
    ensures var c := f.inodes[i].addrs[bn];
            && Lookup(f.blocks, f.inodes[i], bn) == (if c < FSSIZE then c else 0)
            && Node(f, i, Leaf(bn)) == c && PathOf(f, i, bn) == {c}
  {
    hide Descend; hide InRange;
    DescendLeaf(f.blocks, f.inodes[i].addrs[bn], 0);
    NodesOne(f, i, Pos(bn, 0, 0));
    hide Nodes;
  }

  lemma Single(f: Fs, i: nat, bn: nat)
    requires Shaped(f) && i < NINODES && bn < 128
    ensures var a := f.inodes[i].addrs[10]; var c := At(f.blocks, a, bn);
            && Lookup(f.blocks, f.inodes[i], bn + 10) == (if c < FSSIZE then c else 0)
            && Node(f, i, Leaf(bn + 10)) == c && PathOf(f, i, bn + 10) == {a, c}
  {
    hide At; hide Descend; hide Digit; hide Rest; hide InRange;
    Digits1(bn);
    DescendStep(f.blocks, f.inodes[i].addrs[10], 1, bn, bn, 0);
    DescendLeaf(f.blocks, At(f.blocks, f.inodes[i].addrs[10], bn), 0);
    var p, q := Pos(10, 1, 0), Pos(10, 0, bn);
    assert Up(q) == p;
    assert PathPos(bn + 10) == {p, q, q, q};
    NodesFour(f, i, p, q, q, q);
    hide Nodes, Span;
  }

  lemma Double(f: Fs, i: nat, bn: nat)
    requires Shaped(f) && i < NINODES && bn < 16384
    ensures var a := f.inodes[i].addrs[11]; var b := At(f.blocks, a, bn / 128); var c := At(f.blocks, b, bn % 128);
            && Lookup(f.blocks, f.inodes[i], bn + 138) == (if c < FSSIZE then c else 0)
            && Node(f, i, Leaf(bn + 138)) == c && PathOf(f, i, bn + 138) == {a, b, c}
  {
    hide At; hide Descend; hide Digit; hide Rest; hide InRange;
    Digits2(bn);
    Digits1(bn % 128);
    var a := f.inodes[i].addrs[11];
    DescendStep(f.blocks, a, 2, bn, bn / 128, bn % 128);
    DescendStep(f.blocks, At(f.blocks, a, bn / 128), 1, bn % 128, bn % 128, 0);
    DescendLeaf(f.blocks, At(f.blocks, At(f.blocks, a, bn / 128), bn % 128), 0);
    var p, q, r := Pos(11, 2, 0), Pos(11, 1, bn / 128), Pos(11, 0, bn);
    assert Up(r) == q && Up(q) == p;
    assert PathPos(bn + 138) == {p, q, r, r};
    NodesFour(f, i, p, q, r, r);
    hide Nodes, Span;
  }

  lemma Triple(f: Fs, i: nat, bn: nat)
    requires Shaped(f) && i < NINODES && bn < 2097152
    ensures var a := f.inodes[i].addrs[12]; var b := At(f.blocks, a, bn / 16384);
            var c := At(f.blocks, b, bn / 128 % 128); var d := At(f.blocks, c, bn % 128);
            && Lookup(f.blocks, f.inodes[i], bn + 16522) == (if d < FSSIZE then d else 0)
            && Node(f, i, Leaf(bn + 16522)) == d && PathOf(f, i, bn + 16522) == {a, b, c, d}
  {
    hide At; hide Descend; hide Digit; hide Rest; hide InRange;
    Digits3(bn);
    Digits2(bn % 16384);
    Digits1(bn % 128);
    var a := f.inodes[i].addrs[12];
    var b := At(f.blocks, a, bn / 16384);
    var c := At(f.blocks, b, bn / 128 % 128);
    DescendStep(f.blocks, a, 3, bn, bn / 16384, bn % 16384);
    DescendStep(f.blocks, b, 2, bn % 16384, bn / 128 % 128, bn % 128);
    DescendStep(f.blocks, c, 1, bn % 128, bn % 128, 0);
    DescendLeaf(f.blocks, At(f.blocks, c, bn % 128), 0);
    TriplePath(f, i, bn);
    hide Nodes, Span, Node;
  }

  lemma TriplePath(f: Fs, i: nat, bn: nat)
    requires Shaped(f) && i < NINODES && bn < 2097152
    ensures var a := f.inodes[i].addrs[12]; var b := At(f.blocks, a, bn / 16384);
            var c := At(f.blocks, b, bn / 128 % 128); var d := At(f.blocks, c, bn % 128);
            Node(f, i, Leaf(bn + 16522)) == d && PathOf(f, i, bn + 16522) == {a, b, c, d}
  {
    hide At, InRange, Span;
    var p, q, r, s := Pos(12, 3, 0), Pos(12, 2, bn / 16384), Pos(12, 1, bn / 128), Pos(12, 0, bn);
    assert Up(s) == r && Up(r) == q && Up(q) == p;
    assert Node(f, i, q) == At(f.blocks, f.inodes[i].addrs[12], bn / 16384);
    assert Node(f, i, r) == At(f.blocks, Node(f, i, q), bn / 128 % 128);
    NodesFour(f, i, p, q, r, s);
    hide Nodes;
  }

  /** bmap finds the block at the leaf's position. */
  lemma LookupNode(f: Fs, i: nat, bn: nat)
    requires Links(f) && Shaped(f) && i < NINODES && bn < MAXFILE
    ensures Lookup(f.blocks, f.inodes[i], bn) == Node(f, i, Leaf(bn))
    ensures Lookup(f.blocks, f.inodes[i], bn) != 0 ==> AllThere(f, i, PathPos(bn))
  {
    hide Lookup, Node, PathOf, At, Links;
    if bn < 10 { Direct(f, i, bn); }
    else if bn < 138 { Single(f, i, bn - 10); }
    else if bn < 16522 { Double(f, i, bn - 138); }
    else { Triple(f, i, bn - 16522); }
    if Node(f, i, Leaf(bn)) != 0 {
      NodeOwn(f, i, Leaf(bn));
      PathThere(f, i, bn);
    }
  }

  /** Where a data block is, its whole way is. */
  lemma PathThere(f: Fs, i: nat, bn: nat)
    requires Links(f) && Shaped(f) && i < NINODES && bn < MAXFILE && Node(f, i, Leaf(bn)) != 0
    ensures AllThere(f, i, PathPos(bn))
  {
    hide Node, Links;
    forall p | p in PathPos(bn) ensures InTree(p) && Node(f, i, p) != 0 {
      PathInTree(bn, p);
      UpThere(f, i, bn, p);
    }
  }

  lemma {:induction false} UpThere(f: Fs, i: nat, bn: nat, p: Pos)
    requires Links(f) && Shaped(f) && i < NINODES && bn < MAXFILE && Node(f, i, Leaf(bn)) != 0 && p in PathPos(bn)
    ensures Node(f, i, p) != 0
    decreases p.lev
  {
    PathInTree(bn, p);
    hide Node, Links;
    if p.lev > 0 {
      DownOnPath(bn, p);
      var c := Down(bn, p);
      UpThere(f, i, bn, c);
      NodeOwn(f, i, c);
      PathInTree(bn, c);
    }
  }

  /** What a step of the block map changes in the trees: the positions on the way to one file block fill up. */
  lemma NodesAfter(f: Fs, g: Fs, i: nat, bn: nat, j: nat, p: Pos)
    requires Links(f) && Links(g) && Shaped(f) && Shaped(g) && i < NINODES && j < NINODES && bn < MAXFILE && InTree(p)
    requires OwnGrew(f.own, g.own, i) && (forall x :: x in g.own && x !in f.own ==> x in PathOf(g, i, bn))
    requires Lookup(g.blocks, g.inodes[i], bn) != 0
    ensures Node(g, j, p) != 0 <==> Node(f, j, p) != 0 || (j == i && p in PathPos(bn))
    ensures Node(f, j, p) != 0 ==> Node(g, j, p) == Node(f, j, p)
  {
    hide Node, Links, Lookup, RootSlot, PathPos;
    LookupNode(g, i, bn);
    if Node(f, j, p) != 0 {
      GrewKeeps(f.own, g.own, i, j);
      NodeStays(f, g, j, p);
    } else if Node(g, j, p) != 0 {
      NodeNew(f, g, j, p);
      var r :| r in PathPos(bn) && Node(g, i, r) == Node(g, j, p);
      NodeInjective(g, i, r, j, p);
    }
  }

  /** Nothing but the pointers of inode `i` may differ between the inodes of `f` and `g`. */
  ghost predicate OnlyAddrs(f: Fs, g: Fs, i: nat)
    requires i < NINODES
  {
    && |f.inodes| == |g.inodes| == NINODES
    && g.inodes[i] == f.inodes[i].(addrs := g.inodes[i].addrs)
    && forall j :: 0 <= j < NINODES && j != i ==> g.inodes[j] == f.inodes[j]
  }

  /** bmap has mapped file block (i, bn) to `addr`, adding no other leaf. */
  ghost predicate Mapped(f: Fs, l: set<nat>, g: Fs, m: set<nat>, i: nat, bn: nat, addr: nat)
    requires i < NINODES && bn < MAXFILE
  {
    && Shaped(g) && (exists path :: Grew(f, l, g, m, path) && path <= PathOf(g, i, bn))
    && addr == Lookup(g.blocks, g.inodes[i], bn) && 0 < addr < FSSIZE
    && (forall x :: x in g.own && x !in f.own && g.own[x].lev == 0 ==> x == addr)
    && OnlyAddrs(f, g, i) && OwnGrew(f.own, g.own, i)
  }

  ghost predicate UnderFile(own: Owners, b: nat, i: nat) {
    InRange(own) && Climbs(own) && b in own && RootSlot(own, b).ino == i
  }

  /** A fresh block attached to a pointer of file `i`. */
  lemma OwnGrewRoot(own: Owners, o: Owners, i: nat, b: nat)
    requires InRange(own) && Climbs(own) && InRange(o) && Climbs(o) && b in o && o == own[b := o[b]]
    requires (b in own ==> own[b] == o[b]) && o[b].at.Root? && o[b].at.ino == i
    ensures OwnGrew(own, o, i) && UnderFile(o, b, i)
  {
  }

  /** A fresh block attached below a block of file `i`. */
  lemma OwnGrewEntry(own: Owners, o: Owners, i: nat, b: nat)
    requires InRange(own) && Climbs(own) && InRange(o) && Climbs(o) && b in o && o == own[b := o[b]]
    requires (b in own ==> own[b] == o[b]) && o[b].at.Entry? && UnderFile(own, o[b].at.blk, i)
    ensures OwnGrew(own, o, i) && UnderFile(o, b, i)
  {
    RootSlotStable(own, o, o[b].at.blk);
  }

  // ---------- one pointer ----------

  /** A pointer of the inode that is there already. */
  lemma RootStays(f: Fs, l: set<nat>, i: nat, k: nat)
    requires Forest(f) && Shaped(f) && i < NINODES && k < NROOTS && f.inodes[i].addrs[k] != 0
    ensures var c := f.inodes[i].addrs[k];
      && Grew(f, l, f, l, {c}) && 0 < c < FSSIZE && f.inodes == RootSet(f.inodes, i, k, c)
      && f.own == f.own[c := Own(Root(i, k), RootLevel(k))] && OwnGrew(f.own, f.own, i) && UnderFile(f.own, c, i)
  {
    var c := f.inodes[i].addrs[k];
    ForestLinks(f);
    hide Forest, Ext, Covers, Charged, OwnGrew, Grew;
    RootChild(f, i, k);
    OwnGrewRefl(f, i);
    GrewRefl(f, l);
    assert f.inodes[i].addrs[k := c] == f.inodes[i].addrs;
    hide Links;
    GrewMore(f, l, f, l, {}, {c});
  }

  /** A fresh block in a pointer of the inode. */
  lemma RootGrew(f: Fs, l: set<nat>, c: nat, i: nat, k: nat)
    requires Forest(f) && Shaped(f) && i < NINODES && k < NROOTS && f.inodes[i].addrs[k] == 0
    requires c < FSSIZE && !Used(f.blocks, c) && forall y: nat :: y < c ==> Used(f.blocks, y)
    ensures var g := Fs(Allocated(f.blocks, c), RootSet(f.inodes, i, k, c), f.own[c := Own(Root(i, k), RootLevel(k))]);
      && Grew(f, l, g, l + {MapBlock(c), c}, {c}) && 0 < c && g.inodes[i].addrs[k] == c
      && OwnGrew(f.own, g.own, i) && UnderFile(g.own, c, i)
  {
    var g := Fs(Allocated(f.blocks, c), RootSet(f.inodes, i, k, c), f.own[c := Own(Root(i, k), RootLevel(k))]);
    AttachRoot(f, c, i, k);
    AllocLogs(f, l, c);
    ForestClimbs(f);
    ForestClimbs(g);
    ForestShaped(g);
    OwnGrewRoot(f.own, g.own, i, c);
    hide Forest, Used, Ext, Covers, Charged, Allocated, OwnGrew, UnderFile;
  }

  /** What balloc writes and logs. */
  lemma AllocLogs(f: Fs, l: set<nat>, c: nat)
    requires Forest(f) && Shaped(f) && c < FSSIZE && !Used(f.blocks, c) && forall y: nat :: y < c ==> Used(f.blocks, y)
    ensures NMETA <= c && IsBitmap(MapBlock(c))
    ensures var r, m := Allocated(f.blocks, c), l + {MapBlock(c), c};
      && Covers(f.blocks, l, r, m) && Charged(f.blocks, l, r, m)
      && forall x :: 0 <= x < BMAPSTART ==> r[x] == f.blocks[x]
  {
    FreshIsNew(f, c);
    ChargedAlloc(f.blocks, l, c);
    hide Forest, Used, Charged, SetBit;
  }

  /** A pointer of an index block that is there already. */
  lemma EntryStays(f: Fs, l: set<nat>, i: nat, p: nat, k: nat)
    requires Forest(f) && Shaped(f) && p in f.own && f.own[p].lev > 0 && k < WORDS && Word(f.blocks[p], k) != 0
    requires UnderFile(f.own, p, i)
    ensures var c := Word(f.blocks[p], k);
      && Grew(f, l, f, l, {p, c}) && 0 < c < FSSIZE && f.own == f.own[c := Own(Entry(p, k), f.own[p].lev - 1)]
      && OwnGrew(f.own, f.own, i) && UnderFile(f.own, c, i)
  {
    hide Word;
    ForestLinks(f);
    Child(f, p, k);
    OwnGrewRefl(f, i);
    GrewRefl(f, l);
    hide Forest, Ext, Covers, Charged, OwnGrew, Grew;
    GrewMore(f, l, f, l, {}, {p, Word(f.blocks[p], k)});
  }

  /** A fresh block in a pointer of an index block. */
  lemma EntryGrew(f: Fs, l: set<nat>, c: nat, i: nat, p: nat, k: nat)
    requires Forest(f) && Shaped(f) && p in f.own && f.own[p].lev > 0 && k < WORDS && Word(f.blocks[p], k) == 0
    requires UnderFile(f.own, p, i)
    requires c < FSSIZE && !Used(f.blocks, c) && forall y: nat :: y < c ==> Used(f.blocks, y)
    ensures var r := Allocated(f.blocks, c);
      && c != p && NMETA <= p < FSSIZE && r[p] == f.blocks[p]
      && var g := Fs(r[p := SetWord(r[p], k, c)], f.inodes, f.own[c := Own(Entry(p, k), f.own[p].lev - 1)]);
         && Grew(f, l, g, l + {MapBlock(c), c} + {p}, {p, c}) && 0 < c && Word(g.blocks[p], k) == c
         && OwnGrew(f.own, g.own, i) && UnderFile(g.own, c, i) && g.own[p] == f.own[p]
  {
    hide Forest, Word, SetWord, Used, Ext, Covers, Charged, Allocated, Earned, InRange;
    EntryLogs(f, l, c, p, k);
    EntryJoins(f, c, i, p, k);
    var r, d := Allocated(f.blocks, c), f.own[c := Own(Entry(p, k), f.own[p].lev - 1)];
    EarnedBy(f.own, d, p, c, k);
    hide OwnGrew, UnderFile, IsBitmap;
  }

  lemma EarnedBy(own: Owners, o: Owners, p: nat, c: nat, k: nat)
    requires p in own && p in o && c !in own && c in o && o[c].at == Entry(p, k)
    ensures Earned(own, o, p) && Earned(own, o, c)
  {
  }

  /** What the fragment writes and logs. */
  lemma EntryLogs(f: Fs, l: set<nat>, c: nat, p: nat, k: nat)
    requires Forest(f) && Shaped(f) && p in f.own && k < WORDS
    requires c < FSSIZE && !Used(f.blocks, c) && forall y: nat :: y < c ==> Used(f.blocks, y)
    ensures var r := Allocated(f.blocks, c);
      var s, m := r[p := SetWord(r[p], k, c)], l + {MapBlock(c), c} + {p};
      && NMETA <= c && IsBitmap(MapBlock(c)) && c != p && NMETA <= p < FSSIZE && r[p] == f.blocks[p]
      && Covers(f.blocks, l, s, m) && Charged(f.blocks, l, s, m)
      && forall x :: 0 <= x < BMAPSTART ==> s[x] == f.blocks[x]
  {
    FreshIsNew(f, c);
    AllocLogs(f, l, c);
    assert NMETA <= p < FSSIZE;
    hide Forest, Used, Covers, Charged, SetBit, SetWord, InRange;
    var r, m := Allocated(f.blocks, c), l + {MapBlock(c), c};
    CoversWrite(f.blocks, l, r, m, p, SetWord(r[p], k, c));
    ChargedWrite(f.blocks, l, r, m, p, SetWord(r[p], k, c));
  }

  /** The block joins the forest. */
  lemma EntryJoins(f: Fs, c: nat, i: nat, p: nat, k: nat)
    requires Forest(f) && Shaped(f) && p in f.own && f.own[p].lev > 0 && k < WORDS && Word(f.blocks[p], k) == 0
    requires UnderFile(f.own, p, i) && c < FSSIZE && !Used(f.blocks, c)
    ensures var r := Allocated(f.blocks, c);
      && c !in f.own && p < FSSIZE && 0 < c
      && var g := Fs(r[p := SetWord(r[p], k, c)], f.inodes, f.own[c := Own(Entry(p, k), f.own[p].lev - 1)]);
         && Forest(g) && Shaped(g) && Ext(f, g) && Word(g.blocks[p], k) == c
         && OwnGrew(f.own, g.own, i) && UnderFile(g.own, c, i) && g.own[p] == f.own[p]
  {
    hide Word, SetWord, Used, Ext, BitmapExact, RootSlot, Allocated, EntrySet;
    var g := Fs(EntrySet(f.blocks, c, p, k), f.inodes, f.own[c := Own(Entry(p, k), f.own[p].lev - 1)]);
    AttachEntry(f, c, p, k);
    EntryForm(f.blocks, c, p, k);
    EntryWords(f.blocks, f.own, c, p, k, p, k);
    hide Links;
    ForestClimbs(f);
    ForestClimbs(g);
    ForestShaped(g);
    OwnGrewEntry(f.own, g.own, i, c);
  }

  /** bmap has found the disk full before file block (i, bn) was mapped; what it added and logged is on the way. */
  ghost predicate Stuck(f: Fs, l: set<nat>, g: Fs, m: set<nat>, i: nat, bn: nat)
    requires i < NINODES && bn < MAXFILE
  {
    && Shaped(g) && (exists path :: Grew(f, l, g, m, path) && path <= PathOf(g, i, bn))
    && Lookup(g.blocks, g.inodes[i], bn) == 0
    && OnlyAddrs(f, g, i) && OwnGrew(f.own, g.own, i)
  }

  lemma StuckIntro(f: Fs, l: set<nat>, g: Fs, m: set<nat>, i: nat, bn: nat, path: set<nat>)
    requires i < NINODES && bn < MAXFILE && Shaped(g) && Grew(f, l, g, m, path) && path <= PathOf(g, i, bn)
    requires Lookup(g.blocks, g.inodes[i], bn) == 0 && OnlyAddrs(f, g, i) && OwnGrew(f.own, g.own, i)
    ensures Stuck(f, l, g, m, i, bn)
  {
    hide Forest; hide Ext; hide Lookup; hide PathOf;
  }

  lemma StuckAtOnce(f: Fs, l: set<nat>, i: nat, bn: nat)
    requires Forest(f) && Shaped(f) && i < NINODES && bn < MAXFILE && Lookup(f.blocks, f.inodes[i], bn) == 0
    ensures Stuck(f, l, f, l, i, bn)
  {
    hide Forest, Lookup, PathOf;
    GrewRefl(f, l);
    ForestClimbs(f);
    StuckIntro(f, l, f, l, i, bn, {});
  }

  lemma StuckFacts(f: Fs, l: set<nat>, g: Fs, m: set<nat>, i: nat, bn: nat)
    requires i < NINODES && bn < MAXFILE && Stuck(f, l, g, m, i, bn)
    ensures Forest(g) && Shaped(g) && Covers(f.blocks, l, g.blocks, m) && Charged(f.blocks, l, g.blocks, m)
    ensures Along(f.own, l, g.own, m, PathOf(g, i, bn)) && Lookup(g.blocks, g.inodes[i], bn) == 0
    ensures OnlyAddrs(f, g, i) && OwnGrew(f.own, g.own, i)
  {
    hide Forest, Ext, Lookup, PathOf, Covers, Charged, Along, OwnGrew;
    var path :| Grew(f, l, g, m, path) && path <= PathOf(g, i, bn);
    AlongMore(f.own, l, g.own, m, path, PathOf(g, i, bn));
  }

  lemma MappedIntro(f: Fs, l: set<nat>, g: Fs, m: set<nat>, i: nat, bn: nat, addr: nat, path: set<nat>)
    requires i < NINODES && bn < MAXFILE && Shaped(g) && Grew(f, l, g, m, path) && path <= PathOf(g, i, bn)
    requires addr == Lookup(g.blocks, g.inodes[i], bn) && 0 < addr < FSSIZE && OnlyAddrs(f, g, i)
    requires OwnGrew(f.own, g.own, i)
    requires forall x :: x in g.own && x !in f.own && g.own[x].lev == 0 ==> x == addr
    ensures Mapped(f, l, g, m, i, bn, addr)
  {
    hide Forest; hide Ext; hide Lookup; hide PathOf;
  }

  /** Every file reads the same in `f` and `g`. */
  ghost predicate SameFlat(f: Fs, g: Fs)
    requires Shaped(f) && Shaped(g)
  {
    forall j, n :: 0 <= j < NINODES && 0 <= n < MAXFILE ==>
      FileBlock(g.blocks, g.inodes[j], n) == FileBlock(f.blocks, f.inodes[j], n)
  }

  /** No file block but (i, bn) is mapped differently in `f` and `g`. */
  ghost predicate OnlyMaps(f: Fs, g: Fs, i: nat, bn: nat)
    requires Shaped(f) && Shaped(g)
  {
    forall j, n :: 0 <= j < NINODES && 0 <= n < MAXFILE && (j != i || n != bn) ==>
      Lookup(g.blocks, g.inodes[j], n) == Lookup(f.blocks, f.inodes[j], n)
  }

  lemma MappedFlat(f: Fs, l: set<nat>, g: Fs, m: set<nat>, i: nat, bn: nat, addr: nat)
    requires i < NINODES && bn < MAXFILE && Mapped(f, l, g, m, i, bn, addr)
    ensures Shaped(f) && Shaped(g) && SameFlat(f, g) && OnlyMaps(f, g, i, bn) && Covers(f.blocks, l, g.blocks, m)
    ensures Charged(f.blocks, l, g.blocks, m)
    ensures forall x :: 0 <= x < BMAPSTART ==> g.blocks[x] == f.blocks[x]
    ensures Along(f.own, l, g.own, m, PathOf(g, i, bn)) && Links(f) && Links(g)
  {
    MappedAlong(f, l, g, m, i, bn, addr);
    hide Ext; hide Lookup; hide FileBlock; hide Used; hide Along;
    hide PathOf; hide Links; hide BitmapExact; hide Covers; hide Charged;
    forall j, n | 0 <= j < NINODES && 0 <= n < MAXFILE
      ensures FileBlock(g.blocks, g.inodes[j], n) == FileBlock(f.blocks, f.inodes[j], n)
    {
      FlatAfterGrow(f, g, j, n);
    }
    forall j, n | 0 <= j < NINODES && 0 <= n < MAXFILE && (j != i || n != bn)
      ensures Lookup(g.blocks, g.inodes[j], n) == Lookup(f.blocks, f.inodes[j], n)
    {
      OthersUnmoved(f, g, i, bn, j, n);
    }
  }

  lemma MappedAlong(f: Fs, l: set<nat>, g: Fs, m: set<nat>, i: nat, bn: nat, addr: nat)
    requires i < NINODES && bn < MAXFILE && Mapped(f, l, g, m, i, bn, addr)
    ensures Shaped(g) && Along(f.own, l, g.own, m, PathOf(g, i, bn))
  {
    hide Forest, Ext, Lookup, PathOf, Covers, Charged, Along, OwnGrew;
    var path :| Grew(f, l, g, m, path) && path <= PathOf(g, i, bn);
    AlongMore(f.own, l, g.own, m, path, PathOf(g, i, bn));
  }
}
