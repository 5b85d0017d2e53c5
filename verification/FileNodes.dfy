/** The nodes of a file's tree by their position: which blocks lie on the way to a file block, and which of them
    exist. */
module FileNodes {
  import opened Layout
  import opened Blocks
  import opened FileTree
  import opened FileGrow
  import opened Indexing

  /** The `q`-th node from the left, `lev` levels above the data blocks, below root pointer `k`. */
  datatype Pos = Pos(k: nat, lev: nat, q: nat)

  predicate InTree(p: Pos) {
    p.k < NROOTS && p.lev <= RootLevel(p.k) && p.q < Span(RootLevel(p.k) - p.lev)
  }

  predicate Legal(p: Pos) {
    p.k < NROOTS && p.lev <= RootLevel(p.k)
  }

  predicate Top(p: Pos) {
    p.k < NROOTS && p.lev == RootLevel(p.k)
  }

  function Up(p: Pos): (r: Pos) {
    Pos(p.k, p.lev + 1, p.q / WORDS)
  }

  /** Word `k` of block `v`, or 0 when there is no such block. */
  function At(blocks: seq<Block>, v: nat, k: nat): (w: nat)
    requires |blocks| == FSSIZE && k < WORDS
  {
    if v == 0 || v >= FSSIZE then 0 else Word(blocks[v], k)
  }

  /** The block at a position of file `i`, 0 where there is none. */
  ghost function Node(f: Fs, i: nat, p: Pos): (v: nat)
    requires Shaped(f) && i < NINODES
    decreases RootLevel(p.k) - p.lev
  {
    if !Legal(p) then 0
    else if Top(p) then f.inodes[i].addrs[p.k]
    else At(f.blocks, Node(f, i, Up(p)), p.q % WORDS)
  }

  /** The pointer to the node at a position. */
  ghost function SlotAt(f: Fs, i: nat, p: Pos): (s: Slot)
    requires Shaped(f) && i < NINODES
  {
    if Top(p) then Root(i, p.k) else Entry(Node(f, i, Up(p)), p.q % WORDS)
  }

  /** Number of the first file block below a position. */
  function First(p: Pos): (bn: nat)
    requires p.k < NROOTS
  {
    BlockNumber(p.k, p.q * Span(p.lev))
  }

  function Leaf(bn: nat): (p: Pos)
    requires bn < MAXFILE
  {
    Pos(RootOf(bn), 0, LeafOf(bn))
  }

  /** The positions on the way to file block `bn`. */
  function PathPos(bn: nat): (s: set<Pos>)
    requires bn < MAXFILE
  {
    if bn < 10 then {Pos(bn, 0, 0)}
    else if bn < 138 then {Pos(10, 1, 0), Pos(10, 0, bn - 10)}
    else if bn < 16522 then {Pos(11, 2, 0), Pos(11, 1, (bn - 138) / 128), Pos(11, 0, bn - 138)}
    else
      var m := bn - 16522;
      {Pos(12, 3, 0), Pos(12, 2, m / 16384), Pos(12, 1, m / 128), Pos(12, 0, m)}
  }

  lemma Spans()
    ensures Span(0) == 1 && Span(1) == 128 && Span(2) == 16384 && Span(3) == 2097152
  {
    assert Span(1) == 128;
    assert Span(2) == 16384;
  }

  lemma PathInTree(bn: nat, p: Pos)
    requires bn < MAXFILE && p in PathPos(bn)
    ensures InTree(p) && First(p) <= bn && p.k == RootOf(bn)
    ensures Top(p) || Up(p) in PathPos(bn)
    ensures p.lev == 0 ==> p == Leaf(bn)
  {
    Spans();
    hide Span;
  }

  lemma LeafOnPath(bn: nat)
    requires bn < MAXFILE
    ensures Leaf(bn) in PathPos(bn) && InTree(Leaf(bn)) && First(Leaf(bn)) == bn
  {
    Spans();
    hide Span;
  }

  /** The position one level below `p` on the way to file block `bn`. */
  function Down(bn: nat, p: Pos): (c: Pos)
    requires bn < MAXFILE && p in PathPos(bn) && p.lev > 0
  {
    if p.lev == 1 then Leaf(bn)
    else if p.lev == 2 then Pos(p.k, 1, LeafOf(bn) / 128)
    else Pos(p.k, 2, LeafOf(bn) / 16384)
  }

  lemma DownOnPath(bn: nat, p: Pos)
    requires bn < MAXFILE && p in PathPos(bn) && p.lev > 0
    ensures Down(bn, p) in PathPos(bn) && Up(Down(bn, p)) == p
  {
  }

  /** Every position lies on the way to the first file block below it. */
  lemma FirstPath(p: Pos)
    requires InTree(p)
    ensures First(p) < MAXFILE && p in PathPos(First(p))
  {
    if p.k < 12 { FirstLow(p); } else { FirstHigh(p); }
  }

  lemma FirstLow(p: Pos)
    requires InTree(p) && p.k < 12
    ensures First(p) < 16522 && p in PathPos(First(p))
  {
    Spans();
    hide Span;
  }

  lemma FirstHigh(p: Pos)
    requires InTree(p) && p.k == 12
    ensures 16522 <= First(p) < MAXFILE && p in PathPos(First(p))
  {
    Spans();
    hide Span;
    if p.lev == 0 {
    } else if p.lev == 1 {
    } else if p.lev == 2 {
      assert p.q * 16384 / 16384 == p.q;
    }
  }

  lemma UpInTree(p: Pos)
    requires InTree(p) && !Top(p)
    ensures InTree(Up(p)) && p.q == Up(p).q * WORDS + p.q % WORDS
  {
    Spans();
    hide Span;
  }

  // ---------- nodes and owners ----------

  /** The block at a position is owned from there. */
  lemma {:induction false} NodeOwn(f: Fs, i: nat, p: Pos)
    requires Links(f) && Shaped(f) && i < NINODES && Node(f, i, p) != 0
    ensures var v := Node(f, i, p); NMETA <= v < FSSIZE && v in f.own && f.own[v] == Own(SlotAt(f, i, p), p.lev)
    ensures !Top(p) ==> Node(f, i, Up(p)) != 0
    decreases RootLevel(p.k) - p.lev
  {
    hide Word;
    if Top(p) {
      RootChild(f, i, p.k);
    } else {
      NodeOwn(f, i, Up(p));
      Child(f, Node(f, i, Up(p)), p.q % WORDS);
      hide Links;
    }
  }

  lemma {:induction false} NodeRoot(f: Fs, i: nat, p: Pos)
    requires Links(f) && Shaped(f) && i < NINODES && Node(f, i, p) != 0
    ensures var v := Node(f, i, p); v in f.own && Climbs(f.own) && RootSlot(f.own, v) == Root(i, p.k)
    decreases RootLevel(p.k) - p.lev
  {
    hide Word;
    NodeOwn(f, i, p);
    if !Top(p) { NodeRoot(f, i, Up(p)); }
  }

  /** Different positions, of one file or of several, hold different blocks. */
  lemma {:induction false} NodeInjective(f: Fs, i: nat, p: Pos, j: nat, r: Pos)
    requires Links(f) && Shaped(f) && i < NINODES && j < NINODES && InTree(p) && InTree(r)
    requires Node(f, i, p) == Node(f, j, r) != 0
    ensures i == j && p == r
    decreases RootLevel(p.k) - p.lev
  {
    NodeOwn(f, i, p);
    NodeOwn(f, j, r);
    Spans();
    hide Word, Links, Span;
    if !Top(p) {
      UpInTree(p);
      UpInTree(r);
      NodeInjective(f, i, Up(p), j, Up(r));
    }
  }

  /** `o` keeps the owner records of file `i`. */
  ghost predicate KeepsFile(own: Owners, o: Owners, i: nat)
    requires InRange(own) && Climbs(own)
  {
    forall x :: x in own && RootSlot(own, x).ino == i ==> x in o && o[x] == own[x]
  }

  /** A node stays where it is while its file's owner records are kept. */
  lemma {:induction false} NodeStays(f: Fs, g: Fs, i: nat, p: Pos)
    requires Links(f) && Links(g) && Shaped(f) && Shaped(g) && i < NINODES
    requires Climbs(f.own) && KeepsFile(f.own, g.own, i) && Node(f, i, p) != 0
    ensures Node(g, i, p) == Node(f, i, p)
    decreases RootLevel(p.k) - p.lev
  {
    hide Word, RootSlot;
    NodeOwn(f, i, p);
    NodeRoot(f, i, p);
    var v := Node(f, i, p);
    assert v in g.own && g.own[v] == f.own[v];
    assert Value(g, g.own[v].at) == v;
    if !Top(p) { NodeStays(f, g, i, Up(p)); }
  }

  lemma GrewKeeps(own: Owners, o: Owners, i: nat, j: nat)
    requires OwnGrew(own, o, i)
    ensures KeepsFile(own, o, j)
  {
    hide RootSlot;
  }

  /** A node that was not there before is a block that nobody owned. */
  lemma {:induction false} NodeNew(f: Fs, g: Fs, i: nat, p: Pos)
    requires Links(f) && Links(g) && Shaped(f) && Shaped(g) && i < NINODES
    requires forall x :: x in f.own ==> x in g.own && g.own[x] == f.own[x]
    requires Node(f, i, p) == 0 != Node(g, i, p)
    ensures Node(g, i, p) in g.own && Node(g, i, p) !in f.own
    decreases RootLevel(p.k) - p.lev
  {
    hide Word;
    NodeOwn(g, i, p);
    var v := Node(g, i, p);
    if v in f.own {
      assert f.own[v] == g.own[v] && Climbs(f.own) && IsSlot(f.own, f.own[v].at) && Value(f, f.own[v].at) == v;
      if !Top(p) {
        var u := Node(g, i, Up(p));
        assert u in f.own;
        if Node(f, i, Up(p)) == 0 {
          NodeNew(f, g, i, Up(p));
        } else {
          assert KeepsFile(f.own, g.own, i) by { hide RootSlot; }
          NodeStays(f, g, i, Up(p));
        }
      }
    }
  }

  /** Nodes depend on the index blocks and the pointers of the inode alone. */
  lemma {:induction false} NodeFrame(f: Fs, g: Fs, i: nat, p: Pos)
    requires Links(f) && Shaped(f) && Shaped(g) && i < NINODES
    requires g.inodes[i].addrs == f.inodes[i].addrs
    requires forall x :: x in f.own && f.own[x].lev > 0 ==> g.blocks[x] == f.blocks[x]
    ensures Node(g, i, p) == Node(f, i, p)
    decreases RootLevel(p.k) - p.lev
  {
    hide Word;
    if Legal(p) && !Top(p) {
      NodeFrame(f, g, i, Up(p));
      if Node(f, i, Up(p)) != 0 { NodeOwn(f, i, Up(p)); }
      hide Links;
    }
  }

  // ---------- the nodes on the way to file blocks ----------

  /** The blocks at a set of positions of file `i`. */
  ghost function Nodes(f: Fs, i: nat, s: set<Pos>): (r: set<nat>)
    requires Shaped(f) && i < NINODES
  {
    set p | p in s :: Node(f, i, p)
  }

  ghost predicate AllThere(f: Fs, i: nat, s: set<Pos>)
    requires Shaped(f) && i < NINODES
  {
    forall p :: p in s ==> InTree(p) && Node(f, i, p) != 0
  }

  /** As many blocks as positions. */
  lemma {:induction false} NodesSize(f: Fs, i: nat, s: set<Pos>)
    requires Links(f) && Shaped(f) && i < NINODES && AllThere(f, i, s)
    ensures |Nodes(f, i, s)| == |s|
  {
    hide Node, Links, Shaped;
    if s == {} {
      assert Nodes(f, i, s) == {};
    } else {
      var p :| p in s;
      NodesSize(f, i, s - {p});
      assert Nodes(f, i, s) == Nodes(f, i, s - {p}) + {Node(f, i, p)};
      if Node(f, i, p) in Nodes(f, i, s - {p}) {
        var r :| r in s - {p} && Node(f, i, r) == Node(f, i, p);
        NodeInjective(f, i, p, i, r);
      }
    }
  }

  lemma NodesSame(f: Fs, g: Fs, i: nat, s: set<Pos>)
    requires Shaped(f) && Shaped(g) && i < NINODES && forall p :: p in s ==> Node(g, i, p) == Node(f, i, p)
    ensures Nodes(g, i, s) == Nodes(f, i, s)
  {
    hide Node, Shaped;
  }

  /** The positions on the way to the `n` file blocks from `a` on. */
  function Window(a: nat, n: nat): (s: set<Pos>)
    requires a + n <= MAXFILE
  {
    if n == 0 then {} else Window(a, n - 1) + PathPos(a + n - 1)
  }

  lemma {:induction false} WindowPaths(a: nat, n: nat, p: Pos)
    requires a + n <= MAXFILE
    ensures p in Window(a, n) <==> exists bn {:trigger PathPos(bn)} :: a <= bn < a + n && p in PathPos(bn)
  {
    hide PathPos;
    if n > 0 { WindowPaths(a, n - 1, p); }
  }

  /** Positions of a window: those whose first file block lies in it, and those on the way to its first block. */
  lemma WindowInTree(a: nat, n: nat, p: Pos)
    requires a + n <= MAXFILE && p in Window(a, n)
    ensures InTree(p) && First(p) < a + n && (Top(p) || Up(p) in Window(a, n))
    ensures p.lev == 0 ==> a <= First(p) && p == Leaf(First(p))
  {
    WindowPaths(a, n, p);
    var bn :| a <= bn < a + n && p in PathPos(bn);
    PathInTree(bn, p);
    if !Top(p) { WindowPaths(a, n, Up(p)); }
    LeafOnPath(bn);
  }

  lemma FirstInWindow(a: nat, n: nat, p: Pos)
    requires a + n <= MAXFILE && InTree(p) && a <= First(p) < a + n
    ensures p in Window(a, n)
  {
    FirstPath(p);
    WindowPaths(a, n, p);
  }

  lemma LeafInWindow(a: nat, n: nat, bn: nat)
    requires a + n <= MAXFILE && a <= bn < a + n
    ensures Leaf(bn) in Window(a, n)
  {
    LeafOnPath(bn);
    WindowPaths(a, n, Leaf(bn));
  }

  /** A node above the data blocks has, in a window it is in, a position below it. */
  lemma DownInWindow(a: nat, n: nat, p: Pos) returns (c: Pos)
    requires a + n <= MAXFILE && p in Window(a, n) && p.lev > 0
    ensures c in Window(a, n) && Up(c) == p && !Top(c)
  {
    WindowPaths(a, n, p);
    var bn :| a <= bn < a + n && p in PathPos(bn);
    DownOnPath(bn, p);
    c := Down(bn, p);
    PathInTree(bn, p);
    PathInTree(bn, c);
    WindowPaths(a, n, c);
  }

  // ---------- how many there are ----------

  /** Positions above the data blocks. */
  function Upper(s: set<Pos>): (r: set<Pos>) {
    set p | p in s && p.lev > 0
  }

  /** Within 128 consecutive file blocks, every position above the data blocks is on the way to the first or to the
      last of them. */
  lemma UpperEnds(a: nat, c: nat, bn: nat)
    requires a <= bn <= c < MAXFILE && c - a < 128
    ensures Upper(PathPos(bn)) <= Upper(PathPos(a)) + Upper(PathPos(c))
  {
    if bn >= 16522 {
      var m, mc := bn - 16522, c - 16522;
      if a >= 16522 {
        var ma := a - 16522;
        assert m / 128 == ma / 128 || m / 128 == mc / 128;
        SameLeaf(m, ma);
        SameLeaf(m, mc);
      } else {
        assert m / 128 == mc / 128;
        SameLeaf(m, mc);
      }
    } else if bn >= 138 {
      if a >= 138 && c < 16522 {
        assert (bn - 138) / 128 == (a - 138) / 128 || (bn - 138) / 128 == (c - 138) / 128;
      } else if a >= 138 {
        assert (bn - 138) / 128 == (a - 138) / 128;
      } else {
        assert (bn - 138) / 128 == (c - 138) / 128;
      }
    }
  }

  lemma SameLeaf(m: nat, n: nat)
    ensures m / 128 == n / 128 ==> m / 16384 == n / 16384
  {
    assert m / 16384 == m / 128 / 128 && n / 16384 == n / 128 / 128;
  }

  /** Two ways share their root pointer's block or lie in different trees: at most five such positions. */
  lemma FiveUpper(a: nat, c: nat)
    requires a <= c < MAXFILE
    ensures |Upper(PathPos(a)) + Upper(PathPos(c))| <= 5
  {
    var s := Upper(PathPos(a)) + Upper(PathPos(c));
    if a >= 16522 {
      FiveSet(s, Pos(12, 3, 0), Pos(12, 2, (a - 16522) / 16384), Pos(12, 1, (a - 16522) / 128),
              Pos(12, 2, (c - 16522) / 16384), Pos(12, 1, (c - 16522) / 128));
    } else if c >= 16522 {
      var d, e := Pos(12, 2, (c - 16522) / 16384), Pos(12, 1, (c - 16522) / 128);
      if a >= 138 {
        FiveSet(s, Pos(11, 2, 0), Pos(11, 1, (a - 138) / 128), Pos(12, 3, 0), d, e);
      } else {
        FiveSet(s, Pos(10, 1, 0), Pos(10, 1, 0), Pos(12, 3, 0), d, e);
      }
    } else if c >= 138 {
      var d := Pos(11, 1, (c - 138) / 128);
      if a >= 138 {
        FiveSet(s, Pos(11, 2, 0), Pos(11, 1, (a - 138) / 128), d, d, d);
      } else {
        FiveSet(s, Pos(10, 1, 0), Pos(11, 2, 0), d, d, d);
      }
    } else {
      FiveSet(s, Pos(10, 1, 0), Pos(10, 1, 0), Pos(10, 1, 0), Pos(10, 1, 0), Pos(10, 1, 0));
    }
  }

  lemma FiveSet(s: set<Pos>, a: Pos, b: Pos, c: Pos, d: Pos, e: Pos)
    requires s <= {a, b, c, d, e}
    ensures |s| <= 5
  {
    SubsetSize(s, {a, b, c, d, e});
    assert {a, b, c, d, e} == {a, b, c, d} + {e} && {a, b, c, d} == {a, b, c} + {d} && {a, b, c} == {a, b} + {c};
  }

  lemma UpperSize(a: nat, n: nat)
    requires a + n <= MAXFILE && n <= 128
    ensures |Upper(Window(a, n))| <= 5
  {
    if n > 0 {
      var c := a + n - 1;
      var ends := Upper(PathPos(a)) + Upper(PathPos(c));
      forall p | p in Upper(Window(a, n)) ensures p in ends {
        WindowPaths(a, n, p);
        var bn :| a <= bn < a + n && p in PathPos(bn);
        UpperEnds(a, c, bn);
        hide PathPos;
        assert p in Upper(PathPos(bn));
      }
      FiveUpper(a, c);
      hide PathPos, Upper;
      SubsetSize(Upper(Window(a, n)), ends);
    }
  }

  /** The data block positions of a window. */
  function Leaves(a: nat, n: nat): (s: set<Pos>)
    requires a + n <= MAXFILE
  {
    if n == 0 then {} else Leaves(a, n - 1) + {Leaf(a + n - 1)}
  }

  lemma LeavesAre(a: nat, n: nat)
    requires a + n <= MAXFILE
    ensures |Leaves(a, n)| == n && forall p :: p in Leaves(a, n) <==> p in Window(a, n) && p.lev == 0
  {
    forall p ensures p in Leaves(a, n) <==> p in Window(a, n) && p.lev == 0 { LeafOrNot(a, n, p); }
    LeavesSize(a, n);
  }

  lemma {:induction false} LeafOrNot(a: nat, n: nat, p: Pos)
    requires a + n <= MAXFILE
    ensures p in Leaves(a, n) <==> p in Window(a, n) && p.lev == 0
  {
    hide PathPos, Leaf;
    if n > 0 {
      LeafOrNot(a, n - 1, p);
      OneLeaf(a + n - 1);
    }
  }

  lemma {:induction false} LeavesSize(a: nat, n: nat)
    requires a + n <= MAXFILE
    ensures |Leaves(a, n)| == n
  {
    hide Leaf, Window;
    if n > 0 {
      LeavesSize(a, n - 1);
      NewLeaf(a, n - 1);
      LeafOrNot(a, n - 1, Leaf(a + n - 1));
      OneLeaf(a + n - 1);
    }
  }

  lemma OneLeaf(bn: nat)
    requires bn < MAXFILE
    ensures Leaf(bn) in PathPos(bn) && Leaf(bn).lev == 0 && forall p :: p in PathPos(bn) && p.lev == 0 ==> p == Leaf(bn)
  {
    LeafOnPath(bn);
    forall p | p in PathPos(bn) && p.lev == 0 ensures p == Leaf(bn) { PathInTree(bn, p); }
  }

  lemma NewLeaf(a: nat, n: nat)
    requires a + n < MAXFILE
    ensures Leaf(a + n) !in Window(a, n)
  {
    hide PathPos;
    if Leaf(a + n) in Window(a, n) {
      WindowInTree(a, n, Leaf(a + n));
      LeafOnPath(a + n);
    }
  }

  // ---------- which nodes a file has ----------

  /** From `f` to `g` the positions on the way to the `n` file blocks of file `i` from `a` on have filled up. */
  ghost predicate Filled(f: Fs, g: Fs, i: nat, a: nat, n: nat) {
    && Shaped(f) && Shaped(g) && i < NINODES && a + n <= MAXFILE
    && forall j, p :: 0 <= j < NINODES && InTree(p) ==>
         (Node(g, j, p) != 0 <==> Node(f, j, p) != 0 || (j == i && p in Window(a, n)))
  }

  lemma FilledNone(f: Fs, i: nat, a: nat)
    requires Shaped(f) && i < NINODES && a <= MAXFILE
    ensures Filled(f, f, i, a, 0)
  {
    hide Node, Shaped;
  }

  lemma FilledMore(f: Fs, g: Fs, h: Fs, i: nat, a: nat, n: nat)
    requires Filled(f, g, i, a, n) && Filled(g, h, i, a + n, 1)
    ensures Filled(f, h, i, a, n + 1)
  {
    hide Node, Shaped, PathPos, InTree;
    assert Window(a, n + 1) == Window(a, n) + Window(a + n, 1);
  }

  /** The tree of file `i` has exactly the nodes that its first `ext` blocks need. */
  ghost predicate Tight(f: Fs, i: nat, ext: nat)
    requires Shaped(f) && i < NINODES
  {
    forall p :: InTree(p) ==> (Node(f, i, p) != 0 <==> First(p) < ext)
  }

  /** Blocks written without a gap leave a tree that fits. */
  lemma TightAfter(f: Fs, g: Fs, i: nat, a: nat, n: nat, ext: nat)
    requires Filled(f, g, i, a, n) && Tight(f, i, ext) && a <= ext
    ensures Tight(g, i, if a + n > ext then a + n else ext)
  {
    hide Node, Shaped;
    forall p | InTree(p) ensures Node(g, i, p) != 0 <==> First(p) < if a + n > ext then a + n else ext {
      if p in Window(a, n) { WindowInTree(a, n, p); }
      if a <= First(p) < a + n { FirstInWindow(a, n, p); }
    }
  }

  lemma TightOthers(f: Fs, g: Fs, i: nat, a: nat, n: nat, j: nat, ext: nat)
    requires Filled(f, g, i, a, n) && j < NINODES && j != i && Tight(f, j, ext)
    ensures Tight(g, j, ext)
  {
    hide Node, Shaped, InTree, First;
  }

  lemma TightFrame(f: Fs, g: Fs, i: nat, ext: nat)
    requires Links(f) && Shaped(f) && Shaped(g) && i < NINODES && g.inodes[i].addrs == f.inodes[i].addrs
    requires forall x :: x in f.own && f.own[x].lev > 0 ==> g.blocks[x] == f.blocks[x]
    ensures Tight(f, i, ext) <==> Tight(g, i, ext)
  {
    hide Node, Links, Shaped, InTree, First;
    forall p ensures Node(g, i, p) == Node(f, i, p) { NodeFrame(f, g, i, p); }
  }

  lemma FilledFrame(f: Fs, g: Fs, h: Fs, i: nat, a: nat, n: nat)
    requires Filled(f, g, i, a, n) && Links(g) && Shaped(h)
    requires forall j :: 0 <= j < NINODES ==> h.inodes[j].addrs == g.inodes[j].addrs
    requires forall x :: x in g.own && g.own[x].lev > 0 ==> h.blocks[x] == g.blocks[x]
    ensures Filled(f, h, i, a, n)
  {
    hide Node, Links, InTree;
    forall j, p | 0 <= j < NINODES ensures Node(h, j, p) == Node(g, j, p) { NodeFrame(g, h, j, p); }
    hide Shaped;
  }

  /** A file without blocks. */
  lemma TightEmpty(f: Fs, i: nat)
    requires Shaped(f) && i < NINODES && f.inodes[i].addrs == EMPTY
    ensures Tight(f, i, 0)
  {
    hide InTree, First;
    forall p ensures Node(f, i, p) == 0 { NothingThere(f, i, p); }
    hide Node;
  }

  lemma {:induction false} NothingThere(f: Fs, i: nat, p: Pos)
    requires Shaped(f) && i < NINODES && f.inodes[i].addrs == EMPTY
    ensures Node(f, i, p) == 0
    decreases RootLevel(p.k) - p.lev
  {
    hide Word, InRange;
    if Legal(p) && !Top(p) { NothingThere(f, i, Up(p)); }
  }
}
