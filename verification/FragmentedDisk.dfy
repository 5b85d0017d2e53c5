/** A disk that ordinary use leaves: small files laid between the blocks of a growing one, then removed. The next chunk
    of another file takes blocks from so many bitmap blocks that its transaction passes MAXOPBLOCKS. */
module FragmentedDisk {
  import opened Layout
  import opened Blocks
  import opened Indexing
  import opened FileTree
  import opened FileGrow
  import opened FileNodes
  import opened InodeTable
  import opened FileContent
  import opened FileFree
  import opened FirstFit
  import opened Transaction
  import opened TransactionSize
  import opened FileSystem

  const HOLES := 19                  // small files
  const FIRSTHOLE := 3               // bitmap block with the first of them
  const VICTIM := 130                // blocks of the file that the chunk extends

  // ---------- what a disk has been through ----------

  /** The blocks of file `i`. */
  ghost function Holds(own: Owners, i: nat): (s: set<nat>)
    requires InRange(own) && Climbs(own)
  {
    set x | x in own && RootSlot(own, x).ino == i
  }

  /** A sound file system, its inodes on disk, that owns the data blocks below `n` but for those in `gone`. */
  ghost predicate Stage(f: Fs, n: nat, gone: set<nat>) {
    && Sound(f) && Synced(f) && InRange(f.own) && Climbs(f.own) && NMETA <= n <= FSSIZE
    && forall x :: x in f.own <==> NMETA <= x < n && x !in gone
  }

  ghost function FreeInodes(inodes: seq<Inode>): (s: set<nat>) {
    set j: nat | 1 <= j < |inodes| && inodes[j].typ == 0
  }

  ghost predicate IsFile(inodes: seq<Inode>, i: nat, size: nat) {
    i < |inodes| == NINODES && inodes[i].typ != 0 && inodes[i].size == size
  }

  /** From `f` to `g` file `i` has taken the blocks of `s`. */
  ghost predicate Took(f: Fs, g: Fs, i: nat, s: set<nat>) {
    && InRange(f.own) && Climbs(f.own) && InRange(g.own) && Climbs(g.own)
    && Holds(g.own, i) == Holds(f.own, i) + s && forall j :: j != i ==> Holds(g.own, j) == Holds(f.own, j)
  }

  lemma StageForest(f: Fs, n: nat, gone: set<nat>)
    requires Stage(f, n, gone)
    ensures Forest(f) && |f.blocks| == FSSIZE
    ensures forall x: nat :: x < FSSIZE ==> (Used(f.blocks, x) <==> x < n && x !in gone - Range(0, NMETA))
  {
    hide FileOk, Links, Used, Synced;
  }

  /** With all data blocks below `n` in use, `k` blocks taken are the next `k`. */
  lemma TakesNext(f: Fs, g: Fs, m: set<nat>, i: nat, n: nat, k: nat)
    requires Stage(f, n, {}) && Sound(g) && Synced(g) && OwnGrew(f.own, g.own, i) && Charged(f.blocks, {}, g.blocks, m)
    requires |Taken(f.blocks, g.blocks)| == k && n + k <= FSSIZE
    ensures Stage(g, n + k, {}) && Took(f, g, i, Range(n, k))
  {
    StageForest(f, n, {});
    hide FileOk, Used, Synced, Taken, Charged, Links, BitmapExact, RootSlot, Forest;
    RangeSize(n, k);
    FirstOnes(f.blocks, 0, k, Range(n, k));
    ExactSize(f.blocks, g.blocks, m);
    forall x ensures x in g.own <==> x in f.own || x in Range(n, k) { NewIsTaken(f, g, x); }
    GrewHolds(f, g, i, Range(n, k));
  }

  lemma GrewHolds(f: Fs, g: Fs, i: nat, s: set<nat>)
    requires OwnGrew(f.own, g.own, i) && forall x :: x in g.own <==> x in f.own || x in s
    requires forall x :: x in s ==> x !in f.own
    ensures Took(f, g, i, s)
  {
    hide RootSlot;
    forall x | x in f.own ensures RootSlot(g.own, x) == RootSlot(f.own, x) { RootSlotStable(f.own, g.own, x); }
  }

  lemma RoomFor(f: Fs, n: nat, gone: set<nat>, k: nat)
    requires Stage(f, n, gone) && n + k <= FSSIZE
    ensures |f.blocks| == FSSIZE && k <= |FreeBlocks(f.blocks)|
  {
    StageForest(f, n, gone);
    hide Used, Stage, Forest;
    RangeSize(n, k);
    SubsetSize(Range(n, k), FreeBlocks(f.blocks));
  }

  /** One block more needs at least that block; the first block of a file needs just that. */
  lemma NextBlock(size: nat)
    requires size % BSIZE == 0 && size + BSIZE <= MAXBYTES
    ensures 0 < Need(size, size, BSIZE) <= MAXTAKEN && (size == 0 ==> Need(size, size, BSIZE) == 1)
  {
    ChunkBounds(size, size, BSIZE);
    var a := size / BSIZE;
    assert Touched(size, BSIZE) == 1 && SizeBlocks(size) == a;
    LeafOnPath(a);
    LeafInWindow(a, 1, a);
    var s := NewPos(a, a, 1);
    hide Window, Leaf, First;
    assert Leaf(a) in s;
    if size == 0 {
      forall p | p in s ensures p == Leaf(0) { OnlyRoot(p); }
      assert s == {Leaf(0)};
    }
  }

  lemma OnlyRoot(p: Pos)
    requires p in Window(0, 1)
    ensures p == Leaf(0)
  {
    assert Window(0, 1) == Window(0, 0) + PathPos(0);
  }

  /** A program appends a block of zeroes to a file: one chunk, in a transaction of its own. */
  method Append(fs: FileSys, i: nat, n: nat) returns (k: nat)
    requires Stage(fs.F(), n, {}) && i < NINODES && IsFile(fs.incore, i, fs.incore[i].size)
    requires fs.incore[i].size % BSIZE == 0 && fs.incore[i].size + BSIZE <= MAXBYTES && n + MAXTAKEN <= FSSIZE
    modifies fs
    ensures 0 < k <= MAXTAKEN && (old(fs.incore)[i].size == 0 ==> k == 1)
    ensures Stage(fs.F(), n + k, {}) && Took(old(fs.F()), fs.F(), i, Range(n, k))
    ensures |fs.incore| == NINODES && IsFile(fs.incore, i, old(fs.incore)[i].size + BSIZE)
    ensures fs.incore == old(fs.incore)[i := old(fs.incore)[i].(size := fs.incore[i].size, addrs := fs.incore[i].addrs)]
  {
    hide Need, Used, FreeBlocks, Sound, Synced, Forest, Links, Charged, Covers, Taken, Content, TxSize, OtherBlocks;
    hide Took;
    hide Climbs, OwnGrew;
    ghost var f := fs.F();
    var size := fs.incore[i].size;
    NextBlock(size);
    k := Need(size, size, BSIZE);
    RoomFor(f, n, {}, k);
    fs.BeginTransaction();
    var ok, r := fs.WriteI(i, Zero(), size);
    Appended(f, fs.F(), fs.logged, i, n, size, k);
  }

  lemma Appended(f: Fs, g: Fs, m: set<nat>, i: nat, n: nat, size: nat, k: nat)
    requires Stage(f, n, {}) && Sound(g) && WriteResult(f, g, i, size, Zero()) && OwnGrew(f.own, g.own, i)
    requires Charged(f.blocks, {}, g.blocks, m) && ExactTx(f, g, m, i, size, BSIZE) && f.inodes[i].size == size
    requires k == Need(size, size, BSIZE) && n + k <= FSSIZE
    ensures Stage(g, n + k, {}) && Took(f, g, i, Range(n, k))
    ensures |f.inodes| == |g.inodes| == NINODES && g.inodes[i].size == size + BSIZE
    ensures g.inodes == f.inodes[i := f.inodes[i].(size := size + BSIZE, addrs := g.inodes[i].addrs)]
  {
    assert Synced(g) && g.inodes[i].size == size + BSIZE && OnlyGrew(f, g, i) by {
      hide Need, Forest, Charged, Took, SyncedAt, Encodable, Tight, Lookup, InRange;
      assert FileOk(g, i) && FileOk(f, i);
      assert |Splice(Content(f, i), size, Zero())| == size + BSIZE;
    }
    hide Need, Sound, Synced, Forest, Charged, Taken, WriteResult, Took, Stage, TxSize, OtherBlocks;
    TakesNext(f, g, m, i, n, k);
  }

  // ---------- the run ----------

  /** From `f` to `g` only file `i` has changed. */
  ghost predicate OnlyFile(f: Fs, g: Fs, i: nat) {
    && |f.inodes| == |g.inodes| == NINODES && i < NINODES
    && InRange(f.own) && Climbs(f.own) && InRange(g.own) && Climbs(g.own)
    && forall j :: 0 <= j < NINODES && j != i ==>
         g.inodes[j] == f.inodes[j] && Holds(g.own, j) == Holds(f.own, j)
  }

  lemma OnlyFileRefl(f: Fs, i: nat, n: nat)
    requires Stage(f, n, {}) && i < |f.inodes| == NINODES
    ensures OnlyFile(f, f, i)
  {
    hide Holds, Sound, Synced;
  }

  lemma OnlyFileTrans(f: Fs, g: Fs, h: Fs, i: nat)
    requires OnlyFile(f, g, i) && OnlyFile(g, h, i)
    ensures OnlyFile(f, h, i)
  {
    hide Holds, InRange, Climbs;
  }

  lemma SameFree(f: Fs, g: Fs, i: nat)
    requires OnlyFile(f, g, i) && g.inodes[i].typ == f.inodes[i].typ
    ensures FreeInodes(g.inodes) == FreeInodes(f.inodes)
  {
    hide Holds, InRange, Climbs;
  }

  /** Small file `small[j]` is linked once and has one block, in bitmap block `j + FIRSTHOLE`. */
  ghost predicate SmallAt(f: Fs, small: seq<nat>, holes: seq<nat>, j: nat, v: nat, w: nat)
    requires |small| == |holes| && j < |small|
  {
    && InRange(f.own) && Climbs(f.own) && |f.inodes| == NINODES && small[j] < NINODES && small[j] != v && small[j] != w
    && f.inodes[small[j]].typ != 0 && Holds(f.own, small[j]) == {holes[j]} && holes[j] / BPB == j + FIRSTHOLE
  }

  ghost predicate Smalls(f: Fs, small: seq<nat>, holes: seq<nat>, q: nat, v: nat, w: nat) {
    |small| == |holes| && forall j :: q <= j < |small| ==> SmallAt(f, small, holes, j, v, w)
  }

  lemma SmallsKept(f: Fs, g: Fs, i: nat, small: seq<nat>, holes: seq<nat>, q: nat, v: nat, w: nat)
    requires Smalls(f, small, holes, q, v, w) && OnlyFile(f, g, i)
    requires i == v || i == w || f.inodes[i].typ == 0
    ensures Smalls(g, small, holes, q, v, w)
  {
    hide Holds;
    forall j | q <= j < |small| ensures SmallAt(g, small, holes, j, v, w) { assert SmallAt(f, small, holes, j, v, w); }
  }

  lemma TookOnly(f: Fs, g: Fs, i: nat, s: set<nat>)
    requires Took(f, g, i, s) && |f.inodes| == |g.inodes| == NINODES && i < NINODES
    requires g.inodes == f.inodes[i := f.inodes[i].(size := g.inodes[i].size, addrs := g.inodes[i].addrs)]
    ensures OnlyFile(f, g, i)
  {
    hide Holds;
  }

  /** A free inode has no blocks. */
  lemma FreeHoldsNone(f: Fs, n: nat, gone: set<nat>, i: nat)
    requires Stage(f, n, gone) && |f.inodes| == NINODES && i < NINODES && f.inodes[i].typ == 0
    ensures Holds(f.own, i) == {}
  {
    StageForest(f, n, gone);
    hide FileOk, Forest, Used;
    forall x | x in f.own ensures RootSlot(f.own, x).ino != i { UsedByAllocated(f, x); }
  }

  /** create: an inode is allocated and linked. */
  method Create(fs: FileSys, ghost n: nat) returns (i: nat)
    requires Stage(fs.F(), n, {}) && |FreeInodes(fs.incore)| > 0
    modifies fs
    ensures Stage(fs.F(), n, {}) && |old(fs.incore)| == NINODES && i < NINODES && old(fs.incore)[i].typ == 0
    ensures fs.own == old(fs.own) && fs.incore == old(fs.incore)[i := Inode(2, 0, 0, 1, 0, EMPTY)]
    ensures OnlyFile(old(fs.F()), fs.F(), i)
    ensures |FreeInodes(fs.incore)| == |FreeInodes(old(fs.incore))| - 1
  {
    hide Sound, Covers, Content, FileOk, SyncedAt;
    fs.BeginTransaction();
    var ok;
    ok, i := fs.IAlloc(2);
    assert old(fs.incore)[i].typ == 0;
    fs.SetLinks(i, 1);
    fs.ValidShape();
    assert FreeInodes(fs.incore) == FreeInodes(old(fs.incore)) - {i};
  }

  /** Appends to file `w` until the next free block is at `target` or just past it. */
  method Fill(fs: FileSys, w: nat, target: nat, n: nat) returns (m: nat)
    requires Stage(fs.F(), n, {}) && w < NINODES && IsFile(fs.incore, w, fs.incore[w].size)
    requires fs.incore[w].size % BSIZE == 0 && fs.incore[w].size <= n * BSIZE && n <= target <= 90000
    modifies fs
    ensures target <= m < target + MAXTAKEN && Stage(fs.F(), m, {}) && OnlyFile(old(fs.F()), fs.F(), w)
    ensures IsFile(fs.incore, w, fs.incore[w].size) && fs.incore[w].size % BSIZE == 0 && fs.incore[w].size <= m * BSIZE
    ensures FreeInodes(fs.incore) == FreeInodes(old(fs.incore))
  {
    hide Sound, Synced, Took, Holds, FreeInodes;
    m := n;
    OnlyFileRefl(fs.F(), w, n);
    while m < target
      invariant Stage(fs.F(), m, {}) && |fs.incore| == NINODES && IsFile(fs.incore, w, fs.incore[w].size)
      invariant m < target + MAXTAKEN
      invariant fs.incore[w].size % BSIZE == 0 && fs.incore[w].size <= m * BSIZE && OnlyFile(old(fs.F()), fs.F(), w)
      invariant FreeInodes(fs.incore) == FreeInodes(old(fs.incore))
    {
      ghost var f := fs.F();
      var k := Append(fs, w, m);
      TookOnly(f, fs.F(), w, Range(m, k));
      SameFree(f, fs.F(), w);
      OnlyFileTrans(old(fs.F()), f, fs.F(), w);
      m := m + k;
    }
  }

  /** Lays the victim and the small files, each followed by blocks of a filler file. */
  method Lay(fs: FileSys, n0: nat) returns (v: nat, w: nat, small: seq<nat>, ghost holes: seq<nat>, ghost n: nat)
    requires Stage(fs.F(), n0, {}) && n0 <= 9000 && |FreeInodes(fs.incore)| >= HOLES + 2
    modifies fs
    ensures Stage(fs.F(), n, {}) && n <= 91000 && |small| == HOLES && Smalls(fs.F(), small, holes, 0, v, w)
    ensures IsFile(fs.incore, v, VICTIM * BSIZE) && forall j :: 0 <= j < |holes| ==> NMETA <= holes[j] < n
  {
    hide Sound, Synced, Took, Holds, FreeInodes;
    v := Create(fs, n0);
    var m: nat := n0;
    var t: nat := 0;
    while t < VICTIM
      invariant t <= VICTIM && Stage(fs.F(), m, {}) && m <= n0 + t * MAXTAKEN && IsFile(fs.incore, v, t * BSIZE)
      invariant |FreeInodes(fs.incore)| >= HOLES + 1
    {
      ghost var f := fs.F();
      var k := Append(fs, v, m);
      TookOnly(f, fs.F(), v, Range(m, k));
      SameFree(f, fs.F(), v);
      m, t := m + k, t + 1;
    }
    w := Create(fs, m);
    small, holes := [], [];
    while |small| < HOLES
      invariant |small| <= HOLES && Stage(fs.F(), m, {}) && m <= (FIRSTHOLE + |small|) * BPB
      invariant |FreeInodes(fs.incore)| >= HOLES - |small| && Smalls(fs.F(), small, holes, 0, v, w)
      invariant |fs.incore| == NINODES && v < NINODES && w < NINODES && v != w && IsFile(fs.incore, v, VICTIM * BSIZE)
      invariant IsFile(fs.incore, w, fs.incore[w].size) && fs.incore[w].size % BSIZE == 0
      invariant fs.incore[w].size <= m * BSIZE && forall j :: 0 <= j < |holes| ==> NMETA <= holes[j] < m
    {
      ghost var q := |small|;
      ghost var f := fs.F();
      m := Fill(fs, w, (FIRSTHOLE + |small|) * BPB, m);
      SmallsKept(f, fs.F(), w, small, holes, 0, v, w);
      f := fs.F();
      var i := LaySmall(fs, m);
      SmallsMore(f, fs.F(), m, i, small, holes, v, w);
      small, holes := small + [i], holes + [m];
      m := m + 1;
    }
    n := m;
  }

  /** A new file with one block, the next free one. */
  method LaySmall(fs: FileSys, n: nat) returns (i: nat)
    requires Stage(fs.F(), n, {}) && |FreeInodes(fs.incore)| > 0 && n + MAXTAKEN <= FSSIZE
    modifies fs
    ensures Stage(fs.F(), n + 1, {}) && OnlyFile(old(fs.F()), fs.F(), i) && old(fs.incore)[i].typ == 0
    ensures fs.incore[i].typ != 0 && Holds(fs.own, i) == {n}
    ensures |FreeInodes(fs.incore)| == |FreeInodes(old(fs.incore))| - 1
  {
    hide Sound, Synced, Took, Holds, FreeInodes;
    ghost var f := fs.F();
    StageShaped(f, n, {});
    i := Create(fs, n);
    FreeHoldsNone(f, n, {}, i);
    ghost var g := fs.F();
    var k := Append(fs, i, n);
    TookOnly(g, fs.F(), i, Range(n, 1));
    TookFirst(g, fs.F(), i, n);
    OnlyFileTrans(f, g, fs.F(), i);
    SameFree(g, fs.F(), i);
  }

  lemma StageShaped(f: Fs, n: nat, gone: set<nat>)
    requires Stage(f, n, gone)
    ensures |f.inodes| == NINODES && |f.blocks| == FSSIZE
  {
    hide FileOk, Forest, Synced;
  }

  lemma TookFirst(f: Fs, g: Fs, i: nat, n: nat)
    requires Took(f, g, i, Range(n, 1)) && Holds(f.own, i) == {}
    ensures Holds(g.own, i) == {n}
  {
    hide Holds;
    assert Range(n, 1) == {n};
  }

  lemma SmallsMore(f: Fs, g: Fs, n: nat, i: nat, small: seq<nat>, holes: seq<nat>, v: nat, w: nat)
    requires Smalls(f, small, holes, 0, v, w) && OnlyFile(f, g, i) && f.inodes[i].typ == 0 && i != v && i != w
    requires g.inodes[i].typ != 0 && Holds(g.own, i) == {n} && n / BPB == |small| + FIRSTHOLE
    ensures Smalls(g, small + [i], holes + [n], 0, v, w)
  {
    SmallsKept(f, g, i, small, holes, 0, v, w);
    hide Holds, OnlyFile, InRange, Climbs;
    var s, h := small + [i], holes + [n];
    forall j | 0 <= j < |s| ensures SmallAt(g, s, h, j, v, w) {
      if j < |small| { assert SmallAt(g, small, holes, j, v, w); } else { OnlyFileShaped(f, g, i); }
    }
  }

  lemma OnlyFileShaped(f: Fs, g: Fs, i: nat)
    requires OnlyFile(f, g, i)
    ensures |g.inodes| == NINODES && i < NINODES && InRange(g.own) && Climbs(g.own)
  {
  }

  ghost function Gone(holes: seq<nat>, q: nat): (s: set<nat>)
    requires q <= |holes|
  {
    set j | 0 <= j < q :: holes[j]
  }

  lemma GoneMore(holes: seq<nat>, q: nat)
    requires q < |holes|
    ensures Gone(holes, q + 1) == Gone(holes, q) + {holes[q]}
  {
  }

  /** Without file `i`, whose one block is `x`. */
  lemma WithoutFile(f: Fs, g: Fs, n: nat, gone: set<nat>, i: nat, x: nat)
    requires Stage(f, n, gone) && Sound(g) && Synced(g) && g.own == Pruned(f.own, i) && Holds(f.own, i) == {x}
    ensures Stage(g, n, gone + {x}) && forall j :: j != i ==> Holds(g.own, j) == Holds(f.own, j)
  {
    hide FileOk, Forest, RootSlot, Synced;
    assert InRange(g.own) && Climbs(g.own) by { SoundClimbs(g); }
    forall y ensures y in g.own <==> y in f.own && y != x { assert y in Holds(f.own, i) <==> y == x; }
    forall y | y in g.own ensures RootSlot(g.own, y) == RootSlot(f.own, y) { RootSlotStable(g.own, f.own, y); }
  }

  lemma SoundClimbs(f: Fs)
    requires Sound(f)
    ensures InRange(f.own) && Climbs(f.own)
  {
    ForestClimbs(f);
  }

  /** unlink and the last iput of a file: first its link count is stored, then its blocks and its inode are freed. */
  method Remove(fs: FileSys, i: nat, ghost n: nat, ghost gone: set<nat>, ghost x: nat)
    requires Stage(fs.F(), n, gone) && i < NINODES && Holds(fs.own, i) == {x}
    modifies fs
    ensures Stage(fs.F(), n, gone + {x}) && OnlyFile(old(fs.F()), fs.F(), i)
  {
    hide Sound, Covers, Content, FileOk, SyncedAt, Holds, FileSys.Valid;
    ghost var f := fs.F();
    StageShaped(f, n, gone);
    StageValid(fs, n, gone);
    fs.BeginTransaction();
    fs.SetLinks(i, 0);
    fs.ValidShape();
    assert Synced(fs.F());
    fs.ValidSound();
    ghost var g := fs.F();
    assert Stage(g, n, gone);
    var freed := fs.IPut(i, 1);
    fs.ValidShape();
    IPutSynced(g, fs.F(), i);
    fs.ValidSound();
    WithoutFile(g, fs.F(), n, gone, i, x);
  }

  lemma StageValid(fs: FileSys, n: nat, gone: set<nat>)
    requires Stage(fs.F(), n, gone)
    ensures fs.Valid()
  {
  }

  lemma IPutSynced(f: Fs, g: Fs, i: nat)
    requires Synced(f) && Shaped(g) && i < NINODES
    requires forall j :: 0 <= j < NINODES && j != i ==> g.inodes[j] == f.inodes[j]
    requires forall j :: 0 <= j < NINODES ==>
      DiskInode(g.blocks, j) == if j == i then g.inodes[i] else DiskInode(f.blocks, j)
    ensures Synced(g)
  {
    hide DiskInode;
    forall j | 0 <= j < NINODES ensures SyncedAt(g, j) { assert SyncedAt(f, j); }
  }

  method RemoveAll(fs: FileSys, ghost v: nat, ghost w: nat, small: seq<nat>, ghost holes: seq<nat>, ghost n: nat)
    requires Stage(fs.F(), n, {}) && Smalls(fs.F(), small, holes, 0, v, w) && IsFile(fs.incore, v, VICTIM * BSIZE)
    modifies fs
    ensures |holes| == |small| && Stage(fs.F(), n, Gone(holes, |holes|)) && IsFile(fs.incore, v, VICTIM * BSIZE)
  {
    hide Sound, Synced, Holds;
    var q := 0;
    while q < |small|
      invariant 0 <= q <= |small| == |holes| && Smalls(fs.F(), small, holes, q, v, w)
      invariant Stage(fs.F(), n, Gone(holes, q)) && IsFile(fs.incore, v, VICTIM * BSIZE)
    {
      ghost var f := fs.F();
      assert SmallAt(f, small, holes, q, v, w);
      Remove(fs, small[q], n, Gone(holes, q), holes[q]);
      SmallsFewer(f, fs.F(), small, holes, q, v, w);
      GoneMore(holes, q);
      q := q + 1;
    }
  }

  lemma SmallsFewer(f: Fs, g: Fs, small: seq<nat>, holes: seq<nat>, q: nat, v: nat, w: nat)
    requires Smalls(f, small, holes, q, v, w) && q < |small| && OnlyFile(f, g, small[q])
    ensures Smalls(g, small, holes, q + 1, v, w)
  {
    hide Holds;
    assert SmallAt(f, small, holes, q, v, w);
    forall j | q < j < |small| ensures SmallAt(g, small, holes, j, v, w) {
      assert SmallAt(f, small, holes, j, v, w);
      assert holes[j] in Holds(f.own, small[j]) && holes[j] !in Holds(f.own, small[q]);
    }
  }

  // ---------- the chunk ----------

  ghost predicate Spread(holes: seq<nat>, n: nat) {
    |holes| == HOLES && forall j :: 0 <= j < HOLES ==> NMETA <= holes[j] < n && holes[j] / BPB == j + FIRSTHOLE
  }

  lemma {:induction false} GoneSize(holes: seq<nat>, q: nat)
    requires q <= |holes|
    ensures |Gone(holes, q)| <= q
  {
    if q > 0 {
      GoneSize(holes, q - 1);
      GoneMore(holes, q - 1);
    } else {
      assert Gone(holes, 0) == {};
    }
  }

  /** The first free blocks lie in as many bitmap blocks as there are holes. */
  lemma SpreadMaps(f: Fs, n: nat, holes: seq<nat>, k: nat)
    requires Stage(f, n, Gone(holes, |holes|)) && Spread(holes, n) && k >= HOLES
    ensures |f.blocks| == FSSIZE && |MapBlocks(FirstFree(f.blocks, 0, k))| >= HOLES
  {
    var gone := Gone(holes, HOLES);
    StageForest(f, n, gone);
    hide Stage, Used;
    GoneSize(holes, HOLES);
    FirstOnes(f.blocks, 0, HOLES, gone);
    FirstFreeGrows(f.blocks, 0, HOLES, k);
    var maps := MapBlocks(FirstFree(f.blocks, 0, k));
    hide FirstFree;
    forall m | m in Range(BMAPSTART + FIRSTHOLE, HOLES) ensures m in maps {
      var j := m - BMAPSTART - FIRSTHOLE;
      assert holes[j] in gone && MapBlock(holes[j]) == m;
    }
    RangeSize(BMAPSTART + FIRSTHOLE, HOLES);
    SubsetSize(Range(BMAPSTART + FIRSTHOLE, HOLES), maps);
  }

  /** The 18 blocks from block 130 on need a new double-indirect block and an index block below it. */
  lemma ChunkNeeds()
    ensures VICTIM * BSIZE + MAXCHUNK <= MAXBYTES
    ensures HOLES <= Need(VICTIM * BSIZE, VICTIM * BSIZE, MAXCHUNK) <= MAXTAKEN
    ensures OtherBlocks(VICTIM * BSIZE, VICTIM * BSIZE, MAXCHUNK) >= 22
  {
    hide NewPos, Window, Gainers;
    ChunkBounds(VICTIM * BSIZE, VICTIM * BSIZE, MAXCHUNK);
    assert Touched(VICTIM * BSIZE, MAXCHUNK) == 18 && SizeBlocks(VICTIM * BSIZE) == VICTIM;
    NewCounts(NewPos(VICTIM, VICTIM, 18));
  }

  lemma NewCounts(s: set<Pos>)
    requires s == NewPos(VICTIM, VICTIM, 18)
    ensures |s| >= HOLES && |Gainers(s)| >= 3
  {
    hide NewPos, Window, Leaves, Gainers;
    NewAreas(s);
    LeavesAre(VICTIM, 18);
    assert Pos(11, 2, 0) !in Leaves(VICTIM, 18);
    SubsetSize(Leaves(VICTIM, 18) + {Pos(11, 2, 0)}, s);
    SubsetSize({Pos(10, 1, 0), Pos(11, 1, 0), Pos(11, 2, 0)}, Gainers(s));
  }

  lemma NewAreas(s: set<Pos>)
    requires s == NewPos(VICTIM, VICTIM, 18)
    ensures Leaves(VICTIM, 18) + {Pos(11, 2, 0)} <= s && {Pos(10, 1, 0), Pos(11, 1, 0), Pos(11, 2, 0)} <= Gainers(s)
  {
    hide Window, Leaves, Span, PathPos, Leaf;
    forall p | p in Leaves(VICTIM, 18) ensures p in s {
      LeavesAre(VICTIM, 18);
      WindowInTree(VICTIM, 18, p);
    }
    hide First;
    NewPath();
    hide NewPos;
    assert Up(Pos(10, 0, 120)) == Pos(10, 1, 0) && !Top(Pos(10, 0, 120));
    assert Up(Pos(11, 0, 0)) == Pos(11, 1, 0) && Up(Pos(11, 1, 0)) == Pos(11, 2, 0);
  }

  lemma NewPath()
    ensures {Pos(10, 0, 120), Pos(11, 0, 0), Pos(11, 1, 0), Pos(11, 2, 0)} <= NewPos(VICTIM, VICTIM, 18)
  {
    Spans();
    hide Window, Span;
    forall p | p in PathPos(138) ensures p in Window(VICTIM, 18) { WindowPaths(VICTIM, 18, p); }
    LeafInWindow(VICTIM, 18, 130);
    assert Leaf(130) == Pos(10, 0, 120) && PathPos(138) == {Pos(11, 2, 0), Pos(11, 1, 0), Pos(11, 0, 0)};
  }

  /** On such a disk the size told beforehand passes MAXOPBLOCKS. */
  lemma ChunkTooBig(f: Fs, n: nat, holes: seq<nat>)
    requires Stage(f, n, Gone(holes, |holes|)) && Spread(holes, n)
    ensures |f.blocks| == FSSIZE && VICTIM * BSIZE + MAXCHUNK <= MAXBYTES
    ensures TxSize(f.blocks, VICTIM * BSIZE, VICTIM * BSIZE, MAXCHUNK) > MAXOPBLOCKS
  {
    ChunkNeeds();
    hide Need, OtherBlocks, MapBlocks, FirstFree;
    SpreadMaps(f, n, holes, Need(VICTIM * BSIZE, VICTIM * BSIZE, MAXCHUNK));
  }

  /** Small files laid and removed, then a chunk appended to the victim, on any disk whose first blocks are in use and
      no others: the write succeeds and its one transaction is larger than MAXOPBLOCKS. */
  method OversizedChunk(fs: FileSys, n0: nat, src: seq<Byte>) returns (ok: bool, r: int)
    requires Stage(fs.F(), n0, {}) && n0 <= 9000 && |FreeInodes(fs.incore)| >= HOLES + 2 && |src| == MAXCHUNK
    modifies fs
    ensures ok && r == |src| && fs.Valid() && |fs.logged| > MAXOPBLOCKS
  {
    hide Sound, Synced, Holds, FreeInodes, Covers, Charged, OwnGrew, Need, OtherBlocks, TxSize, Taken, FreeBlocks;
    hide Smalls;
    hide Content, WriteResult;
    var v, w, small;
    ghost var holes, n;
    v, w, small, holes, n := Lay(fs, n0);
    LaySpread(fs.F(), small, holes, v, w, n);
    RemoveAll(fs, v, w, small, holes, n);
    ghost var f := fs.F();
    ChunkTooBig(f, n, holes);
    ChunkNeeds();
    RoomFor(f, n, Gone(holes, |holes|), MAXTAKEN);
    StageValid(fs, n, Gone(holes, |holes|));
    fs.BeginTransaction();
    ok, r := fs.WriteI(v, src, VICTIM * BSIZE);
  }

  lemma LaySpread(f: Fs, small: seq<nat>, holes: seq<nat>, v: nat, w: nat, n: nat)
    requires Smalls(f, small, holes, 0, v, w) && |small| == HOLES
    requires forall j :: 0 <= j < |holes| ==> NMETA <= holes[j] < n
    ensures Spread(holes, n)
  {
    hide Holds;
    forall j | 0 <= j < HOLES ensures holes[j] / BPB == j + FIRSTHOLE { assert SmallAt(f, small, holes, j, v, w); }
  }

  // ---------- an empty disk to start from ----------

  /** The first bitmap block when only the metadata is in use. */
  function MetaBits(): (b: Block) {
    seq(BSIZE, k requires 0 <= k < BSIZE => if k < NMETA / 8 then 255 else if k == NMETA / 8 then 31 else 0)
  }

  lemma MetaBit(i: nat)
    requires i < BPB
    ensures Bit(MetaBits(), i) == (i < NMETA)
  {
    assert Pow2(8) == 256 && Pow2(5) == 32 by { assert Pow2(4) == 16; }
    OnesBits(8, i % 8);
    OnesBits(5, i % 8);
    OnesBits(0, i % 8);
  }

  lemma {:induction false} OnesBits(n: nat, i: nat)
    ensures Pow2(n) > 0 && BitOf(Pow2(n) - 1, i) == (i < n)
  {
    if n == 0 {
      if i > 0 { OnesBits(0, i - 1); }
    } else {
      OnesBits(n - 1, if i > 0 then i - 1 else 0);
      assert (Pow2(n) - 1) / 2 == Pow2(n - 1) - 1;
    }
  }

  function EmptyBlock(b: nat): (d: Block) {
    if b == BMAPSTART then MetaBits() else Zero()
  }

  function EmptyDisk(): (d: seq<Block>)
    ensures |d| == FSSIZE && forall b :: 0 <= b < FSSIZE ==> d[b] == EmptyBlock(b)
  {
    seq(FSSIZE, b requires 0 <= b < FSSIZE => EmptyBlock(b))
  }

  function NoInode(): (ino: Inode)
    ensures Encodable(ino)
  {
    Inode(0, 0, 0, 0, 0, EMPTY)
  }

  function NoInodes(): (s: seq<Inode>)
    ensures |s| == NINODES && forall i :: 0 <= i < NINODES ==> s[i] == NoInode()
  {
    seq(NINODES, i requires 0 <= i < NINODES => NoInode())
  }

  lemma EmptyRecord(s: nat)
    requires s < IPB
    ensures GetInode(Zero(), s) == NoInode()
  {
    hide Word;
    forall j | 0 <= j < DWORDS ensures RecordWord(Zero(), s, j) == 0 { WordOfZero(DWORDS * s + j); }
    assert GetAddrs(Zero(), s) == EMPTY;
  }

  lemma EmptyStage(f: Fs)
    requires f == Fs(EmptyDisk(), NoInodes(), map[])
    ensures Stage(f, NMETA, {}) && |FreeInodes(f.inodes)| == NINODES - 1
  {
    assert Forest(f) && Shaped(f) by { EmptyForest(f); }
    forall i | 0 <= i < NINODES ensures FileOk(f, i) && SyncedAt(f, i) {
      EmptyFile(f, i);
    }
    hide Forest, FileOk, SyncedAt, EmptyDisk;
    RangeSize(1, NINODES - 1);
    assert FreeInodes(f.inodes) == Range(1, NINODES - 1);
  }

  lemma EmptyFile(f: Fs, i: nat)
    requires f == Fs(EmptyDisk(), NoInodes(), map[]) && Shaped(f) && i < NINODES
    ensures FileOk(f, i) && SyncedAt(f, i)
  {
    TightEmpty(f, i);
    EmptyRecord(i % IPB);
    hide Tight, Lookup, GetInode, MetaBits;
    assert SizeBlocks(0) == 0;
  }

  lemma EmptyForest(f: Fs)
    requires f == Fs(EmptyDisk(), NoInodes(), map[])
    ensures Forest(f) && Shaped(f)
  {
    hide Bit, MetaBits, Word;
    forall b: nat | b < FSSIZE ensures Used(f.blocks, b) == (b < NMETA) {
      if b / BPB == 0 { MetaBit(b); } else { ZeroBit(b % BPB); }
    }
  }

  lemma ZeroBit(i: nat)
    requires i < BPB
    ensures !Bit(Zero(), i)
  {
    OnesBits(0, i % 8);
  }

  /** From an empty disk. */
  method OversizedFromEmpty(src: seq<Byte>) returns (fs: FileSys, ok: bool, r: int)
    requires |src| == MAXCHUNK
    ensures ok && r == |src| && fs.Valid() && |fs.logged| > MAXOPBLOCKS
  {
    hide EmptyDisk, NoInodes, Stage, FreeInodes;
    fs := new FileSys(EmptyDisk(), NoInodes(), map[]);
    EmptyStage(fs.F());
    ok, r := OversizedChunk(fs, NMETA, src);
  }
}
