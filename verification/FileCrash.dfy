/** A crash in the middle of a long write: what the file system is after recovery. */
module FileCrash {
  import opened Layout
  import opened Blocks
  import opened FileTree
  import opened FileGrow
  import opened FileNodes
  import opened BlockMap
  import opened InodeTable
  import opened FileContent
  import opened FileIO
  import opened Transaction
  import opened Journal
  import opened JournalSafety
  import opened FileCommit

  // ---------- a file system is its home blocks ----------

  lemma OnDisks(disk: seq<Block>)
    requires |disk| == FSSIZE
    ensures forall j :: 0 <= j < NINODES ==> OnDisk(disk, j, DiskInode(disk, j))
  {
    forall j | 0 <= j < NINODES ensures OnDisk(disk, j, DiskInode(disk, j)) { InodeBytes(disk, j, DiskInode(disk, j)); }
  }

  /** The file system that boots from a disk, every inode read from its record. */
  ghost function Mounted(disk: seq<Block>, own: Owners): (f: Fs)
    requires |disk| == FSSIZE
    ensures |f.inodes| == 200 && forall j :: 0 <= j < 200 ==> OnDisk(disk, j, f.inodes[j])
  {
    OnDisks(disk);
    Fs(disk, seq(NINODES, j requires 0 <= j < NINODES => DiskInode(disk, j)), own)
  }

  ghost predicate SameHome(b: seq<Block>, c: seq<Block>) {
    |b| == |c| == FSSIZE && forall x :: 0 <= x < FSSIZE && Home(x) ==> b[x] == c[x]
  }

  lemma HomesAgree(b: seq<Block>, c: seq<Block>)
    requires |b| == |c| == FSSIZE && HomeBlocks(b) == HomeBlocks(c)
    ensures SameHome(b, c)
  {
    forall x: nat | x < FSSIZE && Home(x) ensures b[x] == c[x] {
      assert b[x] == HomeBlocks(b)[x] && c[x] == HomeBlocks(c)[x];
    }
  }

  lemma MountedInodes(f: Fs, d: seq<Block>)
    requires Synced(f) && SameHome(f.blocks, d)
    ensures Mounted(d, f.own) == f.(blocks := d) && Shaped(f) && Shaped(Mounted(d, f.own)) && Synced(Mounted(d, f.own))
  {
    hide GetInode;
    var g := Mounted(d, f.own);
    forall j | 0 <= j < NINODES ensures g.inodes[j] == f.inodes[j] {
      assert SyncedAt(f, j);
      assert Home(INODESTART + j / IPB);
    }
    assert g.inodes == f.inodes;
  }

  lemma HomeLinks(f: Fs, d: seq<Block>)
    requires Forest(f) && SameHome(f.blocks, d)
    ensures Forest(f.(blocks := d))
  {
    hide Word, Bit;
    var g := f.(blocks := d);
    assert forall s :: IsSlot(f.own, s) ==> Value(g, s) == Value(f, s);
    forall b: nat | b < FSSIZE ensures Used(d, b) == Used(f.blocks, b) {
      assert Home(BMAPSTART + b / BPB);
    }
  }

  lemma {:induction false} HomeNode(f: Fs, d: seq<Block>, i: nat, p: Pos)
    requires Links(f) && Shaped(f) && SameHome(f.blocks, d) && i < NINODES
    ensures Node(f.(blocks := d), i, p) == Node(f, i, p)
    decreases RootLevel(p.k) - p.lev
  {
    if Legal(p) && !Top(p) {
      HomeNode(f, d, i, Up(p));
      hide Links, Node;
      if Node(f, i, Up(p)) != 0 { NodeOwn(f, i, Up(p)); }
    }
  }

  lemma HomeFile(f: Fs, d: seq<Block>, i: nat)
    requires Forest(f) && Shaped(f) && SameHome(f.blocks, d) && i < NINODES && FileOk(f, i)
    ensures Shaped(f.(blocks := d)) && FileOk(f.(blocks := d), i) && Content(f.(blocks := d), i) == Content(f, i)
  {
    var g := f.(blocks := d);
    HomeLinks(f, d);
    ForestLinks(f);
    ForestLinks(g);
    hide Forest, Links, Node, Lookup, Encodable, SameHome, InTree, First;
    forall p ensures Node(g, i, p) == Node(f, i, p) { HomeNode(f, d, i, p); }
    forall n: nat | n < MAXFILE ensures Lookup(d, f.inodes[i], n) == Lookup(f.blocks, f.inodes[i], n) {
      LookupNode(f, i, n);
      LookupNode(g, i, n);
    }
    forall p: nat | p < MAXBYTES ensures ByteAt(g, i, p) == ByteAt(f, i, p) {
      BlockIndex(p);
      HomeBlock(f, d, i, p / BSIZE);
    }
  }

  lemma HomeBlock(f: Fs, d: seq<Block>, i: nat, n: nat)
    requires Links(f) && Shaped(f) && SameHome(f.blocks, d) && i < NINODES && n < MAXFILE
    requires Lookup(d, f.inodes[i], n) == Lookup(f.blocks, f.inodes[i], n)
    ensures FileBlock(d, f.inodes[i], n) == FileBlock(f.blocks, f.inodes[i], n)
  {
    LookupNode(f, i, n);
    if Lookup(f.blocks, f.inodes[i], n) != 0 {
      hide Links, Lookup, Node;
      NodeOwn(f, i, Leaf(n));
    }
  }

  /** A sound file system whose inodes are on disk is sound again, with the same files, on any disk that holds its home
      blocks. */
  lemma MountedSound(f: Fs, d: seq<Block>)
    requires Sound(f) && Synced(f) && |d| == FSSIZE && HomeBlocks(d) == HomeBlocks(f.blocks)
    ensures Sound(Mounted(d, f.own)) && Mounted(d, f.own).inodes == f.inodes
    ensures forall j :: 0 <= j < NINODES ==> FileOk(f, j) && Content(Mounted(d, f.own), j) == Content(f, j)
  {
    assert |f.blocks| == FSSIZE;
    HomesAgree(f.blocks, d);
    MountedInodes(f, d);
    HomeLinks(f, d);
    hide Forest, Tight, Lookup, Mounted, SameHome, Synced, Encodable, Content;
    forall j | 0 <= j < NINODES
      ensures FileOk(Mounted(d, f.own), j) && Content(Mounted(d, f.own), j) == Content(f, j)
    {
      assert FileOk(f, j);
      HomeFile(f, d, j);
    }
  }

  // ---------- a crash in the middle of a write ----------

  /** The file system `f`, with the first `k` bytes of `src` written at `off` of file `ip` and nothing else changed,
      is what boots from the disk. */
  ghost predicate Boots(f: Fs, disk: seq<Block>, own: Owners, ip: nat, off: nat, src: seq<Byte>, k: nat) {
    && |disk| == FSSIZE && ip < NINODES && k <= |src|
    && var g := Mounted(disk, own);
       && Sound(f) && Sound(g)
       && (if k > 0 then off <= f.inodes[ip].size && OnlyGrew(f, g, ip) else g.inodes == f.inodes)
       && forall j :: 0 <= j < NINODES ==> (
            && FileOk(f, j) && FileOk(g, j)
            && Content(g, j) == if j == ip && k > 0 then Splice(Content(f, j), off, src[..k]) else Content(f, j))
  }

  lemma SnapBoots(f: Fs, g: Fs, d: seq<Block>, ip: nat, off: nat, src: seq<Byte>, k: nat)
    requires Sound(f) && Sound(g) && Synced(g) && ip < NINODES && k <= |src| && Progress(f, g, ip, off, src, k)
    requires |d| == FSSIZE && HomeBlocks(d) == HomeBlocks(g.blocks)
    ensures Boots(f, d, g.own, ip, off, src, k)
  {
    MountedSound(g, d);
    hide Forest, Tight, Lookup, Encodable, Mounted, Splice, Synced, Content, HomeBlocks, InRange;
    forall j | 0 <= j < NINODES ensures FileOk(f, j) && FileOk(Mounted(d, g.own), j) {}
  }

  /** The transactions of a chunked write chain. */
  lemma SnapshotsChain(snaps: seq<Fs>, txs: seq<Tx>, ip: nat, off: nat, src: seq<Byte>, u: nat, t: nat)
    requires Snapshots(snaps, txs, ip, off, src) && t <= u <= |txs|
    ensures InARow(snaps[0].blocks, txs[..u]) && After(snaps[0].blocks, txs[..u], t) == snaps[t].blocks
    ensures SnapOk(snaps, t, ip, off, src)
  {
    hide Sound, Synced, Progress, Covers, ChunkTx;
    assert SnapOk(snaps, 0, ip, off, src);
    assert |snaps[0].blocks| == FSSIZE by { SoundSize(snaps[0]); }
    forall v | 0 <= v < u
      ensures txs[..u][v].before == After(snaps[0].blocks, txs[..u], v)
      ensures Covers(txs[..u][v].before, {}, txs[..u][v].after, txs[..u][v].logged)
    {
      assert TxOk(snaps, txs, v, ip, off, src);
      if v > 0 { assert TxOk(snaps, txs, v - 1, ip, off, src); }
    }
    if t > 0 { assert TxOk(snaps, txs, t - 1, ip, off, src); }
  }

  lemma SoundSize(f: Fs)
    requires Sound(f)
    ensures |f.blocks| == FSSIZE
  {
  }

  lemma Prefix(run: seq<State>, steps: seq<Step>, k: nat)
    requires IsRun(run, steps) && k < |run|
    ensures IsRun(run[..k + 1], steps[..k])
  {
    hide Do, Enabled, Sane, Init;
  }

  /** A chunked write of file `ip`, of which `u` chunks are over and one more may be under way when the crash at step
      `k` comes; the machine then recovers, however many more times it crashes. What boots is a sound file system that
      holds the old files with a whole number of chunks of the write in place, at least those over at the last commit
      point. */
  lemma CrashedWrite(run: seq<State>, steps: seq<Step>, cuts: seq<nat>, snaps: seq<Fs>, txs: seq<Tx>, ip: nat, off: nat,
                     src: seq<Byte>, u: nat, k: nat, m: nat)
      returns (t: nat)
    requires IsRun(run, steps) && Snapshots(snaps, txs, ip, off, src) && Synced(snaps[0]) && u <= |txs|
    requires |cuts| == u + 1 && cuts[0] <= k < m < |run| && Performed(run[..k + 1], steps[..k], cuts, txs[..u])
    requires run[cuts[0]].phase.Idle? && run[cuts[0]].ops == [] && |run[cuts[0]].disk| == |snaps[0].blocks| == FSSIZE
    requires View(run[cuts[0]]) == HomeBlocks(snaps[0].blocks)
    requires steps[k].Crash? && (forall q :: k < q < m ==> RecoveryOnly(steps[q])) && run[m].phase.Idle?
    ensures t <= u && Kept(run[..k + 1], steps[..k], cuts, k, t)
    ensures Boots(snaps[0], run[m].disk, snaps[t].own, ip, off, src, Chunks(|src|, t))
  {
    hide Boots, View, HomeBlocks, Recovered, Word, ValidList, DecodeHeader, Performed, InARow, Kept, Synced, After;
    hide Snapshots, SnapOk, RecoveryOnly;
    assert |snaps| == |txs| + 1 by { SnapshotsSize(snaps, txs, ip, off, src); }
    SnapshotsChain(snaps, txs, ip, off, src, u, u);
    AfterCrash(run, steps, k);
    Prefix(run, steps, k);
    RecoveryRestores(run, steps, k + 1, m);
    hide IsRun;
    t := TransactionsAreAtomic(run[..k + 1], steps[..k], cuts, snaps[0].blocks, txs[..u], k);
    assert t <= u by { KeptBound(run[..k + 1], steps[..k], cuts, k, t); }
    SnapshotsChain(snaps, txs, ip, off, src, u, t);
    SnapFacts(snaps, txs, ip, off, src, t);
    SnapBoots(snaps[0], snaps[t], run[m].disk, ip, off, src, Chunks(|src|, t));
  }

  lemma SnapshotsSize(snaps: seq<Fs>, txs: seq<Tx>, ip: nat, off: nat, src: seq<Byte>)
    requires Snapshots(snaps, txs, ip, off, src)
    ensures |snaps| == |txs| + 1 && ip < NINODES
  {
  }

  lemma KeptBound(run: seq<State>, steps: seq<Step>, cuts: seq<nat>, k: nat, t: nat)
    requires |cuts| > 0 && k <= |steps| < |run| && Kept(run, steps, cuts, k, t)
    ensures t < |cuts|
  {
  }

  lemma SnapFacts(snaps: seq<Fs>, txs: seq<Tx>, ip: nat, off: nat, src: seq<Byte>, t: nat)
    requires Snapshots(snaps, txs, ip, off, src) && t < |snaps| && Synced(snaps[0])
    ensures Sound(snaps[0]) && Sound(snaps[t]) && Synced(snaps[t]) && ip < NINODES
    ensures Progress(snaps[0], snaps[t], ip, off, src, Chunks(|src|, t))
  {
    hide Sound, Synced, Progress, TxOk;
    assert SnapOk(snaps, 0, ip, off, src) && SnapOk(snaps, t, ip, off, src);
  }

  lemma AfterCrash(run: seq<State>, steps: seq<Step>, k: nat)
    requires IsRun(run, steps) && k < |steps| && steps[k].Crash?
    ensures run[k + 1].phase.Booting? && run[k + 1].disk == run[k].disk
  {
    hide Enabled, Sane, Init;
  }
}
