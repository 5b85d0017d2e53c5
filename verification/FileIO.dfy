/** file.c: writes through an open file, split into transactions of bounded size. */
module FileIO {
  import opened Layout
  import opened Blocks
  import opened FileTree
  import opened FirstFit
  import opened FileGrow
  import opened FileContent
  import opened InodeTable
  import opened TransactionSize
  import opened FileSystem
  import opened Transaction

  /** How far a chunked write at `off` gets: all of it, or whole chunks until one would start past the
      end of the file or end past the largest file. */
  ghost predicate Reach(size: nat, off: nat, n: nat, k: nat) {
    && k <= n
    && (k == n <==> n == 0 || (off <= size && off + n <= MAXBYTES))
    && (k < n ==> k % MAXCHUNK == 0)
    && (k < n ==> (k == 0 && off > size) || off + k + (if n - k < MAXCHUNK then n - k else MAXCHUNK) > MAXBYTES)
  }

  /** `k` bytes of `src` have been written at `off`. */
  ghost predicate Progress(f: Fs, g: Fs, i: nat, off: nat, src: seq<Byte>, k: nat)
    requires k <= |src|
  {
    if k == 0 then g == f else WriteResult(f, g, i, off, src[..k])
  }

  lemma ProgressMore(f: Fs, g: Fs, h: Fs, i: nat, off: nat, src: seq<Byte>, k: nat, m: nat)
    requires k + m <= |src| && 0 < m && Progress(f, g, i, off, src, k) && WriteResult(g, h, i, off + k, src[k..k + m])
    ensures Progress(f, h, i, off, src, k + m)
  {
    hide WriteResult;
    assert src[..k] + src[k..k + m] == src[..k + m];
    if k == 0 {
      assert src[k..k + m] == src[..k + m];
    } else {
      WriteResultJoin(f, g, h, i, off, src[..k], src[k..k + m]);
    }
  }

  lemma ProgressSize(f: Fs, g: Fs, i: nat, off: nat, src: seq<Byte>, k: nat)
    requires 0 < k <= |src| && Progress(f, g, i, off, src, k)
    ensures Shaped(f) && Shaped(g) && i < NINODES && off + k <= g.inodes[i].size <= MAXBYTES && off <= f.inodes[i].size
    ensures g.inodes[i].typ == f.inodes[i].typ
  {
    hide Encodable;
    assert FileOk(f, i) && FileOk(g, i);
    assert |Splice(Content(f, i), off, src[..k])| >= off + k;
  }

  /** Bytes in the first `t` chunks. */
  function Chunks(n: nat, t: nat): (k: nat)
    ensures k <= n
  {
    if t * MAXCHUNK < n then t * MAXCHUNK else n
  }

  /** The transaction of a chunk of `len` bytes at `off`, of a file of `size` bytes, has the size told beforehand. */
  ghost predicate ChunkTx(tx: Tx, size: nat, off: nat, len: nat) {
    && |tx.before| == FSSIZE && off + len <= MAXBYTES && len <= MAXCHUNK
    && |NonBitmap(tx.logged)| == OtherBlocks(size, off, len) && |tx.logged| == TxSize(tx.before, size, off, len)
  }

  /** The file systems between the transactions of a write of `src` at `off` of file `ip`: each is sound and has one
      chunk more in place, and its transaction logged all that changed and is as large as the numbers before it say.
      */
  ghost predicate Snapshots(snaps: seq<Fs>, txs: seq<Tx>, ip: nat, off: nat, src: seq<Byte>) {
    && |snaps| == |txs| + 1 && ip < NINODES && (forall t :: 0 <= t < |snaps| ==> SnapOk(snaps, t, ip, off, src))
    && forall t :: 0 <= t < |txs| ==> TxOk(snaps, txs, t, ip, off, src)
  }

  ghost predicate SnapOk(snaps: seq<Fs>, t: nat, ip: nat, off: nat, src: seq<Byte>)
    requires t < |snaps|
  {
    && Sound(snaps[t]) && Progress(snaps[0], snaps[t], ip, off, src, Chunks(|src|, t))
    && (Synced(snaps[0]) ==> Synced(snaps[t]))
  }

  ghost predicate TxOk(snaps: seq<Fs>, txs: seq<Tx>, t: nat, ip: nat, off: nat, src: seq<Byte>)
    requires t < |txs| && |snaps| == |txs| + 1 && ip < NINODES
  {
    && Shaped(snaps[t]) && txs[t].before == snaps[t].blocks && txs[t].after == snaps[t + 1].blocks
    && Covers(txs[t].before, {}, txs[t].after, txs[t].logged)
    && ChunkTx(txs[t], snaps[t].inodes[ip].size, off + Chunks(|src|, t), Chunks(|src|, t + 1) - Chunks(|src|, t))
  }

  lemma SnapshotsStart(f: Fs, ip: nat, off: nat, src: seq<Byte>)
    requires Sound(f) && ip < NINODES
    ensures Snapshots([f], [], ip, off, src)
  {
    hide Sound, Synced;
  }

  lemma SnapshotsMore(snaps: seq<Fs>, txs: seq<Tx>, ip: nat, off: nat, src: seq<Byte>, g: Fs, tx: Tx)
    requires Snapshots(snaps, txs, ip, off, src)
    requires SnapOk(snaps + [g], |txs| + 1, ip, off, src) && TxOk(snaps + [g], txs + [tx], |txs|, ip, off, src)
    ensures Snapshots(snaps + [g], txs + [tx], ip, off, src)
  {
    hide Sound, Synced, Progress, ChunkTx, Covers, Shaped;
    var s, r := snaps + [g], txs + [tx];
    forall t | 0 <= t < |s| ensures SnapOk(s, t, ip, off, src) {
      if t < |snaps| { assert SnapOk(snaps, t, ip, off, src) && s[t] == snaps[t] && s[0] == snaps[0]; }
    }
    forall t | 0 <= t < |r| ensures TxOk(s, r, t, ip, off, src) {
      if t < |txs| { assert TxOk(snaps, txs, t, ip, off, src) && r[t] == txs[t] && s[t] == snaps[t]; }
    }
  }

  /** `i` bytes of `src` are written and there may be more: whole chunks so far, all within range. */
  ghost predicate Going(g: Fs, ip: nat, off: nat, src: seq<Byte>, i: nat, snaps: seq<Fs>, txs: seq<Tx>) {
    && Snapshots(snaps, txs, ip, off, src) && snaps[|txs|] == g && i == Chunks(|src|, |txs|)
    && (i < |src| ==> i == |txs| * MAXCHUNK) && Shaped(snaps[0]) && snaps[0].inodes[ip].typ != 0
    && (i > 0 ==> off <= snaps[0].inodes[ip].size && off + i <= MAXBYTES)
  }

  /** `begin_op(); ilock(ip); writei(...); iunlock(ip); end_op()` for the next chunk of `src`. */
  method WriteChunk(fs: FileSys, ip: nat, ghost off: nat, pos: nat, src: seq<Byte>, i: nat, n1: nat,
                    ghost snaps: seq<Fs>, ghost txs: seq<Tx>)
      returns (ok: bool, r: int, ghost tx: Tx)
    requires pos == off + i && fs.Valid() && Going(fs.F(), ip, off, src, i, snaps, txs) && off + |src| < WORDLIMIT
    requires i < |src| && n1 == if |src| - i > MAXCHUNK then MAXCHUNK else |src| - i
    modifies fs
    ensures Shaped(snaps[0]) && ip < NINODES
    ensures !ok ==> |fs.blocks| == FSSIZE && fs.DiskFull() && |NonBitmap(fs.logged)| <= 25
    ensures Snapshots(snaps, txs, ip, off, src)
    ensures ok ==> fs.Valid() && (r == -1 || r == n1)
    ensures ok && r == -1 ==>
      Going(fs.F(), ip, off, src, i, snaps, txs) && Reach(snaps[0].inodes[ip].size, off, |src|, i)
    ensures ok && r == n1 ==> Going(fs.F(), ip, off, src, i + n1, snaps + [fs.F()], txs + [tx])
    ensures tx.before == old(fs.blocks) && tx.logged == fs.logged && tx.after == fs.blocks
  {
    hide Going, Snapshots, Reach, Sound, FileOk, Forest, WriteResult, ExactTx, OwnGrew, Charged, Covers, Need;
    hide FreeBlocks;
    hide FileSys.F, FileSys.Valid, FileSys.DiskFull, Used, Progress, ChunkTx, NonBitmap, Synced;
    ghost var g := fs.F();
    fs.ValidShape();
    GoingFacts(g, ip, off, src, i, snaps, txs);
    fs.BeginTransaction();
    ok, r := fs.WriteI(ip, src[i..i + n1], pos);
    tx := Tx(g.blocks, fs.logged, fs.blocks);
    if ok {
      if r == -1 {
        GoingStops(g, ip, off, src, i, n1, snaps, txs);
      } else {
        fs.ValidSound();
        fs.ValidShape();
        GoingMore(g, fs.F(), ip, off, src, i, n1, snaps, txs, tx);
      }
    }
  }

  lemma GoingFacts(g: Fs, ip: nat, off: nat, src: seq<Byte>, i: nat, snaps: seq<Fs>, txs: seq<Tx>)
    requires Going(g, ip, off, src, i, snaps, txs) && i < |src|
    ensures Shaped(g) && |g.inodes| == NINODES && ip < NINODES && Shaped(snaps[0]) && g.inodes[ip].typ != 0
    ensures i == |txs| * MAXCHUNK && |snaps| == |txs| + 1 && snaps[|txs|] == g
    ensures i == 0 ==> g == snaps[0]
    ensures i > 0 ==> off + i <= g.inodes[ip].size <= MAXBYTES && off <= snaps[0].inodes[ip].size
    ensures Snapshots(snaps, txs, ip, off, src)
  {
    hide Progress, Synced, TxOk;
    assert SnapOk(snaps, |txs|, ip, off, src);
    if i > 0 { ProgressSize(snaps[0], g, ip, off, src, i); } else { ProgressStart(snaps[0], g, ip, off, src); }
    hide Sound;
  }

  lemma GoingStops(g: Fs, ip: nat, off: nat, src: seq<Byte>, i: nat, n1: nat, snaps: seq<Fs>, txs: seq<Tx>)
    requires Going(g, ip, off, src, i, snaps, txs) && i < |src| && |g.inodes| == NINODES && off + |src| < WORDLIMIT
    requires n1 == if |src| - i > MAXCHUNK then MAXCHUNK else |src| - i
    requires off + i > g.inodes[ip].size || (off + i + n1) % WORDLIMIT < off + i || off + i + n1 > MAXBYTES
    ensures Shaped(snaps[0]) && Reach(snaps[0].inodes[ip].size, off, |src|, i)
  {
    GoingFacts(g, ip, off, src, i, snaps, txs);
    hide Going, Shaped;
  }

  lemma GoingMore(g: Fs, h: Fs, ip: nat, off: nat, src: seq<Byte>, i: nat, n1: nat, snaps: seq<Fs>, txs: seq<Tx>,
                  tx: Tx)
    requires Going(g, ip, off, src, i, snaps, txs) && i < |src| && Sound(h) && |h.blocks| == FSSIZE
    requires n1 == if |src| - i > MAXCHUNK then MAXCHUNK else |src| - i
    requires WriteResult(g, h, ip, off + i, src[i..i + n1]) && ExactTx(g, h, tx.logged, ip, off + i, n1)
    requires tx.before == g.blocks && tx.after == h.blocks && Covers(g.blocks, {}, h.blocks, tx.logged)
    ensures Going(h, ip, off, src, i + n1, snaps + [h], txs + [tx])
  {
    hide WriteResult, ExactTx, Covers, Sound, Progress, Snapshots, SnapOk, TxOk, Shaped;
    GoingFacts(g, ip, off, src, i, snaps, txs);
    var s, r := snaps + [h], txs + [tx];
    NextSnap(g, h, ip, off, src, i, n1, snaps, txs);
    NextTx(g, h, ip, off, src, i, n1, snaps, txs, tx);
    SnapshotsMore(snaps, txs, ip, off, src, h, tx);
    NextInRange(g, h, ip, off, src, i, n1, snaps);
  }

  lemma NextTx(g: Fs, h: Fs, ip: nat, off: nat, src: seq<Byte>, i: nat, n1: nat, snaps: seq<Fs>, txs: seq<Tx>, tx: Tx)
    requires |snaps| == |txs| + 1 && snaps[|txs|] == g && Shaped(g) && |h.blocks| == FSSIZE && ip < NINODES
    requires i == Chunks(|src|, |txs|) && i + n1 == Chunks(|src|, |txs| + 1) && n1 <= MAXCHUNK
    requires ExactTx(g, h, tx.logged, ip, off + i, n1) && Covers(g.blocks, {}, h.blocks, tx.logged)
    requires tx.before == g.blocks && tx.after == h.blocks
    ensures TxOk(snaps + [h], txs + [tx], |txs|, ip, off, src)
  {
    hide OtherBlocks, TxSize, Covers, Taken, NonBitmap;
    assert |g.blocks| == FSSIZE;
    hide Shaped;
  }

  lemma NextSnap(g: Fs, h: Fs, ip: nat, off: nat, src: seq<Byte>, i: nat, n1: nat, snaps: seq<Fs>, txs: seq<Tx>)
    requires Going(g, ip, off, src, i, snaps, txs) && i < |src| && Sound(h) && 0 < n1 && i + n1 <= |src|
    requires i + n1 == Chunks(|src|, |txs| + 1) && WriteResult(g, h, ip, off + i, src[i..i + n1])
    ensures |snaps| == |txs| + 1 && SnapOk(snaps + [h], |txs| + 1, ip, off, src)
    ensures Progress(snaps[0], h, ip, off, src, i + n1)
  {
    hide TxOk, Sound, Progress, WriteResult, Chunks, Synced, Shaped;
    assert SnapOk(snaps, |txs|, ip, off, src);
    ProgressMore(snaps[0], g, h, ip, off, src, i, n1);
    if Synced(snaps[0]) { StaysSynced(g, h, ip, off + i, src[i..i + n1]); }
  }

  lemma StaysSynced(g: Fs, h: Fs, i: nat, off: nat, src: seq<Byte>)
    requires WriteResult(g, h, i, off, src) && Synced(g)
    ensures Synced(h)
  {
    hide FileOk, Content, Splice, SyncedAt, OnlyGrew;
  }

  lemma NextInRange(g: Fs, h: Fs, ip: nat, off: nat, src: seq<Byte>, i: nat, n1: nat, snaps: seq<Fs>)
    requires snaps != [] && 0 < n1 && i + n1 <= |src| && Progress(snaps[0], h, ip, off, src, i + n1)
    ensures Shaped(snaps[0]) && ip < NINODES && off <= snaps[0].inodes[ip].size && off + i + n1 <= MAXBYTES
  {
    ProgressSize(snaps[0], h, ip, off, src, i + n1);
  }

  lemma GoingStart(f: Fs, ip: nat, off: nat, src: seq<Byte>)
    requires Sound(f) && ip < NINODES && f.inodes[ip].typ != 0
    ensures Going(f, ip, off, src, 0, [f], []) && |f.inodes| == NINODES
  {
    SnapshotsStart(f, ip, off, src);
    hide Snapshots;
  }

  /** The outcome of a chunked write: that of a single write of the `k` bytes it got through, in transactions of known
      size with a sound file system between any two. */
  ghost predicate Written(f: Fs, g: Fs, ip: nat, off: nat, src: seq<Byte>, k: nat, snaps: seq<Fs>, txs: seq<Tx>) {
    && Shaped(f) && ip < NINODES && k <= |src| && Progress(f, g, ip, off, src, k)
    && Reach(f.inodes[ip].size, off, |src|, k)
    && Snapshots(snaps, txs, ip, off, src) && snaps[0] == f && snaps[|txs|] == g && k == Chunks(|src|, |txs|)
  }

  lemma GoingResult(f: Fs, g: Fs, ip: nat, off: nat, src: seq<Byte>, k: nat, snaps: seq<Fs>, txs: seq<Tx>)
    requires Going(g, ip, off, src, k, snaps, txs) && snaps[0] == f
    requires Shaped(f) && ip < NINODES && (k == |src| || Reach(f.inodes[ip].size, off, |src|, k))
    ensures Written(f, g, ip, off, src, k, snaps, txs)
  {
    hide Progress, Sound, Synced, TxOk;
    assert SnapOk(snaps, |txs|, ip, off, src);
  }

  class OpenFile {
    var writable: bool
    var off: nat
    const ip: nat

    constructor (ip: nat, writable: bool)
      ensures this.ip == ip && this.writable == writable && off == 0
    {
      this.ip, this.writable, off := ip, writable, 0;
    }

    /** filewrite on an inode. The outcome is that of a single write of the `k` bytes it got through;
        `off` advances by `k`; the result is the length, or -1 when a chunk was refused. A panic on a full disk leaves
        whole chunks behind, and few blocks logged since. */
    method FileWrite(fs: FileSys, src: seq<Byte>)
        returns (ok: bool, r: int, ghost k: nat, ghost snaps: seq<Fs>, ghost txs: seq<Tx>)
      requires fs.Valid() && ip < NINODES && fs.incore[ip].typ != 0 && off + |src| < WORDLIMIT
      modifies this, fs
      ensures !writable ==> ok && r == -1 && unchanged(this, fs)
      ensures writable && ok ==>
        fs.Valid() && Written(old(fs.F()), fs.F(), ip, old(off), src, k, snaps, txs) && off == old(off) + k
      ensures writable && ok ==> r == if k == |src| then |src| else -1
      ensures !ok ==> |fs.blocks| == FSSIZE && fs.DiskFull() && |NonBitmap(fs.logged)| <= 25
      ensures !ok ==> Snapshots(snaps, txs, ip, old(off), src) && snaps[0] == old(fs.F())
      ensures writable == old(writable)
    {
      hide Going, Snapshots, FileSys.F, FileSys.Valid, FileSys.DiskFull, Written, Reach, Shaped, Forest, FileOk;
      hide Used, NonBitmap;
      k, snaps, txs := 0, [fs.F()], [];
      if !writable { return true, -1, k, snaps, txs; }
      ghost var f, start := fs.F(), off;
      fs.ValidShape();
      fs.ValidSound();
      GoingStart(f, ip, start, src);
      var i := 0;
      while i < |src|
        invariant fs.Valid() && i <= |src| && off == start + i && writable
        invariant Going(fs.F(), ip, start, src, i, snaps, txs) && k == i && snaps != [] && snaps[0] == f
        decreases |src| - i
      {
        var n1 := if |src| - i > MAXCHUNK then MAXCHUNK else |src| - i;
        ghost var tx;
        ok, r, tx := WriteChunk(fs, ip, start, off, src, i, n1, snaps, txs);
        if !ok { return; }
        if r > 0 { off := off + r; }
        if r < 0 {
          GoingResult(f, fs.F(), ip, start, src, k, snaps, txs);
          return true, -1, k, snaps, txs;
        }
        snaps, txs := snaps + [fs.F()], txs + [tx];
        i := i + r;
        k := i;
      }
      GoingResult(f, fs.F(), ip, start, src, k, snaps, txs);
      return true, |src|, k, snaps, txs;
    }

    /** pwrite on an inode: the same chunks at a given offset; the file's own `off` does not move. */
    method PWrite(fs: FileSys, src: seq<Byte>, offset: nat)
        returns (ok: bool, r: int, ghost k: nat, ghost snaps: seq<Fs>, ghost txs: seq<Tx>)
      requires fs.Valid() && ip < NINODES && fs.incore[ip].typ != 0 && offset + |src| < WORDLIMIT
      modifies fs
      ensures !writable ==> ok && r == -1 && unchanged(fs)
      ensures writable && ok ==> fs.Valid() && Written(old(fs.F()), fs.F(), ip, offset, src, k, snaps, txs)
      ensures writable && ok ==> r == if k == |src| then |src| else -1
      ensures !ok ==> |fs.blocks| == FSSIZE && fs.DiskFull() && |NonBitmap(fs.logged)| <= 25
      ensures !ok ==> Snapshots(snaps, txs, ip, offset, src) && snaps[0] == old(fs.F())
    {
      hide Going, Snapshots, FileSys.F, FileSys.Valid, FileSys.DiskFull, Written, Reach, Shaped, Forest, FileOk;
      hide Used, NonBitmap;
      k, snaps, txs := 0, [fs.F()], [];
      if !writable { return true, -1, k, snaps, txs; }
      ghost var f := fs.F();
      fs.ValidShape();
      fs.ValidSound();
      GoingStart(f, ip, offset, src);
      var pos := offset;
      var i := 0;
      while i < |src|
        invariant fs.Valid() && i <= |src| && pos == offset + i
        invariant Going(fs.F(), ip, offset, src, i, snaps, txs) && k == i && snaps != [] && snaps[0] == f
        decreases |src| - i
      {
        var n1 := if |src| - i > MAXCHUNK then MAXCHUNK else |src| - i;
        ghost var tx;
        ok, r, tx := WriteChunk(fs, ip, offset, pos, src, i, n1, snaps, txs);
        if !ok { return; }
        if r > 0 { pos := pos + r; }
        if r < 0 {
          GoingResult(f, fs.F(), ip, offset, src, k, snaps, txs);
          return true, -1, k, snaps, txs;
        }
        snaps, txs := snaps + [fs.F()], txs + [tx];
        i := i + r;
        k := i;
      }
      GoingResult(f, fs.F(), ip, offset, src, k, snaps, txs);
      return true, |src|, k, snaps, txs;
    }
  }

  lemma ProgressStart(f: Fs, g: Fs, i: nat, off: nat, src: seq<Byte>)
    requires Progress(f, g, i, off, src, 0)
    ensures f == g
  {
  }
}
