/** On-disk inodes: eight 64-byte records in each inode block. */
module InodeTable {
  import opened Layout
  import opened Blocks
  import opened FileTree

  const DWORDS := 16                 // words of an on-disk inode

  predicate Encodable(ino: Inode) {
    && ino.typ < 0x10000 && ino.major < 0x10000 && ino.minor < 0x10000 && ino.nlink < 0x10000
    && ino.size < WORDLIMIT && |ino.addrs| == NROOTS
    && forall k :: 0 <= k < NROOTS ==> ino.addrs[k] < WORDLIMIT
  }

  function InodeWord(ino: Inode, j: nat): (w: nat)
    requires Encodable(ino) && j < DWORDS
    ensures w < WORDLIMIT
  {
    if j == 0 then ino.typ + 0x10000 * ino.major
    else if j == 1 then ino.minor + 0x10000 * ino.nlink
    else if j == 2 then ino.size
    else ino.addrs[j - 3]
  }

  /** Stores the first `n` words of `ino` in record `s`. */
  function PutWords(b: Block, s: nat, ino: Inode, n: nat): (r: Block)
    requires s < IPB && Encodable(ino) && n <= DWORDS
  {
    if n == 0 then b else SetWord(PutWords(b, s, ino, n - 1), DWORDS * s + n - 1, InodeWord(ino, n - 1))
  }

  function PutInode(b: Block, s: nat, ino: Inode): (r: Block)
    requires s < IPB && Encodable(ino)
  {
    PutWords(b, s, ino, DWORDS)
  }

  /** Word `j` of record `s`. */
  function RecordWord(b: Block, s: nat, j: nat): (w: nat)
    requires s < IPB && j < DWORDS
    ensures w < WORDLIMIT
  {
    Word(b, DWORDS * s + j)
  }

  function GetAddrs(b: Block, s: nat): (a: seq<nat>)
    requires s < IPB
    ensures |a| == NROOTS && forall k :: 0 <= k < NROOTS ==> a[k] == RecordWord(b, s, k + 3)
  {
    seq(NROOTS, k requires 0 <= k < NROOTS => RecordWord(b, s, k + 3))
  }

  function GetInode(b: Block, s: nat): (ino: Inode)
    requires s < IPB
  {
    Inode(Low(RecordWord(b, s, 0)), High(RecordWord(b, s, 0)),
          Low(RecordWord(b, s, 1)), High(RecordWord(b, s, 1)), RecordWord(b, s, 2), GetAddrs(b, s))
  }

  function Low(w: nat): nat { w % 0x10000 }

  function High(w: nat): nat { w / 0x10000 }

  lemma {:induction false} PutWordsAt(b: Block, s: nat, ino: Inode, n: nat, j: nat)
    requires s < IPB && Encodable(ino) && n <= DWORDS && j < WORDS
    ensures Word(PutWords(b, s, ino, n), j) ==
            if DWORDS * s <= j < DWORDS * s + n then InodeWord(ino, j - DWORDS * s) else Word(b, j)
  {
    hide Word; hide SetWord; hide InodeWord; hide Encodable;
    if n > 0 {
      PutWordsAt(b, s, ino, n - 1, j);
      WordAfterSet(PutWords(b, s, ino, n - 1), DWORDS * s + n - 1, InodeWord(ino, n - 1), j);
    }
  }

  lemma RecordAfterPut(b: Block, s: nat, ino: Inode, t: nat, j: nat)
    requires s < IPB && t < IPB && Encodable(ino) && j < DWORDS
    ensures RecordWord(PutInode(b, s, ino), t, j) == if t == s then InodeWord(ino, j) else RecordWord(b, t, j)
  {
    hide Word; hide PutWords; hide Encodable;
    PutWordsAt(b, s, ino, DWORDS, DWORDS * t + j);
  }

  lemma InodeFromWords(b: Block, s: nat, ino: Inode)
    requires s < IPB && Encodable(ino)
    requires forall j :: 0 <= j < DWORDS ==> RecordWord(b, s, j) == InodeWord(ino, j)
    ensures GetInode(b, s) == ino
  {
    hide RecordWord;
    assert GetAddrs(b, s) == ino.addrs;
  }

  /** iupdate then ilock: an inode written to its record reads back, its neighbours are untouched. */
  lemma InodeRoundTrip(b: Block, s: nat, ino: Inode, t: nat)
    requires s < IPB && t < IPB && Encodable(ino)
    ensures GetInode(PutInode(b, s, ino), t) == if t == s then ino else GetInode(b, t)
  {
    hide RecordWord; hide PutInode; hide InodeWord; hide Encodable;
    forall j | 0 <= j < DWORDS
      ensures RecordWord(PutInode(b, s, ino), t, j) == if t == s then InodeWord(ino, j) else RecordWord(b, t, j)
    {
      RecordAfterPut(b, s, ino, t, j);
    }
    if t == s {
      InodeFromWords(PutInode(b, s, ino), t, ino);
    } else {
      assert GetAddrs(PutInode(b, s, ino), t) == GetAddrs(b, t);
    }
  }

  /** Inode `i` as the disk has it. */
  function DiskInode(blocks: seq<Block>, i: nat): (ino: Inode)
    requires |blocks| == FSSIZE && i < NINODES
  {
    GetInode(blocks[INODESTART + i / IPB], i % IPB)
  }

  function Updated(blocks: seq<Block>, i: nat, ino: Inode): (r: seq<Block>)
    requires |blocks| == FSSIZE && i < NINODES && Encodable(ino)
    ensures |r| == FSSIZE
  {
    blocks[INODESTART + i / IPB := PutInode(blocks[INODESTART + i / IPB], i % IPB, ino)]
  }

  lemma DiskInodeAfterUpdate(blocks: seq<Block>, i: nat, ino: Inode, j: nat)
    requires |blocks| == FSSIZE && i < NINODES && Encodable(ino) && j < NINODES
    ensures DiskInode(Updated(blocks, i, ino), j) == if j == i then ino else DiskInode(blocks, j)
  {
    hide PutInode; hide GetInode;
    if j / IPB == i / IPB {
      InodeRoundTrip(blocks[INODESTART + i / IPB], i % IPB, ino, j % IPB);
    }
  }

  // ---------- the bytes of a record ----------

  /** Record `s` of an inode block, byte by byte: 64 bytes with type, major, minor and nlink in two bytes each, then
      size and thirteen block numbers in four bytes each. */
  predicate RecordIs(b: Block, s: nat, ino: Inode)
    requires s < 8
  {
    && ino.typ == Two(b, 64 * s) && ino.major == Two(b, 64 * s + 2)
    && ino.minor == Two(b, 64 * s + 4) && ino.nlink == Two(b, 64 * s + 6) && ino.size == Four(b, 64 * s + 8)
    && |ino.addrs| == 13 && forall k :: 0 <= k < 13 ==> ino.addrs[k] == Four(b, 64 * s + 12 + 4 * k)
  }

  /** The record of inode `i` is in block 122 + i / 8. */
  predicate OnDisk(blocks: seq<Block>, i: nat, ino: Inode) {
    |blocks| == 100000 && i < 200 && RecordIs(blocks[122 + i / 8], i % 8, ino)
  }

  lemma HalvesAreTwo(b: Block, k: nat)
    requires k < WORDS
    ensures Low(Word(b, k)) == Two(b, 4 * k) && High(Word(b, k)) == Two(b, 4 * k + 2)
  {
    WordIsFour(b, k);
    assert Word(b, k) == 65536 * Two(b, 4 * k + 2) + Two(b, 4 * k);
    Halves(Two(b, 4 * k + 2), Two(b, 4 * k));
  }

  lemma Halves(h: nat, l: nat)
    requires l < 65536
    ensures (65536 * h + l) % 65536 == l && (65536 * h + l) / 65536 == h
  {
  }

  lemma RecordBytes(b: Block, s: nat, ino: Inode)
    requires s < IPB
    ensures RecordIs(b, s, ino) <==> ino == GetInode(b, s)
  {
    hide Word, Low, High, Two, Four;
    var r := GetInode(b, s);
    HalvesAreTwo(b, 16 * s);
    HalvesAreTwo(b, 16 * s + 1);
    WordIsFour(b, 16 * s + 2);
    forall k | 0 <= k < 13 ensures r.addrs[k] == Four(b, 64 * s + 12 + 4 * k) { WordIsFour(b, 16 * s + 3 + k); }
    assert RecordIs(b, s, r);
    if RecordIs(b, s, ino) { assert ino.addrs == r.addrs; }
  }

  /** What is read as inode `i` is what its bytes say, and nothing else is. */
  lemma InodeBytes(blocks: seq<Block>, i: nat, ino: Inode)
    requires |blocks| == FSSIZE && i < NINODES
    ensures OnDisk(blocks, i, ino) <==> ino == DiskInode(blocks, i)
  {
    RecordBytes(blocks[INODESTART + i / IPB], i % IPB, ino);
    hide GetInode, RecordIs;
  }

  /** Nothing but the record of inode `i` has changed, and it holds `ino`. */
  predicate Stored(was: seq<Block>, now: seq<Block>, i: nat, ino: Inode) {
    && OnDisk(now, i, ino) && |was| == 100000
    && (forall b :: 0 <= b < 100000 && b != 122 + i / 8 ==> now[b] == was[b])
    && (forall p :: 0 <= p < 512 && p / 64 != i % 8 ==> now[122 + i / 8][p] == was[122 + i / 8][p])
  }

  lemma UpdatedStores(blocks: seq<Block>, i: nat, ino: Inode)
    requires |blocks| == FSSIZE && i < NINODES && Encodable(ino)
    ensures Stored(blocks, Updated(blocks, i, ino), i, ino)
  {
    hide PutInode, DiskInode, Encodable, OnDisk;
    DiskInodeAfterUpdate(blocks, i, ino, i);
    InodeBytes(Updated(blocks, i, ino), i, ino);
    assert |Updated(blocks, i, ino)| == |blocks|;
    var b := blocks[INODESTART + i / IPB];
    forall p: nat | p < BSIZE && p / 64 != i % 8 ensures PutInode(b, i % IPB, ino)[p] == b[p] {
      OtherBytes(b, i % IPB, ino, p);
    }
  }

  lemma OtherBytes(b: Block, s: nat, ino: Inode, p: nat)
    requires s < IPB && Encodable(ino) && p < BSIZE && p / 64 != s
    ensures PutInode(b, s, ino)[p] == b[p]
  {
    hide Encodable;
    BytesBeside(b, s, ino, DWORDS, p);
  }

  lemma {:induction false} BytesBeside(b: Block, s: nat, ino: Inode, n: nat, p: nat)
    requires s < IPB && Encodable(ino) && n <= DWORDS && p < BSIZE && p / 64 != s
    ensures PutWords(b, s, ino, n)[p] == b[p]
  {
    hide Encodable, InodeWord;
    if n > 0 {
      BytesBeside(b, s, ino, n - 1, p);
    }
  }
}
