/** The disk as its bytes: where each area is, and what the log header, the bitmap, the inode records and the index
    blocks say, told without the functions that the code is modelled with. */
module DiskFormat {
  import opened Layout
  import opened Blocks
  import opened FileTree
  import opened FileGrow
  import opened FileNodes
  import opened BlockMap
  import opened InodeTable
  import opened FileContent
  import opened Journal
  import opened JournalSafety

  // ---------- areas ----------

  /** Boot block, superblock, log, inodes, bitmap and data follow one another without gaps, and each area has room for
      what it holds. */
  lemma AreasTile()
    ensures BSIZE == 512 && FSSIZE == 100000 && NINODES == 200 && MAXOPBLOCKS == 40 && LOGSIZE == NLOG == 120
    ensures LOGSTART == 2 && LOGSTART + NLOG == INODESTART == 122
    ensures INODESTART + (200 / 8 + 1) == BMAPSTART == 148 && BMAPSTART + (100000 / 4096 + 1) == NMETA == 173
    ensures forall i: nat :: i < 200 ==> 122 <= INODESTART + i / IPB < 148
    ensures forall b: nat :: b < 100000 ==> 148 <= BMAPSTART + b / BPB < 173
    ensures forall b: nat :: b < 100000 ==> (Home(b) <==> !(2 <= b < 122)) && (IsBitmap(b) <==> 148 <= b < 173)
  {
  }

  // ---------- the log ----------

  /** What recovery restores, in bytes: block `b` comes from the log block whose place in the header it has, if it has
      one, and is left alone if not. Block 2 is the header, block 3 + i the copy of the i-th block listed. */
  lemma RecoveredBytes(disk: seq<Block>, b: nat)
    requires ValidDisk(disk) && b < 100000 && !(2 <= b < 122)
    ensures b in Recovered(disk) && |disk| == 100000
    ensures forall i :: 0 <= i < Four(disk[2], 0) ==>
      i < 119 && (Four(disk[2], 4 + 4 * i) == b ==> Recovered(disk)[b] == disk[3 + i])
    ensures (forall i :: 0 <= i < Four(disk[2], 0) ==> Four(disk[2], 4 + 4 * i) != b) ==> Recovered(disk)[b] == disk[b]
  {
    hide Word, Four, Recovered;
    var lh := DecodeHeader(disk[2]);
    WordIsFour(disk[2], 0);
    HeaderBytes(disk[2], lh);
    RecoveredAt(disk, b);
    forall i | 0 <= i < Four(disk[2], 0)
      ensures i < 119 && (Four(disk[2], 4 + 4 * i) == b ==> Recovered(disk)[b] == disk[3 + i])
    {
      assert lh[i] == Four(disk[2], 4 + 4 * i);
      if lh[i] == b { SlotOnly(lh, b, i); }
    }
  }

  lemma SlotOnly(lh: seq<nat>, b: nat, i: nat)
    requires ValidList(lh) && i < |lh| && lh[i] == b
    ensures Journal.Slot(lh, b) == i
  {
  }

  // ---------- the bitmap ----------

  /** The bit of block `b`: 4096 blocks to a bitmap block, 8 to a byte. */
  lemma UsedIsBit(blocks: seq<Block>, b: nat)
    requires |blocks| == FSSIZE && b < FSSIZE
    ensures Used(blocks, b) <==> blocks[148 + b / 4096][b % 4096 / 8] / Power(b % 8) % 2 == 1
  {
    BitIsDigit(blocks[148 + b / 4096], b % 4096);
    hide Bit;
    assert b % 4096 % 8 == b % 8;
  }

  // ---------- files ----------

  /** Pointer `k` of index block `v`, 0 where there is none. */
  function Pointer(blocks: seq<Block>, v: nat, k: nat): (w: nat)
    requires |blocks| == 100000 && k < 128
  {
    if v == 0 || v >= 100000 then 0 else Four(blocks[v], 4 * k)
  }

  /** Where block `n` of a file is: ten pointers to blocks in the inode, then one to a block of pointers, to a block of
      pointers to these, and to a block of pointers to those. */
  function Located(blocks: seq<Block>, addrs: seq<nat>, n: nat): (w: nat)
    requires |blocks| == 100000 && |addrs| == 13 && n < 2113674
  {
    if n < 10 then addrs[n]
    else if n < 138 then Pointer(blocks, addrs[10], n - 10)
    else if n < 16522 then Pointer(blocks, Pointer(blocks, addrs[11], (n - 138) / 128), (n - 138) % 128)
    else
      var m := n - 16522;
      Pointer(blocks, Pointer(blocks, Pointer(blocks, addrs[12], m / 16384), m / 128 % 128), m % 128)
  }

  lemma PointerIsAt(blocks: seq<Block>, v: nat, k: nat)
    requires |blocks| == FSSIZE && k < WORDS
    ensures Pointer(blocks, v, k) == FileNodes.At(blocks, v, k)
  {
    if 0 < v < FSSIZE { WordIsFour(blocks[v], k); }
  }

  lemma LookupIsLocated(f: Fs, i: nat, n: nat)
    requires Links(f) && Shaped(f) && i < NINODES && n < MAXFILE
    ensures Lookup(f.blocks, f.inodes[i], n) == Located(f.blocks, f.inodes[i].addrs, n)
  {
    LookupNode(f, i, n);
    LocatedNode(f, i, n);
    hide Links, Lookup, Located, Node;
  }

  lemma LocatedNode(f: Fs, i: nat, n: nat)
    requires Shaped(f) && i < NINODES && n < MAXFILE
    ensures Located(f.blocks, f.inodes[i].addrs, n) == Node(f, i, Leaf(n))
  {
    var a := f.inodes[i].addrs;
    hide Node, Pointer, FileNodes.At, Lookup, PathOf, InRange;
    if n < 10 {
      Direct(f, i, n);
    } else if n < 138 {
      Single(f, i, n - 10);
      PointerIsAt(f.blocks, a[10], n - 10);
    } else if n < 16522 {
      Double(f, i, n - 138);
      PointerIsAt(f.blocks, a[11], (n - 138) / 128);
      PointerIsAt(f.blocks, Pointer(f.blocks, a[11], (n - 138) / 128), (n - 138) % 128);
    } else {
      var m := n - 16522;
      Triple(f, i, m);
      PointerIsAt(f.blocks, a[12], m / 16384);
      PointerIsAt(f.blocks, Pointer(f.blocks, a[12], m / 16384), m / 128 % 128);
      PointerIsAt(f.blocks, Pointer(f.blocks, Pointer(f.blocks, a[12], m / 16384), m / 128 % 128), m % 128);
    }
  }

  /** Byte `p` of the file with these pointers is `x`, and it is in a block that is there. */
  predicate ByteHeld(f: Fs, addrs: seq<nat>, p: nat, x: nat)
    requires Shaped(f) && |addrs| == 13 && p / 512 < 2113674
  {
    var b := Located(f.blocks, addrs, p / 512);
    0 < b < 100000 && f.blocks[b][p % 512] == x
  }

  /** A file in bytes: as many as its size, and byte `p` is byte p % 512 of the block where block p / 512 of the file
      is. */
  lemma ContentBytes(f: Fs, i: nat, p: nat)
    requires Sound(f) && i < NINODES
    ensures FileOk(f, i) && |Content(f, i)| == f.inodes[i].size
    ensures p < f.inodes[i].size ==> p / 512 < MAXFILE && ByteHeld(f, f.inodes[i].addrs, p, Content(f, i)[p])
  {
    assert FileOk(f, i);
    ForestLinks(f);
    hide Forest, Links, Located, Lookup, Node, Encodable, Tight, InRange;
    if p < f.inodes[i].size {
      BlockIndex(p);
      LookupIsLocated(f, i, p / 512);
      LookupRange(f, i, p / 512);
    }
  }

  lemma LookupRange(f: Fs, i: nat, n: nat)
    requires Links(f) && Shaped(f) && i < NINODES && n < MAXFILE
    ensures Lookup(f.blocks, f.inodes[i], n) < FSSIZE
  {
    hide Links, Lookup, Node;
    LookupNode(f, i, n);
    if Node(f, i, Leaf(n)) != 0 { NodeOwn(f, i, Leaf(n)); }
  }
}
