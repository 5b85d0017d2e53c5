/** fs.c: the block allocator, the block map, and reading and writing of files, over the blocks that
    bread shows and the in-memory inodes. Every change goes through log_write. */
module FileSystem {
  import opened Layout
  import opened Blocks
  import opened FileTree
  import opened FileGrow
  import opened FileNodes
  import opened BlockMap
  import opened InodeTable
  import opened FileContent
  import opened FileFree
  import opened TransactionSize
  import opened Transaction
  import opened FirstFit

  class FileSys {
    var blocks: seq<Block>
    var incore: seq<Inode>
    ghost var own: Owners
    ghost var logged: set<nat>       // blocks passed to log_write in this transaction

    constructor (disk: seq<Block>, inodes: seq<Inode>, ghost owners: Owners)
      ensures blocks == disk && incore == inodes && own == owners && logged == {}
    {
      blocks, incore, own, logged := disk, inodes, owners, {};
    }

    ghost function F(): (f: Fs)
      reads this
      ensures f.blocks == blocks && f.inodes == incore && f.own == own
    {
      Fs(blocks, incore, own)
    }

    /** begin_op, as far as the file system sees it: nothing is logged yet. */
    ghost method BeginTransaction()
      modifies this`logged
      ensures logged == {} && F() == old(F()) && Valid() == old(Valid())
    {
      logged := {};
    }

    ghost predicate DiskFull()
      reads this
      requires |blocks| == FSSIZE
    {
      forall x :: 0 <= x < FSSIZE ==> Used(blocks, x)
    }

    method LogWrite(b: nat, data: Block)
      requires b < |blocks|
      modifies this`blocks, this`logged
      ensures blocks == old(blocks)[b := data] && logged == old(logged) + {b}
    {
      blocks, logged := blocks[b := data], logged + {b};
    }

    /** Allocates the first free block, zeroed; fails (a panic) exactly when there is none. */
    method Balloc() returns (ok: bool, nb: nat)
      requires |blocks| == FSSIZE
      modifies this`blocks, this`logged
      ensures !ok ==> unchanged(this) && DiskFull()
      ensures ok ==> nb < FSSIZE && !old(Used(blocks, nb)) && forall x :: 0 <= x < nb ==> old(Used(blocks, x))
      ensures ok ==> blocks == Allocated(old(blocks), nb) && logged == old(logged) + {BMAPSTART + nb / BPB, nb}
    {
      hide Bit; hide SetBit;
      var b := 0;
      while b < FSSIZE
        invariant 0 <= b && b % BPB == 0 && unchanged(this)
        invariant forall x :: 0 <= x < b && x < FSSIZE ==> Used(blocks, x)
        decreases FSSIZE - b
      {
        var data := blocks[BMAPSTART + b / BPB];
        var bi := 0;
        while bi < BPB && b + bi < FSSIZE
          invariant 0 <= bi <= BPB && unchanged(this)
          invariant forall x :: 0 <= x < b + bi && x < FSSIZE ==> Used(blocks, x)
        {
          assert (b + bi) / BPB == b / BPB && (b + bi) % BPB == bi;
          if !Bit(data, bi) {
            LogWrite(BMAPSTART + b / BPB, SetBit(data, bi, true));
            LogWrite(b + bi, Zero());
            return true, b + bi;
          }
          bi := bi + 1;
        }
        b := b + BPB;
      }
      return false, 0;
    }

    /** Clears the bit of `b`; a block that is already free is a panic. */
    method Bfree(b: nat) returns (ok: bool)
      requires |blocks| == FSSIZE && b < FSSIZE
      modifies this`blocks, this`logged
      ensures ok == old(Used(blocks, b))
      ensures !ok ==> unchanged(this)
      ensures ok ==> logged == old(logged) + {BMAPSTART + b / BPB} && Covers(old(blocks), old(logged), blocks, logged)
      ensures ok ==> forall x :: 0 <= x < FSSIZE && !IsBitmap(x) ==> blocks[x] == old(blocks)[x]
      ensures ok ==> forall x :: 0 <= x < FSSIZE ==> Used(blocks, x) == (x != b && old(Used(blocks, x)))
    {
      hide Bit; hide SetBit;
      var data := blocks[BMAPSTART + b / BPB];
      if !Bit(data, b % BPB) {
        return false;
      }
      LogWrite(BMAPSTART + b / BPB, SetBit(data, b % BPB, false));
      forall x: nat | x < FSSIZE ensures Used(blocks, x) == (x != b && old(Used(blocks, x))) {
        if x / BPB == b / BPB {
          BitAfterSet(data, b % BPB, false, x % BPB);
        }
      }
      return true;
    }

    /** `if((addr = ip->addrs[k]) == 0) ip->addrs[k] = addr = balloc(dev)`. */
    method EnsureRoot(i: nat, k: nat) returns (ok: bool, c: nat)
      requires Forest(F()) && i < NINODES && k < NROOTS
      modifies this
      ensures !ok ==> unchanged(this) && |blocks| == FSSIZE && DiskFull() && incore[i].addrs[k] == 0
      ensures ok ==> Grew(old(F()), old(logged), F(), logged, {c}) && c == incore[i].addrs[k] && 0 < c < FSSIZE
      ensures ok ==> incore == RootSet(old(incore), i, k, c) && own == old(own)[c := Own(Root(i, k), RootLevel(k))]
      ensures ok ==> OwnGrew(old(own), own, i) && UnderFile(own, c, i)
      ensures old(incore[i].addrs[k]) != 0 ==> ok && unchanged(this)
    {
      hide Forest, Used, Ext, Covers, Charged, Along, Allocated, RootSet, Grew, OwnGrew, UnderFile, InRange;
      ForestShaped(F());
      ghost var f, l := F(), logged;
      ok, c := true, incore[i].addrs[k];
      if c != 0 {
        RootStays(f, l, i, k);
      } else {
        ok, c := Balloc();
        if ok {
          RootGrew(f, l, c, i, k);
          incore := RootSet(incore, i, k, c);
          own := own[c := Own(Root(i, k), RootLevel(k))];
        }
      }
    }

    /** The fragment that bmap repeats at each level: read index block `p`, allocate entry `k` if it
        is 0, log the index block. */
    method EnsureEntry(ghost i: nat, p: nat, k: nat) returns (ok: bool, c: nat)
      requires Forest(F()) && p in own && own[p].lev > 0 && k < WORDS && p < FSSIZE && UnderFile(own, p, i)
      modifies this
      ensures !ok ==> unchanged(this) && |blocks| == FSSIZE && DiskFull() && Word(blocks[p], k) == 0
      ensures ok ==> Grew(old(F()), old(logged), F(), logged, {p, c}) && c == Word(blocks[p], k) && 0 < c < FSSIZE
      ensures ok ==>
        incore == old(incore) && own == old(own)[c := Own(Entry(p, k), old(own)[p].lev - 1)] && own[p] == old(own)[p]
      ensures ok ==> OwnGrew(old(own), own, i) && UnderFile(own, c, i)
      ensures old(Word(blocks[p], k)) != 0 ==> ok && unchanged(this)
    {
      hide Forest, Used, Word, SetWord, Ext, Covers, Charged, Along, Allocated, EntrySet, Grew, OwnGrew, UnderFile;
      hide InRange;
      ForestShaped(F());
      ghost var f, l := F(), logged;
      var a := blocks[p];
      ok, c := true, Word(a, k);
      if c != 0 {
        EntryStays(f, l, i, p, k);
      } else {
        ok, c := Balloc();
        if ok {
          EntryGrew(f, l, c, i, p, k);
          LogWrite(p, SetWord(a, k, c));
          own := own[c := Own(Entry(p, k), own[p].lev - 1)];
        }
      }
    }

    method BMapDirect(i: nat, bn: nat) returns (ok: bool, addr: nat)
      requires Forest(F()) && i < NINODES && bn < NDIRECT
      modifies this
      ensures Forest(F()) && (!ok ==> |blocks| == FSSIZE && DiskFull())
      ensures !ok ==> Stuck(old(F()), old(logged), F(), logged, i, bn)
      ensures ok ==> Mapped(old(F()), old(logged), F(), logged, i, bn, addr)
      ensures old(Lookup(blocks, incore[i], bn)) != 0 ==> ok && unchanged(this)
    {
      hide Forest, Lookup, Node, PathOf, Ext, OwnGrew, UnderFile, Covers, Charged, Along, Stuck, Mapped;
      ForestShaped(F());
      Direct(F(), i, bn);
      ghost var f, l := F(), logged;
      ok, addr := EnsureRoot(i, bn);
      if !ok { StuckAtOnce(F(), logged, i, bn); return; }
      ForestShaped(F());
      Direct(F(), i, bn);
      MappedIntro(f, l, F(), logged, i, bn, addr, {addr});
    }

    method BMapSingle(i: nat, bn: nat) returns (ok: bool, addr: nat)
      requires Forest(F()) && i < NINODES && bn < 128
      modifies this
      ensures Forest(F()) && (!ok ==> |blocks| == FSSIZE && DiskFull())
      ensures !ok ==> Stuck(old(F()), old(logged), F(), logged, i, bn + 10)
      ensures ok ==> Mapped(old(F()), old(logged), F(), logged, i, bn + 10, addr)
      ensures old(Lookup(blocks, incore[i], bn + 10)) != 0 ==> ok && unchanged(this)
    {
      hide Forest, Word, Lookup, Node, PathOf, Ext, OwnGrew, UnderFile, Covers, Charged, Along, Stuck, Mapped;
      ForestShaped(F());
      Single(F(), i, bn);
      var a: nat;
      ghost var f0, l0 := F(), logged;
      ok, a := EnsureRoot(i, NDIRECT);
      if !ok { addr := 0; StuckAtOnce(F(), logged, i, bn + 10); return; }
      ghost var f1, l1 := F(), logged;
      ForestShaped(F());
      Single(F(), i, bn);
      ok, addr := EnsureEntry(i, a, bn);
      if !ok { StuckIntro(f0, l0, F(), logged, i, bn + 10, {a}); return; }
      GrewTrans(f0, l0, f1, l1, {a}, F(), logged, {a, addr});
      OwnGrewTrans(f0.own, f1.own, own, i);
      ForestShaped(F());
      Single(F(), i, bn);
      MappedIntro(f0, l0, F(), logged, i, bn + 10, addr, {a} + {a, addr});
    }

    /** Two index levels below an owned block, as the double- and triple-indirect branches end. When it finds the disk
        full, `b` is the index block it had got to, or 0. */
    method EnsurePath(ghost i: nat, p: nat, j: nat, k: nat) returns (ok: bool, b: nat, c: nat)
      requires Forest(F()) && p in own && own[p].lev > 1 && j < WORDS && k < WORDS && p < FSSIZE && UnderFile(own, p, i)
      modifies this
      ensures Forest(F()) && (!ok ==> |blocks| == FSSIZE && DiskFull())
      ensures incore == old(incore) && OwnGrew(old(own), own, i)
      ensures !ok && b == 0 ==> unchanged(this) && Word(blocks[p], j) == 0
      ensures !ok && b != 0 ==>
        Grew(old(F()), old(logged), F(), logged, {p, b}) && b < FSSIZE && b ==
          Word(blocks[p], j) && Word(blocks[b], k) == 0
      ensures ok ==> Grew(old(F()), old(logged), F(), logged, {p, b, c}) && 0 < b < FSSIZE && 0 < c < FSSIZE
      ensures ok ==> b == Word(blocks[p], j) && c == Word(blocks[b], k)
      ensures ok ==> own.Keys == old(own.Keys) + {b, c}
      ensures ok ==> b in own && own[b].lev == old(own)[p].lev - 1 && p in own && own[p] == old(own)[p]
      ensures old(At(blocks, At(blocks, p, j), k)) != 0 ==> ok && unchanged(this)
    {
      hide Forest, Word, Ext, OwnGrew, UnderFile, Covers, Charged, Along;
      ForestShaped(F());
      OwnGrewRefl(F(), i);
      ghost var f0, l0 := F(), logged;
      ok, b := EnsureEntry(i, p, j);
      if !ok { b, c := 0, 0; return; }
      ghost var f1, l1 := F(), logged;
      ok, c := EnsureEntry(i, b, k);
      if !ok { return; }
      GrewTrans(f0, l0, f1, l1, {p, b}, F(), logged, {b, c});
      assert {p, b} + {b, c} == {p, b, c};
      GrewPointer(f1, l1, F(), logged, {b, c}, p, j);
      OwnGrewTrans(f0.own, f1.own, own, i);
    }

    method BMapDouble(i: nat, bn: nat) returns (ok: bool, addr: nat)
      requires Forest(F()) && i < NINODES && bn < 16384
      modifies this
      ensures Forest(F()) && (!ok ==> |blocks| == FSSIZE && DiskFull())
      ensures !ok ==> Stuck(old(F()), old(logged), F(), logged, i, bn + 138)
      ensures ok ==> Mapped(old(F()), old(logged), F(), logged, i, bn + 138, addr)
      ensures old(Lookup(blocks, incore[i], bn + 138)) != 0 ==> ok && unchanged(this)
    {
      hide Forest, Word, Lookup, Node, PathOf, Ext, OwnGrew, UnderFile, Covers, Charged, Along, Stuck, Mapped;
      ForestShaped(F());
      Double(F(), i, bn);
      var a: nat, b: nat;
      ghost var f0, l0 := F(), logged;
      ok, a := EnsureRoot(i, NDIRECT + 1);
      if !ok { addr := 0; StuckAtOnce(F(), logged, i, bn + 138); return; }
      ghost var f1, l1 := F(), logged;
      ok, b, addr := EnsurePath(i, a, bn / 128, bn % 128);
      OwnGrewTrans(f0.own, f1.own, own, i);
      ForestShaped(F());
      Double(F(), i, bn);
      if !ok {
        if b != 0 { GrewTrans(f0, l0, f1, l1, {a}, F(), logged, {a, b}); }
        StuckIntro(f0, l0, F(), logged, i, bn + 138, if b == 0 then {a} else {a} + {a, b});
        return;
      }
      GrewTrans(f0, l0, f1, l1, {a}, F(), logged, {a, b, addr});
      MappedIntro(f0, l0, F(), logged, i, bn + 138, addr, {a} + {a, b, addr});
    }

    method BMapTriple(i: nat, bn: nat) returns (ok: bool, addr: nat)
      requires Forest(F()) && i < NINODES && bn < 2097152
      modifies this
      ensures Forest(F()) && (!ok ==> |blocks| == FSSIZE && DiskFull())
      ensures !ok ==> Stuck(old(F()), old(logged), F(), logged, i, bn + 16522)
      ensures ok ==> Mapped(old(F()), old(logged), F(), logged, i, bn + 16522, addr)
      ensures old(Lookup(blocks, incore[i], bn + 16522)) != 0 ==> ok && unchanged(this)
    {
      hide Forest, Word, Lookup, Node, PathOf, Ext, OwnGrew, UnderFile, Covers, Charged, Along, Stuck, Mapped;
      ForestShaped(F());
      Triple(F(), i, bn);
      var a: nat, b: nat, c: nat;
      ghost var f0, l0 := F(), logged;
      ok, a := EnsureRoot(i, NDIRECT + 2);
      if !ok { addr := 0; StuckAtOnce(F(), logged, i, bn + 16522); return; }
      ghost var f1, l1 := F(), logged;
      ok, b := EnsureEntry(i, a, bn / 16384);
      ForestShaped(F());
      if !ok {
        addr := 0;
        Triple(F(), i, bn);
        StuckIntro(f0, l0, F(), logged, i, bn + 16522, {a});
        return;
      }
      ghost var f2, l2 := F(), logged;
      GrewTrans(f0, l0, f1, l1, {a}, f2, l2, {a, b});
      OwnGrewTrans(f0.own, f1.own, f2.own, i);
      ok, c, addr := EnsurePath(i, b, bn / 128 % 128, bn % 128);
      OwnGrewTrans(f0.own, f2.own, own, i);
      ForestShaped(F());
      Triple(F(), i, bn);
      if !ok {
        if c != 0 {
          GrewTrans(f0, l0, f2, l2, {a} + {a, b}, F(), logged, {b, c});
          GrewPointer(f2, l2, F(), logged, {b, c}, a, bn / 16384);
        }
        StuckIntro(f0, l0, F(), logged, i, bn + 16522, if c == 0 then {a} + {a, b} else {a} + {a, b} + {b, c});
        return;
      }
      GrewTrans(f0, l0, f2, l2, {a} + {a, b}, F(), logged, {b, c, addr});
      GrewPointer(f2, l2, F(), logged, {b, c, addr}, a, bn / 16384);
      MappedIntro(f0, l0, F(), logged, i, bn + 16522, addr, {a} + {a, b} + {b, c, addr});
    }

    /** bmap: the disk block of file block `bn`, allocated if there is none. It panics only when it
        needs a block and the disk is full. No file reads differently afterwards, and no other file
        block is mapped, moved or unmapped. */
    method BMap(i: nat, bn: nat) returns (ok: bool, addr: nat)
      requires Forest(F()) && i < NINODES && bn < MAXFILE
      modifies this
      ensures Forest(F()) && Shaped(F()) && (!ok ==> DiskFull() && Stuck(old(F()), old(logged), F(), logged, i, bn))
      ensures ok ==> Mapped(old(F()), old(logged), F(), logged, i, bn, addr)
      ensures ok ==> Shaped(old(F())) && SameFlat(old(F()), F()) && OnlyMaps(old(F()), F(), i, bn)
      ensures ok ==> addr == Lookup(blocks, incore[i], bn) && 0 < addr < FSSIZE
      ensures old(Lookup(blocks, incore[i], bn)) != 0 ==> ok && unchanged(this)
    {
      hide Forest; hide Lookup; hide FileBlock;
      ForestShaped(F());
      if bn < NDIRECT {
        ok, addr := BMapDirect(i, bn);
      } else if bn - NDIRECT < 128 {
        ok, addr := BMapSingle(i, bn - NDIRECT);
      } else if bn - NDIRECT - 128 < 16384 {
        ok, addr := BMapDouble(i, bn - NDIRECT - 128);
      } else {
        ok, addr := BMapTriple(i, bn - NDIRECT - 128 - 16384);
      }
      ForestShaped(F());
      if ok {
        MappedFlat(old(F()), old(logged), F(), logged, i, bn, addr);
      }
    }

    /** Every file is sound; the trees and the bitmap agree. */
    ghost predicate Valid()
      reads this
    {
      Sound(F())
    }

    lemma ValidSound()
      requires Valid()
      ensures Sound(F())
    {
    }

    lemma ValidShape()
      requires Valid()
      ensures Shaped(F()) && |incore| == NINODES && |blocks| == FSSIZE
    {
    }

    /** iupdate: copies inode `i` to its record. */
    method IUpdate(i: nat)
      requires Forest(F()) && Shaped(F()) && i < NINODES && Encodable(incore[i])
      modifies this`blocks, this`logged
      ensures Forest(F()) && Shaped(F())
      ensures blocks == Updated(old(blocks), i, incore[i]) && logged == old(logged) + {INODESTART + i / IPB}
      ensures Covers(old(blocks), old(logged), blocks, logged) && Charged(old(blocks), old(logged), blocks, logged)
      ensures forall j :: 0 <= j < NINODES ==>
        DiskInode(blocks, j) == if j == i then incore[i] else DiskInode(old(blocks), j)
      ensures Stored(old(blocks), blocks, i, incore[i])
    {
      hide Used; hide PutInode; hide DiskInode; hide Encodable; hide Stored;
      UpdatedStores(blocks, i, incore[i]);
      var b := INODESTART + i / IPB;
      var data := PutInode(blocks[b], i % IPB, incore[i]);
      OverwriteKeepsForest(F(), b, data);
      forall j | 0 <= j < NINODES
        ensures DiskInode(Updated(blocks, i, incore[i]), j) == if j == i then incore[i] else DiskInode(blocks, j)
      {
        DiskInodeAfterUpdate(blocks, i, incore[i], j);
      }
      ChargedNothing(blocks, logged);
      ChargedWrite(blocks, logged, blocks, logged, b, data);
      LogWrite(b, data);
    }

    /** One round of writei's loop: the part of the source that falls in one block. */
    method WriteBlock(i: nat, pos: nat, piece: seq<Byte>) returns (ok: bool)
      requires Forest(F()) && Shaped(F()) && i < NINODES && pos < MAXBYTES && pos % BSIZE + |piece| <= BSIZE
      modifies this
      ensures Forest(F()) && Shaped(F()) && pos / BSIZE < MAXFILE
      ensures !ok ==> DiskFull() && Stuck(old(F()), old(logged), F(), logged, i, pos / BSIZE)
      ensures ok ==> Patched(old(F()), F(), i, pos, piece) && OnlyMaps(old(F()), F(), i, pos / BSIZE)
      ensures ok ==> Lookup(blocks, incore[i], pos / BSIZE) != 0 && Filled(old(F()), F(), i, pos / BSIZE, 1)
      ensures ok ==>
        Covers(old(blocks), old(logged), blocks, logged) && Charged(old(blocks), old(logged), blocks, logged)
      ensures ok ==> OnlyAddrs(old(F()), F(), i) && OwnGrew(old(own), own, i)
      ensures ok && old(Lookup(blocks, incore[i], pos / BSIZE)) != 0 ==> incore == old(incore)
      ensures ok ==> forall x :: 0 <= x < BMAPSTART ==> blocks[x] == old(blocks[x])
      ensures ok ==> BlockLogged(old(F()), old(logged), F(), logged, i, pos / BSIZE)
    {
      hide Forest, Patched, Lookup, SameFlat, ValidInodes, InRange, PathOf, Covers, Charged, Stuck, Along, Filled;
      hide BlockLogged, Node;
      BlockIndex(pos);
      var addr: nat;
      ghost var f, l := F(), logged;
      ok, addr := BMap(i, pos / BSIZE);
      if !ok { return; }
      ghost var g, m := F(), logged;
      var o := pos % BSIZE;
      var data := blocks[addr][..o] + piece + blocks[addr][o + |piece|..];
      WriteBlockFacts(f, l, g, m, i, pos, piece, addr);
      CoversWrite(f.blocks, l, blocks, m, addr, data);
      ChargedWrite(f.blocks, l, blocks, m, addr, data);
      LogWrite(addr, data);
      LoggedIsCovered(f.blocks, l, g.blocks, m);
      ForestLinks(F());
      BlockIsLogged(f, l, F(), m, i, pos / BSIZE, addr);
    }

    /** writei's loop: every byte of `src` is in place; the size is not yet updated. It stops on a full disk exactly
        when fewer blocks are free than it needs. */
    method WriteBlocks(i: nat, src: seq<Byte>, off: nat) returns (ok: bool)
      requires Valid() && i < NINODES && off <= incore[i].size && off + |src| <= MAXBYTES && incore[i].typ != 0
      modifies this
      ensures Forest(F()) && Shaped(F()) && Shaped(old(F())) && |old(blocks)| == FSSIZE && (!ok ==> DiskFull())
      ensures Covers(old(blocks), old(logged), blocks, logged) && Charged(old(blocks), old(logged), blocks, logged)
      ensures ok ==> Wrote(old(F()), F(), i, off, src, |src|)
      ensures ok ==> forall x :: 0 <= x < BMAPSTART ==> blocks[x] == old(blocks[x])
      ensures ok ==> LoggedWithin(old(F()), old(logged), F(), logged, i, off / BSIZE, Touched(off, |src|))
      ensures !ok ==> StuckAt(old(F()), old(logged), F(), logged, i, off, |src|)
    {
      hide Forest, Patched, Lookup, Wrote, ValidInodes, InRange, PathOf, OnlyMaps, FileOk, LoggedWithin, OwnGrew;
      hide Climbs;
      hide Covers, Charged, Stuck, Taken, BlockLogged, Node, StuckAt;
      ghost var f := F();
      assert FileOk(f, i);
      ForestClimbs(f);
      WroteNothing(f, i, off, src);
      LoggedNothing(f, logged, i, off / BSIZE);
      CoversNothing(blocks, logged);
      ChargedNothing(blocks, logged);
      var tot := 0;
      ok := true;
      while tot < |src|
        invariant 0 <= tot <= |src| && Forest(F()) && Shaped(F()) && Wrote(f, F(), i, off, src, tot)
        invariant tot == 0 || tot == |src| || (off + tot) % BSIZE == 0
        invariant LoggedWithin(f, old(logged), F(), logged, i, off / BSIZE, Touched(off, tot))
        invariant Covers(old(blocks), old(logged), blocks, logged) && Charged(old(blocks), old(logged), blocks, logged)
        invariant forall x :: 0 <= x < BMAPSTART ==> blocks[x] == old(blocks[x])
        decreases |src| - tot
      {
        ghost var g, l := F(), logged;
        var room := BSIZE - (off + tot) % BSIZE;
        var m := if |src| - tot < room then |src| - tot else room;
        ok := WriteBlock(i, off + tot, src[tot..tot + m]);
        if !ok {
          StuckRound(f, old(logged), g, l, F(), logged, i, off, src, tot, m);
          return;
        }
        LoggedRound(f, old(logged), g, l, F(), logged, i, off, src, tot, m);
        WroteMore(f, g, F(), i, off, src, tot, m);
        CoversTrans(f.blocks, old(logged), g.blocks, l, blocks, logged);
        ChargedTrans(f.blocks, old(logged), g.blocks, l, blocks, logged);
        tot := tot + m;
      }
    }

    /** writei: returns -1 and changes nothing when the offset is past the end of the file, the sum
        wraps, or the end would pass the largest file; otherwise overwrites and extends the file,
        leaving every other file alone, if the disk has the free blocks it needs, and finds the disk full if not. */
    method WriteI(i: nat, src: seq<Byte>, off: nat) returns (ok: bool, r: int)
      requires Valid() && i < NINODES && off < WORDLIMIT && |src| < WORDLIMIT && incore[i].typ != 0
      modifies this
      ensures Shaped(old(F())) && |old(blocks)| == FSSIZE
      ensures r == -1 <==> off > old(incore[i].size) || (off + |src|) % WORDLIMIT < off || off + |src| > MAXBYTES
      ensures r == -1 ==> ok && unchanged(this)
      ensures r != -1 && ok ==>
        r == |src| && Valid() && WriteResult(old(F()), F(), i, off, src) && OwnGrew(old(own), own, i)
      ensures r != -1 ==> (ok <==> Need(old(incore[i].size), off, |src|) <= |FreeBlocks(old(blocks))|)
      ensures !ok ==> |blocks| == FSSIZE && DiskFull()
      ensures Covers(old(blocks), old(logged), blocks, logged) && Charged(old(blocks), old(logged), blocks, logged)
      ensures r != -1 && ok && old(logged) == {} ==> ExactTx(old(F()), F(), logged, i, off, |src|)
      ensures !ok && old(logged) == {} && |src| <= MAXCHUNK ==> |NonBitmap(logged)| <= 25
    {
      hide LoggedWithin, NonBitmap, OwnGrew, Covers, Charged, StuckAt, ExactTx, Taken, Need, FreeBlocks, Done;
      hide Forest, Wrote, InRange, Encodable, Content, Used, DiskInode, Lookup, Tight;
      assert FileOk(F(), i);
      CoversNothing(blocks, logged);
      ChargedNothing(blocks, logged);
      if off > incore[i].size || (off + |src|) % WORDLIMIT < off {
        return true, -1;
      }
      if off + |src| > MAXBYTES {
        return true, -1;
      }
      ghost var f := F();
      ok := WriteBlocks(i, src, off);
      r := |src|;
      if !ok {
        StuckNeeds(f, old(logged), F(), logged, i, off, |src|);
        return;
      }
      ghost var g, l := F(), logged;
      WroteNeeds(f, old(logged), g, l, i, off, src);
      DiskInodesFrame(f.blocks, g.blocks);
      ghost var h := Sized(f, g, i, off, src);
      WroteSized(f, g, h, i, off, src);
      if |src| > 0 && off + |src| > incore[i].size {
        incore := incore[i := incore[i].(size := off + |src|)];
        assert F() == h;
        IUpdate(i);
        MetaFrame(h, F());
        CoversTrans(f.blocks, old(logged), g.blocks, l, blocks, logged);
        ChargedTrans(f.blocks, old(logged), g.blocks, l, blocks, logged);
      } else {
        assert F() == h;
      }
      if old(logged) == {} {
        UsedFrame(g.blocks, blocks);
        TxIsExact(f, g, l, F(), logged, i, off, src);
      }
      forall j | 0 <= j < NINODES && SyncedAt(f, j) ensures SyncedAt(F(), j) {
        assert DiskInode(g.blocks, j) == DiskInode(f.blocks, j) == f.inodes[j];
      }
    }

    /** readi: the bytes from `off` on, at most `n`, cut at the end of the file; -1 past the end or
        when the sum wraps. It allocates nothing and logs nothing, because no block is missing. */
    method ReadI(i: nat, off: nat, n: nat) returns (r: int, dst: seq<Byte>)
      requires Valid() && i < NINODES && off < WORDLIMIT && n < WORDLIMIT
      modifies this
      ensures unchanged(this)
      ensures FileOk(F(), i)
      ensures r == -1 <==> off > incore[i].size || (off + n) % WORDLIMIT < off
      ensures r != -1 ==> r == |dst| && r == if off + n > incore[i].size then incore[i].size - off else n
      ensures r != -1 ==> off + r <= |Content(F(), i)| && dst == Content(F(), i)[off..off + r]
    {
      hide Forest; hide Lookup; hide FileBlock; hide Encodable; hide Content; hide Mapped; hide SameFlat; hide OnlyMaps;
      dst := [];
      assert FileOk(F(), i);
      if off > incore[i].size || (off + n) % WORDLIMIT < off {
        return -1, dst;
      }
      var len := if off + n > incore[i].size then incore[i].size - off else n;
      var tot := 0;
      while tot < len
        invariant 0 <= tot <= len && unchanged(this)
        invariant dst == Content(F(), i)[off..off + tot]
        decreases len - tot
      {
        var pos := off + tot;
        var room := BSIZE - pos % BSIZE;
        var m := if len - tot < room then len - tot else room;
        PieceOfContent(F(), i, pos, m);
        var ok, addr := BMap(i, pos / BSIZE);
        ghost var c := Content(F(), i);
        Adjoin(c, off, pos, pos + m);
        dst := dst + blocks[addr][pos % BSIZE..pos % BSIZE + m];
        tot := tot + m;
      }
      r := len;
    }

    /** itrunc's loops over index blocks, at any depth: frees every block below `v`, then `v`. `f` is
        the file system when itrunc was called; only bitmap blocks have changed since. */
    method FreeTree(ghost f: Fs, v: nat, lev: nat) returns (ok: bool)
      requires Links(f) && v in f.own && f.own[v].lev == lev && SameButBitmap(f.blocks, blocks)
      requires forall x: nat :: Within(f.own, x, v) ==> x < FSSIZE && Used(blocks, x)
      modifies this`blocks, this`logged
      ensures ok && SameButBitmap(f.blocks, blocks) && Covers(old(blocks), old(logged), blocks, logged)
      ensures forall x: nat :: x < FSSIZE ==> Used(blocks, x) == (old(Used(blocks, x)) && !Within(f.own, x, v))
      ensures forall x :: x in logged ==> x in old(logged) || IsBitmap(x)
      decreases lev
    {
      hide Used; hide Word; hide Within; hide Below; hide Links; hide Covers;
      assert NMETA <= v < FSSIZE && InRange(f.own) && Climbs(f.own) && |f.blocks| == FSSIZE by { LinksShaped(f); }
      BelowNone(f.own, v);
      CoversNothing(blocks, logged);
      BelowAll(f.own, v);
      if lev > 0 {
        var a := blocks[v];
        var k := 0;
        while k < WORDS
          invariant 0 <= k <= WORDS && SameButBitmap(f.blocks, blocks)
          invariant forall x: nat :: x < FSSIZE ==> Used(blocks, x) == (old(Used(blocks, x)) && !Below(f.own, x, v, k))
          invariant forall x :: x in logged ==> x in old(logged) || IsBitmap(x)
          invariant Covers(old(blocks), old(logged), blocks, logged)
        {
          BelowMore(f, v, k);
          if Word(a, k) != 0 {
            Child(f, v, k);
            ghost var c, m := blocks, logged;
            var freed := FreeTree(f, Word(a, k), lev - 1);
            CoversTrans(old(blocks), old(logged), c, m, blocks, logged);
          }
          k := k + 1;
        }
      }
      ghost var c, m := blocks, logged;
      ok := Bfree(v);
      CoversTrans(old(blocks), old(logged), c, m, blocks, logged);
    }

    /** itrunc's loops: each root pointer's blocks are freed and the pointer is cleared. */
    method FreeRoots(i: nat)
      requires Valid() && i < NINODES
      modifies this`blocks, this`logged, this`incore
      ensures SameButBitmap(old(blocks), blocks) && Covers(old(blocks), old(logged), blocks, logged)
      ensures Shaped(old(F())) && Climbs(own)
      ensures incore == old(incore)[i := old(incore)[i].(addrs := EMPTY)]
      ensures forall x: nat :: x < FSSIZE ==> Used(blocks, x) == (old(Used(blocks, x)) && !Freed(own, x, i, NROOTS))
      ensures forall x :: x in logged ==> x in old(logged) || IsBitmap(x)
    {
      hide Used; hide Word; hide Within; hide Freed; hide Links; hide FileOk; hide Covers;
      ghost var f := F();
      ForestLinks(f);
      CoversNothing(blocks, logged);
      LinksShaped(f);
      var k := 0;
      assert forall x: nat :: !Freed(own, x, i, 0) by { FreedNone(own, i); }
      while k < NROOTS
        invariant 0 <= k <= NROOTS && SameButBitmap(f.blocks, blocks)
        invariant |incore| == NINODES && incore == f.inodes[i := f.inodes[i].(addrs := incore[i].addrs)]
        invariant |incore[i].addrs| == NROOTS
        invariant forall q :: 0 <= q < NROOTS ==> incore[i].addrs[q] == if q < k then 0 else f.inodes[i].addrs[q]
        invariant forall x: nat :: x < FSSIZE ==> Used(blocks, x) == (Used(f.blocks, x) && !Freed(f.own, x, i, k))
        invariant forall x :: x in logged ==> x in old(logged) || IsBitmap(x)
        invariant Covers(old(blocks), old(logged), blocks, logged)
      {
        FreedMore(f, i, k);
        var c := incore[i].addrs[k];
        if c != 0 {
          RootChild(f, i, k);
          OwnedAreUsed(f);
          ghost var b, m := blocks, logged;
          var freed := FreeTree(f, c, RootLevel(k));
          CoversTrans(old(blocks), old(logged), b, m, blocks, logged);
          incore := RootSet(incore, i, k, 0);
        }
        k := k + 1;
      }
      assert incore[i].addrs == EMPTY;
    }

    /** itrunc: frees exactly the blocks of file `i`, each once (no block is found already free), and
        leaves the file empty and every other file as it was. */
    method ITrunc(i: nat)
      requires Valid() && i < NINODES
      modifies this
      ensures Valid() && Shaped(old(F())) && Climbs(old(own))
      ensures own == Pruned(old(own), i) && incore == old(incore)[i := old(incore)[i].(addrs := EMPTY, size := 0)]
      ensures forall x: nat :: x < FSSIZE ==>
        Used(blocks, x) == (old(Used(blocks, x)) && !Freed(old(own), x, i, NROOTS))
      ensures forall j :: 0 <= j < NINODES ==> (
                FileOk(old(F()), j) && FileOk(F(), j) &&
                Content(F(), j) == if j == i then [] else Content(old(F()), j))
      ensures forall j :: 0 <= j < NINODES ==>
        DiskInode(blocks, j) == if j == i then incore[i] else DiskInode(old(blocks), j)
      ensures forall x :: x in logged ==> x in old(logged) || IsBitmap(x) || x == INODESTART + i / IPB
      ensures Covers(old(blocks), old(logged), blocks, logged)
    {
      hide Forest; hide Used; hide Freed; hide FileOk; hide Content; hide DiskInode; hide Links; hide BitmapExact;
      hide Covers;
      ghost var f := F();
      FreeRoots(i);
      ghost var c, m := blocks, logged;
      incore := incore[i := incore[i].(size := 0)];
      own := Pruned(own, i);
      ghost var g := F();
      PruneForest(f, g, i);
      PruneFiles(f, g, i);
      DiskInodesFrame(f.blocks, g.blocks);
      FileEncodable(g, i);
      IUpdate(i);
      MetaFrame(g, F());
      UsedFrame(g.blocks, blocks);
      CoversTrans(f.blocks, old(logged), c, m, blocks, logged);
    }

    /** Writing to a file that owns no block and truncating it again gives back every block: the
        bitmap is what it was. */
    method WriteThenTruncate(i: nat, src: seq<Byte>) returns (ok: bool)
      requires Valid() && i < NINODES && |src| <= MAXBYTES && incore[i].typ != 0
      requires forall x :: x in own ==> Climbs(own) && RootSlot(own, x).ino != i
      modifies this
      ensures ok ==> Valid() && own == old(own)
      ensures ok ==> forall x: nat :: x < FSSIZE ==> Used(blocks, x) == old(Used(blocks, x))
      ensures !ok ==> |blocks| == FSSIZE && DiskFull()
    {
      ForestClimbs(F());
      hide Forest; hide Used; hide FileOk; hide Content; hide RootSlot; hide OwnGrew; hide WriteResult;
      var r: int;
      ghost var o := own;
      ok, r := WriteI(i, src, 0);
      if !ok { return; }
      TruncateUndoesGrowth(o, own, i);
      ITrunc(i);
      SameOwnersSameBits(old(F()), F());
    }

    /** iput of the last reference to an unlinked inode: its blocks and the inode itself are freed. */
    method IPut(i: nat, ref: nat) returns (freed: bool)
      requires Valid() && i < NINODES
      modifies this
      ensures freed == (old(incore[i].nlink) == 0 && ref == 1)
      ensures !freed ==> unchanged(this)
      ensures freed ==> Valid() && own == Pruned(old(own), i)
      ensures freed ==> incore == old(incore)[i := old(incore)[i].(addrs := EMPTY, size := 0, typ := 0)]
      ensures freed ==> forall j :: 0 <= j < NINODES ==>
        DiskInode(blocks, j) == if j == i then incore[i] else DiskInode(old(blocks), j)
      ensures freed ==> Shaped(old(F())) && forall j :: 0 <= j < NINODES ==> (
        FileOk(old(F()), j) && FileOk(F(), j) && Content(F(), j) == if j == i then [] else Content(old(F()), j))
      ensures freed && old(logged) == {} ==> |logged| <= NBITMAP + 1 && |NonBitmap(logged)| <= 1
      ensures freed ==> Covers(old(blocks), old(logged), blocks, logged)
    {
      hide Forest; hide Used; hide Freed; hide FileOk; hide Content; hide DiskInode; hide Links; hide BitmapExact;
      freed := incore[i].nlink == 0 && ref == 1;
      if freed {
        hide Covers;
        ITrunc(i);
        ghost var g, m := F(), logged;
        incore := incore[i := incore[i].(typ := 0)];
        FileEncodable(g, i);
        RecordKeepsFiles(g, F(), i, incore[i]);
        ghost var h := F();
        FileEncodable(h, i);
        IUpdate(i);
        MetaFrame(h, F());
        CoversTrans(old(blocks), old(logged), g.blocks, m, blocks, logged);
        if old(logged) == {} {
          FreeLogs(logged, INODESTART + i / IPB);
        }
      }
    }

    /** Stores an inode whose type, device numbers or link count changed, as iupdate does after the change. */
    method StoreInode(i: nat, ino: Inode)
      requires Valid() && i < NINODES && Encodable(ino)
      requires ino.addrs == incore[i].addrs && ino.size == incore[i].size
      requires ino.typ == 0 ==> ino.addrs == EMPTY && ino.size == 0
      modifies this
      ensures Valid() && own == old(own) && incore == old(incore)[i := ino]
      ensures Shaped(old(F())) && forall j :: 0 <= j < NINODES ==>
        FileOk(old(F()), j) && FileOk(F(), j) && Content(F(), j) == Content(old(F()), j)
      ensures forall j :: 0 <= j < NINODES && (j == i || SyncedAt(old(F()), j)) ==> SyncedAt(F(), j)
      ensures Covers(old(blocks), old(logged), blocks, logged) && logged == old(logged) + {INODESTART + i / IPB}
    {
      hide Forest, Used, FileOk, Content, DiskInode, Links, BitmapExact, Covers, Encodable;
      ghost var g := F();
      incore := incore[i := ino];
      RecordKeepsFiles(g, F(), i, ino);
      ghost var h := F();
      IUpdate(i);
      MetaFrame(h, F());
    }

    /** ialloc: the first free inode from 1 on gets the type and an otherwise zeroed record; there being none is a
        panic. The record on disk tells which inodes are free. */
    method IAlloc(typ: nat) returns (ok: bool, i: nat)
      requires Valid() && Synced(F()) && 0 < typ < 0x10000
      modifies this
      ensures !ok ==> unchanged(this) && |incore| == NINODES && forall j :: 1 <= j < NINODES ==> incore[j].typ != 0
      ensures ok ==> |old(incore)| == NINODES && 1 <= i < NINODES && old(incore)[i].typ == 0
      ensures ok ==> forall j :: 1 <= j < i ==> old(incore)[j].typ != 0
      ensures ok ==> Valid() && Synced(F()) && own == old(own)
      ensures ok ==> incore == old(incore)[i := Inode(typ, 0, 0, 0, 0, EMPTY)]
      ensures ok ==> Shaped(old(F())) && forall j :: 0 <= j < NINODES ==>
        FileOk(old(F()), j) && FileOk(F(), j) && Content(F(), j) == Content(old(F()), j)
      ensures ok ==> Covers(old(blocks), old(logged), blocks, logged) && logged == old(logged) + {INODESTART + i / IPB}
    {
      hide Forest, FileOk, Content, DiskInode, Covers, Encodable;
      ValidShape();
      i := 1;
      while i < NINODES
        invariant 1 <= i <= NINODES && unchanged(this)
        invariant forall j :: 1 <= j < i ==> incore[j].typ != 0
      {
        assert SyncedAt(F(), i);
        if DiskInode(blocks, i).typ == 0 {
          FreeInode(F(), i);
          StoreInode(i, Inode(typ, 0, 0, 0, 0, EMPTY));
          return true, i;
        }
        i := i + 1;
      }
      return false, 0;
    }

    /** `ip->nlink = n; iupdate(ip)`, as create, link and unlink do. */
    method SetLinks(i: nat, n: nat)
      requires Valid() && i < NINODES && n < 0x10000
      modifies this
      ensures |old(incore)| == NINODES && Valid() && own == old(own)
      ensures incore == old(incore)[i := old(incore)[i].(nlink := n)]
      ensures Shaped(old(F())) && forall j :: 0 <= j < NINODES ==>
        FileOk(old(F()), j) && FileOk(F(), j) && Content(F(), j) == Content(old(F()), j)
      ensures forall j :: 0 <= j < NINODES && (j == i || SyncedAt(old(F()), j)) ==> SyncedAt(F(), j)
      ensures Covers(old(blocks), old(logged), blocks, logged) && logged == old(logged) + {INODESTART + i / IPB}
    {
      hide Forest, Content, DiskInode, Covers, Tight, Lookup;
      assert FileOk(F(), i);
      StoreInode(i, incore[i].(nlink := n));
    }
  }

  /** A free inode's record is empty. */
  lemma FreeInode(f: Fs, i: nat)
    requires Sound(f) && i < NINODES
    ensures f.inodes[i].typ == 0 ==> f.inodes[i].addrs == EMPTY && f.inodes[i].size == 0
    ensures forall t: nat :: t < 0x10000 ==> Encodable(Inode(t, 0, 0, 0, 0, EMPTY))
  {
    assert FileOk(f, i);
    hide Tight, Lookup;
  }
}
