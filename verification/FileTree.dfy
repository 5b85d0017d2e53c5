/** Files as trees of blocks: each inode has ten direct blocks and one single-, double- and
    triple-indirect tree; every block in use is named by exactly one pointer. */
module FileTree {
  import opened Layout
  import opened Blocks

  const NDIRECT := 10
  const NROOTS := 13
  const MAXFILE := 2113674           // 10 + 128 + 128^2 + 128^3

  datatype Inode = Inode(typ: nat, major: nat, minor: nat, nlink: nat, size: nat, addrs: seq<nat>)

  const EMPTY: seq<nat> := [0, 0, 0, 0, 0, 0, 0, 0, 0, 0, 0, 0, 0]

  /** A place that can hold a block number: an inode's `addrs[k]` or word `k` of an index block. */
  datatype Slot = Root(ino: nat, k: nat) | Entry(blk: nat, k: nat)

  /** Where the one pointer to a block is, and how many levels of pointers hang below the block. */
  datatype Own = Own(at: Slot, lev: nat)

  type Owners = map<nat, Own>

  /** The disk as bread shows it, the in-memory inodes, and the owner records. */
  datatype Fs = Fs(blocks: seq<Block>, inodes: seq<Inode>, own: Owners)

  /** Levels of indirection below root pointer `k`. */
  function RootLevel(k: nat): (l: nat) {
    if k < NDIRECT then 0 else k - NDIRECT + 1
  }

  ghost predicate ValidInodes(inodes: seq<Inode>) {
    && |inodes| == NINODES
    && forall i :: 0 <= i < NINODES ==> |inodes[i].addrs| == NROOTS
  }

  ghost predicate IsSlot(own: Owners, s: Slot) {
    match s
    case Root(i, k) => i < NINODES && k < NROOTS
    case Entry(p, k) => p in own && own[p].lev > 0 && k < WORDS
  }

  ghost function TargetLevel(own: Owners, s: Slot): (l: nat)
    requires IsSlot(own, s)
  {
    match s
    case Root(_, k) => RootLevel(k)
    case Entry(p, _) => own[p].lev - 1
  }

  ghost function Value(f: Fs, s: Slot): (v: nat)
    requires |f.blocks| == FSSIZE && ValidInodes(f.inodes) && InRange(f.own) && IsSlot(f.own, s)
  {
    match s
    case Root(i, k) => f.inodes[i].addrs[k]
    case Entry(p, k) => Word(f.blocks[p], k)
  }

  ghost predicate InRange(own: Owners) {
    forall b :: b in own ==> NMETA <= b < FSSIZE && own[b].lev <= 3
  }

  /** Owner records climb towards a root, one level at a time. */
  ghost predicate Climbs(own: Owners) {
    forall b :: b in own ==> IsSlot(own, own[b].at) && own[b].lev == TargetLevel(own, own[b].at)
  }

  /** The pointers stored on disk and in the f.inodes are exactly the owner records. */
  ghost predicate Links(f: Fs) {
    && |f.blocks| == FSSIZE && ValidInodes(f.inodes) && InRange(f.own) && Climbs(f.own)
    && (forall b :: b in f.own ==> Value(f, f.own[b].at) == b)
    && (forall s :: IsSlot(f.own, s) && Value(f, s) != 0 ==>
          Value(f, s) in f.own && f.own[Value(f, s)].at == s)
  }

  predicate Used(blocks: seq<Block>, b: nat)
    requires |blocks| == FSSIZE && b < FSSIZE
  {
    Bit(blocks[BMAPSTART + b / BPB], b % BPB)
  }

  /** The bitmap marks the metadata and the owned blocks, nothing else. */
  ghost predicate BitmapExact(blocks: seq<Block>, own: Owners) {
    && |blocks| == FSSIZE
    && forall b :: 0 <= b < FSSIZE ==> (Used(blocks, b) <==> b < NMETA || b in own)
  }

  ghost predicate Forest(f: Fs) {
    Links(f) && BitmapExact(f.blocks, f.own)
  }

  // ---------- the flat array ----------

  /** Leaves below a pointer with `lev` levels of index blocks. */
  function Span(lev: nat): (n: nat)
    ensures n > 0
  {
    if lev == 0 then 1 else WORDS * Span(lev - 1)
  }

  /** Which pointer of an index block with `lev` levels below it leads to leaf `idx`. */
  function Digit(idx: nat, lev: nat): (k: nat)
    requires lev > 0 && idx < Span(lev)
    ensures k < WORDS
  {
    DivBound(idx, lev);
    idx / Span(lev - 1)
  }

  /** The leaf's position below that pointer. */
  function Rest(idx: nat, lev: nat): (r: nat)
    requires lev > 0 && idx < Span(lev)
    ensures r < Span(lev - 1)
  {
    idx % Span(lev - 1)
  }

  /** The data block at leaf `idx` below pointer `v`, or 0. */
  function Descend(blocks: seq<Block>, v: nat, lev: nat, idx: nat): (r: nat)
    requires |blocks| == FSSIZE && idx < Span(lev)
    decreases lev
  {
    if v == 0 || v >= FSSIZE then 0
    else if lev == 0 then v
    else Descend(blocks, Word(blocks[v], Digit(idx, lev)), lev - 1, Rest(idx, lev))
  }

  lemma DivBound(idx: nat, lev: nat)
    requires lev > 0 && idx < Span(lev)
    ensures idx / Span(lev - 1) < WORDS && idx % Span(lev - 1) < Span(lev - 1)
  {
    DivLess(idx, Span(lev - 1), WORDS);
  }

  lemma DivMod(x: nat, s: nat)
    requires s > 0
    ensures x / s * s + x % s == x
  {
  }

  lemma DivLess(x: nat, s: nat, n: nat)
    requires s > 0 && x < n * s
    ensures x / s < n
  {
    if n <= x / s {
      MulLe(n, x / s, s);
    }
  }

  lemma MulLe(a: nat, b: nat, s: nat)
    requires a <= b
    ensures a * s <= b * s
  {
  }

  function RootOf(bn: nat): (k: nat)
    requires bn < MAXFILE
    ensures k < NROOTS
  {
    if bn < 10 then bn else if bn < 138 then 10 else if bn < 16522 then 11 else 12
  }

  function LeafOf(bn: nat): (idx: nat)
    requires bn < MAXFILE
    ensures idx < Span(RootLevel(RootOf(bn)))
  {
    assert Span(1) == 128 && Span(2) == 16384 && Span(3) == 2097152;
    if bn < 10 then 0 else if bn < 138 then bn - 10 else if bn < 16522 then bn - 138 else bn - 16522
  }

  function Lookup(blocks: seq<Block>, ino: Inode, bn: nat): (r: nat)
    requires |blocks| == FSSIZE && |ino.addrs| == NROOTS && bn < MAXFILE
  {
    Descend(blocks, ino.addrs[RootOf(bn)], RootLevel(RootOf(bn)), LeafOf(bn))
  }

  function BlockAt(blocks: seq<Block>, b: nat): (r: Block)
    requires |blocks| == FSSIZE
  {
    if 0 < b < FSSIZE then blocks[b] else Zero()
  }

  /** File block `bn` as readers see it: unmapped blocks read as zeroes. */
  function FileBlock(blocks: seq<Block>, ino: Inode, bn: nat): (r: Block)
    requires |blocks| == FSSIZE && |ino.addrs| == NROOTS && bn < MAXFILE
  {
    BlockAt(blocks, Lookup(blocks, ino, bn))
  }

  // ---------- distinct file blocks never share a block ----------

  /** Climbs from block `b` (the node above leaf `idx`, `lev` levels up) to its root pointer. */
  ghost function WhereIs(own: Owners, b: nat, lev: nat, idx: nat): (r: (nat, nat, nat))
    requires InRange(own) && Climbs(own) && b in own && own[b].lev == lev
    decreases 3 - lev
  {
    match own[b].at
    case Root(i, k) => (i, k, idx)
    case Entry(p, k) => WhereIs(own, p, lev + 1, k * Span(lev) + idx)
  }

  /** A pointer in an owned index block names an owned block one level down. */
  lemma Child(f: Fs, p: nat, k: nat)
    requires Links(f) && p in f.own && f.own[p].lev > 0 && k < WORDS && Word(f.blocks[p], k) != 0
    ensures var c := Word(f.blocks[p], k); c in f.own && f.own[c] == Own(Entry(p, k), f.own[p].lev - 1)
  {
    hide Word;
    var s := Entry(p, k);
    assert IsSlot(f.own, s) && Value(f, s) == Word(f.blocks[p], k);
  }

  lemma RootChild(f: Fs, i: nat, k: nat)
    requires Links(f) && i < NINODES && k < NROOTS && f.inodes[i].addrs[k] != 0
    ensures var c := f.inodes[i].addrs[k]; c in f.own && f.own[c] == Own(Root(i, k), RootLevel(k))
  {
    hide Word;
    var s := Root(i, k);
    assert IsSlot(f.own, s) && Value(f, s) == f.inodes[i].addrs[k];
  }

  lemma {:induction false} DescendWhere(f: Fs, v: nat, lev: nat, idx: nat)
    requires Links(f) && v in f.own && f.own[v].lev == lev && idx < Span(lev)
    requires Descend(f.blocks, v, lev, idx) != 0
    ensures var d := Descend(f.blocks, v, lev, idx);
            d in f.own && f.own[d].lev == 0 && WhereIs(f.own, d, 0, 0) == WhereIs(f.own, v, lev, idx)
    decreases lev
  {
    hide Word;
    if lev > 0 {
      DivMod(idx, Span(lev - 1));
      assert Digit(idx, lev) * Span(lev - 1) + Rest(idx, lev) == idx;
      hide Span; hide Digit; hide Rest;
      var k := Digit(idx, lev);
      var c := Word(f.blocks[v], k);
      Child(f, v, k);
      hide Links;
      DescendWhere(f, c, lev - 1, Rest(idx, lev));
    }
  }

  /** Every mapped file block is an owned leaf block whose owner chain leads back to it. */
  lemma LookupWhere(f: Fs, i: nat, bn: nat)
    requires Links(f) && i < NINODES && bn < MAXFILE
    requires Lookup(f.blocks, f.inodes[i], bn) != 0
    ensures var d := Lookup(f.blocks, f.inodes[i], bn);
            d in f.own && f.own[d].lev == 0 && WhereIs(f.own, d, 0, 0) == (i, RootOf(bn), LeafOf(bn))
  {
    hide Word;
    var k := RootOf(bn);
    RootChild(f, i, k);
    hide Descend;
    DescendWhere(f, f.inodes[i].addrs[k], RootLevel(k), LeafOf(bn));
  }

  /** Distinct f.blocks of files, in one file or in several, are distinct f.blocks of the disk. */
  lemma LookupInjective(f: Fs, i: nat, bn: nat, j: nat, bm: nat)
    requires Links(f) && i < NINODES && j < NINODES && bn < MAXFILE && bm < MAXFILE
    requires Lookup(f.blocks, f.inodes[i], bn) == Lookup(f.blocks, f.inodes[j], bm) != 0
    ensures i == j && bn == bm
  {
    LookupWhere(f, i, bn);
    LookupWhere(f, j, bm);
  }

  /** The root slot that `b` hangs from. */
  ghost function RootSlot(own: Owners, b: nat): (s: Slot)
    requires InRange(own) && Climbs(own) && b in own
    ensures s.Root?
    decreases 3 - own[b].lev
  {
    match own[b].at
    case Root(_, _) => own[b].at
    case Entry(p, _) => RootSlot(own, p)
  }

  /** `o` keeps the owner records of `own` and adds blocks of file `i` only. */
  ghost predicate OwnGrew(own: Owners, o: Owners, i: nat) {
    && InRange(own) && Climbs(own) && InRange(o) && Climbs(o)
    && (forall x :: x in own ==> x in o && o[x] == own[x])
    && (forall x :: x in o && x !in own ==> RootSlot(o, x).ino == i)
  }

  lemma {:induction false} RootSlotStable(own: Owners, o: Owners, x: nat)
    requires InRange(own) && Climbs(own) && InRange(o) && Climbs(o) && x in own
    requires forall y :: y in own ==> y in o && o[y] == own[y]
    ensures RootSlot(o, x) == RootSlot(own, x)
    decreases 3 - own[x].lev
  {
    if own[x].at.Entry? { RootSlotStable(own, o, own[x].at.blk); }
  }

  lemma OwnGrewRefl(f: Fs, i: nat)
    requires Forest(f)
    ensures OwnGrew(f.own, f.own, i)
  {
    hide Used;
  }

  lemma OwnGrewTrans(own: Owners, o: Owners, p: Owners, i: nat)
    requires OwnGrew(own, o, i) && OwnGrew(o, p, i)
    ensures OwnGrew(own, p, i)
  {
    hide RootSlot;
    forall x | x in p && x !in own ensures RootSlot(p, x).ino == i {
      if x in o { RootSlotStable(o, p, x); }
    }
  }
}
