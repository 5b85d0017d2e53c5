/** bio.c: the cache of disk blocks, a doubly linked list of buffers in order of last release. */
module BufferCache {
  import opened Layout
  import opened Blocks
  import opened Indexing

  const NBUF := 120
  const HEAD := NBUF // the list's sentinel, after the buffers

  /** `locked`: some process holds the buffer's sleep lock. */
  datatype Buf = Buf(dev: nat, blockno: nat, valid: bool, dirty: bool, refcnt: nat, locked: bool, data: Block)

  predicate Holds(b: Buf, dev: nat, blockno: nat) {
    b.dev == dev && b.blockno == blockno
  }

  predicate Free(b: Buf) {
    b.refcnt == 0 && !b.dirty
  }

  ghost predicate Cached(bufs: seq<Buf>, dev: nat, blockno: nat) {
    exists b :: 0 <= b < |bufs| && Holds(bufs[b], dev, blockno)
  }

  ghost predicate SomeFree(bufs: seq<Buf>) {
    exists b :: 0 <= b < |bufs| && Free(bufs[b])
  }

  // The list

  /** Entry `i` of the ring and the entry after it point to each other. */
  ghost predicate LinkAt(ring: seq<nat>, i: nat, next: seq<nat>, prev: seq<nat>)
    requires i < |ring|
  {
    && ring[i] < |next| && ring[Next(|ring|, i)] < |prev|
    && next[ring[i]] == ring[Next(|ring|, i)] && prev[ring[Next(|ring|, i)]] == ring[i]
  }

  /** `ring` lists, without repetition, the entries met going round from the sentinel. */
  ghost predicate Ring(ring: seq<nat>, next: seq<nat>, prev: seq<nat>) {
    && |next| == NBUF + 1 && |prev| == NBUF + 1
    && ring != [] && ring[0] == HEAD && (forall i :: 0 <= i < |ring| ==> ring[i] <= HEAD)
    && (forall i, j :: 0 <= i < j < |ring| ==> ring[i] != ring[j])
    && (forall i :: 0 <= i < |ring| ==> LinkAt(ring, i, next, prev))
  }

  function Without(s: seq<nat>, k: nat): (r: seq<nat>)
    requires k < |s|
  {
    s[..k] + s[k + 1..]
  }

  function Pushed(ring: seq<nat>, b: nat): (r: seq<nat>)
    requires ring != []
  {
    [ring[0], b] + ring[1..]
  }

  lemma LinkHere(ring: seq<nat>, i: nat, next: seq<nat>, prev: seq<nat>)
    requires Ring(ring, next, prev) && i < |ring|
    ensures next[ring[i]] == ring[Next(|ring|, i)] && prev[ring[Next(|ring|, i)]] == ring[i]
  {
    assert LinkAt(ring, i, next, prev);
  }

  /** Unlinking an entry leaves the ring of the others. */
  lemma UnlinkRing(ring: seq<nat>, k: nat, next: seq<nat>, prev: seq<nat>)
    requires Ring(ring, next, prev) && 0 < k < |ring|
    ensures var p, q := ring[k - 1], ring[Next(|ring|, k)];
      Ring(Without(ring, k), next[p := q], prev[q := p])
  {
    var p, q, r := ring[k - 1], ring[Next(|ring|, k)], Without(ring, k);
    var n, v := next[p := q], prev[q := p];
    forall i | 0 <= i < |r| ensures LinkAt(r, i, n, v) {
      var j := if i < k then i else i + 1;
      assert LinkAt(ring, j, next, prev);
      assert r[i] == ring[j];
      assert i != k - 1 ==> r[Next(|r|, i)] == ring[Next(|ring|, j)];
    }
  }

  /** Linking `b` in after the sentinel puts it first. */
  lemma PushRing(ring: seq<nat>, b: nat, next: seq<nat>, prev: seq<nat>)
    requires Ring(ring, next, prev) && b < HEAD && b !in ring
    ensures next[HEAD] <= HEAD
    ensures Ring(Pushed(ring, b), next[b := next[HEAD]][HEAD := b], prev[b := HEAD][next[HEAD] := b])
  {
    LinkHere(ring, 0, next, prev);
    var r := Pushed(ring, b);
    var n, v := next[b := next[HEAD]][HEAD := b], prev[b := HEAD][next[HEAD] := b];
    forall i | 0 <= i < |r| ensures LinkAt(r, i, n, v) {
      if i >= 2 {
        assert LinkAt(ring, i - 1, next, prev);
        assert r[i] == ring[i - 1] && r[Next(|r|, i)] == ring[Next(|ring|, i - 1)];
      }
    }
  }

  // What the buffers say about the disk

  /** Only a buffer whose lock is held may be ahead of the disk without being marked dirty. */
  ghost predicate BufOk(b: Buf, disk: seq<Block>) {
    && (b.valid ==> b.dev == 1 && b.blockno < |disk|)
    && (b.valid && !b.dirty && !b.locked ==> b.data == disk[b.blockno])
    && (b.dirty ==> b.valid)
    && (b.locked ==> b.refcnt > 0)
  }

  /** At most one buffer holds a given block of a device other than 0. */
  ghost predicate Unique(bufs: seq<Buf>) {
    forall a, b ::
      0 <= a < |bufs| && 0 <= b < |bufs| && bufs[a].dev == bufs[b].dev != 0 && bufs[a].blockno == bufs[b].blockno
      ==> a == b
  }

  ghost predicate Coherent(bufs: seq<Buf>, disk: seq<Block>) {
    && |bufs| == NBUF && Unique(bufs)
    && (forall b :: 0 <= b < |bufs| ==> BufOk(bufs[b], disk))
  }

  predicate Has(b: Buf, k: nat) {
    b.valid && b.dev == 1 && b.blockno == k
  }

  /** What block `k` holds for its readers: the cached copy if there is one, else the disk's. */
  ghost function Content(bufs: seq<Buf>, disk: seq<Block>, k: nat): (c: Block)
    requires k < |disk|
  {
    if exists b :: 0 <= b < |bufs| && Has(bufs[b], k) then
      var b :| 0 <= b < |bufs| && Has(bufs[b], k); bufs[b].data
    else disk[k]
  }

  lemma ContentOf(bufs: seq<Buf>, disk: seq<Block>, b: nat)
    requires |bufs| == NBUF && Unique(bufs) && b < NBUF && bufs[b].valid && bufs[b].dev == 1
    requires bufs[b].blockno < |disk|
    ensures Content(bufs, disk, bufs[b].blockno) == bufs[b].data
  {
    assert Has(bufs[b], bufs[b].blockno);
  }

  /** A block that no buffer holds reads from the disk. */
  lemma ContentUncached(bufs: seq<Buf>, disk: seq<Block>, k: nat)
    requires k < |disk| && forall b :: 0 <= b < |bufs| ==> !Has(bufs[b], k)
    ensures Content(bufs, disk, k) == disk[k]
  {
  }

  /** Changing one buffer, and at most its own block on the disk, changes what readers see of no other block. */
  lemma ContentElsewhere(bufs: seq<Buf>, disk: seq<Block>, b: nat, x: Buf, d: seq<Block>, k: nat)
    requires |bufs| == NBUF && Unique(bufs) && b < NBUF && Unique(bufs[b := x]) && k < |disk| == |d| && disk[k] == d[k]
    requires !Has(bufs[b], k) && !Has(x, k)
    ensures Content(bufs[b := x], d, k) == Content(bufs, disk, k)
  {
    var r := bufs[b := x];
    if c :| 0 <= c < |bufs| && Has(bufs[c], k) {
      assert Has(r[c], k);
      ContentOf(bufs, disk, c);
      ContentOf(r, d, c);
    } else {
      assert forall c :: 0 <= c < |r| && c != b ==> r[c] == bufs[c];
      ContentUncached(bufs, disk, k);
      ContentUncached(r, d, k);
    }
  }

  /** Recycling a free buffer for a block no buffer holds changes what readers see nowhere. */
  lemma RecycleUnseen(bufs: seq<Buf>, disk: seq<Block>, b: nat, dev: nat, blockno: nat)
    requires Coherent(bufs, disk) && b < NBUF && Free(bufs[b]) && !Cached(bufs, dev, blockno)
    ensures var r := bufs[b := bufs[b].(dev := dev, blockno := blockno, valid := false, dirty := false, refcnt := 1)];
      Coherent(r, disk) && forall k :: 0 <= k < |disk| ==> Content(r, disk, k) == Content(bufs, disk, k)
  {
    var x := bufs[b].(dev := dev, blockno := blockno, valid := false, dirty := false, refcnt := 1);
    var r := bufs[b := x];
    assert forall c :: 0 <= c < |bufs| ==> !Holds(bufs[c], dev, blockno);
    assert Unique(r);
    forall k | 0 <= k < |disk| ensures Content(r, disk, k) == Content(bufs, disk, k) {
      if Has(bufs[b], k) {
        ContentOf(bufs, disk, b);
        forall c | 0 <= c < |r| ensures !Has(r[c], k) { assert c != b ==> r[c] == bufs[c]; }
        ContentUncached(r, disk, k);
      } else {
        ContentElsewhere(bufs, disk, b, x, disk, k);
      }
    }
  }

  /** A change that keeps a valid buffer's block and data changes what readers see nowhere. */
  lemma SameDataUnseen(bufs: seq<Buf>, disk: seq<Block>, b: nat, x: Buf)
    requires Coherent(bufs, disk) && b < NBUF
    requires Holds(x, bufs[b].dev, bufs[b].blockno) && x.data == bufs[b].data && x.valid == bufs[b].valid
    ensures Coherent(bufs[b := x], disk) <==> BufOk(x, disk)
    ensures forall k :: 0 <= k < |disk| ==> Content(bufs[b := x], disk, k) == Content(bufs, disk, k)
  {
    var r := bufs[b := x];
    assert r[b] == x;
    assert Unique(r);
    forall k | 0 <= k < |disk| ensures Content(r, disk, k) == Content(bufs, disk, k) {
      if Has(x, k) {
        ContentOf(bufs, disk, b);
        ContentOf(r, disk, b);
      } else {
        ContentElsewhere(bufs, disk, b, x, disk, k);
      }
    }
  }

  /** Filling, changing or writing out a buffer shows its data for its own block and changes no other. */
  lemma UpdateSeen(bufs: seq<Buf>, disk: seq<Block>, b: nat, x: Buf, d: seq<Block>)
    requires Coherent(bufs, disk) && b < NBUF && x.valid && Holds(x, bufs[b].dev, bufs[b].blockno) && |d| == |disk|
    requires x.dev == 1 && x.blockno < |disk| && BufOk(x, d)
    requires forall k :: 0 <= k < |disk| && k != x.blockno ==> d[k] == disk[k]
    ensures Coherent(bufs[b := x], d) && Content(bufs[b := x], d, x.blockno) == x.data
    ensures forall k :: 0 <= k < |disk| && k != x.blockno ==> Content(bufs[b := x], d, k) == Content(bufs, disk, k)
  {
    var r := bufs[b := x];
    forall c | 0 <= c < |r| ensures BufOk(r[c], d) {
      if c != b && bufs[c].valid { assert bufs[c].blockno != x.blockno; }
    }
    ContentOf(r, d, b);
    forall k | 0 <= k < |disk| && k != x.blockno ensures Content(r, d, k) == Content(bufs, disk, k) {
      ContentElsewhere(bufs, disk, b, x, d, k);
    }
  }

  /** A buffer just taken over for its block holds nothing, so the block still reads from the disk. */
  lemma UnfilledReadsDisk(bufs: seq<Buf>, disk: seq<Block>, b: nat)
    requires Coherent(bufs, disk) && b < NBUF && !bufs[b].valid && bufs[b].dev == 1 && bufs[b].blockno < |disk|
    ensures Content(bufs, disk, bufs[b].blockno) == disk[bufs[b].blockno]
  {
    ContentUncached(bufs, disk, bufs[b].blockno);
  }

  // The order of the list

  /** The buffers are listed latest release first. */
  ghost predicate ByRelease(order: seq<nat>, released: seq<nat>) {
    && (forall i :: 0 <= i < |order| ==> order[i] < |released|)
    && (forall i, j :: 0 <= i < j < |order| ==> released[order[i]] > released[order[j]])
  }

  ghost predicate Everything(order: seq<nat>) {
    |order| == NBUF && forall b :: 0 <= b < NBUF ==> b in order
  }

  function MoveToFront(order: seq<nat>, k: nat): (r: seq<nat>)
    requires k < |order|
  {
    [order[k]] + Without(order, k)
  }

  lemma MoveByRelease(order: seq<nat>, released: seq<nat>, k: nat, now: nat)
    requires ByRelease(order, released) && k < |order| && forall b :: 0 <= b < |released| ==> released[b] < now
    requires forall i, j :: 0 <= i < j < |order| ==> order[i] != order[j]
    ensures ByRelease(MoveToFront(order, k), released[order[k] := now])
  {
    var r := MoveToFront(order, k);
    forall i | 0 < i < |r| ensures r[i] == order[if i <= k then i - 1 else i] {
    }
  }

  lemma MoveEverything(order: seq<nat>, k: nat)
    requires Everything(order) && k < |order|
    ensures Everything(MoveToFront(order, k))
  {
    var r := MoveToFront(order, k);
    forall b | 0 <= b < NBUF ensures b in r {
      assert b in order;
      var i :| 0 <= i < |order| && order[i] == b;
      assert r[if i == k then 0 else if i < k then i + 1 else i] == b;
    }
  }

  lemma PlaceOf(order: seq<nat>, b: nat) returns (i: nat)
    requires Everything(order) && b < NBUF
    ensures i < |order| && order[i] == b
  {
    assert b in order;
    i :| 0 <= i < |order| && order[i] == b;
  }

  lemma Unlinking(order: seq<nat>, i: nat, next: seq<nat>, prev: seq<nat>)
    requires Ring([HEAD] + order, next, prev) && i < |order|
    ensures |next| == |prev| == NBUF + 1 && order[i] <= HEAD && next[order[i]] <= HEAD && prev[order[i]] <= HEAD
    ensures order[i] !in Without(order, i)
    ensures var b := order[i];
      Ring([HEAD] + Without(order, i), next[prev[b] := next[b]], prev[next[b] := prev[b]])
  {
    hide Ring;
    OrderDistinct(order, next, prev);
    TakenOut(order, i);
    var ring := [HEAD] + order;
    LinkHere(ring, i, next, prev);
    LinkHere(ring, i + 1, next, prev);
    UnlinkRing(ring, i + 1, next, prev);
    hide Without;
    assert Next(|ring|, i) == i + 1;
  }

  lemma TakenOut(order: seq<nat>, i: nat)
    requires i < |order| && forall j, k :: 0 <= j < k < |order| ==> order[j] != order[k]
    ensures order[i] !in Without(order, i) && Without([HEAD] + order, i + 1) == [HEAD] + Without(order, i)
  {
  }

  lemma OrderDistinct(order: seq<nat>, next: seq<nat>, prev: seq<nat>)
    requires Ring([HEAD] + order, next, prev)
    ensures |next| == |prev| == NBUF + 1 && forall i :: 0 <= i < |order| ==> order[i] <= HEAD
    ensures forall i, j :: 0 <= i < j < |order| ==> order[i] != order[j]
  {
    var ring := [HEAD] + order;
    assert forall i :: 0 <= i < |order| ==> ring[i + 1] == order[i];
  }

  class Cache {
    const bufs: array<Buf>
    const next: array<nat>
    const prev: array<nat>
    var disk: seq<Block>
    ghost var order: seq<nat>
    ghost var released: seq<nat>
    ghost var now: nat

    ghost predicate Valid()
      reads this, bufs, next, prev
    {
      Listed() && Coherent(bufs[..], disk)
    }

    /** The list is in order, whatever the buffers hold. */
    ghost predicate Listed()
      reads this, next, prev
    {
      && bufs.Length == NBUF && next.Length == prev.Length == NBUF + 1 && next != prev
      && Ring([HEAD] + order, next[..], prev[..]) && Everything(order) && Ordered()
    }

    ghost predicate Ordered()
      reads this
    {
      |released| == NBUF && ByRelease(order, released) && forall b :: 0 <= b < NBUF ==> released[b] < now
    }

    /** The list as built at boot, every buffer zeroed. */
    constructor (disk: seq<Block>)
      ensures Valid() && this.disk == disk && fresh(bufs) && fresh(next) && fresh(prev)
      ensures forall b :: 0 <= b < NBUF ==> bufs[b] == Buf(0, 0, false, false, 0, false, Zero())
      ensures order == seq(NBUF, i => NBUF - 1 - i)
    {
      bufs := new Buf[NBUF](_ => Buf(0, 0, false, false, 0, false, Zero()));
      next := new nat[NBUF + 1](_ => HEAD);
      prev := new nat[NBUF + 1](_ => HEAD);
      this.disk := disk;
      order := [];
      released := seq(NBUF, b requires 0 <= b < NBUF => b);
      now := NBUF;
      new;
      assert LinkAt([HEAD], 0, next[..], prev[..]);
      var b := 0;
      while b < NBUF
        invariant 0 <= b <= NBUF && Ring([HEAD] + order, next[..], prev[..])
        invariant order == seq(b, i requires 0 <= i < b => b - 1 - i)
        invariant this.disk == disk && now == NBUF && released == seq(NBUF, b requires 0 <= b < NBUF => b)
        invariant forall c :: 0 <= c < NBUF ==> bufs[c] == Buf(0, 0, false, false, 0, false, Zero())
      {
        PushFront(b);
        assert order == seq(b + 1, i requires 0 <= i < b + 1 => b - i);
        b := b + 1;
      }
      forall b | 0 <= b < NBUF ensures b in order { assert order[NBUF - 1 - b] == b; }
    }

    method PushFront(b: nat)
      requires next.Length == prev.Length == NBUF + 1 && next != prev
      requires Ring([HEAD] + order, next[..], prev[..]) && b < HEAD && b !in order
      modifies next, prev, `order
      ensures order == [b] + old(order) && Ring([HEAD] + order, next[..], prev[..])
    {
      PushRing([HEAD] + order, b, next[..], prev[..]);
      next[b] := next[HEAD];
      prev[b] := HEAD;
      prev[next[HEAD]] := b;
      next[HEAD] := b;
      assert Pushed([HEAD] + order, b) == [HEAD] + ([b] + order);
      order := [b] + order;
    }

    /** First part of bget: the search for the block, from the most recently released buffer on. */
    method Find(dev: nat, blockno: nat) returns (b: nat)
      requires Valid()
      ensures b <= HEAD && (b < HEAD ==> Holds(bufs[b], dev, blockno))
      ensures b == HEAD <==> !Cached(bufs[..], dev, blockno)
    {
      ghost var i := 0;
      LinkHere([HEAD] + order, 0, next[..], prev[..]);
      b := next[HEAD];
      while b != HEAD
        invariant 0 <= i <= NBUF && b == ([HEAD] + order + [HEAD])[i + 1]
        invariant forall j :: 0 <= j < i ==> !Holds(bufs[order[j]], dev, blockno)
        decreases NBUF - i
      {
        if Holds(bufs[b], dev, blockno) {
          return;
        }
        LinkHere([HEAD] + order, i + 1, next[..], prev[..]);
        i := i + 1;
        b := next[b];
      }
      forall c | 0 <= c < NBUF ensures !Holds(bufs[c], dev, blockno) { var j := PlaceOf(order, c); }
    }

    /** Second part of bget: the free buffer that was released longest ago. */
    method FindFree() returns (b: nat)
      requires Valid()
      ensures b <= HEAD && (b < HEAD ==> Free(bufs[b]))
      ensures b < HEAD ==> forall c :: 0 <= c < NBUF && c != b && Free(bufs[c]) ==> released[b] < released[c]
      ensures b == HEAD <==> !SomeFree(bufs[..])
    {
      ghost var i := NBUF;
      LinkHere([HEAD] + order, NBUF, next[..], prev[..]);
      b := prev[HEAD];
      while b != HEAD
        invariant 0 <= i <= NBUF && b == ([HEAD] + order)[i]
        invariant forall j :: i <= j < NBUF ==> !Free(bufs[order[j]])
        decreases i
      {
        if Free(bufs[b]) {
          forall c | 0 <= c < NBUF && c != b && Free(bufs[c])
            ensures released[b] < released[c]
          {
            var j := PlaceOf(order, c);
          }
          return;
        }
        LinkHere([HEAD] + order, i - 1, next[..], prev[..]);
        i := i - 1;
        b := prev[b];
      }
      forall c | 0 <= c < NBUF ensures !Free(bufs[c]) { var j := PlaceOf(order, c); }
    }

    /** What the change of one buffer leaves alone. */
    twostate predicate OnlyBuf(b: nat)
      requires bufs.Length == NBUF && b < NBUF
      reads this, bufs, next, prev
    {
      && unchanged(next) && unchanged(prev) && order == old(order) && released == old(released) && now == old(now)
      && bufs[..] == old(bufs[..])[b := bufs[b]]
    }

    /** bget under the cache lock. `ok` is false where the source panics. */
    method Bget(dev: nat, blockno: nat) returns (b: nat, ok: bool)
      requires Valid()
      modifies bufs
      ensures Valid() && b <= HEAD
      ensures ok <==> Cached(old(bufs[..]), dev, blockno) || SomeFree(old(bufs[..]))
      ensures ok ==> b < HEAD && OnlyBuf(b) && Holds(bufs[b], dev, blockno)
      ensures ok && Cached(old(bufs[..]), dev, blockno) ==>
        Holds(old(bufs[..])[b], dev, blockno) && bufs[b] == old(bufs[..])[b].(refcnt := old(bufs[..])[b].refcnt + 1)
      ensures ok && !Cached(old(bufs[..]), dev, blockno) ==>
        && Free(old(bufs[..])[b]) && !bufs[b].valid && !bufs[b].locked && bufs[b].refcnt == 1
        && forall c :: 0 <= c < NBUF && c != b && Free(old(bufs[..])[c]) ==> released[b] < released[c]
      ensures forall k :: 0 <= k < |disk| ==> Content(bufs[..], disk, k) == Content(old(bufs[..]), disk, k)
    {
      ghost var was := bufs[..];
      b := Find(dev, blockno);
      ok := true;
      if b != HEAD {
        SameDataUnseen(was, disk, b, was[b].(refcnt := was[b].refcnt + 1));
        bufs[b] := bufs[b].(refcnt := bufs[b].refcnt + 1);
        assert bufs[..] == was[b := bufs[b]];
        return;
      }
      b := FindFree();
      if b != HEAD {
        RecycleUnseen(was, disk, b, dev, blockno);
        bufs[b] := bufs[b].(dev := dev, blockno := blockno, valid := false, dirty := false, refcnt := 1);
        assert bufs[..] == was[b := bufs[b]];
        return;
      }
      ok := false;
    }

    /** acquiresleep, once the lock is free. */
    method Acquire(b: nat)
      requires Valid() && b < NBUF && bufs[b].refcnt > 0 && !bufs[b].locked
      modifies bufs
      ensures Valid() && OnlyBuf(b) && bufs[b] == old(bufs[b]).(locked := true)
      ensures forall k :: 0 <= k < |disk| ==> Content(bufs[..], disk, k) == Content(old(bufs[..]), disk, k)
    {
      SameDataUnseen(bufs[..], disk, b, bufs[b].(locked := true));
      ghost var was := bufs[..];
      bufs[b] := bufs[b].(locked := true);
      assert bufs[..] == was[b := bufs[b]];
    }

    /** The disk driver. `ok` is false where it panics. */
    method Iderw(b: nat) returns (ok: bool)
      requires b < bufs.Length
      modifies bufs, `disk
      ensures ok <==> var x := old(bufs[b]); x.locked && !(x.valid && !x.dirty) && x.dev == 1 && x.blockno < old(|disk|)
      ensures bufs[..] == old(bufs[..])[b := bufs[b]]
      ensures !ok ==> disk == old(disk) && bufs[b] == old(bufs[b])
      ensures ok ==> var x := old(bufs[b]);
        if x.dirty then bufs[b] == x.(dirty := false, valid := true) && disk == old(disk)[x.blockno := x.data]
        else bufs[b] == x.(data := old(disk)[x.blockno], valid := true) && disk == old(disk)
    {
      var x := bufs[b];
      if !x.locked || (x.valid && !x.dirty) || x.dev != 1 || x.blockno >= |disk| {
        return false;
      }
      if x.dirty {
        bufs[b] := x.(dirty := false, valid := true);
        disk := disk[x.blockno := x.data];
      } else {
        bufs[b] := x.(data := disk[x.blockno], valid := true);
      }
      ok := true;
    }

    /** Last part of bread: a buffer that is not valid is read from the disk. */
    method Fill(b: nat) returns (ok: bool)
      requires Valid() && b < NBUF && bufs[b].locked
      modifies bufs, `disk
      ensures Valid() && OnlyBuf(b) && disk == old(disk)
      ensures ok <==> bufs[b].dev == 1 && bufs[b].blockno < |disk|
      ensures !ok ==> bufs[b] == old(bufs[b])
      ensures ok ==> bufs[b] == old(bufs[b]).(valid := true, data := Content(old(bufs[..]), disk, bufs[b].blockno))
      ensures forall k :: 0 <= k < |disk| ==> Content(bufs[..], disk, k) == Content(old(bufs[..]), disk, k)
    {
      hide Unique, Content, Ring, Everything;
      ghost var was := bufs[..];
      ok := true;
      if bufs[b].valid {
        ContentOf(was, disk, b);
      } else {
        ok := Iderw(b);
        assert bufs[..] == was[b := bufs[b]];
        if ok {
          UnfilledReadsDisk(was, disk, b);
          UpdateSeen(was, disk, b, bufs[b], disk);
        } else {
          assert bufs[..] == was;
        }
      }
    }

    /** bread, when no one else holds the block's buffer: the caller sees the block's content. */
    method Bread(dev: nat, blockno: nat) returns (b: nat, ok: bool)
      requires Valid() && forall c :: 0 <= c < NBUF && Holds(bufs[c], dev, blockno) ==> !bufs[c].locked
      modifies bufs, `disk
      ensures Valid() && b <= HEAD && disk == old(disk)
      ensures ok <==> (Cached(old(bufs[..]), dev, blockno) || SomeFree(old(bufs[..]))) && dev == 1 && blockno < |disk|
      ensures ok ==> b < HEAD && OnlyBuf(b) && bufs[b].locked && bufs[b].valid && Holds(bufs[b], dev, blockno)
      ensures ok ==> bufs[b].data == Content(old(bufs[..]), disk, blockno)
      ensures forall k :: 0 <= k < |disk| ==> Content(bufs[..], disk, k) == Content(old(bufs[..]), disk, k)
    {
      hide Unique, Content, Ring, Everything, Ordered, BufOk;
      b, ok := Bget(dev, blockno);
      if ok {
        Acquire(b);
        ok := Fill(b);
      }
    }

    /** The holder of a buffer changes its data, which the disk does not have yet. */
    method Modify(b: nat, data: Block)
      requires Valid() && b < NBUF && bufs[b].locked && bufs[b].valid
      modifies bufs
      ensures Valid() && OnlyBuf(b) && bufs[b] == old(bufs[b]).(data := data)
      ensures forall k :: 0 <= k < |disk| ==>
        Content(bufs[..], disk, k) == if k == bufs[b].blockno then data else Content(old(bufs[..]), disk, k)
    {
      ghost var was := bufs[..];
      UpdateSeen(was, disk, b, was[b].(data := data), disk);
      bufs[b] := bufs[b].(data := data);
      assert bufs[..] == was[b := bufs[b]];
    }

    /** log_write's mark: the buffer stays in memory until the log has written it. */
    method Pin(b: nat)
      requires Valid() && b < NBUF && bufs[b].locked && bufs[b].valid
      modifies bufs
      ensures Valid() && OnlyBuf(b) && bufs[b] == old(bufs[b]).(dirty := true)
      ensures forall k :: 0 <= k < |disk| ==> Content(bufs[..], disk, k) == Content(old(bufs[..]), disk, k)
    {
      ghost var was := bufs[..];
      SameDataUnseen(was, disk, b, was[b].(dirty := true));
      bufs[b] := bufs[b].(dirty := true);
      assert bufs[..] == was[b := bufs[b]];
    }

    /** `ok` is false where the source panics. Readers see no change: they saw the buffer already. */
    method Bwrite(b: nat) returns (ok: bool)
      requires Valid() && b < NBUF && bufs[b].valid
      modifies bufs, `disk
      ensures ok <==> old(bufs[b]).locked
      ensures Valid() && OnlyBuf(b)
      ensures |disk| == |old(disk)| && bufs[b].blockno < |disk|
      ensures ok ==> disk == old(disk)[bufs[b].blockno := bufs[b].data] && bufs[b] == old(bufs[b]).(dirty := false)
      ensures !ok ==> disk == old(disk) && bufs[b] == old(bufs[b])
      ensures forall k :: 0 <= k < |disk| ==> Content(bufs[..], disk, k) == Content(old(bufs[..]), old(disk), k)
    {
      if !bufs[b].locked {
        return false;
      }
      ghost var was, d := bufs[..], disk;
      bufs[b] := bufs[b].(dirty := true);
      ok := Iderw(b);
      ContentOf(was, d, b);
      assert bufs[..] == was[b := bufs[b]];
      UpdateSeen(was, d, b, bufs[b], disk);
    }

    /** `ok` is false where the source panics. The last holder's release makes the buffer the most recent. */
    method Brelse(b: nat) returns (ok: bool)
      requires Valid() && b < NBUF
      modifies this, bufs, next, prev
      ensures Listed() && disk == old(disk) && (ok <==> old(bufs[b]).locked)
      ensures ok && bufs[b].valid ==> bufs[b].blockno < |disk|
      ensures ok ==> (Valid() <==> (bufs[b].valid && !bufs[b].dirty ==> bufs[b].data == disk[bufs[b].blockno]))
      ensures !ok ==> Valid() && OnlyBuf(b) && bufs[b] == old(bufs[b])
      ensures ok ==> bufs[..] == old(bufs[..])[b := old(bufs[b]).(locked := false, refcnt := old(bufs[b]).refcnt - 1)]
      ensures ok && bufs[b].refcnt > 0 ==> order == old(order) && released == old(released)
      ensures ok && bufs[b].refcnt == 0 ==>
        && released == old(released)[b := old(now)]
        && exists i :: 0 <= i < NBUF && old(order)[i] == b && order == MoveToFront(old(order), i)
      ensures forall k :: 0 <= k < |disk| ==> Content(bufs[..], disk, k) == Content(old(bufs[..]), disk, k)
    {
      if !bufs[b].locked {
        return false;
      }
      ok := true;
      ghost var was := bufs[..];
      SameDataUnseen(was, disk, b, was[b].(locked := false, refcnt := was[b].refcnt - 1));
      bufs[b] := bufs[b].(locked := false, refcnt := bufs[b].refcnt - 1);
      assert bufs[..] == was[b := bufs[b]];
      if bufs[b].refcnt == 0 {
        ToFront(b);
      }
    }

    /** `b->next->prev = b->prev; b->prev->next = b->next`. */
    method Unlink(b: nat, ghost i: nat)
      requires next.Length == prev.Length == NBUF + 1 && next != prev
      requires Ring([HEAD] + order, next[..], prev[..]) && i < |order| && order[i] == b
      modifies next, prev, `order
      ensures order == Without(old(order), i) && b !in order && Ring([HEAD] + order, next[..], prev[..])
    {
      hide Ring;
      Unlinking(order, i, next[..], prev[..]);
      prev[next[b]] := prev[b];
      next[prev[b]] := next[b];
      order := Without(order, i);
    }

    /** Unlinks `b` and links it in again after the sentinel. */
    method ToFront(b: nat)
      requires next.Length == prev.Length == NBUF + 1 && next != prev && b < NBUF
      requires Ring([HEAD] + order, next[..], prev[..]) && Everything(order) && Ordered()
      modifies this, next, prev
      ensures Ring([HEAD] + order, next[..], prev[..]) && Everything(order) && Ordered() && disk == old(disk)
      ensures released == old(released)[b := old(now)]
      ensures exists i :: 0 <= i < NBUF && old(order)[i] == b && order == MoveToFront(old(order), i)
    {
      hide Everything, Ring, ByRelease;
      ghost var was := order;
      ghost var i := PlaceOf(order, b);
      OrderDistinct(order, next[..], prev[..]);
      Unlink(b, i);
      PushFront(b);
      MoveEverything(was, i);
      MoveByRelease(was, released, i, now);
      released := released[b := now];
      now := now + 1;
    }
  }
}
