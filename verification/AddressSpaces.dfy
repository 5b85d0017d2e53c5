/** vm.c and kalloc.c: the page allocator, and building, growing, copying and tearing down address spaces. */
module AddressSpaces {
  import opened Indexing
  import opened PageTables
  import opened Translation

  const KERNBASE := 0x8000_0000
  const JUNK := 0x0101_0101

  function Set(s: seq<nat>): (r: set<nat>)
    ensures forall x :: x in r <==> x in s
  {
    set x | x in s
  }

  /** A free page holds the next one's frame in its first word. */
  ghost predicate FreeList(mem: seq<Page>, head: nat, free: seq<nat>) {
    && |mem| == NFRAMES
    && head == (if free == [] then 0 else free[0])
    && (forall i :: 0 <= i < |free| ==> 0 < free[i] < NFRAMES)
    && (forall i, j :: 0 <= i < j < |free| ==> free[i] != free[j])
    && (forall i :: 0 <= i < |free| ==> NextFree(mem, free, i))
  }

  ghost predicate NextFree(mem: seq<Page>, free: seq<nat>, i: nat)
    requires i < |free|
  {
    free[i] < |mem| && mem[free[i]][0] == if i + 1 < |free| then free[i + 1] else 0
  }

  ghost predicate Apart(owner: map<nat, Role>, free: seq<nat>) {
    forall f :: f in owner ==> f !in free
  }

  /** Frames that are not free and are not tables of the address space keep their bytes. */
  ghost predicate Kept(mem: seq<Page>, mem2: seq<Page>, free: seq<nat>, owner: map<nat, Role>) {
    |mem2| == |mem| && forall f :: 0 <= f < |mem| && f !in free && (f in owner ==> owner[f].User?) ==> mem2[f] == mem[f]
  }

  /** Frames that are neither free nor the address space's keep their bytes. */
  ghost predicate OthersKept(mem: seq<Page>, mem2: seq<Page>, free: seq<nat>, owner: map<nat, Role>) {
    |mem2| == |mem| && forall f :: 0 <= f < |mem| && f !in free && f !in owner ==> mem2[f] == mem[f]
  }

  /** From `(owner, free)` to `(owner2, free2)` tables were allocated and the frames `gained` joined as user pages. */
  ghost predicate Grown(owner: map<nat, Role>, free: seq<nat>, owner2: map<nat, Role>, free2: seq<nat>,
                        gained: set<nat>) {
    && (forall f :: f in owner ==> f in owner2 && owner2[f] == owner[f])
    && (forall f :: f in owner2 && f !in owner ==> if owner2[f].User? then f in gained else f in free)
    && owner2.Keys + Set(free2) == owner.Keys + Set(free) + gained
    && (forall f :: f in free2 ==> f in free)
  }

  lemma GrownTrans(o0: map<nat, Role>, s0: seq<nat>, o1: map<nat, Role>, s1: seq<nat>, o2: map<nat, Role>,
                   s2: seq<nat>, g1: set<nat>, g2: set<nat>)
    requires Grown(o0, s0, o1, s1, g1) && Grown(o1, s1, o2, s2, g2)
    ensures Grown(o0, s0, o2, s2, g1 + g2)
  {
  }

  lemma KeptTrans(m0: seq<Page>, m1: seq<Page>, m2: seq<Page>, o0: map<nat, Role>, s0: seq<nat>, o1: map<nat, Role>,
                  s1: seq<nat>, g: set<nat>)
    requires Kept(m0, m1, s0, o0) && Kept(m1, m2, s1, o1) && Grown(o0, s0, o1, s1, g)
    ensures Kept(m0, m2, s0, o0)
  {
  }

  /** `n` pages from `v` on map the frames from `f` on, every other page what it mapped before. */
  ghost predicate Mapped(mem: seq<Page>, mem2: seq<Page>, dir: nat, v: nat, f: nat, n: nat, perm: nat)
    requires dir < |mem| && dir < |mem2| && perm < PGSIZE
  {
    forall u :: 0 <= u < NVPN ==>
      Pte(mem2, dir, u) == if v <= u < v + n then Entry(f + u - v, perm) else Pte(mem, dir, u)
  }

  function Gained(v: nat, f: nat, n: nat): (r: set<nat>) {
    if v < KERNVPN then Range(f, n) else {}
  }

  lemma Freed(mem: seq<Page>, head: nat, free: seq<nat>, f: nat, p: Page)
    requires FreeList(mem, head, free) && f !in free && 0 < f < NFRAMES && p[0] == head
    ensures FreeList(mem[f := p], f, [f] + free)
  {
    var s, m := [f] + free, mem[f := p];
    forall i | 0 <= i < |s| ensures NextFree(m, s, i) {
      if i > 0 { assert NextFree(mem, free, i - 1); }
    }
  }

  lemma Allocated(mem: seq<Page>, head: nat, free: seq<nat>)
    requires FreeList(mem, head, free) && free != []
    ensures FreeList(mem, mem[head][0], free[1..]) && head !in free[1..] && Set(free) == Set(free[1..]) + {head}
  {
    assert NextFree(mem, free, 0);
    var s := free[1..];
    forall i | 0 <= i < |s| ensures NextFree(mem, s, i) { assert NextFree(mem, free, i + 1); }
  }

  lemma FreeListFrame(mem: seq<Page>, mem2: seq<Page>, head: nat, free: seq<nat>)
    requires FreeList(mem, head, free) && |mem2| == |mem| && forall f :: f in free && f < |mem| ==> mem2[f] == mem[f]
    ensures FreeList(mem2, head, free)
  {
    forall i | 0 <= i < |free| ensures NextFree(mem2, free, i) { assert NextFree(mem, free, i); }
  }

  /** Where `walkpgdir` leads: the table of page `v`. */
  lemma TableOf(mem: seq<Page>, dir: nat, owner: map<nat, Role>, v: nat)
    requires Space(mem, dir, owner) && v < NVPN && Present(mem[dir][v / ENTRIES])
    ensures var t := Frame(mem[dir][v / ENTRIES]);
      t in owner && owner[t].Table? && 0 < t < |mem| && Pte(mem, dir, v) == mem[t][v % ENTRIES]
  {
    assert PdeOk(mem, dir, owner, v / ENTRIES);
  }

  lemma AbsentIsZero(mem: seq<Page>, dir: nat, owner: map<nat, Role>, v: nat)
    requires Space(mem, dir, owner) && v < NVPN && !Present(Pte(mem, dir, v))
    ensures Pte(mem, dir, v) == 0
  {
    assert PteOk(mem, dir, owner, v);
  }

  lemma MappedSame(m0: seq<Page>, m1: seq<Page>, dir: nat, v: nat, f: nat, perm: nat)
    requires dir < |m0| && dir < |m1| && perm < PGSIZE
    requires forall u :: 0 <= u < NVPN ==> Pte(m1, dir, u) == Pte(m0, dir, u)
    ensures Mapped(m0, m1, dir, v, f, 0, perm)
  {
    hide Pte;
  }

  lemma MappedNone(mem: seq<Page>, dir: nat, v: nat, f: nat, perm: nat)
    requires dir < |mem| && perm < PGSIZE
    ensures Mapped(mem, mem, dir, v, f, 0, perm)
  {
  }

  lemma MappedAfter(mem: seq<Page>, m1: seq<Page>, m2: seq<Page>, dir: nat, v: nat, f: nat, n: nat, perm: nat)
    requires dir < |mem| && dir < |m1| && dir < |m2| && perm < PGSIZE && Mapped(m1, m2, dir, v, f, n, perm)
    requires forall u :: 0 <= u < NVPN ==> Pte(m1, dir, u) == Pte(mem, dir, u)
    ensures Mapped(mem, m2, dir, v, f, n, perm)
  {
  }

  /** What storing the entry for page `v` does. */
  lemma SetEntry(mem: seq<Page>, dir: nat, owner: map<nat, Role>, v: nat, f: nat, perm: nat, head: nat, free: seq<nat>)
    requires Space(mem, dir, owner) && v < NVPN && perm < PGSIZE && Pte(mem, dir, v) == 0
    requires Present(mem[dir][v / ENTRIES])
    requires FreeList(mem, head, free) && Apart(owner, free)
    requires v < KERNVPN ==> 0 < f < NFRAMES && f !in owner && f !in free
    ensures Frame(mem[dir][v / ENTRIES]) < |mem|
    ensures var r, owner2 := WithPte(mem, dir, v, Entry(f, perm)), if v < KERNVPN then owner[f := User(v)] else owner;
      && Space(r, dir, owner2) && FreeList(r, head, free) && Apart(owner2, free) && Kept(mem, r, free, owner)
      && Mapped(mem, r, dir, v, f, 1, perm) && Grown(owner, free, owner2, free, Gained(v, f, 1))
  {
    TableOf(mem, dir, owner, v);
    var r := WithPte(mem, dir, v, Entry(f, perm));
    FreeListFrame(mem, r, head, free);
    forall u | 0 <= u < NVPN ensures Pte(r, dir, u) == if u == v then Entry(f, perm) else Pte(mem, dir, u) {
      PteAfterSet(mem, dir, owner, v, Entry(f, perm), u);
    }
    if v < KERNVPN {
      MapUser(mem, dir, owner, v, f, perm);
    } else {
      MapKernel(mem, dir, owner, v, Entry(f, perm));
    }
  }

  /** None of the `n` pages from `v` on is mapped. */
  ghost predicate Absent(mem: seq<Page>, dir: nat, v: nat, n: nat)
    requires dir < |mem|
  {
    forall u :: v <= u < v + n && u < NVPN ==> !Present(Pte(mem, dir, u))
  }

  lemma AbsentMore(mem: seq<Page>, dir: nat, v: nat, n: nat)
    requires dir < |mem| && Absent(mem, dir, v, n) && v + n < NVPN && !Present(Pte(mem, dir, v + n))
    ensures Absent(mem, dir, v, n + 1)
  {
  }

  lemma StartMapping(mem: seq<Page>, dir: nat, v: nat, f: nat, perm: nat, owner: map<nat, Role>, free: seq<nat>)
    requires dir < |mem| && perm < PGSIZE
    ensures Mapped(mem, mem, dir, v, f, 0, perm) && Kept(mem, mem, free, owner)
    ensures MapsSoFar(mem, mem, dir, v, f, 0, perm, owner, free, owner, free)
  {
    assert Gained(v, f, 0) == {};
  }

  /** mappages has mapped `n` pages from `v` on, none of which was mapped before. */
  ghost predicate MapsSoFar(m0: seq<Page>, m1: seq<Page>, dir: nat, v: nat, f: nat, n: nat, perm: nat,
                            o0: map<nat, Role>, s0: seq<nat>, o1: map<nat, Role>, s1: seq<nat>)
    requires dir < |m0| && dir < |m1| && perm < PGSIZE
  {
    && Mapped(m0, m1, dir, v, f, n, perm) && Absent(m0, dir, v, n)
    && Grown(o0, s0, o1, s1, Gained(v, f, n)) && Kept(m0, m1, s0, o0)
  }

  lemma MapsAll(m0: seq<Page>, m1: seq<Page>, dir: nat, v: nat, f: nat, n: nat, perm: nat,
                o0: map<nat, Role>, s0: seq<nat>, o1: map<nat, Role>, s1: seq<nat>)
    requires dir < |m0| && dir < |m1| && perm < PGSIZE && MapsSoFar(m0, m1, dir, v, f, n, perm, o0, s0, o1, s1)
    ensures Mapped(m0, m1, dir, v, f, n, perm) && Absent(m0, dir, v, n)
    ensures Grown(o0, s0, o1, s1, Gained(v, f, n)) && Kept(m0, m1, s0, o0)
  {
  }

  /** One page more, or none when the attempt failed. */
  lemma MapsMore(m0: seq<Page>, m1: seq<Page>, m2: seq<Page>, dir: nat, v: nat, f: nat, n: nat, perm: nat,
                 o0: map<nat, Role>, s0: seq<nat>, o1: map<nat, Role>, s1: seq<nat>, o2: map<nat, Role>, s2: seq<nat>,
                 ok: bool)
    requires dir < |m0| && dir < |m1| && dir < |m2| && perm < PGSIZE && v + n < NVPN
    requires v < KERNVPN <==> v + n < KERNVPN
    requires MapsSoFar(m0, m1, dir, v, f, n, perm, o0, s0, o1, s1)
    requires Mapped(m1, m2, dir, v + n, f + n, if ok then 1 else 0, perm) && Kept(m1, m2, s1, o1)
    requires Grown(o1, s1, o2, s2, Gained(v + n, f + n, if ok then 1 else 0))
    requires ok ==> !Present(Pte(m0, dir, v + n))
    ensures MapsSoFar(m0, m2, dir, v, f, if ok then n + 1 else n, perm, o0, s0, o2, s2)
  {
    hide Grown, Kept, Mapped, Pte, Gained, Absent;
    GainedJoin(v, f, n);
    GrownTrans(o0, s0, o1, s1, o2, s2, Gained(v, f, n), Gained(v + n, f + n, if ok then 1 else 0));
    KeptTrans(m0, m1, m2, o0, s0, o1, s1, Gained(v, f, n));
    if ok {
      MappedJoin(m0, m1, m2, dir, v, f, n, perm);
      AbsentMore(m0, dir, v, n);
    } else {
      MappedStill(m0, m1, m2, dir, v, f, n, perm);
    }
  }

  lemma MappedJoin(m0: seq<Page>, m1: seq<Page>, m2: seq<Page>, dir: nat, v: nat, f: nat, n: nat, perm: nat)
    requires dir < |m0| && dir < |m1| && dir < |m2| && perm < PGSIZE
    requires Mapped(m0, m1, dir, v, f, n, perm) && Mapped(m1, m2, dir, v + n, f + n, 1, perm)
    ensures Mapped(m0, m2, dir, v, f, n + 1, perm)
  {
  }

  lemma MappedStill(m0: seq<Page>, m1: seq<Page>, m2: seq<Page>, dir: nat, v: nat, f: nat, n: nat, perm: nat)
    requires dir < |m0| && dir < |m1| && dir < |m2| && perm < PGSIZE
    requires Mapped(m0, m1, dir, v, f, n, perm) && Mapped(m1, m2, dir, v + n, f + n, 0, perm)
    ensures Mapped(m0, m2, dir, v, f, n, perm)
  {
  }

  lemma GainedJoin(v: nat, f: nat, n: nat)
    requires v < KERNVPN <==> v + n < KERNVPN
    ensures Gained(v, f, n) + Gained(v + n, f + n, 1) == Gained(v, f, n + 1)
    ensures Gained(v, f, n) + Gained(v + n, f + n, 0) == Gained(v, f, n)
  {
    assert Range(f, n) + Range(f + n, 1) == Range(f, n + 1);
    assert Range(f + n, 0) == {};
  }

  ghost predicate Unmapped(mem: seq<Page>, dir: nat, v: nat, n: nat)
    requires dir < |mem|
  {
    forall u :: v <= u < v + n && u < NVPN ==> Pte(mem, dir, u) == 0
  }

  lemma Remaps(mem: seq<Page>, dir: nat, v: nat, n: nat, total: nat)
    requires dir < |mem| && n < total && v + n < NVPN && Present(Pte(mem, dir, v + n))
    ensures !Unmapped(mem, dir, v, total)
  {
    assert !Present(0);
  }

  /** The frames from `f` on are no one's. */
  ghost predicate Fresh(f: nat, n: nat, owner: map<nat, Role>, free: seq<nat>) {
    forall g :: f <= g < f + n ==> 0 < g < NFRAMES && g !in owner && g !in free
  }

  /** The next page to map is still as it was, and its frame no one's. */
  lemma NextToMap(m0: seq<Page>, m1: seq<Page>, dir: nat, v: nat, f: nat, n: nat, total: nat, perm: nat,
                  o0: map<nat, Role>, s0: seq<nat>, o1: map<nat, Role>, s1: seq<nat>)
    requires dir < |m0| && dir < |m1| && perm < PGSIZE && n < total && v + total <= NVPN
    requires MapsSoFar(m0, m1, dir, v, f, n, perm, o0, s0, o1, s1)
    requires v < KERNVPN ==> Fresh(f, total, o0, s0)
    ensures Pte(m1, dir, v + n) == Pte(m0, dir, v + n)
    ensures v < KERNVPN ==> 0 < f + n < NFRAMES && f + n !in o1 && f + n !in s1
  {
    assert v < KERNVPN ==> f + n in Range(f, total) && !In(f + n, f, n);
  }

  /** Pages that a range of bytes touches. */
  function PagesIn(va: nat, size: nat): (n: nat)
    requires size > 0
    ensures n > 0
  {
    (va + size - 1) / PGSIZE - va / PGSIZE + 1
  }

  // Taking pages away

  /** Pages from `v` up to `w` are unmapped, every other page maps what it did. */
  ghost predicate Cleared(mem: seq<Page>, mem2: seq<Page>, dir: nat, v: nat, w: nat)
    requires dir < |mem| && dir < |mem2|
  {
    forall u :: 0 <= u < NVPN ==> Pte(mem2, dir, u) == if v <= u < w then 0 else Pte(mem, dir, u)
  }

  /** From `(owner, free)` to `(owner2, free2)` some user pages went to the free list. */
  ghost predicate Shrunk(owner: map<nat, Role>, free: seq<nat>, owner2: map<nat, Role>, free2: seq<nat>) {
    && (forall f :: f in owner2 ==> f in owner && owner2[f] == owner[f])
    && (forall f :: f in owner && f !in owner2 ==> owner[f].User?)
    && owner2.Keys + Set(free2) == owner.Keys + Set(free)
    && (forall f :: f in free ==> f in free2)
  }

  lemma ShrunkTrans(o0: map<nat, Role>, s0: seq<nat>, o1: map<nat, Role>, s1: seq<nat>, o2: map<nat, Role>,
                    s2: seq<nat>)
    requires Shrunk(o0, s0, o1, s1) && Shrunk(o1, s1, o2, s2)
    ensures Shrunk(o0, s0, o2, s2)
  {
  }

  lemma KeptShrunk(m0: seq<Page>, m1: seq<Page>, m2: seq<Page>, o0: map<nat, Role>, o1: map<nat, Role>, s1: seq<nat>,
                   s0: seq<nat>, s2: seq<nat>)
    requires Kept(m0, m1, s1, o0) && Kept(m1, m2, s2, o1) && Shrunk(o0, s0, o1, s1) && (forall f :: f in s1 ==> f in s2)
    ensures Kept(m0, m2, s2, o0)
  {
  }

  lemma ClearedJoin(m0: seq<Page>, m1: seq<Page>, m2: seq<Page>, dir: nat, v: nat, w: nat, x: nat)
    requires dir < |m0| && dir < |m1| && dir < |m2| && v <= w <= x && Cleared(m0, m1, dir, v, w)
    requires Cleared(m1, m2, dir, w, x)
    ensures Cleared(m0, m2, dir, v, x)
  {
  }

  lemma NothingCleared(mem: seq<Page>, dir: nat, v: nat, w: nat, owner: map<nat, Role>, free: seq<nat>)
    requires dir < |mem| && Unmapped(mem, dir, v, if v < w then w - v else 0)
    ensures Cleared(mem, mem, dir, v, w) && Shrunk(owner, free, owner, free) && Kept(mem, mem, free, owner)
  {
  }

  lemma UserFrame(mem: seq<Page>, dir: nat, owner: map<nat, Role>, v: nat, free: seq<nat>)
    requires Space(mem, dir, owner) && v < KERNVPN && Present(Pte(mem, dir, v)) && Apart(owner, free)
    ensures var f := Frame(Pte(mem, dir, v));
      0 < f < |mem| && f !in free && f in owner && owner[f] == User(v) && f != dir
    ensures Frame(Pte(mem, dir, v)) != Frame(mem[dir][v / ENTRIES])
  {
    assert PteOk(mem, dir, owner, v);
    TableOf(mem, dir, owner, v);
  }

  /** Freeing the frame of page `v` and clearing the entry. */
  lemma ClearEntry(mem: seq<Page>, dir: nat, owner: map<nat, Role>, v: nat, free: seq<nat>, junk: Page, head: nat)
    requires Space(mem, dir, owner) && v < KERNVPN && Present(Pte(mem, dir, v)) && Apart(owner, free)
    requires var f := Frame(Pte(mem, dir, v)); f < |mem| ==> FreeList(mem[f := junk], head, [f] + free)
    ensures Present(mem[dir][v / ENTRIES]) && Frame(mem[dir][v / ENTRIES]) < |mem|
    ensures var f := Frame(Pte(mem, dir, v));
      && 0 < f < |mem| && f !in free && f in owner && mem[f := junk][dir] == mem[dir]
      && var r := WithPte(mem[f := junk], dir, v, 0);
      && Space(r, dir, owner - {f}) && Apart(owner - {f}, [f] + free) && FreeList(r, head, [f] + free)
      && Cleared(mem, r, dir, v, v + 1) && Shrunk(owner, free, owner - {f}, [f] + free)
      && Kept(mem, r, [f] + free, owner)
  {
    var f := Frame(Pte(mem, dir, v));
    UnmapUser(mem, dir, owner, v);
    TableOf(mem, dir, owner, v);
    var m1 := mem[f := junk];
    SpaceFrame(mem, m1, dir, owner);
    UnmapUser(m1, dir, owner, v);
    var r := WithPte(m1, dir, v, 0);
    FreeListFrame(m1, r, head, [f] + free);
    ClearedOne(mem, m1, dir, owner, v);
    hide Pte, Cleared, PteOk, PdeOk;
  }

  lemma ClearedOne(mem: seq<Page>, m1: seq<Page>, dir: nat, owner: map<nat, Role>, v: nat)
    requires Space(m1, dir, owner) && dir < |mem| && dir < |m1| && v < NVPN && Present(m1[dir][v / ENTRIES])
    requires Frame(m1[dir][v / ENTRIES]) < |m1| && forall u :: 0 <= u < NVPN ==> Pte(m1, dir, u) == Pte(mem, dir, u)
    ensures Cleared(mem, WithPte(m1, dir, v, 0), dir, v, v + 1)
  {
    hide Space;
    PteAfterSet(m1, dir, owner, v, 0, v);
    forall u | 0 <= u < NVPN
      ensures Pte(WithPte(m1, dir, v, 0), dir, u) == if v <= u < v + 1 then 0 else Pte(mem, dir, u)
    {
      PteAfterSet(m1, dir, owner, v, 0, u);
    }
  }

  function RoundUp(bytes: nat): (pages: nat)
    ensures bytes <= 4096 * pages < bytes + 4096
  {
    (bytes + PGSIZE - 1) / PGSIZE
  }

  /** Where there is no table, nothing is mapped up to the next table's first page. */
  lemma NoTable(mem: seq<Page>, dir: nat, v: nat, u: nat)
    requires dir < |mem| && v < NVPN && !Present(mem[dir][v / ENTRIES]) && v <= u < (v / ENTRIES + 1) * ENTRIES
    requires u < NVPN
    ensures Pte(mem, dir, u) == 0
  {
    assert u / ENTRIES == v / ENTRIES;
  }

  /** Skipping a page that is not mapped, or all pages of a missing table, loses none. */
  lemma SkipUnmapped(mem: seq<Page>, dir: nat, owner: map<nat, Role>, v: nat, w: nat, to: nat, free: seq<nat>)
    requires Space(mem, dir, owner) && v < to <= KERNVPN
    requires if Present(mem[dir][v / ENTRIES]) then !Present(Pte(mem, dir, v)) && w == v + 1
             else w == (v / ENTRIES + 1) * ENTRIES
    ensures var x := if w < to then w else to;
      Cleared(mem, mem, dir, v, x) && Shrunk(owner, free, owner, free) && Kept(mem, mem, free, owner)
  {
    var x := if w < to then w else to;
    forall u | v <= u < x ensures Pte(mem, dir, u) == 0 {
      if Present(mem[dir][v / ENTRIES]) { assert PteOk(mem, dir, owner, v); } else { NoTable(mem, dir, v, u); }
    }
    NothingCleared(mem, dir, v, x, owner, free);
  }

  lemma FreeGrows(o1: map<nat, Role>, s1: seq<nat>, o2: map<nat, Role>, s2: seq<nat>)
    requires Shrunk(o1, s1, o2, s2)
    ensures forall f :: f in s1 ==> f in s2
  {
  }

  // Tearing down

  ghost function TablesBelow(owner: map<nat, Role>, n: nat): (r: set<nat>) {
    set f | f in owner && owner[f].Table? && owner[f].d < n
  }

  /** With no user page left, an address space is its directory and its tables. */
  lemma OnlyTables(mem: seq<Page>, dir: nat, owner: map<nat, Role>)
    requires Space(mem, dir, owner) && forall v :: 0 <= v < KERNVPN ==> Pte(mem, dir, v) == 0
    ensures owner.Keys == TablesBelow(owner, ENTRIES) + {dir} && dir !in TablesBelow(owner, ENTRIES)
  {
    forall f | f in owner ensures f == dir || f in TablesBelow(owner, ENTRIES) { assert RoleOk(mem, dir, owner, f); }
  }

  /** Entry `d` of the directory accounts for the one table of that number. */
  lemma NextTable(mem: seq<Page>, dir: nat, owner: map<nat, Role>, d: nat)
    requires Space(mem, dir, owner) && d < ENTRIES
    ensures var t := Frame(mem[dir][d]);
      if Present(mem[dir][d]) then
        && TablesBelow(owner, d + 1) == TablesBelow(owner, d) + {t}
        && t in owner && t !in TablesBelow(owner, d) && t != dir && 0 < t < |mem|
      else TablesBelow(owner, d + 1) == TablesBelow(owner, d)
  {
    assert PdeOk(mem, dir, owner, d);
    forall f | f in owner && owner[f] == Table(d) ensures Present(mem[dir][d]) && f == Frame(mem[dir][d]) {
      assert RoleOk(mem, dir, owner, f);
    }
  }

  lemma NoTables(owner: map<nat, Role>)
    ensures TablesBelow(owner, 0) == {}
  {
  }

  lemma SpaceFacts(mem: seq<Page>, head: nat, dir: nat, owner: map<nat, Role>, free: seq<nat>)
    requires Space(mem, dir, owner) && Apart(owner, free) && FreeList(mem, head, free)
    ensures dir in owner && 0 < dir < |mem| == NFRAMES && dir !in free
  {
  }

  lemma FreedAll(m0: seq<Page>, m1: seq<Page>, m2: seq<Page>, dir: nat, owner: map<nat, Role>, rest: map<nat, Role>,
                 s0: seq<nat>, s1: seq<nat>, s2: seq<nat>)
    requires Shrunk(owner, s0, rest, s1) && Kept(m0, m1, s1, owner) && |m2| == |m1|
    requires rest.Keys == TablesBelow(rest, ENTRIES) + {dir} && Set(s2) == Set(s1) + TablesBelow(rest, ENTRIES) + {dir}
    requires forall f :: 0 <= f < |m1| && f !in s2 ==> m2[f] == m1[f]
    ensures Set(s2) == Set(s0) + owner.Keys && OthersKept(m0, m2, s0, owner)
  {
    forall f | f in s1 ensures f in s2 { assert f in Set(s1) && f in Set(s2); }
    forall f | f in s2
      ensures f in s0 || f in owner
    {
      assert f in Set(s2); assert f in Set(s1) ==> f in rest.Keys + Set(s1);
    }
  }

  // The kernel's half

  datatype Region = Region(virt: nat, start: nat, end: nat, perm: nat)

  const EXTMEM := 0x10_0000
  const PHYSTOP := 0xE00_0000
  const DEVSPACE := 0xFE00_0000
  const WORD := 0x1_0000_0000

  /** The kernel's mappings; `data` is where its writable data starts in physical memory. */
  function Kmap(data: nat): (k: seq<Region>)
    ensures |k| == 4
  {
    [Region(KERNBASE, 0, EXTMEM, WRITABLE), Region(KERNBASE + EXTMEM, EXTMEM, data, 0),
     Region(KERNBASE + data, data, PHYSTOP, WRITABLE), Region(DEVSPACE, DEVSPACE, 0, WRITABLE)]
  }

  predicate DataStart(data: nat) {
    EXTMEM < data < PHYSTOP && data % PGSIZE == 0
  }

  /** The difference of two addresses in 32-bit arithmetic. */
  function Size(r: Region): (n: nat)
  {
    (r.end - r.start) % WORD
  }

  /** What page `v` maps to once the first `k` regions are in place. */
  ghost function KernelPte(data: nat, k: nat, v: nat): (w: nat)
    requires DataStart(data) && k <= 4
  {
    if k == 0 then 0
    else
      var r := Kmap(data)[k - 1];
      var from := r.virt / PGSIZE;
      if from <= v < from + Size(r) / PGSIZE then Entry(r.start / PGSIZE + v - from, r.perm)
      else KernelPte(data, k - 1, v)
  }

  ghost predicate HasKernel(mem: seq<Page>, dir: nat, data: nat, k: nat)
    requires dir < |mem| && DataStart(data) && k <= 4
  {
    forall v :: 0 <= v < NVPN ==> Pte(mem, dir, v) == KernelPte(data, k, v)
  }

  /** The regions are whole pages of the kernel's half, in order. */
  lemma RegionBounds(data: nat, k: nat)
    requires DataStart(data) && k < 4
    ensures var r := Kmap(data)[k];
      && Size(r) > 0 && Size(r) % PGSIZE == 0 && r.virt % PGSIZE == 0 && r.start % PGSIZE == 0 && r.perm < PGSIZE
      && KERNBASE <= r.virt && r.virt + Size(r) <= NVPN * PGSIZE && PagesIn(r.virt, Size(r)) == Size(r) / PGSIZE
      && (k < 3 ==> r.virt + Size(r) <= Kmap(data)[k + 1].virt)
  {
    var n := RegionSize(data, k);
    WholePages(Kmap(data)[k].virt, Size(Kmap(data)[k]));
  }

  /** The sizes of the regions, in pages. */
  lemma RegionSize(data: nat, k: nat) returns (n: nat)
    requires DataStart(data) && k < 4
    ensures var r := Kmap(data)[k];
      && Size(r) == n * PGSIZE > 0 && r.virt % PGSIZE == 0 && r.start % PGSIZE == 0 && r.perm < PGSIZE
      && KERNBASE <= r.virt && r.virt + Size(r) <= NVPN * PGSIZE
      && (k < 3 ==> r.virt + Size(r) <= Kmap(data)[k + 1].virt)
  {
    var p := data / PGSIZE;
    assert data == p * PGSIZE;
    n := if k == 0 then 0x100 else if k == 1 then p - 0x100 else if k == 2 then 0xE000 - p else 0x2000;
  }

  lemma WholePages(va: nat, size: nat)
    requires va % PGSIZE == 0 && size % PGSIZE == 0 && size > 0
    ensures PagesIn(va, size) == size / PGSIZE
  {
  }

  /** Outside the first `k` regions nothing is mapped. */
  lemma {:induction false} KernelBelow(data: nat, k: nat, v: nat)
    requires DataStart(data) && k <= 4
    requires v < KERNVPN || (k < 4 && v >= Kmap(data)[k].virt / PGSIZE)
    ensures KernelPte(data, k, v) == 0
  {
    if k > 0 {
      RegionBounds(data, k - 1);
      KernelBelow(data, k - 1, v);
    }
  }

  lemma EmptySpace(mem: seq<Page>, dir: nat, data: nat)
    requires 0 < dir < |mem| && mem[dir] == ZeroPage() && DataStart(data)
    ensures Space(mem, dir, map[dir := Dir]) && HasKernel(mem, dir, data, 0)
  {
    var owner := map[dir := Dir];
    forall d | 0 <= d < ENTRIES ensures !Present(mem[dir][d]) && PdeOk(mem, dir, owner, d) { assert mem[dir][d] == 0; }
    forall v | 0 <= v < NVPN
      ensures Pte(mem, dir, v) == 0 && PteOk(mem, dir, owner, v)
    {
      assert mem[dir][v / ENTRIES] == 0;
    }
    assert RoleOk(mem, dir, owner, dir);
  }

  lemma RegionMapped(m0: seq<Page>, m1: seq<Page>, dir: nat, data: nat, k: nat)
    requires dir < |m0| && dir < |m1| && DataStart(data) && k < 4 && HasKernel(m0, dir, data, k)
    requires var r := Kmap(data)[k];
      r.perm < PGSIZE && Mapped(m0, m1, dir, r.virt / PGSIZE, r.start / PGSIZE, Size(r) / PGSIZE, r.perm)
    ensures HasKernel(m1, dir, data, k + 1)
  {
  }

  lemma RegionUnmapped(mem: seq<Page>, dir: nat, data: nat, k: nat)
    requires dir < |mem| && DataStart(data) && k < 4 && HasKernel(mem, dir, data, k)
    ensures var r := Kmap(data)[k]; Unmapped(mem, dir, r.virt / PGSIZE, Size(r) / PGSIZE)
  {
    var r := Kmap(data)[k];
    forall v | r.virt / PGSIZE <= v < r.virt / PGSIZE + Size(r) / PGSIZE && v < NVPN ensures Pte(mem, dir, v) == 0 {
      KernelBelow(data, k, v);
    }
  }

  // Whole operations: which frames changed hands

  /** From `(owner, free)` to `(owner2, free2)` the address space took frames off the free list. */
  ghost predicate Took(owner: map<nat, Role>, free: seq<nat>, owner2: map<nat, Role>, free2: seq<nat>) {
    && (forall f :: f in owner ==> f in owner2 && owner2[f] == owner[f])
    && (forall f :: f in owner2 && f !in owner ==> f in free)
    && owner2.Keys + Set(free2) == owner.Keys + Set(free)
    && (forall f :: f in free2 ==> f in free)
  }

  lemma TookTrans(o0: map<nat, Role>, s0: seq<nat>, o1: map<nat, Role>, s1: seq<nat>, o2: map<nat, Role>, s2: seq<nat>)
    requires Took(o0, s0, o1, s1) && Took(o1, s1, o2, s2)
    ensures Took(o0, s0, o2, s2)
  {
  }

  lemma KeptTook(m0: seq<Page>, m1: seq<Page>, m2: seq<Page>, o0: map<nat, Role>, s0: seq<nat>, o1: map<nat, Role>,
                 s1: seq<nat>)
    requires Kept(m0, m1, s0, o0) && Kept(m1, m2, s1, o1) && Took(o0, s0, o1, s1)
    ensures Kept(m0, m2, s0, o0)
  {
  }

  lemma TookTables(o0: map<nat, Role>, s0: seq<nat>, o1: map<nat, Role>, s1: seq<nat>)
    requires Grown(o0, s0, o1, s1, {})
    ensures Took(o0, s0, o1, s1)
  {
  }

  lemma FreshDir(owner: map<nat, Role>, free: seq<nat>, free2: seq<nat>, dir: nat)
    requires Set(free) == Set(free2) + {dir} && dir !in free2 && owner == map[dir := Dir]
    ensures Took(map[], free, owner, free2) && Apart(owner, free2)
  {
    assert forall f :: f in free <==> f in Set(free);
    assert forall f :: f in free2 <==> f in Set(free2);
  }

  lemma OthersSame(mem: seq<Page>, free: seq<nat>)
    ensures OthersKept(mem, mem, free, map[])
  {
  }

  lemma OthersPage(mem: seq<Page>, free: seq<nat>, free2: seq<nat>, f: nat, p: Page)
    requires f < |mem| && Set(free) == Set(free2) + {f}
    ensures OthersKept(mem, mem[f := p], free, map[])
  {
    assert f in Set(free);
  }

  lemma OthersTook(m0: seq<Page>, m1: seq<Page>, m2: seq<Page>, s0: seq<nat>, o1: map<nat, Role>, s1: seq<nat>)
    requires OthersKept(m0, m1, s0, map[]) && Kept(m1, m2, s1, o1) && Took(map[], s0, o1, s1)
    ensures OthersKept(m0, m2, s0, map[])
  {
  }

  /** Tearing down what was built gives back exactly the frames it took. */
  lemma GaveBack(m0: seq<Page>, m1: seq<Page>, m2: seq<Page>, o0: map<nat, Role>, s0: seq<nat>, o1: map<nat, Role>,
                 s1: seq<nat>, s2: seq<nat>)
    requires o0 == map[] && Took(o0, s0, o1, s1) && OthersKept(m0, m1, s0, o0)
    requires Set(s2) == Set(s1) + o1.Keys && OthersKept(m1, m2, s1, o1)
    ensures Set(s2) == Set(s0) && OthersKept(m0, m2, s0, o0)
  {
  }

  // Growing user memory

  /** Page `u` is mapped, writable by the user, to a frame of zeros that was not the address space's before. */
  ghost predicate NewPage(mem: seq<Page>, dir: nat, u: nat, owner: map<nat, Role>)
    requires dir < |mem| && u < NVPN
  {
    var w := Pte(mem, dir, u);
    && Present(w) && Flags(w) == WRITABLE + USER + 1
    && Frame(w) !in owner && Frame(w) < |mem| && mem[Frame(w)] == ZeroPage()
  }

  /** Pages from `v` up to `w` are new, every other page maps what it did. */
  ghost predicate Extended(mem: seq<Page>, mem2: seq<Page>, dir: nat, v: nat, w: nat, owner: map<nat, Role>)
    requires dir < |mem| && dir < |mem2|
  {
    forall u :: 0 <= u < NVPN ==>
      if v <= u < w then NewPage(mem2, dir, u, owner) else Pte(mem2, dir, u) == Pte(mem, dir, u)
  }

  lemma ExtendOne(m0: seq<Page>, m1: seq<Page>, m2: seq<Page>, dir: nat, v: nat, w: nat, f: nat, o0: map<nat, Role>,
                  s0: seq<nat>, o1: map<nat, Role>, s1: seq<nat>)
    requires dir < |m0| && dir < |m1| && v <= w < KERNVPN && Extended(m0, m1, dir, v, w, o0) && Took(o0, s0, o1, s1)
    requires Space(m1, dir, o1) && Kept(m1, m2, s1, o1) && Apart(o1, s1)
    requires Mapped(m1, m2, dir, w, f, 1, WRITABLE + USER)
    requires f !in o1 && f < |m2| && m2[f] == ZeroPage()
    ensures Extended(m0, m2, dir, v, w + 1, o0)
  {
    forall u | v <= u < w + 1 ensures NewPage(m2, dir, u, o0) {
      if u < w { assert NewPage(m1, dir, u, o0) && PteOk(m1, dir, o1, u); }
    }
  }

  /** A frame off the free list, mapped as a user page. */
  lemma TookPage(owner: map<nat, Role>, free: seq<nat>, f: nat, s1: seq<nat>, o2: map<nat, Role>, s2: seq<nat>, v: nat)
    requires Set(free) == Set(s1) + {f} && Grown(owner, s1, o2, s2, Gained(v, f, 1)) && v < KERNVPN
    ensures Took(owner, free, o2, s2)
  {
    assert forall x :: x in free <==> x in Set(free);
    assert forall x :: x in s1 <==> x in Set(s1);
    assert forall x :: In(x, f, 1) <==> x == f;
  }

  /** Undoing the growth leaves the mapping as it was; tables that were added stay. */
  lemma Undone(m0: seq<Page>, m1: seq<Page>, m2: seq<Page>, dir: nat, v: nat, w: nat, x: nat, o0: map<nat, Role>,
               s0: seq<nat>,
               o1: map<nat, Role>, s1: seq<nat>, o2: map<nat, Role>, s2: seq<nat>)
    requires Space(m0, dir, o0) && dir < |m1| && Space(m2, dir, o2) && v <= w <= x && Unmapped(m0, dir, v, x - v)
    requires Extended(m0, m1, dir, v, w, o0) && Cleared(m1, m2, dir, v, x) && Took(o0, s0, o1, s1)
    requires Shrunk(o1, s1, o2, s2)
    ensures forall u :: 0 <= u < NVPN ==> Pte(m2, dir, u) == Pte(m0, dir, u)
    ensures GrewTables(o0, o2) && o2.Keys + Set(s2) == o0.Keys + Set(s0)
  {
    forall f | f in o0 ensures f in o2 && o2[f] == o0[f] {
      assert RoleOk(m0, dir, o0, f);
      if o0[f].User? { assert PteOk(m2, dir, o2, o0[f].v); }
    }
    forall f | f in o2 ensures f in o0 || o2[f].Table? {
      assert RoleOk(m2, dir, o2, f);
      if o2[f].User? { assert PteOk(m0, dir, o0, o2[f].v); }
    }
  }

  lemma KeptUndone(m0: seq<Page>, m1: seq<Page>, m2: seq<Page>, o0: map<nat, Role>, s0: seq<nat>, o1: map<nat, Role>,
                   s1: seq<nat>,
                   o2: map<nat, Role>, s2: seq<nat>)
    requires Kept(m0, m1, s0, o0) && Kept(m1, m2, s2, o1) && Took(o0, s0, o1, s1) && Shrunk(o1, s1, o2, s2)
    requires GrewTables(o0, o2) && Apart(o2, s2)
    ensures Kept(m0, m2, s0, o0)
  {
    forall g | 0 <= g < |m0| && g !in s0 && (g in o0 ==> o0[g].User?) ensures m2[g] == m0[g] {
      if g !in o0 { assert g !in o2.Keys + Set(s2); }
    }
  }

  lemma KeptFreed(m1: seq<Page>, m2: seq<Page>, m3: seq<Page>, owner: map<nat, Role>, free: seq<nat>, f: nat)
    requires Kept(m1, m2, free, owner) && |m3| == |m2| && forall g :: 0 <= g < |m2| && g != f ==> m3[g] == m2[g]
    ensures Kept(m1, m3, [f] + free, owner)
  {
  }

  ghost predicate GrewTables(owner: map<nat, Role>, owner2: map<nat, Role>) {
    && (forall f :: f in owner ==> f in owner2 && owner2[f] == owner[f])
    && (forall f :: f in owner2 && f !in owner ==> owner2[f].Table?)
  }

  /** Of the frames that joined, the tables are for slots with a page from `v` up to `w`. */
  ghost predicate TablesIn(owner: map<nat, Role>, owner2: map<nat, Role>, v: nat, w: nat) {
    forall f :: f in owner2 && f !in owner && owner2[f].Table? ==>
      v < w && v / ENTRIES <= owner2[f].d && owner2[f].d * ENTRIES < w
  }

  lemma TablesJoin(o0: map<nat, Role>, o1: map<nat, Role>, o2: map<nat, Role>, v: nat, w: nat, x: nat)
    requires TablesIn(o0, o1, v, w) && TablesIn(o1, o2, w, x) && v <= w <= x
    requires forall f :: f in o1 ==> f in o2 && o2[f] == o1[f]
    ensures TablesIn(o0, o2, v, x)
  {
    assert v / ENTRIES <= w / ENTRIES;
  }

  lemma NoNewTables(owner: map<nat, Role>, v: nat)
    ensures TablesIn(owner, owner, v, v)
  {
  }

  /** One page more in the loop of mappages, or none. */
  lemma TablesStep(o0: map<nat, Role>, o1: map<nat, Role>, s1: seq<nat>, o2: map<nat, Role>, s2: seq<nat>, v: nat,
                   n: nat,
                   f: nat, ok: bool)
    requires TablesIn(o0, o1, v, v + n) && TablesIn(o1, o2, v + n, if ok then v + n + 1 else v + n)
    requires Grown(o1, s1, o2, s2, Gained(v + n, f + n, if ok then 1 else 0))
    ensures TablesIn(o0, o2, v, if ok then v + n + 1 else v + n)
  {
    TablesJoin(o0, o1, o2, v, v + n, if ok then v + n + 1 else v + n);
  }

  /** How many pages from `v` on, up to `w`, have a table, counting until the first that has none. */
  function Tabled(mem: seq<Page>, dir: nat, v: nat, w: nat): (n: nat)
    requires dir < |mem| && w <= NVPN
    decreases w - v
  {
    if v < w && Present(mem[dir][v / ENTRIES]) then 1 + Tabled(mem, dir, v + 1, w) else 0
  }

  lemma {:induction false} TabledTo(mem: seq<Page>, dir: nat, v: nat, u: nat, w: nat)
    requires dir < |mem| && v <= u <= w <= NVPN
    ensures (forall x :: v <= x < u ==> Present(mem[dir][x / ENTRIES])) ==> Tabled(mem, dir, v, w) >= u - v
    ensures u < w && !Present(mem[dir][u / ENTRIES]) ==> Tabled(mem, dir, v, w) <= u - v
    decreases u - v
  {
    if v < u { TabledTo(mem, dir, v + 1, u, w); }
  }

  function Pages(mem: seq<Page>, dir: nat, v: nat, w: nat): (s: set<nat>)
    requires dir < |mem| && w <= NVPN
  {
    set u: nat | v <= u < w && In(u, v, w - v) :: Frame(Pte(mem, dir, u))
  }

  /** Distinct pages have distinct frames. */
  lemma {:induction false} PagesSize(mem: seq<Page>, dir: nat, owner: map<nat, Role>, v: nat, w: nat)
    requires Space(mem, dir, owner) && v <= w <= KERNVPN
    requires forall u :: v <= u < w ==> Present(Pte(mem, dir, u))
    ensures |Pages(mem, dir, v, w)| == w - v
    ensures forall f :: f in Pages(mem, dir, v, w) ==> f in owner && owner[f].User? && v <= owner[f].v < w
    decreases w - v
  {
    hide Pte, RoleOk, PdeOk;
    if v == w {
      assert Pages(mem, dir, v, w) == {};
    } else {
      PagesSize(mem, dir, owner, v, w - 1);
      assert PteOk(mem, dir, owner, w - 1);
      assert Pages(mem, dir, v, w) == Pages(mem, dir, v, w - 1) + {Frame(Pte(mem, dir, w - 1))} by {
        PagesLast(mem, dir, v, w);
      }
    }
  }

  lemma PagesLast(mem: seq<Page>, dir: nat, v: nat, w: nat)
    requires dir < |mem| && v < w <= NVPN
    ensures Pages(mem, dir, v, w) == Pages(mem, dir, v, w - 1) + {Frame(Pte(mem, dir, w - 1))}
  {
    hide Pte;
    forall f | f in Pages(mem, dir, v, w) ensures f in Pages(mem, dir, v, w - 1) + {Frame(Pte(mem, dir, w - 1))} {
      var u: nat :| v <= u < w && In(u, v, w - v) && f == Frame(Pte(mem, dir, u));
      if u < w - 1 { assert In(u, v, w - 1 - v); }
    }
    forall f | f in Pages(mem, dir, v, w - 1) ensures f in Pages(mem, dir, v, w) {
      var u: nat :| v <= u < w - 1 && In(u, v, w - 1 - v) && f == Frame(Pte(mem, dir, u));
      assert In(u, v, w - v);
    }
    assert In(w - 1, v, w - v);
  }

  ghost function NewTables(o0: map<nat, Role>, o1: map<nat, Role>): (s: set<nat>) {
    set t | t in o1 && t !in o0 && o1[t].Table?
  }

  lemma {:induction false} DistinctSize(s: seq<nat>)
    requires forall i, j :: 0 <= i < j < |s| ==> s[i] != s[j]
    ensures |Set(s)| == |s|
  {
    if s == [] {
      assert Set(s) == {};
    } else {
      DistinctSize(s[1..]);
      assert Set(s) == Set(s[1..]) + {s[0]};
    }
  }

  /** The frames that joined are those of the new pages and the new tables. */
  lemma JoinedFrames(m0: seq<Page>, m1: seq<Page>, dir: nat, v: nat, w: nat, o0: map<nat, Role>, o1: map<nat, Role>)
    requires Space(m0, dir, o0) && Space(m1, dir, o1) && Extended(m0, m1, dir, v, w, o0) && v <= w <= KERNVPN
    requires dir < |m1| && forall f :: f in o0 ==> f in o1 && o1[f] == o0[f]
    ensures |o1.Keys - o0.Keys| == w - v + |NewTables(o0, o1)|
  {
    hide Space, Extended, Pages, NewTables;
    var p, t := Pages(m1, dir, v, w), NewTables(o0, o1);
    NewPages(m0, m1, dir, v, w, o0, o1);
    PagesSize(m1, dir, o1, v, w);
    assert o1.Keys - o0.Keys == p + t && p !! t by {
      forall f ensures f in o1.Keys - o0.Keys <==> f in p + t { JoinedIs(m0, m1, dir, v, w, o0, o1, f); }
      forall f | f in p ensures f !in t { JoinedIs(m0, m1, dir, v, w, o0, o1, f); }
    }
  }

  lemma JoinedIs(m0: seq<Page>, m1: seq<Page>, dir: nat, v: nat, w: nat, o0: map<nat, Role>, o1: map<nat, Role>, f: nat)
    requires Space(m0, dir, o0) && Space(m1, dir, o1) && Extended(m0, m1, dir, v, w, o0) && v <= w <= KERNVPN
    requires dir < |m1| && forall f :: f in o0 ==> f in o1 && o1[f] == o0[f]
    ensures (f in o1.Keys - o0.Keys <==> f in Pages(m1, dir, v, w) || f in NewTables(o0, o1))
    ensures f in Pages(m1, dir, v, w) ==> f !in NewTables(o0, o1)
  {
    hide Space, Extended, Pages;
    NewPages(m0, m1, dir, v, w, o0, o1);
    PagesSize(m1, dir, o1, v, w);
    if f in o1 && f !in o0 { JoinedAs(m0, m1, dir, v, w, o0, o1, f); }
  }

  lemma NewPages(m0: seq<Page>, m1: seq<Page>, dir: nat, v: nat, w: nat, o0: map<nat, Role>, o1: map<nat, Role>)
    requires Space(m0, dir, o0) && Space(m1, dir, o1) && Extended(m0, m1, dir, v, w, o0) && v <= w <= KERNVPN
    requires dir < |m1|
    ensures forall u :: v <= u < w ==> Present(Pte(m1, dir, u))
    ensures forall f :: f in Pages(m1, dir, v, w) ==> f !in o0
  {
    assert dir < |m0|;
    hide Space, Pte;
    forall u | v <= u < w ensures NewPage(m1, dir, u, o0) {}
  }

  lemma JoinedAs(m0: seq<Page>, m1: seq<Page>, dir: nat, v: nat, w: nat, o0: map<nat, Role>, o1: map<nat, Role>, f: nat)
    requires Space(m0, dir, o0) && Space(m1, dir, o1) && Extended(m0, m1, dir, v, w, o0) && v <= w <= KERNVPN
    requires f in o1 && f !in o0
    ensures o1[f].Table? || f in Pages(m1, dir, v, w)
  {
    assert RoleOk(m1, dir, o1, f);
    hide Pte;
    if o1[f].User? {
      var u := o1[f].v;
      assert PteOk(m0, dir, o0, u);
      assert v <= u < w && In(u, v, w - v);
    }
  }

  /** A table that joined is for a slot that had none. */
  lemma NewSlot(m0: seq<Page>, m1: seq<Page>, dir: nat, o0: map<nat, Role>, o1: map<nat, Role>, t: nat)
    requires Space(m0, dir, o0) && Space(m1, dir, o1) && forall f :: f in o0 ==> f in o1 && o1[f] == o0[f]
    requires t in o1 && t !in o0 && o1[t].Table?
    ensures o1[t].d < ENTRIES && !Present(m0[dir][o1[t].d])
  {
    hide Pte, PteOk, PdeOk;
    var d := o1[t].d;
    assert RoleOk(m1, dir, o1, t);
    hide RoleOk, Space;
    if Present(m0[dir][d]) {
      TableStays(m0, m1, dir, o0, o1, d);
      assert false;
    }
  }

  lemma TableStays(m0: seq<Page>, m1: seq<Page>, dir: nat, o0: map<nat, Role>, o1: map<nat, Role>, d: nat)
    requires Space(m0, dir, o0) && Space(m1, dir, o1) && forall f :: f in o0 ==> f in o1 && o1[f] == o0[f]
    requires dir < |m0| && dir < |m1| && d < ENTRIES && Present(m0[dir][d])
    ensures Frame(m1[dir][d]) == Frame(m0[dir][d]) && Frame(m0[dir][d]) in o0
  {
    assert PdeOk(m0, dir, o0, d) && RoleOk(m1, dir, o1, Frame(m0[dir][d]));
  }

  /** Without new tables, the slots of the new pages had tables. */
  lemma OldSlots(m0: seq<Page>, m1: seq<Page>, dir: nat, v: nat, w: nat, o0: map<nat, Role>, o1: map<nat, Role>, u: nat)
    requires Space(m0, dir, o0) && Space(m1, dir, o1) && Extended(m0, m1, dir, v, w, o0) && w <= KERNVPN
    requires NewTables(o0, o1) == {} && v <= u < w && forall f :: f in o0 ==> f in o1 && o1[f] == o0[f]
    ensures Present(m0[dir][u / ENTRIES])
  {
    assert NewPage(m1, dir, u, o0);
    assert Present(m1[dir][u / ENTRIES]);
    hide Pte, PteOk;
    var t := Frame(m1[dir][u / ENTRIES]);
    assert PdeOk(m1, dir, o1, u / ENTRIES);
    assert t in o1 && o1[t] == Table(u / ENTRIES) && t !in NewTables(o0, o1);
    assert RoleOk(m0, dir, o0, t);
  }

  /** When memory ran out at page `a` with `s` in hand, new tables had been made exactly if there was memory for the
      pages that have tables, one page more and its table. */
  lemma TablesMade(m0: seq<Page>, m1: seq<Page>, dir: nat, v: nat, a: nat, w: nat, o0: map<nat, Role>, s0: seq<nat>,
                   head: nat, o1: map<nat, Role>, s: seq<nat>)
    requires Space(m0, dir, o0) && Space(m1, dir, o1) && Extended(m0, m1, dir, v, a, o0) && v <= a <= w <= KERNVPN
    requires FreeList(m0, head, s0) && Apart(o0, s0) && Took(o0, s0, o1, s) && TablesIn(o0, o1, v, a)
    requires |s| <= 1 && forall f :: f in s ==> f !in o1
    ensures NewTables(o0, o1) == {} <==> |s0| <= Tabled(m0, dir, v, w) + 1
  {
    JoinedFrames(m0, m1, dir, v, a, o0, o1);
    assert |Set(s0)| == |s0| by { DistinctSize(s0); }
    assert |Set(s)| == |s| by { DistinctSize(s); }
    assert |s0| == a - v + |NewTables(o0, o1)| + |s| by { TookSize(o0, s0, o1, s); }
    if NewTables(o0, o1) == {} {
      forall u | v <= u < a ensures Present(m0[dir][u / ENTRIES]) { OldSlots(m0, m1, dir, v, a, o0, o1, u); }
      TabledTo(m0, dir, v, a, w);
    } else {
      var t :| t in NewTables(o0, o1);
      NewSlot(m0, m1, dir, o0, o1, t);
      var u := if v < o1[t].d * ENTRIES then o1[t].d * ENTRIES else v;
      assert v <= u < a && u / ENTRIES == o1[t].d;
      TabledTo(m0, dir, v, u, w);
    }
  }

  lemma TookSize(o0: map<nat, Role>, s0: seq<nat>, o1: map<nat, Role>, s: seq<nat>)
    requires Took(o0, s0, o1, s) && Apart(o0, s0) && forall f :: f in s ==> f !in o1
    ensures |Set(s0)| == |o1.Keys - o0.Keys| + |Set(s)|
  {
    assert Set(s0) == (o1.Keys - o0.Keys) + Set(s) by {
      forall x ensures x in Set(s0) <==> x in (o1.Keys - o0.Keys) + Set(s) {
        assert x in o1.Keys + Set(s) <==> x in o0.Keys + Set(s0);
      }
    }
  }

  lemma ShrunkFacts(o1: map<nat, Role>, s1: seq<nat>, o2: map<nat, Role>, s2: seq<nat>)
    requires Shrunk(o1, s1, o2, s2)
    ensures (forall t :: t in o2 ==> t in o1 && o2[t] == o1[t]) && forall t :: t in o1 && !o1[t].User? ==> t in o2
  {
  }

  /** Nothing is left of the growth exactly if no table was made. */
  lemma LeftOver(mem: seq<Page>, dir: nat, o0: map<nat, Role>, o1: map<nat, Role>, o2: map<nat, Role>)
    requires Space(mem, dir, o1) && dir in o0 && GrewTables(o0, o2)
    requires (forall t :: t in o2 ==> t in o1 && o2[t] == o1[t]) && forall t :: t in o1 && !o1[t].User? ==> t in o2
    requires forall f :: f in o0 ==> f in o1 && o1[f] == o0[f]
    ensures o2 == o0 <==> NewTables(o0, o1) == {}
  {
    if NewTables(o0, o1) == {} {
      forall f | f in o2 ensures f in o0 { assert f !in NewTables(o0, o1); }
      assert o2 == o0;
    } else {
      var t :| t in NewTables(o0, o1);
      assert t in o2;
    }
  }

  lemma GrewMore(o0: map<nat, Role>, o1: map<nat, Role>, s1: seq<nat>, o2: map<nat, Role>, s2: seq<nat>,
                 v: nat, w: nat, x: nat)
    requires TablesIn(o0, o1, v, w) && TablesIn(o1, o2, w, x) && v <= w <= x && Took(o1, s1, o2, s2)
    ensures TablesIn(o0, o2, v, x)
  {
    TablesJoin(o0, o1, o2, v, w, x);
  }

  lemma PresentSlot(mem: seq<Page>, dir: nat, v: nat)
    requires dir < |mem| && v < NVPN && Present(Pte(mem, dir, v))
    ensures Present(mem[dir][v / ENTRIES])
  {
  }

  lemma OutOfFrames(m0: seq<Page>, m1: seq<Page>, dir: nat, v: nat, a: nat, w: nat, o0: map<nat, Role>, s0: seq<nat>,
                    head: nat, o1: map<nat, Role>, f: nat)
    requires Space(m0, dir, o0) && Space(m1, dir, o1) && Extended(m0, m1, dir, v, a, o0) && v <= a <= w <= KERNVPN
    requires FreeList(m0, head, s0) && Apart(o0, s0) && TablesIn(o0, o1, v, a)
    requires if f == 0 then Took(o0, s0, o1, []) else f !in o1 && Took(o0, s0, o1, [f] + [])
    ensures NewTables(o0, o1) == {} <==> |s0| <= Tabled(m0, dir, v, w) + 1
    ensures dir in o0 && forall x :: x in o0 ==> x in o1 && o1[x] == o0[x]
  {
    hide Extended, FreeList, RoleOk, PdeOk, PteOk;
    TablesMade(m0, m1, dir, v, a, w, o0, s0, head, o1, if f == 0 then [] else [f] + []);
  }

  /** The attempt at page `a` that failed, with frame `f` (if not 0) in hand. */
  lemma LastTables(o0: map<nat, Role>, o1: map<nat, Role>, s1: seq<nat>, o2: map<nat, Role>, s2: seq<nat>, v: nat,
                   a: nat,
                   f: nat)
    requires TablesIn(o0, o1, v, a) && TablesIn(o1, o2, a, a) && v <= a
    requires if f == 0 then o2 == o1 else Took(o1, s1, o2, [f] + s2)
    ensures TablesIn(o0, o2, v, a)
  {
    if f != 0 { GrewMore(o0, o1, s1, o2, [f] + s2, v, a, a); }
  }

  /** allocuvm has mapped the pages from `v` up to `a`. */
  ghost predicate Growing(m0: seq<Page>, m1: seq<Page>, dir: nat, v: nat, a: nat, o0: map<nat, Role>, s0: seq<nat>,
                          o1: map<nat, Role>, s1: seq<nat>)
    requires dir < |m0| && dir < |m1|
  {
    Extended(m0, m1, dir, v, a, o0) && Took(o0, s0, o1, s1) && Kept(m0, m1, s0, o0) && TablesIn(o0, o1, v, a)
  }

  lemma StartGrowing(mem: seq<Page>, dir: nat, v: nat, owner: map<nat, Role>, free: seq<nat>)
    requires dir < |mem|
    ensures Growing(mem, mem, dir, v, v, owner, free, owner, free)
  {
  }

  lemma GrowingFacts(m0: seq<Page>, m1: seq<Page>, dir: nat, v: nat, a: nat, o0: map<nat, Role>, s0: seq<nat>,
                     o1: map<nat, Role>, s1: seq<nat>)
    requires dir < |m0| && dir < |m1| && Growing(m0, m1, dir, v, a, o0, s0, o1, s1)
    ensures Extended(m0, m1, dir, v, a, o0) && Took(o0, s0, o1, s1) && Kept(m0, m1, s0, o0)
  {
    hide Extended, Took, Kept;
  }

  /** One page more. */
  lemma GrowsOne(m0: seq<Page>, m1: seq<Page>, m2: seq<Page>, dir: nat, v: nat, a: nat, f: nat, o0: map<nat, Role>,
                 s0: seq<nat>, o1: map<nat, Role>, s1: seq<nat>, o2: map<nat, Role>, s2: seq<nat>)
    requires dir < |m0| && dir < |m1| && v <= a < KERNVPN && Growing(m0, m1, dir, v, a, o0, s0, o1, s1)
    requires dir < |m2| && Space(m1, dir, o1) && Kept(m1, m2, s1, o1) && Apart(o1, s1)
    requires Mapped(m1, m2, dir, a, f, 1, WRITABLE + USER) && f !in o1 && f < |m2| && m2[f] == ZeroPage()
    requires Took(o1, s1, o2, s2) && TablesIn(o1, o2, a, a + 1)
    ensures Growing(m0, m2, dir, v, a + 1, o0, s0, o2, s2)
  {
    hide Extended, Took, Kept, Mapped, Space, TablesIn, Apart;
    KeptTook(m0, m1, m2, o0, s0, o1, s1);
    ExtendOne(m0, m1, m2, dir, v, a, f, o0, s0, o1, s1);
    TookTrans(o0, s0, o1, s1, o2, s2);
    GrewMore(o0, o1, s1, o2, s2, v, a, a + 1);
  }

  /** The attempt at page `a` fails, with frame `f` (if not 0) in hand. */
  lemma GrowStops(m0: seq<Page>, m1: seq<Page>, m2: seq<Page>, dir: nat, v: nat, a: nat, f: nat, o0: map<nat, Role>,
                  s0: seq<nat>, o1: map<nat, Role>, s1: seq<nat>, o2: map<nat, Role>, s2: seq<nat>)
    requires dir < |m0| && dir < |m1| && v <= a <= KERNVPN && Growing(m0, m1, dir, v, a, o0, s0, o1, s1)
    requires dir < |m2| && Space(m1, dir, o1) && Kept(m1, m2, s1, o1) && Apart(o1, s1) && TablesIn(o1, o2, a, a)
    requires forall u :: 0 <= u < NVPN ==> Pte(m2, dir, u) == Pte(m1, dir, u)
    requires if f == 0 then o2 == o1 && s2 == s1 else Took(o1, s1, o2, [f] + s2)
    ensures Extended(m0, m2, dir, v, a, o0) && Kept(m0, m2, s0, o0) && TablesIn(o0, o2, v, a)
    ensures Took(o0, s0, o2, if f == 0 then s2 else [f] + s2)
  {
    hide Extended, Took, Kept, Space, TablesIn, Apart, Pte;
    KeptTook(m0, m1, m2, o0, s0, o1, s1);
    if f != 0 { TookTrans(o0, s0, o1, s1, o2, [f] + s2); }
    ExtendStill(m0, m1, m2, dir, v, a, o0, s0, o1, s1);
    LastTables(o0, o1, s1, o2, s2, v, a, f);
  }

  lemma AllocatedApart(owner: map<nat, Role>, free: seq<nat>, free2: seq<nat>, f: nat)
    requires Apart(owner, free) && Set(free) == Set(free2) + {f}
    ensures f !in owner && Apart(owner, free2) && f in free
  {
    assert forall x :: x in free <==> x in Set(free);
    assert forall x :: x in free2 <==> x in Set(free2);
  }

  /** What mapping a single user page asks for. */
  lemma OnePage(mem: seq<Page>, dir: nat, v: nat, f: nat, owner: map<nat, Role>, free: seq<nat>)
    requires dir < |mem| && v < KERNVPN && Pte(mem, dir, v) == 0 && 0 < f < NFRAMES && f !in owner && f !in free
    ensures v * PGSIZE / PGSIZE == v && f * PGSIZE / PGSIZE == f && PagesIn(v * PGSIZE, PGSIZE) == 1
    ensures Unmapped(mem, dir, v, 1) && Fresh(f, 1, owner, free) && v * PGSIZE + PGSIZE <= KERNBASE
    ensures f * PGSIZE % PGSIZE == 0
  {
  }

  /** Writing a frame just allocated, and then mapping with what is left of the free list. */
  lemma KeptMapped(m0: seq<Page>, m1: seq<Page>, m2: seq<Page>, owner: map<nat, Role>, s0: seq<nat>, s2: seq<nat>,
                   f: nat, s1: seq<nat>)
    requires f < |m0| && |m1| == |m0| && (forall g :: 0 <= g < |m0| && g != f ==> m1[g] == m0[g])
    requires Set(s0) == Set(s1) + {f} && f !in s1 && f !in owner && Kept(m1, m2, s1, owner)
    ensures Kept(m0, m2, s0, owner) && m2[f] == m1[f]
  {
    assert forall x :: x in s0 <==> x in Set(s0);
    assert forall x :: x in s1 <==> x in Set(s1);
  }

  lemma TookNoPage(owner: map<nat, Role>, free: seq<nat>, f: nat, s1: seq<nat>, o2: map<nat, Role>, s2: seq<nat>,
                   v: nat)
    requires Set(free) == Set(s1) + {f} && f !in s1 && f !in owner && Grown(owner, s1, o2, s2, Gained(v, f, 0))
    ensures f !in o2 && f !in s2 && Took(owner, free, o2, [f] + s2)
  {
    assert forall x :: x in free <==> x in Set(free);
    assert forall x :: x in s1 <==> x in Set(s1);
    assert Gained(v, f, 0) == {};
    assert Set([f] + s2) == Set(s2) + {f};
  }

  lemma MappedZero(m1: seq<Page>, m2: seq<Page>, dir: nat, v: nat, f: nat, perm: nat)
    requires dir < |m1| && dir < |m2| && perm < PGSIZE && Mapped(m1, m2, dir, v, f, 0, perm)
    ensures forall u :: 0 <= u < NVPN ==> Pte(m2, dir, u) == Pte(m1, dir, u)
  {
  }

  lemma StillUnmapped(m0: seq<Page>, m1: seq<Page>, dir: nat, v: nat, w: nat, x: nat, owner: map<nat, Role>)
    requires dir < |m0| && dir < |m1| && v <= w < x <= KERNVPN && Extended(m0, m1, dir, v, w, owner)
    requires Unmapped(m0, dir, v, x - v)
    ensures Pte(m1, dir, w) == 0
  {
  }

  lemma ExtendStill(m0: seq<Page>, m1: seq<Page>, m2: seq<Page>, dir: nat, v: nat, w: nat, o0: map<nat, Role>,
                    s0: seq<nat>, o1: map<nat, Role>, s1: seq<nat>)
    requires dir < |m0| && dir < |m1| && v <= w <= KERNVPN && Extended(m0, m1, dir, v, w, o0) && Took(o0, s0, o1, s1)
    requires Space(m1, dir, o1) && Kept(m1, m2, s1, o1) && Apart(o1, s1)
    requires dir < |m2| && forall u :: 0 <= u < NVPN ==> Pte(m2, dir, u) == Pte(m1, dir, u)
    ensures Extended(m0, m2, dir, v, w, o0)
  {
    forall u | v <= u < w ensures NewPage(m2, dir, u, o0) {
      assert NewPage(m1, dir, u, o0) && PteOk(m1, dir, o1, u);
    }
  }

  lemma HeldStays(o1: map<nat, Role>, s1: seq<nat>, o2: map<nat, Role>, s2: seq<nat>, f: nat)
    requires Shrunk(o1, s1, o2, s2) && f !in o1 && f !in s1
    ensures f !in o2 && f !in s2
  {
    assert f !in o2.Keys + Set(s2);
  }

  lemma ShrunkWith(o1: map<nat, Role>, s1: seq<nat>, o2: map<nat, Role>, s2: seq<nat>, f: nat)
    requires Shrunk(o1, s1, o2, s2)
    ensures Shrunk(o1, [f] + s1, o2, [f] + s2)
  {
    assert Set([f] + s1) == Set(s1) + {f} && Set([f] + s2) == Set(s2) + {f};
  }

  // Copying

  /** Page `u` has the same flags and bytes in both address spaces. */
  ghost predicate CopiedAt(mem: seq<Page>, dir: nat, d: nat, u: nat)
    requires dir < |mem| && d < |mem| && u < NVPN
  {
    var w, x := Pte(mem, dir, u), Pte(mem, d, u);
    && Present(w) && Present(x) && Flags(x) == Flags(w)
    && Frame(w) < |mem| && Frame(x) < |mem| && mem[Frame(x)] == mem[Frame(w)]
  }

  /** `d` has copies of the first `n` pages of `dir`, the kernel's mappings, and nothing else. */
  ghost predicate CopyOf(mem: seq<Page>, dir: nat, d: nat, n: nat, data: nat)
    requires dir < |mem| && d < |mem| && DataStart(data)
  {
    forall u :: 0 <= u < NVPN ==> if u < n then CopiedAt(mem, dir, d, u) else Pte(mem, d, u) == KernelPte(data, 4, u)
  }

  ghost predicate AllMapped(mem: seq<Page>, dir: nat, n: nat)
    requires dir < |mem|
  {
    forall u :: 0 <= u < n && u < NVPN ==> Present(Pte(mem, dir, u))
  }

  ghost predicate Disjoint(o: map<nat, Role>, c: map<nat, Role>) {
    forall f :: f in o ==> f !in c
  }

  /** The parent does not notice what the child does. */
  lemma ParentKept(m1: seq<Page>, m2: seq<Page>, dir: nat, owner: map<nat, Role>, s1: seq<nat>, c1: map<nat, Role>)
    requires Space(m1, dir, owner) && Apart(owner, s1) && Disjoint(owner, c1) && Kept(m1, m2, s1, c1)
    ensures Space(m2, dir, owner) && forall u :: 0 <= u < NVPN ==> Pte(m2, dir, u) == Pte(m1, dir, u)
    ensures forall f :: f in owner ==> f < |m1| == |m2| && m2[f] == m1[f]
  {
    SpaceFrame(m1, m2, dir, owner);
  }

  lemma ParentApart(owner: map<nat, Role>, c1: map<nat, Role>, s1: seq<nat>, c2: map<nat, Role>, s2: seq<nat>)
    requires Apart(owner, s1) && Disjoint(owner, c1) && Took(c1, s1, c2, s2)
    ensures Apart(owner, s2) && Disjoint(owner, c2)
  {
  }

  lemma CopyStep(m1: seq<Page>, m2: seq<Page>, dir: nat, d: nat, v: nat, f: nat, data: nat,
                 owner: map<nat, Role>, c1: map<nat, Role>, s1: seq<nat>)
    requires Space(m1, dir, owner) && Apart(owner, s1) && Disjoint(owner, c1) && Kept(m1, m2, s1, c1)
    requires Space(m1, d, c1) && Apart(c1, s1) && DataStart(data) && d < |m2| && v < KERNVPN && f < |m2|
    requires CopyOf(m1, dir, d, v, data) && Present(Pte(m1, dir, v))
    requires Mapped(m1, m2, d, v, f, 1, Flags(Pte(m1, dir, v)))
    requires Frame(Pte(m1, dir, v)) < |m2| && m2[f] == m2[Frame(Pte(m1, dir, v))]
    ensures CopyOf(m2, dir, d, v + 1, data)
  {
    assert |m1| == |m2| && dir < |m1| && d < |m1|;
    ParentKept(m1, m2, dir, owner, s1, c1);
    forall u: nat | u < v ensures CopiedAt(m2, dir, d, u) {
      CopiedStays(m1, m2, dir, d, u, v, f, data, owner, c1, s1);
    }
    CopiedHere(m1, m2, dir, d, v, f);
    forall u: nat | v < u < NVPN ensures Pte(m2, d, u) == KernelPte(data, 4, u) {
      assert Pte(m2, d, u) == Pte(m1, d, u);
    }
    hide Space, Apart, Disjoint, Kept, CopiedAt, Pte, Mapped;
  }

  lemma CopiedHere(m1: seq<Page>, m2: seq<Page>, dir: nat, d: nat, v: nat, f: nat)
    requires dir < |m1| && d < |m1| && |m2| == |m1| && v < KERNVPN && f < |m2| && Present(Pte(m1, dir, v))
    requires Mapped(m1, m2, d, v, f, 1, Flags(Pte(m1, dir, v))) && Pte(m2, dir, v) == Pte(m1, dir, v)
    requires Frame(Pte(m1, dir, v)) < |m2| && m2[f] == m2[Frame(Pte(m1, dir, v))]
    ensures CopiedAt(m2, dir, d, v)
  {
    hide Pte;
  }

  lemma CopiedStays(m1: seq<Page>, m2: seq<Page>, dir: nat, d: nat, u: nat, v: nat, f: nat, data: nat,
                    owner: map<nat, Role>, c1: map<nat, Role>, s1: seq<nat>)
    requires Space(m1, dir, owner) && Disjoint(owner, c1) && Kept(m1, m2, s1, c1) && dir < |m2| && d < |m2|
    requires Space(m1, d, c1) && Apart(c1, s1) && Apart(owner, s1) && DataStart(data) && u < v < KERNVPN
    requires CopyOf(m1, dir, d, v, data) && Pte(m2, dir, u) == Pte(m1, dir, u) && Pte(m2, d, u) == Pte(m1, d, u)
    ensures CopiedAt(m2, dir, d, u)
  {
    assert CopiedAt(m1, dir, d, u) && PteOk(m1, d, c1, u) && PteOk(m1, dir, owner, u);
    hide Pte, Disjoint;
  }

  lemma StartCopy(mem: seq<Page>, dir: nat, d: nat, data: nat)
    requires dir < |mem| && d < |mem| && DataStart(data) && HasKernel(mem, d, data, 4)
    ensures CopyOf(mem, dir, d, 0, data)
  {
  }

  lemma CopyUnmapped(mem: seq<Page>, dir: nat, d: nat, v: nat, data: nat)
    requires dir < |mem| && d < |mem| && DataStart(data) && CopyOf(mem, dir, d, v, data) && v < KERNVPN
    ensures Pte(mem, d, v) == 0
  {
    KernelBelow(data, 4, v);
  }

  lemma NewSpaceApart(owner: map<nat, Role>, s0: seq<nat>, c: map<nat, Role>, s1: seq<nat>)
    requires Apart(owner, s0) && Took(map[], s0, c, s1)
    ensures Apart(owner, s1) && Disjoint(owner, c)
  {
  }

  lemma FreedSame(owner: map<nat, Role>, s0: seq<nat>, s1: seq<nat>)
    requires Apart(owner, s0) && Set(s1) == Set(s0)
    ensures Apart(owner, s1)
  {
    assert forall x :: x in s1 <==> x in Set(s1);
    assert forall x :: x in s0 <==> x in Set(s0);
  }

  lemma Unchanged(mem: seq<Page>, owner: map<nat, Role>, free: seq<nat>)
    ensures Took(owner, free, owner, free) && Kept(mem, mem, free, owner)
  {
  }

  lemma KeptHere(m0: seq<Page>, m1: seq<Page>, free: seq<nat>, owner: map<nat, Role>, f: nat)
    requires Kept(m0, m1, free, owner) && f < |m0| && f !in free && f !in owner
    ensures f < |m1| && m1[f] == m0[f]
  {
  }

  lemma KeptBut(m0: seq<Page>, m1: seq<Page>, m2: seq<Page>, free: seq<nat>, owner: map<nat, Role>, f: nat)
    requires Kept(m0, m1, free, owner) && f in free && |m2| == |m1|
    requires forall g :: 0 <= g < |m1| && g != f ==> m2[g] == m1[g]
    ensures Kept(m0, m2, free, owner)
  {
  }

  lemma ParentAfter(m0: seq<Page>, m1: seq<Page>, dir: nat, owner: map<nat, Role>, s0: seq<nat>)
    requires Space(m0, dir, owner) && Apart(owner, s0) && OthersKept(m0, m1, s0, map[])
    ensures Space(m1, dir, owner) && dir < |m0| && dir < |m1| && SameMaps(m0, m1, dir) && AllMapped(m0, dir, 0)
  {
    SpaceFrame(m0, m1, dir, owner);
  }

  lemma ParentFreed(m0: seq<Page>, m1: seq<Page>, dir: nat, owner: map<nat, Role>, s0: seq<nat>, child: map<nat, Role>)
    requires Space(m0, dir, owner) && Apart(owner, s0) && Disjoint(owner, child) && OthersKept(m0, m1, s0, child)
    ensures Space(m1, dir, owner)
  {
    SpaceFrame(m0, m1, dir, owner);
  }

  ghost predicate SameMaps(m0: seq<Page>, m1: seq<Page>, dir: nat)
    requires dir < |m0| && dir < |m1|
  {
    forall u :: 0 <= u < NVPN ==> Pte(m1, dir, u) == Pte(m0, dir, u)
  }

  lemma SameMapsTrans(m0: seq<Page>, m1: seq<Page>, m2: seq<Page>, dir: nat)
    requires dir < |m0| && dir < |m1| && dir < |m2| && SameMaps(m0, m1, dir)
    requires forall u :: 0 <= u < NVPN ==> Pte(m2, dir, u) == Pte(m1, dir, u)
    ensures SameMaps(m0, m2, dir)
  {
    hide Pte;
  }

  /** One page more was found mapped, or the page that was not. */
  lemma MappedOrNot(m0: seq<Page>, m1: seq<Page>, dir: nat, n: nat, total: nat)
    requires dir < |m0| && dir < |m1| && n < total && n < NVPN && SameMaps(m0, m1, dir) && AllMapped(m0, dir, n)
    ensures if Present(Pte(m1, dir, n)) then AllMapped(m0, dir, n + 1) else !AllMapped(m0, dir, total)
  {
    hide Pte;
  }

  lemma NotShared(owner: map<nat, Role>, child: map<nat, Role>, f: nat)
    requires Disjoint(owner, child) && f in owner
    ensures f !in child
  {
  }

  lemma KernelOnly(mem: seq<Page>, dir: nat, data: nat, n: nat)
    requires dir < |mem| && DataStart(data) && HasKernel(mem, dir, data, 4) && n <= KERNVPN
    ensures Unmapped(mem, dir, 0, n)
  {
    forall v | 0 <= v < n && v < NVPN ensures Pte(mem, dir, v) == 0 { KernelBelow(data, 4, v); }
  }

  lemma GrownMapped(m1: seq<Page>, m2: seq<Page>, dir: nat, n: nat, owner: map<nat, Role>)
    requires dir < |m1| && dir < |m2| && Extended(m1, m2, dir, 0, n, owner)
    ensures AllMapped(m2, dir, n)
  {
    forall u | 0 <= u < n && u < NVPN ensures Present(Pte(m2, dir, u)) { assert NewPage(m2, dir, u, owner); }
  }

  /** Whether or not growing succeeded, the address space and the free list have what they had together. */
  lemma TookGrown(s0: seq<nat>, o1: map<nat, Role>, s1: seq<nat>, o2: map<nat, Role>, s2: seq<nat>, ok: bool)
    requires Took(map[], s0, o1, s1)
    requires if ok then Took(o1, s1, o2, s2) else o2.Keys + Set(s2) == o1.Keys + Set(s1)
    ensures o2.Keys + Set(s2) == Set(s0)
  {
  }

  lemma AllBack(m0: seq<Page>, m2: seq<Page>, m4: seq<Page>, m5: seq<Page>, s0: seq<nat>, owner: map<nat, Role>,
                s2: seq<nat>, s4: seq<nat>, s5: seq<nat>)
    requires OthersKept(m0, m2, s0, map[]) && OthersKept(m2, m4, s2, map[]) && OthersKept(m4, m5, s4, owner)
    requires owner.Keys + Set(s2) == Set(s0) && Set(s4) == Set(s2) && Set(s5) == Set(s4) + owner.Keys
    ensures Set(s5) == Set(s0) && OthersKept(m0, m5, s0, map[])
  {
    forall f | 0 <= f < |m0| && f !in s0 ensures m5[f] == m0[f] {
      assert f !in owner.Keys + Set(s2) && f !in Set(s4);
    }
  }

  // What the processor sees

  lemma KernelSeen(mem: seq<Page>, dir: nat, owner: map<nat, Role>, data: nat)
    requires Space(mem, dir, owner) && dir < |mem| && DataStart(data) && HasKernel(mem, dir, data, 4)
    ensures SeesKernel(mem, dir, data)
  {
    forall va: nat | va < 0x1_0000_0000 ensures Translate(mem, dir, va) == KernelView(data, va) {
      hide Space, Pte, Translate, KernelPte;
      TableDecides(mem, dir, owner, va);
      KernelEntry(data, va);
    }
  }

  /** The entry of a page of the kernel's half. */
  lemma KernelEntry(data: nat, va: nat)
    requires DataStart(data) && va < 0x1_0000_0000
    ensures ViewOf(KernelPte(data, 4, va / 4096), va) == KernelView(data, va)
  {
    var v := va / 4096;
    KernelEntries(data, v);
    assert va == v * 4096 + va % 4096 && data == data / 4096 * 4096;
    hide KernelPte;
    if 0xFE00_0000 <= va {
      EntryView(v, 2, va);
    } else if 0x8000_0000 <= va {
      EntryView(v - 0x8_0000, 2, va);
      EntryView(v - 0x8_0000, 0, va);
    }
  }

  lemma EntryView(f: nat, perm: nat, va: nat)
    requires perm == 0 || perm == 2 || perm == 6
    ensures ViewOf(Entry(f, perm), va) == At(f * 4096 + va % 4096, perm != 0, perm == 6)
  {
    LowFlags(f, perm + 1);
    Within(f, perm + 1);
    OddWord(f, perm);
    hide Entry;
  }

  lemma OddWord(f: nat, perm: nat)
    requires perm == 0 || perm == 2 || perm == 6
    ensures Entry(f, perm) == f * 4096 + (perm + 1) && Entry(f, perm) % 2 == 1
  {
  }

  lemma KernelEntries(data: nat, v: nat)
    requires DataStart(data) && v < NVPN
    ensures KernelPte(data, 4, v) ==
      if 0xF_E000 <= v then Entry(v, 2)
      else if 0x8_0000 + data / 4096 <= v < 0x8_E000 then Entry(v - 0x8_0000, 2)
      else if 0x8_0100 <= v < 0x8_0000 + data / 4096 then Entry(v - 0x8_0000, 0)
      else if 0x8_0000 <= v < 0x8_0100 then Entry(v - 0x8_0000, 2) else 0
  {
    assert KernelPte(data, 0, v) == 0;
    assert Size(Kmap(data)[0]) == 0x10_0000 && Size(Kmap(data)[3]) == 0x200_0000;
    assert Size(Kmap(data)[1]) == data - 0x10_0000 && Size(Kmap(data)[2]) == 0xE00_0000 - data;
    assert data == data / 4096 * 4096;
    assert KernelPte(data, 1, v) == if 0x8_0000 <= v < 0x8_0100 then Entry(v - 0x8_0000, 2) else 0;
    assert KernelPte(data, 2, v) ==
      if 0x8_0100 <= v < 0x8_0000 + data / 4096 then Entry(v - 0x8_0000, 0) else KernelPte(data, 1, v);
    assert KernelPte(data, 3, v) ==
      if 0x8_0000 + data / 4096 <= v < 0x8_E000 then Entry(v - 0x8_0000, 2) else KernelPte(data, 2, v);
  }

  lemma GrowthSeen(mem: seq<Page>, mem2: seq<Page>, dir: nat, v: nat, w: nat, owner: map<nat, Role>,
                   owner2: map<nat, Role>)
    requires Space(mem, dir, owner) && Space(mem2, dir, owner2) && dir < |mem| && dir < |mem2|
    requires Extended(mem, mem2, dir, v, w, owner)
    ensures GainsZeroed(mem, mem2, dir, v * 4096, w * 4096)
  {
    hide Space, Pte, Translate;
    forall va: nat | va < 0x1_0000_0000
      ensures if v * 4096 <= va < w * 4096 then ZeroedAt(mem2, dir, va)
              else Translate(mem2, dir, va) == Translate(mem, dir, va)
    {
      TableDecides(mem, dir, owner, va);
      TableDecides(mem2, dir, owner2, va);
      var u := va / 4096;
      if v <= u < w {
        assert NewPage(mem2, dir, u, owner);
        NewPageView(Pte(mem2, dir, u), va);
      }
    }
  }

  lemma ClearedSeen(mem: seq<Page>, mem2: seq<Page>, dir: nat, v: nat, w: nat, owner: map<nat, Role>,
                    owner2: map<nat, Role>)
    requires Space(mem, dir, owner) && Space(mem2, dir, owner2) && dir < |mem| && dir < |mem2|
    requires Cleared(mem, mem2, dir, v, w)
    ensures Loses(mem, mem2, dir, v * 4096, w * 4096)
  {
    hide Space, Pte, Loses;
    LostEntries(mem, mem2, dir, owner, owner2, v, w);
  }

  lemma TableFlags(mem: seq<Page>, dir: nat, owner: map<nat, Role>, d: nat)
    requires Space(mem, dir, owner) && d < ENTRIES && dir < |mem| && Present(mem[dir][d])
    ensures mem[dir][d] % 4096 == 7
  {
    assert PdeOk(mem, dir, owner, d);
  }

  lemma NewPageView(w: nat, va: nat)
    requires Present(w) && Flags(w) == WRITABLE + USER + 1
    ensures ViewOf(w, va) == At(Frame(w) * 4096 + va % 4096, true, true)
  {
    EntryView(Frame(w), 6, va);
    assert w == Entry(Frame(w), 6);
  }

  lemma CopySeen(mem: seq<Page>, dir: nat, d: nat, n: nat, data: nat, owner: map<nat, Role>, child: map<nat, Role>)
    requires Space(mem, dir, owner) && Space(mem, d, child) && dir < |mem| && d < |mem| && DataStart(data)
    requires CopyOf(mem, dir, d, n, data) && Disjoint(owner, child) && n <= KERNVPN
    ensures Copies(mem, dir, d, n * 4096, data)
  {
    hide Translate, KernelPte, Pte, RoleOk, PdeOk;
    forall va: nat | va < 0x1_0000_0000
      ensures if va < n * 4096 then CopiedByte(mem, dir, d, va) else Translate(mem, d, va) == KernelView(data, va)
    {
      TableDecides(mem, dir, owner, va);
      TableDecides(mem, d, child, va);
      var u := va / 4096;
      if u < n {
        assert CopiedAt(mem, dir, d, u) && PteOk(mem, dir, owner, u) && PteOk(mem, d, child, u);
        SameRights(Pte(mem, dir, u), Pte(mem, d, u), va);
      } else {
        KernelEntry(data, va);
      }
    }
  }

  lemma SameRights(w: nat, x: nat, va: nat)
    requires Present(w) && Present(x) && Flags(x) == Flags(w)
    ensures var y, z := ViewOf(w, va), ViewOf(x, va);
      && y.At? && z.At? && z.write == y.write && z.user == y.user && y.addr % 4096 == z.addr % 4096 == va % 4096
      && y.addr / 4096 == Frame(w) && z.addr / 4096 == Frame(x)
  {
    FlagBits(w, va);
    FlagBits(x, va);
  }

  lemma LowFlags(q: nat, r: nat)
    requires r < 4096
    ensures (q * 4096 + r) / 2 % 2 == r / 2 % 2 && (q * 4096 + r) / 4 % 2 == r / 4 % 2
  {
    assert (q * 4096 + r) / 2 == q * 2048 + r / 2;
    assert (q * 4096 + r) / 4 == q * 1024 + r / 4;
  }

  lemma Within(q: nat, r: nat)
    requires r < 4096
    ensures (q * 4096 + r) / 4096 == q && (q * 4096 + r) % 4096 == r
  {
  }

  /** The rights an entry gives are in its flags. */
  lemma FlagBits(w: nat, va: nat)
    requires Present(w)
    ensures ViewOf(w, va).At? && ViewOf(w, va).addr / 4096 == Frame(w) && ViewOf(w, va).addr % 4096 == va % 4096
    ensures ViewOf(w, va).write == (Flags(w) / 2 % 2 == 1) && ViewOf(w, va).user == (Flags(w) / 4 % 2 == 1)
  {
    LowFlags(w / 4096, w % 4096);
    Within(w / 4096, va % 4096);
  }

    class Machine {
    var mem: seq<Page>
    var freelist: nat
    ghost var free: seq<nat>

    ghost predicate Valid()
      reads this
    {
      FreeList(mem, freelist, free)
    }

    /** Puts a frame on the free list, filled with junk. */
    method Kfree(f: nat)
      requires Valid() && 0 < f < NFRAMES && f !in free
      modifies this
      ensures Valid() && free == [f] + old(free) && |mem| == NFRAMES
      ensures forall g :: 0 <= g < NFRAMES && g != f ==> mem[g] == old(mem)[g]
      ensures mem[f][0] == old(freelist) && forall k :: 0 < k < ENTRIES ==> mem[f][k] == 0x0101_0101
    {
      Freed(mem, freelist, free, f, seq(ENTRIES, _ => JUNK)[0 := freelist]);
      mem := mem[f := seq(ENTRIES, _ => JUNK)];
      mem := mem[f := mem[f][0 := freelist]];
      assert mem == old(mem)[f := seq(ENTRIES, _ => JUNK)[0 := old(freelist)]];
      freelist := f;
      free := [f] + free;
    }

    /** Takes the first frame of the free list; 0 exactly when there is none. */
    method Kalloc() returns (f: nat)
      requires Valid()
      modifies `freelist, `free
      ensures Valid() && |mem| == NFRAMES && (f == 0 <==> old(free) == [])
      ensures f == 0 ==> free == old(free)
      ensures f != 0 ==>
        free == old(free)[1..] && f == old(free)[0] && f !in free && f < NFRAMES && Set(old(free)) == Set(free) + {f}
    {
      f := freelist;
      if f != 0 {
        Allocated(mem, freelist, free);
        freelist := mem[f][0];
        free := free[1..];
      }
    }

    /** Frees the whole frames between two addresses. */
    method FreeRange(start: nat, end: nat)
      requires Valid() && 0 < start && end <= NFRAMES * PGSIZE
      requires forall f :: 0 <= f < NFRAMES && start <= f * PGSIZE && (f + 1) * PGSIZE <= end ==> f !in free
      modifies this
      ensures Valid()
      ensures forall f :: f in free <==>
        f in old(free) || (0 <= f < NFRAMES && start <= f * PGSIZE && (f + 1) * PGSIZE <= end)
    {
      var p := (start + PGSIZE - 1) / PGSIZE;
      ghost var from := p;
      while (p + 1) * PGSIZE <= end
        invariant Valid() && from <= p
        invariant forall f :: f in free <==> f in old(free) || (from <= f < p && (f + 1) * PGSIZE <= end)
        decreases NFRAMES - p
      {
        Kfree(p);
        p := p + 1;
      }
    }

    /** The table holding the entry for page `v`; with `alloc`, makes it if need be. 0 if there is none. */
    method WalkPgdir(dir: nat, v: nat, alloc: bool, ghost owner: map<nat, Role>)
      returns (t: nat, ghost owner2: map<nat, Role>)
      requires Valid() && Space(mem, dir, owner) && Apart(owner, free) && v < NVPN
      modifies this
      ensures Valid() && Space(mem, dir, owner2) && Apart(owner2, free) && dir < |old(mem)|
      ensures t == 0 <==> !Present(old(mem)[dir][v / ENTRIES]) && (!alloc || old(free) == [])
      ensures t != 0 ==>
        Present(mem[dir][v / ENTRIES]) && t == Frame(mem[dir][v / ENTRIES]) && t < |mem|
      ensures t != 0 ==> Pte(mem, dir, v) == mem[t][v % ENTRIES] && mem[dir][v / 1024] % 4096 == 7
      ensures !alloc || t == 0 ==> mem == old(mem) && free == old(free) && owner2 == owner
      ensures forall u :: 0 <= u < NVPN ==> Pte(mem, dir, u) == Pte(old(mem), dir, u)
      ensures Grown(owner, old(free), owner2, free, {}) && Kept(old(mem), mem, old(free), owner)
      ensures TablesIn(owner, owner2, v, if Present(old(mem)[dir][v / ENTRIES]) then v else v + 1)
    {
      owner2 := owner;
      var pde := mem[dir][v / ENTRIES];
      if Present(pde) {
        TableFlags(mem, dir, owner, v / ENTRIES);
        TableOf(mem, dir, owner, v);
        return Frame(pde), owner;
      }
      if !alloc {
        return 0, owner;
      }
      t := Kalloc();
      if t == 0 {
        return 0, owner;
      }
      AddTable(mem, dir, owner, v / ENTRIES, t);
      FreeListFrame(mem, Hooked(mem, dir, v / ENTRIES, t), freelist, free);
      mem := mem[t := ZeroPage()];
      mem := mem[dir := mem[dir][v / ENTRIES := Entry(t, WRITABLE + USER)]];
      owner2 := owner[t := Table(v / ENTRIES)];
      TableOf(mem, dir, owner2, v);
    }

    /** One turn of the loop of mappages. */
    method MapOne(dir: nat, v: nat, f: nat, perm: nat, ghost owner: map<nat, Role>)
      returns (ok: bool, panic: bool, ghost owner2: map<nat, Role>)
      requires Valid() && Space(mem, dir, owner) && Apart(owner, free) && v < NVPN && perm < PGSIZE
      requires v < KERNVPN ==> 0 < f < NFRAMES && f !in owner && f !in free
      modifies this
      ensures Valid() && Space(mem, dir, owner2) && Apart(owner2, free) && dir < |old(mem)|
      ensures panic == Present(Pte(old(mem), dir, v)) && !(ok && panic)
      ensures Mapped(old(mem), mem, dir, v, f, if ok then 1 else 0, perm)
      ensures !ok && !panic ==> old(free) == [] && free == []
      ensures Grown(owner, old(free), owner2, free, Gained(v, f, if ok then 1 else 0))
      ensures Kept(old(mem), mem, old(free), owner) && TablesIn(owner, owner2, v, if ok then v + 1 else v)
    {
      hide Space, Grown, Kept, Mapped, FreeList, Pte;
      var t;
      t, owner2 := WalkPgdir(dir, v, true, owner);
      if t == 0 {
        assert Mapped(mem, mem, dir, v, f, 0, perm) by { MappedNone(mem, dir, v, f, perm); }
        assert Gained(v, f, 0) == {};
        NoTable(mem, dir, v, v);
        return false, false, owner;
      }
      if Present(mem[t][v % ENTRIES]) {
        MappedSame(old(mem), mem, dir, v, f, perm);
        PresentSlot(old(mem), dir, v);
        assert Gained(v, f, 0) == {};
        return false, true, owner2;
      }
      panic := false;
      AbsentIsZero(mem, dir, owner2, v);
      ghost var m1, o1 := mem, owner2;
      SetEntry(m1, dir, o1, v, f, perm, freelist, free);
      mem := mem[t := mem[t][v % ENTRIES := Entry(f, perm)]];
      owner2 := if v < KERNVPN then o1[f := User(v)] else o1;
      ok := true;
      GrownTrans(owner, old(free), o1, free, owner2, free, {}, Gained(v, f, 1));
      KeptTrans(old(mem), m1, mem, owner, old(free), o1, free, {});
      MappedAfter(old(mem), m1, mem, dir, v, f, 1, perm);
      assert {} + Gained(v, f, 1) == Gained(v, f, 1);
    }

    /** Maps the pages touched by `size` bytes from `va` on to the frames from `pa` on. Fails only when memory
        runs out, with the first `n` pages mapped. */
    method MapPages(dir: nat, va: nat, size: nat, pa: nat, perm: nat, ghost owner: map<nat, Role>)
      returns (ok: bool, panic: bool, ghost n: nat, ghost owner2: map<nat, Role>)
      requires Valid() && Space(mem, dir, owner) && Apart(owner, free)
      requires 0 < size && va + size <= NVPN * PGSIZE && pa % PGSIZE == 0 && perm < PGSIZE
      requires va + size <= KERNBASE || KERNBASE <= va
      requires va < KERNBASE ==> Fresh(pa / PGSIZE, PagesIn(va, size), owner, free)
      modifies this
      ensures Valid() && Space(mem, dir, owner2) && Apart(owner2, free) && dir < |old(mem)|
      ensures if ok then n == PagesIn(va, size) else n < PagesIn(va, size) && (panic || free == [])
      ensures panic ==> !ok && Present(Pte(old(mem), dir, va / PGSIZE + n))
      ensures Absent(old(mem), dir, va / PGSIZE, n)
      ensures (Unmapped(old(mem), dir, va / PGSIZE, PagesIn(va, size)) ==> !panic)
      ensures Mapped(old(mem), mem, dir, va / PGSIZE, pa / PGSIZE, n, perm)
      ensures Grown(owner, old(free), owner2, free, Gained(va / PGSIZE, pa / PGSIZE, n))
      ensures Kept(old(mem), mem, old(free), owner) && TablesIn(owner, owner2, va / PGSIZE, va / PGSIZE + n)
    {
      hide FreeList, Pte, Unmapped, Fresh, Apart, Absent, Grown, Kept, Mapped, MapsSoFar, TablesIn;
      NoNewTables(owner, va / PGSIZE);
      var a, last, p := va / PGSIZE, (va + size - 1) / PGSIZE, pa / PGSIZE;
      ghost var v, f, total := a, p, PagesIn(va, size);
      ghost var m0, s0 := mem, free;
      ok, panic, n, owner2 := true, false, 0, owner;
      StartMapping(mem, dir, v, f, perm, owner, free);
      while true
        invariant Valid() && Space(mem, dir, owner2) && Apart(owner2, free)
        invariant n < total && a == v + n && p == f + n && last == v + total - 1 && ok && !panic
        invariant MapsSoFar(m0, mem, dir, v, f, n, perm, owner, s0, owner2, free) && TablesIn(owner, owner2, v, v + n)
        decreases total - n
      {
        ghost var m1, o1, s1 := mem, owner2, free;
        NextToMap(m0, mem, dir, v, f, n, total, perm, owner, s0, owner2, free);
        ok, panic, owner2 := MapOne(dir, a, p, perm, owner2);
        MapsMore(m0, m1, mem, dir, v, f, n, perm, owner, s0, o1, s1, owner2, free, ok);
        TablesStep(owner, o1, s1, owner2, free, v, n, f, ok);
        if !ok {
          MapsAll(m0, mem, dir, v, f, n, perm, owner, s0, owner2, free);
          if panic { Remaps(m0, dir, v, n, total); }
          return;
        }
        n := n + 1;
        if a == last {
          MapsAll(m0, mem, dir, v, f, n, perm, owner, s0, owner2, free);
          return;
        }
        a := a + 1;
        p := p + 1;
      }
    }

    /** Frees the page mapped at `v`, whose entry is in table `t`. */
    method UnmapOne(dir: nat, v: nat, t: nat, ghost owner: map<nat, Role>) returns (ghost owner2: map<nat, Role>)
      requires Valid() && Space(mem, dir, owner) && Apart(owner, free) && v < KERNVPN
      requires Present(mem[dir][v / ENTRIES]) && t == Frame(mem[dir][v / ENTRIES]) < |mem|
      requires Pte(mem, dir, v) == mem[t][v % ENTRIES] && Present(Pte(mem, dir, v))
      modifies this
      ensures Valid() && Space(mem, dir, owner2) && Apart(owner2, free) && dir < |old(mem)|
      ensures Cleared(old(mem), mem, dir, v, v + 1) && Shrunk(owner, old(free), owner2, free)
      ensures Kept(old(mem), mem, free, owner)
    {
      hide Space, Shrunk, Kept, Cleared, Pte, Apart;
      var f := Frame(mem[t][v % ENTRIES]);
      UnmapUser(mem, dir, owner, v);
      assert 0 < f < NFRAMES && f !in free && f != t && f != dir by { UserFrame(mem, dir, owner, v, free); }
      ghost var m0 := mem;
      Kfree(f);
      assert mem == m0[f := mem[f]];
      ClearEntry(m0, dir, owner, v, old(free), mem[f], freelist);
      mem := mem[t := mem[t][v % ENTRIES := 0]];
      owner2 := owner - {f};
    }

    /** Shrinks user memory from `oldsz` to `newsz` bytes: frees and unmaps exactly the pages mapped in between. */
    method DeallocUvm(dir: nat, oldsz: nat, newsz: nat, ghost owner: map<nat, Role>)
      returns (r: nat, ghost owner2: map<nat, Role>)
      requires Valid() && Space(mem, dir, owner) && Apart(owner, free) && oldsz <= KERNBASE
      modifies this
      ensures Valid() && Space(mem, dir, owner2) && Apart(owner2, free) && dir < |old(mem)|
      ensures |mem| == |old(mem)| && r == if newsz < oldsz then newsz else oldsz
      ensures Cleared(old(mem), mem, dir, RoundUp(newsz), RoundUp(oldsz)) && Shrunk(owner, old(free), owner2, free)
      ensures Kept(old(mem), mem, free, owner)
      ensures dir < |mem| && Loses(old(mem), mem, dir, RoundUp(newsz) * 4096, RoundUp(oldsz) * 4096)
    {
      hide Shrunk, Kept, Cleared, Pte, Apart, PteOk, PdeOk, RoleOk, FreeList, Loses;
      owner2 := owner;
      ghost var from, to := RoundUp(newsz), RoundUp(oldsz);
      if newsz >= oldsz {
        NothingCleared(mem, dir, from, to, owner, free);
        ClearedSeen(mem, mem, dir, from, to, owner, owner);
        return oldsz, owner;
      }
      var a := RoundUp(newsz);
      ghost var done := from;
      NothingCleared(mem, dir, from, from, owner, free);
      while a * PGSIZE < oldsz
        invariant Valid() && Space(mem, dir, owner2) && Apart(owner2, free)
        invariant |mem| == |old(mem)| && from <= a && done == (if a < to then a else to)
        invariant Cleared(old(mem), mem, dir, from, done) && Shrunk(owner, old(free), owner2, free)
        invariant Kept(old(mem), mem, free, owner)
        decreases oldsz - a * PGSIZE
      {
        ghost var m1, o1, s1, done1 := mem, owner2, free, done;
        var t;
        ghost var o;
        t, o := WalkPgdir(dir, a, false, owner2);
        if t == 0 {
          SkipUnmapped(mem, dir, owner2, a, (a / ENTRIES + 1) * ENTRIES, to, free);
          a := (a / ENTRIES + 1) * ENTRIES;
        } else if Present(mem[t][a % ENTRIES]) {
          owner2 := UnmapOne(dir, a, t, owner2);
          a := a + 1;
        } else {
          SkipUnmapped(mem, dir, owner2, a, a + 1, to, free);
          a := a + 1;
        }
        done := if a < to then a else to;
        ClearedJoin(old(mem), m1, mem, dir, from, done1, done);
        ShrunkTrans(owner, old(free), o1, s1, owner2, free);
        FreeGrows(o1, s1, owner2, free);
        KeptShrunk(old(mem), m1, mem, owner, o1, s1, old(free), free);
      }
      ClearedSeen(old(mem), mem, dir, from, to, owner, owner2);
      r := newsz;
    }

    /** Frees an address space: every frame it owns, each once, and no other. */
    method FreeVm(dir: nat, ghost owner: map<nat, Role>)
      requires Valid() && Space(mem, dir, owner) && Apart(owner, free)
      modifies this
      ensures Valid() && Set(free) == Set(old(free)) + owner.Keys && OthersKept(old(mem), mem, old(free), owner)
    {
      var r;
      ghost var rest;
      r, rest := DeallocUvm(dir, KERNBASE, 0, owner);
      ghost var m1, s1 := mem, free;
      assert forall v :: 0 <= v < KERNVPN ==> Pte(mem, dir, v) == 0;
      OnlyTables(mem, dir, rest);
      FreeTables(dir, rest);
      Kfree(dir);
      FreedAll(old(mem), m1, mem, dir, owner, rest, old(free), s1, free);
    }

    /** The loop of freevm over the directory. */
    method FreeTables(dir: nat, ghost owner: map<nat, Role>)
      requires Valid() && Space(mem, dir, owner) && Apart(owner, free)
      modifies this
      ensures Valid() && Set(free) == Set(old(free)) + TablesBelow(owner, ENTRIES) && dir !in free
      ensures |mem| == |old(mem)| && forall f :: 0 <= f < |mem| && f !in free ==> mem[f] == old(mem)[f]
    {
      hide Space, FreeList, TablesBelow;
      ghost var m0 := mem;
      assert TablesBelow(owner, 0) == {} by { NoTables(owner); }
      assert dir !in free && dir < |mem| == NFRAMES by { SpaceFacts(mem, freelist, dir, owner, free); }
      var i := 0;
      while i < ENTRIES
        invariant 0 <= i <= ENTRIES && Valid() && |mem| == |m0| == NFRAMES
        invariant Set(free) == Set(old(free)) + TablesBelow(owner, i) && dir !in free
        invariant forall f :: 0 <= f < |mem| && f !in free ==> mem[f] == m0[f]
      {
        NextTable(m0, dir, owner, i);
        if Present(mem[dir][i]) {
          assert Frame(mem[dir][i]) !in Set(free);
          Kfree(Frame(mem[dir][i]));
        }
        i := i + 1;
      }
    }

    /** A zeroed page directory, owned by a space that maps nothing; `dir` is 0 when memory runs out. */
    method NewSpace(ghost data: nat) returns (dir: nat, ghost owner: map<nat, Role>)
      requires Valid() && DataStart(data)
      modifies this
      ensures Valid() && OthersKept(old(mem), mem, old(free), map[])
      ensures dir == 0 ==> Set(free) == Set(old(free))
      ensures dir != 0 ==>
        dir < |mem| == NFRAMES && Space(mem, dir, owner) && Apart(owner, free) && HasKernel(mem, dir, data, 0)
      ensures dir != 0 ==> Took(map[], old(free), owner, free)
    {
      hide Space, FreeList, HasKernel, Took, Apart, Kept, Mapped, Grown, Unmapped, Absent, Pte, Fresh, PagesIn;
      hide OthersKept;
      OthersSame(mem, free);
      owner := map[];
      dir := Kalloc();
      if dir == 0 {
        return;
      }
      FreeListFrame(mem, mem[dir := ZeroPage()], freelist, free);
      mem := mem[dir := ZeroPage()];
      owner := map[dir := Dir];
      EmptySpace(mem, dir, data);
      FreshDir(owner, old(free), free, dir);
      OthersPage(old(mem), old(free), free, dir, ZeroPage());
    }

    /** A new address space holding the kernel's mappings alone; `dir` is 0 when memory runs out. */
    method SetupKvm(data: nat) returns (dir: nat, ghost owner: map<nat, Role>)
      requires Valid() && DataStart(data)
      modifies this
      ensures Valid() && OthersKept(old(mem), mem, old(free), map[])
      ensures dir == 0 ==> Set(free) == Set(old(free))
      ensures dir != 0 ==> dir < |mem| && Space(mem, dir, owner) && Apart(owner, free) && HasKernel(mem, dir, data, 4)
      ensures dir != 0 ==> Took(map[], old(free), owner, free) && SeesKernel(mem, dir, data)
    {
      hide Space, FreeList, HasKernel, Took, Apart, Kept, Mapped, Grown, Unmapped, Absent, Pte, Fresh, PagesIn, Kmap;
      hide Size;
      hide OthersKept, SeesKernel;
      dir, owner := NewSpace(data);
      if dir == 0 {
        return;
      }
      var kmap := Kmap(data);
      var k := 0;
      while k < |kmap|
        invariant 0 <= k <= 4 && Valid() && dir < |mem| == NFRAMES && Space(mem, dir, owner) && Apart(owner, free)
        invariant HasKernel(mem, dir, data, k)
        invariant Took(map[], old(free), owner, free) && OthersKept(old(mem), mem, old(free), map[])
      {
        ghost var m1, o1, s1 := mem, owner, free;
        RegionBounds(data, k);
        RegionUnmapped(mem, dir, data, k);
        var ok;
        ghost var n;
        var panic;
        ok, panic, n, owner := MapPages(dir, kmap[k].virt, Size(kmap[k]), kmap[k].start, kmap[k].perm, owner);
        SpaceFacts(mem, freelist, dir, owner, free);
        TookTables(o1, s1, owner, free);
        TookTrans(map[], old(free), o1, s1, owner, free);
        OthersTook(old(mem), m1, mem, old(free), o1, s1);
        if !ok {
          ghost var m2, o2, s2 := mem, owner, free;
          FreeVm(dir, owner);
          GaveBack(old(mem), m2, mem, map[], old(free), o2, s2, free);
          dir := 0;
          return;
        }
        RegionMapped(m1, mem, dir, data, k);
        k := k + 1;
      }
      KernelSeen(mem, dir, owner, data);
    }

    /** One turn of the loop of allocuvm: a zeroed frame `f` mapped at page `v`. When `ok` is false and `f` is not 0,
        the frame was allocated but there was none left for a table. */
    method GrowOne(dir: nat, v: nat, ghost owner: map<nat, Role>)
      returns (f: nat, ok: bool, ghost owner2: map<nat, Role>)
      requires Valid() && Space(mem, dir, owner) && Apart(owner, free) && v < KERNVPN && Pte(mem, dir, v) == 0
      modifies this
      ensures Valid() && Space(mem, dir, owner2) && Apart(owner2, free) && dir < |old(mem)| && f < |mem|
      ensures Kept(old(mem), mem, old(free), owner) && TablesIn(owner, owner2, v, if ok then v + 1 else v)
      ensures !ok ==> free == []
      ensures ok ==>
        f != 0 && Mapped(old(mem), mem, dir, v, f, 1, WRITABLE + USER) && f !in owner && mem[f] == ZeroPage()
      ensures ok ==> Took(owner, old(free), owner2, free)
      ensures !ok ==> forall u :: 0 <= u < NVPN ==> Pte(mem, dir, u) == Pte(old(mem), dir, u)
      ensures !ok ==> if f == 0 then owner2 == owner && free == old(free)
                      else f !in owner2 && f !in free && Took(owner, old(free), owner2, [f] + free)
    {
      hide Space, FreeList, Took, Kept, Mapped, Grown, Pte, TablesIn;
      NoNewTables(owner, v);
      SpaceFacts(mem, freelist, dir, owner, free);
      assert Kept(mem, mem, free, owner) by { StartMapping(mem, dir, v, 0, 0, owner, free); }
      f := Kalloc();
      if f == 0 {
        return 0, false, owner;
      }
      AllocatedApart(owner, old(free), free, f);
      ghost var m1 := mem[f := ZeroPage()];
      SpaceFrame(mem, m1, dir, owner);
      FreeListFrame(mem, m1, freelist, free);
      mem := mem[f := ZeroPage()];
      OnePage(m1, dir, v, f, owner, free);
      ghost var n;
      var panic;
      ok, panic, n, owner2 := MapPages(dir, v * PGSIZE, PGSIZE, f * PGSIZE, WRITABLE + USER, owner);
      KeptMapped(old(mem), m1, mem, owner, old(free), free, f, old(free)[1..]);
      if ok {
        MappedAfter(old(mem), m1, mem, dir, v, f, 1, WRITABLE + USER);
        TookPage(owner, old(free), f, old(free)[1..], owner2, free, v);
      } else {
        TookNoPage(owner, old(free), f, old(free)[1..], owner2, free, v);
        MappedZero(m1, mem, dir, v, f, WRITABLE + USER);
      }
    }

    /** The way out of allocuvm when memory runs out after page `a`, with frame `f` (if not 0) in hand. */
    method GiveUp(dir: nat, oldsz: nat, newsz: nat, ghost a: nat, f: nat, ghost m0: seq<Page>, ghost head: nat,
                  ghost s0: seq<nat>, ghost o0: map<nat, Role>, ghost o1: map<nat, Role>)
      returns (ghost owner2: map<nat, Role>)
      requires Valid() && Space(mem, dir, o1) && Apart(o1, free) && oldsz <= newsz < KERNBASE && f < |mem|
      requires Space(m0, dir, o0) && RoundUp(oldsz) <= a <= RoundUp(newsz) && |mem| == NFRAMES
      requires Unmapped(m0, dir, RoundUp(oldsz), RoundUp(newsz) - RoundUp(oldsz))
      requires Extended(m0, mem, dir, RoundUp(oldsz), a, o0)
      requires Kept(m0, mem, s0, o0)
      requires if f == 0 then Took(o0, s0, o1, free) else f !in o1 && f !in free && Took(o0, s0, o1, [f] + free)
      requires FreeList(m0, head, s0) && Apart(o0, s0) && free == [] && TablesIn(o0, o1, RoundUp(oldsz), a)
      modifies this
      ensures Valid() && Space(mem, dir, owner2) && Apart(owner2, free)
      ensures forall u :: 0 <= u < NVPN ==> Pte(mem, dir, u) == Pte(m0, dir, u)
      ensures owner2 == o0 <==> |s0| <= Tabled(m0, dir, RoundUp(oldsz), RoundUp(newsz)) + 1
      ensures GrewTables(o0, owner2) && owner2.Keys + Set(free) == o0.Keys + Set(s0) && Kept(m0, mem, s0, o0)
    {
      hide Space, FreeList, Took, Unmapped, Extended, Shrunk, Cleared, GrewTables, Pte, Kept, TablesIn, NewTables;
      ghost var m1, s1 := mem, free;
      var r;
      r, owner2 := DeallocUvm(dir, newsz, oldsz, o1);
      ghost var m2, s2 := mem, free;
      ShrunkFacts(o1, s1, owner2, free);
      OutOfFrames(m0, m1, dir, RoundUp(oldsz), a, RoundUp(newsz), o0, s0, head, o1, f);
      if f == 0 {
        Undone(m0, m1, mem, dir, RoundUp(oldsz), a, RoundUp(newsz), o0, s0, o1, s1, owner2, free);
        KeptUndone(m0, m1, mem, o0, s0, o1, s1, owner2, free);
      } else {
        assert f !in owner2 && f !in free by { HeldStays(o1, s1, owner2, free, f); }
        Kfree(f);
        SpaceFrame(m2, mem, dir, owner2);
        ShrunkWith(o1, s1, owner2, s2, f);
        Undone(m0, m1, m2, dir, RoundUp(oldsz), a, RoundUp(newsz), o0, s0, o1, [f] + s1, owner2, free);
        KeptFreed(m1, m2, mem, o1, s2, f);
        KeptUndone(m0, m1, mem, o0, s0, o1, [f] + s1, owner2, free);
      }
      LeftOver(m1, dir, o0, o1, owner2);
    }

    /** Grows user memory from `oldsz` to `newsz` bytes with zeroed pages. When memory runs out nothing stays
        mapped that was not mapped before. */
    method AllocUvm(dir: nat, oldsz: nat, newsz: nat, ghost owner: map<nat, Role>)
      returns (r: nat, ok: bool, ghost owner2: map<nat, Role>)
      requires Valid() && Space(mem, dir, owner) && Apart(owner, free)
      requires oldsz <= newsz < KERNBASE ==> Unmapped(mem, dir, RoundUp(oldsz), RoundUp(newsz) - RoundUp(oldsz))
      modifies this
      ensures Valid() && Space(mem, dir, owner2) && Apart(owner2, free) && dir < |old(mem)|
      ensures dir < |mem|
      ensures r == if newsz >= KERNBASE then 0 else if newsz < oldsz then oldsz else if ok then newsz else 0
      ensures newsz >= KERNBASE || newsz < oldsz ==> mem == old(mem) && free == old(free) && owner2 == owner
      ensures oldsz <= newsz < KERNBASE && ok ==>
        Extended(old(mem), mem, dir, RoundUp(oldsz), RoundUp(newsz), owner) && Took(owner, old(free), owner2, free)
        && Kept(old(mem), mem, old(free), owner)
        && GainsZeroed(old(mem), mem, dir, RoundUp(oldsz) * 4096, RoundUp(newsz) * 4096)
      ensures oldsz <= newsz < KERNBASE && !ok ==> SameView(old(mem), mem, dir)
      ensures oldsz <= newsz < KERNBASE && !ok ==>
        (forall u :: 0 <= u < NVPN ==> Pte(mem, dir, u) == Pte(old(mem), dir, u))
        && GrewTables(owner, owner2) && owner2.Keys + Set(free) == owner.Keys + Set(old(free))
        && Kept(old(mem), mem, old(free), owner)
      ensures oldsz <= newsz < KERNBASE && !ok ==>
        (owner2 == owner <==> |old(free)| <= Tabled(old(mem), dir, RoundUp(oldsz), RoundUp(newsz)) + 1)
    {
      hide Space, FreeList, Took, Apart, Kept, Mapped, Grown, Unmapped, Extended, Shrunk, Cleared, GrewTables, TablesIn;
      hide Growing, Pte, Tabled, GainsZeroed, SameView;
      SpaceFacts(mem, freelist, dir, owner, free);
      ok, owner2 := false, owner;
      if newsz >= KERNBASE {
        return 0, false, owner;
      }
      if newsz < oldsz {
        return oldsz, false, owner;
      }
      StartGrowing(mem, dir, RoundUp(oldsz), owner, free);
      var a := RoundUp(oldsz);
      ghost var from, to := a, RoundUp(newsz);
      while a * PGSIZE < newsz
        invariant Valid() && Space(mem, dir, owner2) && Apart(owner2, free) && from <= a <= to && dir < |mem|
        invariant Growing(old(mem), mem, dir, from, a, owner, old(free), owner2, free)
      {
        ghost var m1, o1, s1 := mem, owner2, free;
        GrowingFacts(old(mem), mem, dir, from, a, owner, old(free), owner2, free);
        StillUnmapped(old(mem), mem, dir, from, a, to, owner);
        var f;
        f, ok, owner2 := GrowOne(dir, a, owner2);
        SpaceFacts(mem, freelist, dir, owner2, free);
        if !ok {
          GrowStops(old(mem), m1, mem, dir, from, a, f, owner, old(free), o1, s1, owner2, free);
          owner2 := GiveUp(dir, oldsz, newsz, a, f, old(mem), old(freelist), old(free), owner, owner2);
          SpaceFacts(mem, freelist, dir, owner2, free);
          SameEntries(old(mem), mem, dir, owner, owner2);
          return 0, false, owner2;
        }
        GrowsOne(old(mem), m1, mem, dir, from, a, f, owner, old(free), o1, s1, owner2, free);
        a := a + 1;
      }
      GrowingFacts(old(mem), mem, dir, from, a, owner, old(free), owner2, free);
      GrowthSeen(old(mem), mem, dir, from, to, owner, owner2);
      r, ok := newsz, true;
    }

    /** First part of a turn of the loop of copyuvm: the parent's entry for page `v`. */
    method EntryOf(dir: nat, v: nat, ghost owner: map<nat, Role>) returns (pte: nat)
      requires Valid() && Space(mem, dir, owner) && Apart(owner, free) && v < KERNVPN
      modifies this
      ensures mem == old(mem) && free == old(free) && freelist == old(freelist) && pte == Pte(mem, dir, v)
      ensures Present(pte) ==>
        0 < Frame(pte) < |mem| == NFRAMES && Frame(pte) in owner && Frame(pte) !in free
    {
      var t;
      ghost var o;
      t, o := WalkPgdir(dir, v, false, owner);
      if t == 0 {
        NoTable(mem, dir, v, v);
        return 0;
      }
      pte := mem[t][v % ENTRIES];
      if Present(pte) {
        UserFrame(mem, dir, owner, v, free);
      }
    }

    /** Second part: a new frame with the bytes of `from`, mapped at page `v` of the child. */
    method CopyInto(d: nat, v: nat, from: nat, flags: nat, ghost child: map<nat, Role>)
      returns (ok: bool, ghost f: nat, ghost child2: map<nat, Role>)
      requires Valid() && Space(mem, d, child) && Apart(child, free) && v < KERNVPN && Pte(mem, d, v) == 0
      requires from < |mem| && from !in free && from !in child && flags < PGSIZE
      modifies this
      ensures Valid() && Space(mem, d, child2) && Apart(child2, free) && Took(child, old(free), child2, free)
      ensures Kept(old(mem), mem, old(free), child) && d < |old(mem)| && from < |mem|
      ensures ok ==> f < |mem| && mem[f] == mem[from] && Mapped(old(mem), mem, d, v, f, 1, flags)
    {
      hide Space, FreeList, Took, Kept, Mapped, Grown, Unmapped, Pte;
      SpaceFacts(mem, freelist, d, child, free);
      Unchanged(mem, child, free);
      var p := Kalloc();
      f := p;
      if p == 0 {
        return false, f, child;
      }
      AllocatedApart(child, old(free), free, p);
      assert p in old(free);
      ghost var m1 := mem[p := mem[from]];
      SpaceFrame(mem, m1, d, child);
      FreeListFrame(mem, m1, freelist, free);
      mem := mem[p := mem[from]];
      OnePage(m1, d, v, p, child, free);
      ghost var n;
      var panic;
      ok, panic, n, child2 := MapPages(d, v * PGSIZE, PGSIZE, p * PGSIZE, flags, child);
      KeptMapped(old(mem), m1, mem, child, old(free), free, p, old(free)[1..]);
      KeptHere(old(mem), mem, old(free), child, from);
      if ok {
        MappedAfter(old(mem), m1, mem, d, v, p, 1, flags);
        TookPage(child, old(free), p, old(free)[1..], child2, free, v);
      } else {
        TookNoPage(child, old(free), p, old(free)[1..], child2, free, v);
        ghost var m2 := mem;
        Kfree(p);
        SpaceFrame(m2, mem, d, child2);
        KeptBut(old(mem), m2, mem, old(free), child, p);
      }
    }

    /** A copy of the first `sz` bytes of an address space; `d` is 0 when memory runs out, and then every frame
        taken on the way is back on the free list. */
    method CopyUvm(dir: nat, sz: nat, data: nat, ghost owner: map<nat, Role>)
      returns (d: nat, panic: bool, ghost child: map<nat, Role>)
      requires Valid() && Space(mem, dir, owner) && Apart(owner, free) && sz <= KERNBASE && DataStart(data)
      modifies this
      ensures Valid() && Space(mem, dir, owner) && Apart(owner, free) && OthersKept(old(mem), mem, old(free), map[])
      ensures dir < |old(mem)| && (panic ==> d == 0 && !AllMapped(old(mem), dir, RoundUp(sz)))
      ensures d == 0 && !panic ==> Set(free) == Set(old(free))
      ensures d != 0 ==> AllMapped(old(mem), dir, RoundUp(sz))
      ensures d != 0 ==>
        Space(mem, d, child) && Apart(child, free) && Disjoint(owner, child) && Took(map[], old(free), child, free)
      ensures d != 0 ==> d < |mem| && dir < |mem| && CopyOf(mem, dir, d, RoundUp(sz), data)
      ensures d != 0 ==> Copies(mem, dir, d, RoundUp(sz) * 4096, data)
    {
      hide Space, FreeList, Took, Kept, OthersKept, Mapped, Pte, Apart, Disjoint, CopyOf, HasKernel, AllMapped;
      hide SameMaps, Copies, SeesKernel;
      ghost var m0, s0 := mem, free;
      panic := false;
      d, child := SetupKvm(data);
      ParentAfter(m0, mem, dir, owner, s0);
      if d == 0 {
        FreedSame(owner, s0, free);
        return;
      }
      NewSpaceApart(owner, s0, child, free);
      StartCopy(mem, dir, d, data);
      var i := 0;
      while i * PGSIZE < sz
        invariant i <= RoundUp(sz) && Valid() && dir < |mem| && d < |mem| && d != 0
        invariant Space(mem, dir, owner) && Apart(owner, free) && Space(mem, d, child) && Apart(child, free)
        invariant Disjoint(owner, child)
        invariant Took(map[], s0, child, free) && OthersKept(m0, mem, s0, map[])
        invariant CopyOf(mem, dir, d, i, data) && AllMapped(m0, dir, i) && SameMaps(m0, mem, dir) && !panic
        decreases RoundUp(sz) - i
      {
        ghost var m1, c1, s1 := mem, child, free;
        MappedOrNot(m0, mem, dir, i, RoundUp(sz));
        CopyUnmapped(mem, dir, d, i, data);
        var pte := EntryOf(dir, i, owner);
        if !Present(pte) {
          return 0, true, child;
        }
        assert Frame(pte) !in child by { NotShared(owner, child, Frame(pte)); }
        var ok;
        ghost var f;
        ok, f, child := CopyInto(d, i, Frame(pte), Flags(pte), child);
        ParentKept(m1, mem, dir, owner, s1, c1);
        ParentApart(owner, c1, s1, child, free);
        OthersTook(m0, m1, mem, s0, c1, s1);
        TookTrans(map[], s0, c1, s1, child, free);
        if !ok {
          ghost var m2, c2, s2 := mem, child, free;
          FreeVm(d, child);
          GaveBack(m0, m2, mem, map[], s0, c2, s2, free);
          d := 0;
          ParentFreed(m2, mem, dir, owner, s2, c2);
          FreedSame(owner, s0, free);
          return;
        }
        CopyStep(m1, mem, dir, d, i, f, data, owner, c1, s1);
        SameMapsTrans(m0, m1, mem, dir);
        i := i + 1;
      }
      CopySeen(mem, dir, d, i, data, owner, child);
    }

    /** A life: build, grow to `sz` bytes, copy, and tear down both. Whichever step runs out of memory, the free
        list ends with exactly the frames it began with. */
    method Lifetime(sz: nat, data: nat)
      requires Valid() && DataStart(data) && sz < KERNBASE
      modifies this
      ensures Valid() && Set(free) == Set(old(free)) && OthersKept(old(mem), mem, old(free), map[])
    {
      hide Space, FreeList, Took, Kept, OthersKept, Pte, Apart, Disjoint, CopyOf, HasKernel, AllMapped, Extended;
      hide GrewTables, Unmapped;
      ghost var m0, s0 := mem, free;
      var dir;
      ghost var owner;
      dir, owner := SetupKvm(data);
      if dir == 0 {
        return;
      }
      ghost var m1, o1, s1 := mem, owner, free;
      KernelOnly(mem, dir, data, RoundUp(sz));
      var r, ok;
      r, ok, owner := AllocUvm(dir, 0, sz, owner);
      OthersTook(m0, m1, mem, s0, o1, s1);
      TookGrown(s0, o1, s1, owner, free, ok);
      ghost var m2, s2 := mem, free;
      if ok {
        GrownMapped(m1, mem, dir, RoundUp(sz), o1);
        var d, panic;
        ghost var child;
        d, panic, child := CopyUvm(dir, sz, data, owner);
        if d != 0 {
          ghost var m3, s3 := mem, free;
          FreeVm(d, child);
          GaveBack(m2, m3, mem, map[], s2, child, s3, free);
          ParentFreed(m3, mem, dir, owner, s3, child);
          FreedSame(owner, s2, free);
        }
      }
      ghost var m4, s4 := mem, free;
      FreeVm(dir, owner);
      AllBack(m0, m2, m4, mem, s0, owner, s2, s4, free);
    }
  }
}

