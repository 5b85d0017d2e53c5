/** Two-level page tables (32-bit paging) over physical memory: what they map and which frames they own. */
module PageTables {
  const ENTRIES := 1024       // words in a page, entries in a table
  const PGSIZE := 4096
  const NFRAMES := 0xE000     // frames below PHYSTOP
  const NVPN := 0x10_0000     // virtual pages
  const KERNVPN := 0x8_0000   // first virtual page of the kernel
  const WRITABLE := 2
  const USER := 4

  /** A frame as 1024 words. */
  type Page = s: seq<nat> | |s| == ENTRIES witness seq(ENTRIES, _ => 0)

  function ZeroPage(): (p: Page)
    ensures forall i :: 0 <= i < ENTRIES ==> p[i] == 0
  {
    seq(ENTRIES, _ => 0)
  }

  predicate Present(w: nat) {
    w % 2 == 1
  }

  function Frame(w: nat): (f: nat) {
    w / PGSIZE
  }

  function Flags(w: nat): (f: nat) {
    w % PGSIZE
  }

  /** The entry for a frame: address, flags and the present bit. */
  function Entry(frame: nat, flags: nat): (w: nat)
    requires flags < PGSIZE
    ensures Present(w) && Frame(w) == frame && Flags(w) == flags - flags % 2 + 1
  {
    frame * PGSIZE + flags - flags % 2 + 1
  }

  /** What a frame of an address space is for. */
  datatype Role = Dir | Table(d: nat) | User(v: nat)

  /** The entry for virtual page `v`; 0 where there is no table. */
  function Pte(mem: seq<Page>, dir: nat, v: nat): (w: nat)
    requires dir < |mem| && v < NVPN
  {
    var pde := mem[dir][v / ENTRIES];
    if Present(pde) && Frame(pde) < |mem| then mem[Frame(pde)][v % ENTRIES] else 0
  }

  ghost predicate PdeOk(mem: seq<Page>, dir: nat, owner: map<nat, Role>, d: nat)
    requires dir < |mem| && d < ENTRIES
  {
    Present(mem[dir][d]) ==>
      && Frame(mem[dir][d]) in owner && owner[Frame(mem[dir][d])] == Table(d)
      && Flags(mem[dir][d]) == WRITABLE + USER + 1
  }

  ghost predicate PteOk(mem: seq<Page>, dir: nat, owner: map<nat, Role>, v: nat)
    requires dir < |mem| && v < NVPN
  {
    var w := Pte(mem, dir, v);
    && (!Present(w) ==> w == 0)
    && (Present(w) && v < KERNVPN ==> Frame(w) in owner && owner[Frame(w)] == User(v))
  }

  /** The directory or table entry that a frame's role says must lead to it does. */
  ghost predicate RoleOk(mem: seq<Page>, dir: nat, owner: map<nat, Role>, f: nat)
    requires dir < |mem| && f in owner
  {
    match owner[f]
    case Dir => f == dir
    case Table(d) => d < ENTRIES && Present(mem[dir][d]) && Frame(mem[dir][d]) == f
    case User(v) => v < KERNVPN && Present(Pte(mem, dir, v)) && Frame(Pte(mem, dir, v)) == f
  }

  /** The frames of `owner` are exactly the directory, the tables and the user pages of the address space at
      `dir`, each in one place. */
  ghost predicate Space(mem: seq<Page>, dir: nat, owner: map<nat, Role>) {
    && dir < |mem| && dir in owner && owner[dir] == Dir
    && (forall f :: f in owner ==> 0 < f < |mem| && RoleOk(mem, dir, owner, f))
    && (forall d :: 0 <= d < ENTRIES ==> PdeOk(mem, dir, owner, d))
    && (forall v :: 0 <= v < NVPN ==> PteOk(mem, dir, owner, v))
  }

  ghost predicate SameTables(mem: seq<Page>, mem2: seq<Page>, owner: map<nat, Role>) {
    |mem2| == |mem| && forall f :: f in owner && f < |mem| && !owner[f].User? ==> mem2[f] == mem[f]
  }

  /** An address space depends on its directory and tables alone. */
  lemma SpaceFrame(mem: seq<Page>, mem2: seq<Page>, dir: nat, owner: map<nat, Role>)
    requires Space(mem, dir, owner) && SameTables(mem, mem2, owner)
    ensures Space(mem2, dir, owner) && forall v :: 0 <= v < NVPN ==> Pte(mem2, dir, v) == Pte(mem, dir, v)
  {
    forall v | 0 <= v < NVPN ensures Pte(mem2, dir, v) == Pte(mem, dir, v) && PteOk(mem2, dir, owner, v) {
      assert PdeOk(mem, dir, owner, v / ENTRIES) && PteOk(mem, dir, owner, v);
    }
    forall d | 0 <= d < ENTRIES ensures PdeOk(mem2, dir, owner, d) {
      assert PdeOk(mem, dir, owner, d);
    }
    forall f | f in owner ensures 0 < f < |mem2| && RoleOk(mem2, dir, owner, f) {
      assert RoleOk(mem, dir, owner, f);
    }
  }

  /** The memory after a new, empty table `t` is hooked into directory entry `d`. */
  function Hooked(mem: seq<Page>, dir: nat, d: nat, t: nat): (r: seq<Page>)
    requires dir < |mem| && t < |mem| && d < ENTRIES
  {
    var m := mem[t := ZeroPage()];
    m[dir := m[dir][d := Entry(t, WRITABLE + USER)]]
  }

  /** A new table maps nothing. */
  lemma AddTable(mem: seq<Page>, dir: nat, owner: map<nat, Role>, d: nat, t: nat)
    requires Space(mem, dir, owner) && d < ENTRIES && !Present(mem[dir][d]) && t !in owner && 0 < t < |mem|
    ensures Space(Hooked(mem, dir, d, t), dir, owner[t := Table(d)])
    ensures forall v :: 0 <= v < NVPN ==> Pte(Hooked(mem, dir, d, t), dir, v) == Pte(mem, dir, v)
  {
    var mem2, owner2 := Hooked(mem, dir, d, t), owner[t := Table(d)];
    forall v | 0 <= v < NVPN ensures Pte(mem2, dir, v) == Pte(mem, dir, v) && PteOk(mem2, dir, owner2, v) {
      assert PdeOk(mem, dir, owner, v / ENTRIES) && PteOk(mem, dir, owner, v);
    }
    forall e | 0 <= e < ENTRIES ensures PdeOk(mem2, dir, owner2, e) {
      assert PdeOk(mem, dir, owner, e);
    }
    forall f | f in owner2 ensures 0 < f < |mem2| && RoleOk(mem2, dir, owner2, f) {
      if f != t { assert RoleOk(mem, dir, owner, f); }
    }
  }

  /** The memory after the entry for `v` is set. */
  function WithPte(mem: seq<Page>, dir: nat, v: nat, w: nat): (r: seq<Page>)
    requires dir < |mem| && v < NVPN && Frame(mem[dir][v / ENTRIES]) < |mem|
  {
    var t := Frame(mem[dir][v / ENTRIES]);
    mem[t := mem[t][v % ENTRIES := w]]
  }

  /** Setting one entry changes what is mapped at that virtual page alone. */
  lemma PteAfterSet(mem: seq<Page>, dir: nat, owner: map<nat, Role>, v: nat, w: nat, u: nat)
    requires Space(mem, dir, owner) && v < NVPN && u < NVPN && Present(mem[dir][v / ENTRIES])
    ensures Frame(mem[dir][v / ENTRIES]) < |mem|
    ensures var r := WithPte(mem, dir, v, w);
      r[dir] == mem[dir] && Pte(r, dir, u) == if u == v then w else Pte(mem, dir, u)
  {
    assert PdeOk(mem, dir, owner, v / ENTRIES) && PdeOk(mem, dir, owner, u / ENTRIES);
    assert u == u / ENTRIES * ENTRIES + u % ENTRIES && v == v / ENTRIES * ENTRIES + v % ENTRIES;
  }

  /** Mapping a kernel page. */
  lemma MapKernel(mem: seq<Page>, dir: nat, owner: map<nat, Role>, v: nat, w: nat)
    requires Space(mem, dir, owner) && KERNVPN <= v < NVPN && Present(mem[dir][v / ENTRIES]) && Present(w)
    requires Frame(mem[dir][v / ENTRIES]) < |mem|
    ensures Space(WithPte(mem, dir, v, w), dir, owner)
  {
    var r := WithPte(mem, dir, v, w);
    forall u | 0 <= u < NVPN ensures PteOk(r, dir, owner, u) {
      PteAfterSet(mem, dir, owner, v, w, u);
      assert PteOk(mem, dir, owner, u);
    }
    PteAfterSet(mem, dir, owner, v, w, v);
    forall d | 0 <= d < ENTRIES ensures PdeOk(r, dir, owner, d) { assert PdeOk(mem, dir, owner, d); }
    forall f | f in owner ensures 0 < f < |r| && RoleOk(r, dir, owner, f) {
      assert RoleOk(mem, dir, owner, f);
      if owner[f].User? { PteAfterSet(mem, dir, owner, v, w, owner[f].v); }
    }
  }

  /** Mapping a frame of no one's at an unmapped user page gives it to the address space. */
  lemma MapUser(mem: seq<Page>, dir: nat, owner: map<nat, Role>, v: nat, f: nat, flags: nat)
    requires Space(mem, dir, owner) && v < KERNVPN && Present(mem[dir][v / ENTRIES]) && Pte(mem, dir, v) == 0
    requires f !in owner && 0 < f < |mem| && flags < PGSIZE && Frame(mem[dir][v / ENTRIES]) < |mem|
    ensures Space(WithPte(mem, dir, v, Entry(f, flags)), dir, owner[f := User(v)])
  {
    var w, owner2 := Entry(f, flags), owner[f := User(v)];
    var r := WithPte(mem, dir, v, w);
    forall u | 0 <= u < NVPN ensures PteOk(r, dir, owner2, u) {
      PteAfterSet(mem, dir, owner, v, w, u);
      assert PteOk(mem, dir, owner, u);
    }
    PteAfterSet(mem, dir, owner, v, w, v);
    forall d | 0 <= d < ENTRIES ensures PdeOk(r, dir, owner2, d) { assert PdeOk(mem, dir, owner, d); }
    forall g | g in owner2 ensures 0 < g < |r| && RoleOk(r, dir, owner2, g) {
      if g != f {
        assert RoleOk(mem, dir, owner, g);
        if owner[g].User? { PteAfterSet(mem, dir, owner, v, w, owner[g].v); }
      }
    }
  }

  /** Clearing the entry of a mapped user page takes its frame, and nothing else, from the address space. */
  lemma UnmapUser(mem: seq<Page>, dir: nat, owner: map<nat, Role>, v: nat)
    requires Space(mem, dir, owner) && v < KERNVPN && Present(Pte(mem, dir, v))
    ensures Present(mem[dir][v / ENTRIES]) && Frame(mem[dir][v / ENTRIES]) < |mem|
    ensures var f := Frame(Pte(mem, dir, v));
      f in owner && owner[f] == User(v) && Space(WithPte(mem, dir, v, 0), dir, owner - {f})
  {
    var f := Frame(Pte(mem, dir, v));
    assert PteOk(mem, dir, owner, v);
    var r, owner2 := WithPte(mem, dir, v, 0), owner - {f};
    forall u | 0 <= u < NVPN ensures PteOk(r, dir, owner2, u) {
      PteAfterSet(mem, dir, owner, v, 0, u);
      assert PteOk(mem, dir, owner, u);
    }
    PteAfterSet(mem, dir, owner, v, 0, v);
    forall d | 0 <= d < ENTRIES ensures PdeOk(r, dir, owner2, d) { assert PdeOk(mem, dir, owner, d); }
    forall g | g in owner2 ensures 0 < g < |r| && RoleOk(r, dir, owner2, g) {
      assert RoleOk(mem, dir, owner, g);
      if owner[g].User? { PteAfterSet(mem, dir, owner, v, 0, owner[g].v); }
    }
  }
}
