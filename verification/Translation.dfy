/** What the processor makes of a virtual address: the entries of both levels decide. */
module Translation {
  import opened PageTables

  /** The physical address, and whether it may be written and whether user code may use it. */
  datatype View = Fault | At(addr: nat, write: bool, user: bool)

  /** The ten highest bits of the address choose a directory entry, the next ten a table entry. Bit 0 of an entry says
      that it is present, bit 1 that writing is allowed, bit 2 that users are; both entries must say so. */
  function Translate(mem: seq<Page>, dir: nat, va: nat): (v: View)
    requires dir < |mem| && va < 0x1_0000_0000
  {
    var pde := mem[dir][va / 0x40_0000];
    if pde % 2 == 0 || pde / 4096 >= |mem| then Fault
    else
      var pte := mem[pde / 4096][va / 4096 % 1024];
      if pte % 2 == 0 then Fault
      else At(pte / 4096 * 4096 + va % 4096, pde / 2 % 2 == 1 && pte / 2 % 2 == 1, pde / 4 % 2 == 1 && pte / 4 % 2 == 1)
  }

  /** What an entry alone allows. */
  function ViewOf(w: nat, va: nat): (v: View) {
    if w % 2 == 0 then Fault else At(w / 4096 * 4096 + va % 4096, w / 2 % 2 == 1, w / 4 % 2 == 1)
  }

  /** Directory entries of an address space allow everything, so that table entries decide. */
  lemma TableDecides(mem: seq<Page>, dir: nat, owner: map<nat, Role>, va: nat)
    requires Space(mem, dir, owner) && va < 0x1_0000_0000
    ensures va / 4096 < NVPN && Translate(mem, dir, va) == ViewOf(Pte(mem, dir, va / 4096), va)
  {
    var v := va / 4096;
    assert v / 1024 == va / 0x40_0000 && PdeOk(mem, dir, owner, v / 1024);
    var pde := mem[dir][v / 1024];
    if pde % 2 == 1 {
      assert pde % 4096 == 7;
      assert pde / 2 % 2 == 1 && pde / 4 % 2 == 1 by { LowBits(pde); }
    }
  }

  lemma LowBits(w: nat)
    requires w % 4096 == 7
    ensures w / 2 % 2 == 1 && w / 4 % 2 == 1
  {
    assert w == w / 4096 * 4096 + 7;
  }

  /** The kernel's half of every address space, and nothing below it: I/O space, the kernel's text, which is read only,
      its data and the memory it manages, and the devices. None of it is for users. */
  function KernelView(data: nat, va: nat): (v: View) {
    if 0x8000_0000 <= va < 0x8010_0000 then At(va - 0x8000_0000, true, false)
    else if 0x8010_0000 <= va < 0x8000_0000 + data then At(va - 0x8000_0000, false, false)
    else if 0x8000_0000 + data <= va < 0x8E00_0000 then At(va - 0x8000_0000, true, false)
    else if 0xFE00_0000 <= va then At(va, true, false)
    else Fault
  }

  ghost predicate SeesKernel(mem: seq<Page>, dir: nat, data: nat)
    requires dir < |mem|
  {
    forall va: nat :: va < 0x1_0000_0000 ==> Translate(mem, dir, va) == KernelView(data, va)
  }

  /** From `mem` to `mem2` the bytes from `a` up to `b` have become zeroed memory that users may write, and every other
      address is what it was. */
  ghost predicate GainsZeroed(mem: seq<Page>, mem2: seq<Page>, dir: nat, a: nat, b: nat)
    requires dir < |mem| && dir < |mem2|
  {
    forall va: nat :: va < 0x1_0000_0000 ==>
      if a <= va < b then ZeroedAt(mem2, dir, va) else Translate(mem2, dir, va) == Translate(mem, dir, va)
  }

  ghost predicate ZeroedAt(mem: seq<Page>, dir: nat, va: nat)
    requires dir < |mem| && va < 0x1_0000_0000
  {
    var v := Translate(mem, dir, va);
    v.At? && v.write && v.user && v.addr / 4096 < |mem| && v.addr % 4096 == va % 4096
    && forall i :: 0 <= i < 1024 ==> mem[v.addr / 4096][i] == 0
  }

  /** From `mem` to `mem2` the bytes from `a` up to `b` are gone, and every other address is what it was. */
  ghost predicate Loses(mem: seq<Page>, mem2: seq<Page>, dir: nat, a: nat, b: nat)
    requires dir < |mem| && dir < |mem2|
  {
    forall va: nat :: va < 0x1_0000_0000 ==>
      Translate(mem2, dir, va) == if a <= va < b then Fault else Translate(mem, dir, va)
  }

  ghost predicate SameView(mem: seq<Page>, mem2: seq<Page>, dir: nat)
    requires dir < |mem| && dir < |mem2|
  {
    forall va: nat :: va < 0x1_0000_0000 ==> Translate(mem2, dir, va) == Translate(mem, dir, va)
  }

  /** The child `d` sees below `b` copies, on frames of its own, of what the parent sees, with the same rights, and the
      kernel above. */
  ghost predicate Copies(mem: seq<Page>, dir: nat, d: nat, b: nat, data: nat)
    requires dir < |mem| && d < |mem|
  {
    forall va: nat :: va < 0x1_0000_0000 ==>
      if va < b then CopiedByte(mem, dir, d, va) else Translate(mem, d, va) == KernelView(data, va)
  }

  ghost predicate CopiedByte(mem: seq<Page>, dir: nat, d: nat, va: nat)
    requires dir < |mem| && d < |mem| && va < 0x1_0000_0000
  {
    var x, y := Translate(mem, dir, va), Translate(mem, d, va);
    && x.At? && y.At? && y.write == x.write && y.user == x.user && x.addr % 4096 == y.addr % 4096 == va % 4096
    && x.addr / 4096 < |mem| && y.addr / 4096 < |mem| && x.addr / 4096 != y.addr / 4096
    && mem[y.addr / 4096] == mem[x.addr / 4096]
  }

  // ---------- from entries to addresses ----------

  lemma SameEntries(mem: seq<Page>, mem2: seq<Page>, dir: nat, owner: map<nat, Role>, owner2: map<nat, Role>)
    requires Space(mem, dir, owner) && Space(mem2, dir, owner2)
    requires forall u :: 0 <= u < NVPN ==> Pte(mem2, dir, u) == Pte(mem, dir, u)
    ensures SameView(mem, mem2, dir)
  {
    hide Space, Pte, Translate;
    assert dir < |mem| && dir < |mem2| by { SpaceDir(mem, dir, owner); SpaceDir(mem2, dir, owner2); }
    forall va: nat | va < 0x1_0000_0000 ensures Translate(mem2, dir, va) == Translate(mem, dir, va) {
      TableDecides(mem, dir, owner, va);
      TableDecides(mem2, dir, owner2, va);
    }
  }

  lemma SpaceDir(mem: seq<Page>, dir: nat, owner: map<nat, Role>)
    requires Space(mem, dir, owner)
    ensures dir < |mem|
  {
  }

  lemma LostEntries(mem: seq<Page>, mem2: seq<Page>, dir: nat, owner: map<nat, Role>, owner2: map<nat, Role>,
                    v: nat, w: nat)
    requires Space(mem, dir, owner) && Space(mem2, dir, owner2) && dir < |mem| && dir < |mem2|
    requires forall u :: 0 <= u < NVPN ==> Pte(mem2, dir, u) == if v <= u < w then 0 else Pte(mem, dir, u)
    ensures Loses(mem, mem2, dir, v * 4096, w * 4096)
  {
    hide Space, Pte, Translate;
    forall va: nat | va < 0x1_0000_0000
      ensures Translate(mem2, dir, va) == if v * 4096 <= va < w * 4096 then Fault else Translate(mem, dir, va)
    {
      TableDecides(mem, dir, owner, va);
      TableDecides(mem2, dir, owner2, va);
    }
  }
}
