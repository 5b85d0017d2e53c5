/** umalloc.c: the storage allocator of section 8.7 of The C Programming Language, second edition.
    Addresses and sizes count units of one header. */
module Heap {
  import opened Indexing

  const MIN_GROWTH := 4096
  const HEADER := 8
  const WORD := 0x1_0000_0000
  const SIGN := 0x8000_0000          // a 32-bit word from here on is negative as an int
  const KERNBASE := 0x8000_0000      // processes are smaller

  datatype Block = Block(at: nat, size: nat)

  function End(b: Block): (e: nat) {
    b.at + b.size
  }

  /** The free list: address ordered, starting with the empty static header, fully coalesced. */
  ghost predicate Listed(s: seq<Block>) {
    && s != [] && s[0].size == 0
    && (forall i :: 0 < i < |s| ==> s[i].size > 0)
    && (forall i, j :: 0 <= i < j < |s| ==> End(s[i]) < s[j].at)
  }

  /** The fields of the header of entry `i`; the last entry points to the first. */
  ghost predicate LinkAt(s: seq<Block>, i: nat, ptr: map<nat, nat>, size: map<nat, nat>)
    requires i < |s|
  {
    s[i].at in size && size[s[i].at] == s[i].size && s[i].at in ptr && ptr[s[i].at] == s[Next(|s|, i)].at
  }

  /** The headers in memory are those of the list and point to each other in a circle. */
  ghost predicate Linked(s: seq<Block>, ptr: map<nat, nat>, size: map<nat, nat>) {
    forall i :: 0 <= i < |s| ==> LinkAt(s, i, ptr, size)
  }

  ghost function Units(s: seq<Block>): (u: set<nat>) {
    if s == [] then {} else Range(s[0].at, s[0].size) + Units(s[1..])
  }

  ghost function LiveUnits(live: map<nat, nat>): (u: set<nat>) {
    set a, x | a in live && x in Range(a, live[a]) :: x
  }

  /** Where a block at `bp` belongs: the last list entry below it. */
  ghost function Pos(s: seq<Block>, bp: nat): (t: nat)
    requires s != [] && s[0].at < bp
    ensures t < |s| && s[t].at < bp
    ensures t + 1 < |s| ==> bp <= s[t + 1].at
  {
    if |s| == 1 || s[1].at >= bp then 0 else 1 + Pos(s[1..], bp)
  }

  ghost predicate TouchesNext(s: seq<Block>, b: Block, t: nat)
    requires t < |s|
  {
    t + 1 < |s| && End(b) == s[t + 1].at
  }

  ghost predicate TouchesPrevious(s: seq<Block>, b: Block, t: nat)
    requires t < |s|
  {
    End(s[t]) == b.at
  }

  /** The free block that results from returning `b` after entry `t`. */
  ghost function Joined(s: seq<Block>, b: Block, t: nat): (j: Block)
    requires t < |s|
  {
    Block(if TouchesPrevious(s, b, t) then s[t].at else b.at,
          (if TouchesPrevious(s, b, t) then s[t].size else 0) + b.size
            + (if TouchesNext(s, b, t) then s[t + 1].size else 0))
  }

  /** `s` with entries `lo` to `hi` replaced by `j`. */
  ghost function Spliced(s: seq<Block>, lo: nat, hi: nat, j: Block): (r: seq<Block>)
    requires lo <= hi <= |s|
  {
    s[..lo] + [j] + s[hi..]
  }

  ghost function Inserted(s: seq<Block>, b: Block, t: nat): (r: seq<Block>)
    requires t < |s|
  {
    Spliced(s, if TouchesPrevious(s, b, t) then t else t + 1, if TouchesNext(s, b, t) then t + 2 else t + 1,
            Joined(s, b, t))
  }

  /** The list after taking `n` units from the tail of entry `k`. */
  ghost function Taken(s: seq<Block>, k: nat, n: nat): (r: seq<Block>)
    requires k < |s| && n <= s[k].size
  {
    if s[k].size == n then s[..k] + s[k + 1..] else s[k := Block(s[k].at, s[k].size - n)]
  }

  // Facts about lists

  lemma {:induction false} UnitsConcat(a: seq<Block>, b: seq<Block>)
    ensures Units(a + b) == Units(a) + Units(b)
  {
    if a == [] {
      assert a + b == b;
    } else {
      UnitsConcat(a[1..], b);
      assert (a + b)[1..] == a[1..] + b;
    }
  }

  lemma {:induction false} UnitsOf(s: seq<Block>, i: nat, x: nat)
    requires i < |s| && In(x, s[i].at, s[i].size)
    ensures x in Units(s)
  {
    if i > 0 { UnitsOf(s[1..], i - 1, x); }
  }

  lemma {:induction false} UnitsWithin(s: seq<Block>, x: nat) returns (i: nat)
    requires x in Units(s)
    ensures i < |s| && In(x, s[i].at, s[i].size)
  {
    if In(x, s[0].at, s[0].size) {
      i := 0;
    } else {
      i := UnitsWithin(s[1..], x);
      i := i + 1;
    }
  }

  lemma RangeJoin(a: nat, m: nat, n: nat)
    ensures Range(a, m + n) == Range(a, m) + Range(a + m, n)
  {
    assert forall x :: In(x, a, m + n) <==> In(x, a, m) || In(x, a + m, n);
  }

  /** Blocks with no unit in common do not overlap. */
  lemma Apart(a: Block, b: Block)
    requires a.size > 0 && b.size > 0 && Range(a.at, a.size) !! Range(b.at, b.size)
    ensures End(a) <= b.at || End(b) <= a.at
  {
    var x := if a.at < b.at then b.at else a.at;
    assert !(x in Range(a.at, a.size) && x in Range(b.at, b.size));
    assert !(In(x, a.at, a.size) && In(x, b.at, b.size));
  }

  lemma ApartFromList(s: seq<Block>, b: Block, i: nat)
    requires i < |s| && s[i].size > 0 && b.size > 0 && Range(b.at, b.size) !! Units(s)
    ensures End(b) <= s[i].at || End(s[i]) <= b.at
  {
    forall x | x in Range(s[i].at, s[i].size) ensures x in Units(s) { UnitsOf(s, i, x); }
    Apart(b, s[i]);
  }

  /** A block outside the list lies between its position and the next entry. */
  lemma Between(s: seq<Block>, b: Block)
    requires Listed(s) && s[0].at < b.at && b.size > 0 && Range(b.at, b.size) !! Units(s)
    ensures var t := Pos(s, b.at); End(s[t]) <= b.at && (t + 1 < |s| ==> End(b) <= s[t + 1].at)
  {
    var t := Pos(s, b.at);
    if t > 0 { ApartFromList(s, b, t); }
    if t + 1 < |s| { ApartFromList(s, b, t + 1); }
  }

  lemma SplicedListed(s: seq<Block>, lo: nat, hi: nat, j: Block)
    requires Listed(s) && 0 < lo <= hi <= |s| && j.size > 0
    requires End(s[lo - 1]) < j.at && (hi < |s| ==> End(j) < s[hi].at)
    ensures Listed(Spliced(s, lo, hi, j)) && Spliced(s, lo, hi, j)[0] == s[0]
  {
    var r := Spliced(s, lo, hi, j);
    forall i, k | 0 <= i < k < |r| ensures End(r[i]) < r[k].at {
      assert i < lo ==> r[i] == s[i];
      assert k > lo ==> r[k] == s[k - 1 - lo + hi];
      assert i > lo ==> r[i] == s[i - 1 - lo + hi];
    }
  }

  /** Returning a block keeps the list ordered and coalesced. */
  lemma InsertedListed(s: seq<Block>, b: Block)
    requires Listed(s) && s[0].at < b.at && b.size > 0 && Range(b.at, b.size) !! Units(s)
    ensures var r := Inserted(s, b, Pos(s, b.at)); Listed(r) && r[0] == s[0]
  {
    assert s != [];
    hide Spliced, Pos, Joined, Listed;
    var t := Pos(s, b.at);
    Between(s, b);
    JoinedBetween(s, b, t);
    SplicedListed(s, if TouchesPrevious(s, b, t) then t else t + 1, if TouchesNext(s, b, t) then t + 2 else t + 1,
                  Joined(s, b, t));
  }

  /** The joined block touches neither of the entries around it. */
  lemma JoinedBetween(s: seq<Block>, b: Block, t: nat)
    requires Listed(s) && t < |s| && s[0].at < b.at && b.size > 0
    requires End(s[t]) <= b.at && (t + 1 < |s| ==> End(b) <= s[t + 1].at)
    ensures var j := Joined(s, b, t);
            var lo := if TouchesPrevious(s, b, t) then t else t + 1;
            var hi := if TouchesNext(s, b, t) then t + 2 else t + 1;
            0 < lo <= hi <= |s| && j.size > 0 && End(s[lo - 1]) < j.at && (hi < |s| ==> End(j) < s[hi].at)
  {
  }

  lemma Split3(s: seq<Block>, t: nat)
    requires t < |s|
    ensures Units(s) == Units(s[..t]) + Range(s[t].at, s[t].size) + Units(s[t + 1..])
    ensures Units(s[t..]) == Range(s[t].at, s[t].size) + Units(s[t + 1..])
  {
    assert s == s[..t] + s[t..];
    UnitsConcat(s[..t], s[t..]);
    assert s[t..][1..] == s[t + 1..];
  }

  lemma JoinedUnits(s: seq<Block>, b: Block, t: nat)
    requires t < |s|
    ensures var j := Joined(s, b, t);
      Range(j.at, j.size) ==
        (if TouchesPrevious(s, b, t) then Range(s[t].at, s[t].size) else {}) + Range(b.at, b.size)
        + (if TouchesNext(s, b, t) then Range(s[t + 1].at, s[t + 1].size) else {})
  {
    var p := if TouchesPrevious(s, b, t) then s[t].size else 0;
    var n := if TouchesNext(s, b, t) then s[t + 1].size else 0;
    var j := Joined(s, b, t);
    RangeJoin(j.at, p, b.size);
    RangeJoin(j.at, p + b.size, n);
  }

  lemma SplicedUnits(s: seq<Block>, lo: nat, hi: nat, j: Block)
    requires lo <= hi <= |s|
    ensures Units(Spliced(s, lo, hi, j)) == Units(s[..lo]) + Range(j.at, j.size) + Units(s[hi..])
  {
    var r := Spliced(s, lo, hi, j);
    Split3(r, lo);
    assert r[..lo] == s[..lo] && r[lo + 1..] == s[hi..];
  }

  /** Returning a block adds exactly its units to the list. */
  lemma InsertedUnits(s: seq<Block>, b: Block, t: nat)
    requires t < |s|
    ensures Units(Inserted(s, b, t)) == Units(s) + Range(b.at, b.size)
  {
    hide Spliced, Units, Joined, Range, TouchesPrevious;
    SplicedUnits(s, if TouchesPrevious(s, b, t) then t else t + 1, if TouchesNext(s, b, t) then t + 2 else t + 1,
                 Joined(s, b, t));
    JoinedUnits(s, b, t);
    Split3(s, t);
    Upto(s, t);
    if t + 1 < |s| { From(s, t); }
  }

  lemma Upto(s: seq<Block>, t: nat)
    requires t < |s|
    ensures Units(s[..t + 1]) == Units(s[..t]) + Range(s[t].at, s[t].size)
  {
    assert s[..t + 1] == s[..t] + [s[t]];
    UnitsConcat(s[..t], [s[t]]);
  }

  lemma From(s: seq<Block>, t: nat)
    requires t + 1 < |s|
    ensures Units(s[t + 1..]) == Range(s[t + 1].at, s[t + 1].size) + Units(s[t + 2..])
  {
    assert s[t + 1..][1..] == s[t + 2..];
  }

  lemma TakenListed(s: seq<Block>, k: nat, n: nat)
    requires Listed(s) && 0 < k < |s| && 0 < n <= s[k].size
    ensures Listed(Taken(s, k, n)) && Taken(s, k, n)[..k] == s[..k] && |Taken(s, k, n)| >= k
  {
  }

  /** The units a block of the list has, no other block of the list has. */
  lemma OnlyIn(s: seq<Block>, k: nat)
    requires Listed(s) && k < |s|
    ensures Range(s[k].at, s[k].size) !! Units(s[..k])
    ensures Range(s[k].at, s[k].size) !! Units(s[k + 1..])
  {
    forall x | x in Units(s[..k]) ensures x !in Range(s[k].at, s[k].size) {
      var i := UnitsWithin(s[..k], x);
    }
    forall x | x in Units(s[k + 1..]) ensures x !in Range(s[k].at, s[k].size) {
      var i := UnitsWithin(s[k + 1..], x);
    }
  }

  /** Taking the tail of a block removes exactly those units from the list. */
  lemma TakenUnits(s: seq<Block>, k: nat, n: nat)
    requires Listed(s) && k < |s| && 0 < n <= s[k].size
    ensures Units(Taken(s, k, n)) == Units(s) - Range(End(s[k]) - n, n)
    ensures Range(End(s[k]) - n, n) <= Units(s)
  {
    hide Units, Taken, Range, Listed;
    var rest := s[k].size - n;
    TakenShape(s, k, n);
    Split3(s, k);
    OnlyIn(s, k);
    RangeJoin(s[k].at, rest, n);
    RangeApart(s[k].at, rest, n);
    hide *;
  }

  lemma TakenShape(s: seq<Block>, k: nat, n: nat)
    requires k < |s| && 0 < n <= s[k].size
    ensures Units(Taken(s, k, n)) == Units(s[..k]) + Range(s[k].at, s[k].size - n) + Units(s[k + 1..])
  {
    var r := Taken(s, k, n);
    if s[k].size == n {
      UnitsConcat(s[..k], s[k + 1..]);
      assert Range(s[k].at, 0) == {};
    } else {
      Split3(r, k);
      assert r[..k] == s[..k] && r[k + 1..] == s[k + 1..];
    }
  }

  lemma RangeApart(a: nat, m: nat, n: nat)
    ensures Range(a, m) !! Range(a + m, n)
  {
    forall x | x in Range(a, m) ensures x !in Range(a + m, n) { assert In(x, a, m); }
  }

  lemma {:induction false} PosIs(s: seq<Block>, b: nat, t: nat)
    requires t < |s| && (forall i, j :: 0 <= i < j < |s| ==> s[i].at < s[j].at)
    requires s[t].at < b && (t + 1 < |s| ==> b <= s[t + 1].at)
    ensures s[0].at < b && Pos(s, b) == t
  {
    if t > 0 { PosIs(s[1..], b, t - 1); }
  }

  lemma TakenPos(s: seq<Block>, k: nat, n: nat)
    requires Listed(s) && 0 < k < |s| && 0 < n <= s[k].size
    ensures var a, r := End(s[k]) - n, Taken(s, k, n);
      r != [] && r[0].at < a && Pos(r, a) == if s[k].size == n then k - 1 else k
  {
    TakenListed(s, k, n);
    var a, r, t := End(s[k]) - n, Taken(s, k, n), if s[k].size == n then k - 1 else k;
    assert r[t].at < a && (t + 1 < |r| ==> a <= r[t + 1].at);
    assert forall i, j :: 0 <= i < j < |r| ==> r[i].at < r[j].at;
    hide *;
    PosIs(r, a, t);
  }

  lemma UntakeWhole(s: seq<Block>, k: nat)
    requires Listed(s) && 0 < k < |s|
    ensures Inserted(Taken(s, k, s[k].size), s[k], k - 1) == s
  {
    var r := Taken(s, k, s[k].size);
    assert !TouchesPrevious(r, s[k], k - 1) && !TouchesNext(r, s[k], k - 1) && Joined(r, s[k], k - 1) == s[k];
    assert Spliced(r, k, k, s[k]) == s;
  }

  lemma UntakePart(s: seq<Block>, k: nat, n: nat)
    requires Listed(s) && 0 < k < |s| && 0 < n < s[k].size
    ensures Inserted(Taken(s, k, n), Block(End(s[k]) - n, n), k) == s
  {
    var r, b := Taken(s, k, n), Block(End(s[k]) - n, n);
    assert TouchesPrevious(r, b, k) && !TouchesNext(r, b, k) && Joined(r, b, k) == s[k];
    assert Spliced(r, k, k + 1, s[k]) == s;
  }

  /** Freeing what was just allocated gives back the very same list: the pieces join again. */
  lemma FreeUndoesTake(s: seq<Block>, k: nat, n: nat)
    requires Listed(s) && 0 < k < |s| && 0 < n <= s[k].size
    ensures var a, r := End(s[k]) - n, Taken(s, k, n);
      r != [] && r[0].at < a && Inserted(r, Block(a, n), Pos(r, a)) == s
  {
    TakenPos(s, k, n);
    if n == s[k].size { UntakeWhole(s, k); } else { UntakePart(s, k, n); }
  }

  // Facts about live blocks

  ghost predicate Separate(live: map<nat, nat>) {
    forall a, b :: a in live && b in live && a != b ==> Range(a, live[a]) !! Range(b, live[b])
  }

  lemma LiveUnitsAdd(live: map<nat, nat>, a: nat, n: nat)
    requires a !in live
    ensures LiveUnits(live[a := n]) == LiveUnits(live) + Range(a, n)
  {
    var r := live[a := n];
    forall x | x in LiveUnits(r) ensures x in LiveUnits(live) + Range(a, n) {
      var b :| b in r && x in Range(b, r[b]);
      assert b != a ==> b in live && live[b] == r[b];
    }
    forall x | x in LiveUnits(live) + Range(a, n) ensures x in LiveUnits(r) {
      if x in LiveUnits(live) {
        var b :| b in live && x in Range(b, live[b]);
        assert b in r && r[b] == live[b];
      } else {
        assert a in r && r[a] == n;
      }
    }
  }

  lemma LiveUnitsRemove(live: map<nat, nat>, a: nat)
    requires a in live && Separate(live)
    ensures LiveUnits(live - {a}) == LiveUnits(live) - Range(a, live[a])
  {
    var r := live - {a};
    forall x | x in LiveUnits(r) ensures x in LiveUnits(live) - Range(a, live[a]) {
      var b :| b in r && x in Range(b, r[b]);
      assert b in live && b != a && live[b] == r[b];
    }
    forall x | x in LiveUnits(live) - Range(a, live[a]) ensures x in LiveUnits(r) {
      var b :| b in live && x in Range(b, live[b]);
      assert b in r && r[b] == live[b];
    }
  }

  // The allocator

  /** Everything the allocator relies on: the free list, and the live blocks, divide the units got from sbrk. */
  ghost predicate Divided(base: nat, brk: nat, list: seq<Block>, live: map<nat, nat>, got: set<nat>) {
    && Listed(list) && list[0].at == base
    && (forall a :: a in live ==> live[a] > 0) && Separate(live)
    && Units(list) !! LiveUnits(live) && got == Units(list) + LiveUnits(live)
    && (forall x :: x in got ==> base < x < brk)
  }

  ghost predicate Headed(live: map<nat, nat>, size: map<nat, nat>) {
    forall a :: a in live ==> a in size && size[a] == live[a]
  }

  /** Some entry of the list is at `p`. */
  ghost predicate At(list: seq<Block>, p: nat) {
    exists i :: 0 <= i < |list| && list[i].at == p
  }

  ghost predicate Fits(list: seq<Block>, n: nat) {
    exists i :: 0 <= i < |list| && list[i].size >= n
  }

  lemma LiveAbove(base: nat, brk: nat, list: seq<Block>, live: map<nat, nat>, got: set<nat>, a: nat)
    requires Divided(base, brk, list, live, got) && a in live
    ensures base < a && a in LiveUnits(live) && a in got
    ensures Range(a, live[a]) !! Units(list) && Range(a, live[a]) <= LiveUnits(live)
  {
    assert a in Range(a, live[a]);
    assert a in LiveUnits(live);
  }

  /** Freeing a live block moves its units to the list and keeps the division. */
  lemma FreeDivides(base: nat, brk: nat, list: seq<Block>, live: map<nat, nat>, got: set<nat>, a: nat)
    requires Divided(base, brk, list, live, got) && a in live
    ensures base < a
    ensures Divided(base, brk, Inserted(list, Block(a, live[a]), Pos(list, a)), live - {a}, got)
  {
    var b := Block(a, live[a]);
    LiveAbove(base, brk, list, live, got, a);
    InsertedListed(list, b);
    hide Listed;
    InsertedUnits(list, b, Pos(list, a));
    LiveUnitsRemove(live, a);
    hide Inserted, Pos, Units, LiveUnits, Range;
    var r := live - {a};
    assert Separate(r) by {
      forall x, y | x in r && y in r && x != y ensures Range(x, r[x]) !! Range(y, r[y]) {
        assert x in live && y in live && r[x] == live[x] && r[y] == live[y];
      }
    }
  }

  /** Allocating the tail of an entry moves its units out of the list and keeps the division. */
  lemma TakeDivides(base: nat, brk: nat, list: seq<Block>, live: map<nat, nat>, got: set<nat>, k: nat, n: nat)
    requires Divided(base, brk, list, live, got) && 0 < k < |list| && 0 < n <= list[k].size
    ensures var a := End(list[k]) - n;
      a !in live && Range(a, n) <= Units(list) && Divided(base, brk, Taken(list, k, n), live[a := n], got)
  {
    var a := End(list[k]) - n;
    TakenListed(list, k, n);
    TakenUnits(list, k, n);
    assert a in Range(a, n);
    if a in live { LiveAbove(base, brk, list, live, got, a); }
    LiveUnitsAdd(live, a, n);
    var r := live[a := n];
    assert Separate(r) by {
      forall x, y | x in r && y in r && x != y ensures Range(x, r[x]) !! Range(y, r[y]) {
        if x != a { LiveAbove(base, brk, list, live, got, x); }
        if y != a { LiveAbove(base, brk, list, live, got, y); }
      }
    }
  }

  /** A fresh region above the break can be handed out as one live block. */
  lemma GrowDivides(base: nat, brk: nat, list: seq<Block>, live: map<nat, nat>, got: set<nat>, a: nat, n: nat)
    requires Divided(base, brk, list, live, got) && base < brk <= a && n > 0
    ensures a !in live && Range(a, n) !! got && Divided(base, a + n, list, live[a := n], got + Range(a, n))
  {
    assert forall x :: x in Range(a, n) ==> x !in got;
    if a in live { LiveAbove(base, brk, list, live, got, a); }
    LiveUnitsAdd(live, a, n);
    var r := live[a := n];
    assert Separate(r) by {
      forall x, y | x in r && y in r && x != y ensures Range(x, r[x]) !! Range(y, r[y]) {
        if x != a { LiveAbove(base, brk, list, live, got, x); }
        if y != a { LiveAbove(base, brk, list, live, got, y); }
      }
    }
  }

  /** The test in the search of free: it stops exactly at the block's position. */
  lemma StopsAtPos(s: seq<Block>, b: nat, i: nat)
    requires Listed(s) && s[0].at < b && i < |s| && (forall j :: 0 <= j < |s| ==> s[j].at != b)
    ensures var p, q := s[i].at, s[Next(|s|, i)].at;
      ((p < b < q) || (p >= q && (b > p || b < q))) <==> i == Pos(s, b)
  {
    var t := Pos(s, b);
  }

  /** A live block's header is no header of the list. */
  lemma LiveNotListed(base: nat, brk: nat, list: seq<Block>, live: map<nat, nat>, got: set<nat>, a: nat)
    requires Divided(base, brk, list, live, got) && a in live
    ensures forall i :: 0 <= i < |list| ==> list[i].at != a
  {
    LiveAbove(base, brk, list, live, got, a);
    forall i | 0 <= i < |list| ensures list[i].at != a {
      if list[i].at == a { assert In(a, a, live[a]); UnitsOf(list, i, a); }
    }
  }

  /** The pointer surgery of free, on the header fields. */
  ghost function FreedPtr(ptr: map<nat, nat>, size: map<nat, nat>, p: nat, b: nat): (r: map<nat, nat>)
    requires p in ptr && p in size && b in size && ptr[p] in ptr
  {
    var ptr := ptr[b := if b + size[b] == ptr[p] then ptr[ptr[p]] else ptr[p]];
    ptr[p := if p + size[p] == b then ptr[b] else b]
  }

  ghost function FreedSize(ptr: map<nat, nat>, size: map<nat, nat>, p: nat, b: nat): (r: map<nat, nat>)
    requires p in ptr && p in size && b in size && ptr[p] in size
  {
    var size := if b + size[b] == ptr[p] then size[b := size[b] + size[ptr[p]]] else size;
    if p + size[p] == b then size[p := size[p] + size[b]] else size
  }

  /** The headers of entries `lo` to `hi` have fields as in `ptr` and `size`. */
  ghost predicate Kept(s: seq<Block>, lo: int, hi: int, ptr: map<nat, nat>, size: map<nat, nat>, p: map<nat, nat>,
                       z: map<nat, nat>) {
    forall i :: 0 <= lo <= i < hi <= |s| ==>
      && s[i].at in p && s[i].at in z && s[i].at in ptr && s[i].at in size
      && p[s[i].at] == ptr[s[i].at] && z[s[i].at] == size[s[i].at]
  }

  lemma SplicedLinks(s: seq<Block>, lo: nat, hi: nat, j: Block, ptr: map<nat, nat>, size: map<nat, nat>,
                     p: map<nat, nat>, z: map<nat, nat>)
    requires Linked(s, ptr, size) && 0 < lo <= hi <= |s|
    requires Kept(s, 0, lo - 1, ptr, size, p, z) && Kept(s, hi, |s|, ptr, size, p, z)
    requires var q := s[lo - 1].at; q in p && q in z && p[q] == j.at && z[q] == s[lo - 1].size
    requires j.at in p && j.at in z && z[j.at] == j.size && p[j.at] == (if hi < |s| then s[hi].at else s[0].at)
    ensures Linked(Spliced(s, lo, hi, j), p, z)
  {
    var r := Spliced(s, lo, hi, j);
    forall i | 0 <= i < |r| ensures LinkAt(r, i, p, z) {
      if i < lo - 1 {
        assert LinkAt(s, i, ptr, size);
        assert r[i] == s[i] && r[i + 1].at == if i + 1 < lo then s[i + 1].at else j.at;
      } else if i > lo {
        var k := i - 1 - lo + hi;
        assert LinkAt(s, k, ptr, size);
        assert r[i] == s[k] && r[Next(|r|, i)] == s[Next(|s|, k)];
      }
    }
    assert LinkAt(s, lo - 1, ptr, size);
  }

  /** What the surgery leaves in the fields, `q` being the old successor of `p`. */
  lemma FreedFields(ptr: map<nat, nat>, size: map<nat, nat>, p: nat, b: nat)
    requires p in ptr && p in size && b in size && ptr[p] in ptr && ptr[p] in size && p < b && ptr[p] != b
    requires size[b] > 0
    ensures var q, newPtr, newSize := ptr[p], FreedPtr(ptr, size, p, b), FreedSize(ptr, size, p, b);
      var down, up := p + size[p] == b, b + size[b] == q;
      var j := if down then p else b;
      && j in newPtr && j in newSize && p in newPtr && p in newSize
      && newPtr[j] == (if up then ptr[q] else q)
      && newSize[j] == (if down then size[p] else 0) + size[b] + (if up then size[q] else 0)
      && (!down ==> newPtr[p] == b && newSize[p] == size[p])
    ensures var newPtr, newSize := FreedPtr(ptr, size, p, b), FreedSize(ptr, size, p, b);
      SameBut(ptr, newPtr, p, b) && SameBut(size, newSize, p, b)
  {
  }

  ghost predicate SameBut(m: map<nat, nat>, r: map<nat, nat>, a: nat, b: nat) {
    forall x :: x in m && x != a && x != b ==> x in r && r[x] == m[x]
  }

  lemma KeptOutside(s: seq<Block>, t: nat, lo: nat, hi: nat, b: nat,
                    ptr: map<nat, nat>, size: map<nat, nat>, p: map<nat, nat>, z: map<nat, nat>)
    requires Linked(s, ptr, size) && Listed(s) && t < |s| && (hi <= t || t < lo)
    requires forall i :: 0 <= i < |s| ==> s[i].at != b
    requires SameBut(ptr, p, s[t].at, b) && SameBut(size, z, s[t].at, b)
    ensures Kept(s, lo, hi, ptr, size, p, z)
  {
    forall i | 0 <= lo <= i < hi <= |s|
      ensures s[i].at in p && s[i].at in z && s[i].at in ptr && s[i].at in size && p[s[i].at] == ptr[s[i].at]
      ensures z[s[i].at] == size[s[i].at]
    {
      assert LinkAt(s, i, ptr, size);
    }
  }

  lemma PreviousKept(s: seq<Block>, t: nat, b: nat,
                     ptr: map<nat, nat>, size: map<nat, nat>, p: map<nat, nat>, z: map<nat, nat>)
    requires Linked(s, ptr, size) && Listed(s) && 0 < t < |s|
    requires forall i :: 0 <= i < |s| ==> s[i].at != b
    requires SameBut(ptr, p, s[t].at, b) && SameBut(size, z, s[t].at, b)
    ensures var q := s[t - 1].at; q in p && q in z && p[q] == s[t].at && z[q] == s[t - 1].size
  {
    assert LinkAt(s, t - 1, ptr, size);
  }

  lemma FreedLinks(s: seq<Block>, ptr: map<nat, nat>, size: map<nat, nat>, b: Block, t: nat)
    requires Listed(s) && Linked(s, ptr, size) && b.at in size && size[b.at] == b.size && b.size > 0
    requires t < |s| && s[t].at < b.at && s[0].at < b.at
    requires LinkAt(s, t, ptr, size) && LinkAt(s, Next(|s|, t), ptr, size)
    requires forall i :: 0 <= i < |s| ==> s[i].at != b.at
    ensures Linked(Inserted(s, b, t), FreedPtr(ptr, size, s[t].at, b.at), FreedSize(ptr, size, s[t].at, b.at))
  {
    assert s[0].size == 0;
    hide Spliced, FreedPtr, FreedSize, Kept, SameBut, Listed, Linked;
    var p, z := FreedPtr(ptr, size, s[t].at, b.at), FreedSize(ptr, size, s[t].at, b.at);
    var lo := if TouchesPrevious(s, b, t) then t else t + 1;
    var hi := if TouchesNext(s, b, t) then t + 2 else t + 1;
    FreedFields(ptr, size, s[t].at, b.at);
    KeptOutside(s, t, 0, lo - 1, b.at, ptr, size, p, z);
    KeptOutside(s, t, hi, |s|, b.at, ptr, size, p, z);
    if lo == t { PreviousKept(s, t, b.at, ptr, size, p, z); }
    SplicedLinks(s, lo, hi, Joined(s, b, t), ptr, size, p, z);
  }

  lemma TakenLinks(s: seq<Block>, k: nat, n: nat, ptr: map<nat, nat>, size: map<nat, nat>)
    requires Linked(s, ptr, size) && Listed(s) && 0 < k < |s| && 0 < n < s[k].size
    requires forall i :: 0 <= i < |s| ==> s[i].at != End(s[k]) - n
    ensures Linked(Taken(s, k, n), ptr, size[s[k].at := s[k].size - n][End(s[k]) - n := n])
  {
    var r, z := Taken(s, k, n), size[s[k].at := s[k].size - n][End(s[k]) - n := n];
    forall i | 0 <= i < |r| ensures LinkAt(r, i, ptr, z) {
      assert LinkAt(s, i, ptr, size);
    }
  }

  lemma UnlinkedLinks(s: seq<Block>, k: nat, ptr: map<nat, nat>, size: map<nat, nat>)
    requires Linked(s, ptr, size) && Listed(s) && 0 < k < |s|
    requires LinkAt(s, k, ptr, size)
    ensures Linked(Taken(s, k, s[k].size), ptr[s[k - 1].at := ptr[s[k].at]], size)
  {
    var r, p := Taken(s, k, s[k].size), ptr[s[k - 1].at := ptr[s[k].at]];
    forall i | 0 <= i < |r| ensures LinkAt(r, i, p, size) {
      var j := if i < k then i else i + 1;
      assert LinkAt(s, j, ptr, size);
      assert r[i] == s[j] && (i != k - 1 ==> r[Next(|r|, i)] == s[Next(|s|, j)]);
    }
  }

  /** Header units malloc asks for, in the source's 32-bit arithmetic. */
  function UnitsFor(nbytes: nat): (n: nat)
    requires nbytes < WORD
    ensures 0 < n < WORD
  {
    (nbytes + HEADER - 1) % WORD / HEADER + 1
  }

  /** The block returned is large enough exactly when rounding up does not wrap around. */
  lemma RequestFits(nbytes: nat)
    requires nbytes < WORD
    ensures 8 * (UnitsFor(nbytes) - 1) >= nbytes <==> nbytes <= 0xFFFF_FFF8
    ensures nbytes <= 0xFFFF_FFF8 ==> 8 * (UnitsFor(nbytes) - 2) < nbytes
  {
  }

  /** Units morecore asks sbrk for: as many as are wanted, but 4096 at least. */
  function CoreUnits(nu: nat): (n: nat)
    ensures nu <= n && 4096 <= n && n in {nu, 4096}
  {
    if nu < MIN_GROWTH then MIN_GROWTH else nu
  }

  /** The count that reaches sbrk: a product of 32-bit words, read as an int. */
  function SbrkCount(nu: nat): (c: int)
    ensures -SIGN <= c < SIGN
  {
    var c := HEADER * nu % WORD;
    if c < SIGN then c else c - WORD
  }

  /** sbrk is asked for the whole region. */
  predicate AsksWhole(nu: nat) {
    SbrkCount(CoreUnits(nu)) == HEADER * CoreUnits(nu)
  }

  datatype Growth = Failed | Resized(size: nat)

  /** growproc on a process of `sz` bytes; `mapped` says whether allocuvm found the memory. */
  function GrowProc(sz: nat, n: int, mapped: bool): (g: Growth)
    requires sz < KERNBASE && -SIGN <= n < SIGN
  {
    if n > 0 then
      if sz + n < KERNBASE && mapped then Resized(sz + n) else Failed
    else if n < 0 then
      var newsz := (sz + n) % WORD;
      var r := if newsz >= sz then sz else newsz;
      if r == 0 then Failed else Resized(r)
    else Resized(sz)
  }

  /** A count that is not positive adds nothing, though sbrk reports success: the process keeps its size, or shrinks
      when the count takes away less than all of it. Only a positive count can make the process larger, by that count.
      */
  lemma NothingAdded(sz: nat, n: int, mapped: bool)
    requires 0 < sz < KERNBASE && -SIGN <= n < SIGN
    ensures n <= 0 ==> GrowProc(sz, n, mapped) == if -n == sz then Failed else Resized(if -n < sz then sz + n else sz)
    ensures var g := GrowProc(sz, n, mapped);
      && (g.Resized? && g.size > sz <==> 0 < n && sz + n < 0x8000_0000 && mapped)
      && (n > 0 ==> g in {Failed, Resized(sz + n)})
  {
    if -n < sz { assert (sz + n) % WORD == sz + n; }
    if -n > sz { assert (sz + n) % WORD == sz + n + WORD; }
  }

  /** A call that has to grow the heap gets the bytes it asked for exactly when it asks for at most 2^31 - 16. A larger
      request reaches sbrk as a count that is not positive, or, at the very end of the range, wraps around before. */
  lemma GrowthIsWhole(nbytes: nat)
    requires nbytes < WORD
    ensures AsksWhole(UnitsFor(nbytes)) && 8 * (UnitsFor(nbytes) - 1) >= nbytes <==> nbytes <= 0x7FFF_FFF0
    ensures nbytes <= 0xFFFF_FFF8 ==> (SbrkCount(CoreUnits(UnitsFor(nbytes))) > 0 <==> nbytes <= 0x7FFF_FFF0)
  {
    RequestFits(nbytes);
    if nbytes <= WORD - HEADER {
      var n := CoreUnits(UnitsFor(nbytes));
      assert HEADER * n <= WORD;
      assert nbytes <= SIGN - 2 * HEADER <==> HEADER * n < SIGN;
      if HEADER * n == WORD { assert HEADER * n % WORD == 0; } else { assert HEADER * n % WORD == HEADER * n; }
    }
  }

  /** A request of 2 GB: sbrk succeeds on every process of less than 2^31 - 8 bytes and adds nothing. */
  lemma TwoGigabytes(sz: nat, mapped: bool)
    requires 0 < sz < SIGN - HEADER
    ensures SbrkCount(CoreUnits(UnitsFor(0x8000_0000))) == -0x7FFF_FFF8
    ensures GrowProc(sz, SbrkCount(CoreUnits(UnitsFor(0x8000_0000))), mapped) == Resized(sz)
  {
    assert UnitsFor(0x8000_0000) == 0x1000_0001;
    assert HEADER * 0x1000_0001 % WORD == SIGN + HEADER;
    NothingAdded(sz, HEADER - SIGN, mapped);
  }

  lemma FreedHeaded(base: nat, brk: nat, list: seq<Block>, live: map<nat, nat>, got: set<nat>,
                    ptr: map<nat, nat>, size: map<nat, nat>, t: nat, b: nat)
    requires Divided(base, brk, list, live, got) && Headed(live, size) && b in live && t < |list| && b in size
    requires LinkAt(list, t, ptr, size) && LinkAt(list, Next(|list|, t), ptr, size)
    ensures Headed(live - {b}, FreedSize(ptr, size, list[t].at, b))
  {
    var r := live - {b};
    forall a | a in r
      ensures a in FreedSize(ptr, size, list[t].at, b) && FreedSize(ptr, size, list[t].at, b)[a] == r[a]
    {
      LiveNotListed(base, brk, list, live, got, a);
    }
  }

  /** The allocator's state once it has been used. */
  ghost predicate Sound(base: nat, brk: nat, freep: nat, list: seq<Block>, live: map<nat, nat>, got: set<nat>,
                        ptr: map<nat, nat>, size: map<nat, nat>)
  {
    Divided(base, brk, list, live, got) && Linked(list, ptr, size) && Headed(live, size) && At(list, freep)
  }

  lemma InsertedAt(s: seq<Block>, b: Block, t: nat)
    requires t < |s|
    ensures t < |Inserted(s, b, t)| && Inserted(s, b, t)[t].at == s[t].at && At(Inserted(s, b, t), s[t].at)
  {
    assert Inserted(s, b, t)[t].at == s[t].at;
  }

  lemma FreedSound(base: nat, brk: nat, freep: nat, list: seq<Block>, live: map<nat, nat>, got: set<nat>,
                   ptr: map<nat, nat>, size: map<nat, nat>, t: nat, b: nat)
    requires Sound(base, brk, freep, list, live, got, ptr, size) && b in live && b in size && base < b
    requires list != [] && list[0].at < b && t == Pos(list, b)
    requires LinkAt(list, t, ptr, size) && LinkAt(list, Next(|list|, t), ptr, size)
    ensures base <= list[t].at
    ensures var p, r := list[t].at, Inserted(list, Block(b, live[b]), t);
      && Sound(base, brk, p, r, live - {b}, got, FreedPtr(ptr, size, p, b), FreedSize(ptr, size, p, b))
      && t < |r| && r[t].at == p && Units(r) == Units(list) + Range(b, live[b])
  {
    FreeDivides(base, brk, list, live, got, b);
    LiveNotListed(base, brk, list, live, got, b);
    assert Listed(list) && list[0].at == base && live[b] > 0 && size[b] == live[b] && base <= list[t].at;
    hide *;
    InsertedAt(list, Block(b, live[b]), t);
    FreedLinks(list, ptr, size, Block(b, live[b]), t);
    InsertedUnits(list, Block(b, live[b]), t);
    FreedHeaded(base, brk, list, live, got, ptr, size, t, b);
  }

  /** What free needs to know of a sound state. */
  lemma SoundFacts(base: nat, brk: nat, freep: nat, list: seq<Block>, live: map<nat, nat>, got: set<nat>,
                   ptr: map<nat, nat>, size: map<nat, nat>, b: nat)
    requires Sound(base, brk, freep, list, live, got, ptr, size) && b in live
    ensures Listed(list) && list != [] && list[0].at == base < b && Linked(list, ptr, size) && At(list, freep)
    ensures b in size && size[b] == live[b] && (forall i :: 0 <= i < |list| ==> list[i].at != b)
  {
    LiveAbove(base, brk, list, live, got, b);
    LiveNotListed(base, brk, list, live, got, b);
  }

  lemma LinkAts(s: seq<Block>, t: nat, ptr: map<nat, nat>, size: map<nat, nat>)
    requires Linked(s, ptr, size) && t < |s|
    ensures LinkAt(s, t, ptr, size) && LinkAt(s, Next(|s|, t), ptr, size)
  {
  }

  lemma InsertedFits(s: seq<Block>, b: Block, t: nat)
    requires t < |s|
    ensures Fits(Inserted(s, b, t), b.size)
  {
    assert Inserted(s, b, t)[if TouchesPrevious(s, b, t) then t else t + 1] == Joined(s, b, t);
  }

  /** A fresh region with a header of its own. */
  lemma GrownSound(base: nat, brk: nat, freep: nat, list: seq<Block>, live: map<nat, nat>, got: set<nat>,
                   ptr: map<nat, nat>, size: map<nat, nat>, a: nat, n: nat)
    requires Sound(base, brk, freep, list, live, got, ptr, size) && base < brk <= a && n > 0
    ensures a !in live && Range(a, n) !! got
    ensures Sound(base, a + n, freep, list, live[a := n], got + Range(a, n), ptr, size[a := n])
  {
    GrowDivides(base, brk, list, live, got, a, n);
    var z := size[a := n];
    forall i | 0 <= i < |list| ensures LinkAt(list, i, ptr, z) {
      assert LinkAt(list, i, ptr, size);
      if list[i].at == a { UnitsOf(list, i, a); }
    }
  }

  lemma TakenSound(base: nat, brk: nat, freep: nat, list: seq<Block>, live: map<nat, nat>, got: set<nat>,
                   ptr: map<nat, nat>, size: map<nat, nat>, k: nat, n: nat)
    requires Sound(base, brk, freep, list, live, got, ptr, size) && 0 < k < |list| && 0 < n <= list[k].size
    requires LinkAt(list, k, ptr, size) && LinkAt(list, k - 1, ptr, size)
    ensures var a, q := End(list[k]) - n, list[k - 1].at;
      && a !in live && Range(a, n) <= Units(list) && base <= q
      && Sound(base, brk, q, Taken(list, k, n), live[a := n], got,
           if n == list[k].size then ptr[q := ptr[list[k].at]] else ptr,
           if n == list[k].size then size else size[list[k].at := list[k].size - n][a := n])
  {
    var a, q := End(list[k]) - n, list[k - 1].at;
    TakeDivides(base, brk, list, live, got, k, n);
    TakenListed(list, k, n);
    assert Taken(list, k, n)[k - 1].at == q;
    TakenHeaded(base, brk, list, live, got, size, k, n);
    assert Listed(list) && Linked(list, ptr, size);
    if n == list[k].size {
      UnlinkedLinks(list, k, ptr, size);
    } else {
      TakenLinks(list, k, n, ptr, size);
    }
  }

  lemma TakenHeaded(base: nat, brk: nat, list: seq<Block>, live: map<nat, nat>, got: set<nat>, size: map<nat, nat>,
                    k: nat, n: nat)
    requires Divided(base, brk, list, live, got) && Headed(live, size) && 0 < k < |list| && 0 < n <= list[k].size
    requires list[k].at in size && size[list[k].at] == list[k].size
    ensures var a := End(list[k]) - n;
      Headed(live[a := n], if n == list[k].size then size else size[list[k].at := list[k].size - n][a := n])
  {
    forall x | x in live ensures x != list[k].at { LiveNotListed(base, brk, list, live, got, x); }
  }

  /** The circle of the static header alone. */
  lemma EmptySound(base: nat, brk: nat, ptr: map<nat, nat>, size: map<nat, nat>)
    requires 0 < base < brk && base in ptr && ptr[base] == base && base in size && size[base] == 0
    ensures Sound(base, brk, base, [Block(base, 0)], map[], {}, ptr, size)
    ensures Units([Block(base, 0)]) == {} && !exists n :: n > 0 && Fits([Block(base, 0)], n)
  {
    assert [Block(base, 0)][0].at == base;
  }

  /** Entry `j` lies after `f` and not after `i`, going round. */
  ghost predicate Seen(f: nat, i: nat, j: nat) {
    if f <= i then f < j <= i else j > f || j <= i
  }

  /** The entries after `f` up to `i` are too small. */
  ghost predicate Passed(list: seq<Block>, f: nat, i: nat, n: nat) {
    forall j :: 0 <= j < |list| && Seen(f, i, j) ==> list[j].size < n
  }

  lemma PassedAll(list: seq<Block>, f: nat, i: nat, n: nat)
    requires f < |list| && i < |list| && Passed(list, f, i, n) && Next(|list|, i) == f && list[f].size < n
    ensures !Fits(list, n)
  {
    forall j | 0 <= j < |list| ensures list[j].size < n { assert j == f || Seen(f, i, j); }
  }

  lemma PassedOn(list: seq<Block>, f: nat, i: nat, n: nat)
    requires f < |list| && i < |list| && Passed(list, f, i, n) && Next(|list|, i) != f && list[Next(|list|, i)].size < n
    ensures Passed(list, f, Next(|list|, i), n)
  {
    var k := Next(|list|, i);
    forall j | 0 <= j < |list| && Seen(f, k, j) ensures list[j].size < n { assert j == k || Seen(f, i, j); }
  }

  lemma ListFacts(base: nat, brk: nat, freep: nat, list: seq<Block>, live: map<nat, nat>, got: set<nat>,
                  ptr: map<nat, nat>, size: map<nat, nat>) returns (f: nat)
    requires Sound(base, brk, freep, list, live, got, ptr, size)
    ensures f < |list| && list[f].at == freep && list[0].size == 0 && Linked(list, ptr, size)
    ensures forall n: nat :: Passed(list, f, f, n)
  {
    f :| 0 <= f < |list| && list[f].at == freep;
  }

  lemma StartFits(freep: nat, was: seq<Block>, list: seq<Block>, base: nat, n: nat)
    requires n > 0 && (freep != 0 ==> list == was) && (freep == 0 ==> list == [Block(base, 0)] && was == [])
    ensures Fits(list, n) == Fits(was, n)
  {
  }

  lemma LinkFields(s: seq<Block>, i: nat, ptr: map<nat, nat>, size: map<nat, nat>)
    requires i < |s| && LinkAt(s, i, ptr, size)
    ensures s[i].at in size && size[s[i].at] == s[i].size && s[i].at in ptr && ptr[s[i].at] == s[Next(|s|, i)].at
  {
  }

  lemma FitsAt(s: seq<Block>, k: nat, n: nat)
    requires k < |s| && s[k].size >= n
    ensures Fits(s, n)
  {
  }

  /** Headers of different entries are at different addresses. */
  lemma SamePlace(base: nat, brk: nat, freep: nat, list: seq<Block>, live: map<nat, nat>, got: set<nat>,
                  ptr: map<nat, nat>, size: map<nat, nat>, i: nat, j: nat)
    requires Sound(base, brk, freep, list, live, got, ptr, size) && i < |list| && j < |list| && list[i].at == list[j].at
    ensures i == j
  {
  }

  class Allocator {
    const base: nat
    var ptr: map<nat, nat>
    var size: map<nat, nat>
    var freep: nat
    var brk: nat
    ghost var list: seq<Block>
    ghost var live: map<nat, nat>
    ghost var got: set<nat>
    ghost var growths: nat

    ghost predicate Valid()
      reads this
    {
      && 0 < base < brk
      && (freep == 0 ==> list == [] && live == map[] && got == {})
      && (freep != 0 ==> Sound(base, brk, freep, list, live, got, ptr, size))
    }

    constructor (base: nat, brk: nat)
      requires 0 < base < brk
      ensures Valid() && live == map[] && got == {} && list == []
    {
      this.base, this.brk := base, brk;
      ptr, size, freep := map[], map[], 0;
      list, live, got, growths := [], map[], {}, 0;
    }

    /** The search of free: it stops, at the entry the block belongs after. */
    method FindPlace(bp: nat) returns (p: nat, ghost t: nat)
      requires Listed(list) && list[0].at < bp && Linked(list, ptr, size) && At(list, freep)
      requires forall i :: 0 <= i < |list| ==> list[i].at != bp
      ensures p == list[Pos(list, bp)].at && t == Pos(list, bp)
    {
      hide Listed;
      ghost var goal := Pos(list, bp);
      ghost var i: nat :| i < |list| && list[i].at == freep;
      p := freep;
      assert LinkAt(list, i, ptr, size);
      StopsAtPos(list, bp, i);
      while !(p < bp < ptr[p])
        invariant i < |list| && p == list[i].at && LinkAt(list, i, ptr, size)
        invariant i == goal <==> (p < bp < ptr[p]) || (p >= ptr[p] && (bp > p || bp < ptr[p]))
        decreases if i <= goal then goal - i else |list| - i + goal
      {
        if p >= ptr[p] && (bp > p || bp < ptr[p]) {
          break;
        }
        i := Next(|list|, i);
        p := ptr[p];
        assert LinkAt(list, i, ptr, size);
        StopsAtPos(list, bp, i);
      }
      t := i;
    }

    /** Links `bp` in after `p`, joining neighbours that touch. */
    method Link(p: nat, bp: nat)
      requires p in ptr && p in size && bp in size && ptr[p] in ptr && ptr[p] in size && p != bp && ptr[p] != bp
      modifies `ptr, `size
      ensures ptr == FreedPtr(old(ptr), old(size), p, bp) && size == FreedSize(old(ptr), old(size), p, bp)
    {
      if bp + size[bp] == ptr[p] {
        size := size[bp := size[bp] + size[ptr[p]]];
        ptr := ptr[bp := ptr[ptr[p]]];
      } else {
        ptr := ptr[bp := ptr[p]];
      }
      if p + size[p] == bp {
        size := size[p := size[p] + size[bp]];
        ptr := ptr[p := ptr[bp]];
      } else {
        ptr := ptr[p := bp];
      }
    }

    /** Returns a live block to the list. */
    method Free(ap: nat)
      requires Valid() && ap > 0 && ap - 1 in live
      modifies this
      ensures Valid() && freep != 0
      ensures live == old(live) - {ap - 1} && got == old(got) && brk == old(brk) && growths == old(growths)
      ensures old(list) != [] && old(list)[0].at < ap - 1
      ensures var b, t := Block(ap - 1, old(live)[ap - 1]), Pos(old(list), ap - 1);
        list == Inserted(old(list), b, t) && t < |list| && freep == list[t].at
        && Units(list) == Units(old(list)) + Range(b.at, b.size)
    {
      hide Sound, Listed, Linked, At, Inserted, FreedPtr, FreedSize, Units, Range;
      var bp := ap - 1;
      assert freep != 0;
      SoundFacts(base, brk, freep, list, live, got, ptr, size, bp);
      var p;
      ghost var t;
      p, t := FindPlace(bp);
      LinkAts(list, t, ptr, size);
      FreedSound(base, brk, freep, list, live, got, ptr, size, t, bp);
      list := Inserted(list, Block(bp, live[bp]), t);
      live := live - {bp};
      Link(p, bp);
      freep := p;
    }

    /** Obtains at least 4096 units. `grow` and `gap` are what sbrk does: whether it succeeds, and how far from the
        last region. `stray`: sbrk was asked for something else than the region, and added nothing: the header is
        about to be stored at the old break, which faults, or lands in the rest of a page and is followed by units
        that do not exist. The model stops there. */
    method MoreCore(nu: nat, grow: bool, gap: nat) returns (p: nat, stray: bool)
      requires Valid() && freep != 0 && 0 < nu < WORD
      modifies this
      ensures stray == (grow && !AsksWhole(nu))
      ensures Valid() && live == old(live) && growths == old(growths) + 1 && freep != 0
      ensures !grow || stray ==>
        p == 0 && list == old(list) && freep == old(freep) && got == old(got) && brk == old(brk)
      ensures grow && !stray ==> var a, n := old(brk) + gap, CoreUnits(nu);
        && p == freep && Fits(list, nu) && brk == a + n && nu <= n && 4096 <= n && n in {nu, 4096}
        && Range(a, n) !! old(got) && got == old(got) + Range(a, n)
        && Units(list) == Units(old(list)) + Range(a, n)
    {
      hide Sound, Inserted, Units, Range, Pos, SbrkCount;
      growths := growths + 1;
      if !grow {
        return 0, false;
      }
      var n := if nu < MIN_GROWTH then MIN_GROWTH else nu;
      if SbrkCount(n) != HEADER * n {
        return 0, true;
      }
      stray := false;
      var hp := brk + gap;
      GrownSound(base, brk, freep, list, live, got, ptr, size, hp, n);
      size := size[hp := n];
      brk := hp + n;
      live := live[hp := n];
      got := got + Range(hp, n);
      Free(hp + 1);
      InsertedFits(old(list), Block(hp, n), Pos(old(list), hp));
      p := freep;
    }

    /** Cuts `n` units from the tail of entry `k`, at `p`, which follows `prevp`. */
    method Take(prevp: nat, p: nat, n: nat, ghost k: nat) returns (r: nat)
      requires Valid() && freep != 0 && 0 < k < |list| && 0 < n <= list[k].size
      requires prevp == list[k - 1].at && p == list[k].at
      requires LinkAt(list, k, ptr, size) && LinkAt(list, k - 1, ptr, size)
      modifies this
      ensures Valid() && freep == prevp != 0 && got == old(got) && brk == old(brk) && growths == old(growths)
      ensures r == End(old(list)[k]) - n && list == Taken(old(list), k, n)
      ensures r !in old(live) && live == old(live)[r := n] && Range(r, n) <= Units(old(list))
    {
      hide Sound, Units, Range, Taken;
      TakenSound(base, brk, freep, list, live, got, ptr, size, k, n);
      r := p;
      if size[p] == n {
        ptr := ptr[prevp := ptr[p]];
      } else {
        size := size[p := size[p] - n];
        r := r + size[p];
        size := size[r := n];
      }
      freep := prevp;
      list := Taken(list, k, n);
      live := live[r := n];
    }

    /** The static header becomes the whole list at the first call. */
    method Start()
      requires Valid()
      modifies this
      ensures Valid() && freep != 0 && live == old(live) && got == old(got) && brk == old(brk)
      ensures growths == old(growths)
      ensures Units(list) == Units(old(list))
      ensures old(freep) != 0 ==> list == old(list)
      ensures old(freep) == 0 ==> list == [Block(base, 0)]
    {
      if freep == 0 {
        freep := base;
        ptr, size := ptr[base := base], size[base := 0];
        list := [Block(base, 0)];
        EmptySound(base, brk, ptr, size);
      }
    }

    /** First fit from `freep` on. The result is the address of the unit after the header, or 0. */
    method Malloc(nbytes: nat, grow: bool, gap: nat) returns (r: nat, stray: bool)
      requires Valid() && nbytes < WORD
      modifies this
      ensures Valid()
      ensures stray == (!Fits(old(list), UnitsFor(nbytes)) && grow && !AsksWhole(UnitsFor(nbytes)))
      ensures stray ==> live == old(live) && got == old(got)
      ensures !stray ==> var n, fits := UnitsFor(nbytes), Fits(old(list), UnitsFor(nbytes));
        && (r == 0 <==> !fits && !grow)
        && (r == 0 ==> live == old(live))
        && (r != 0 ==> r - 1 !in old(live) && live == old(live)[r - 1 := n])
        && growths == old(growths) + (if fits then 0 else 1)
        && (fits || !grow ==> got == old(got) && brk == old(brk))
        && (!fits && grow ==> var m := CoreUnits(n);
              brk == old(brk) + gap + m && Range(old(brk) + gap, m) !! old(got)
              && got == old(got) + Range(old(brk) + gap, m))
    {
      hide Sound, Units, Range, Taken, Fits, Linked, LinkAt, UnitsFor, Passed, Divided, Headed, At, AsksWhole;
      var nunits := UnitsFor(nbytes);
      Start();
      StartFits(old(freep), old(list), list, base, nunits);
      ghost var grown := false;
      ghost var f: nat := ListFacts(base, brk, freep, list, live, got, ptr, size);
      ghost var i: nat := f;
      LinkAts(list, i, ptr, size);
      var prevp := freep;
      var p := ptr[prevp];
      while true
        invariant Valid() && freep != 0 && live == old(live)
        invariant f < |list| && list[f].at == freep && i < |list| && list[0].size == 0 && Passed(list, f, i, nunits)
        invariant prevp == list[i].at && p == list[Next(|list|, i)].at
        invariant Linked(list, ptr, size) && LinkAt(list, Next(|list|, i), ptr, size) && LinkAt(list, i, ptr, size)
        invariant !grown ==> Fits(list, nunits) == Fits(old(list), nunits)
        invariant !grown ==> got == old(got) && brk == old(brk) && growths == old(growths)
        invariant grown ==>
          grow && AsksWhole(nunits) && Fits(list, nunits) && !Fits(old(list), nunits) && growths == old(growths) + 1
        invariant grown ==> var m := CoreUnits(nunits);
          brk == old(brk) + gap + m && Range(old(brk) + gap, m) !! old(got)
          && got == old(got) + Range(old(brk) + gap, m)
        decreases if grown then 0 else 1, if f <= i then |list| - (i - f) else f - i
      {
        ghost var k := Next(|list|, i);
        assert p in size && size[p] == list[k].size && p in ptr by { LinkFields(list, k, ptr, size); }
        if size[p] >= nunits {
          FitsAt(list, k, nunits);
          r := Take(prevp, p, nunits, k);
          r, stray := r + 1, false;
          return;
        }
        if p == freep {
          SamePlace(base, brk, freep, list, live, got, ptr, size, k, f);
          PassedAll(list, f, i, nunits);
          p, stray := MoreCore(nunits, grow, gap);
          if p == 0 {
            return 0, stray;
          }
          grown := true;
          f := ListFacts(base, brk, freep, list, live, got, ptr, size);
          i := f;
        } else {
          PassedOn(list, f, i, nunits);
          i := k;
        }
        LinkAts(list, i, ptr, size);
        LinkFields(list, i, ptr, size);
        prevp, p := p, ptr[p];
        LinkAts(list, Next(|list|, i), ptr, size);
      }
    }
  }
}
