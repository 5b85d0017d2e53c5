/** Space in the log when operations share bitmap blocks: what file operations promise is a bound on the other
    blocks they log, and that is enough. */
module LogCapacity {
  import opened Layout
  import opened Blocks
  import opened Indexing
  import opened Journal
  import opened JournalSafety
  import opened LogReservation
  import opened Transaction

  function Listed(lh: seq<nat>): (s: set<nat>)
    ensures forall x :: x in s <==> x in lh
  {
    set x | x in lh
  }

  lemma {:induction false} ListedSize(lh: seq<nat>)
    requires forall i, j :: 0 <= i < j < |lh| ==> lh[i] != lh[j]
    ensures |Listed(lh)| == |lh|
  {
    if lh == [] {
      assert Listed(lh) == {};
    } else {
      var n := |lh| - 1;
      ListedSize(lh[..n]);
      assert Listed(lh) == Listed(lh[..n]) + {lh[n]};
    }
  }

  /** What each operation has logged besides bitmap blocks. */
  ghost function Others(ops: seq<set<nat>>): (r: seq<set<nat>>)
    ensures |r| == |ops| && forall i :: 0 <= i < |ops| ==> r[i] == NonBitmap(ops[i])
  {
    seq(|ops|, i requires 0 <= i < |ops| => NonBitmap(ops[i]))
  }

  /** Every operation has logged at most `c` blocks besides bitmap blocks. */
  ghost predicate OthersWithin(s: State, c: nat) {
    forall i :: 0 <= i < |s.ops| ==> |NonBitmap(s.ops[i])| <= c
  }

  /** Besides bitmap blocks, what is listed and what may still be logged come to no more than the 40 blocks a
      second operation may find listed, and two budgets. */
  ghost predicate Room(s: State, c: nat) {
    && (forall i, b :: 0 <= i < |s.ops| && b in s.ops[i] ==> b in s.lh)
    && (s.phase.Idle? || s.phase.Logging? ==>
          |NonBitmap(Listed(s.lh))| + Unspent(Others(s.ops), c) <= MAXOPBLOCKS + 2 * c)
    && (s.ops == [] && s.phase.Idle? ==> s.lh == [])
  }

  lemma OthersAt(ops: seq<set<nat>>, i: nat, x: set<nat>)
    requires i < |ops|
    ensures Others(ops[i := x]) == Others(ops)[i := NonBitmap(x)]
    ensures Others(ops[..i] + ops[i + 1..]) == Others(ops)[..i] + Others(ops)[i + 1..]
  {
  }

  lemma OthersBegin(ops: seq<set<nat>>)
    ensures Others(ops + [{}]) == Others(ops) + [{}]
  {
    assert NonBitmap({}) == {};
  }

  lemma OneMore(s: set<nat>, b: nat)
    ensures |NonBitmap(s + {b})| == |NonBitmap(s)| + if b in s || IsBitmap(b) then 0 else 1
  {
    if b in s {
      assert s + {b} == s;
    } else if IsBitmap(b) {
      assert NonBitmap(s + {b}) == NonBitmap(s);
    } else {
      assert NonBitmap(s + {b}) == NonBitmap(s) + {b};
    }
  }

  lemma LogWriteRoom(s: State, op: nat, b: nat, data: Block, c: nat)
    requires Room(s, c) && s.phase.Idle? && op < |s.ops|
    ensures Room(DoLogWrite(s, op, b, data), c)
  {
    hide NonBitmap, Others;
    if LogWriteFits(s) {
      var r := DoLogWrite(s, op, b, data);
      assert Listed(r.lh) == Listed(s.lh) + {b};
      OneMore(Listed(s.lh), b);
      OneMore(s.ops[op], b);
      OthersAt(s.ops, op, s.ops[op] + {b});
      UnspentAt(Others(s.ops), op, c);
      assert b in s.ops[op] ==> b in s.lh;
    }
  }

  lemma BeginRoom(s: State, c: nat)
    requires Inv(s) && Room(s, c) && Enabled(s, Begin) && c <= MAXOPBLOCKS
    ensures Room(Do(s, Begin), c)
  {
    assert |Listed(s.lh)| == |s.lh| by { ListedSize(s.lh); }
    hide Others, Inv;
    SubsetSize(NonBitmap(Listed(s.lh)), Listed(s.lh));
    OthersBegin(s.ops);
    UnspentSplit(Others(s.ops), [{}], c);
    UnspentUpper(Others(s.ops), c);
  }

  lemma EndRoom(s: State, op: nat, c: nat)
    requires Room(s, c) && s.phase.Idle? && op < |s.ops| && OthersWithin(s, c)
    ensures Room(DoEnd(s, op), c)
  {
    var left := s.ops[..op] + s.ops[op + 1..];
    OthersAt(s.ops, op, {});
    UnspentAt(Others(s.ops), op, c);
    forall i, b | 0 <= i < |left| && b in left[i] ensures b in s.lh {
      assert left[i] == if i < op then s.ops[i] else s.ops[i + 1];
    }
  }

  lemma StepRoom(s: State, step: Step, c: nat)
    requires c <= MAXOPBLOCKS && OthersWithin(s, c) && Inv(s) && Enabled(s, step) && Room(s, c)
    ensures Room(Do(s, step), c)
  {
    hide Word, Recovered, HomeBlocks, EncodeHeader, DecodeHeader, View, NonBitmap, Others;
    match step
    case Begin => BeginRoom(s, c);
    case End(op) => EndRoom(s, op, c);
    case LogWrite(op, b, data) => LogWriteRoom(s, op, b, data, c);
    case _ => NothingListed();
  }

  lemma NothingListed()
    ensures NonBitmap(Listed([])) == {} && Others([]) == []
  {
  }

  lemma {:induction false} RunRoom(run: seq<State>, steps: seq<Step>, i: nat, c: nat)
    requires IsRun(run, steps) && i < |run| && c <= MAXOPBLOCKS
    requires forall k :: 0 <= k < |run| ==> OthersWithin(run[k], c)
    ensures Room(run[i], c)
  {
    hide Do, Enabled, Sane, OthersWithin, HomeBlocks, NonBitmap, Others;
    if i == 0 {
      NothingListed();
    } else {
      RunRoom(run, steps, i - 1, c);
      RunInv(run, steps, i - 1);
      StepRoom(run[i - 1], steps[i - 1], c);
    }
  }

  /** With `c` at most 26 there is room for every bitmap block besides. */
  lemma RoomFits(s: State, c: nat)
    requires Inv(s) && Room(s, c) && c <= 26 && OthersWithin(s, c) && (s.phase.Idle? || s.phase.Logging?)
    ensures |s.lh| <= MAXOPBLOCKS + 2 * c + NBITMAP && LogWriteFits(s)
  {
    ListedSize(s.lh);
    BitmapShare(Listed(s.lh));
    UnspentLower(Others(s.ops), c, c);
  }

  /** In every run whose operations each log at most `c` blocks besides bitmap blocks, log_write never panics. */
  lemma {:induction false} RoomNeverPanics(run: seq<State>, steps: seq<Step>, i: nat, c: nat)
    requires IsRun(run, steps) && i < |run| && c <= 26
    requires forall k :: 0 <= k < |run| ==> OthersWithin(run[k], c)
    ensures !run[i].phase.Panicked?
    ensures run[i].phase.Idle? || run[i].phase.Logging? ==> |run[i].lh| <= MAXOPBLOCKS + 2 * c + NBITMAP < NLOG - 1
  {
    hide Do, Enabled, Sane, OthersWithin, HomeBlocks, Room, Inv;
    RunInv(run, steps, i);
    RunRoom(run, steps, i, c);
    if run[i].phase.Idle? || run[i].phase.Logging? { RoomFits(run[i], c); }
    if i == 0 {
      StartIdle(run, steps);
    } else {
      RoomNeverPanics(run, steps, i - 1, c);
      RunInv(run, steps, i - 1);
      RunRoom(run, steps, i - 1, c);
      StepFits(run[i - 1], steps[i - 1], c);
    }
  }

  lemma StartIdle(run: seq<State>, steps: seq<Step>)
    requires IsRun(run, steps)
    ensures run[0].phase.Idle?
  {
  }

  lemma StepFits(s: State, step: Step, c: nat)
    requires Inv(s) && Enabled(s, step) && !s.phase.Panicked? && Room(s, c) && c <= 26 && OthersWithin(s, c)
    ensures !Do(s, step).phase.Panicked?
  {
    if s.phase.Idle? { RoomFits(s, c); }
    hide Word, Recovered, HomeBlocks, EncodeHeader, View, DecodeHeader, Room, OthersWithin, Inv;
  }

  // ---------- one block more is too much ----------

  /** A run, with operations within `c`, that has reached an idle state with these operations and this many entries. */
  ghost predicate Reaches(run: seq<State>, steps: seq<Step>, c: nat, ops: seq<set<nat>>, n: nat) {
    && IsRun(run, steps) && (forall k :: 0 <= k < |run| ==> OthersWithin(run[k], c))
    && var s := run[|run| - 1]; s.phase.Idle? && s.ops == ops && |s.lh| == n
  }

  ghost predicate ListedWithin(run: seq<State>, blocks: set<nat>)
    requires run != []
  {
    forall b :: b in run[|run| - 1].lh ==> b in blocks
  }

  lemma Take(run: seq<State>, steps: seq<Step>, c: nat, ops: seq<set<nat>>, n: nat, blocks: set<nat>, step: Step)
      returns (r: seq<State>, t: seq<Step>)
    requires Reaches(run, steps, c, ops, n) && ListedWithin(run, blocks)
    requires match step
             case Begin => n + (|ops| + 1) * MAXOPBLOCKS <= LOGSIZE
             case End(op) => op < |ops| && |ops| > 1
             case _ => false
    ensures var after := match step case End(op) => ops[..op] + ops[op + 1..] case _ => ops + [{}];
            Reaches(r, t, c, after, n) && ListedWithin(r, blocks)
  {
    RunInv(run, steps, |run| - 1);
    Extend(run, steps, step);
    var s := run[|run| - 1];
    r, t := run + [Do(s, step)], steps + [step];
    assert NonBitmap({}) == {};
    assert OthersWithin(s, c);
    assert OthersWithin(Do(s, step), c);
  }

  /** Operation `op` logs `n` blocks not listed yet. */
  lemma {:induction false} Logs(run: seq<State>, steps: seq<Step>, c: nat, ops: seq<set<nat>>, m: nat, blocks: set<nat>,
                                op: nat, base: nat, n: nat)
      returns (r: seq<State>, t: seq<Step>)
    requires Reaches(run, steps, c, ops, m) && ListedWithin(run, blocks) && op < |ops| && m + n < NLOG
    requires blocks !! Range(base, n) && (forall b :: base <= b < base + n ==> Home(b))
    requires |NonBitmap(ops[op] + Range(base, n))| <= c
    ensures Reaches(r, t, c, ops[op := ops[op] + Range(base, n)], m + n) && ListedWithin(r, blocks + Range(base, n))
  {
    if n == 0 {
      assert ops[op] + Range(base, 0) == ops[op];
      r, t := run, steps;
    } else {
      assert Range(base, n) == Range(base, n - 1) + {base + n - 1};
      SubsetSize(NonBitmap(ops[op] + Range(base, n - 1)), NonBitmap(ops[op] + Range(base, n)));
      var x, ops1 := base + n - 1, ops[op := ops[op] + Range(base, n - 1)];
      assert ops1[op] + {x} == ops[op] + Range(base, n);
      assert ops1[op := ops1[op] + {x}] == ops[op := ops[op] + Range(base, n)];
      assert blocks + Range(base, n - 1) + {x} == blocks + Range(base, n);
      assert x in Range(base, n);
      hide Reaches, ListedWithin, Home, NonBitmap;
      r, t := Logs(run, steps, c, ops, m, blocks, op, base, n - 1);
      r, t := LogOne(r, t, c, ops1, m + n - 1, blocks + Range(base, n - 1), op, x);
    }
  }

  lemma LogOne(run: seq<State>, steps: seq<Step>, c: nat, ops: seq<set<nat>>, m: nat, blocks: set<nat>, op: nat, b: nat)
      returns (r: seq<State>, t: seq<Step>)
    requires Reaches(run, steps, c, ops, m) && ListedWithin(run, blocks) && op < |ops| && m + 1 < NLOG
    requires b !in blocks && Home(b) && |NonBitmap(ops[op] + {b})| <= c
    ensures Reaches(r, t, c, ops[op := ops[op] + {b}], m + 1) && ListedWithin(r, blocks + {b})
  {
    var s, step := run[|run| - 1], LogWrite(op, b, Zero());
    RunInv(run, steps, |run| - 1);
    Extend(run, steps, step);
    r, t := run + [Do(s, step)], steps + [step];
    assert Slot(s.lh, b) == |s.lh|;
    assert OthersWithin(s, c) && OthersWithin(Do(s, step), c);
  }

  /** With 27 blocks besides bitmap blocks for each operation, log_write can panic: two operations fill the log to the
      40 blocks that still admit a third, two more use their budgets, and between them they touch every bitmap block. */
  lemma OneMorePanics() returns (run: seq<State>, steps: seq<Step>)
    ensures IsRun(run, steps) && (forall k :: 0 <= k < |run| ==> OthersWithin(run[k], 27))
    ensures run[|run| - 1].phase.Panicked?
  {
    run, steps := FourOperations();
    var step := LogWrite(0, NMETA, Zero());
    RunInv(run, steps, |run| - 1);
    Extend(run, steps, step);
    var s := run[|run| - 1];
    assert OthersWithin(s, 27) && OthersWithin(Do(s, step), 27);
    run, steps := run + [Do(s, step)], steps + [step];
  }

  /** Operation `op`, which has logged nothing, logs the next `k` data blocks. */
  lemma Spend(run: seq<State>, steps: seq<Step>, ops: seq<set<nat>>, m: nat, op: nat, k: nat)
      returns (r: seq<State>, t: seq<Step>)
    requires Reaches(run, steps, 27, ops, m) && ListedWithin(run, Range(NMETA, m))
    requires op < |ops| && ops[op] == {} && k <= 27 && m + k < NLOG
    ensures Reaches(r, t, 27, ops[op := Range(NMETA + m, k)], m + k) && ListedWithin(r, Range(NMETA, m + k))
  {
    hide Reaches, ListedWithin, NonBitmap;
    RangeOthers(NMETA + m, k);
    assert Range(NMETA, m) + Range(NMETA + m, k) == Range(NMETA, m + k);
    r, t := Logs(run, steps, 27, ops, m, Range(NMETA, m), op, NMETA + m, k);
  }

  lemma SpendAndEnd(run: seq<State>, steps: seq<Step>, ops: seq<set<nat>>, m: nat, k: nat)
      returns (r: seq<State>, t: seq<Step>)
    requires Reaches(run, steps, 27, ops, m) && ListedWithin(run, Range(NMETA, m))
    requires |ops| > 1 && ops[0] == {} && k <= 27 && m + k < NLOG
    ensures Reaches(r, t, 27, ops[1..], m + k) && ListedWithin(r, Range(NMETA, m + k))
  {
    hide Reaches, ListedWithin, NonBitmap, Range;
    r, t := Spend(run, steps, ops, m, 0, k);
    var ops1 := ops[0 := Range(NMETA + m, k)];
    assert ops1[..0] + ops1[1..] == ops[1..];
    r, t := Take(r, t, 27, ops1, m + k, Range(NMETA, m + k), End(0));
  }

  lemma FourOperations() returns (run: seq<State>, steps: seq<Step>)
    ensures exists ops :: |ops| == 2 && Reaches(run, steps, 27, ops, NLOG - 1)
  {
    run, steps := Start();
    StartReaches(run, steps);
    hide Reaches, ListedWithin, IsRun, NonBitmap;
    run, steps := SpendAndEnd(run, steps, [{}, {}, {}], 0, 27);
    var none: set<nat> := {};
    assert [none, none, none][1..] == [none, none] && [none, none][1..] == [none] && [none] + [none] == [none, none];
    run, steps := SpendAndEnd(run, steps, [{}, {}], 27, 13);
    run, steps := Take(run, steps, 27, [{}], 40, Range(NMETA, 40), Begin);
    run, steps := Spend(run, steps, [{}, {}], 40, 0, 27);
    var d := Range(NMETA + 40, 27);
    run, steps := Spend(run, steps, [{}, {}][0 := d], 67, 1, 27);
    var ops := [{}, {}][0 := d][1 := Range(NMETA + 67, 27)];
    RangeOthers(NMETA + 40, 27);
    BitmapAddsNothing(d);
    run, steps := Logs(run, steps, 27, ops, 94, Range(NMETA, 94), 0, BMAPSTART, NBITMAP);
    assert |ops[0 := d + Range(BMAPSTART, NBITMAP)]| == 2;
  }

  lemma StartReaches(run: seq<State>, steps: seq<Step>)
    requires IsRun(run, steps) && forall k :: 0 <= k < |run| ==> WithinBudget(run[k], 0)
    requires run[|run| - 1].phase.Idle? && run[|run| - 1].ops == [{}, {}, {}] && run[|run| - 1].lh == []
    ensures Reaches(run, steps, 27, [{}, {}, {}], 0) && ListedWithin(run, Range(NMETA, 0))
  {
    forall k | 0 <= k < |run| ensures OthersWithin(run[k], 27) {
      assert WithinBudget(run[k], 0);
      assert NonBitmap({}) == {};
    }
  }

  lemma RangeOthers(a: nat, n: nat)
    ensures {} + Range(a, n) == Range(a, n) && |NonBitmap({} + Range(a, n))| <= n
  {
    RangeSize(a, n);
    SubsetSize(NonBitmap({} + Range(a, n)), Range(a, n));
  }

  lemma BitmapAddsNothing(s: set<nat>)
    ensures NonBitmap(s + Range(BMAPSTART, NBITMAP)) == NonBitmap(s)
  {
  }

  ghost predicate NeverPanicsOthers(c: nat) {
    forall run: seq<State>, steps: seq<Step> | IsRun(run, steps) :: OthersKept(run, c) ==>
      !run[|run| - 1].phase.Panicked?
  }

  ghost predicate OthersKept(run: seq<State>, c: nat) {
    forall k :: 0 <= k < |run| ==> OthersWithin(run[k], c)
  }

  /** The exact limit: with bitmap blocks free of charge, operations may log 26 other blocks each and no more. */
  lemma SafeOthers(c: nat)
    ensures NeverPanicsOthers(c) <==> c <= 26
  {
    if c > 26 {
      var run, steps := OneMorePanics();
      forall k | 0 <= k < |run| ensures OthersWithin(run[k], c) { assert OthersWithin(run[k], 27); }
      assert IsRun(run, steps) && OthersKept(run, c);
    } else {
      hide IsRun;
      forall run: seq<State>, steps: seq<Step> | IsRun(run, steps) && OthersKept(run, c)
        ensures run != [] && !run[|run| - 1].phase.Panicked?
      {
        RunNonEmpty(run, steps);
        RoomNeverPanics(run, steps, |run| - 1, c);
      }
    }
  }
}
