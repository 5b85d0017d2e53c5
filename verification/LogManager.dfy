/** log.c itself: the global `log`, the buffer cache beneath it and the disk, updated in place.
    Each object carries the run of the state machine that it has performed so far. */
module LogManager {
  import opened Layout
  import opened Blocks
  import opened Journal
  import opened JournalSafety

  /** What the state machine's log_write shows. */
  lemma LogWriteShown(s: State, op: nat, b: nat, data: Block)
    requires Inv(s) && s.phase.Idle? && op < |s.ops| && Home(b)
    ensures Sane(s) && Enabled(s, Step.LogWrite(op, b, data))
    ensures Do(s, Step.LogWrite(op, b, data)) == DoLogWrite(s, op, b, data)
    ensures LogWriteFits(s) ==> View(DoLogWrite(s, op, b, data)) == View(s)[b := data]
    ensures LogWriteFits(s) ==> Dirty(DoLogWrite(s, op, b, data), b)
  {
    hide Recovered, HomeBlocks, Word, View;
    LogWriteKeepsInv(s, op, b, data);
  }

  class Log {
    var disk: seq<Block>
    var cache: map<nat, Buf>
    var lh: seq<nat>
    var outstanding: nat
    var committing: bool
    ghost var ops: seq<set<nat>>
    ghost var phase: Phase
    ghost var hist: seq<HomeMap>
    ghost var run: seq<State>
    ghost var steps: seq<Step>

    ghost function S(): (s: State)
      reads this
    {
      State(disk, cache, lh, ops, phase, hist)
    }

    /** The object's history is a run of the state machine that ends in its current state. */
    ghost predicate Valid()
      reads this
    {
      && IsRun(run, steps) && run[|run| - 1] == S()
      && |disk| == FSSIZE && hist != []
      && outstanding == |ops|
      && (committing ==> !phase.Idle?)
    }

    /** Every disk state written since `old` recovers to `was` or to `now`, all home blocks alike. */
    twostate predicate AllOrNothing(was: HomeMap, now: HomeMap)
      reads this
    {
      forall i :: |old(run)| <= i < |run| ==>
        ValidDisk(run[i].disk) && (Recovered(run[i].disk) == was || Recovered(run[i].disk) == now)
    }

    /** Everything recorded since `old` is made of recovery and commit steps. */
    twostate predicate Advanced()
      reads this
    {
      && |old(run)| <= |run| && |old(steps)| <= |steps|
      && run[..|old(run)|] == old(run) && steps[..|old(steps)|] == old(steps)
      && forall i :: |old(steps)| <= i < |steps| ==> steps[i].Advance?
    }

    /** The states recorded since `old` belong to the same committed history. */
    twostate predicate SameHistory()
      reads this
    {
      && |old(run)| <= |run| && run[..|old(run)|] == old(run)
      && hist == old(hist)
      && forall i :: |old(run)| <= i < |run| ==> run[i].hist == hist
    }

    /** The states recorded since `old` belong to history `h`, or to `h` with the group `v` added. */
    twostate predicate OneMoreGroup(h: seq<HomeMap>, v: HomeMap)
      reads this
    {
      forall i :: |old(run)| <= i < |run| ==> run[i].hist == h || run[i].hist == h + [v]
    }

    constructor (image: seq<Block>)
      requires |image| == FSSIZE && Word(image[LOGSTART], 0) == 0
      ensures Valid() && disk == image && phase.Idle? && outstanding == 0 && !committing
    {
      disk, cache, lh, outstanding, committing := image, map[], [], 0, false;
      ops, phase, hist := [], Idle, [HomeBlocks(image)];
      steps := [];
      run := [State(image, map[], [], [], Idle, [HomeBlocks(image)])];
    }

    lemma ValidInv()
      requires Valid()
      ensures Inv(S())
    {
      RunInv(run, steps, |run| - 1);
    }

    function Content(b: nat): (r: Block)
      reads this
      requires |disk| == FSSIZE && b < FSSIZE
    {
      if b in cache then cache[b].data else disk[b]
    }

    /** iderw on a dirty buffer: the disk gets the data, the buffer becomes clean. */
    method Bwrite(b: nat, data: Block)
      requires b < |disk|
      modifies this`disk, this`cache
      ensures disk == old(disk)[b := data] && cache == old(cache)[b := Buf(data, false)]
    {
      disk, cache := disk[b := data], cache[b := Buf(data, false)];
    }

    /** Stores `lh` over the old header block, word by word. */
    method BuildHeader(old_: Block) returns (hb: Block)
      requires |lh| <= LOGSIZE && forall i :: 0 <= i < |lh| ==> lh[i] < FSSIZE
      ensures hb == EncodeHeader(old_, lh) && HeaderIs(hb, lh)
    {
      hide SetWord; hide HeaderIs;
      hb := SetWord(old_, 0, |lh|);
      var i := 0;
      while i < |lh|
        invariant 0 <= i <= |lh|
        invariant hb == PutEntries(SetWord(old_, 0, |lh|), lh, i)
      {
        hb := SetWord(hb, i + 1, lh[i]);
        i := i + 1;
      }
      HeaderWritten(old_, lh);
    }

    /** Appends the step just performed to the recorded run. */
    ghost method Record(step: Step, was: State)
      requires IsRun(run, steps) && run[|run| - 1] == was && Sane(was) && Enabled(was, step)
      requires S() == Do(was, step)
      modifies this`run, this`steps
      ensures run == old(run) + [S()] && steps == old(steps) + [step]
      ensures IsRun(run, steps)
    {
      hide Do; hide Enabled; hide Sane;
      Extend(run, steps, step);
      run, steps := run + [S()], steps + [step];
    }

    /** One disk write of write_log. */
    method WriteLogEntry(tail: nat)
      requires Valid() && Inv(S()) && tail < |lh| && phase == Logging(tail)
      modifies this`disk, this`cache, this`phase, this`run, this`steps
      ensures Valid() && Inv(S()) && phase == Logging(tail + 1) && View(S()) == old(View(S()))
      ensures run == old(run) + [S()] && steps == old(steps) + [Advance]
    {
      hide HomeBlocks; hide Recovered; hide Word; hide DecodeHeader; hide IsRun; hide EncodeHeader; hide View;
      hide ValidDisk; hide ValidList; hide Coherent; hide LogBlock; hide Uncommitted;
      ghost var was := S();
      Bwrite(LOGSTART + 1 + tail, Content(lh[tail]));
      phase := Logging(tail + 1);
      Record(Advance, was);
      LoggingKeepsInv(was);
    }

    /** write_log: copies each listed block from the cache to the log. */
    method WriteLog()
      requires Valid() && phase == Logging(0)
      modifies this`disk, this`cache, this`phase, this`run, this`steps
      ensures Valid() && phase == Logging(|lh|) && View(S()) == old(View(S()))
      ensures Advanced() && SameHistory()
    {
      hide HomeBlocks; hide Recovered; hide Word; hide View; hide DecodeHeader; hide EncodeHeader;
      ValidInv();
      var tail := 0;
      while tail < |lh|
        invariant Valid() && Inv(S()) && 0 <= tail <= |lh| && phase == Logging(tail)
        invariant View(S()) == old(View(S())) && Advanced() && SameHistory()
      {
        WriteLogEntry(tail);
        tail := tail + 1;
      }
    }

    /** write_head: one atomic disk write, which commits the group, or erases it when `lh` is empty. */
    method WriteHead()
      requires |disk| == FSSIZE && |lh| <= LOGSIZE && forall i :: 0 <= i < |lh| ==> lh[i] < FSSIZE
      modifies this`disk, this`cache
      ensures disk == old(disk)[LOGSTART := EncodeHeader(old(Content(LOGSTART)), lh)]
      ensures cache == old(cache)[LOGSTART := Buf(EncodeHeader(old(Content(LOGSTART)), lh), false)]
    {
      var hb := BuildHeader(Content(LOGSTART));
      Bwrite(LOGSTART, hb);
    }

    /** The commit point. */
    method CommitHead()
      requires Valid() && phase.Logging? && phase.t == |lh|
      modifies this`disk, this`cache, this`phase, this`hist, this`run, this`steps
      ensures Valid() && steps == old(steps) + [Advance] && run == old(run) + [S()]
      ensures phase == Installing(0) && hist == old(hist) + [old(View(S()))]
    {
      hide HomeBlocks; hide Recovered; hide Word; hide DecodeHeader; hide EncodeHeader; hide View; hide IsRun;
      ValidInv();
      ghost var was := S();
      WriteHead();
      phase, hist := Installing(0), hist + [View(was)];
      Record(Advance, was);
    }

    /** One disk write of install_trans. */
    method InstallEntry(tail: nat)
      requires Valid() && Inv(S()) && tail < |lh| && phase == Installing(tail)
      modifies this`disk, this`cache, this`phase, this`run, this`steps
      ensures Valid() && Inv(S()) && phase == Installing(tail + 1)
      ensures run == old(run) + [S()] && steps == old(steps) + [Advance]
    {
      hide HomeBlocks; hide Recovered; hide Word; hide DecodeHeader; hide IsRun; hide EncodeHeader;
      hide ValidDisk; hide ValidList; hide Committed; hide Coherent; hide LogBlock; hide Slot;
      ghost var was := S();
      var data := Content(LOGSTART + 1 + tail);
      cache := cache[LOGSTART + 1 + tail := Buf(data, false)];
      Bwrite(lh[tail], data);
      phase := Installing(tail + 1);
      Record(Advance, was);
      InstallKeepsInv(was);
    }

    /** install_trans: copies each logged block to its home location. */
    method InstallTrans()
      requires Valid() && phase == Installing(0)
      modifies this`disk, this`cache, this`phase, this`run, this`steps
      ensures Valid() && phase == Installing(|lh|)
      ensures Advanced() && SameHistory()
    {
      hide HomeBlocks; hide Recovered; hide Word; hide View; hide DecodeHeader; hide EncodeHeader;
      ValidInv();
      var tail := 0;
      while tail < |lh|
        invariant Valid() && Inv(S()) && 0 <= tail <= |lh| && phase == Installing(tail)
        invariant Advanced() && SameHistory()
      {
        InstallEntry(tail);
        tail := tail + 1;
      }
    }

    /** `log.lh.n = 0; write_head()`. */
    method EraseHead()
      requires Valid() && phase.Installing? && phase.t == |lh|
      modifies this`disk, this`cache, this`lh, this`phase, this`run, this`steps, this`committing
      ensures Valid() && steps == old(steps) + [Advance] && run == old(run) + [S()]
      ensures phase == Idle && lh == [] && !committing
    {
      hide HomeBlocks; hide Recovered; hide Word; hide DecodeHeader; hide EncodeHeader; hide View; hide IsRun;
      ValidInv();
      ghost var was := S();
      lh := [];
      WriteHead();
      phase, committing := Idle, false;
      Record(Advance, was);
    }

    /** `install_trans(); log.lh.n = 0; write_head()`, as commit and recovery both end. */
    method InstallAndErase()
      requires Valid() && phase == Installing(0)
      modifies this`disk, this`cache, this`lh, this`phase, this`run, this`steps, this`committing
      ensures Valid() && phase == Idle && lh == [] && !committing && Advanced() && SameHistory()
    {
      hide HomeBlocks, Recovered, Word, View, DecodeHeader, EncodeHeader, IsRun;
      InstallTrans();
      EraseHead();
    }

    /** commit: a crash after any of its disk writes recovers to the state before the group or to
        the whole group; when it returns the home blocks hold the whole group. */
    method Commit()
      requires Valid() && phase == Logging(0)
      modifies this`disk, this`cache, this`lh, this`phase, this`hist, this`run, this`steps, this`committing
      ensures Valid() && phase == Idle && lh == [] && !committing && Advanced()
      ensures hist == old(hist) + [old(View(S()))]
      ensures HomeBlocks(disk) == old(View(S()))
      ensures AllOrNothing(Last(old(hist)), old(View(S())))
    {
      hide HomeBlocks; hide Recovered; hide Word; hide View; hide DecodeHeader; hide EncodeHeader;
      hide IsRun; hide ValidDisk;
      ghost var h, v := hist, View(S());
      WriteLog();
      CommitHead();
      assert Advanced() && OneMoreGroup(h, v);
      InstallAndErase();
      assert Advanced() && OneMoreGroup(h, v);
      HistoriesRecover(run, steps, |old(run)|, h, v);
      CrashSafety(run, steps, |run| - 1);
    }

    /** A power failure: the disk survives, memory does not. */
    method PowerFail()
      requires Valid()
      modifies this
      ensures Valid() && phase == Booting && disk == old(disk) && hist == old(hist)
      ensures run == old(run) + [S()] && steps == old(steps) + [Crash]
    {
      hide HomeBlocks; hide Recovered; hide Word; hide DecodeHeader; hide EncodeHeader; hide View; hide IsRun;
      ValidInv();
      ghost var was := S();
      cache, lh, outstanding, committing := map[], [], 0, false;
      ops, phase := [], Booting;
      Record(Crash, was);
    }

    /** read_head: loads the on-disk list. */
    method ReadHead()
      requires Valid() && phase == Booting
      modifies this`lh, this`phase, this`run, this`steps
      ensures Valid() && phase == Installing(0) && Word(disk[LOGSTART], 0) <= LOGSIZE
      ensures lh == DecodeHeader(disk[LOGSTART])
      ensures steps == old(steps) + [Advance] && run == old(run) + [S()]
    {
      hide HomeBlocks; hide Recovered; hide Word; hide EncodeHeader; hide View; hide IsRun;
      ValidInv();
      ghost var was := S();
      var n := Word(disk[LOGSTART], 0);
      var i := 0;
      var list := [];
      while i < n
        invariant 0 <= i <= n && list == DecodeHeader(disk[LOGSTART])[..i]
      {
        list := list + [Word(disk[LOGSTART], i + 1)];
        i := i + 1;
      }
      lh := list;
      phase := Installing(0);
      Record(Advance, was);
    }

    /** recover_from_log: when it returns, the home blocks are those of the last committed group;
        a crash after any of its own disk writes leaves that outcome unchanged. */
    method RecoverFromLog()
      requires Valid() && phase == Booting
      modifies this`disk, this`cache, this`lh, this`phase, this`run, this`steps, this`committing
      ensures Valid() && phase == Idle && lh == [] && hist == old(hist) && Advanced()
      ensures HomeBlocks(disk) == Last(hist)
      ensures AllOrNothing(Last(hist), Last(hist))
    {
      hide HomeBlocks; hide Recovered; hide Word; hide View; hide DecodeHeader; hide EncodeHeader;
      hide IsRun; hide ValidDisk;
      ReadHead();
      InstallAndErase();
      HistoriesRecover(run, steps, |old(run)|, hist, Last(hist));
      CrashSafety(run, steps, |run| - 1);
    }

    /** One round of begin_op's loop: admitted exactly when no commit is running and the log has room
        for what is listed plus a full reservation for every outstanding operation and this one. */
    method BeginOp() returns (admitted: bool)
      requires Valid() && (phase.Idle? || committing)
      modifies this`outstanding, this`ops, this`run, this`steps
      ensures Valid()
      ensures admitted == (!committing && |lh| + (old(outstanding) + 1) * MAXOPBLOCKS <= LOGSIZE)
      ensures admitted ==> outstanding == old(outstanding) + 1 && ops == old(ops) + [{}]
      ensures !admitted ==> unchanged(this)
    {
      hide HomeBlocks; hide Recovered; hide Word; hide DecodeHeader; hide EncodeHeader; hide View; hide IsRun;
      admitted := !committing && |lh| + (outstanding + 1) * MAXOPBLOCKS <= LOGSIZE;
      if admitted {
        ValidInv();
        ghost var was := S();
        outstanding := outstanding + 1;
        ops := ops + [{}];
        Record(Begin, was);
      }
    }

    /** log_write's search of the list, and the store at the place found. */
    method Absorb(b: nat)
      modifies this`lh
      ensures lh == if Slot(old(lh), b) == |old(lh)| then old(lh) + [b] else old(lh)
      ensures multiset(lh) == multiset(old(lh)) + (if b in old(lh) then multiset{} else multiset{b})
    {
      var i := 0;
      while i < |lh| && lh[i] != b
        invariant 0 <= i <= |lh| && lh == old(lh) && forall j :: 0 <= j < i ==> lh[j] != b
      {
        i := i + 1;
      }
      assert i == Slot(lh, b);
      if i == |lh| {
        lh := lh + [b];
      } else {
        lh := lh[i := b];
      }
    }

    lemma InTransaction()
      requires Valid() && !phase.Panicked? && outstanding > 0
      ensures phase.Idle?
    {
      ValidInv();
      hide HomeBlocks, Recovered, Word, DecodeHeader, EncodeHeader, View, IsRun;
    }

    /** log_write: records the block number (once) and pins the buffer; the disk is not touched. It panics when the list
        is full, and outside a transaction. */
    method LogWrite(ghost op: nat, b: nat, data: Block) returns (panic: bool)
      requires Valid() && !phase.Panicked? && (outstanding > 0 ==> op < |ops|) && Home(b)
      modifies this`cache, this`lh, this`ops, this`phase, this`run, this`steps
      ensures panic == (|old(lh)| >= LOGSIZE || |old(lh)| >= NLOG - 1 || outstanding < 1)
      ensures Valid() && (outstanding < 1 ==> unchanged(this))
      ensures outstanding > 0 ==> phase == (if panic then Panicked else Idle)
      ensures !panic ==> View(S()) == old(View(S()))[b := data] && Dirty(S(), b)
      ensures !panic ==> multiset(lh) == multiset(old(lh)) + (if b in old(lh) then multiset{} else multiset{b})
      ensures outstanding > 0 ==> run == old(run) + [S()] && steps == old(steps) + [Step.LogWrite(op, b, data)]
    {
      panic := |lh| >= LOGSIZE || |lh| >= NLOG - 1 || outstanding < 1;
      if outstanding < 1 {
        return;
      }
      InTransaction();
      if panic {
        TooBig(op, b, data);
      } else {
        hide HomeBlocks, Recovered, Word, DecodeHeader, EncodeHeader, View, IsRun, Slot;
        Pin(op, b, data);
      }
    }

    /** The panic of a full list. */
    ghost method TooBig(op: nat, b: nat, data: Block)
      requires Valid() && phase.Idle? && op < |ops| && Home(b) && !LogWriteFits(S())
      modifies this`phase, this`run, this`steps
      ensures Valid() && phase == Panicked
      ensures run == old(run) + [S()] && steps == old(steps) + [Step.LogWrite(op, b, data)]
    {
      hide HomeBlocks, Recovered, Word, DecodeHeader, EncodeHeader, View, IsRun, Slot;
      ValidInv();
      ghost var was := S();
      LogWriteShown(was, op, b, data);
      phase := Panicked;
      Record(Step.LogWrite(op, b, data), was);
    }

    /** log_write past its tests. */
    method Pin(ghost op: nat, b: nat, data: Block)
      requires Valid() && phase.Idle? && op < |ops| && Home(b) && LogWriteFits(S())
      modifies this`cache, this`lh, this`ops, this`run, this`steps
      ensures Valid() && phase == Idle && View(S()) == old(View(S()))[b := data] && Dirty(S(), b)
      ensures multiset(lh) == multiset(old(lh)) + (if b in old(lh) then multiset{} else multiset{b})
      ensures run == old(run) + [S()] && steps == old(steps) + [Step.LogWrite(op, b, data)]
    {
      hide HomeBlocks, Recovered, Word, DecodeHeader, EncodeHeader, View, IsRun, Slot;
      ValidInv();
      ghost var was := S();
      LogWriteShown(was, op, b, data);
      hide Inv;
      Absorb(b);
      cache := cache[b := Buf(data, true)];
      ops := ops[op := ops[op] + {b}];
      assert S() == DoLogWrite(was, op, b, data);
      hide DoLogWrite;
      Record(Step.LogWrite(op, b, data), was);
    }

    /** end_op's bookkeeping: the last operation out starts the commit, if anything was logged. */
    method Retire(ghost op: nat)
      requires Valid() && phase.Idle? && op < |ops|
      modifies this`outstanding, this`committing, this`ops, this`phase, this`run, this`steps
      ensures Valid() && outstanding == old(outstanding) - 1 && View(S()) == old(View(S()))
      ensures ops == old(ops)[..op] + old(ops)[op + 1..]
      ensures committing == (outstanding == 0 && lh != [])
      ensures phase == (if committing then Logging(0) else Idle)
      ensures run == old(run) + [S()]
    {
      hide HomeBlocks; hide Recovered; hide Word; hide DecodeHeader; hide EncodeHeader; hide View; hide IsRun;
      ValidInv();
      ghost var was := S();
      EndKeepsView(was, op);
      outstanding := outstanding - 1;
      ops := ops[..op] + ops[op + 1..];
      committing := outstanding == 0 && lh != [];
      phase := if committing then Logging(0) else Idle;
      Record(End(op), was);
    }

    /** end_op: the last operation out commits the group. */
    method EndOp(ghost op: nat)
      requires Valid() && phase.Idle? && op < |ops|
      modifies this
      ensures Valid() && phase == Idle && outstanding == old(outstanding) - 1 && !committing
      ensures ops == old(ops)[..op] + old(ops)[op + 1..]
      ensures outstanding > 0 ==> disk == old(disk) && lh == old(lh) && hist == old(hist)
      ensures outstanding == 0 ==> lh == [] && HomeBlocks(disk) == old(View(S())) == Last(hist)
      ensures AllOrNothing(Last(old(hist)), old(View(S())))
    {
      hide HomeBlocks; hide Recovered; hide Word; hide DecodeHeader; hide EncodeHeader; hide View; hide IsRun;
      hide ValidDisk; hide Last;
      Retire(op);
      CrashSafety(run, steps, |run| - 1);
      if committing {
        Commit();
      }
      CrashSafety(run, steps, |run| - 1);
    }
  }
}
