/** Crash safety of the log over whole runs. */
module JournalSafety {
  import opened Layout
  import opened Blocks
  import opened Journal

  /** With an empty header, recovery changes nothing. */
  lemma RecoveredEmpty(disk: seq<Block>)
    requires ValidDisk(disk) && Word(disk[LOGSTART], 0) == 0
    ensures Recovered(disk) == HomeBlocks(disk)
  {
    hide Word;
  }

  lemma Domains(disk: seq<Block>, s: State)
    requires ValidDisk(disk) && |s.disk| == FSSIZE
    ensures forall b :: b in Recovered(disk) <==> Home(b)
    ensures forall b :: b in HomeBlocks(disk) <==> Home(b)
    ensures forall b :: b in View(s) <==> Home(b)
  {
    hide Word; hide DecodeHeader; hide Bread; hide Slot; hide LogBlock;
  }

  lemma RecoveredAt(disk: seq<Block>, b: nat)
    requires ValidDisk(disk) && Home(b)
    ensures var lh := DecodeHeader(disk[LOGSTART]);
            && b in Recovered(disk)
            && Recovered(disk)[b] == if Slot(lh, b) < |lh| then LogBlock(disk, Slot(lh, b)) else disk[b]
  {
    hide Word; hide DecodeHeader;
  }

  lemma RecoveredFrame(d: seq<Block>, e: seq<Block>)
    requires ValidDisk(d) && ValidDisk(e)
    requires DecodeHeader(d[LOGSTART]) == DecodeHeader(e[LOGSTART])
    requires forall i :: 0 <= i < |DecodeHeader(d[LOGSTART])| ==> LogBlock(d, i) == LogBlock(e, i)
    requires forall b :: Home(b) && b !in DecodeHeader(d[LOGSTART]) ==> d[b] == e[b]
    ensures Recovered(d) == Recovered(e)
  {
    hide Word;
    var lh := DecodeHeader(d[LOGSTART]);
    forall b: nat | 0 <= b < FSSIZE && Home(b) ensures Recovered(d)[b] == Recovered(e)[b] {
      if Slot(lh, b) < |lh| {
        assert LogBlock(d, Slot(lh, b)) == LogBlock(e, Slot(lh, b));
      } else {
        assert b !in lh;
      }
    }
  }

  lemma BeginEndKeepInv(s: State, step: Step)
    requires Inv(s) && Enabled(s, step) && (step.Begin? || step.End?)
    ensures Inv(Do(s, step))
  {
    hide Word; hide Recovered; hide HomeBlocks;
  }

  /** Two states that differ in clean buffers alone. */
  lemma CleanBuffersKeepInv(s: State, r: State)
    requires Inv(s) && !s.phase.Booting? && r == s.(cache := r.cache) && Coherent(r)
    requires forall b :: Dirty(r, b) <==> Dirty(s, b)
    requires forall b :: Dirty(s, b) ==> b in r.cache && r.cache[b] == s.cache[b]
    ensures Inv(r) && View(r) == View(s)
  {
    hide Word; hide Recovered; hide HomeBlocks; hide Slot; hide LogBlock; hide ValidDisk; hide ValidList;
    forall b: nat | b < FSSIZE ensures Bread(r, b) == Bread(s, b) {
      assert Dirty(s, b) <==> Dirty(r, b);
    }
  }

  lemma LogWriteKeepsInv(s: State, op: nat, b: nat, data: Block)
    requires Inv(s) && Enabled(s, LogWrite(op, b, data))
    ensures Inv(Do(s, LogWrite(op, b, data)))
    ensures LogWriteFits(s) ==> View(Do(s, LogWrite(op, b, data))) == View(s)[b := data]
  {
    hide Word; hide Recovered; hide HomeBlocks; hide View;
    var r := Do(s, LogWrite(op, b, data));
    if LogWriteFits(s) {
      forall c ensures c in r.lh <==> c in s.lh || c == b {}
      LogWriteShows(s, op, b, data);
    }
  }

  /** File system code sees a logged block at once. */
  lemma LogWriteShows(s: State, op: nat, b: nat, data: Block)
    requires |s.disk| == FSSIZE && op < |s.ops| && Home(b) && LogWriteFits(s)
    ensures View(DoLogWrite(s, op, b, data)) == View(s)[b := data]
  {
    hide Slot;
  }

  lemma EndKeepsView(s: State, op: nat)
    requires |s.disk| == FSSIZE && op < |s.ops|
    ensures View(DoEnd(s, op)) == View(s)
  {
  }

  lemma CrashKeepsInv(s: State)
    requires Inv(s)
    ensures Inv(Do(s, Crash))
  {
    hide Word; hide Recovered; hide HomeBlocks;
  }

  lemma LoggingKeepsInv(s: State)
    requires Inv(s) && s.phase.Logging? && s.phase.t < |s.lh|
    ensures Inv(Do(s, Advance))
    ensures View(Do(s, Advance)) == View(s)
  {
    hide Word;
    var r, t := Do(s, Advance), s.phase.t;
    assert s.lh[t] in s.lh && Dirty(s, s.lh[t]);
    assert HomeBlocks(r.disk) == HomeBlocks(s.disk);
    RecoveredEmpty(s.disk);
    RecoveredEmpty(r.disk);
    assert Coherent(r);
    assert forall b: nat | Home(b) :: Bread(r, b) == Bread(s, b);
    assert forall b :: Dirty(r, b) <==> Dirty(s, b);
  }

  /** The commit point: what recovery would restore jumps from the old group to the new one. */
  lemma HeaderWriteCommits(s: State, hb: Block, r: State)
    requires Inv(s) && s.phase.Logging? && s.phase.t == |s.lh|
    requires hb == EncodeHeader(Bread(s, LOGSTART), s.lh) && r == Bwrite(s, LOGSTART, hb)
    ensures ValidDisk(r.disk) && DecodeHeader(r.disk[LOGSTART]) == s.lh
    ensures Recovered(r.disk) == View(s)
  {
    hide Word; hide EncodeHeader; hide DecodeHeader; hide HomeBlocks; hide Recovered;
    HeaderRoundTrip(Bread(s, LOGSTART), s.lh);
    Domains(r.disk, s);
    forall b | Home(b)
      ensures Recovered(r.disk)[b] == View(s)[b]
    {
      var i := Slot(s.lh, b);
      RecoveredAt(r.disk, b);
      if i < |s.lh| {
        assert LogBlock(r.disk, i) == LogBlock(s.disk, i) == Bread(s, s.lh[i]);
      } else {
        assert b !in s.lh && !Dirty(s, b);
      }
    }
  }

  lemma HeaderWriteKeepsInv(s: State)
    requires Inv(s) && s.phase.Logging? && s.phase.t >= |s.lh|
    ensures Inv(Do(s, Advance))
  {
    hide Word; hide EncodeHeader; hide DecodeHeader; hide Recovered; hide View; hide HomeBlocks;
    var r := Do(s, Advance);
    var hb := EncodeHeader(Bread(s, LOGSTART), s.lh);
    HeaderWriteCommits(s, hb, Bwrite(s, LOGSTART, hb));
    assert Coherent(r);
    forall b | Dirty(r, b)
      ensures b in r.lh[0..] && r.cache[b].data == LogBlock(r.disk, Slot(s.lh, b))
    {
      assert Dirty(s, b) && b in s.lh;
      var i := Slot(s.lh, b);
      assert LogBlock(s.disk, i) == Bread(s, s.lh[i]);
    }
  }

  lemma InstallKeepsRecovered(s: State)
    requires Inv(s) && s.phase.Installing? && s.phase.t < |s.lh|
    ensures ValidDisk(Do(s, Advance).disk) && DecodeHeader(Do(s, Advance).disk[LOGSTART]) == s.lh
    ensures Recovered(Do(s, Advance).disk) == Recovered(s.disk)
    ensures Bread(s, LOGSTART + 1 + s.phase.t) == LogBlock(s.disk, s.phase.t)
    ensures forall i :: 0 <= i < |s.lh| ==> LogBlock(Do(s, Advance).disk, i) == LogBlock(s.disk, i)
  {
    hide Word; hide EncodeHeader; hide Recovered; hide DecodeHeader;
    var r, t := Do(s, Advance), s.phase.t;
    assert Home(s.lh[t]);
    assert !Dirty(s, LOGSTART + 1 + t);
    RecoveredFrame(s.disk, r.disk);
  }

  lemma InstallKeepsInv(s: State)
    requires Inv(s) && s.phase.Installing? && s.phase.t < |s.lh|
    ensures Inv(Do(s, Advance))
  {
    hide Word; hide EncodeHeader; hide Recovered; hide View; hide HomeBlocks; hide DecodeHeader; hide ValidDisk;
    InstallKeepsRecovered(s);
    var r, t := Do(s, Advance), s.phase.t;
    assert Coherent(r);
    forall b | Dirty(r, b)
      ensures b in r.lh[t + 1..] && r.cache[b].data == LogBlock(r.disk, Slot(s.lh, b))
    {
      assert Dirty(s, b) && b != s.lh[t];
    }
    forall i | 0 <= i < t + 1 ensures r.disk[r.lh[i]] == LogBlock(r.disk, i) {
      assert r.lh[i] != LOGSTART + 1 + t;
    }
  }

  /** Erasing the header after every entry is installed loses nothing. */
  lemma ClearKeepsInv(s: State)
    requires Inv(s) && s.phase.Installing? && s.phase.t >= |s.lh|
    ensures Inv(Do(s, Advance))
  {
    hide Word; hide EncodeHeader; hide DecodeHeader; hide Recovered; hide View;
    var r := Do(s, Advance);
    HeaderRoundTrip(Bread(s, LOGSTART), []);
    Domains(s.disk, r);
    Domains(r.disk, r);
    forall b | Home(b) ensures HomeBlocks(r.disk)[b] == Recovered(s.disk)[b] {
      RecoveredAt(s.disk, b);
    }
    RecoveredEmpty(r.disk);
  }

  lemma BootKeepsInv(s: State)
    requires Inv(s) && s.phase.Booting?
    ensures Inv(Do(s, Advance))
  {
    hide Recovered; hide HomeBlocks; hide Word;
  }

  lemma StepKeepsInv(s: State, step: Step)
    requires Inv(s) && Enabled(s, step)
    ensures Inv(Do(s, step))
  {
    hide Recovered; hide HomeBlocks; hide Word; hide View; hide ValidDisk; hide ValidList; hide Committed;
    match step
    case Begin => BeginEndKeepInv(s, step);
    case End(_) => BeginEndKeepInv(s, step);
    case Read(b) => assert Coherent(Do(s, step)); CleanBuffersKeepInv(s, Do(s, step));
    case Evict(b) =>
      if !s.phase.Booting? { CleanBuffersKeepInv(s, Do(s, step)); }
    case LogWrite(op, b, data) => LogWriteKeepsInv(s, op, b, data);
    case Crash => CrashKeepsInv(s);
    case Advance =>
      match s.phase
      case Booting => BootKeepsInv(s);
      case Logging(t) => if t < |s.lh| { LoggingKeepsInv(s); } else { HeaderWriteKeepsInv(s); }
      case Installing(t) => if t < |s.lh| { InstallKeepsInv(s); } else { ClearKeepsInv(s); }
  }

  lemma CleanView(s: State)
    requires Coherent(s) && forall b :: !Dirty(s, b)
    ensures View(s) == HomeBlocks(s.disk)
  {
    forall b: nat | Home(b) ensures Bread(s, b) == s.disk[b] {
      assert !Dirty(s, b);
    }
  }

  lemma Extend(run: seq<State>, steps: seq<Step>, step: Step)
    requires IsRun(run, steps) && Sane(run[|run| - 1]) && Enabled(run[|run| - 1], step)
    ensures IsRun(run + [Do(run[|run| - 1], step)], steps + [step])
  {
    hide Word; hide Do; hide Enabled; hide HomeBlocks;
    var run', steps' := run + [Do(run[|run| - 1], step)], steps + [step];
    forall i | 0 <= i < |steps'|
      ensures Sane(run'[i]) && Enabled(run'[i], steps'[i]) && run'[i + 1] == Do(run'[i], steps'[i])
    {
      assert run'[i] == run[i];
      if i < |steps| { assert run'[i + 1] == run[i + 1]; }
    }
  }

  lemma InitInv(s: State)
    requires Init(s)
    ensures Inv(s)
  {
    RecoveredEmpty(s.disk);
  }

  lemma {:induction false} RunInv(run: seq<State>, steps: seq<Step>, i: nat)
    requires IsRun(run, steps) && i < |run|
    ensures Inv(run[i])
  {
    hide Inv;
    if i == 0 {
      InitInv(run[0]);
    } else {
      RunInv(run, steps, i - 1);
      StepKeepsInv(run[i - 1], steps[i - 1]);
    }
  }

  /** At every moment of every run, with any interleaving of operations, evictions and crashes:
      recovery would restore exactly the last committed group, all blocks alike; and until the
      commit point no home block on disk holds anything newer than that group. */
  lemma CrashSafety(run: seq<State>, steps: seq<Step>, i: nat)
    requires IsRun(run, steps) && i < |run|
    ensures ValidDisk(run[i].disk) && run[i].hist != []
    ensures Recovered(run[i].disk) == Last(run[i].hist)
    ensures !run[i].phase.Installing? && !run[i].phase.Booting? ==> HomeBlocks(run[i].disk) == Last(run[i].hist)
    ensures run[i].phase.Idle? && run[i].ops == [] ==> View(run[i]) == Last(run[i].hist)
  {
    hide Recovered; hide HomeBlocks; hide Word;
    RunInv(run, steps, i);
    var s := run[i];
    if s.phase.Idle? && s.ops == [] {
      CleanView(s);
    }
  }

  lemma HistoriesRecover(run: seq<State>, steps: seq<Step>, from: nat, h: seq<HomeMap>, v: HomeMap)
    requires IsRun(run, steps) && h != []
    requires forall i :: from <= i < |run| ==> run[i].hist == h || run[i].hist == h + [v]
    ensures forall i :: from <= i < |run| ==>
              ValidDisk(run[i].disk) && (Recovered(run[i].disk) == Last(h) || Recovered(run[i].disk) == v)
  {
    hide IsRun; hide ValidDisk; hide Recovered;
    forall i | from <= i < |run|
      ensures ValidDisk(run[i].disk) && (Recovered(run[i].disk) == Last(h) || Recovered(run[i].disk) == v)
    {
      CrashSafety(run, steps, i);
    }
  }

  // ---------- what a committed group is ----------

  /** The home blocks after the logged writes among `steps`, in order. */
  function Effect(m: HomeMap, steps: seq<Step>): (r: HomeMap) {
    if steps == [] then m
    else
      var before := Effect(m, steps[..|steps| - 1]);
      match steps[|steps| - 1]
      case LogWrite(_, b, data) => before[b := data]
      case _ => before
  }

  lemma QuietStep(s: State, step: Step)
    requires Inv(s) && Enabled(s, step) && (s.phase.Idle? || s.phase.Logging?)
    requires Do(s, step).phase.Idle? || Do(s, step).phase.Logging?
    ensures Do(s, step).hist == s.hist
    ensures View(Do(s, step)) == match step case LogWrite(_, b, data) => View(s)[b := data] case _ => View(s)
  {
    hide Recovered; hide HomeBlocks; hide Word; hide ValidDisk; hide ValidList; hide Sane; hide EncodeHeader;
    match step
    case Begin =>
    case End(_) =>
    case Read(_) => hide View; CleanBuffersKeepInv(s, Do(s, step));
    case Evict(_) => hide View; CleanBuffersKeepInv(s, Do(s, step));
    case LogWrite(op, b, data) => hide View; LogWriteKeepsInv(s, op, b, data);
    case Crash =>
    case Advance => hide View; LoggingKeepsInv(s);
  }

  /** Between two commit points, what file system code sees is the last committed group overlaid
      with every write logged since, by whichever operation. */
  lemma {:induction false} GroupEffect(run: seq<State>, steps: seq<Step>, i: nat, j: nat)
    requires IsRun(run, steps) && i <= j < |run| && run[i].phase.Idle? && run[i].ops == []
    requires forall k :: i <= k <= j ==> run[k].phase.Idle? || run[k].phase.Logging?
    ensures run[i].hist != [] && |run[j].disk| == FSSIZE
    ensures run[j].hist == run[i].hist
    ensures View(run[j]) == Effect(Last(run[i].hist), steps[i..j])
    decreases j
  {
    hide View; hide Do; hide Enabled;
    RunInv(run, steps, j);
    if i == j {
      CrashSafety(run, steps, i);
    } else {
      GroupEffect(run, steps, i, j - 1);
      RunInv(run, steps, j - 1);
      QuietStep(run[j - 1], steps[j - 1]);
      assert steps[i..j][..j - 1 - i] == steps[i..j - 1];
    }
  }

  /** The commit point publishes the whole group at once: from a group boundary `i` to the header
      write at `j`, what recovery restores goes from the old group to the old group plus every
      write logged in between, and at `j` no operation is unfinished. */
  lemma CommitPublishesGroup(run: seq<State>, steps: seq<Step>, i: nat, j: nat)
    requires IsRun(run, steps) && i <= j < |steps| && run[i].phase.Idle? && run[i].ops == []
    requires forall k :: i <= k <= j ==> run[k].phase.Idle? || run[k].phase.Logging?
    requires run[j].phase.Logging? && run[j + 1].phase.Installing?
    ensures ValidDisk(run[j].disk) && ValidDisk(run[j + 1].disk) && run[i].hist != []
    ensures run[j].ops == []
    ensures Recovered(run[j].disk) == Last(run[i].hist)
    ensures Recovered(run[j + 1].disk) == Effect(Last(run[i].hist), steps[i..j])
    ensures run[j + 1].hist == run[i].hist + [Effect(Last(run[i].hist), steps[i..j])]
  {
    hide View; hide Recovered; hide HomeBlocks; hide Word; hide EncodeHeader;
    GroupEffect(run, steps, i, j);
    RunInv(run, steps, j);
    CrashSafety(run, steps, j);
    CrashSafety(run, steps, j + 1);
  }

  ghost predicate RecoveryOnly(step: Step) {
    step.Advance? || step.Crash? || step.Read? || step.Evict?
  }

  /** Recovery completes with the last committed group, however many times it crashes on the way. */
  lemma {:induction false} RecoveryRestores(run: seq<State>, steps: seq<Step>, i: nat, j: nat)
    requires IsRun(run, steps) && i <= j < |run| && run[i].phase.Booting?
    requires forall k :: i <= k < j ==> RecoveryOnly(steps[k])
    ensures run[j].hist == run[i].hist && run[j].ops == []
    ensures ValidDisk(run[i].disk) && ValidDisk(run[j].disk)
    ensures Recovered(run[j].disk) == Recovered(run[i].disk)
    ensures run[j].phase.Booting? || run[j].phase.Installing? || run[j].phase.Idle?
    ensures run[j].phase.Idle? ==> HomeBlocks(run[j].disk) == Recovered(run[i].disk)
    decreases j
  {
    hide View; hide Recovered; hide HomeBlocks; hide Word; hide EncodeHeader; hide DecodeHeader;
    CrashSafety(run, steps, i);
    CrashSafety(run, steps, j);
    RunInv(run, steps, j);
    if i < j {
      RecoveryRestores(run, steps, i, j - 1);
      assert RecoveryOnly(steps[j - 1]);
    }
  }
}
