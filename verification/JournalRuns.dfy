/** What a disk recovers to, told by the history of a whole run alone: log writes, commit points and crashes. */
module JournalRuns {
  import opened Layout
  import opened Blocks
  import opened Journal
  import opened JournalSafety

  /** The home blocks as of the last commit point, and with what has been logged since. */
  datatype Ledger = Ledger(committed: HomeMap, pending: HomeMap)

  /** The write of the header that lists the group. */
  predicate CommitPoint(s: State, step: Step) {
    step.Advance? && s.phase.Logging? && s.phase.t >= |s.lh|
  }

  /** A log write that does not panic adds to what is pending; the commit point makes it the committed state; a crash
      throws it away. Nothing else counts. */
  function Post(l: Ledger, s: State, step: Step): (r: Ledger) {
    match step
    case LogWrite(_, b, data) => if LogWriteFits(s) then l.(pending := l.pending[b := data]) else l
    case Crash => l.(pending := l.committed)
    case _ => if CommitPoint(s, step) then l.(committed := l.pending) else l
  }

  function Books(run: seq<State>, steps: seq<Step>, i: nat): (l: Ledger)
    requires i < |run| && |run| == |steps| + 1 && |run[0].disk| == FSSIZE
  {
    if i == 0 then Ledger(HomeBlocks(run[0].disk), HomeBlocks(run[0].disk))
    else Post(Books(run, steps, i - 1), run[i - 1], steps[i - 1])
  }

  /** The state agrees with the ledger. */
  ghost predicate Balanced(s: State, l: Ledger) {
    && ValidDisk(s.disk) && Recovered(s.disk) == l.committed
    && (s.phase.Idle? || s.phase.Logging? ==> View(s) == l.pending)
    && (s.phase.Installing? || s.phase.Booting? ==> l.pending == l.committed)
  }

  /** Steps before the commit point. */
  lemma QuietBalanced(s: State, step: Step, l: Ledger)
    requires Inv(s) && Enabled(s, step) && Balanced(s, l) && (s.phase.Idle? || s.phase.Logging?)
    requires Do(s, step).phase.Idle? || Do(s, step).phase.Logging?
    ensures Balanced(Do(s, step), Post(l, s, step))
  {
    StepKeepsInv(s, step);
    QuietStep(s, step);
    Fitting(s, step);
    hide Recovered, HomeBlocks, Word, View, Uncommitted, ValidDisk, ValidList, Sane, LogWriteFits, EncodeHeader;
  }

  lemma Fitting(s: State, step: Step)
    requires Sane(s) && Enabled(s, step) && (s.phase.Idle? || s.phase.Logging?)
    requires Do(s, step).phase.Idle? || Do(s, step).phase.Logging?
    ensures step.LogWrite? ==> LogWriteFits(s)
    ensures !step.Crash? && !CommitPoint(s, step)
  {
    hide Word, EncodeHeader, View;
  }

  lemma HistStep(s: State, step: Step)
    requires Sane(s) && Enabled(s, step)
    ensures Do(s, step).hist == if CommitPoint(s, step) then s.hist + [View(s)] else s.hist
  {
    hide Word, View, EncodeHeader, DecodeHeader, Slot, LogWriteFits;
  }

  lemma LoudPhases(s: State, step: Step)
    requires Inv(s) && Enabled(s, step)
    requires !(s.phase.Idle? || s.phase.Logging?) || !(Do(s, step).phase.Idle? || Do(s, step).phase.Logging?)
    ensures step.LogWrite? ==> s.phase.Idle? && !LogWriteFits(s) && Do(s, step).phase.Panicked?
    ensures Do(s, step).phase.Installing? || Do(s, step).phase.Booting? ==>
      CommitPoint(s, step) || step.Crash? || s.phase.Installing? || s.phase.Booting?
    ensures Do(s, step).phase.Idle? || Do(s, step).phase.Logging? ==>
      Do(s, step).phase.Idle? && s.phase.Installing? && !s.phase.Idle? && !CommitPoint(s, step)
  {
    hide Word, View, EncodeHeader, DecodeHeader, Slot, LogWriteFits, ValidDisk, ValidList, Recovered, HomeBlocks;
  }

  lemma InvRecovered(s: State)
    requires Inv(s)
    ensures Sane(s) && ValidDisk(s.disk) && s.hist != [] && Recovered(s.disk) == Last(s.hist)
  {
    hide Word, Recovered, HomeBlocks;
  }

  lemma PostIs(l: Ledger, s: State, step: Step)
    ensures Post(l, s, step).committed == if CommitPoint(s, step) then l.pending else l.committed
    ensures CommitPoint(s, step) ==> Post(l, s, step).pending == l.pending
    ensures step.Crash? ==> Post(l, s, step).pending == l.committed
    ensures !step.Crash? && !(step.LogWrite? && LogWriteFits(s)) ==> Post(l, s, step).pending == l.pending
  {
  }

  /** The other steps: the panic, the commit point, crashes, installation and recovery. */
  lemma LoudBalanced(s: State, step: Step, l: Ledger)
    requires Inv(s) && Enabled(s, step) && Balanced(s, l)
    requires !(s.phase.Idle? || s.phase.Logging?) || !(Do(s, step).phase.Idle? || Do(s, step).phase.Logging?)
    ensures Balanced(Do(s, step), Post(l, s, step))
  {
    hide Inv, Do, Enabled, Recovered, View, ValidDisk, LogWriteFits, Post, CommitPoint;
    InvRecovered(s);
    StepKeepsInv(s, step);
    var r := Do(s, step);
    InvRecovered(r);
    LoudPhases(s, step);
    HistStep(s, step);
    PostIs(l, s, step);
    CommitPointLogs(s, step);
    if r.phase.Idle? { IdleView(s, step); }
  }

  lemma CommitPointLogs(s: State, step: Step)
    ensures CommitPoint(s, step) ==> s.phase.Logging? && !step.Crash? && !step.LogWrite?
  {
  }

  /** Installation and recovery end with every home block in place. */
  lemma IdleView(s: State, step: Step)
    requires Inv(s) && Enabled(s, step) && !s.phase.Idle? && !s.phase.Logging? && Do(s, step).phase.Idle?
    requires Inv(Do(s, step))
    ensures View(Do(s, step)) == Last(Do(s, step).hist)
  {
    hide Recovered, Word, View, EncodeHeader, DecodeHeader, HomeBlocks;
    CleanView(Do(s, step));
  }

  /** At every moment of every run, with any interleaving of operations, evictions and crashes: recovery would restore
      the writes logged before the last commit point, less those that crashes threw away, and no others; and while a
      group is open, file system code sees these and the writes logged since. */
  lemma {:induction false} RunBalanced(run: seq<State>, steps: seq<Step>, i: nat)
    requires IsRun(run, steps) && i < |run|
    ensures |run[0].disk| == FSSIZE && Balanced(run[i], Books(run, steps, i))
  {
    hide Do, Enabled, Recovered, HomeBlocks, Word, View, Balanced, Post;
    RunInv(run, steps, i);
    if i == 0 {
      StartBalanced(run[0]);
    } else {
      RunBalanced(run, steps, i - 1);
      RunInv(run, steps, i - 1);
      var s, step, l := run[i - 1], steps[i - 1], Books(run, steps, i - 1);
      hide Inv;
      if (s.phase.Idle? || s.phase.Logging?) && (run[i].phase.Idle? || run[i].phase.Logging?) {
        QuietBalanced(s, step, l);
      } else {
        LoudBalanced(s, step, l);
      }
    }
  }

  lemma StartBalanced(s: State)
    requires Init(s) && Inv(s)
    ensures Balanced(s, Ledger(HomeBlocks(s.disk), HomeBlocks(s.disk)))
  {
    hide Recovered, HomeBlocks, Word, View;
    CleanView(s);
  }

  /** A commit point never splits an operation: none is under way. */
  lemma CommitPointIsQuiet(run: seq<State>, steps: seq<Step>, i: nat)
    requires IsRun(run, steps) && i < |steps| && CommitPoint(run[i], steps[i])
    ensures run[i].ops == []
  {
    RunInv(run, steps, i);
    hide IsRun, Recovered, HomeBlocks, Word, View;
  }

  // ---------- every group has a start ----------

  ghost predicate Open(run: seq<State>, i: nat, j: nat) {
    j < |run| && forall k :: i <= k <= j ==> run[k].phase.Idle? || run[k].phase.Logging?
  }

  /** Every moment before a commit point belongs to a group: it began in an idle state without operations, at the start
      of the run or when the last group was installed, and only idle and logging states lie between. */
  lemma {:induction false} GroupStart(run: seq<State>, steps: seq<Step>, j: nat) returns (i: nat)
    requires IsRun(run, steps) && j < |run| && (run[j].phase.Idle? || run[j].phase.Logging?)
    ensures i <= j && run[i].phase.Idle? && run[i].ops == [] && Open(run, i, j)
    ensures i == 0 || run[i - 1].phase.Installing?
  {
    hide Do, Enabled, HomeBlocks, Word;
    if j == 0 {
      i := 0;
    } else if run[j - 1].phase.Idle? || run[j - 1].phase.Logging? {
      i := GroupStart(run, steps, j - 1);
    } else {
      RunInv(run, steps, j - 1);
      GroupStarts(run[j - 1], steps[j - 1]);
      i := j;
    }
  }

  lemma GroupStarts(s: State, step: Step)
    requires Inv(s) && Enabled(s, step) && !s.phase.Idle? && !s.phase.Logging?
    requires Do(s, step).phase.Idle? || Do(s, step).phase.Logging?
    ensures s.phase.Installing? && Do(s, step).phase.Idle? && Do(s, step).ops == []
  {
    hide HomeBlocks, Word, Recovered, View, EncodeHeader;
  }

  lemma GroupPublishes(run: seq<State>, steps: seq<Step>, i: nat, j: nat)
    requires IsRun(run, steps) && i <= j < |steps| && run[i].phase.Idle? && run[i].ops == [] && Open(run, i, j)
    requires CommitPoint(run[j], steps[j])
    ensures |run[i].disk| == FSSIZE && run[j].ops == []
    ensures forall k :: i <= k <= j ==> ValidDisk(run[k].disk) && Recovered(run[k].disk) == View(run[i])
    ensures ValidDisk(run[j + 1].disk) && Recovered(run[j + 1].disk) == Effect(View(run[i]), steps[i..j])
  {
    CommitPointInstalls(run, steps, j);
    hide Recovered, View, HomeBlocks, Do, Enabled, Word, ValidDisk, ValidList, Inv, Effect;
    CrashSafety(run, steps, i);
    CommitPublishesGroup(run, steps, i, j);
    forall k | i <= k <= j ensures ValidDisk(run[k].disk) && Recovered(run[k].disk) == View(run[i]) {
      GroupEffect(run, steps, i, k);
      CrashSafety(run, steps, k);
    }
  }

  /** Every commit point publishes a whole group: the home blocks as they were when the group began, with every write
      logged since, by whichever operation. Up to then a crash recovers what they were. */
  lemma EveryCommitPublishes(run: seq<State>, steps: seq<Step>, j: nat) returns (i: nat)
    requires IsRun(run, steps) && j < |steps| && CommitPoint(run[j], steps[j])
    ensures i <= j && run[i].phase.Idle? && run[i].ops == [] && Open(run, i, j) && run[j].ops == []
    ensures i == 0 || run[i - 1].phase.Installing?
    ensures forall k :: i <= k <= j ==> ValidDisk(run[k].disk) && Recovered(run[k].disk) == View(run[i])
    ensures ValidDisk(run[j + 1].disk) && Recovered(run[j + 1].disk) == Effect(View(run[i]), steps[i..j])
  {
    i := GroupStart(run, steps, j);
    GroupPublishes(run, steps, i, j);
  }

  lemma CommitPointInstalls(run: seq<State>, steps: seq<Step>, j: nat)
    requires IsRun(run, steps) && j < |steps| && CommitPoint(run[j], steps[j])
    ensures run[j + 1].phase.Installing?
  {
    hide Recovered, View, HomeBlocks, Word, EncodeHeader, Bwrite;
    assert run[j + 1] == Do(run[j], steps[j]);
  }
}
