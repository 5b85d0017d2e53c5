/** How many buffers are left over: log_write pins what it lists, and bget panics when nothing else is free. */
module BufferRoom {
  import opened Layout
  import opened Blocks
  import opened Indexing
  import opened Journal
  import opened JournalSafety
  import opened LogCapacity
  import opened FileCommit
  import Cache = BufferCache

  const MAXPINNED := 115             // blocks that file operations can have listed

  // ---------- how many blocks are pinned ----------

  function DirtyBlocks(s: State): (r: set<nat>) {
    set b | b in s.cache && s.cache[b].dirty
  }

  lemma StepDirties(s: State, step: Step)
    requires Inv(s) && Enabled(s, step) && !step.LogWrite?
    ensures DirtyBlocks(Do(s, step)) <= DirtyBlocks(s)
  {
    hide Word, Recovered, HomeBlocks, EncodeHeader, DecodeHeader, View, LogBlock;
  }

  lemma QuietDirties(s: State)
    requires Inv(s) && (s.phase.Idle? || s.phase.Logging?)
    ensures |DirtyBlocks(s)| == |s.lh|
  {
    hide Word, Recovered, HomeBlocks, DecodeHeader;
    assert forall b :: Dirty(s, b) <==> b in s.lh;
    assert DirtyBlocks(s) == Listed(s.lh);
    ListedSize(s.lh);
  }

  /** At every moment of a run of file operations, installation and recovery included, few blocks are pinned. */
  lemma {:induction false} RunPins(run: seq<State>, steps: seq<Step>, i: nat)
    requires IsRun(run, steps) && i < |run|
    requires forall k :: 0 <= k < |run| ==> FileOperations(run[k])
    ensures |DirtyBlocks(run[i])| <= MAXPINNED
    decreases i
  {
    hide Inv, FileOperations, Do, Enabled, DirtyBlocks, Init;
    RunInv(run, steps, i);
    FileOperationsFit(run, steps, i);
    if run[i].phase.Idle? || run[i].phase.Logging? {
      QuietDirties(run[i]);
    } else {
      StartsQuiet(run, steps);
      RunPins(run, steps, i - 1);
      RunInv(run, steps, i - 1);
      FileOperationsFit(run, steps, i - 1);
      LogWriteQuiet(run[i - 1], steps[i - 1]);
      StepDirties(run[i - 1], steps[i - 1]);
      SubsetSize(DirtyBlocks(run[i]), DirtyBlocks(run[i - 1]));
    }
  }

  lemma StartsQuiet(run: seq<State>, steps: seq<Step>)
    requires IsRun(run, steps)
    ensures run[0].phase.Idle?
  {
  }

  lemma LogWriteQuiet(s: State, step: Step)
    requires Sane(s) && Enabled(s, step) && !Do(s, step).phase.Panicked?
    ensures step.LogWrite? ==> Do(s, step).phase.Idle?
  {
    hide Word, EncodeHeader, DecodeHeader, View;
  }

  // ---------- how many buffers that leaves ----------

  function Pinned(bufs: seq<Cache.Buf>): (s: set<nat>) {
    set b: nat | b < |bufs| && bufs[b].dirty
  }

  /** Referenced buffers besides these. */
  function Held(bufs: seq<Cache.Buf>): (s: set<nat>) {
    set b: nat | b < |bufs| && bufs[b].refcnt > 0 && !bufs[b].dirty
  }

  /** Some buffer can be recycled exactly if the pinned and the referenced ones are not all. */
  lemma FreeExactly(bufs: seq<Cache.Buf>)
    ensures Cache.SomeFree(bufs) <==> |Pinned(bufs)| + |Held(bufs)| < |bufs|
  {
    var s, all := Pinned(bufs) + Held(bufs), Range(0, |bufs|);
    RangeSize(0, |bufs|);
    assert |s| == |Pinned(bufs)| + |Held(bufs)|;
    SubsetSize(s, all);
    if Cache.SomeFree(bufs) {
      var b :| 0 <= b < |bufs| && Cache.Free(bufs[b]);
      SubsetSize(s + {b}, all);
    } else {
      forall b | b in all ensures b in s { assert !Cache.Free(bufs[b]); }
      assert s == all;
    }
  }

  /** Buffers of the cache pin blocks that are pinned in the state of the log, no block twice. */
  ghost predicate PinsOf(bufs: seq<Cache.Buf>, s: State) {
    && Cache.Unique(bufs)
    && forall b :: 0 <= b < |bufs| && bufs[b].dirty ==> bufs[b].dev == 1 && bufs[b].blockno in DirtyBlocks(s)
  }

  lemma {:induction false} AsManyBlocks(bufs: seq<Cache.Buf>, t: set<nat>, blocks: set<nat>)
    requires Cache.Unique(bufs) && t <= Pinned(bufs)
    requires forall b :: b in t ==> bufs[b].dev == 1 && bufs[b].blockno in blocks
    ensures |t| <= |blocks|
    decreases |t|
  {
    if t != {} {
      var b :| b in t;
      AsManyBlocks(bufs, t - {b}, blocks - {bufs[b].blockno});
    }
  }

  /** While file operations run, bget finds a buffer to recycle as long as at most four others are referenced. */
  lemma FourMoreFit(run: seq<State>, steps: seq<Step>, i: nat, bufs: seq<Cache.Buf>)
    requires IsRun(run, steps) && i < |run| && forall k :: 0 <= k < |run| ==> FileOperations(run[k])
    requires |bufs| == Cache.NBUF && PinsOf(bufs, run[i]) && |Held(bufs)| <= 4
    ensures Cache.SomeFree(bufs)
  {
    hide IsRun, FileOperations, Cache.Unique, DirtyBlocks;
    RunPins(run, steps, i);
    AsManyBlocks(bufs, Pinned(bufs), DirtyBlocks(run[i]));
    FreeExactly(bufs);
  }
}
