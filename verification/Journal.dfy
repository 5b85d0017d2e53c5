/** The redo log as a state machine over concurrent operations, cache evictions and crashes.
    Every disk write of the commit protocol is one step, so a crash may fall between any two. */
module Journal {
  import opened Layout
  import opened Blocks

  // ---------- the on-disk header ----------

  /** Stores the first `k` block numbers of `lh` after the count, leaving later words stale. */
  function PutEntries(b: Block, lh: seq<nat>, k: nat): (r: Block)
    requires k <= |lh| <= LOGSIZE && forall i :: 0 <= i < |lh| ==> lh[i] < FSSIZE
  {
    if k == 0 then b else SetWord(PutEntries(b, lh, k - 1), k, lh[k - 1])
  }

  function EncodeHeader(b: Block, lh: seq<nat>): (r: Block)
    requires |lh| <= LOGSIZE && forall i :: 0 <= i < |lh| ==> lh[i] < FSSIZE
  {
    PutEntries(SetWord(b, 0, |lh|), lh, |lh|)
  }

  function DecodeHeader(b: Block): (lh: seq<nat>)
    requires Word(b, 0) <= LOGSIZE
  {
    seq(Word(b, 0), i requires 0 <= i < Word(b, 0) => Word(b, i + 1))
  }

  lemma {:induction false} PutEntriesWords(b: Block, lh: seq<nat>, k: nat, j: nat)
    requires k <= |lh| <= LOGSIZE && j < WORDS && forall i :: 0 <= i < |lh| ==> lh[i] < FSSIZE
    ensures Word(PutEntries(b, lh, k), j) == if 1 <= j <= k then lh[j - 1] else Word(b, j)
  {
    if k > 0 {
      PutEntriesWords(b, lh, k - 1, j);
      WordAfterSet(PutEntries(b, lh, k - 1), k, lh[k - 1], j);
    }
  }

  /** A header written over any old header block reads back as the list that was written. */
  lemma HeaderRoundTrip(b: Block, lh: seq<nat>)
    requires |lh| <= LOGSIZE && forall i :: 0 <= i < |lh| ==> lh[i] < FSSIZE
    ensures Word(EncodeHeader(b, lh), 0) == |lh|
    ensures DecodeHeader(EncodeHeader(b, lh)) == lh
  {
    hide Word; hide SetWord;
    var z := SetWord(b, 0, |lh|);
    PutEntriesWords(z, lh, |lh|, 0);
    WordAfterSet(b, 0, |lh|, 0);
    forall i | 0 <= i < |lh| ensures Word(EncodeHeader(b, lh), i + 1) == lh[i] {
      PutEntriesWords(z, lh, |lh|, i + 1);
    }
  }

  /** The header block holds a count and then that many block numbers. */
  predicate HeaderIs(b: Block, lh: seq<nat>) {
    Four(b, 0) == |lh| <= 120 && forall i :: 0 <= i < |lh| ==> Four(b, 4 + 4 * i) == lh[i]
  }

  lemma HeaderBytes(b: Block, lh: seq<nat>)
    requires Word(b, 0) <= LOGSIZE
    ensures HeaderIs(b, lh) <==> lh == DecodeHeader(b)
  {
    hide Word, Four;
    WordIsFour(b, 0);
    forall i: nat | i < Word(b, 0) ensures Four(b, 4 + 4 * i) == DecodeHeader(b)[i] { WordIsFour(b, i + 1); }
  }

  /** write_head leaves these bytes, whatever the block held. */
  lemma HeaderWritten(b: Block, lh: seq<nat>)
    requires |lh| <= LOGSIZE && forall i :: 0 <= i < |lh| ==> lh[i] < FSSIZE
    ensures HeaderIs(EncodeHeader(b, lh), lh)
  {
    hide Word, Four, EncodeHeader;
    HeaderRoundTrip(b, lh);
    HeaderBytes(EncodeHeader(b, lh), lh);
  }

  // ---------- states and steps ----------

  datatype Buf = Buf(data: Block, dirty: bool)

  /** `Logging(t)`, `Installing(t)`: the next disk write of commit or recovery is entry `t` of the
      header list (or the header itself when t is its length). `Booting`: memory is lost. */
  datatype Phase = Idle | Logging(t: nat) | Installing(t: nat) | Booting | Panicked

  type HomeMap = map<nat, Block>

  /** `ops` holds, for each operation between begin_op and end_op, the blocks it has logged.
      `hist` is what the home blocks held at format time and after each committed group. */
  datatype State = State(disk: seq<Block>, cache: map<nat, Buf>, lh: seq<nat>,
                         ops: seq<set<nat>>, phase: Phase, hist: seq<HomeMap>)

  datatype Step =
    | Begin
    | Read(b: nat)
    | Evict(b: nat)
    | LogWrite(op: nat, b: nat, data: Block)
    | End(op: nat)
    | Advance
    | Crash

  function Bread(s: State, b: nat): (r: Block)
    requires |s.disk| == FSSIZE && b < FSSIZE
  {
    if b in s.cache then s.cache[b].data else s.disk[b]
  }

  /** What file system code sees in the home blocks. */
  function View(s: State): (m: HomeMap)
    requires |s.disk| == FSSIZE
  {
    map b: nat | 0 <= b < FSSIZE && Home(b) :: Bread(s, b)
  }

  /** Block `i` of the on-disk log, after the header. */
  function LogBlock(disk: seq<Block>, i: nat): (r: Block)
    requires |disk| == FSSIZE && i < NLOG - 1
  {
    disk[LOGSTART + 1 + i]
  }

  function HomeBlocks(disk: seq<Block>): (m: HomeMap)
    requires |disk| == FSSIZE
  {
    map b: nat | 0 <= b < FSSIZE && Home(b) :: disk[b]
  }

  /** Position of `b` in the header list, or the length of the list: the search of log_write. */
  function Slot(lh: seq<nat>, b: nat): (i: nat)
    ensures i <= |lh|
    ensures i < |lh| ==> lh[i] == b
    ensures i == |lh| ==> b !in lh
    ensures forall j :: 0 <= j < i ==> lh[j] != b
  {
    if lh == [] then 0 else if lh[0] == b then 0 else 1 + Slot(lh[1..], b)
  }

  ghost predicate ValidList(lh: seq<nat>) {
    && |lh| < NLOG
    && (forall i :: 0 <= i < |lh| ==> Home(lh[i]))
    && (forall i, j :: 0 <= i < j < |lh| ==> lh[i] != lh[j])
  }

  ghost predicate ValidDisk(disk: seq<Block>) {
    && |disk| == FSSIZE
    && Word(disk[LOGSTART], 0) < NLOG
    && ValidList(DecodeHeader(disk[LOGSTART]))
  }

  /** What the home blocks hold once recovery from this disk has completed. */
  ghost function Recovered(disk: seq<Block>): (m: HomeMap)
    requires ValidDisk(disk)
  {
    var lh := DecodeHeader(disk[LOGSTART]);
    map b: nat | 0 <= b < FSSIZE && Home(b) ::
      if Slot(lh, b) < |lh| then LogBlock(disk, Slot(lh, b)) else disk[b]
  }

  /** What a step needs in order to be defined at all; the invariant below implies it. */
  predicate Sane(s: State) {
    && |s.disk| == FSSIZE && |s.lh| < NLOG
    && (forall i :: 0 <= i < |s.lh| ==> s.lh[i] < FSSIZE)
    && Word(s.disk[LOGSTART], 0) <= LOGSIZE
  }

  predicate LogWriteFits(s: State) {
    |s.lh| < LOGSIZE && |s.lh| < NLOG - 1
  }

  predicate Enabled(s: State, step: Step)
    requires |s.disk| == FSSIZE
  {
    match step
    case Begin => s.phase.Idle? && |s.lh| + (|s.ops| + 1) * MAXOPBLOCKS <= LOGSIZE
    case Read(b) => !s.phase.Panicked? && !s.phase.Booting? && b < FSSIZE && b !in s.cache
    case Evict(b) => b in s.cache && !s.cache[b].dirty
    case LogWrite(op, b, _) => s.phase.Idle? && op < |s.ops| && Home(b)
    case End(op) => s.phase.Idle? && op < |s.ops|
    case Advance => s.phase.Booting? || s.phase.Logging? || s.phase.Installing?
    case Crash => true
  }

  function DoLogWrite(s: State, op: nat, b: nat, data: Block): (r: State)
    requires op < |s.ops|
  {
    if !LogWriteFits(s) then s.(phase := Panicked)
    else s.(lh := if Slot(s.lh, b) == |s.lh| then s.lh + [b] else s.lh,
            cache := s.cache[b := Buf(data, true)],
            ops := s.ops[op := s.ops[op] + {b}])
  }

  function DoEnd(s: State, op: nat): (r: State)
    requires op < |s.ops|
  {
    var left := s.ops[..op] + s.ops[op + 1..];
    s.(ops := left, phase := if left == [] && s.lh != [] then Logging(0) else s.phase)
  }

  /** bwrite of block `b`: the disk gets the data and the buffer is clean again. */
  function Bwrite(s: State, b: nat, data: Block): (r: State)
    requires b < |s.disk|
  {
    s.(disk := s.disk[b := data], cache := s.cache[b := Buf(data, false)])
  }

  /** One disk write of write_log, write_head or install_trans; at boot, read_head. */
  function DoAdvance(s: State): (r: State)
    requires Sane(s) && Enabled(s, Advance)
  {
    match s.phase
    case Booting => s.(lh := DecodeHeader(s.disk[LOGSTART]), phase := Installing(0))
    case Logging(t) =>
      if t < |s.lh| then Bwrite(s, LOGSTART + 1 + t, Bread(s, s.lh[t])).(phase := Logging(t + 1))
      else Bwrite(s, LOGSTART, EncodeHeader(Bread(s, LOGSTART), s.lh)).(
             phase := Installing(0), hist := s.hist + [View(s)])
    case Installing(t) =>
      if t < |s.lh| then
        var data := Bread(s, LOGSTART + 1 + t);
        Bwrite(s.(cache := s.cache[LOGSTART + 1 + t := Buf(data, false)]), s.lh[t], data).(phase := Installing(t + 1))
      else Bwrite(s, LOGSTART, EncodeHeader(Bread(s, LOGSTART), [])).(phase := Idle, lh := [])
    case _ => s
  }

  function Do(s: State, step: Step): (r: State)
    requires Sane(s) && Enabled(s, step)
  {
    match step
    case Begin => s.(ops := s.ops + [{}])
    case Read(b) => s.(cache := s.cache[b := Buf(s.disk[b], false)])
    case Evict(b) => s.(cache := s.cache - {b})
    case LogWrite(op, b, data) => DoLogWrite(s, op, b, data)
    case End(op) => DoEnd(s, op)
    case Advance => DoAdvance(s)
    case Crash => s.(cache := map[], lh := [], ops := [], phase := Booting)
  }

  // ---------- the invariant ----------

  predicate Dirty(s: State, b: nat) {
    b in s.cache && s.cache[b].dirty
  }

  function Last(hist: seq<HomeMap>): (m: HomeMap)
    requires hist != []
  {
    hist[|hist| - 1]
  }

  /** Clean buffers agree with the disk. */
  ghost predicate Coherent(s: State) {
    && |s.disk| == FSSIZE
    && (forall b :: b in s.cache ==> b < FSSIZE)
    && (forall b :: b in s.cache && !s.cache[b].dirty ==> s.cache[b].data == s.disk[b])
  }

  /** Before the commit point: exactly the listed blocks are pinned, and no home block has moved. */
  ghost predicate Uncommitted(s: State)
    requires ValidDisk(s.disk) && s.hist != []
  {
    && Word(s.disk[LOGSTART], 0) == 0
    && (forall b :: Dirty(s, b) <==> b in s.lh)
    && HomeBlocks(s.disk) == Last(s.hist)
  }

  /** After the commit point, with the first `t` entries installed. */
  ghost predicate Committed(s: State, t: nat)
    requires ValidDisk(s.disk) && ValidList(s.lh)
  {
    && t <= |s.lh|
    && DecodeHeader(s.disk[LOGSTART]) == s.lh
    && (forall i :: 0 <= i < t ==> s.disk[s.lh[i]] == LogBlock(s.disk, i))
    && (forall b :: Dirty(s, b) ==> b in s.lh[t..] && s.cache[b].data == LogBlock(s.disk, Slot(s.lh, b)))
  }

  ghost predicate Inv(s: State) {
    && Sane(s) && ValidDisk(s.disk) && Coherent(s) && ValidList(s.lh) && s.hist != []
    && Recovered(s.disk) == Last(s.hist)
    && match s.phase
       case Idle => Uncommitted(s) && (s.ops == [] ==> s.lh == [])
       case Panicked => Uncommitted(s)
       case Logging(t) =>
         && Uncommitted(s) && s.ops == [] && t <= |s.lh| && s.lh != []
         && forall i :: 0 <= i < t ==> LogBlock(s.disk, i) == Bread(s, s.lh[i])
       case Installing(t) => Committed(s, t) && s.ops == []
       case Booting => s.cache == map[] && s.ops == [] && s.lh == []
  }

  // ---------- runs ----------

  /** The state at format time: an empty log, nothing cached. */
  ghost predicate Init(s: State) {
    && |s.disk| == FSSIZE && Word(s.disk[LOGSTART], 0) == 0
    && s.cache == map[] && s.lh == [] && s.ops == [] && s.phase == Idle
    && s.hist == [HomeBlocks(s.disk)]
  }

  ghost predicate IsRun(run: seq<State>, steps: seq<Step>) {
    && |run| == |steps| + 1
    && Init(run[0])
    && forall i :: 0 <= i < |steps| ==>
         Sane(run[i]) && Enabled(run[i], steps[i]) && run[i + 1] == Do(run[i], steps[i])
  }
}
