/** The file system on the journal: what file operations did reaches the disk group by group, whole or not at all. */
module FileCommit {
  import opened Layout
  import opened Blocks
  import opened Journal
  import opened JournalSafety
  import opened JournalRuns
  import opened LogCapacity
  import opened Indexing
  import opened Transaction
  import opened TransactionSize
  import opened FileIO

  datatype Option<T> = None | Some(value: T)

  /** The data of the last log_write of block `b` among `steps`. */
  function LastWrite(steps: seq<Step>, b: nat): (r: Option<Block>) {
    if steps == [] then None
    else
      match steps[|steps| - 1]
      case LogWrite(_, c, data) => if c == b then Some(data) else LastWrite(steps[..|steps| - 1], b)
      case _ => LastWrite(steps[..|steps| - 1], b)
  }

  /** `steps` log the blocks of the transaction and no other, each last with its final contents. */
  ghost predicate Carries(steps: seq<Step>, tx: Tx) {
    && |tx.after| == FSSIZE
    && forall b: nat :: b < FSSIZE ==> LastWrite(steps, b) == if b in tx.logged then Some(tx.after[b]) else None
  }

  /** Only home blocks are ever logged. */
  ghost predicate HomeWrites(steps: seq<Step>) {
    forall k :: 0 <= k < |steps| && steps[k].LogWrite? ==> Home(steps[k].b)
  }

  lemma {:induction false} EffectAt(m: HomeMap, steps: seq<Step>, b: nat)
    requires HomeWrites(steps) && forall c :: c in m <==> 0 <= c < FSSIZE && Home(c)
    ensures forall c :: c in Effect(m, steps) <==> 0 <= c < FSSIZE && Home(c)
    ensures b in m ==> Effect(m, steps)[b] == match LastWrite(steps, b) case Some(data) => data case None => m[b]
  {
    if steps != [] { EffectAt(m, steps[..|steps| - 1], b); }
  }

  /** The journal's effect of a transaction is the change the file system made. */
  lemma TransactionEffect(tx: Tx, steps: seq<Step>)
    requires Covers(tx.before, {}, tx.after, tx.logged) && Carries(steps, tx) && HomeWrites(steps)
    ensures Effect(HomeBlocks(tx.before), steps) == HomeBlocks(tx.after)
  {
    var m := HomeBlocks(tx.before);
    EffectAt(m, steps, 0);
    forall b: nat | b < FSSIZE && Home(b) ensures Effect(m, steps)[b] == tx.after[b] { EffectAt(m, steps, b); }
  }

  // ---------- transactions one after the other, in any number of groups ----------

  /** The blocks after the first `t` transactions, from `b`. */
  function After(b: seq<Block>, txs: seq<Tx>, t: nat): (c: seq<Block>)
    requires t <= |txs|
  {
    if t == 0 then b else txs[t - 1].after
  }

  ghost predicate InARow(b: seq<Block>, txs: seq<Tx>) {
    && |b| == FSSIZE
    && forall t :: 0 <= t < |txs| ==>
         txs[t].before == After(b, txs, t) && Covers(txs[t].before, {}, txs[t].after, txs[t].logged)
  }

  /** Some operation is under way from the first log_write among `steps[a..b]` to the last. */
  ghost predicate OneOperation(run: seq<State>, steps: seq<Step>, a: nat, b: nat) {
    b <= |steps| < |run| && forall p, q, r :: a <= p <= q <= r < b && steps[p].LogWrite? && steps[r].LogWrite? ==>
      run[q].ops != []
  }

  /** From its first log_write after `a` on, an operation is under way and does not end. */
  ghost predicate Unfinished(run: seq<State>, steps: seq<Step>, a: nat) {
    |steps| < |run| && forall p, q :: a <= p <= q <= |steps| && p < |steps| && steps[p].LogWrite? ==> run[q].ops != []
  }

  /** The steps from `cuts[t]` to `cuts[t + 1]` are those of transaction `t`, one operation, and after the last comes at
      most part of one more; no crash falls between, and no log_write panics before that part. */
  ghost predicate Performed(run: seq<State>, steps: seq<Step>, cuts: seq<nat>, txs: seq<Tx>) {
    && |run| == |steps| + 1 && |cuts| == |txs| + 1 && cuts[|txs|] <= |steps|
    && (forall t, u :: 0 <= t <= u < |cuts| ==> cuts[t] <= cuts[u])
    && (forall q :: cuts[0] <= q < |steps| ==> !steps[q].Crash?)
    && (forall q :: cuts[0] <= q < cuts[|txs|] && steps[q].LogWrite? ==> LogWriteFits(run[q]))
    && (forall t :: 0 <= t < |txs| ==> PartOf(run, steps, cuts[t], cuts[t + 1], txs[t]))
    && Unfinished(run, steps, cuts[|txs|])
  }

  ghost predicate PartOf(run: seq<State>, steps: seq<Step>, a: nat, b: nat, tx: Tx) {
    && a <= b <= |steps| && Carries(steps[a..b], tx) && HomeWrites(steps[a..b]) && OneOperation(run, steps, a, b)
  }

  /** The ledger takes in the log writes of a stretch without crash or panic. */
  lemma {:induction false} LedgerTakes(run: seq<State>, steps: seq<Step>, a: nat, b: nat)
    requires |run| == |steps| + 1 && |run[0].disk| == FSSIZE && a <= b <= |steps|
    requires forall q :: a <= q < b ==> !steps[q].Crash? && (steps[q].LogWrite? ==> LogWriteFits(run[q]))
    ensures Books(run, steps, b).pending == Effect(Books(run, steps, a).pending, steps[a..b])
  {
    hide LogWriteFits, CommitPoint, HomeBlocks;
    if a < b {
      LedgerTakes(run, steps, a, b - 1);
      assert steps[a..b][..b - 1 - a] == steps[a..b - 1];
    }
  }

  lemma {:induction false} LedgerQuiet(run: seq<State>, steps: seq<Step>, a: nat, b: nat)
    requires |run| == |steps| + 1 && |run[0].disk| == FSSIZE && a <= b <= |steps|
    requires forall q :: a <= q < b ==> !steps[q].Crash? && !steps[q].LogWrite?
    ensures Books(run, steps, b).pending == Books(run, steps, a).pending
  {
    if a < b { LedgerQuiet(run, steps, a, b - 1); }
  }

  /** At the cuts, what is pending is what the transactions before it made. */
  lemma {:induction false} PendingAtCut(run: seq<State>, steps: seq<Step>, cuts: seq<nat>, b: seq<Block>, txs: seq<Tx>,
                                        t: nat)
    requires Performed(run, steps, cuts, txs) && InARow(b, txs) && |run[0].disk| == FSSIZE && t <= |txs|
    requires Books(run, steps, cuts[0]).pending == HomeBlocks(b)
    ensures |After(b, txs, t)| == FSSIZE && Books(run, steps, cuts[t]).pending == HomeBlocks(After(b, txs, t))
    decreases t
  {
    hide HomeBlocks, LogWriteFits, PartOf, Unfinished, Covers, Books;
    if t > 0 {
      assert cuts[0] <= cuts[t - 1] <= cuts[t] <= cuts[|txs|];
      PendingAtCut(run, steps, cuts, b, txs, t - 1);
      PartMoves(run, steps, cuts[t - 1], cuts[t], txs[t - 1]);
    }
  }

  lemma PartMoves(run: seq<State>, steps: seq<Step>, a: nat, b: nat, tx: Tx)
    requires |run| == |steps| + 1 && |run[0].disk| == FSSIZE && PartOf(run, steps, a, b, tx)
    requires Covers(tx.before, {}, tx.after, tx.logged) && Books(run, steps, a).pending == HomeBlocks(tx.before)
    requires forall q :: a <= q < b ==> !steps[q].Crash? && (steps[q].LogWrite? ==> LogWriteFits(run[q]))
    ensures |tx.after| == FSSIZE && Books(run, steps, b).pending == HomeBlocks(tx.after)
  {
    CoversSize(tx);
    hide HomeBlocks, OneOperation, Carries, HomeWrites, Covers, Books, Effect, LogWriteFits;
    TransactionEffect(tx, steps[a..b]);
    LedgerTakes(run, steps, a, b);
  }

  lemma CoversSize(tx: Tx)
    requires Covers(tx.before, {}, tx.after, tx.logged)
    ensures |tx.before| == |tx.after| == FSSIZE
  {
  }

  /** How many transactions had begun at `q`. */
  function Begun(cuts: seq<nat>, q: nat): (t: nat)
    requires cuts != [] && cuts[0] <= q && forall t, u :: 0 <= t <= u < |cuts| ==> cuts[t] <= cuts[u]
    ensures t < |cuts| && cuts[t] <= q && (t + 1 < |cuts| ==> q < cuts[t + 1])
    ensures forall u :: 0 <= u < |cuts| && cuts[u] <= q ==> u <= t
  {
    if cuts[|cuts| - 1] <= q then |cuts| - 1 else Begun(cuts[..|cuts| - 1], q)
  }

  /** A commit point publishes whole transactions. */
  lemma PublishesWhole(run: seq<State>, steps: seq<Step>, cuts: seq<nat>, b: seq<Block>, txs: seq<Tx>, q: nat)
      returns (t: nat)
    requires IsRun(run, steps) && Performed(run, steps, cuts, txs) && InARow(b, txs) && |run[0].disk| == FSSIZE
    requires Books(run, steps, cuts[0]).pending == HomeBlocks(b)
    requires cuts[0] <= q < |steps| && CommitPoint(run[q], steps[q])
    ensures t < |cuts| == |txs| + 1 && AllBy(cuts, q, t)
    ensures |After(b, txs, t)| == FSSIZE && Books(run, steps, q).pending == HomeBlocks(After(b, txs, t))
  {
    hide IsRun, HomeBlocks, Carries, HomeWrites, Covers, Books, LogWriteFits, InARow, After;
    CommitPointIsQuiet(run, steps, q);
    t := Begun(cuts, q);
    if exists p :: cuts[t] <= p < q && steps[p].LogWrite? {
      var p :| cuts[t] <= p < q && steps[p].LogWrite?;
      assert t < |txs|;
      assert PartOf(run, steps, cuts[t], cuts[t + 1], txs[t]);
      forall r | q <= r < cuts[t + 1] ensures !steps[r].LogWrite? {
        assert cuts[t] <= p <= q <= r < cuts[t + 1];
      }
      LedgerQuiet(run, steps, q, cuts[t + 1]);
      t := t + 1;
    } else {
      LedgerQuiet(run, steps, cuts[t], q);
    }
    PendingAtCut(run, steps, cuts, b, txs, t);
  }

  /** All that were over at `q` are among the first `t`. */
  ghost predicate AllBy(cuts: seq<nat>, q: nat, t: nat) {
    forall u :: 0 <= u < |cuts| && cuts[u] <= q ==> u <= t
  }

  /** Of the transactions, `t` are in the groups committed by `k`: none before the first commit point, and at the last
      at least those that were over. */
  ghost predicate Kept(run: seq<State>, steps: seq<Step>, cuts: seq<nat>, k: nat, t: nat)
    requires |cuts| > 0 && k <= |steps| < |run|
  {
    && t < |cuts|
    && ((forall q :: cuts[0] <= q < k ==> !CommitPoint(run[q], steps[q])) ==> t == 0)
    && forall q :: cuts[0] <= q < k && CommitPoint(run[q], steps[q]) ==> AllBy(cuts, q, t)
  }

  lemma {:induction false} CommittedIsWhole(run: seq<State>, steps: seq<Step>, cuts: seq<nat>, b: seq<Block>,
                                            txs: seq<Tx>,
                                            k: nat)
      returns (t: nat)
    requires IsRun(run, steps) && Performed(run, steps, cuts, txs) && InARow(b, txs) && cuts[0] <= k < |run|
    requires |run[0].disk| == FSSIZE && Books(run, steps, cuts[0]) == Ledger(HomeBlocks(b), HomeBlocks(b))
    ensures t < |cuts| == |txs| + 1 && Kept(run, steps, cuts, k, t) && |After(b, txs, t)| == FSSIZE
    ensures Books(run, steps, k).committed == HomeBlocks(After(b, txs, t))
    decreases k
  {
    hide HomeBlocks, InARow, Performed, CommitPoint, Books, IsRun, Kept, After, AllBy;
    PerformedFacts(run, steps, cuts, b, txs);
    if k == cuts[0] {
      t := 0;
      KeptStart(run, steps, cuts);
    } else {
      t := CommittedIsWhole(run, steps, cuts, b, txs, k - 1);
      CommittedMoves(run, steps, k - 1);
      ghost var t0 := t;
      if CommitPoint(run[k - 1], steps[k - 1]) { t := PublishesWhole(run, steps, cuts, b, txs, k - 1); }
      KeptMore(run, steps, cuts, k - 1, t0, t);
    }
  }

  lemma KeptStart(run: seq<State>, steps: seq<Step>, cuts: seq<nat>)
    requires |cuts| > 0 && cuts[0] <= |steps| < |run|
    ensures Kept(run, steps, cuts, cuts[0], 0)
  {
  }

  lemma KeptMore(run: seq<State>, steps: seq<Step>, cuts: seq<nat>, k: nat, t0: nat, t: nat)
    requires |cuts| > 0 && cuts[0] <= k < |steps| < |run| && Kept(run, steps, cuts, k, t0) && t < |cuts|
    requires if CommitPoint(run[k], steps[k]) then AllBy(cuts, k, t) else t == t0
    ensures Kept(run, steps, cuts, k + 1, t)
  {
    hide CommitPoint;
    if forall q :: cuts[0] <= q < k + 1 ==> !CommitPoint(run[q], steps[q]) {
      assert forall q :: cuts[0] <= q < k ==> !CommitPoint(run[q], steps[q]);
    }
  }

  /** Transactions performed one after the other, whatever other operations hold the commits back: at every moment a
      crash recovers the blocks as they were between two transactions. */
  lemma TransactionsAreAtomic(run: seq<State>, steps: seq<Step>, cuts: seq<nat>, b: seq<Block>, txs: seq<Tx>, k: nat)
      returns (t: nat)
    requires IsRun(run, steps) && Performed(run, steps, cuts, txs) && InARow(b, txs) && cuts[0] <= k < |run|
    requires run[cuts[0]].phase.Idle? && run[cuts[0]].ops == [] && |run[cuts[0]].disk| == FSSIZE
    requires View(run[cuts[0]]) == HomeBlocks(b)
    ensures Kept(run, steps, cuts, k, t) && ValidDisk(run[k].disk) && |After(b, txs, t)| == FSSIZE
    ensures Recovered(run[k].disk) == HomeBlocks(After(b, txs, t))
  {
    hide HomeBlocks, View, Recovered, ValidDisk, InARow, CommitPoint, Kept, Books;
    AtRest(run, steps, cuts[0]);
    t := CommittedIsWhole(run, steps, cuts, b, txs, k);
    RunBalanced(run, steps, k);
  }

  lemma PerformedFacts(run: seq<State>, steps: seq<Step>, cuts: seq<nat>, b: seq<Block>, txs: seq<Tx>)
    requires Performed(run, steps, cuts, txs) && InARow(b, txs)
    ensures |run| == |steps| + 1 && |cuts| == |txs| + 1 && |After(b, txs, 0)| == FSSIZE && After(b, txs, 0) == b
    ensures cuts[0] <= |steps| && forall q :: cuts[0] <= q < |steps| ==> !steps[q].Crash?
  {
    hide PartOf, Unfinished, Covers, LogWriteFits;
  }

  /** With no operation under way nothing is pending. */
  lemma AtRest(run: seq<State>, steps: seq<Step>, i: nat)
    requires IsRun(run, steps) && i < |run| && run[i].phase.Idle? && run[i].ops == [] && |run[i].disk| == FSSIZE
    ensures |run[0].disk| == FSSIZE && Books(run, steps, i) == Ledger(View(run[i]), View(run[i]))
  {
    hide HomeBlocks, View, Recovered, ValidDisk, Books;
    CrashSafety(run, steps, i);
    RunBalanced(run, steps, i);
  }

  lemma CommittedMoves(run: seq<State>, steps: seq<Step>, q: nat)
    requires |run| == |steps| + 1 && |run[0].disk| == FSSIZE && q < |steps|
    ensures Books(run, steps, q + 1).committed ==
            if CommitPoint(run[q], steps[q]) then Books(run, steps, q).pending else Books(run, steps, q).committed
  {
    hide LogWriteFits;
  }

  // ---------- operations of one group interleaved ----------

  /** The disk after the log writes among `steps`, as file system code sees it, and the blocks they log. */
  function Replay(b: seq<Block>, steps: seq<Step>): (c: seq<Block>)
    requires |b| == FSSIZE && HomeWrites(steps)
    ensures |c| == FSSIZE
  {
    if steps == [] then b
    else
      assert HomeWrites(steps[..|steps| - 1]);
      var c := Replay(b, steps[..|steps| - 1]);
      match steps[|steps| - 1]
      case LogWrite(_, x, data) => c[x := data]
      case _ => c
  }

  function LoggedBy(steps: seq<Step>): (s: set<nat>) {
    if steps == [] then {}
    else
      LoggedBy(steps[..|steps| - 1]) +
      match steps[|steps| - 1]
      case LogWrite(_, x, _) => {x}
      case _ => {}
  }

  /** Any log writes carry the transaction they make, so `Carries` asks nothing of file system code that changes blocks
      through log_write alone. */
  lemma {:induction false} ReplayCarries(b: seq<Block>, steps: seq<Step>)
    requires |b| == FSSIZE && HomeWrites(steps)
    ensures Carries(steps, Tx(b, LoggedBy(steps), Replay(b, steps)))
    ensures Covers(b, {}, Replay(b, steps), LoggedBy(steps))
  {
    if steps != [] { ReplayCarries(b, steps[..|steps| - 1]); }
  }

  /** The steps of transaction `k`, when `who` says whose each step is. */
  function Of(steps: seq<Step>, who: seq<nat>, k: nat): (r: seq<Step>)
    requires |who| == |steps|
  {
    if steps == [] then []
    else
      var n := |steps| - 1;
      Of(steps[..n], who[..n], k) + if who[n] == k then [steps[n]] else []
  }

  /** The transaction that logged block `x` last. */
  function LastWriter(steps: seq<Step>, who: seq<nat>, x: nat): (r: Option<nat>)
    requires |who| == |steps|
    ensures r.Some? ==> r.value in who
  {
    if steps == [] then None
    else
      var n := |steps| - 1;
      if steps[n].LogWrite? && steps[n].b == x then Some(who[n]) else LastWriter(steps[..n], who[..n], x)
  }

  lemma {:induction false} LastOf(steps: seq<Step>, who: seq<nat>, x: nat, k: nat)
    requires |who| == |steps|
    ensures LastWriter(steps, who, x) == None ==> LastWrite(steps, x) == LastWrite(Of(steps, who, k), x) == None
    ensures LastWriter(steps, who, x) == Some(k) ==>
      LastWrite(steps, x) == LastWrite(Of(steps, who, k), x) && LastWrite(steps, x).Some?
  {
    if steps != [] {
      var n := |steps| - 1;
      LastOf(steps[..n], who[..n], x, k);
      var before := Of(steps[..n], who[..n], k);
      assert (before + [steps[n]])[..|before|] == before;
      assert before + [] == before;
    }
  }

  /** Transactions `txs` share the steps: each makes its own changes with the steps `who` gives it. */
  ghost predicate Interleaved(steps: seq<Step>, who: seq<nat>, txs: seq<Tx>) {
    && |who| == |steps| && HomeWrites(steps)
    && (forall n :: 0 <= n < |who| ==> who[n] < |txs|)
    && (forall k :: 0 <= k < |txs| ==> Carries(Of(steps, who, k), txs[k]))
  }

  /** Each block as the transaction that logged it last left it. */
  function Merged(b: seq<Block>, txs: seq<Tx>, steps: seq<Step>, who: seq<nat>): (c: seq<Block>)
    requires |b| == FSSIZE && |who| == |steps| && forall n :: 0 <= n < |who| ==> who[n] < |txs|
    requires forall k :: 0 <= k < |txs| ==> |txs[k].after| == FSSIZE
    ensures |c| == FSSIZE && forall x :: 0 <= x < FSSIZE ==> c[x] == MergedAt(b, txs, steps, who, x)
  {
    seq(FSSIZE, x requires 0 <= x < FSSIZE => MergedAt(b, txs, steps, who, x))
  }

  function MergedAt(b: seq<Block>, txs: seq<Tx>, steps: seq<Step>, who: seq<nat>, x: nat): (d: Block)
    requires |b| == FSSIZE && |who| == |steps| && forall n :: 0 <= n < |who| ==> who[n] < |txs|
    requires x < FSSIZE && forall k :: 0 <= k < |txs| ==> |txs[k].after| == FSSIZE
  {
    match LastWriter(steps, who, x)
    case Some(k) => txs[k].after[x]
    case None => b[x]
  }

  /** However the steps of the transactions are interleaved, their joint effect merges their changes. */
  lemma InterleavedEffect(b: seq<Block>, txs: seq<Tx>, steps: seq<Step>, who: seq<nat>)
    requires |b| == FSSIZE && Interleaved(steps, who, txs)
    ensures forall k :: 0 <= k < |txs| ==> |txs[k].after| == FSSIZE
    ensures Effect(HomeBlocks(b), steps) == HomeBlocks(Merged(b, txs, steps, who))
  {
    var m, c := HomeBlocks(b), Merged(b, txs, steps, who);
    EffectAt(m, steps, 0);
    forall x: nat | x < FSSIZE && Home(x) ensures Effect(m, steps)[x] == c[x] {
      EffectAt(m, steps, x);
      MergedWrite(b, txs, steps, who, x);
    }
  }

  lemma MergedWrite(b: seq<Block>, txs: seq<Tx>, steps: seq<Step>, who: seq<nat>, x: nat)
    requires |b| == FSSIZE && Interleaved(steps, who, txs) && x < FSSIZE
    requires forall k :: 0 <= k < |txs| ==> |txs[k].after| == FSSIZE
    ensures MergedAt(b, txs, steps, who, x) == match LastWrite(steps, x) case Some(data) => data case None => b[x]
  {
    hide HomeWrites;
    match LastWriter(steps, who, x)
    case None => LastOf(steps, who, x, 0);
    case Some(k) =>
      LastOf(steps, who, x, k);
      assert Carries(Of(steps, who, k), txs[k]);
  }

  /** Where transactions log different blocks, or leave a shared block alike, each is there whole. */
  lemma MergedWhole(b: seq<Block>, txs: seq<Tx>, steps: seq<Step>, who: seq<nat>, x: nat, k: nat)
    requires |b| == FSSIZE && Interleaved(steps, who, txs) && x < FSSIZE && k < |txs|
    requires forall l :: 0 <= l < |txs| ==> |txs[l].after| == FSSIZE
    requires forall l :: 0 <= l < |txs| && x in txs[l].logged && x in txs[k].logged ==>
      txs[l].after[x] == txs[k].after[x]
    ensures x in txs[k].logged ==> MergedAt(b, txs, steps, who, x) == txs[k].after[x]
    ensures (forall l :: 0 <= l < |txs| ==> x !in txs[l].logged) ==> MergedAt(b, txs, steps, who, x) == b[x]
  {
    hide HomeWrites;
    assert Carries(Of(steps, who, k), txs[k]);
    match LastWriter(steps, who, x)
    case None => LastOf(steps, who, x, k);
    case Some(l) =>
      LastOf(steps, who, x, l);
      assert Carries(Of(steps, who, l), txs[l]);
  }

  /** A commit group of operations interleaved in any way: a crash anywhere before the header write recovers the blocks
      as they were before the group, and from the header write on with every transaction's changes merged in. */
  lemma InterleavedGroupIsAtomic(run: seq<State>, steps: seq<Step>, i: nat, j: nat, txs: seq<Tx>, who: seq<nat>,
                                 b: seq<Block>)
    requires IsRun(run, steps) && i <= j < |steps| && run[i].phase.Idle? && run[i].ops == [] && Open(run, i, j)
    requires CommitPoint(run[j], steps[j]) && |b| == FSSIZE && |run[i].disk| == FSSIZE && View(run[i]) == HomeBlocks(b)
    requires Interleaved(steps[i..j], who, txs)
    ensures forall k :: 0 <= k < |txs| ==> |txs[k].after| == FSSIZE
    ensures forall k :: i <= k <= j ==> ValidDisk(run[k].disk) && Recovered(run[k].disk) == HomeBlocks(b)
    ensures ValidDisk(run[j + 1].disk)
    ensures Recovered(run[j + 1].disk) == HomeBlocks(Merged(b, txs, steps[i..j], who))
  {
    InterleavedEffect(b, txs, steps[i..j], who);
    GroupPublishes(run, steps, i, j);
  }

  // ---------- file operations never overflow the log ----------

  /** What the transaction of one file operation may log in the end. */
  ghost predicate FileTx(m: set<nat>) {
    |NonBitmap(m)| <= 25
  }

  /** A completed chunk is one. One that finds the disk full, and iput, promise the bound themselves. */
  lemma ChunkIsFileTx(tx: Tx, size: nat, off: nat, len: nat)
    requires ChunkTx(tx, size, off, len)
    ensures FileTx(tx.logged)
  {
    ChunkBounds(size, off, len);
  }

  /** Every operation under way has logged part of a file operation's transaction. */
  ghost predicate FileOperations(s: State) {
    forall i :: 0 <= i < |s.ops| ==> exists m :: FileTx(m) && s.ops[i] <= m
  }

  lemma FileOthers(s: State)
    requires FileOperations(s)
    ensures OthersWithin(s, 25)
  {
    forall i | 0 <= i < |s.ops| ensures |NonBitmap(s.ops[i])| <= 25 {
      var m :| FileTx(m) && s.ops[i] <= m;
      SubsetSize(NonBitmap(s.ops[i]), NonBitmap(m));
    }
  }

  /** In every run whose operations are writes of chunks and iputs, whatever bitmap blocks they touch, log_write never
      panics, and the list stays below 116 blocks. */
  lemma FileOperationsFit(run: seq<State>, steps: seq<Step>, i: nat)
    requires IsRun(run, steps) && i < |run|
    requires forall k :: 0 <= k < |run| ==> FileOperations(run[k])
    ensures !run[i].phase.Panicked?
    ensures run[i].phase.Idle? || run[i].phase.Logging? ==> |run[i].lh| <= 115
  {
    hide IsRun, FileOperations, OthersWithin;
    forall k | 0 <= k < |run| ensures OthersWithin(run[k], 25) { FileOthers(run[k]); }
    RoomNeverPanics(run, steps, i, 25);
  }
}
