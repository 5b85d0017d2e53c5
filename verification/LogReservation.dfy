/** Space in the log: what begin_op reserves, and when log_write can panic. */
module LogReservation {
  import opened Layout
  import opened Blocks
  import opened Journal
  import opened JournalSafety

  /** Blocks that the active operations may still log, out of a budget for each. */
  function Unspent(ops: seq<set<nat>>, budget: nat): (n: int) {
    if ops == [] then 0 else budget - |ops[0]| + Unspent(ops[1..], budget)
  }

  lemma {:induction false} UnspentSplit(a: seq<set<nat>>, b: seq<set<nat>>, budget: nat)
    ensures Unspent(a + b, budget) == Unspent(a, budget) + Unspent(b, budget)
  {
    if a == [] {
      assert a + b == b;
    } else {
      assert (a + b)[1..] == a[1..] + b;
      UnspentSplit(a[1..], b, budget);
    }
  }

  lemma UnspentAt(ops: seq<set<nat>>, i: nat, budget: nat)
    requires i < |ops|
    ensures Unspent(ops, budget) == Unspent(ops[..i] + ops[i + 1..], budget) + budget - |ops[i]|
    ensures forall x :: Unspent(ops[i := x], budget) == Unspent(ops[..i] + ops[i + 1..], budget) + budget - |x|
  {
    UnspentSplit(ops[..i], ops[i + 1..], budget);
    UnspentSplit(ops[..i], [ops[i]] + ops[i + 1..], budget);
    assert ops == ops[..i] + ([ops[i]] + ops[i + 1..]);
    forall x ensures Unspent(ops[i := x], budget) == Unspent(ops[..i] + ops[i + 1..], budget) + budget - |x| {
      UnspentSplit(ops[..i], [x] + ops[i + 1..], budget);
      assert ops[i := x] == ops[..i] + ([x] + ops[i + 1..]);
    }
  }

  /** Operations that stay within a smaller limit leave the difference, each. */
  lemma {:induction false} UnspentLower(ops: seq<set<nat>>, limit: nat, budget: nat)
    requires forall i :: 0 <= i < |ops| ==> |ops[i]| <= limit
    ensures Unspent(ops, budget) >= |ops| * (budget - limit)
  {
    if ops != [] { UnspentLower(ops[1..], limit, budget); }
  }

  lemma {:induction false} UnspentUpper(ops: seq<set<nat>>, budget: nat)
    ensures Unspent(ops, budget) <= |ops| * budget
  {
    if ops != [] { UnspentUpper(ops[1..], budget); }
  }

  ghost predicate WithinBudget(s: State, budget: nat) {
    forall i :: 0 <= i < |s.ops| ==> |s.ops[i]| <= budget
  }

  /** While a group is open: every operation's blocks are listed, and the list together with what
      is still reserved fits in the log; a lone operation leaves `slack` more. */
  ghost predicate Reserved(s: State, slack: nat) {
    && (forall i, b :: 0 <= i < |s.ops| && b in s.ops[i] ==> b in s.lh)
    && |s.lh| + Unspent(s.ops, MAXOPBLOCKS) <= LOGSIZE
    && (|s.ops| == 1 ==> |s.lh| + Unspent(s.ops, MAXOPBLOCKS) <= LOGSIZE - slack)
    && (s.ops == [] && s.phase.Idle? ==> s.lh == [])
  }

  lemma LogWriteReserved(s: State, op: nat, b: nat, data: Block, slack: nat)
    requires Reserved(s, slack) && s.phase.Idle? && op < |s.ops|
    ensures Reserved(DoLogWrite(s, op, b, data), slack)
  {
    var r := DoLogWrite(s, op, b, data);
    if LogWriteFits(s) {
      UnspentAt(s.ops, op, MAXOPBLOCKS);
      assert r.ops == s.ops[op := s.ops[op] + {b}];
      if b in s.ops[op] {
        assert s.ops[op] + {b} == s.ops[op];
      }
    }
  }

  lemma StepReserved(s: State, step: Step, budget: nat)
    requires budget <= MAXOPBLOCKS && WithinBudget(s, budget)
    requires Inv(s) && Enabled(s, step) && Reserved(s, MAXOPBLOCKS - budget)
    ensures Reserved(Do(s, step), MAXOPBLOCKS - budget)
  {
    hide Word; hide Recovered; hide HomeBlocks; hide EncodeHeader; hide DecodeHeader; hide View;
    match step
    case Begin =>
      UnspentUpper(s.ops, MAXOPBLOCKS);
      UnspentSplit(s.ops, [{}], MAXOPBLOCKS);
    case End(op) =>
      UnspentAt(s.ops, op, MAXOPBLOCKS);
      var left := s.ops[..op] + s.ops[op + 1..];
      forall i, b | 0 <= i < |left| && b in left[i] ensures b in s.lh {
        assert left[i] == if i < op then s.ops[i] else s.ops[i + 1];
      }
    case LogWrite(op, b, data) => LogWriteReserved(s, op, b, data, MAXOPBLOCKS - budget);
    case _ =>
  }

  lemma {:induction false} RunReserved(run: seq<State>, steps: seq<Step>, i: nat, budget: nat)
    requires IsRun(run, steps) && i < |run| && budget <= MAXOPBLOCKS
    requires forall k :: 0 <= k < |run| ==> WithinBudget(run[k], budget)
    ensures Reserved(run[i], MAXOPBLOCKS - budget)
  {
    hide Do; hide Enabled; hide Sane; hide WithinBudget; hide HomeBlocks;
    if i > 0 {
      RunReserved(run, steps, i - 1, budget);
      RunInv(run, steps, i - 1);
      StepReserved(run[i - 1], steps[i - 1], budget);
    }
  }

  /** If every operation logs at most MAXOPBLOCKS distinct blocks then, in every reachable state,
      the list has no duplicates, the list and the unspent reservations fit in LOGSIZE, and no
      operation is outstanding while a commit is in progress. */
  lemma Reservation(run: seq<State>, steps: seq<Step>, i: nat)
    requires IsRun(run, steps) && i < |run|
    requires forall k :: 0 <= k < |run| ==> WithinBudget(run[k], MAXOPBLOCKS)
    ensures forall j, k :: 0 <= j < k < |run[i].lh| ==> run[i].lh[j] != run[i].lh[k]
    ensures |run[i].lh| + Unspent(run[i].ops, MAXOPBLOCKS) <= LOGSIZE
    ensures run[i].phase.Logging? || run[i].phase.Installing? ==> run[i].ops == []
  {
    hide Word; hide Recovered; hide HomeBlocks;
    RunInv(run, steps, i);
    RunReserved(run, steps, i, MAXOPBLOCKS);
  }

  /** One block of headroom is enough: if no operation logs more than MAXOPBLOCKS - 1 distinct
      blocks, log_write never panics in any run. */
  lemma {:induction false} NoPanic(run: seq<State>, steps: seq<Step>, i: nat)
    requires IsRun(run, steps) && i < |run|
    requires forall k :: 0 <= k < |run| ==> WithinBudget(run[k], MAXOPBLOCKS - 1)
    ensures run[i].ops != [] ==> LogWriteFits(run[i])
    ensures !run[i].phase.Panicked?
  {
    hide Word; hide Recovered; hide HomeBlocks; hide EncodeHeader; hide View; hide DecodeHeader;
    RunReserved(run, steps, i, MAXOPBLOCKS - 1);
    UnspentLower(run[i].ops, MAXOPBLOCKS - 1, MAXOPBLOCKS);
    if i > 0 {
      NoPanic(run, steps, i - 1);
    }
  }

  /** Three operations begin; then `n` distinct blocks are logged, forty by each in turn. */
  lemma {:induction false} Fill(n: nat) returns (run: seq<State>, steps: seq<Step>)
    requires n <= NLOG - 1
    ensures IsRun(run, steps)
    ensures forall k :: 0 <= k < |run| ==> WithinBudget(run[k], MAXOPBLOCKS)
    ensures var s := run[|run| - 1];
            && s.phase.Idle? && |s.ops| == 3 && |s.lh| == n
            && (forall b :: b in s.lh ==> b < NMETA + n)
            && (forall k, b :: 0 <= k < 3 && b in s.ops[k] ==> b < NMETA + n)
            && (forall k :: 0 <= k < 3 ==>
                  |s.ops[k]| == if n <= 40 * k then 0 else if n < 40 * k + 40 then n - 40 * k else 40)
  {
    hide Word; hide HomeBlocks; hide Recovered; hide View; hide EncodeHeader;
    if n == 0 {
      run, steps := Start();
      assert forall k :: 0 <= k < |run| && WithinBudget(run[k], 0) ==> WithinBudget(run[k], MAXOPBLOCKS);
    } else {
      run, steps := Fill(n - 1);
      var s := run[|run| - 1];
      var b := NMETA + n - 1;
      var step := LogWrite((n - 1) / 40, b, Zero());
      RunInv(run, steps, |run| - 1);
      Extend(run, steps, step);
      var r := Do(s, step);
      assert b !in s.lh && Slot(s.lh, b) == |s.lh|;
      run, steps := run + [r], steps + [step];
    }
  }

  lemma Start() returns (run: seq<State>, steps: seq<Step>)
    ensures IsRun(run, steps)
    ensures forall k :: 0 <= k < |run| ==> WithinBudget(run[k], 0)
    ensures var s := run[|run| - 1]; s.phase.Idle? && s.ops == [{}, {}, {}] && s.lh == []
  {
    WordOfZero(0);
    hide Word; hide HomeBlocks;
    var disk: seq<Block> := seq(FSSIZE, _ => Zero());
    var s := State(disk, map[], [], [], Idle, [HomeBlocks(disk)]);
    run, steps := [s], [];
    for n := 0 to 3
      invariant IsRun(run, steps)
      invariant forall k :: 0 <= k < |run| ==> WithinBudget(run[k], 0)
      invariant var s := run[|run| - 1]; s.phase.Idle? && s.ops == [{}, {}, {}][..n] && s.lh == [] && Sane(s)
    {
      Extend(run, steps, Begin);
      run, steps := run + [Do(run[|run| - 1], Begin)], steps + [Begin];
    }
  }

  /** The full budget is too much: three operations of MAXOPBLOCKS blocks each, admitted by begin_op
      and each within its budget, reach the panic, because the on-disk log has one slot fewer. */
  lemma FullBudgetPanics() returns (run: seq<State>, steps: seq<Step>)
    ensures IsRun(run, steps)
    ensures forall k :: 0 <= k < |run| ==> WithinBudget(run[k], 40)
    ensures run[|run| - 1].phase.Panicked?
  {
    hide Word; hide HomeBlocks; hide Recovered; hide View; hide EncodeHeader;
    run, steps := Fill(NLOG - 1);
    var step := LogWrite(2, NMETA + NLOG, Zero());
    RunInv(run, steps, |run| - 1);
    Extend(run, steps, step);
    run, steps := run + [Do(run[|run| - 1], step)], steps + [step];
  }

  ghost predicate NeverPanics(budget: nat) {
    forall run: seq<State>, steps: seq<Step> | IsRun(run, steps) :: BudgetKept(run, budget) ==>
      !run[|run| - 1].phase.Panicked?
  }

  ghost predicate BudgetKept(run: seq<State>, budget: nat) {
    forall k :: 0 <= k < |run| ==> WithinBudget(run[k], budget)
  }

  /** The limit that begin_op's reservation of MAXOPBLOCKS makes safe: log_write cannot panic, in any run, if and
      only if operations stay one block below it. */
  lemma SafeBudget(budget: nat)
    ensures NeverPanics(budget) <==> budget <= 39
  {
    if budget >= MAXOPBLOCKS {
      var run, steps := FullBudgetPanics();
      forall k | 0 <= k < |run| ensures WithinBudget(run[k], budget) { assert WithinBudget(run[k], MAXOPBLOCKS); }
      assert BudgetKept(run, budget) && IsRun(run, steps);
    } else {
      hide IsRun;
      forall run: seq<State>, steps: seq<Step> | IsRun(run, steps) && BudgetKept(run, budget)
        ensures run != [] && !run[|run| - 1].phase.Panicked?
      {
        RunNonEmpty(run, steps);
        forall k | 0 <= k < |run| ensures WithinBudget(run[k], MAXOPBLOCKS - 1) { assert WithinBudget(run[k], budget); }
        NoPanic(run, steps, |run| - 1);
      }
    }
  }

  lemma RunNonEmpty(run: seq<State>, steps: seq<Step>)
    requires IsRun(run, steps)
    ensures run != []
  {
  }
}
