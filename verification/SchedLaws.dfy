/** Which process runs next, what a tick does, what a share is: every step of the scheduler as a relation between the
    states before and after, and that relation is the step. */
module SchedLaws {
  import opened Sched
  import opened SchedSafety
  import opened SchedEffects

  // ---------- the scheduler's choice ----------

  predicate MlfqReady(x: Proc) {
    x.state.Runnable? && !x.isStride
  }

  predicate StrideReady(x: Proc) {
    x.state.Runnable? && x.isStride
  }

  /** It is the turn of the MLFQ when no stride process that waits has a lower pass. */
  ghost predicate MlfqTurn(s: State) {
    forall p :: 0 <= p < |s.procs| && StrideReady(s.procs[p]) ==> s.mlfqPass <= s.procs[p].pass
  }

  /** Runnable, at the head of its queue, and no runnable MLFQ process has a lower level. */
  ghost predicate FirstOfLowest(s: State, p: nat) {
    && p < |s.procs| && MlfqReady(s.procs[p]) && 0 <= s.procs[p].lev < |s.q|
    && s.q[s.procs[p].lev] != [] && s.q[s.procs[p].lev][0] == p
    && forall j :: 0 <= j < |s.procs| && MlfqReady(s.procs[j]) ==> s.procs[p].lev <= s.procs[j].lev
  }

  /** Its pass is below the MLFQ's and no greater than that of any stride process that waits, and below those earlier in
      the table. */
  ghost predicate FirstOfLeast(s: State, p: nat) {
    && p < |s.procs| && StrideReady(s.procs[p]) && s.procs[p].pass < s.mlfqPass
    && (forall j :: 0 <= j < |s.procs| && StrideReady(s.procs[j]) ==> s.procs[p].pass <= s.procs[j].pass)
    && forall j :: 0 <= j < p && StrideReady(s.procs[j]) ==> s.procs[p].pass < s.procs[j].pass
  }

  /** All passes have grown so large that they restart at 0. */
  ghost predicate AllHigh(s: State) {
    && s.mlfqPass >= 0x0fffffff
    && forall p :: 0 <= p < |s.procs| && StrideReady(s.procs[p]) ==> s.procs[p].pass >= 0x0fffffff
  }

  /** Process `p` gets the CPU; nothing else changes but the passes, if they restart. */
  ghost predicate Starts(s: State, r: State, p: nat) {
    && |r.procs| == |s.procs|
    && r == s.(procs := r.procs, q := r.q, cpu := On(p), mlfqPass := if AllHigh(s) then 0 else s.mlfqPass)
    && forall j :: 0 <= j < |s.procs| ==>
         r.procs[j] == s.procs[j].(state := if j == p then Running else s.procs[j].state,
                                   pass := if AllHigh(s) && s.procs[j].stride != 0 then 0 else s.procs[j].pass)
  }

  ghost predicate Dispatches(s: State, r: State) {
    if !MlfqTurn(s) then exists p: nat :: FirstOfLeast(s, p) && Starts(s, r, p) && r.q == s.q
    else if forall p :: 0 <= p < |s.procs| ==> !MlfqReady(s.procs[p])
    then r == s.(mlfqPass := s.mlfqPass + s.mlfqStride)
    else exists p: nat :: FirstOfLowest(s, p) && Starts(s, r, p)
           && r.q == s.q[s.procs[p].lev := s.q[s.procs[p].lev][1..]]
  }

  lemma TurnIs(s: State)
    requires Shape(s)
    ensures MlfqTurn(s) <==> MinPass(s) == s.mlfqPass
  {
    MinUptoIsMin(s, NPROC);
    hide MinUpto;
    forall p | 0 <= p < NPROC ensures WaitingStride(s.procs[p]) == StrideReady(s.procs[p]) {}
  }

  lemma HighIs(s: State)
    requires Shape(s)
    ensures AllHigh(s) <==> Resets(s)
  {
    MinUptoIsMin(s, NPROC);
    hide MinUpto;
    forall p | 0 <= p < NPROC ensures WaitingStride(s.procs[p]) == StrideReady(s.procs[p]) {}
  }

  lemma RunStarts(s: State, t: State, p: nat)
    requires Shape(s) && Shape(t) && t == s.(q := t.q) && p < NPROC
    ensures Starts(s, Run(t, p), p) && Run(t, p).q == t.q
  {
    HighIs(s);
    MinUptoQueues(s, t.q, NPROC);
    hide MinUpto, AllHigh;
  }

  /** A round takes the stride process or the MLFQ process that it should, and is idle only when no MLFQ process is
      runnable. */
  lemma DispatchDispatches(s: State)
    requires Inv(s) && s.cpu.Idle?
    ensures Dispatches(s, Dispatch(s))
  {
    TurnIs(s);
    assert Shape(s);
    hide Run, Starts, MinPass, MlfqTurn;
    if !MlfqTurn(s) {
      DispatchKeepsInv(s);
      var p := FindStride(s, MinPass(s), 0);
      LeastStride(s);
      RunStarts(s, s, p);
    } else {
      var lev := FirstQueue(s);
      LowestQueue(s);
      if lev < 3 {
        RunStarts(s, s.(q := s.q[lev := s.q[lev][1..]]), s.q[lev][0]);
        assert FirstOfLowest(s, s.q[lev][0]);
      }
    }
  }

  lemma LowestQueue(s: State)
    requires Inv(s)
    ensures var lev := FirstQueue(s);
      if lev == 3 then forall p :: 0 <= p < NPROC ==> !MlfqReady(s.procs[p])
      else s.q[lev] != [] && s.q[lev][0] < NPROC && s.procs[s.q[lev][0]].lev == lev && FirstOfLowest(s, s.q[lev][0])
  {
    forall p | 0 <= p < NPROC && MlfqReady(s.procs[p])
      ensures 0 <= s.procs[p].lev < 3 && p in s.q[s.procs[p].lev]
    {
      assert ProcOk(s.procs[p]) && Queued(s.procs[p], s.procs[p].lev);
    }
    var lev := FirstQueue(s);
    if lev < 3 {
      assert QueueInv(s.procs, s.q[lev], lev);
      assert s.q[lev][0] in s.q[lev];
    }
    hide Tickets, QueueInv, OneRunning;
  }

  lemma LeastStride(s: State)
    requires Inv(s) && MinPass(s) != s.mlfqPass
    ensures FirstOfLeast(s, FindStride(s, MinPass(s), 0))
  {
    hide MinPass, FindStride, Queues, Tickets, OneRunning;
    LeastPass(s, MinPass(s));
    FindStrideFirst(s, MinPass(s), 0);
    forall j | 0 <= j < NPROC ensures WaitingStride(s.procs[j]) == StrideReady(s.procs[j]) {}
    var q :| 0 <= q < NPROC && s.procs[q].isStride && s.procs[q].state.Runnable? && s.procs[q].pass == MinPass(s);
    assert StrideReady(s.procs[q]);
  }

  lemma {:induction false} FindStrideFirst(s: State, min: nat, k: nat)
    requires k <= |s.procs| == NPROC
    ensures var p := FindStride(s, min, k);
      k <= p <= NPROC && forall j :: k <= j < p ==> !(WaitingStride(s.procs[j]) && s.procs[j].pass == min)
    decreases NPROC - k
  {
    if k < NPROC && !(WaitingStride(s.procs[k]) && s.procs[k].pass == min) { FindStrideFirst(s, min, k + 1); }
  }

  // ---------- shares ----------

  /** set_cpu_share: refused above 80 tickets; else the process has its tickets, its stride and the least pass. */
  ghost predicate Asks(s: State, r: State, ticket: nat) {
    if s.total + ticket > 80 then r == s
    else
      && |r.procs| == |s.procs| && s.cpu.On? && s.cpu.p < |s.procs|
      && r == s.(procs := s.procs[s.cpu.p := r.procs[s.cpu.p]], total := s.total + ticket,
                 mlfqTicket := s.mlfqTicket - ticket, mlfqStride := r.mlfqStride)
      && Share(r.mlfqStride, s.mlfqTicket - ticket) && Granted(s, s.procs[s.cpu.p], r.procs[s.cpu.p], ticket)
  }

  ghost predicate Granted(s: State, x: Proc, y: Proc, ticket: nat) {
    && y == x.(lev := -1, tick := 0, isStride := true, ticket := ticket, stride := y.stride, pass := y.pass)
    && Share(y.stride, ticket) && Least(s, y.pass)
  }

  lemma ShareAsks(s: State, ticket: nat)
    requires Inv(s) && s.cpu.On? && ticket > 0
    ensures Asks(s, SetShare(s, ticket), ticket)
  {
    var p := s.cpu.p;
    assert s.procs[p].state.Running?;
    if ticket + s.total <= MAXSTRIDETICKET {
      var t := SetProc(s, p, s.procs[p].(lev := -1, tick := 0, isStride := true, ticket := ticket,
                                         stride := StrideOf(ticket)));
      SameLeast(s, t, p, MinPass(t));
      LeastPass(t, MinPass(t));
      StrideIsShare(ticket);
      StrideIsShare(s.mlfqTicket - ticket);
    }
    hide MinPass, Least, Share, StrideOf, Queues, TicketSum;
  }

  /** The running process has no part in the least pass. */
  lemma SameLeast(s: State, t: State, p: nat, m: nat)
    requires p < |s.procs| == |t.procs| && t.mlfqPass == s.mlfqPass && t.procs == s.procs[p := t.procs[p]]
    requires !s.procs[p].state.Runnable? && !t.procs[p].state.Runnable?
    ensures Least(s, m) <==> Least(t, m)
  {
    if Least(s, m) { LeastSame(s, t, p, m); }
    if Least(t, m) { LeastSame(t, s, p, m); }
  }

  lemma LeastSame(s: State, t: State, p: nat, m: nat)
    requires p < |s.procs| == |t.procs| && t.mlfqPass == s.mlfqPass
    requires forall j :: 0 <= j < |s.procs| && j != p ==> t.procs[j] == s.procs[j]
    requires !s.procs[p].state.Runnable? && !t.procs[p].state.Runnable? && Least(s, m)
    ensures Least(t, m)
  {
    if m != s.mlfqPass {
      var j :| 0 <= j < |s.procs| && s.procs[j].isStride && s.procs[j].state.Runnable? && s.procs[j].pass == m;
      assert t.procs[j] == s.procs[j];
    }
  }

  // ---------- ticks ----------

  /** The hundredth tick boosts: everyone but stride processes to level 0, with a new allotment unless there already. */
  predicate Boosts(s: State) {
    s.boost + 1 >= 100
  }

  function BoostedEntry(boost: bool, x: Proc): (y: Proc) {
    if boost && !x.isStride && x.lev != 0 then x.(lev := 0, tick := 0) else x
  }

  function BoostedQueues(boost: bool, q: seq<seq<nat>>): (r: seq<seq<nat>>)
    requires |q| == 3
    ensures |r| == 3
  {
    if boost then [q[0] + q[1] + q[2], [], []] else q
  }

  /** A tick has been counted: what process `p` and its queue become is said elsewhere. */
  ghost predicate Counts(s: State, r: State, p: nat) {
    && |s.procs| == |r.procs| == 64 && |s.q| == |r.q| == 3
    && r == s.(procs := r.procs, q := r.q, cpu := r.cpu, mlfqPass := r.mlfqPass,
               boost := if Boosts(s) then 0 else s.boost + 1)
    && forall j :: 0 <= j < 64 && j != p ==> r.procs[j] == BoostedEntry(Boosts(s), s.procs[j])
  }

  /** At the end of a slice: five ticks move a process from level 0 to 1, ten from 1 to 2. */
  predicate Settles(x: Proc, y: Proc, resets: bool) {
    && y.state.Runnable?
    && if x.lev == 0 && x.tick >= 5 then y == x.(state := Runnable, lev := 1, tick := 0)
       else if x.lev == 1 && x.tick >= 10 then y == x.(state := Runnable, lev := 2, tick := 0)
       else if x.lev == 2 && resets then y == x.(state := Runnable, tick := 0)
       else y == x.(state := Runnable)
  }

  /** The process has left the CPU and is behind the others of its level. */
  ghost predicate GoesBehind(r: State, q: seq<seq<nat>>, p: nat)
    requires |q| == 3 && p < |r.procs|
  {
    && r.cpu == Idle && 0 <= r.procs[p].lev < 3 && r.q == q[r.procs[p].lev := q[r.procs[p].lev] + [p]]
  }

  /** yield: the tick counts, a stride process is charged its stride and the MLFQ its own. */
  ghost predicate Yields(s: State, r: State) {
    && s.cpu.On? && s.cpu.p < 64 && Counts(s, r, s.cpu.p)
    && var x := BoostedEntry(Boosts(s), s.procs[s.cpu.p]);
       var y := x.(tick := x.tick + 1);
       if x.isStride
       then r.procs[s.cpu.p] == y.(state := Runnable, pass := x.pass + x.stride) && r.cpu == Idle
            && r.q == BoostedQueues(Boosts(s), s.q) && r.mlfqPass == s.mlfqPass
       else Settles(y, r.procs[s.cpu.p], y.tick >= 4) && GoesBehind(r, BoostedQueues(Boosts(s), s.q), s.cpu.p)
            && r.mlfqPass == s.mlfqPass + s.mlfqStride
  }

  /** A slice at levels 0, 1 and 2 lasts 1, 2 and 4 ticks. */
  predicate SliceOver(x: Proc) {
    x.lev == 0 || (x.lev == 1 && x.tick % 2 == 0) || (x.lev == 2 && x.tick % 4 == 0)
  }

  /** The timer's tick: the same charges; a stride process leaves the CPU, an MLFQ process when its slice is over. */
  ghost predicate Ticks(s: State, r: State) {
    && s.cpu.On? && s.cpu.p < 64 && |s.procs| == 64 && Counts(s, r, s.cpu.p)
    && var y := BoostedEntry(Boosts(s), s.procs[s.cpu.p].(tick := s.procs[s.cpu.p].tick + 1));
       if y.isStride
       then r.procs[s.cpu.p] == y.(state := Runnable, pass := y.pass + y.stride) && r.cpu == Idle
            && r.q == BoostedQueues(Boosts(s), s.q) && r.mlfqPass == s.mlfqPass
       else r.mlfqPass == s.mlfqPass + s.mlfqStride &&
            if SliceOver(y)
            then Settles(y, r.procs[s.cpu.p], true) && GoesBehind(r, BoostedQueues(Boosts(s), s.q), s.cpu.p)
            else r.procs[s.cpu.p] == y && r.cpu == s.cpu && r.q == BoostedQueues(Boosts(s), s.q)
  }

  lemma CountTickQueues(s: State)
    requires Inv(s)
    ensures CountTick(s).q == BoostedQueues(Boosts(s), s.q) && CountTick(s).mlfqTicket == s.mlfqTicket
    ensures CountTick(s).boost == if Boosts(s) then 0 else s.boost + 1
  {
  }

  lemma CountedIs(s: State, x: Proc)
    requires Inv(s) && s.cpu.On?
    ensures var t := CountTick(SetProc(s, s.cpu.p, x));
      && Shape(t) && Counts(s, t, s.cpu.p) && t.q == BoostedQueues(Boosts(s), s.q) && t.mlfqPass == s.mlfqPass
      && t.procs[s.cpu.p] == BoostedEntry(Boosts(s), x) && t.cpu == s.cpu
  {
    CountTickKeepsInv(s);
    CountTickQueues(s);
    CountTickSet(s, s.cpu.p, x);
    hide CountTick, Queues, Tickets, OneRunning;
  }

  lemma YieldYields(s: State)
    requires Inv(s) && s.cpu.On?
    ensures Yields(s, Yield(s))
  {
    CountedIs(s, s.procs[s.cpu.p].(state := Runnable));
    assert ProcOk(s.procs[s.cpu.p]) && s.procs[s.cpu.p].state.Running?;
    hide CountTick, Queues, Tickets, OneRunning, BoostedQueues;
  }

  lemma TickTicks(s: State)
    requires Inv(s) && s.cpu.On?
    ensures Ticks(s, Tick(s))
  {
    CountedIs(s, s.procs[s.cpu.p].(tick := s.procs[s.cpu.p].tick + 1));
    assert ProcOk(s.procs[s.cpu.p]) && s.procs[s.cpu.p].state.Running?;
    hide CountTick, Queues, Tickets, OneRunning, BoostedQueues;
  }

  // ---------- every step ----------

  /** Entry `p` alone changes, to `x`. */
  predicate Becomes(s: State, r: State, p: nat, x: Proc) {
    p < |s.procs| && r == s.(procs := s.procs[p := x])
  }

  /** What each step does. */
  ghost predicate Effect(s: State, step: Step, r: State) {
    match step
    case DispatchStep => Dispatches(s, r)
    case TickStep => Ticks(s, r)
    case YieldStep => Yields(s, r)
    case SleepStep(chan) => Sleeps(s, r, chan)
    case WakeupStep(chan) => WakesUp(s, r, chan)
    case KillStep(pid) => Kills(s, r, pid)
    case ShareStep(ticket) => Asks(s, r, ticket)
    case ExitStep(chans) => Exits(s, r, chans)
    case AllocStep(p, pid) => p < |s.procs| && Becomes(s, r, p, s.procs[p].(state := Embryo, pid := pid))
    case ForkFailStep(p) => p < |s.procs| && Becomes(s, r, p, s.procs[p].(state := Unused))
    case ForkDoneStep(p) =>
      && p < |s.procs| && |s.q| == 3
      && Becomes(s.(q := [s.q[0] + [p], s.q[1], s.q[2]]), r, p, Cleared(s.procs[p]).(state := Runnable))
    case ReapStep(p) => p < |s.procs| && Becomes(s, r, p, Cleared(s.procs[p]).(state := Unused, pid := 0))
  }

  function Cleared(x: Proc): (y: Proc) {
    x.(lev := 0, tick := 0, isStride := false, stride := 0, pass := 0, ticket := 0)
  }

  lemma DoHasEffect(s: State, step: Step)
    requires Inv(s) && Enabled(s, step)
    ensures Effect(s, step, Do(s, step))
  {
    hide Dispatches, Ticks, Yields, WakesUp, Kills, Asks, Exits, Dispatch, Tick, Yield, WakeUpto, WakeEach, MinPass;
    hide SetShare, Exit, Kill;
    match step
    case DispatchStep => DispatchDispatches(s);
    case TickStep => TickTicks(s);
    case YieldStep => YieldYields(s);
    case WakeupStep(chan) => WakeupWakesUp(s, chan);
    case KillStep(pid) => KillKills(s, pid);
    case ShareStep(ticket) => ShareAsks(s, ticket);
    case ExitStep(chans) => ExitExits(s, chans);
    case ForkDoneStep(p) => ForkQueues(s, p);
    case _ =>
  }

  lemma WakeupWakesUp(s: State, chan: nat)
    requires Shape(s)
    ensures WakesUp(s, Wakeup(s, chan), chan)
  {
    WakeupWakes(s, chan);
    hide Wakeup, Woken, TableOrder;
  }

  lemma ForkQueues(s: State, p: nat)
    requires Shape(s) && p < NPROC
    ensures ForkDone(s, p).q == [s.q[0] + [p], s.q[1], s.q[2]]
  {
  }

  // ---------- nothing else has these effects ----------

  lemma OneShare(a: nat, b: nat, ticket: int)
    requires Share(a, ticket) && Share(b, ticket)
    ensures a == b
  {
    TimesMore(a, b, ticket);
    TimesMore(b, a, ticket);
  }

  lemma TimesMore(a: nat, b: nat, t: int)
    requires t > 0
    ensures a < b ==> (a + 1) * t <= b * t
  {
  }

  lemma OneLeast(s: State, m: nat, n: nat)
    requires |s.procs| == NPROC && Least(s, m) && Least(s, n)
    ensures m == n
  {
    LeastPass(s, m);
    LeastPass(s, n);
    hide Least, MinPass;
  }

  /** An increasing sequence is told by what is in it. */
  lemma {:induction false} OneOrder(a: seq<nat>, b: seq<nat>)
    requires forall i, j :: 0 <= i < j < |a| ==> a[i] < a[j]
    requires forall i, j :: 0 <= i < j < |b| ==> b[i] < b[j]
    requires forall x :: x in a <==> x in b
    ensures a == b
  {
    if b != [] { assert b[0] in b; }
    if a != [] {
      assert a[0] in b && b != [] && b[0] in a;
      assert a[0] == b[0];
      forall x ensures x in a[1..] <==> x in b[1..] {
        if x in a[1..] { assert x in b && x != a[0]; }
        if x in b[1..] { assert x in a && x != b[0]; }
      }
      OneOrder(a[1..], b[1..]);
    }
  }

  lemma OneWaking(s: State, a: State, b: State, z: set<nat>)
    requires Woken(s, a, z) && Woken(s, b, z) && TableOrder(s, a) && TableOrder(s, b)
    ensures a == b
  {
    hide Least;
    forall p | 0 <= p < 64 ensures a.procs[p] == b.procs[p] {
      assert WokenEntry(s, a, p, p in z) && WokenEntry(s, b, p, p in z);
      if p in z && s.procs[p].isStride { OneLeast(s, a.procs[p].pass, b.procs[p].pass); }
    }
    forall lev | 0 <= lev < 3 ensures a.q[lev] == b.q[lev] {
      assert WokenQueue(s, a, z, lev) && WokenQueue(s, b, z, lev);
      var n := |s.q[lev]|;
      OneOrder(a.q[lev][n..], b.q[lev][n..]);
      assert a.q[lev] == a.q[lev][..n] + a.q[lev][n..] && b.q[lev] == b.q[lev][..n] + b.q[lev][n..];
    }
    assert a.procs == b.procs && a.q == b.q;
  }

  lemma {:induction false} OneTurn(s: State, a: State, b: State, chans: seq<nat>)
    requires WakesInTurn(s, a, chans) && WakesInTurn(s, b, chans)
    ensures a == b
    decreases |chans|
  {
    hide Woken, TableOrder;
    if chans != [] {
      var init := chans[..|chans| - 1];
      var t :| WakesLast(t, a, chans) && WakesInTurn(s, t, init);
      var u :| WakesLast(u, b, chans) && WakesInTurn(s, u, init);
      OneTurn(s, t, u, init);
      OneWaking(t, a, b, Sleepers(t, chans[|chans| - 1], 64));
    }
  }

  lemma OneExit(s: State, a: State, b: State, chans: seq<nat>)
    requires Exits(s, a, chans) && Exits(s, b, chans)
    ensures a == b
  {
    hide WakesInTurn, Share;
    var t :| WakesInTurn(s, t, chans) && Leaves(t, a);
    var u :| WakesInTurn(s, u, chans) && Leaves(u, b);
    OneTurn(s, t, u, chans);
    if t.procs[t.cpu.p].isStride { OneShare(a.mlfqStride, b.mlfqStride, a.mlfqTicket); }
  }

  lemma OneDispatch(s: State, a: State, b: State)
    requires Dispatches(s, a) && Dispatches(s, b)
    ensures a == b
  {
    hide AllHigh, MlfqTurn;
    if !MlfqTurn(s) {
      var p: nat :| FirstOfLeast(s, p) && Starts(s, a, p) && a.q == s.q;
      var r: nat :| FirstOfLeast(s, r) && Starts(s, b, r) && b.q == s.q;
      OneLeastStride(s, p, r);
      OneStart(s, a, b, p);
    } else if !(forall p :: 0 <= p < |s.procs| ==> !MlfqReady(s.procs[p])) {
      hide Starts;
      var p: nat :| FirstOfLowest(s, p) && Starts(s, a, p) && a.q == s.q[s.procs[p].lev := s.q[s.procs[p].lev][1..]];
      var r: nat :| FirstOfLowest(s, r) && Starts(s, b, r) && b.q == s.q[s.procs[r].lev := s.q[s.procs[r].lev][1..]];
      OneStart(s, a, b, p);
    }
  }

  lemma OneLeastStride(s: State, p: nat, r: nat)
    requires FirstOfLeast(s, p) && FirstOfLeast(s, r)
    ensures p == r
  {
  }

  lemma OneStart(s: State, a: State, b: State, p: nat)
    requires Starts(s, a, p) && Starts(s, b, p) && a.q == b.q
    ensures a == b
  {
    hide AllHigh;
    assert a.procs == b.procs;
  }

  lemma OneAsk(s: State, a: State, b: State, ticket: nat)
    requires |s.procs| == NPROC && Asks(s, a, ticket) && Asks(s, b, ticket)
    ensures a == b
  {
    hide Least, Share;
    if s.total + ticket <= 80 {
      OneShare(a.mlfqStride, b.mlfqStride, s.mlfqTicket - ticket);
      OneShare(a.procs[s.cpu.p].stride, b.procs[s.cpu.p].stride, ticket);
      OneLeast(s, a.procs[s.cpu.p].pass, b.procs[s.cpu.p].pass);
    }
  }

  lemma OneKill(s: State, a: State, b: State, pid: nat)
    requires Kills(s, a, pid) && Kills(s, b, pid)
    ensures a == b
  {
    hide Woken, TableOrder;
    if !(forall p :: 0 <= p < |s.procs| ==> s.procs[p].pid != pid) {
      var p: nat :| FirstWithPid(s, pid, p) && KillsEntry(s, a, p);
      var q: nat :| FirstWithPid(s, pid, q) && KillsEntry(s, b, q);
      assert p == q;
      if s.procs[p].state.Sleeping? { OneWaking(s, a, b, {p}); }
    }
  }

  lemma OneCount(s: State, a: State, b: State, p: nat)
    requires Counts(s, a, p) && Counts(s, b, p) && p < 64 && a.procs[p] == b.procs[p] && a.q == b.q && a.cpu == b.cpu
    requires a.mlfqPass == b.mlfqPass
    ensures a == b
  {
    hide BoostedEntry;
    assert a.procs == b.procs;
  }

  lemma OneTick(s: State, a: State, b: State)
    requires Ticks(s, a) && Ticks(s, b)
    ensures a == b
  {
    hide Counts, BoostedEntry, BoostedQueues;
    OneCount(s, a, b, s.cpu.p);
  }

  lemma OneYield(s: State, a: State, b: State)
    requires Yields(s, a) && Yields(s, b)
    ensures a == b
  {
    hide Counts, BoostedEntry, BoostedQueues;
    OneCount(s, a, b, s.cpu.p);
  }

  /** The relation tells the whole state: a step is the state machine's if and only if it has the step's effect. */
  lemma StepIsEffect(s: State, step: Step, r: State)
    requires Inv(s) && Enabled(s, step)
    ensures r == Do(s, step) <==> Effect(s, step, r)
  {
    DoHasEffect(s, step);
    if Effect(s, step, r) { OneEffect(s, step, r, Do(s, step)); }
  }

  lemma OneEffect(s: State, step: Step, a: State, b: State)
    requires Shape(s) && Effect(s, step, a) && Effect(s, step, b)
    ensures a == b
  {
    hide Dispatches, Ticks, Yields, Kills, Asks, Exits, Woken, TableOrder, MinPass;
    match step
    case DispatchStep => OneDispatch(s, a, b);
    case TickStep => OneTick(s, a, b);
    case YieldStep => OneYield(s, a, b);
    case WakeupStep(chan) => OneWaking(s, a, b, Sleepers(s, chan, 64));
    case KillStep(pid) => OneKill(s, a, b, pid);
    case ShareStep(ticket) => OneAsk(s, a, b, ticket);
    case ExitStep(chans) => OneExit(s, a, b, chans);
    case _ =>
  }

  // ---------- sleeping and waking ----------

  /** What wakes entry `p`: wakeup of its channel, kill of its pid, an exit that wakes its channel. */
  predicate WakesEntry(s: State, step: Step, p: nat)
    requires p < |s.procs|
  {
    match step
    case WakeupStep(chan) => s.procs[p].chan == chan
    case KillStep(pid) => FirstWithPid(s, pid, p)
    case ExitStep(chans) => s.procs[p].chan in chans
    case _ => false
  }

  /** No wakeup is lost and none is spurious: a process asleep stays as it is until one of these, and is runnable
      after. */
  lemma AsleepUntilWoken(s: State, step: Step, p: nat)
    requires Inv(s) && Enabled(s, step) && p < NPROC && s.procs[p].state.Sleeping?
    ensures var y := Do(s, step).procs[p];
      if WakesEntry(s, step, p) then y == s.procs[p].(state := Runnable, pass := y.pass)
      else y.state.Sleeping? && y.chan == s.procs[p].chan && y.pid == s.procs[p].pid
  {
    assert s.cpu != On(p) && Shape(s);
    DoHasEffect(s, step);
    EffectOnSleeper(s, step, Do(s, step), p) by { hide Do, Inv, Effect; }
    hide Do, Effect, Inv;
  }

  lemma EffectOnSleeper(s: State, step: Step, r: State, p: nat)
    requires Shape(s) && Enabled(s, step) && Shape(r) && p < NPROC && s.procs[p].state.Sleeping? && s.cpu != On(p)
    requires Effect(s, step, r)
    ensures if WakesEntry(s, step, p) then r.procs[p] == s.procs[p].(state := Runnable, pass := r.procs[p].pass)
            else r.procs[p].state.Sleeping? && r.procs[p].chan == s.procs[p].chan && r.procs[p].pid == s.procs[p].pid
  {
    hide AllHigh, MlfqTurn, Woken, TableOrder, WakesInTurn, Least, Share, BoostedQueues;
    match step
    case WakeupStep(chan) => WokenAt(s, r, Sleepers(s, chan, 64), p);
    case KillStep(pid) => KillOnSleeper(s, r, pid, p);
    case ExitStep(chans) =>
      var t :| WakesInTurn(s, t, chans) && Leaves(t, r);
      InTurnWakesAll(s, t, chans);
      WokenAt(s, t, SleepersOn(s, chans), p);
    case _ =>
  }

  lemma KillOnSleeper(s: State, r: State, pid: nat, p: nat)
    requires Shape(s) && Kills(s, r, pid) && p < NPROC && s.procs[p].state.Sleeping?
    ensures |r.procs| == NPROC
    ensures if WakesEntry(s, KillStep(pid), p)
            then r.procs[p] == s.procs[p].(state := Runnable, pass := r.procs[p].pass)
            else r.procs[p] == s.procs[p]
  {
    hide Woken, TableOrder;
    if !(forall j :: 0 <= j < |s.procs| ==> s.procs[j].pid != pid) {
      var k: nat :| FirstWithPid(s, pid, k) && KillsEntry(s, r, k);
      OnePid(s, pid, k, p);
      hide FirstWithPid;
      if s.procs[k].state.Sleeping? { WokenAt(s, r, {k}, p); }
    }
  }

  lemma OnePid(s: State, pid: nat, k: nat, p: nat)
    requires FirstWithPid(s, pid, k)
    ensures FirstWithPid(s, pid, p) <==> p == k
  {
  }

  lemma WokenAt(s: State, r: State, z: set<nat>, p: nat)
    requires Woken(s, r, z) && p < 64
    ensures |s.procs| == |r.procs| == 64 && r.cpu == s.cpu
    ensures if p in z then r.procs[p] == s.procs[p].(state := Runnable, pass := r.procs[p].pass)
            else r.procs[p] == s.procs[p]
  {
    assert WokenEntry(s, r, p, p in z);
  }

  /** sleep and wakeup are a pair: the process waits for its own channel and for no other. */
  lemma SleepThenWakeup(s: State, chan: nat, other: nat)
    requires Inv(s) && s.cpu.On?
    ensures var p, t := s.cpu.p, Sleep(s, chan);
      && Asleep(t.procs[p], chan)
      && if other == chan then Wakeup(t, other).procs[p].state.Runnable? else Asleep(Wakeup(t, other).procs[p], chan)
  {
    var t := Sleep(s, chan);
    SleepKeepsInv(s, chan);
    hide Inv, Wakeup;
    AsleepUntilWoken(t, WakeupStep(other), s.cpu.p);
  }

  predicate SleepsAt(s: State, p: nat) {
    p < |s.procs| && s.procs[p].state.Sleeping?
  }

  predicate NotWoken(s: State, step: Step, p: nat) {
    p < |s.procs| ==> !WakesEntry(s, step, p)
  }

  /** Over any stretch of a run: a process stays asleep on its channel until a step that wakes it. */
  lemma {:induction false} SleepsOn(run: seq<State>, steps: seq<Step>, i: nat, j: nat, p: nat)
    requires IsRun(run, steps) && i <= j < |run| && p < NPROC
    requires SleepsAt(run[i], p) && forall k :: i <= k < j ==> NotWoken(run[k], steps[k], p)
    ensures SleepsAt(run[j], p) && run[j].procs[p].chan == run[i].procs[p].chan
    decreases j
  {
    hide Do, Inv, Init, WakesEntry, Enabled;
    if i < j {
      assert NotWoken(run[j - 1], steps[j - 1], p);
      SleepsOn(run, steps, i, j - 1, p);
      RunInv(run, steps, j - 1);
      AsleepUntilWoken(run[j - 1], steps[j - 1], p);
    }
  }
}
