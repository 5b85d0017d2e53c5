/** When the scheduler's queues overflow, told before the call. */
module SchedOverflow {
  import opened Indexing
  import opened Sched
  import opened SchedSafety

  /** The count of ticks reaches its limit, so that this tick or yield boosts. */
  predicate BoostDue(s: State) {
    s.boost + 1 >= BOOSTLIMIT
  }

  /** The process on the CPU once a boost, if due, has changed it. */
  function Boosted(s: State, x: Proc): (r: Proc) {
    if BoostDue(s) then BoostProc(x) else x
  }

  /** The queue that takes the process on the CPU; -1 when none does. */
  function YieldsTo(s: State): (lev: int)
    requires Shape(s) && s.cpu.On?
  {
    var x := Boosted(s, s.procs[s.cpu.p]);
    if x.isStride then -1 else Demote(x.(tick := x.tick + 1)).lev
  }

  function TicksTo(s: State): (lev: int)
    requires Shape(s) && s.cpu.On?
  {
    var x := s.procs[s.cpu.p];
    var y := Boosted(s, x.(tick := x.tick + 1));
    if y.isStride || y.tick % Quantum(y.lev) != 0 then -1
    else if y.lev < 2 && y.tick >= Allotment(y.lev) then y.lev + 1 else y.lev
  }

  /** Length of queue `lev` when the process arrives there. */
  function Before(s: State, lev: nat): (n: nat)
    requires Shape(s) && lev < 3
  {
    if !BoostDue(s) then |s.q[lev]| else if lev == 0 then |s.q[0]| + |s.q[1]| + |s.q[2]| else 0
  }

  predicate FullAt(s: State, lev: int)
    requires Shape(s)
  {
    0 <= lev < 3 && Before(s, lev) >= NPROC - 1
  }

  /** MLFQ processes of level `lev` among the first `k` entries that sleep on the channel. */
  function Sleepers(s: State, chan: nat, lev: int, k: nat): (r: set<nat>)
    requires k <= |s.procs|
  {
    set p: nat | p < k && s.procs[p].state.Sleeping? && s.procs[p].chan == chan && !s.procs[p].isStride
                 && s.procs[p].lev == lev
  }

  /** What can be seen before the call. Only ticks, yields, wakeups and kills overflow a queue. */
  predicate Overflows(s: State, step: Step)
    requires Enabled(s, step)
  {
    match step
    case YieldStep => FullAt(s, YieldsTo(s))
    case TickStep => FullAt(s, TicksTo(s))
    case WakeupStep(chan) => exists lev :: 0 <= lev < 3 && |s.q[lev]| + |Sleepers(s, chan, lev, NPROC)| >= NPROC
    case KillStep(pid) =>
      var p := FindPid(s, pid, 0);
      p < NPROC && s.procs[p].state.Sleeping? && !s.procs[p].isStride && 0 <= s.procs[p].lev < 3
      && |s.q[s.procs[p].lev]| >= NPROC - 1
    case _ => false
  }

  lemma SleepersMore(s: State, chan: nat, lev: int, k: nat)
    requires 0 < k <= |s.procs|
    ensures var x := s.procs[k - 1];
      |Sleepers(s, chan, lev, k)| == |Sleepers(s, chan, lev, k - 1)|
        + if x.state.Sleeping? && x.chan == chan && !x.isStride && x.lev == lev then 1 else 0
  {
    var x, t := s.procs[k - 1], Sleepers(s, chan, lev, k - 1);
    if x.state.Sleeping? && x.chan == chan && !x.isStride && x.lev == lev {
      assert Sleepers(s, chan, lev, k) == t + {k - 1};
    } else {
      assert Sleepers(s, chan, lev, k) == t;
    }
  }

  lemma WakesOne(t: State, p: nat, lev: nat)
    requires Shape(t) && p < NPROC && lev < 3
    ensures |WakeOne(t, p).q[lev]| == |t.q[lev]| + if !t.procs[p].isStride && t.procs[p].lev == lev then 1 else 0
    ensures Shape(WakeOne(t, p)) && forall j :: 0 <= j < NPROC && j != p ==> WakeOne(t, p).procs[j] == t.procs[j]
  {
    hide MinPass;
  }

  lemma {:induction false} WakesEach(s: State, chan: nat, k: nat, lev: nat)
    requires Shape(s) && k <= NPROC && lev < 3
    ensures |WakeUpto(s, chan, k).q[lev]| == |s.q[lev]| + |Sleepers(s, chan, lev, k)|
    ensures forall p :: k <= p < NPROC ==> WakeUpto(s, chan, k).procs[p] == s.procs[p]
  {
    hide MinPass, WakeOne, Sleepers;
    if k == 0 {
      NoSleepers(s, chan, lev);
    } else {
      WakesEach(s, chan, k - 1, lev);
      SleepersMore(s, chan, lev, k);
      WakesOne(WakeUpto(s, chan, k - 1), k - 1, lev);
    }
  }

  lemma NoSleepers(s: State, chan: nat, lev: int)
    ensures |Sleepers(s, chan, lev, 0)| == 0
  {
    assert Sleepers(s, chan, lev, 0) == {};
  }

  lemma WakeOverflow(s: State, chan: nat)
    requires Shape(s)
    ensures !Fits(Wakeup(s, chan)) <==>
            exists lev :: 0 <= lev < 3 && |s.q[lev]| + |Sleepers(s, chan, lev, NPROC)| >= NPROC
  {
    var r := Wakeup(s, chan);
    WakesEach(s, chan, NPROC, 0);
    WakesEach(s, chan, NPROC, 1);
    WakesEach(s, chan, NPROC, 2);
    hide Sleepers, WakeUpto;
    if !Fits(r) {
      assert |s.q[0]| + |Sleepers(s, chan, 0, NPROC)| >= NPROC || |s.q[1]| + |Sleepers(s, chan, 1, NPROC)| >= NPROC
        || |s.q[2]| + |Sleepers(s, chan, 2, NPROC)| >= NPROC;
    }
  }

  /** A queue that some entry of the table is not in has room. */
  lemma NotFull(s: State, p: nat, lev: nat)
    requires Inv(s) && p < NPROC && lev < 3 && !Queued(s.procs[p], lev)
    ensures |s.q[lev]| < NPROC
  {
    hide QueueInv, OneRunning, Tickets;
    FullQueue(s.procs, s.q[lev], lev);
  }

  /** The process on the CPU goes to queue `lev`, or to none. */
  lemma ArrivalOverflows(t: State, r: State, p: nat, lev: int)
    requires Shape(t) && Inv(r) && p < NPROC && r.q == Enqueue(t, lev, p).q
    requires forall l :: 0 <= l < 3 && l != lev ==> !Queued(r.procs[p], l)
    ensures !Fits(r) <==> 0 <= lev < 3 && |t.q[lev]| >= NPROC - 1
  {
    hide Inv, Queued;
    if lev != 0 { NotFull(r, p, 0); }
    if lev != 1 { NotFull(r, p, 1); }
    if lev != 2 { NotFull(r, p, 2); }
    assert Shape(r) by { InvShape(r); }
  }

  lemma CountedQueues(s: State, lev: nat)
    requires Shape(s) && lev < 3
    ensures |CountTick(s).q[lev]| == Before(s, lev)
  {
  }

  lemma YieldArrives(s: State)
    requires Inv(s) && s.cpu.On?
    ensures Yield(s).q == Enqueue(CountTick(s), YieldsTo(s), s.cpu.p).q
    ensures forall l :: 0 <= l < 3 && l != YieldsTo(s) ==> !Queued(Yield(s).procs[s.cpu.p], l)
  {
    hide CountTick, Queues, TicketSum;
    CountTickKeepsInv(s);
    CountTickSet(s, s.cpu.p, s.procs[s.cpu.p].(state := Runnable));
  }

  lemma TickArrives(s: State)
    requires Inv(s) && s.cpu.On?
    ensures Tick(s).q == Enqueue(CountTick(s), TicksTo(s), s.cpu.p).q
    ensures forall l :: 0 <= l < 3 && l != TicksTo(s) ==> !Queued(Tick(s).procs[s.cpu.p], l)
  {
    hide CountTick, Queues, TicketSum;
    CountTickKeepsInv(s);
    CountTickSet(s, s.cpu.p, s.procs[s.cpu.p].(tick := s.procs[s.cpu.p].tick + 1));
  }

  lemma CountTickShape(s: State)
    requires Inv(s)
    ensures Shape(CountTick(s))
  {
    CountTickKeepsInv(s);
  }

  lemma YieldOverflow(s: State)
    requires Inv(s) && s.cpu.On?
    ensures !Fits(Yield(s)) <==> FullAt(s, YieldsTo(s))
  {
    YieldArrives(s);
    YieldKeepsInv(s);
    CountTickShape(s);
    var lev := YieldsTo(s);
    assert Shape(s) && s.cpu.p < NPROC;
    hide Inv, Yield, CountTick, YieldsTo, Fits, Before;
    if 0 <= lev < 3 { CountedQueues(s, lev); }
    ArrivalOverflows(CountTick(s), Yield(s), s.cpu.p, lev);
  }

  lemma TickOverflow(s: State)
    requires Inv(s) && s.cpu.On?
    ensures !Fits(Tick(s)) <==> FullAt(s, TicksTo(s))
  {
    TickArrives(s);
    TickKeepsInv(s);
    CountTickShape(s);
    var lev := TicksTo(s);
    assert Shape(s) && s.cpu.p < NPROC;
    hide Inv, Tick, CountTick, TicksTo, Fits, Before;
    if 0 <= lev < 3 { CountedQueues(s, lev); }
    ArrivalOverflows(CountTick(s), Tick(s), s.cpu.p, lev);
  }

  /** The other routines leave some entry of the table out of every queue, or leave the queues alone or shorter. */
  lemma OthersFit(s: State, step: Step)
    requires Inv(s) && Enabled(s, step) && Fits(s)
    requires !step.YieldStep? && !step.TickStep? && !step.WakeupStep? && !step.KillStep?
    ensures Fits(Do(s, step))
  {
    match step
    case ExitStep(_) => LeavesOne(s, step, s.cpu.p);
    case ForkDoneStep(p) => LeavesOne(s, step, s.cpu.p);
    case DispatchStep => DispatchFits(s);
    case _ =>
  }

  lemma LeavesOne(s: State, step: Step, p: nat)
    requires Inv(s) && Enabled(s, step) && p < NPROC && !Do(s, step).procs[p].state.Runnable?
    ensures Fits(Do(s, step))
  {
    StepKeepsInv(s, step);
    var r := Do(s, step);
    hide Do, Enabled, Inv;
    assert Shape(r) by { InvShape(r); }
    NotFull(r, p, 0);
    NotFull(r, p, 1);
    NotFull(r, p, 2);
  }

  lemma DispatchFits(s: State)
    requires Inv(s) && s.cpu.Idle? && Fits(s)
    ensures Fits(Dispatch(s))
  {
    hide Inv, MinPass, FindStride, Resets;
  }

  /** A routine of the kernel panics in enqueue exactly if this holds before it. */
  lemma OverflowsExactly(s: State, step: Step)
    requires Inv(s) && Enabled(s, step) && Fits(s)
    ensures !Fits(Do(s, step)) <==> Overflows(s, step)
  {
    match step
    case YieldStep => YieldOverflow(s);
    case TickStep => TickOverflow(s);
    case WakeupStep(chan) => WakeOverflow(s, chan);
    case KillStep(pid) => KillOverflow(s, pid);
    case _ => OthersFit(s, step);
  }

  lemma KillOverflow(s: State, pid: nat)
    requires Inv(s) && Fits(s)
    ensures !Fits(Kill(s, pid)) <==> Overflows(s, KillStep(pid))
  {
    hide Inv, MinPass;
  }
}
