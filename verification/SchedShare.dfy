/** Proportional share: how far apart the passes of active clients can drift, and what that means
    for the ticks they are charged. */
module SchedShare {
  import opened Sched
  import opened SchedSafety
  import opened SchedEffects

  /** A client of the stride scheduler: the MLFQ as a whole, or one stride process. */
  datatype Client = Mlfq | Task(p: nat)

  const MLFQSPAN := 2000             // four ticks at the largest MLFQ stride, LARGENUM / 20

  predicate Active(s: State, c: Client) {
    c.Task? ==>
      c.p < |s.procs| && s.procs[c.p].isStride && (s.procs[c.p].state.Runnable? || s.procs[c.p].state.Running?)
  }

  function Pass(s: State, c: Client): (n: nat)
    requires Active(s, c)
  {
    if c.Mlfq? then s.mlfqPass else s.procs[c.p].pass
  }

  function StrideOfClient(s: State, c: Client): (n: nat)
    requires Active(s, c)
  {
    if c.Mlfq? then s.mlfqStride else s.procs[c.p].stride
  }

  /** How far above any other active pass a client's own pass can be. */
  function Span(s: State, c: Client): (n: nat)
    requires Active(s, c)
  {
    if c.Mlfq? || s.procs[c.p].stride < MLFQSPAN then MLFQSPAN else s.procs[c.p].stride
  }

  /** Ticks charged to the MLFQ since it was dispatched, at most. */
  function Slice(s: State): (n: nat)
    requires Shape(s)
  {
    if s.cpu.On? && !s.procs[s.cpu.p].isStride then s.procs[s.cpu.p].tick % Quantum(s.procs[s.cpu.p].lev) else 0
  }

  ghost predicate Gaps(s: State)
    requires Shape(s)
  {
    && (forall c, d :: Active(s, c) && Active(s, d) ==> Pass(s, c) <= Pass(s, d) + Span(s, c))
    && (s.cpu.On? && s.procs[s.cpu.p].isStride ==> forall d :: Active(s, d) ==> s.procs[s.cpu.p].pass <= Pass(s, d))
    && (s.cpu.On? && !s.procs[s.cpu.p].isStride ==>
          forall d :: Active(s, d) ==> s.mlfqPass <= Pass(s, d) + Slice(s) * s.mlfqStride)
  }

  lemma StrideBounds(s: State)
    requires Inv(s)
    ensures 100 <= s.mlfqStride <= 500
    ensures forall p :: 0 <= p < NPROC && Live(s.procs[p]) && s.procs[p].isStride ==> 125 <= s.procs[p].stride <= 10000
  {
    hide Queues;
    StrideRange(s.mlfqTicket);
    forall p | 0 <= p < NPROC && Live(s.procs[p]) && s.procs[p].isStride ensures 125 <= s.procs[p].stride <= 10000 {
      assert ProcOk(s.procs[p]);
      StrideRange(s.procs[p].ticket);
    }
  }

  lemma StrideRange(t: int)
    requires 1 <= t <= 100
    ensures 100 <= StrideOf(t) <= 10000
    ensures t >= 20 ==> StrideOf(t) <= 500
    ensures t <= 80 ==> StrideOf(t) >= 125
  {
    var q := StrideOf(t);
    Below(LARGENUM, t);
    hide StrideOf;
    NoBigger(LARGENUM, t, 100, 100, q);
    NoBigger(LARGENUM, 1, t, q, LARGENUM);
    if t >= 20 { NoBigger(LARGENUM, 20, t, q, 500); }
    if t <= 80 { NoBigger(LARGENUM, t, 80, 125, q); }
  }

  lemma NoBigger(a: nat, b: nat, c: nat, q: nat, r: nat)
    requires 0 < b <= c && q * c <= a < (r + 1) * b
    ensures q <= r
  {
    if q > r {
      MulMono(b, c, q);
      MulMono(r + 1, q, b);
      assert false;
    }
  }

  lemma Below(a: nat, b: nat)
    requires b > 0
    ensures a / b * b <= a < (a / b + 1) * b
  {
  }

  lemma MulMono(a: nat, b: nat, t: nat)
    requires a <= b
    ensures a * t <= b * t && t * a <= t * b
  {
  }

  // ---------- keeping the gaps ----------

  /** The client whose pass get_min_pass returns; only a running stride process may be below it. */
  lemma MinClient(s: State) returns (e: Client)
    requires Inv(s)
    ensures Active(s, e) && Pass(s, e) == MinPass(s) && (s.cpu.On? ==> e != Task(s.cpu.p))
    ensures forall d :: Active(s, d) && !(s.cpu.On? && d == Task(s.cpu.p)) ==> MinPass(s) <= Pass(s, d)
  {
    MinUptoIsMin(s, NPROC);
    hide Queues; hide MinUpto; hide Tickets;
    if MinPass(s) == s.mlfqPass {
      e := Mlfq;
    } else {
      var p :| 0 <= p < NPROC && WaitingStride(s.procs[p]) && s.procs[p].pass == MinPass(s);
      e := Task(p);
    }
    forall d | Active(s, d) && !(s.cpu.On? && d == Task(s.cpu.p)) ensures MinPass(s) <= Pass(s, d) {
      if d.Task? { assert WaitingStride(s.procs[d.p]); }
    }
  }

  /** Clients other than `p` are the same in both states. */
  ghost predicate SameOthers(s: State, r: State, p: nat)
    requires Shape(s) && Shape(r)
  {
    forall d :: d != Task(p) ==>
      Active(r, d) == Active(s, d) && (Active(s, d) ==> Pass(r, d) == Pass(s, d) && Span(r, d) == Span(s, d))
  }

  /** A process joins at the minimum pass. */
  lemma JoinGaps(s: State, r: State, p: nat, e: Client)
    requires Shape(s) && Shape(r) && Gaps(s) && p < NPROC && SameOthers(s, r, p)
    requires s.cpu == r.cpu && s.mlfqStride == r.mlfqStride && Slice(s) == Slice(r) && s.cpu != On(p)
    requires s.cpu.On? ==> r.procs[s.cpu.p] == s.procs[s.cpu.p]
    requires Active(r, Task(p)) && Active(s, e) && e != Task(p) && Pass(r, Task(p)) == Pass(s, e)
    requires forall d :: Active(s, d) && !(s.cpu.On? && d == Task(s.cpu.p)) ==> Pass(s, e) <= Pass(s, d)
    ensures Gaps(r)
  {
    forall c, d | Active(r, c) && Active(r, d) ensures Pass(r, c) <= Pass(r, d) + Span(r, c) {
      if c == Task(p) {
        assert Active(s, Mlfq);
        if d != Task(p) && s.cpu.On? && d == Task(s.cpu.p) { assert Pass(s, Mlfq) <= Pass(s, d) + Span(s, Mlfq); }
      } else if d == Task(p) {
        assert Pass(s, c) <= Pass(s, e) + Span(s, c);
      } else {
        assert Pass(s, c) <= Pass(s, d) + Span(s, c);
      }
    }
    if s.cpu.On? {
      forall d | Active(r, d)
        ensures s.procs[s.cpu.p].isStride ==> r.procs[r.cpu.p].pass <= Pass(r, d)
        ensures !s.procs[s.cpu.p].isStride ==> r.mlfqPass <= Pass(r, d) + Slice(r) * r.mlfqStride
      {
        var d0 := if d == Task(p) then e else d;
        assert Active(s, d0) && Pass(r, d) == Pass(s, d0);
        assert Pass(r, Mlfq) == Pass(s, Mlfq);
      }
    }
  }

  lemma WakeOneGaps(s: State, p: nat)
    requires Inv(s) && Gaps(s) && p < NPROC && s.procs[p].state.Sleeping?
    ensures Gaps(WakeOne(s, p))
  {
    var r := WakeOne(s, p);
    hide Queues; hide MinUpto; hide Tickets; hide Slice;
    assert s.cpu != On(p);
    assert SameOthers(s, r, p);
    if s.procs[p].isStride {
      var e := MinClient(s);
      assert Slice(r) == Slice(s) by { SliceFrame(s, r); }
      JoinGaps(s, r, p, e);
    } else {
      assert Slice(r) == Slice(s) by { SliceFrame(s, r); }
      SubsetGaps(s, r);
    }
  }

  lemma SliceFrame(s: State, r: State)
    requires Shape(s) && Shape(r) && s.cpu == r.cpu && (s.cpu.On? ==> r.procs[s.cpu.p] == s.procs[s.cpu.p])
    ensures Slice(r) == Slice(s)
  {
  }

  /** No client joins and no pass moves. */
  lemma SubsetGaps(s: State, r: State)
    requires Shape(s) && Shape(r) && Gaps(s)
    requires forall d :: Active(r, d) ==> Active(s, d) && Pass(r, d) == Pass(s, d) && Span(r, d) == Span(s, d)
    requires r.cpu.On? ==> r.cpu == s.cpu && r.mlfqStride == s.mlfqStride && Slice(r) == Slice(s)
    requires r.cpu.On? ==>
      r.procs[r.cpu.p].isStride == s.procs[r.cpu.p].isStride && r.procs[r.cpu.p].pass == s.procs[r.cpu.p].pass
    ensures Gaps(r)
  {
    hide Slice; hide Span;
    assert Active(r, Mlfq) && r.mlfqPass == Pass(r, Mlfq) && s.mlfqPass == Pass(s, Mlfq);
  }

  lemma {:induction false} WakeUptoGaps(s: State, chan: nat, k: nat)
    requires Inv(s) && Gaps(s) && k <= NPROC
    ensures Gaps(WakeUpto(s, chan, k))
  {
    hide Inv; hide Gaps; hide WakeOne;
    InvShape(s);
    if k > 0 {
      WakeUptoGaps(s, chan, k - 1);
      WakeUptoKeepsInv(s, chan, k - 1);
      var t := WakeUpto(s, chan, k - 1);
      if t.procs[k - 1].state.Sleeping? && t.procs[k - 1].chan == chan { WakeOneGaps(t, k - 1); }
    }
  }

  lemma {:induction false} WakeEachGaps(s: State, chans: seq<nat>)
    requires Inv(s) && Gaps(s)
    ensures Gaps(WakeEach(s, chans))
  {
    hide Inv; hide Gaps; hide WakeUpto;
    InvShape(s);
    if chans != [] {
      var init := chans[..|chans| - 1];
      WakeEachGaps(s, init);
      WakeEachKeepsInv(s, init);
      WakeUptoGaps(WakeEach(s, init), chans[|chans| - 1], NPROC);
    }
  }

  /** The running stride process, which had the least pass, is charged one tick. */
  lemma ChargeTask(s: State, r: State, p: nat)
    requires Shape(s) && Shape(r) && Gaps(s) && s.cpu == On(p) && s.procs[p].isStride && Active(s, Task(p))
    requires SameOthers(s, r, p) && r.cpu.Idle? && Active(r, Task(p))
    requires r.procs[p].pass == s.procs[p].pass + s.procs[p].stride && r.procs[p].stride == s.procs[p].stride
    ensures Gaps(r)
  {
    forall c, d | Active(r, c) && Active(r, d) ensures Pass(r, c) <= Pass(r, d) + Span(r, c) {
      assert Pass(s, c) <= Pass(s, d) + Span(s, c);
      assert s.procs[p].pass <= Pass(s, d);
    }
  }

  /** The MLFQ is charged one tick, having been charged at most `j` since it had the least pass. */
  lemma ChargeMlfq(s: State, r: State, j: nat)
    requires Shape(s) && Shape(r) && Gaps(s) && r.mlfqPass == s.mlfqPass + s.mlfqStride
    requires forall d :: Active(s, d) ==> s.mlfqPass <= Pass(s, d) + j * s.mlfqStride
    requires forall d: Client :: d.Task? ==>
      Active(r, d) == Active(s, d) && (Active(s, d) ==> Pass(r, d) == Pass(s, d) && Span(r, d) == Span(s, d))
    requires (j + 1) * s.mlfqStride <= MLFQSPAN
    requires r.cpu.On? ==> r.mlfqStride == s.mlfqStride && !r.procs[r.cpu.p].isStride && Slice(r) == j + 1
    ensures Gaps(r)
  {
    hide Slice;
    assert (j + 1) * s.mlfqStride == j * s.mlfqStride + s.mlfqStride;
    assert Active(s, Mlfq) && Pass(s, Mlfq) == s.mlfqPass;
    forall c, d | Active(r, c) && Active(r, d) ensures Pass(r, c) <= Pass(r, d) + Span(r, c) {
      assert Active(s, c) && Active(s, d) && Pass(s, c) <= Pass(s, d) + Span(s, c);
    }
    if r.cpu.On? {
      forall d | Active(r, d) ensures r.mlfqPass <= Pass(r, d) + Slice(r) * r.mlfqStride {
        assert Active(s, d) && s.mlfqPass <= Pass(s, d) + j * s.mlfqStride;
        assert Slice(r) * r.mlfqStride == (j + 1) * s.mlfqStride || d == Mlfq;
      }
    }
  }

  lemma SmallSlice(s: State)
    requires Inv(s)
    ensures Slice(s) <= 3 && (Slice(s) + 1) * s.mlfqStride <= MLFQSPAN
  {
    StrideBounds(s);
    hide Queues; hide Tickets;
    var j := Slice(s) + 1;
    assert j <= 4;
    assert j * s.mlfqStride <= 4 * s.mlfqStride;
  }

  lemma TickTaskGaps(s: State)
    requires Inv(s) && Gaps(s) && s.cpu.On? && s.procs[s.cpu.p].isStride
    ensures Gaps(Tick(s))
  {
    var p, r := s.cpu.p, Tick(s);
    CountTickKeepsInv(s);
    CountTickSet(s, p, s.procs[p].(tick := s.procs[p].tick + 1));
    hide CountTick; hide Queues; hide Tickets; hide Gaps;
    ChargeTask(s, r, p);
  }

  lemma TickMlfqGaps(s: State)
    requires Inv(s) && Gaps(s) && s.cpu.On? && !s.procs[s.cpu.p].isStride
    ensures Gaps(Tick(s))
  {
    var p, r := s.cpu.p, Tick(s);
    CountTickKeepsInv(s);
    CountTickSet(s, p, s.procs[p].(tick := s.procs[p].tick + 1));
    SmallSlice(s);
    RunningMlfq(s);
    hide CountTick; hide Queues; hide Tickets; hide Gaps; hide Inv;
    assert r.cpu.On? ==> Slice(r) == Slice(s) + 1 by { SliceGrows(s.procs[p].tick, s.procs[p].lev); }
    hide Slice;
    ChargeMlfq(s, r, Slice(s));
  }

  lemma SliceGrows(tick: nat, lev: int)
    ensures (tick + 1) % Quantum(lev) != 0 ==> (tick + 1) % Quantum(lev) == tick % Quantum(lev) + 1
  {
  }

  lemma RunningMlfq(s: State)
    requires Shape(s) && Gaps(s) && s.cpu.On? && !s.procs[s.cpu.p].isStride
    ensures forall d :: Active(s, d) ==> s.mlfqPass <= Pass(s, d) + Slice(s) * s.mlfqStride
  {
    hide Slice;
  }

  lemma YieldGaps(s: State)
    requires Inv(s) && Gaps(s) && s.cpu.On?
    ensures Gaps(Yield(s))
  {
    var p, r := s.cpu.p, Yield(s);
    CountTickKeepsInv(s);
    CountTickSet(s, p, s.procs[p].(state := Runnable));
    SmallSlice(s);
    hide CountTick; hide Queues; hide Tickets; hide Gaps;
    if s.procs[p].isStride {
      ChargeTask(s, r, p);
    } else {
      RunningMlfq(s);
      ChargeMlfq(s, r, Slice(s));
    }
  }

  lemma ShareGaps(s: State, ticket: nat)
    requires Inv(s) && Gaps(s) && s.cpu.On? && 0 < ticket && ticket + s.total <= MAXSTRIDETICKET
    ensures Gaps(SetShare(s, ticket))
  {
    var p, r := s.cpu.p, SetShare(s, ticket);
    var e := MinClient(s);
    var t := SetProc(s, p, s.procs[p].(lev := -1, tick := 0, isStride := true, ticket := ticket,
                                       stride := StrideOf(ticket)));
    MinUptoFrame(s, t, p, NPROC);
    hide Queues; hide Tickets; hide MinUpto; hide StrideOf; hide Gaps; hide Span;
    assert SameOthers(s, r, p) by { SameOthersShare(s, r, p); }
    ShareJoin(s, r, p, e);
  }

  lemma SameOthersShare(s: State, r: State, p: nat)
    requires Shape(s) && Shape(r) && p < NPROC && r.procs == s.procs[p := r.procs[p]] && r.mlfqPass == s.mlfqPass
    ensures SameOthers(s, r, p)
  {
  }

  /** The running process becomes, or stays, a stride process with the least pass of the others. */
  lemma ShareJoin(s: State, r: State, p: nat, e: Client)
    requires Shape(s) && Shape(r) && Gaps(s) && s.cpu == r.cpu == On(p) && SameOthers(s, r, p)
    requires Active(r, Task(p)) && Active(s, e) && e != Task(p) && r.procs[p].pass == Pass(s, e)
    requires forall d :: Active(s, d) && d != Task(p) ==> Pass(s, e) <= Pass(s, d)
    ensures Gaps(r)
  {
    forall c, d | Active(r, c) && Active(r, d) ensures Pass(r, c) <= Pass(r, d) + Span(r, c) {
      if c != Task(p) {
        assert Pass(s, c) <= Pass(s, if d == Task(p) then e else d) + Span(s, c);
      }
    }
    forall d | Active(r, d) ensures r.procs[p].pass <= Pass(r, d) {}
  }

  lemma {:induction false} MinUptoFrame(s: State, r: State, p: nat, k: nat)
    requires k <= |s.procs| && p < |s.procs| && |r.procs| == |s.procs| && r.procs == s.procs[p := r.procs[p]]
    requires r.mlfqPass == s.mlfqPass
    requires !WaitingStride(s.procs[p]) && !WaitingStride(r.procs[p])
    ensures MinUpto(r, k) == MinUpto(s, k)
  {
    if k > 0 { MinUptoFrame(s, r, p, k - 1); }
  }

  lemma ExitGaps(s: State, chans: seq<nat>)
    requires Inv(s) && Gaps(s) && s.cpu.On?
    ensures Gaps(Exit(s, chans))
  {
    WakeEachGaps(s, chans);
    WakeEachKeepsInv(s, chans);
    hide Queues; hide Tickets; hide Gaps; hide WakeEach; hide StrideOf;
    SubsetGaps(WakeEach(s, chans), Exit(s, chans));
  }

  /** What Run does to the clients, when `p` is the choice of get_min_pass. */
  lemma RunGaps(s: State, t: State, p: nat)
    requires Inv(s) && Gaps(s) && s.cpu.Idle? && p < NPROC && s.procs[p].state.Runnable? && Shape(t)
    requires t == s.(q := t.q)
    requires if s.procs[p].isStride then s.procs[p].pass == MinPass(s) else s.mlfqPass == MinPass(s)
    ensures Gaps(Run(t, p))
  {
    StrideBounds(s);
    var e := MinClient(s);
    hide Queues; hide Tickets; hide MinUpto; hide Slice;
    var r := Run(t, p);
    forall d | Active(r, d) ensures Active(s, d) && Span(r, d) == Span(s, d)
      ensures Pass(r, d) == if Resets(t) then 0 else Pass(s, d)
    {
    }
    if Resets(t) {
      assert Active(r, Mlfq) && Pass(r, Mlfq) == 0;
      if s.procs[p].isStride { assert Active(r, Task(p)) && Pass(r, Task(p)) == 0; }
    } else {
      forall d | Active(r, d) ensures MinPass(s) <= Pass(r, d) {}
    }
  }

  lemma DispatchGaps(s: State)
    requires Inv(s) && Gaps(s) && s.cpu.Idle?
    ensures Gaps(Dispatch(s))
  {
    DispatchKeepsInv(s);
    var e := MinClient(s);
    SmallSlice(s);
    hide Tickets; hide Gaps; hide MinUpto; hide Run; hide OneRunning;
    if MinPass(s) == s.mlfqPass {
      var lev := FirstQueue(s);
      if lev < 3 {
        var p := s.q[lev][0];
        assert QueueInv(s.procs, s.q[lev], lev);
        assert p in s.q[lev];
        hide Queues; hide QueueInv;
        RunGaps(s, s.(q := s.q[lev := s.q[lev][1..]]), p);
      } else {
        hide Queues; hide QueueInv;
        ChargeMlfq(s, Dispatch(s), 0);
      }
    } else {
      hide Queues; hide QueueInv;
      RunGaps(s, s, FindStride(s, MinPass(s), 0));
    }
  }

  lemma StepGaps(s: State, step: Step)
    requires Inv(s) && Gaps(s) && Enabled(s, step)
    ensures Gaps(Do(s, step))
  {
    hide Queues; hide Tickets; hide Gaps; hide MinPass; hide WakeUpto; hide WakeEach; hide CountTick; hide Dispatch;
    hide Tick; hide Yield; hide Exit; hide SetShare;
    var r := Do(s, step);
    match step
    case DispatchStep => DispatchGaps(s);
    case TickStep => if s.procs[s.cpu.p].isStride { TickTaskGaps(s); } else { TickMlfqGaps(s); }
    case YieldStep => YieldGaps(s);
    case WakeupStep(chan) => WakeUptoGaps(s, chan, NPROC);
    case KillStep(pid) =>
      var p := FindPid(s, pid, 0);
      if p < NPROC && s.procs[p].state.Sleeping? { WakeOneGaps(s, p); }
    case ExitStep(chans) => ExitGaps(s, chans);
    case ShareStep(ticket) =>
      if ticket + s.total <= MAXSTRIDETICKET { ShareGaps(s, ticket); } else { ShareRefused(s, ticket); }
    case SleepStep(_) => SubsetGaps(s, r);
    case AllocStep(p, _) => SubsetGaps(s, r);
    case ForkFailStep(p) => SubsetGaps(s, r);
    case ForkDoneStep(p) => SubsetGaps(s, r);
    case ReapStep(p) => SubsetGaps(s, r);
  }

  lemma ShareRefused(s: State, ticket: nat)
    requires Shape(s) && s.cpu.On? && 0 < ticket && ticket + s.total > MAXSTRIDETICKET
    ensures SetShare(s, ticket) == s
  {
  }

  /** In every reachable state, every active pass is within the client's span of every other. */
  lemma {:induction false} RunPassGaps(run: seq<State>, steps: seq<Step>, i: nat)
    requires IsRun(run, steps) && i < |run|
    ensures Inv(run[i]) && Gaps(run[i])
  {
    hide Inv; hide Gaps; hide Do; hide Enabled;
    RunInv(run, steps, i);
    if i == 0 {
      InitGaps(run[0]);
    } else {
      RunPassGaps(run, steps, i - 1);
      StepGaps(run[i - 1], steps[i - 1]);
    }
  }

  lemma InitGaps(s: State)
    requires Init(s)
    ensures Shape(s) && Gaps(s)
  {
    forall d | Active(s, d) ensures d == Mlfq {}
  }

  // ---------- proportional share ----------

  /** Ticks charged to a client by one step. */
  function Charge(s: State, step: Step, c: Client): (n: nat)
    requires Enabled(s, step)
  {
    match step
    case TickStep => if c == (if s.procs[s.cpu.p].isStride then Task(s.cpu.p) else Mlfq) then 1 else 0
    case YieldStep => if c == (if s.procs[s.cpu.p].isStride then Task(s.cpu.p) else Mlfq) then 1 else 0
    case DispatchStep => if c == Mlfq && MinPass(s) == s.mlfqPass && FirstQueue(s) == 3 then 1 else 0
    case _ => 0
  }

  /** The step restarts the client's pass: all passes are reset, or it asks for a share. */
  predicate Restarts(s: State, step: Step, c: Client)
    requires Enabled(s, step)
  {
    match step
    case DispatchStep => (MinPass(s) != s.mlfqPass || FirstQueue(s) < 3) && Resets(s)
    case ShareStep(_) => c == Task(s.cpu.p)
    case _ => false
  }

  /** The client is active before and after the step, with the same stride and no restart. */
  predicate Steady(s: State, step: Step, c: Client) {
    && Enabled(s, step) && Active(s, c) && Active(Do(s, step), c)
    && StrideOfClient(Do(s, step), c) == StrideOfClient(s, c) && !Restarts(s, step, c)
  }

  lemma {:induction false} WakeUptoPass(s: State, chan: nat, k: nat, c: Client)
    requires Inv(s) && k <= NPROC && Active(s, c)
    ensures Active(WakeUpto(s, chan, k), c) && Pass(WakeUpto(s, chan, k), c) == Pass(s, c)
  {
    WakeUptoKeepsInv(s, chan, k);
    WakeUptoMlfq(s, chan, k);
    hide WakeUpto; hide Queues; hide Tickets;
  }

  lemma {:induction false} WakeUptoMlfq(s: State, chan: nat, k: nat)
    requires Shape(s) && k <= NPROC
    ensures WakeUpto(s, chan, k).mlfqPass == s.mlfqPass
  {
    if k > 0 { WakeUptoMlfq(s, chan, k - 1); hide MinPass; }
  }

  lemma {:induction false} WakeEachPass(s: State, chans: seq<nat>, c: Client)
    requires Inv(s) && Active(s, c)
    ensures Active(WakeEach(s, chans), c) && Pass(WakeEach(s, chans), c) == Pass(s, c)
  {
    hide WakeUpto; hide Inv; hide Active; hide Pass;
    if chans != [] {
      InvShape(s);
      WakeEachPass(s, chans[..|chans| - 1], c);
      WakeEachKeepsInv(s, chans[..|chans| - 1]);
      WakeUptoPass(WakeEach(s, chans[..|chans| - 1]), chans[|chans| - 1], NPROC, c);
    }
  }

  /** What step `step` adds to the pass of `c`. */
  function Due(s: State, step: Step, c: Client): (n: nat)
    requires Enabled(s, step) && Active(s, c)
  {
    if Charge(s, step, c) == 1 then StrideOfClient(s, c) else 0
  }

  lemma DueIsCharge(s: State, step: Step, c: Client)
    requires Enabled(s, step) && Active(s, c)
    ensures Due(s, step, c) == Charge(s, step, c) * StrideOfClient(s, c)
  {
    assert Charge(s, step, c) == 0 || Charge(s, step, c) == 1;
    hide Charge; hide StrideOfClient;
  }

  /** The passes, strides and runnable clients of `s` and `t` are the same. */
  ghost predicate SamePasses(s: State, t: State)
    requires Shape(s) && Shape(t)
  {
    && t.cpu == s.cpu && t.mlfqPass == s.mlfqPass && t.mlfqStride == s.mlfqStride
    && forall j :: 0 <= j < NPROC ==>
         && t.procs[j].isStride == s.procs[j].isStride
         && t.procs[j].pass == s.procs[j].pass && t.procs[j].stride == s.procs[j].stride
         && ((t.procs[j].state.Runnable? || t.procs[j].state.Running?) <==>
               (s.procs[j].state.Runnable? || s.procs[j].state.Running?))
  }

  /** Counting a tick moves no pass, boost or not. */
  lemma CountTickPasses(s: State, x: Proc)
    requires Inv(s) && s.cpu.On? && (x.state.Runnable? || x.state.Running?)
    requires var y := s.procs[s.cpu.p]; x.isStride == y.isStride && x.stride == y.stride && x.pass == y.pass
    ensures Shape(CountTick(SetProc(s, s.cpu.p, x))) && SamePasses(s, CountTick(SetProc(s, s.cpu.p, x)))
  {
    CountTickKeepsInv(s);
    CountTickSet(s, s.cpu.p, x);
    hide CountTick; hide Queues; hide Tickets;
  }

  lemma TickPass(s: State, c: Client)
    requires Inv(s) && s.cpu.On? && Active(s, c)
    ensures Active(Tick(s), c) && Pass(Tick(s), c) == Pass(s, c) + Due(s, TickStep, c)
  {
    var p := s.cpu.p;
    assert s.procs[p].state.Running?;
    CountTickPasses(s, s.procs[p].(tick := s.procs[p].tick + 1));
    hide CountTick, Inv, Do, Queues, Tickets, OneRunning, Enqueue, MinUpto;
  }

  lemma YieldPass(s: State, c: Client)
    requires Inv(s) && s.cpu.On? && Active(s, c)
    ensures Active(Yield(s), c) && Pass(Yield(s), c) == Pass(s, c) + Due(s, YieldStep, c)
  {
    var p := s.cpu.p;
    CountTickPasses(s, s.procs[p].(state := Runnable));
    hide CountTick; hide Inv; hide Do;
  }

  lemma DispatchPass(s: State, c: Client)
    requires Inv(s) && s.cpu.Idle? && Active(s, c) && !Restarts(s, DispatchStep, c)
    ensures Active(Dispatch(s), c) && Pass(Dispatch(s), c) == Pass(s, c) + Due(s, DispatchStep, c)
  {
    DispatchKeepsInv(s);
    hide Inv; hide MinUpto; hide FindStride; hide Run; hide Do; hide Active; hide StrideOfClient;
    if MinPass(s) == s.mlfqPass {
      var lev := FirstQueue(s);
      if lev < 3 && s.q[lev][0] < NPROC {
        var t := s.(q := s.q[lev := s.q[lev][1..]]);
        MinUptoQueues(s, t.q, NPROC);
        RunPass(t, s.q[lev][0], c);
      }
    } else {
      RunPass(s, FindStride(s, MinPass(s), 0), c);
    }
  }

  /** Without a restart, running a process moves no pass. */
  lemma RunPass(s: State, p: nat, c: Client)
    requires Shape(s) && p < NPROC && !Resets(s) && Active(s, c)
    ensures Active(Run(s, p), c) && Pass(Run(s, p), c) == Pass(s, c)
  {
    hide Resets;
  }

  /** Over a steady step a client's pass moves by exactly what it is charged. */
  lemma PassMoves(s: State, step: Step, c: Client)
    requires Inv(s) && Steady(s, step, c)
    ensures Pass(Do(s, step), c) == Pass(s, c) + Charge(s, step, c) * StrideOfClient(s, c)
  {
    hide Queues; hide Tickets; hide MinPass; hide WakeUpto; hide WakeEach; hide Dispatch; hide Tick; hide Yield;
    DueIsCharge(s, step, c);
    match step
    case DispatchStep => DispatchPass(s, c);
    case TickStep => TickPass(s, c);
    case YieldStep => YieldPass(s, c);
    case WakeupStep(chan) => WakeUptoPass(s, chan, NPROC, c);
    case ExitStep(chans) => WakeEachPass(s, chans, c);
    case _ =>
  }

  /** Ticks charged to a client from state `a` to state `b` of a run. */
  function Ticks(run: seq<State>, steps: seq<Step>, a: nat, b: nat, c: Client): (n: nat)
    requires IsRun(run, steps) && a <= b < |run|
  {
    if a == b then 0 else Ticks(run, steps, a, b - 1, c) + Charge(run[b - 1], steps[b - 1], c)
  }

  lemma {:induction false} PassIsTicks(run: seq<State>, steps: seq<Step>, a: nat, b: nat, c: Client)
    requires IsRun(run, steps) && a <= b < |run| && Active(run[a], c)
    requires forall k :: a <= k < b ==> Steady(run[k], steps[k], c)
    ensures Active(run[b], c) && StrideOfClient(run[b], c) == StrideOfClient(run[a], c)
    ensures Pass(run[b], c) == Pass(run[a], c) + Ticks(run, steps, a, b, c) * StrideOfClient(run[a], c)
    decreases b
  {
    hide Do; hide Charge; hide Enabled; hide Restarts; hide Inv; hide Pass; hide StrideOfClient;
    if a < b {
      PassIsTicks(run, steps, a, b - 1, c);
      RunInv(run, steps, b - 1);
      PassMoves(run[b - 1], steps[b - 1], c);
      OneMore(Ticks(run, steps, a, b - 1, c), Charge(run[b - 1], steps[b - 1], c), StrideOfClient(run[a], c));
    }
  }

  lemma OneMore(n: nat, m: nat, k: nat)
    ensures (n + m) * k == n * k + m * k
  {
  }

  /** Proportional share: over any stretch of a run in which two clients stay active with fixed
      shares and no reset, the ticks they are charged, weighted by their strides, differ by at most
      the sum of their spans, however long the stretch. */
  lemma ProportionalShare(run: seq<State>, steps: seq<Step>, a: nat, b: nat, c: Client, d: Client)
    requires IsRun(run, steps) && a <= b < |run| && Active(run[a], c) && Active(run[a], d)
    requires forall k :: a <= k < b ==> Steady(run[k], steps[k], c) && Steady(run[k], steps[k], d)
    ensures var n := Ticks(run, steps, a, b, c) * StrideOfClient(run[a], c);
            var m := Ticks(run, steps, a, b, d) * StrideOfClient(run[a], d);
            -(Span(run[a], c) + Span(run[a], d)) <= n - m <= Span(run[a], c) + Span(run[a], d)
    ensures Span(run[a], c) <= 10000 && Span(run[a], d) <= 10000
  {
    hide Ticks; hide Steady; hide Inv; hide IsRun;
    PassIsTicks(run, steps, a, b, c);
    PassIsTicks(run, steps, a, b, d);
    RunPassGaps(run, steps, a);
    RunPassGaps(run, steps, b);
    StrideBounds(run[a]);
    SpanBound(run[a], c);
    SpanBound(run[a], d);
    assert Pass(run[a], c) <= Pass(run[a], d) + Span(run[a], c);
    assert Pass(run[b], c) <= Pass(run[b], d) + Span(run[b], c);
    assert Pass(run[a], d) <= Pass(run[a], c) + Span(run[a], d);
    assert Pass(run[b], d) <= Pass(run[b], c) + Span(run[b], d);
  }

  lemma SpanBound(s: State, c: Client)
    requires Inv(s) && Active(s, c)
    ensures Span(s, c) <= 10000
  {
    StrideBounds(s);
  }

  // ---------- shares in tickets ----------

  /** The tickets of a client: those it asked for, or those the MLFQ has left. */
  function TicketsOf(s: State, c: Client): (n: int)
    requires Active(s, c)
  {
    if c.Mlfq? then s.mlfqTicket else s.procs[c.p].ticket
  }

  lemma ClientShare(s: State, c: Client)
    requires Inv(s) && Active(s, c)
    ensures Share(StrideOfClient(s, c), TicketsOf(s, c))
  {
    InvShares(s);
    hide Inv, Share;
  }

  /** A bound on weighted ticks, turned from strides to tickets. Rounding a stride down loses less than 1 a tick. */
  lemma Weigh(n: nat, m: nat, x: nat, y: nat, t: nat, u: nat, k: nat, gap: nat)
    requires n * x - m * y <= gap && Share(x, t) && Share(y, u) && k == t * u
    ensures 10000 * (n * u - m * t) <= (gap + n) * k
    ensures x * t == 10000 ==> 10000 * (n * u - m * t) <= gap * k
  {
    MulMono(10000, (x + 1) * t, n * u);
    MulMono(y * u, 10000, m * t);
    Scale(n * x - m * y, gap, t * u);
    hide Share;
    assert ((x + 1) * t) * (n * u) == (n * x) * (t * u) + n * (t * u) by { Spread(x, t, n, u); }
    assert (x * t) * (n * u) == (n * x) * (t * u) by { Regroup(x, t, n, u); }
    assert (y * u) * (m * t) == (m * y) * (t * u) by { Regroup(y, u, m, t); }
    assert (n * x - m * y) * (t * u) == (n * x) * (t * u) - (m * y) * (t * u);
  }

  lemma Scale(a: int, b: int, k: nat)
    requires a <= b
    ensures a * k <= b * k
  {
  }

  lemma Regroup(x: nat, t: nat, n: nat, u: nat)
    ensures (x * t) * (n * u) == (n * x) * (t * u) == (n * x) * (u * t)
  {
    assert (x * t) * (n * u) == x * (t * (n * u));
    assert t * (n * u) == n * (t * u);
    assert x * (n * (t * u)) == (x * n) * (t * u);
  }

  lemma Spread(x: nat, t: nat, n: nat, u: nat)
    ensures ((x + 1) * t) * (n * u) == (n * x) * (t * u) + n * (t * u)
  {
    Regroup(x + 1, t, n, u);
    assert n * (x + 1) == n * x + n;
  }

  /** Proportional share in tickets: over any stretch in which two clients stay active with fixed shares and no reset,
      the ticks they are charged are as their tickets, however long the stretch: divided by these, they differ by at
      most the sum of the two spans and one tick's rounding for each tick charged, in units of 10000. Where tickets
      divide 10000 there is no rounding. */
  lemma TicketShare(run: seq<State>, steps: seq<Step>, a: nat, b: nat, c: Client, d: Client)
    requires IsRun(run, steps) && a <= b < |run| && Active(run[a], c) && Active(run[a], d)
    requires forall k :: a <= k < b ==> Steady(run[k], steps[k], c) && Steady(run[k], steps[k], d)
    ensures var n, m := Ticks(run, steps, a, b, c), Ticks(run, steps, a, b, d);
      var t, u := TicketsOf(run[a], c), TicketsOf(run[a], d);
      && 0 < t <= 100 && 0 < u <= 100
      && 10000 * (n * u - m * t) <= (20000 + n) * (t * u) && 10000 * (m * t - n * u) <= (20000 + m) * (t * u)
      && (10000 % t == 0 && 10000 % u == 0 ==> -20000 * (t * u) <= 10000 * (n * u - m * t) <= 20000 * (t * u))
  {
    hide Steady, Inv, IsRun, Ticks, TicketsOf, StrideOfClient, Span, Active, Share;
    RunInv(run, steps, a);
    ClientShare(run[a], c);
    ClientShare(run[a], d);
    TicketRange(run[a], c);
    TicketRange(run[a], d);
    ProportionalShare(run, steps, a, b, c, d);
    WeighBoth(Ticks(run, steps, a, b, c), Ticks(run, steps, a, b, d), StrideOfClient(run[a], c),
              StrideOfClient(run[a], d), TicketsOf(run[a], c), TicketsOf(run[a], d));
  }

  lemma WeighBoth(n: nat, m: nat, x: nat, y: nat, t: nat, u: nat)
    requires -20000 <= n * x - m * y <= 20000 && Share(x, t) && Share(y, u)
    ensures 10000 * (n * u - m * t) <= (20000 + n) * (t * u) && 10000 * (m * t - n * u) <= (20000 + m) * (t * u)
    ensures t > 0 && u > 0
    ensures 10000 % t == 0 && 10000 % u == 0 ==> -20000 * (t * u) <= 10000 * (n * u - m * t) <= 20000 * (t * u)
  {
    hide Share;
    Positive(x, t);
    Positive(y, u);
    Divides(x, t);
    Divides(y, u);
    Swap(t, u);
    Weigh(n, m, x, y, t, u, t * u, 20000);
    Weigh(m, n, y, x, u, t, t * u, 20000);
  }

  lemma Positive(x: nat, t: int)
    requires Share(x, t)
    ensures t > 0
  {
  }

  lemma Swap(a: nat, b: nat)
    ensures a * b == b * a
  {
  }

  lemma TicketRange(s: State, c: Client)
    requires Inv(s) && Active(s, c)
    ensures 0 < TicketsOf(s, c) <= 100
  {
    hide Queues;
    if c.Task? { assert ProcOk(s.procs[c.p]); }
  }

  lemma Divides(x: nat, t: nat)
    requires Share(x, t)
    ensures 10000 % t == 0 ==> x * t == 10000
  {
    var q := 10000 / t;
    Below(10000, t);
    assert q * t + 10000 % t == 10000;
    if x < q { MulMono(x + 1, q, t); }
    if q < x { MulMono(q + 1, x, t); }
  }
}
