/** proc.c and trap.c in place: the process table and the circular queues as arrays, each kernel
    routine proved to perform the step of the state machine. */
module SchedKernel {
  import opened Sched
  import opened SchedSafety
  import opened SchedEffects
  import opened SchedLaws

  /** The entries of a circular buffer, from the slot after `f` to slot `r`. */
  function RingSeq(row: seq<nat>, f: nat, r: nat): (q: seq<nat>)
    requires |row| == NPROC && f < NPROC && r < NPROC
    ensures |q| == if r >= f then r - f else r + NPROC - f
  {
    if r >= f then row[f + 1..r + 1] else row[f + 1..] + row[..r + 1]
  }

  lemma RingPush(row: seq<nat>, f: nat, r: nat, p: nat)
    requires |row| == NPROC && f < NPROC && r < NPROC && f != (r + 1) % NPROC
    ensures RingSeq(row[(r + 1) % NPROC := p], f, (r + 1) % NPROC) == RingSeq(row, f, r) + [p]
  {
  }

  lemma RingPop(row: seq<nat>, f: nat, r: nat)
    requires |row| == NPROC && f < NPROC && r < NPROC && f != r
    ensures RingSeq(row, f, r)[0] == row[(f + 1) % NPROC]
    ensures RingSeq(row, (f + 1) % NPROC, r) == RingSeq(row, f, r)[1..]
  {
    if f + 1 < NPROC { PopWithin(row, f, r); } else { PopWrap(row, r); }
  }

  lemma PopWithin(row: seq<nat>, f: nat, r: nat)
    requires |row| == NPROC && f + 1 < NPROC && r < NPROC && f != r
    ensures RingSeq(row, f, r)[0] == row[f + 1] && RingSeq(row, f + 1, r) == RingSeq(row, f, r)[1..]
  {
    if r > f {
      Tail(row, f + 1, r + 1);
    } else {
      Tail(row, f + 1, NPROC);
      assert row[f + 1..] == row[f + 1..NPROC] && row[f + 2..] == row[f + 2..NPROC];
      TailJoin(row[f + 1..], row[..r + 1]);
    }
  }

  /** The front is at the last slot, so that the head is in the first. */
  lemma PopWrap(row: seq<nat>, r: nat)
    requires |row| == NPROC && r + 1 < NPROC
    ensures RingSeq(row, NPROC - 1, r)[0] == row[0] && RingSeq(row, 0, r) == RingSeq(row, NPROC - 1, r)[1..]
  {
    assert row[NPROC..] == [];
    assert RingSeq(row, NPROC - 1, r) == row[0..r + 1];
    Tail(row, 0, r + 1);
  }

  lemma Tail(row: seq<nat>, a: nat, b: nat)
    requires a < b <= |row|
    ensures row[a..b][0] == row[a] && row[a..b][1..] == row[a + 1..b]
  {
  }

  lemma TailJoin(a: seq<nat>, b: seq<nat>)
    requires a != []
    ensures (a + b)[0] == a[0] && (a + b)[1..] == a[1..] + b
  {
  }

  /** The first `n` entries of queue `l` moved to the end of queue 0. */
  function Drained(s: State, l: nat, n: nat): (r: State)
    requires Shape(s) && 1 <= l < 3 && n <= |s.q[l]|
  {
    s.(q := s.q[0 := s.q[0] + s.q[l][..n]][l := s.q[l][n..]])
  }

  lemma DrainedNone(s: State, l: nat)
    requires Shape(s) && 1 <= l < 3
    ensures Drained(s, l, 0) == s
  {
    assert s.q[0] + s.q[l][..0] == s.q[0];
  }

  lemma DrainedMore(s: State, l: nat, n: nat)
    requires Shape(s) && 1 <= l < 3 && n < |s.q[l]|
    ensures var t := Drained(s, l, n);
            t.q[l] != [] && Enqueue(t.(q := t.q[l := t.q[l][1..]]), 0, t.q[l][0]) == Drained(s, l, n + 1)
  {
    var t := Drained(s, l, n);
    var e := Enqueue(t.(q := t.q[l := t.q[l][1..]]), 0, t.q[l][0]);
    assert e.q[0] == s.q[0] + s.q[l][..n + 1];
    assert e.q[l] == s.q[l][n + 1..];
    assert e.q == Drained(s, l, n + 1).q;
  }

  lemma BoostDrains(s: State)
    requires Shape(s)
    ensures Drained(Drained(s.(procs := Boost(s.(boost := 0)).procs, boost := 0), 1, |s.q[1]|), 2, |s.q[2]|) == Boost(s)
  {
    var t := s.(procs := Boost(s).procs, boost := 0);
    assert Boost(s.(boost := 0)).procs == Boost(s).procs;
    var u := Drained(t, 1, |s.q[1]|);
    assert u.q[0] == s.q[0] + s.q[1];
    var v := Drained(u, 2, |s.q[2]|);
    assert v.q[0] == s.q[0] + s.q[1] + s.q[2];
    assert v.q[1] == [] && v.q[2] == [];
    assert v.q == Boost(s).q;
  }

  lemma {:induction false} WakeGrows(s: State, chan: nat, j: nat, k: nat)
    requires Shape(s) && j <= k <= NPROC && Fits(WakeUpto(s, chan, k))
    ensures Fits(WakeUpto(s, chan, j))
    decreases k
  {
    if j < k {
      WakeStep(s, chan, k);
      hide WakeUpto;
      WakeGrows(s, chan, j, k - 1);
    }
  }

  lemma WakeOverflows(s: State, chan: nat, j: nat)
    requires Shape(s) && j <= NPROC && !Fits(WakeUpto(s, chan, j))
    ensures !Fits(Wakeup(s, chan))
  {
    if Fits(WakeUpto(s, chan, NPROC)) { WakeGrows(s, chan, j, NPROC); }
  }

  /** A timer tick up to the boost. */
  function Counted(s: State): (r: State)
    requires Shape(s) && s.cpu.On?
    ensures Shape(r)
  {
    CountTick(SetProc(s, s.cpu.p, s.procs[s.cpu.p].(tick := s.procs[s.cpu.p].tick + 1)))
  }

  class Kernel {
    const ptable: array<Proc>
    const ring: array<nat>           // queue[3][NPROC], row after row
    const front: array<nat>
    const rear: array<nat>
    var cpu: Cpu
    var boost: nat
    var total: int
    var mlfqPass: nat
    var mlfqStride: nat
    var mlfqTicket: int

    ghost predicate Rings()
      reads front, rear
    {
      && ptable.Length == NPROC && ring.Length == 3 * NPROC
      && front.Length == 3 && rear.Length == 3 && front != rear && ring != front && ring != rear
      && (forall l :: 0 <= l < 3 ==> front[l] < NPROC && rear[l] < NPROC)
    }

    ghost predicate Valid()
      reads this`cpu, front, rear
    {
      Rings() && (cpu.On? ==> cpu.p < NPROC)
    }

    ghost function Row(l: nat): (row: seq<nat>)
      reads ring
      requires ring.Length == 3 * NPROC && l < 3
      ensures |row| == NPROC
    {
      ring[NPROC * l..NPROC * (l + 1)]
    }

    ghost function Q(l: nat): (q: seq<nat>)
      reads ring, front, rear
      requires Rings() && l < 3
      ensures |q| < NPROC
    {
      RingSeq(Row(l), front[l], rear[l])
    }

    ghost function S(): (s: State)
      reads this, ptable, ring, front, rear
      requires Valid()
      ensures Shape(s)
    {
      State(ptable[..], [Q(0), Q(1), Q(2)], cpu, boost, total, mlfqPass, mlfqStride, mlfqTicket)
    }

    /** minit: all queues empty, the MLFQ holding every ticket. */
    constructor ()
      ensures Valid() && fresh(ptable) && fresh(ring) && fresh(front) && fresh(rear)
      ensures S().q == [[], [], []] && S().mlfqTicket == TOTALTICKET && S().mlfqStride == 100 && S().mlfqPass == 0
      ensures cpu == Idle && boost == 0 && total == 0
      ensures forall p :: 0 <= p < NPROC ==> ptable[p] == Fresh(ptable[p], Unused)
    {
      ptable := new Proc[NPROC](_ => Proc(Unused, 0, 0, 0, 0, false, 0, 0, 0));
      ring := new nat[3 * NPROC](_ => 0);
      front := new nat[3](_ => 0);
      rear := new nat[3](_ => 0);
      cpu, boost, total := Idle, 0, 0;
      mlfqPass, mlfqTicket, mlfqStride := 0, TOTALTICKET, LARGENUM / TOTALTICKET;
    }

    predicate IsFull(l: nat)
      reads ring, front, rear
      requires Rings() && l < 3
      ensures IsFull(l) <==> |Q(l)| == NPROC - 1
    {
      front[l] == (rear[l] + 1) % NPROC
    }

    predicate IsEmpty(l: nat)
      reads ring, front, rear
      requires Rings() && l < 3
      ensures IsEmpty(l) <==> Q(l) == []
    {
      front[l] == rear[l]
    }

    method Push(l: nat, p: nat)
      requires Valid() && l < 3 && |Q(l)| < NPROC - 1
      modifies ring, rear
      ensures Valid() && Q(l) == old(Q(l)) + [p] && forall k :: 0 <= k < 3 && k != l ==> Q(k) == old(Q(k))
    {
      ghost var row := Row(l);
      RingPush(row, front[l], rear[l], p);
      rear[l] := (rear[l] + 1) % NPROC;
      ring[NPROC * l + rear[l]] := p;
      assert Row(l) == row[rear[l] := p];
      hide RingSeq;
      assert forall k :: 0 <= k < 3 && k != l ==> Row(k) == old(Row(k));
    }

    method Pop(l: nat) returns (p: nat)
      requires Valid() && l < 3 && Q(l) != []
      modifies front
      ensures Valid() && [p] + Q(l) == old(Q(l)) && forall k :: 0 <= k < 3 && k != l ==> Q(k) == old(Q(k))
    {
      RingPop(Row(l), front[l], rear[l]);
      hide RingSeq;
      front[l] := (front[l] + 1) % NPROC;
      p := ring[NPROC * l + front[l]];
    }

    /** Whatever the routines do, a circular buffer holds at most NPROC - 1 entries. */
    lemma RingsFit()
      requires Valid()
      ensures Fits(S())
    {
    }

    /** enqueue; a full queue is a panic. */
    method EnqueueAt(l: nat, p: nat) returns (panic: bool)
      requires Valid() && l < 3
      modifies ring, rear
      ensures Valid() && panic == (|old(Q(l))| == NPROC - 1)
      ensures panic ==> S() == old(S())
      ensures !panic ==> S() == Enqueue(old(S()), l, p)
    {
      hide Q;
      panic := IsFull(l);
      if !panic { Push(l, p); }
    }

    method Dequeue(l: nat) returns (found: bool, p: nat)
      requires Valid() && l < 3
      modifies front
      ensures Valid() && found == (old(Q(l)) != [])
      ensures !found ==> S() == old(S())
      ensures found ==> p == old(Q(l))[0] && S() == old(S()).(q := old(S()).q[l := old(Q(l))[1..]])
    {
      hide Q;
      found, p := !IsEmpty(l), 0;
      if found { p := Pop(l); }
    }

    method SetEntry(p: nat, x: Proc)
      requires Valid() && p < NPROC
      modifies ptable
      ensures Valid() && S() == SetProc(old(S()), p, x)
    {
      ptable[p] := x;
    }

    method GetMinPass() returns (min: nat)
      requires Valid()
      ensures min == MinPass(S())
    {
      min := mlfqPass;
      for p := 0 to NPROC
        invariant min == MinUpto(S(), p)
      {
        if ptable[p].isStride && ptable[p].state == Runnable && ptable[p].pass < min {
          min := ptable[p].pass;
        }
      }
    }

    /** find_stride_proc; not finding one is a panic. */
    method FindStrideProc(min: nat) returns (p: nat)
      requires Valid()
      ensures p == FindStride(S(), min, 0)
    {
      p := 0;
      while p < NPROC && (ptable[p].state != Runnable || !ptable[p].isStride || ptable[p].pass != min)
        invariant 0 <= p <= NPROC && FindStride(S(), min, p) == FindStride(S(), min, 0)
      {
        p := p + 1;
      }
    }

    /** find_mlfq_proc: the head of the first queue that is not empty. */
    method FindMlfqProc() returns (found: bool, p: nat)
      requires Valid()
      modifies front
      ensures Valid() && found == (FirstQueue(old(S())) < 3)
      ensures !found ==> S() == old(S())
      ensures found ==> var lev := FirstQueue(old(S()));
                        p == old(S()).q[lev][0] && S() == old(S()).(q := old(S()).q[lev := old(S()).q[lev][1..]])
    {
      hide Q;
      found, p := Dequeue(0);
      if found { return; }
      found, p := Dequeue(1);
      if found { return; }
      found, p := Dequeue(2);
    }

    /** Moves queue `l`, entry by entry, to the end of queue 0; panics when it finds queue 0 full. */
    method Drain(l: nat) returns (panic: bool)
      requires Valid() && 1 <= l < 3
      modifies front, ring, rear
      ensures Valid() && panic == (|old(Q(0))| + |old(Q(l))| >= NPROC)
      ensures !panic ==> S() == Drained(old(S()), l, |old(Q(l))|)
    {
      hide Q;
      ghost var was := S();
      ghost var n := 0;
      DrainedNone(was, l);
      while true
        invariant Valid() && 0 <= n <= |was.q[l]| && S() == Drained(was, l, n)
        decreases |was.q[l]| - n
      {
        RingsFit();
        assert Q(0) == S().q[0] && Q(l) == S().q[l];
        var found, p := Dequeue(l);
        if !found { break; }
        assert Q(0) == S().q[0];
        panic := EnqueueAt(0, p);
        if panic { return; }
        DrainedMore(was, l, n);
        n := n + 1;
      }
      panic := false;
    }

    /** priority_boost's scan of the process table. */
    method ResetLevels()
      requires Valid()
      modifies ptable
      ensures Valid() && S() == old(S()).(procs := Boost(old(S())).procs)
    {
      var p := 0;
      while p < NPROC
        invariant 0 <= p <= NPROC && S() == old(S()).(procs := ptable[..])
        invariant forall j :: 0 <= j < NPROC ==>
          ptable[j] == if j < p then BoostProc(old(ptable[j])) else old(ptable[j])
      {
        if !ptable[p].isStride && ptable[p].lev != 0 {
          ptable[p] := ptable[p].(lev := 0, tick := 0);
        }
        p := p + 1;
      }
    }

    method PriorityBoost() returns (panic: bool)
      requires Valid()
      modifies ptable, front, ring, rear, this`boost
      ensures Valid() && panic == !Fits(Boost(old(S())))
      ensures !panic ==> S() == Boost(old(S()))
    {
      hide Q; hide Boost;
      BoostDrains(S());
      BoostSize(S());
      boost := 0;
      ResetLevels();
      assert Q(0) == S().q[0] && Q(1) == S().q[1] && Q(2) == S().q[2];
      panic := Drain(1);
      if panic { return; }
      assert Q(0) == S().q[0] && Q(2) == S().q[2];
      panic := Drain(2);
    }

    /** init_pass. */
    method ResetPasses()
      requires Valid()
      modifies ptable, this`mlfqPass
      ensures Valid() && S() == InitPass(old(S()))
    {
      mlfqPass := 0;
      var p := 0;
      while p < NPROC
        invariant 0 <= p <= NPROC && Valid() && S() == old(S()).(procs := ptable[..], mlfqPass := 0)
        invariant forall j :: 0 <= j < NPROC ==>
          ptable[j] == if j < p && old(ptable[j]).stride != 0 then old(ptable[j]).(pass := 0) else old(ptable[j])
      {
        if ptable[p].stride != 0 {
          ptable[p] := ptable[p].(pass := 0);
        }
        p := p + 1;
      }
      hide Q;
      assert ptable[..] == InitPass(old(S())).procs;
    }

    /** What wakeup1, yield and tick_yield do with an MLFQ process: store its record, queue it at its level. */
    method Requeue(p: nat, x: Proc) returns (panic: bool)
      requires Valid() && p < NPROC && 0 <= x.lev < 3
      modifies ptable, ring, rear
      ensures Valid() && panic == !Fits(Enqueue(SetProc(old(S()), p, x), x.lev, p))
      ensures !panic ==> S() == Enqueue(SetProc(old(S()), p, x), x.lev, p)
    {
      RingsFit();
      hide Q;
      SetEntry(p, x);
      assert Q(x.lev) == S().q[x.lev];
      panic := EnqueueAt(x.lev, p);
      RingsFit();
    }

    /** The body of wakeup1's loop, and of kill, for a sleeping entry. */
    method WakeEntry(p: nat) returns (panic: bool)
      requires Valid() && Inv(S()) && p < NPROC && ptable[p].state == Sleeping
      modifies ptable, ring, rear
      ensures Valid() && panic == !Fits(WakeOne(old(S()), p))
      ensures !panic ==> S() == WakeOne(old(S()), p)
    {
      hide Q; hide MinPass; hide Queues;
      assert ProcOk(S().procs[p]);
      hide Inv;
      panic := false;
      if !ptable[p].isStride {
        panic := Requeue(p, ptable[p]);
        if panic { return; }
      } else {
        var min := GetMinPass();
        ptable[p] := ptable[p].(pass := min);
      }
      ptable[p] := ptable[p].(state := Runnable);
      RingsFit();
    }

    method Wakeup1(chan: nat) returns (panic: bool)
      requires Valid() && Inv(S())
      modifies ptable, ring, rear
      ensures Valid() && panic == !Fits(Wakeup(old(S()), chan))
      ensures !panic ==> S() == Wakeup(old(S()), chan)
      ensures !panic ==> WakesUp(old(S()), S(), chan)
    {
      hide Q, Inv, WakeOne, Fits, WakesUp;
      InvShape(S());
      WakeupWakesUp(S(), chan);
      ghost var was := S();
      var p := 0;
      while p < NPROC
        invariant 0 <= p <= NPROC && Valid() && S() == WakeUpto(was, chan, p)
      {
        WakeUptoKeepsInv(was, chan, p);
        if ptable[p].state == Sleeping && ptable[p].chan == chan {
          panic := WakeEntry(p);
          if panic {
            WakeOverflows(was, chan, p + 1);
            return;
          }
        }
        p := p + 1;
      }
      RingsFit();
      panic := false;
    }

    /** kill: the entry with this pid, if it sleeps, is made runnable. */
    method KillPid(pid: nat) returns (found: bool, panic: bool)
      requires Valid() && Inv(S())
      modifies ptable, ring, rear
      ensures Valid() && panic == !Fits(Kill(old(S()), pid))
      ensures !panic ==> S() == Kill(old(S()), pid)
      ensures !panic ==> Kills(old(S()), S(), pid)
      ensures found <==> exists p :: 0 <= p < NPROC && old(ptable[p]).pid == pid
    {
      RingsFit();
      ghost var was := S();
      KillFacts(was, pid);
      hide Q, Inv, WakeOne, Fits, Kills;
      panic := false;
      var p := FindByPid(pid);
      if p < NPROC && ptable[p].state == Sleeping { panic := WakeEntry(p); }
      found := p < NPROC;
    }

    /** kill's search of the table; NPROC when no entry has the pid. */
    method FindByPid(pid: nat) returns (p: nat)
      requires Valid()
      ensures p == FindPid(S(), pid, 0) && p <= NPROC
    {
      p := 0;
      while p < NPROC && ptable[p].pid != pid
        invariant 0 <= p <= NPROC && FindPid(S(), pid, p) == FindPid(S(), pid, 0)
      {
        p := p + 1;
      }
    }

    /** `boost_tick++`, and the boost when it is due. */
    method CountBoost() returns (panic: bool)
      requires Valid()
      modifies ptable, front, ring, rear, this`boost
      ensures Valid() && panic == !Fits(CountTick(old(S())))
      ensures !panic ==> S() == CountTick(old(S()))
    {
      RingsFit();
      hide Q; hide Boost;
      panic := false;
      boost := boost + 1;
      if boost >= BOOSTLIMIT {
        panic := PriorityBoost();
      }
    }

    method YieldCpu() returns (panic: bool)
      requires Valid() && Inv(S()) && cpu.On?
      modifies this, ptable, front, ring, rear
      ensures Valid() && panic == !Fits(Yield(old(S())))
      ensures !panic ==> S() == Yield(old(S()))
      ensures !panic ==> Yields(old(S()), S())
    {
      var p := cpu.p;
      ghost var was := S();
      YieldParts(was);
      YieldYields(was);
      hide Q; hide Inv; hide CountTick; hide Boost; hide Fits; hide Yields;
      SetEntry(p, ptable[p].(state := Runnable));
      hide Yield;
      panic := CountBoost();
      if !panic { panic := YieldRest(p, was); }
    }

    /** yield after the boost: the tick is counted, the slice ends, the pass is charged. */
    method YieldRest(p: nat, ghost was: State) returns (panic: bool)
      requires Valid() && Shape(was) && was.cpu == On(p) && p < NPROC && cpu == On(p)
      requires S() == CountTick(SetProc(was, p, was.procs[p].(state := Runnable)))
      requires !ptable[p].isStride ==> 0 <= ptable[p].lev < 3
      modifies this, ptable, ring, rear
      ensures Valid() && panic == !Fits(Yield(was))
      ensures !panic ==> S() == Yield(was)
    {
      hide Q; hide CountTick; hide Boost;
      panic := false;
      var x := ptable[p].(tick := ptable[p].tick + 1);
      if x.isStride {
        SetEntry(p, x.(pass := x.pass + x.stride));
        RingsFit();
      } else {
        if x.lev < 2 && x.tick >= Allotment(x.lev) {
          x := x.(lev := x.lev + 1, tick := 0);
        } else if x.lev == 2 && x.tick >= Quantum(x.lev) {
          x := x.(tick := 0);
        }
        panic := Requeue(p, x);
        if panic { return; }
        mlfqPass := mlfqPass + mlfqStride;
      }
      cpu := Idle;
    }

    /** tick_yield. */
    method TickYieldCpu() returns (panic: bool)
      requires Valid() && cpu.On?
      requires !ptable[cpu.p].isStride ==> 0 <= ptable[cpu.p].lev < 3
      modifies this, ptable, ring, rear
      ensures Valid() && panic == !Fits(TickYield(old(S())))
      ensures !panic ==> S() == TickYield(old(S()))
    {
      hide Q;
      panic := false;
      var p := cpu.p;
      var x := ptable[p].(state := Runnable);
      if !x.isStride {
        if x.lev < 2 && x.tick >= Allotment(x.lev) {
          x := x.(lev := x.lev + 1, tick := 0);
        } else if x.lev == 2 {
          x := x.(tick := 0);
        }
        panic := Requeue(p, x);
        if panic { return; }
      } else {
        SetEntry(p, x);
        RingsFit();
      }
      cpu := Idle;
    }

    /** The timer branch of trap. */
    method TimerTick() returns (panic: bool)
      requires Valid() && Inv(S()) && cpu.On?
      modifies this, ptable, front, ring, rear
      ensures Valid() && panic == !Fits(Tick(old(S())))
      ensures !panic ==> S() == Tick(old(S()))
      ensures !panic ==> Ticks(old(S()), S())
    {
      ghost var was := S();
      TickParts(was);
      TickTicks(was);
      hide Q, Inv, Counted, Tick, Fits, Ticks;
      panic := CountRunningTick();
      hide S;
      if !panic { panic := TickRest(cpu.p, was); }
    }

    /** `boost_tick++; myproc()->tick_cnt++`, and the boost when it is due. */
    method CountRunningTick() returns (panic: bool)
      requires Valid() && cpu.On?
      modifies ptable, front, ring, rear, this`boost
      ensures Valid() && panic == !Fits(Counted(old(S())))
      ensures !panic ==> S() == Counted(old(S()))
    {
      hide Q; hide CountTick; hide Fits;
      SetEntry(cpu.p, ptable[cpu.p].(tick := ptable[cpu.p].tick + 1));
      panic := CountBoost();
    }

    /** The timer branch after the boost: the pass is charged and the slice may end. */
    method TickRest(p: nat, ghost was: State) returns (panic: bool)
      requires Valid() && Shape(was) && was.cpu == On(p) && p < NPROC && cpu == On(p)
      requires S() == Counted(was)
      requires !S().procs[p].isStride ==> 0 <= S().procs[p].lev < 3
      modifies this, ptable, ring, rear
      ensures Valid() && panic == !Fits(Tick(was))
      ensures !panic ==> S() == Tick(was)
    {
      hide Q; hide CountTick; hide Boost; hide TickYield; hide Fits;
      panic := false;
      if ptable[p].isStride {
        SetEntry(p, ptable[p].(pass := ptable[p].pass + ptable[p].stride));
        panic := TickYieldCpu();
      } else {
        mlfqPass := mlfqPass + mlfqStride;
        if ptable[p].tick % Quantum(ptable[p].lev) == 0 {
          panic := TickYieldCpu();
        } else {
          RingsFit();
        }
      }
    }

    /** sleep, up to the switch to the scheduler. */
    method SleepOn(chan: nat)
      requires Valid() && cpu.On?
      modifies this`cpu, ptable
      ensures Valid() && S() == Sleep(old(S()), chan)
      ensures Sleeps(old(S()), S(), chan)
    {
      hide Q;
      SetEntry(cpu.p, ptable[cpu.p].(state := Sleeping, chan := chan));
      cpu := Idle;
    }

    /** set_cpu_share: refused, with nothing changed, when stride processes would hold more than
        MAXSTRIDETICKET tickets. */
    method SetCpuShare(ticket: nat) returns (r: int)
      requires Valid() && Inv(S()) && cpu.On? && ticket > 0
      modifies this, ptable
      ensures Valid() && S() == SetShare(old(S()), ticket)
      ensures Asks(old(S()), S(), ticket)
      ensures r == if ticket + old(total) > MAXSTRIDETICKET then -1 else 1
    {
      ShareAsks(S(), ticket);
      hide Q, Queues, MinPass, Asks;
      if ticket + total > MAXSTRIDETICKET { return -1; }
      var p := cpu.p;
      total := total + ticket;
      ptable[p] := ptable[p].(lev := -1, tick := 0, isStride := true, ticket := ticket, stride := LARGENUM / ticket);
      ghost var t := S();
      var min := GetMinPass();
      ptable[p] := ptable[p].(pass := min);
      mlfqTicket := mlfqTicket - ticket;
      MinPassTotal(t, old(S()), ticket);
      mlfqStride := LARGENUM / mlfqTicket;
      r := 1;
    }

    /** allocproc's search: the first unused entry becomes an embryo; `p` is NPROC when there is none. */
    method AllocProc(pid: nat) returns (p: nat)
      requires Valid()
      modifies ptable
      ensures Valid() && p <= NPROC
      ensures p == NPROC <==> forall j :: 0 <= j < NPROC ==> old(ptable[j]).state != Unused
      ensures p == NPROC ==> S() == old(S())
      ensures p < NPROC ==> old(ptable[p]).state == Unused && S() == Alloc(old(S()), p, pid)
      ensures p < NPROC ==> Becomes(old(S()), S(), p, old(ptable[p]).(state := Embryo, pid := pid))
      ensures forall j :: 0 <= j < p ==> old(ptable[j]).state != Unused
    {
      hide Q;
      p := 0;
      while p < NPROC
        invariant 0 <= p <= NPROC && S() == old(S())
        invariant forall j :: 0 <= j < p ==> ptable[j].state != Unused
      {
        if ptable[p].state == Unused {
          SetEntry(p, ptable[p].(state := Embryo, pid := pid));
          return;
        }
        p := p + 1;
      }
    }

    /** The end of fork for the embryo `p`: given up when memory for the child ran out (`copied` is false), queued at
        level 0 otherwise. A full queue is a panic. */
    method FinishFork(p: nat, copied: bool) returns (panic: bool)
      requires Valid() && p < NPROC && ptable[p].state == Embryo
      modifies ptable, ring, rear
      ensures Valid() && panic == (copied && |old(S()).q[0]| == NPROC - 1)
      ensures !copied ==> S() == ForkFail(old(S()), p)
      ensures copied && !panic ==> S() == ForkDone(old(S()), p)
      ensures !copied ==> Becomes(old(S()), S(), p, old(ptable[p]).(state := Unused))
      ensures copied && !panic ==> Effect(old(S()), ForkDoneStep(p), S())
    {
      hide Q;
      ForkQueues(S(), p);
      panic := false;
      if !copied {
        SetEntry(p, ptable[p].(state := Unused));
        return;
      }
      SetEntry(p, ptable[p].(lev := 0, tick := 0, isStride := false, stride := 0, pass := 0, ticket := 0));
      SetEntry(p, ptable[p].(state := Runnable));
      assert Q(0) == S().q[0];
      panic := EnqueueAt(ptable[p].lev, p);
    }

    /** exit, from where the parent is woken; `chans` are the sleepers' channels it wakes in turn: the parent, then
        init for each zombie child. */
    method ExitProc(chans: seq<nat>) returns (panic: bool)
      requires Valid() && Inv(S()) && cpu.On?
      modifies this, ptable, ring, rear
      ensures Valid() && panic == !Fits(Exit(old(S()), chans))
      ensures !panic ==> S() == Exit(old(S()), chans)
      ensures !panic ==> Exits(old(S()), S(), chans)
    {
      ghost var was := S();
      ExitExits(was, chans);
      ExitFits(was, chans);
      InvShape(was);
      hide Q, Inv, Fits, Exits, WakeEach, Exit;
      panic := WakeEveryone(chans);
      if !panic { LeaveCpu(was, chans); }
    }

    /** exit's calls of wakeup1. */
    method WakeEveryone(chans: seq<nat>) returns (panic: bool)
      requires Valid() && Inv(S()) && cpu.On?
      modifies ptable, ring, rear
      ensures Valid() && panic == !Fits(WakeEach(old(S()), chans))
      ensures !panic ==> S() == WakeEach(old(S()), chans) && Inv(S())
    {
      hide Q, Inv, Wakeup, Fits, WakesUp;
      ghost var was := S();
      var k := 0;
      while k < |chans|
        invariant 0 <= k <= |chans| && Valid() && S() == WakeEach(was, chans[..k]) && Inv(S()) && cpu == was.cpu
      {
        assert chans[..k + 1][..k] == chans[..k];
        WakeEachKeepsInv(was, chans[..k + 1]);
        panic := Wakeup1(chans[k]);
        if panic {
          WakeEachOverflows(was, chans, k + 1);
          return;
        }
        k := k + 1;
      }
      assert chans[..k] == chans;
      panic := false;
      RingsFit();
    }

    /** The end of exit: the share is given back and the process is a zombie. */
    method LeaveCpu(ghost was: State, ghost chans: seq<nat>)
      requires Valid() && Shape(was) && was.cpu.On? && S() == WakeEach(was, chans) && Inv(S()) && cpu == was.cpu
      modifies this, ptable
      ensures Valid() && S() == Exit(was, chans)
    {
      hide Q, Inv, WakeEach;
      var x := ptable[cpu.p];
      if x.isStride {
        TicketsLeft(S(), cpu.p);
        total := total - x.ticket;
        mlfqTicket := mlfqTicket + x.ticket;
        mlfqStride := LARGENUM / mlfqTicket;
      }
      SetEntry(cpu.p, x.(state := Zombie));
      cpu := Idle;
    }

    /** wait, on finding the zombie `p`: the entry is free again. */
    method ReapEntry(p: nat)
      requires Valid() && p < NPROC && ptable[p].state == Zombie
      modifies ptable
      ensures Valid() && S() == Reap(old(S()), p)
      ensures Becomes(old(S()), S(), p, Cleared(old(ptable[p])).(state := Unused, pid := 0))
    {
      hide Q;
      SetEntry(p, ptable[p].(pid := 0));
      SetEntry(p, ptable[p].(lev := 0, tick := 0, isStride := false, stride := 0, pass := 0, ticket := 0));
      SetEntry(p, ptable[p].(state := Unused));
    }

    /** One round of scheduler's loop; the only panic it could meet does not happen. */
    method Schedule()
      requires Valid() && Inv(S()) && cpu == Idle
      modifies this, ptable, front
      ensures Valid() && S() == Dispatch(old(S()))
      ensures Dispatches(old(S()), S())
    {
      ghost var was := S();
      DispatchCases(was);
      DispatchDispatches(was);
      hide Q, Inv, MinUpto, FindStride, Dispatch, Run, Dispatches;
      var min := GetMinPass();
      var p: nat;
      if min == mlfqPass {
        var found: bool;
        found, p := FindMlfqProc();
        if !found {
          mlfqPass := mlfqPass + mlfqStride;
          return;
        }
      } else {
        p := FindStrideProc(min);
      }
      MinUptoQueues(was, S().q, NPROC);
      RunEntry(p, min);
    }

    /** Runs the chosen process, restarting all passes when they have grown too large. */
    method RunEntry(p: nat, min: nat)
      requires Valid() && p < NPROC && min == MinPass(S())
      modifies this, ptable
      ensures Valid() && S() == Run(old(S()), p)
    {
      hide Q; hide MinUpto; hide InitPass;
      if mlfqPass >= MAXPASS && min >= MAXPASS {
        ResetPasses();
      }
      SetEntry(p, ptable[p].(state := Running));
      cpu := On(p);
    }
  }

  lemma MinPassTotal(t: State, s: State, ticket: nat)
    requires Shape(t) && Shape(s) && s.cpu.On? && ticket > 0
    requires t == SetProc(s, s.cpu.p, s.procs[s.cpu.p].(lev := -1, tick := 0, isStride := true, ticket := ticket,
                                                       stride := StrideOf(ticket))).(total := s.total + ticket)
    ensures MinPass(t) == MinPass(t.(total := s.total))
  {
    MinUptoTotal(t, s.total, NPROC);
  }

  lemma {:induction false} MinUptoTotal(t: State, total: int, k: nat)
    requires k <= |t.procs|
    ensures MinUpto(t, k) == MinUpto(t.(total := total), k)
  {
    if k > 0 { MinUptoTotal(t, total, k - 1); }
  }

  lemma TicketsLeft(s: State, p: nat)
    requires Inv(s) && p < NPROC && s.procs[p].isStride
    ensures s.mlfqTicket + s.procs[p].ticket > 0
  {
    assert ProcOk(s.procs[p]);
  }

  lemma {:induction false} WakeEachGrows(s: State, chans: seq<nat>, k: nat)
    requires Shape(s) && k <= |chans| && Fits(WakeEach(s, chans))
    ensures Fits(WakeEach(s, chans[..k]))
    decreases |chans|
  {
    if k == |chans| {
      assert chans[..k] == chans;
    } else {
      var n := |chans| - 1;
      WakeGrows(WakeEach(s, chans[..n]), chans[n], 0, NPROC);
      WakeEachGrows(s, chans[..n], k);
      assert chans[..n][..k] == chans[..k];
    }
  }

  lemma KillFacts(s: State, pid: nat)
    requires Inv(s)
    ensures Shape(s) && Kills(s, Kill(s, pid), pid)
    ensures FindPid(s, pid, 0) < NPROC <==> exists p :: 0 <= p < NPROC && s.procs[p].pid == pid
  {
    KillKills(s, pid);
    FindPidFirst(s, pid, 0);
    hide Kills, Kill;
  }

  lemma WakeEachOverflows(s: State, chans: seq<nat>, k: nat)
    requires Shape(s) && k <= |chans| && !Fits(WakeEach(s, chans[..k]))
    ensures !Fits(WakeEach(s, chans))
  {
    hide WakeEach;
    if Fits(WakeEach(s, chans)) { WakeEachGrows(s, chans, k); }
  }

  lemma ExitFits(s: State, chans: seq<nat>)
    requires Inv(s) && s.cpu.On?
    ensures Shape(Exit(s, chans)) && (Fits(Exit(s, chans)) <==> Fits(WakeEach(s, chans)))
  {
    WakeEachKeepsInv(s, chans);
    hide WakeEach, Inv;
  }

  /** What a round of the scheduler does. */
  lemma DispatchCases(s: State)
    requires Inv(s) && s.cpu.Idle?
    ensures MinPass(s) == s.mlfqPass && FirstQueue(s) == 3 ==> Dispatch(s) == s.(mlfqPass := s.mlfqPass + s.mlfqStride)
    ensures MinPass(s) == s.mlfqPass && FirstQueue(s) < 3 ==>
      var q := s.q[FirstQueue(s)];
      q[0] < NPROC && Dispatch(s) == Run(s.(q := s.q[FirstQueue(s) := q[1..]]), q[0])
    ensures MinPass(s) != s.mlfqPass ==>
      FindStride(s, MinPass(s), 0) < NPROC && Dispatch(s) == Run(s, FindStride(s, MinPass(s), 0))
  {
    DispatchKeepsInv(s);
    var lev := FirstQueue(s);
    if MinPass(s) == s.mlfqPass && lev < 3 {
      assert QueueInv(s.procs, s.q[lev], lev);
      assert s.q[lev][0] in s.q[lev];
    }
    hide Run, Queues, Tickets, OneRunning, MinUpto;
  }

  /** The stages of a timer tick: what overflows in the boost overflows in the end, and the level reached is a level. */
  lemma TickParts(s: State)
    requires Inv(s) && s.cpu.On?
    ensures (Fits(Tick(s)) ==> Fits(Counted(s))) && Counted(s).cpu == s.cpu
    ensures !Counted(s).procs[s.cpu.p].isStride ==> 0 <= Counted(s).procs[s.cpu.p].lev < 3
  {
    var p := s.cpu.p;
    CountTickSet(s, p, s.procs[p].(tick := s.procs[p].tick + 1));
    CountTickKeepsInv(s);
    assert ProcOk(s.procs[p]);
    hide CountTick; hide Queues;
  }

  lemma BoostSize(s: State)
    requires Shape(s)
    ensures Fits(Boost(s)) <==> |s.q[0]| + |s.q[1]| + |s.q[2]| < NPROC
  {
  }

  /** The stages of yield, likewise. */
  lemma YieldParts(s: State)
    requires Inv(s) && s.cpu.On?
    ensures var p := s.cpu.p; var t := CountTick(SetProc(s, p, s.procs[p].(state := Runnable)));
            (Fits(Yield(s)) ==> Fits(t)) && (!t.procs[p].isStride ==> 0 <= t.procs[p].lev < 3)
  {
    var p := s.cpu.p;
    CountTickSet(s, p, s.procs[p].(state := Runnable));
    CountTickKeepsInv(s);
    assert ProcOk(s.procs[p]);
    hide CountTick; hide Queues;
  }
}
