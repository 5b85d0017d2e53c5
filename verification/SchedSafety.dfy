/** Invariants of the scheduler over every run. */
module SchedSafety {
  import opened Indexing
  import opened Sched

  // ---------- queues ----------

  predicate Queued(x: Proc, lev: int) {
    x.state.Runnable? && !x.isStride && x.lev == lev
  }

  ghost predicate NoDup(q: seq<nat>) {
    forall i, j :: 0 <= i < j < |q| ==> q[i] != q[j]
  }

  /** Queue `lev` holds exactly the runnable non-stride processes of that level, each once. */
  ghost predicate QueueInv(procs: seq<Proc>, q: seq<nat>, lev: int) {
    && NoDup(q)
    && (forall p :: p in q ==> p < |procs| && Queued(procs[p], lev))
    && (forall p :: 0 <= p < |procs| && Queued(procs[p], lev) ==> p in q)
  }

  ghost predicate Queues(s: State)
    requires Shape(s)
  {
    QueueInv(s.procs, s.q[0], 0) && QueueInv(s.procs, s.q[1], 1) && QueueInv(s.procs, s.q[2], 2)
  }

  /** The process on the CPU is the one that is Running. */
  ghost predicate OneRunning(s: State)
    requires Shape(s)
  {
    forall p :: 0 <= p < NPROC ==> (s.procs[p].state.Running? <==> s.cpu == On(p))
  }

  // ---------- levels and tickets ----------

  predicate Live(x: Proc) {
    x.state.Sleeping? || x.state.Runnable? || x.state.Running?
  }

  predicate TickOk(x: Proc) {
    (x.lev == 0 && x.tick < 5) || (x.lev == 1 && x.tick < 10) || (x.lev == 2 && x.tick < 4)
  }

  predicate ProcOk(x: Proc) {
    Live(x) ==>
      if x.isStride then 1 <= x.ticket <= MAXSTRIDETICKET && x.stride == StrideOf(x.ticket) else TickOk(x)
  }

  function LiveTicket(x: Proc): (n: nat) {
    if x.isStride && Live(x) then x.ticket else 0
  }

  /** Tickets of the live stride processes among the first `k`. */
  function TicketSum(procs: seq<Proc>, k: nat): (n: nat)
    requires k <= |procs|
  {
    if k == 0 then 0
    else TicketSum(procs, k - 1) + LiveTicket(procs[k - 1])
  }

  ghost predicate Tickets(s: State)
    requires Shape(s)
  {
    && (forall p :: 0 <= p < NPROC ==> ProcOk(s.procs[p]))
    && TicketSum(s.procs, NPROC) <= s.total <= MAXSTRIDETICKET
    && s.mlfqTicket + s.total == TOTALTICKET && s.mlfqStride == StrideOf(s.mlfqTicket)
    && s.boost < BOOSTLIMIT
  }

  ghost predicate Inv(s: State) {
    Shape(s) && OneRunning(s) && Queues(s) && Tickets(s)
  }

  lemma {:induction false} TicketSumUpdate(procs: seq<Proc>, p: nat, x: Proc, k: nat)
    requires p < |procs| && k <= |procs|
    ensures TicketSum(procs[p := x], k) == TicketSum(procs, k) +
              (if p < k then LiveTicket(x) - LiveTicket(procs[p]) else 0)
  {
    if k > 0 { TicketSumUpdate(procs, p, x, k - 1); }
  }

  lemma {:induction false} TicketSumSame(procs: seq<Proc>, r: seq<Proc>, k: nat)
    requires |r| == |procs| && k <= |procs|
    requires forall p :: 0 <= p < |procs| ==>
               LiveTicket(r[p]) == LiveTicket(procs[p])
    ensures TicketSum(r, k) == TicketSum(procs, k)
  {
    if k > 0 { TicketSumSame(procs, r, k - 1); }
  }

  lemma {:induction false} TicketSumAt(procs: seq<Proc>, p: nat, k: nat)
    requires p < k <= |procs|
    ensures LiveTicket(procs[p]) <= TicketSum(procs, k)
  {
    if p < k - 1 { TicketSumAt(procs, p, k - 1); }
  }

  /** Changing one entry that is and stays out of the queue. */
  lemma QueueOther(procs: seq<Proc>, q: seq<nat>, lev: int, p: nat, x: Proc)
    requires QueueInv(procs, q, lev) && p < |procs| && !Queued(procs[p], lev) && !Queued(x, lev)
    ensures QueueInv(procs[p := x], q, lev)
  {
  }

  lemma QueueAppend(procs: seq<Proc>, q: seq<nat>, lev: int, p: nat, x: Proc)
    requires QueueInv(procs, q, lev) && p < |procs| && !Queued(procs[p], lev) && Queued(x, lev)
    ensures QueueInv(procs[p := x], q + [p], lev)
  {
  }

  lemma QueuePop(procs: seq<Proc>, q: seq<nat>, lev: int, x: Proc)
    requires QueueInv(procs, q, lev) && q != [] && !Queued(x, lev)
    ensures q[0] < |procs| && Queued(procs[q[0]], lev) && QueueInv(procs[q[0] := x], q[1..], lev)
  {
    assert q[0] in q;
    var r := procs[q[0] := x];
    forall p | 0 <= p < |r| && Queued(r[p], lev) ensures p in q[1..] {
      assert p in q && p != q[0];
      var i :| 0 <= i < |q| && q[i] == p;
      assert q[1..][i - 1] == p;
    }
    forall p | p in q[1..] ensures p < |r| && Queued(r[p], lev) {
      var i :| 0 <= i < |q[1..]| && q[1..][i] == p;
      assert q[i + 1] == p && p in q;
    }
  }

  /** The process leaves no queue and may enter one. */
  lemma QueuesAfter(s: State, r: State, p: nat)
    requires Shape(s) && Shape(r) && Queues(s) && p < NPROC
    requires !(s.procs[p].state.Runnable? && !s.procs[p].isStride && 0 <= s.procs[p].lev < 3)
    requires r.procs == s.procs[p := r.procs[p]]
    requires if r.procs[p].state.Runnable? && !r.procs[p].isStride && 0 <= r.procs[p].lev < 3
             then r.q == Enqueue(s, r.procs[p].lev, p).q else r.q == s.q
    ensures Queues(r)
  {
    hide QueueInv;
    var x := r.procs[p];
    forall lev | 0 <= lev < 3 ensures QueueInv(r.procs, r.q[lev], lev) {
      assert QueueInv(s.procs, s.q[lev], lev);
      if Queued(x, lev) { QueueAppend(s.procs, s.q[lev], lev, p, x); }
      else { QueueOther(s.procs, s.q[lev], lev, p, x); }
    }
  }

  // ---------- steps ----------

  lemma WakeOneKeepsInv(s: State, p: nat)
    requires Inv(s) && p < NPROC && s.procs[p].state.Sleeping?
    ensures Inv(WakeOne(s, p))
  {
    var r := WakeOne(s, p);
    hide Queues;
    TicketSumUpdate(s.procs, p, r.procs[p], NPROC);
    QueuesAfter(s, r, p);
  }

  lemma {:induction false} WakeUptoKeepsInv(s: State, chan: nat, k: nat)
    requires Inv(s) && k <= NPROC
    ensures Inv(WakeUpto(s, chan, k)) && WakeUpto(s, chan, k).cpu == s.cpu
    ensures forall p :: 0 <= p < NPROC && !s.procs[p].state.Sleeping? ==> WakeUpto(s, chan, k).procs[p] == s.procs[p]
  {
    hide Queues; hide Tickets;
    if k > 0 {
      WakeUptoKeepsInv(s, chan, k - 1);
      var t := WakeUpto(s, chan, k - 1);
      if t.procs[k - 1].state.Sleeping? && t.procs[k - 1].chan == chan { WakeOneKeepsInv(t, k - 1); }
    }
  }

  lemma {:induction false} WakeEachKeepsInv(s: State, chans: seq<nat>)
    requires Inv(s)
    ensures Inv(WakeEach(s, chans)) && WakeEach(s, chans).cpu == s.cpu
    ensures forall p :: 0 <= p < NPROC && !s.procs[p].state.Sleeping? ==> WakeEach(s, chans).procs[p] == s.procs[p]
  {
    hide Queues; hide Tickets; hide WakeUpto;
    if chans != [] {
      WakeEachKeepsInv(s, chans[..|chans| - 1]);
      WakeUptoKeepsInv(WakeEach(s, chans[..|chans| - 1]), chans[|chans| - 1], NPROC);
    }
  }

  /** Replacing the record of the running process: by another Running one, or by one that gives up
      the CPU and is queued if it is runnable. */
  lemma ReplaceRunning(s: State, r: State, p: nat)
    requires Inv(s) && s.cpu == On(p) && Shape(r) && r.procs == s.procs[p := r.procs[p]]
    requires r.cpu == if r.procs[p].state.Running? then On(p) else Idle
    requires if r.procs[p].state.Runnable? && !r.procs[p].isStride && 0 <= r.procs[p].lev < 3
             then r.q == Enqueue(s, r.procs[p].lev, p).q else r.q == s.q
    requires ProcOk(r.procs[p]) && r.boost < BOOSTLIMIT
    requires TicketSum(s.procs, NPROC) + LiveTicket(r.procs[p]) - LiveTicket(s.procs[p]) <= r.total <= MAXSTRIDETICKET
    requires r.mlfqTicket + r.total == TOTALTICKET && r.mlfqStride == StrideOf(r.mlfqTicket)
    ensures Inv(r)
  {
    hide Queues; hide ProcOk;
    QueuesAfter(s, r, p);
    TicketSumUpdate(s.procs, p, r.procs[p], NPROC);
  }

  /** The boost counter and the boost do not depend on the record of the running process. */
  lemma CountTickSet(s: State, p: nat, x: Proc)
    requires Shape(s) && p < NPROC
    ensures CountTick(SetProc(s, p, x)) ==
      SetProc(CountTick(s), p, if s.boost + 1 >= BOOSTLIMIT then BoostProc(x) else x)
  {
    if s.boost + 1 >= BOOSTLIMIT {
      var a, b := CountTick(SetProc(s, p, x)), SetProc(CountTick(s), p, BoostProc(x));
      assert a.procs == b.procs;
    }
  }

  /** Boosting loses and duplicates nothing: the new level 0 holds every runnable MLFQ process once. */
  lemma BoostQueues(s: State)
    requires Shape(s) && Queues(s) && forall p :: 0 <= p < NPROC ==> ProcOk(s.procs[p])
    ensures Queues(Boost(s))
  {
    var r := Boost(s);
    var q := s.q[0] + s.q[1] + s.q[2];
    forall i, j | 0 <= i < j < |q| ensures q[i] != q[j] {
      assert q[i] in s.q[0] || q[i] in s.q[1] || q[i] in s.q[2];
      BoostOrder(s, i, j);
    }
    forall p | p in q ensures p < NPROC && Queued(r.procs[p], 0) {
      assert p in s.q[0] || p in s.q[1] || p in s.q[2];
    }
    forall p | 0 <= p < NPROC && Queued(r.procs[p], 0) ensures p in q {
      assert ProcOk(s.procs[p]);
      assert Queued(s.procs[p], 0) || Queued(s.procs[p], 1) || Queued(s.procs[p], 2);
    }
    forall p | 0 <= p < NPROC ensures !Queued(r.procs[p], 1) && !Queued(r.procs[p], 2) {
    }
  }

  lemma BoostOrder(s: State, i: nat, j: nat)
    requires Shape(s) && Queues(s) && i < j < |s.q[0] + s.q[1] + s.q[2]|
    ensures (s.q[0] + s.q[1] + s.q[2])[i] != (s.q[0] + s.q[1] + s.q[2])[j]
  {
    var a, b := |s.q[0]|, |s.q[1]|;
    var x := if i < a then s.q[0][i] else if i < a + b then s.q[1][i - a] else s.q[2][i - a - b];
    var y := if j < a then s.q[0][j] else if j < a + b then s.q[1][j - a] else s.q[2][j - a - b];
    var k, l := if i < a then 0 else if i < a + b then 1 else 2, if j < a then 0 else if j < a + b then 1 else 2;
    assert x in s.q[k] && y in s.q[l];
    assert Queued(s.procs[x], if i < a then 0 else if i < a + b then 1 else 2);
    assert Queued(s.procs[y], if j < a then 0 else if j < a + b then 1 else 2);
  }

  lemma BoostKeepsInv(s: State)
    requires Shape(s) && OneRunning(s) && Queues(s) && Tickets(s.(boost := 0))
    ensures Inv(Boost(s))
  {
    BoostQueues(s);
    hide Queues;
    TicketSumSame(s.procs, Boost(s).procs, NPROC);
  }

  lemma CountTickKeepsInv(s: State)
    requires Inv(s)
    ensures Inv(CountTick(s)) && CountTick(s).cpu == s.cpu && CountTick(s).total == s.total
    ensures CountTick(s).mlfqPass == s.mlfqPass && CountTick(s).mlfqStride == s.mlfqStride
    ensures forall p :: 0 <= p < NPROC ==>
      CountTick(s).procs[p] == (if s.boost + 1 >= BOOSTLIMIT then BoostProc(s.procs[p]) else s.procs[p])
  {
    hide TicketSum;
    if s.boost + 1 >= BOOSTLIMIT { BoostKeepsInv(s.(boost := s.boost + 1)); }
  }

  lemma YieldKeepsInv(s: State)
    requires Inv(s) && s.cpu.On?
    ensures Inv(Yield(s))
  {
    hide CountTick; hide Queues; hide TicketSum;
    var p := s.cpu.p;
    CountTickKeepsInv(s);
    CountTickSet(s, p, s.procs[p].(state := Runnable));
    TicketSumAt(s.procs, p, NPROC);
    assert ProcOk(s.procs[p]);
    ReplaceRunning(CountTick(s), Yield(s), p);
  }

  lemma TickKeepsInv(s: State)
    requires Inv(s) && s.cpu.On?
    ensures Inv(Tick(s))
  {
    hide CountTick; hide Queues; hide TicketSum;
    var p := s.cpu.p;
    CountTickKeepsInv(s);
    CountTickSet(s, p, s.procs[p].(tick := s.procs[p].tick + 1));
    assert ProcOk(s.procs[p]);
    ReplaceRunning(CountTick(s), Tick(s), p);
  }

  lemma SleepKeepsInv(s: State, chan: nat)
    requires Inv(s) && s.cpu.On?
    ensures Inv(Sleep(s, chan))
  {
    hide Queues; hide TicketSum;
    ReplaceRunning(s, Sleep(s, chan), s.cpu.p);
  }

  lemma ShareKeepsInv(s: State, ticket: nat)
    requires Inv(s) && s.cpu.On? && ticket > 0
    ensures Inv(SetShare(s, ticket))
  {
    hide Queues; hide TicketSum; hide MinPass; hide StrideOf;
    if ticket + s.total <= MAXSTRIDETICKET {
      ReplaceRunning(s, SetShare(s, ticket), s.cpu.p);
    }
  }

  lemma ExitKeepsInv(s: State, chans: seq<nat>)
    requires Inv(s) && s.cpu.On?
    ensures Inv(Exit(s, chans))
  {
    WakeEachKeepsInv(s, chans);
    hide Queues; hide TicketSum; hide WakeEach; hide StrideOf;
    var t := WakeEach(s, chans);
    TicketSumAt(t.procs, s.cpu.p, NPROC);
    ReplaceRunning(t, Exit(s, chans), s.cpu.p);
  }

  /** A process that is neither running nor runnable is given another such record. */
  lemma ReplaceIdle(s: State, r: State, p: nat)
    requires Inv(s) && Shape(r) && p < NPROC && r == s.(procs := s.procs[p := r.procs[p]])
    requires !Live(s.procs[p]) && !Live(r.procs[p])
    ensures Inv(r)
  {
    hide Queues;
    QueuesAfter(s, r, p);
    TicketSumUpdate(s.procs, p, r.procs[p], NPROC);
  }

  lemma ForkKeepsInv(s: State, p: nat)
    requires Inv(s) && p < NPROC && s.procs[p].state.Embryo?
    ensures Inv(ForkDone(s, p))
  {
    var r := ForkDone(s, p);
    hide Queues;
    QueuesAfter(s, r, p);
    TicketSumUpdate(s.procs, p, r.procs[p], NPROC);
  }

  lemma {:induction false} MinUptoQueues(s: State, q: seq<seq<nat>>, k: nat)
    requires k <= |s.procs|
    ensures MinUpto(s.(q := q), k) == MinUpto(s, k)
  {
    if k > 0 { MinUptoQueues(s, q, k - 1); }
  }

  lemma MinUptoIsMin(s: State, k: nat)
    requires k <= |s.procs|
    ensures MinUpto(s, k) <= s.mlfqPass
    ensures forall p :: 0 <= p < k && WaitingStride(s.procs[p]) ==> MinUpto(s, k) <= s.procs[p].pass
    ensures MinUpto(s, k) == s.mlfqPass || exists p ::
      0 <= p < k && WaitingStride(s.procs[p]) && s.procs[p].pass == MinUpto(s, k)
  {
  }

  /** Process `p` is at the head of its level's queue. */
  predicate HeadOf(s: State, p: nat) {
    Shape(s) && p < NPROC && 0 <= s.procs[p].lev < 3 && s.q[s.procs[p].lev] != [] && s.q[s.procs[p].lev][0] == p
  }

  lemma RunKeepsInv(s: State, r: State, p: nat)
    requires Inv(s) && s.cpu.Idle? && Shape(r) && p < NPROC && s.procs[p].state.Runnable?
    requires r.cpu == On(p) && r.procs[p].state.Running?
    requires forall j :: 0 <= j < NPROC ==>
      r.procs[j] == s.procs[j].(state := r.procs[j].state, pass := r.procs[j].pass)
    requires forall j :: 0 <= j < NPROC && j != p ==> r.procs[j].state == s.procs[j].state
    requires r.boost == s.boost && r.total == s.total && r.mlfqTicket == s.mlfqTicket && r.mlfqStride == s.mlfqStride
    requires if s.procs[p].isStride then r.q == s.q
             else HeadOf(s, p) && r.q == s.q[s.procs[p].lev := s.q[s.procs[p].lev][1..]]
    ensures Inv(r)
  {
    hide Queues; hide QueueInv;
    TicketSumSame(s.procs, r.procs, NPROC);
    forall j | 0 <= j < NPROC ensures ProcOk(r.procs[j]) {
      assert ProcOk(s.procs[j]);
    }
    RunQueues(s, r, p);
  }

  lemma RunQueues(s: State, r: State, p: nat)
    requires Shape(s) && Queues(s) && Shape(r) && p < NPROC && s.procs[p].state.Runnable? && r.procs[p].state.Running?
    requires forall j :: 0 <= j < NPROC ==>
      r.procs[j] == s.procs[j].(state := r.procs[j].state, pass := r.procs[j].pass)
    requires forall j :: 0 <= j < NPROC && j != p ==> r.procs[j].state == s.procs[j].state
    requires if s.procs[p].isStride then r.q == s.q
             else HeadOf(s, p) && r.q == s.q[s.procs[p].lev := s.q[s.procs[p].lev][1..]]
    ensures Queues(r)
  {
    forall lev | 0 <= lev < 3 ensures QueueInv(r.procs, r.q[lev], lev) {
      assert QueueInv(s.procs, s.q[lev], lev);
      var t := s.procs[p := r.procs[p]];
      if Queued(s.procs[p], lev) {
        QueuePop(s.procs, s.q[lev], lev, r.procs[p]);
      } else {
        QueueOther(s.procs, s.q[lev], lev, p, r.procs[p]);
      }
      assert QueueInv(t, r.q[lev], lev);
      forall j | 0 <= j < NPROC ensures Queued(r.procs[j], lev) == Queued(t[j], lev) {}
    }
  }

  lemma RunStep(s: State, t: State, p: nat)
    requires Inv(s) && s.cpu.Idle? && Shape(t) && p < NPROC && s.procs[p].state.Runnable? && t == s.(q := t.q)
    requires if s.procs[p].isStride then t.q == s.q
             else HeadOf(s, p) && t.q == s.q[s.procs[p].lev := s.q[s.procs[p].lev][1..]]
    ensures Inv(Run(t, p)) && Run(t, p).cpu == On(p) && Run(t, p).total == s.total
    ensures forall j :: 0 <= j < NPROC ==> LiveTicket(Run(t, p).procs[j]) == LiveTicket(s.procs[j])
  {
    hide Queues; hide Tickets; hide MinUpto;
    RunKeepsInv(s, Run(t, p), p);
  }

  /** What dispatch chooses is runnable; in particular find_stride_proc never panics, and a queued
      process is run safely although its state is not looked at. */
  lemma DispatchKeepsInv(s: State)
    requires Inv(s) && s.cpu.Idle?
    ensures Inv(Dispatch(s)) && Dispatch(s).total == s.total
    ensures forall j :: 0 <= j < NPROC ==> LiveTicket(Dispatch(s).procs[j]) == LiveTicket(s.procs[j])
    ensures MinPass(s) != s.mlfqPass ==> FindStride(s, MinPass(s), 0) < NPROC
    ensures MinPass(s) != s.mlfqPass || FirstQueue(s) < 3 ==>
              Dispatch(s).cpu.On? && Dispatch(s).cpu.p < NPROC && s.procs[Dispatch(s).cpu.p].state.Runnable?
  {
    hide MinUpto; hide Run;
    MinUptoIsMin(s, NPROC);
    if MinPass(s) == s.mlfqPass {
      var lev := FirstQueue(s);
      if lev < 3 {
        var p := s.q[lev][0];
        assert QueueInv(s.procs, s.q[lev], lev);
        assert p in s.q[lev];
        hide Queues; hide QueueInv; hide Tickets; hide OneRunning;
        RunStep(s, s.(q := s.q[lev := s.q[lev][1..]]), p);
      }
    } else {
      hide Queues; hide QueueInv; hide Tickets; hide OneRunning;
      RunStep(s, s, FindStride(s, MinPass(s), 0));
    }
  }

  lemma StepKeepsInv(s: State, step: Step)
    requires Inv(s) && Enabled(s, step)
    ensures Inv(Do(s, step))
  {
    hide Queues; hide Tickets; hide OneRunning;
    match step
    case DispatchStep => DispatchKeepsInv(s);
    case TickStep => TickKeepsInv(s);
    case YieldStep => YieldKeepsInv(s);
    case SleepStep(chan) => SleepKeepsInv(s, chan);
    case WakeupStep(chan) => WakeUptoKeepsInv(s, chan, NPROC);
    case KillStep(pid) =>
      var p := FindPid(s, pid, 0);
      if p < NPROC && s.procs[p].state.Sleeping? { WakeOneKeepsInv(s, p); }
    case ShareStep(ticket) => ShareKeepsInv(s, ticket);
    case ExitStep(chans) => ExitKeepsInv(s, chans);
    case AllocStep(p, _) => ReplaceIdle(s, Do(s, step), p);
    case ForkFailStep(p) => ReplaceIdle(s, Do(s, step), p);
    case ForkDoneStep(p) => ForkKeepsInv(s, p);
    case ReapStep(p) => ReplaceIdle(s, Do(s, step), p);
  }

  // ---------- runs ----------

  /** After userinit: process 0 is queued at level 0, every other entry is unused. */
  ghost predicate Init(s: State) {
    && Shape(s) && s.cpu.Idle? && s.boost == 0 && s.total == 0 && s.mlfqPass == 0
    && s.mlfqTicket == TOTALTICKET && s.mlfqStride == LARGENUM / TOTALTICKET
    && s.q == [[0], [], []]
    && forall p :: 0 <= p < NPROC ==>
         s.procs[p] == Fresh(s.procs[p], if p == 0 then Runnable else Unused)
  }

  ghost predicate IsRun(run: seq<State>, steps: seq<Step>) {
    && |run| == |steps| + 1 && Init(run[0])
    && forall i :: 0 <= i < |steps| ==> Enabled(run[i], steps[i]) && run[i + 1] == Do(run[i], steps[i])
  }

  lemma InitInv(s: State)
    requires Init(s)
    ensures Inv(s)
  {
    forall k | 0 <= k <= NPROC ensures TicketSum(s.procs, k) == 0 { NoTickets(s.procs, k); }
  }

  lemma {:induction false} NoTickets(procs: seq<Proc>, k: nat)
    requires k <= |procs| && forall p :: 0 <= p < |procs| ==> !procs[p].isStride
    ensures TicketSum(procs, k) == 0
  {
    if k > 0 { NoTickets(procs, k - 1); }
  }

  lemma {:induction false} RunInv(run: seq<State>, steps: seq<Step>, i: nat)
    requires IsRun(run, steps) && i < |run|
    ensures Inv(run[i])
  {
    hide Inv; hide Do; hide Enabled;
    if i == 0 {
      InitInv(run[0]);
    } else {
      RunInv(run, steps, i - 1);
      StepKeepsInv(run[i - 1], steps[i - 1]);
    }
  }

  lemma Extend(run: seq<State>, steps: seq<Step>, step: Step)
    requires IsRun(run, steps) && Enabled(run[|run| - 1], step)
    ensures IsRun(run + [Do(run[|run| - 1], step)], steps + [step])
  {
    hide Do; hide Enabled; hide Init;
    var run', steps' := run + [Do(run[|run| - 1], step)], steps + [step];
    forall i | 0 <= i < |steps'| ensures Enabled(run'[i], steps'[i]) && run'[i + 1] == Do(run'[i], steps'[i]) {
      assert run'[i] == run[i];
      if i < |steps| { assert run'[i + 1] == run[i + 1]; }
    }
  }

  // ---------- room in the circular queues ----------

  /** Live processes that the MLFQ schedules. */
  ghost function MlfqProcs(s: State): (r: set<nat>) {
    set p: nat | p < |s.procs| && Live(s.procs[p]) && !s.procs[p].isStride
  }

  lemma {:induction false} NoDupSize(q: seq<nat>, m: set<nat>)
    requires NoDup(q) && forall x :: x in q ==> x in m
    ensures |q| <= |m|
  {
    if q != [] {
      var last := q[|q| - 1];
      assert last in q;
      NoDupSize(q[..|q| - 1], m - {last});
    }
  }

  /** Every queue fits its circular buffer, which holds NPROC - 1 entries. */
  predicate Fits(s: State) {
    Shape(s) && |s.q[0]| < NPROC && |s.q[1]| < NPROC && |s.q[2]| < NPROC
  }

  predicate AllQueued(procs: seq<Proc>, lev: int) {
    forall p :: 0 <= p < |procs| ==> Queued(procs[p], lev)
  }

  lemma {:induction false} LongEnough(q: seq<nat>, m: set<nat>)
    requires forall x :: x in m ==> x in q
    ensures |m| <= |q|
  {
    if q == [] {
      assert m == {};
    } else {
      var n := |q| - 1;
      LongEnough(q[..n], m - {q[n]});
      SubsetSize(m, (m - {q[n]}) + {q[n]});
    }
  }

  /** A queue needs its 64th slot exactly when every entry of the process table is a runnable process of its level. */
  lemma FullQueue(procs: seq<Proc>, q: seq<nat>, lev: int)
    requires |procs| == NPROC && QueueInv(procs, q, lev)
    ensures |q| <= NPROC && (|q| == NPROC <==> AllQueued(procs, lev))
  {
    var all := Range(0, NPROC);
    RangeSize(0, NPROC);
    assert forall x :: x in q ==> x in all;
    NoDupSize(q, all);
    if AllQueued(procs, lev) {
      LongEnough(q, all);
    } else {
      var p :| 0 <= p < NPROC && !Queued(procs[p], lev);
      NoDupSize(q, all - {p});
    }
  }

  /** When a routine of the kernel panics in enqueue: exactly when it would leave every entry of the table a runnable
      process of one level. */
  lemma OverflowExactly(s: State, step: Step)
    requires Inv(s) && Enabled(s, step)
    ensures !Fits(Do(s, step)) <==> exists lev :: 0 <= lev < 3 && AllQueued(Do(s, step).procs, lev)
  {
    StepKeepsInv(s, step);
    var r := Do(s, step);
    hide Do, Enabled, QueueInv, AllQueued;
    FullQueue(r.procs, r.q[0], 0);
    FullQueue(r.procs, r.q[1], 1);
    FullQueue(r.procs, r.q[2], 2);
  }

  /** While fewer than NPROC MLFQ processes are live, no enqueue finds its queue full. */
  lemma QueuesNeverOverflow(run: seq<State>, steps: seq<Step>, i: nat)
    requires IsRun(run, steps) && i < |run| && |MlfqProcs(run[i])| < NPROC
    ensures Fits(run[i])
  {
    hide Init; hide Do;
    RunInv(run, steps, i);
    var s := run[i];
    forall lev | 0 <= lev < 3 ensures |s.q[lev]| < NPROC {
      assert QueueInv(s.procs, s.q[lev], lev);
      NoDupSize(s.q[lev], MlfqProcs(s));
    }
  }

  /** After process 0 has forked `n` children, all of them are queued at level 0. */
  lemma {:induction false} Forked(n: nat) returns (run: seq<State>, steps: seq<Step>)
    requires n < NPROC
    ensures IsRun(run, steps)
    ensures var s := run[|run| - 1];
            && Shape(s) && s.cpu == On(0) && s.boost == 0 && |s.q[0]| == n
            && s.procs[0] == Fresh(s.procs[0], Running)
            && (forall p :: n < p < NPROC ==> s.procs[p].state.Unused?)
  {
    if n == 0 {
      run, steps := Start();
    } else {
      run, steps := Forked(n - 1);
      var s := run[|run| - 1];
      Extend(run, steps, AllocStep(n, n));
      var t := Do(s, AllocStep(n, n));
      run, steps := run + [t], steps + [AllocStep(n, n)];
      Extend(run, steps, ForkDoneStep(n));
      run, steps := run + [Do(t, ForkDoneStep(n))], steps + [ForkDoneStep(n)];
    }
  }

  lemma Start() returns (run: seq<State>, steps: seq<Step>)
    ensures IsRun(run, steps)
    ensures var s := run[|run| - 1];
            && Shape(s) && s.cpu == On(0) && s.boost == 0 && s.q[0] == []
            && s.procs[0] == Fresh(s.procs[0], Running)
            && (forall p :: 0 < p < NPROC ==> s.procs[p].state.Unused?)
  {
    var none := Proc(Unused, 0, 0, 0, 0, false, 0, 0, 0);
    var procs := seq(NPROC, p => if p == 0 then none.(state := Runnable) else none);
    var s := State(procs, [[0], [], []], Idle, 0, 0, 0, LARGENUM / TOTALTICKET, TOTALTICKET);
    run, steps := [s], [];
    assert Init(s);
    NoWaiting(s, NPROC);
    Extend(run, steps, DispatchStep);
    run, steps := run + [Do(s, DispatchStep)], steps + [DispatchStep];
  }

  lemma {:induction false} NoWaiting(s: State, k: nat)
    requires k <= |s.procs| && forall p :: 0 <= p < |s.procs| ==> !s.procs[p].isStride
    ensures MinUpto(s, k) == s.mlfqPass
  {
    if k > 0 { NoWaiting(s, k - 1); }
  }

  /** With all NPROC processes in the MLFQ the bound is lost: after 63 forks the parent's yield needs
      a 64th slot at level 0, where enqueue panics. */
  lemma FullTableOverflows() returns (run: seq<State>, steps: seq<Step>)
    ensures IsRun(run, steps) && Shape(run[|run| - 1]) && |run[|run| - 1].q[0]| == NPROC
  {
    run, steps := Forked(NPROC - 1);
    var s := run[|run| - 1];
    Extend(run, steps, YieldStep);
    run, steps := run + [Do(s, YieldStep)], steps + [YieldStep];
  }

  /** Never more than `b` live MLFQ processes. */
  ghost predicate PopulationKept(run: seq<State>, b: nat) {
    forall k :: 0 <= k < |run| ==> |MlfqProcs(run[k])| <= b
  }

  ghost predicate NeverOverflows(b: nat) {
    forall run: seq<State>, steps: seq<Step> | IsRun(run, steps) :: PopulationKept(run, b) ==> Fits(run[|run| - 1])
  }

  /** The exact limit: a bound on the live MLFQ processes rules out enqueue's panic in every run if and only if it is
      below NPROC. */
  lemma SafePopulation(b: nat)
    ensures NeverOverflows(b) <==> b < NPROC
  {
    if b < NPROC {
      hide IsRun, MlfqProcs;
      forall run: seq<State>, steps: seq<Step> | IsRun(run, steps) && PopulationKept(run, b)
        ensures run != [] && Fits(run[|run| - 1])
      {
        RunNonEmpty(run, steps);
        QueuesNeverOverflow(run, steps, |run| - 1);
      }
    } else {
      var run, steps := FullTableOverflows();
      forall k | 0 <= k < |run| ensures |MlfqProcs(run[k])| <= b {
        RunInv(run, steps, k);
        RangeSize(0, NPROC);
        SubsetSize(MlfqProcs(run[k]), Range(0, NPROC));
      }
      assert IsRun(run, steps) && PopulationKept(run, b);
    }
  }

  lemma RunNonEmpty(run: seq<State>, steps: seq<Step>)
    requires IsRun(run, steps)
    ensures run != []
  {
  }

  // ---------- tickets of the live stride processes ----------

  /** Shares handed out that no live process holds. */
  function Leak(s: State): (n: int)
    requires Shape(s)
  {
    s.total - TicketSum(s.procs, NPROC)
  }

  lemma {:induction false} WakeLeak(s: State, chan: nat, k: nat)
    requires Shape(s) && k <= NPROC
    ensures WakeUpto(s, chan, k).total == s.total
    ensures TicketSum(WakeUpto(s, chan, k).procs, NPROC) == TicketSum(s.procs, NPROC)
  {
    if k > 0 {
      WakeLeak(s, chan, k - 1);
      var t := WakeUpto(s, chan, k - 1);
      hide WakeUpto; hide TicketSum;
      if t.procs[k - 1].state.Sleeping? && t.procs[k - 1].chan == chan {
        TicketSumUpdate(t.procs, k - 1, WakeOne(t, k - 1).procs[k - 1], NPROC);
      }
      WakeStep(s, chan, k);
    }
  }

  lemma WakeStep(s: State, chan: nat, k: nat)
    requires Shape(s) && 0 < k <= NPROC
    ensures var t := WakeUpto(s, chan, k - 1);
            WakeUpto(s, chan, k) ==
              if t.procs[k - 1].state.Sleeping? && t.procs[k - 1].chan == chan then WakeOne(t, k - 1) else t
  {
  }

  lemma {:induction false} WakeEachLeak(s: State, chans: seq<nat>)
    requires Shape(s)
    ensures WakeEach(s, chans).total == s.total
    ensures TicketSum(WakeEach(s, chans).procs, NPROC) == TicketSum(s.procs, NPROC)
  {
    hide TicketSum; hide WakeUpto;
    if chans != [] {
      WakeEachLeak(s, chans[..|chans| - 1]);
      WakeLeak(WakeEach(s, chans[..|chans| - 1]), chans[|chans| - 1], NPROC);
    }
  }

  lemma CountTickLeak(s: State)
    requires Shape(s)
    ensures TicketSum(CountTick(s).procs, NPROC) == TicketSum(s.procs, NPROC)
  {
    hide TicketSum;
    if s.boost + 1 >= BOOSTLIMIT { TicketSumSame(s.procs, CountTick(s).procs, NPROC); }
  }

  /** A step that replaces the running process's record changes the sum by its live ticket. */
  lemma ReplaceLeak(s: State, r: State, p: nat)
    requires Shape(s) && Shape(r) && p < NPROC && r.procs == s.procs[p := r.procs[p]]
    ensures TicketSum(r.procs, NPROC) == TicketSum(s.procs, NPROC) + LiveTicket(r.procs[p]) - LiveTicket(s.procs[p])
  {
    TicketSumUpdate(s.procs, p, r.procs[p], NPROC);
  }

  lemma TickLeak(s: State)
    requires Inv(s) && s.cpu.On?
    ensures Leak(Tick(s)) == Leak(s)
  {
    var p := s.cpu.p;
    CountTickLeak(s);
    CountTickKeepsInv(s);
    CountTickSet(s, p, s.procs[p].(tick := s.procs[p].tick + 1));
    hide CountTick; hide Queues; hide TicketSum; hide Tickets;
    ReplaceLeak(CountTick(s), Tick(s), p);
  }

  lemma YieldLeak(s: State)
    requires Inv(s) && s.cpu.On?
    ensures Leak(Yield(s)) == Leak(s)
  {
    var p := s.cpu.p;
    CountTickLeak(s);
    CountTickKeepsInv(s);
    CountTickSet(s, p, s.procs[p].(state := Runnable));
    hide CountTick; hide Queues; hide TicketSum; hide Tickets;
    ReplaceLeak(CountTick(s), Yield(s), p);
  }

  lemma DispatchLeak(s: State)
    requires Inv(s) && s.cpu.Idle?
    ensures Leak(Dispatch(s)) == Leak(s)
  {
    DispatchKeepsInv(s);
    hide Inv; hide Dispatch; hide TicketSum; hide LiveTicket;
    assert Shape(s) && Shape(Dispatch(s)) by { InvShape(s); InvShape(Dispatch(s)); }
    TicketSumSame(s.procs, Dispatch(s).procs, NPROC);
  }

  lemma InvShape(s: State)
    requires Inv(s)
    ensures Shape(s)
  {
  }

  predicate AsksAgain(s: State, step: Step) {
    && step.ShareStep? && step.ticket + s.total <= MAXSTRIDETICKET
    && Shape(s) && s.cpu.On? && s.procs[s.cpu.p].isStride
  }

  /** Shares leak in one way only: a process that already has a share is granted another, and its
      first share is never given back. */
  lemma LeakStep(s: State, step: Step)
    requires Inv(s) && Enabled(s, step)
    ensures Leak(Do(s, step)) == Leak(s) + if AsksAgain(s, step) then s.procs[s.cpu.p].ticket else 0
  {
    hide Queues; hide TicketSum; hide MinPass; hide Tickets;
    hide StrideOf; hide WakeUpto; hide WakeEach; hide CountTick; hide Dispatch;
    hide Tick; hide Yield;
    var r := Do(s, step);
    match step
    case DispatchStep => DispatchLeak(s);
    case TickStep => TickLeak(s);
    case YieldStep => YieldLeak(s);
    case WakeupStep(chan) => WakeLeak(s, chan, NPROC);
    case KillStep(pid) =>
      var p := FindPid(s, pid, 0);
      if p < NPROC && s.procs[p].state.Sleeping? { ReplaceLeak(s, r, p); }
    case ExitStep(chans) =>
      WakeEachLeak(s, chans);
      WakeEachKeepsInv(s, chans);
      ReplaceLeak(WakeEach(s, chans), r, s.cpu.p);
    case SleepStep(_) => ReplaceLeak(s, r, s.cpu.p);
    case ShareStep(_) => ReplaceLeak(s, r, s.cpu.p);
    case AllocStep(p, _) => ReplaceLeak(s, r, p);
    case ForkFailStep(p) => ReplaceLeak(s, r, p);
    case ForkDoneStep(p) => ReplaceLeak(s, r, p);
    case ReapStep(p) => ReplaceLeak(s, r, p);
  }

  /** Whole runs: the total is the tickets of the live stride processes if and only if no process that had a
      share was ever granted another. */
  lemma {:induction false} ExactTickets(run: seq<State>, steps: seq<Step>, i: nat)
    requires IsRun(run, steps) && i < |run|
    ensures Shape(run[i]) && run[i].total >= TicketSum(run[i].procs, NPROC)
    ensures run[i].total == TicketSum(run[i].procs, NPROC) <==> forall k :: 0 <= k < i ==> !AsksAgain(run[k], steps[k])
  {
    hide Do; hide TicketSum; hide Queues;
    RunInv(run, steps, i);
    if i == 0 {
      NoTickets(run[0].procs, NPROC);
    } else {
      ExactTickets(run, steps, i - 1);
      RunInv(run, steps, i - 1);
      LeakStep(run[i - 1], steps[i - 1]);
      if AsksAgain(run[i - 1], steps[i - 1]) { HasTicket(run[i - 1]); }
    }
  }

  lemma HasTicket(s: State)
    requires Inv(s) && s.cpu.On? && s.procs[s.cpu.p].isStride
    ensures s.procs[s.cpu.p].ticket > 0
  {
    assert ProcOk(s.procs[s.cpu.p]);
  }
}
