/** The combined MLFQ and stride scheduler as a state machine for one CPU: the process table, the
    three MLFQ queues, and one function for each thing the kernel does to them. */
module Sched {
  const NPROC := 64
  const LARGENUM := 10000
  const TOTALTICKET := 100
  const MAXSTRIDETICKET := 80
  const BOOSTLIMIT := 100
  const MAXPASS := 0x0fffffff
  const UINTMAX := 0xffffffff

  datatype PState = Unused | Embryo | Sleeping | Runnable | Running | Zombie

  datatype Proc = Proc(state: PState, pid: nat, chan: nat, lev: int, tick: nat,
                       isStride: bool, stride: nat, pass: nat, ticket: nat)

  datatype Cpu = Idle | On(p: nat)

  datatype State = State(procs: seq<Proc>, q: seq<seq<nat>>, cpu: Cpu, boost: nat,
                         total: int, mlfqPass: nat, mlfqStride: nat, mlfqTicket: int)

  function Quantum(lev: int): (n: nat)
    ensures n > 0
  {
    if lev == 0 then 1 else if lev == 1 then 2 else 4
  }

  function Allotment(lev: int): (n: nat) {
    if lev == 0 then 5 else if lev == 1 then 10 else UINTMAX
  }

  predicate Shape(s: State) {
    |s.procs| == NPROC && |s.q| == 3 && (s.cpu.On? ==> s.cpu.p < NPROC)
  }

  function SetProc(s: State, p: nat, x: Proc): (r: State)
    requires p < |s.procs|
  {
    s.(procs := s.procs[p := x])
  }

  function Enqueue(s: State, lev: int, p: nat): (r: State)
    requires |s.q| == 3
  {
    if 0 <= lev < 3 then s.(q := s.q[lev := s.q[lev] + [p]]) else s
  }

  // ---------- passes ----------

  predicate WaitingStride(x: Proc) {
    x.isStride && x.state.Runnable?
  }

  /** get_min_pass over the first `k` table entries. */
  function MinUpto(s: State, k: nat): (m: nat)
    requires k <= |s.procs|
  {
    if k == 0 then s.mlfqPass
    else
      var m := MinUpto(s, k - 1);
      if WaitingStride(s.procs[k - 1]) && s.procs[k - 1].pass < m then s.procs[k - 1].pass else m
  }

  function MinPass(s: State): (m: nat)
    requires |s.procs| == NPROC
  {
    MinUpto(s, NPROC)
  }

  /** find_stride_proc from entry `k` on; NPROC when the search fails. */
  function FindStride(s: State, min: nat, k: nat): (p: nat)
    requires k <= |s.procs| == NPROC
    ensures p <= NPROC
    ensures p < NPROC ==> WaitingStride(s.procs[p]) && s.procs[p].pass == min
    ensures p == NPROC ==> forall j :: k <= j < NPROC ==> !(WaitingStride(s.procs[j]) && s.procs[j].pass == min)
    decreases NPROC - k
  {
    if k == NPROC then NPROC
    else if WaitingStride(s.procs[k]) && s.procs[k].pass == min then k
    else FindStride(s, min, k + 1)
  }

  // ---------- queues ----------

  /** find_mlfq_proc: the first queue that is not empty; 3 when all are. */
  function FirstQueue(s: State): (lev: nat)
    requires |s.q| == 3
    ensures lev <= 3
  {
    if s.q[0] != [] then 0 else if s.q[1] != [] then 1 else if s.q[2] != [] then 2 else 3
  }

  function BoostProc(x: Proc): (r: Proc) {
    if x.isStride || x.lev == 0 then x else x.(lev := 0, tick := 0)
  }

  /** priority_boost: every non-stride process back to level 0, levels 1 then 2 queued behind it. */
  function Boost(s: State): (r: State)
    requires Shape(s)
  {
    s.(procs := seq(NPROC, p requires 0 <= p < NPROC => BoostProc(s.procs[p])),
       q := [s.q[0] + s.q[1] + s.q[2], [], []], boost := 0)
  }

  function CountTick(s: State): (r: State)
    requires Shape(s)
  {
    var t := s.(boost := s.boost + 1);
    if t.boost >= BOOSTLIMIT then Boost(t) else t
  }

  // ---------- what the kernel does ----------

  /** wakeup1 or kill on entry `p`, which is sleeping. */
  function WakeOne(s: State, p: nat): (r: State)
    requires Shape(s) && p < NPROC
  {
    var x := s.procs[p];
    if x.isStride then SetProc(s, p, x.(pass := MinPass(s), state := Runnable))
    else SetProc(Enqueue(s, x.lev, p), p, x.(state := Runnable))
  }

  /** wakeup1 after the first `k` entries. */
  function WakeUpto(s: State, chan: nat, k: nat): (r: State)
    requires Shape(s) && k <= NPROC
    ensures Shape(r)
  {
    if k == 0 then s
    else
      var t := WakeUpto(s, chan, k - 1);
      if t.procs[k - 1].state.Sleeping? && t.procs[k - 1].chan == chan then WakeOne(t, k - 1) else t
  }

  function Wakeup(s: State, chan: nat): (r: State)
    requires Shape(s)
    ensures Shape(r)
  {
    WakeUpto(s, chan, NPROC)
  }

  function WakeEach(s: State, chans: seq<nat>): (r: State)
    requires Shape(s)
    ensures Shape(r)
  {
    if chans == [] then s else Wakeup(WakeEach(s, chans[..|chans| - 1]), chans[|chans| - 1])
  }

  /** First entry with this pid, or NPROC. */
  function FindPid(s: State, pid: nat, k: nat): (p: nat)
    requires k <= |s.procs| == NPROC
    ensures p <= NPROC && (p < NPROC ==> s.procs[p].pid == pid)
    decreases NPROC - k
  {
    if k == NPROC then NPROC else if s.procs[k].pid == pid then k else FindPid(s, pid, k + 1)
  }

  function Kill(s: State, pid: nat): (r: State)
    requires Shape(s)
  {
    var p := FindPid(s, pid, 0);
    if p < NPROC && s.procs[p].state.Sleeping? then WakeOne(s, p) else s
  }

  /** The level change at the end of a time slice, in yield. */
  function Demote(x: Proc): (r: Proc) {
    if x.lev < 2 && x.tick >= Allotment(x.lev) then x.(lev := x.lev + 1, tick := 0)
    else if x.lev == 2 && x.tick >= Quantum(2) then x.(tick := 0)
    else x
  }

  function Yield(s: State): (r: State)
    requires Shape(s) && s.cpu.On?
    ensures Shape(r)
  {
    var p := s.cpu.p;
    var t := CountTick(SetProc(s, p, s.procs[p].(state := Runnable)));
    var x := t.procs[p].(tick := t.procs[p].tick + 1);
    if x.isStride then SetProc(t, p, x.(pass := x.pass + x.stride)).(cpu := Idle)
    else
      var y := Demote(x);
      Enqueue(SetProc(t, p, y), y.lev, p).(cpu := Idle, mlfqPass := t.mlfqPass + t.mlfqStride)
  }

  /** tick_yield: level 2 always starts its slice afresh. */
  function TickYield(s: State): (r: State)
    requires Shape(s) && s.cpu.On?
  {
    var p := s.cpu.p;
    var x := s.procs[p].(state := Runnable);
    if x.isStride then SetProc(s, p, x).(cpu := Idle)
    else
      var y := if x.lev < 2 && x.tick >= Allotment(x.lev) then x.(lev := x.lev + 1, tick := 0)
               else if x.lev == 2 then x.(tick := 0) else x;
      Enqueue(SetProc(s, p, y), y.lev, p).(cpu := Idle)
  }

  /** The timer branch of trap. */
  function Tick(s: State): (r: State)
    requires Shape(s) && s.cpu.On?
    ensures Shape(r)
  {
    var p := s.cpu.p;
    var t := CountTick(SetProc(s, p, s.procs[p].(tick := s.procs[p].tick + 1)));
    var x := t.procs[p];
    if x.isStride then TickYield(SetProc(t, p, x.(pass := x.pass + x.stride)))
    else
      var u := t.(mlfqPass := t.mlfqPass + t.mlfqStride);
      if x.tick % Quantum(x.lev) == 0 then TickYield(u) else u
  }

  function Sleep(s: State, chan: nat): (r: State)
    requires Shape(s) && s.cpu.On?
  {
    SetProc(s, s.cpu.p, s.procs[s.cpu.p].(state := Sleeping, chan := chan)).(cpu := Idle)
  }

  /** LARGENUM / ticket; the invariant keeps `ticket` positive. */
  function StrideOf(ticket: int): (n: nat) {
    if ticket > 0 then LARGENUM / ticket else 0
  }

  /** set_cpu_share by the running process; requests are at least 1. */
  function SetShare(s: State, ticket: nat): (r: State)
    requires Shape(s) && s.cpu.On? && ticket > 0
  {
    if ticket + s.total > MAXSTRIDETICKET then s
    else
      var p := s.cpu.p;
      var t := SetProc(s, p, s.procs[p].(lev := -1, tick := 0, isStride := true, ticket := ticket,
                                         stride := StrideOf(ticket)));
      SetProc(t, p, t.procs[p].(pass := MinPass(t))).(
        total := s.total + ticket, mlfqTicket := s.mlfqTicket - ticket,
        mlfqStride := StrideOf(s.mlfqTicket - ticket))
  }

  function Exit(s: State, chans: seq<nat>): (r: State)
    requires Shape(s) && s.cpu.On?
  {
    var t := WakeEach(s, chans);
    var x := t.procs[s.cpu.p];
    var u := SetProc(t, s.cpu.p, x.(state := Zombie)).(cpu := Idle);
    if x.isStride then
      u.(total := t.total - x.ticket, mlfqTicket := t.mlfqTicket + x.ticket,
         mlfqStride := StrideOf(t.mlfqTicket + x.ticket))
    else u
  }

  /** allocproc, and the failure and success of fork afterwards. */
  function Alloc(s: State, p: nat, pid: nat): (r: State)
    requires Shape(s) && p < NPROC
  {
    SetProc(s, p, s.procs[p].(state := Embryo, pid := pid))
  }

  function ForkFail(s: State, p: nat): (r: State)
    requires Shape(s) && p < NPROC
  {
    SetProc(s, p, s.procs[p].(state := Unused))
  }

  function Fresh(x: Proc, state: PState): (r: Proc) {
    x.(state := state, lev := 0, tick := 0, isStride := false, stride := 0, pass := 0, ticket := 0)
  }

  function ForkDone(s: State, p: nat): (r: State)
    requires Shape(s) && p < NPROC
  {
    Enqueue(SetProc(s, p, Fresh(s.procs[p], Runnable)), 0, p)
  }

  /** wait finding the zombie `p`. */
  function Reap(s: State, p: nat): (r: State)
    requires Shape(s) && p < NPROC
  {
    SetProc(s, p, Fresh(s.procs[p], Unused).(pid := 0))
  }

  /** init_pass: every process that has a stride restarts at pass 0, and so does the MLFQ. */
  function InitPass(s: State): (r: State)
    requires Shape(s)
  {
    s.(mlfqPass := 0, procs := seq(NPROC, p requires 0 <= p < NPROC =>
      if s.procs[p].stride != 0 then s.procs[p].(pass := 0) else s.procs[p]))
  }

  predicate Resets(s: State)
    requires Shape(s)
  {
    s.mlfqPass >= MAXPASS && MinPass(s) >= MAXPASS
  }

  function Run(s: State, p: nat): (r: State)
    requires Shape(s) && p < NPROC
    ensures Shape(r)
  {
    var t := if Resets(s) then InitPass(s) else s;
    SetProc(t, p, t.procs[p].(state := Running)).(cpu := On(p))
  }

  /** One round of scheduler's loop. The head of a queue is run without looking at its state. */
  function Dispatch(s: State): (r: State)
    requires Shape(s)
    ensures Shape(r)
  {
    if MinPass(s) == s.mlfqPass then
      var lev := FirstQueue(s);
      if lev == 3 then s.(mlfqPass := s.mlfqPass + s.mlfqStride)
      else
        var p := s.q[lev][0];
        var t := s.(q := s.q[lev := s.q[lev][1..]]);
        if p < NPROC then Run(t, p) else t
    else
      var p := FindStride(s, MinPass(s), 0);
      if p < NPROC then Run(s, p) else s
  }

  datatype Step =
    | DispatchStep
    | TickStep
    | YieldStep
    | SleepStep(chan: nat)
    | WakeupStep(chan: nat)
    | KillStep(pid: nat)
    | ShareStep(ticket: nat)
    | ExitStep(chans: seq<nat>)
    | AllocStep(p: nat, pid: nat)
    | ForkFailStep(p: nat)
    | ForkDoneStep(p: nat)
    | ReapStep(p: nat)

  predicate Enabled(s: State, step: Step) {
    Shape(s) &&
    match step
    case DispatchStep => s.cpu.Idle?
    case TickStep => s.cpu.On?
    case YieldStep => s.cpu.On?
    case SleepStep(_) => s.cpu.On?
    case WakeupStep(_) => true
    case KillStep(_) => true
    case ShareStep(ticket) => s.cpu.On? && ticket > 0
    case ExitStep(_) => s.cpu.On?
    case AllocStep(p, _) => s.cpu.On? && p < NPROC && s.procs[p].state.Unused?
    case ForkFailStep(p) => s.cpu.On? && p < NPROC && s.procs[p].state.Embryo?
    case ForkDoneStep(p) => s.cpu.On? && p < NPROC && s.procs[p].state.Embryo?
    case ReapStep(p) => s.cpu.On? && p < NPROC && s.procs[p].state.Zombie?
  }

  function Do(s: State, step: Step): (r: State)
    requires Enabled(s, step)
    ensures Shape(r)
  {
    match step
    case DispatchStep => Dispatch(s)
    case TickStep => Tick(s)
    case YieldStep => Yield(s)
    case SleepStep(chan) => Sleep(s, chan)
    case WakeupStep(chan) => Wakeup(s, chan)
    case KillStep(pid) => Kill(s, pid)
    case ShareStep(ticket) => SetShare(s, ticket)
    case ExitStep(chans) => Exit(s, chans)
    case AllocStep(p, pid) => Alloc(s, p, pid)
    case ForkFailStep(p) => ForkFail(s, p)
    case ForkDoneStep(p) => ForkDone(s, p)
    case ReapStep(p) => Reap(s, p)
  }
}
