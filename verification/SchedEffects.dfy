/** What one sees of each routine of the scheduler: the records, queues and counters before and after it, told in the
    kernel's own numbers. */
module SchedEffects {
  import opened Sched
  import opened SchedSafety

  // ---------- least passes and shares ----------

  /** `m` is the least pass of the MLFQ and of the stride processes that wait for the CPU. */
  ghost predicate Least(s: State, m: nat) {
    && m <= s.mlfqPass
    && (forall p :: 0 <= p < |s.procs| && s.procs[p].isStride && s.procs[p].state.Runnable? ==> m <= s.procs[p].pass)
    && (m == s.mlfqPass
        || exists p :: 0 <= p < |s.procs| && s.procs[p].isStride && s.procs[p].state.Runnable? && s.procs[p].pass == m)
  }

  lemma LeastPass(s: State, m: nat)
    requires |s.procs| == NPROC
    ensures Least(s, m) <==> m == MinPass(s)
  {
    MinUptoIsMin(s, NPROC);
    hide MinUpto;
    if MinPass(s) != s.mlfqPass {
      var p :| 0 <= p < NPROC && WaitingStride(s.procs[p]) && s.procs[p].pass == MinPass(s);
      assert s.procs[p].isStride && s.procs[p].state.Runnable?;
    }
    assert Least(s, MinPass(s));
    hide MinPass;
  }

  /** A stride is the large number divided by the tickets, rounded down. */
  predicate Share(stride: nat, ticket: int) {
    ticket > 0 && stride * ticket <= 10000 < (stride + 1) * ticket
  }

  lemma StrideIsShare(ticket: int)
    requires ticket > 0
    ensures Share(StrideOf(ticket), ticket)
  {
    var q := 10000 / ticket;
    assert q * ticket + 10000 % ticket == 10000;
    assert (q + 1) * ticket == q * ticket + ticket;
  }

  /** Every share in force is in proportion: those of the live stride processes and the MLFQ's. */
  ghost predicate Shares(s: State)
    requires Shape(s)
  {
    && Share(s.mlfqStride, s.mlfqTicket)
    && forall p :: 0 <= p < NPROC ==>
         s.procs[p].isStride
         && (s.procs[p].state.Sleeping? || s.procs[p].state.Runnable? || s.procs[p].state.Running?) ==>
         Share(s.procs[p].stride, s.procs[p].ticket)
  }

  lemma InvShares(s: State)
    requires Inv(s)
    ensures Shares(s)
  {
    hide Queues, StrideOf, TicketSum, Share;
    StrideIsShare(s.mlfqTicket);
    forall p | 0 <= p < NPROC && s.procs[p].isStride && Live(s.procs[p])
      ensures Share(s.procs[p].stride, s.procs[p].ticket)
    {
      assert ProcOk(s.procs[p]);
      StrideIsShare(s.procs[p].ticket);
    }
  }

  /** In every reachable state strides follow tickets. */
  lemma RunShares(run: seq<State>, steps: seq<Step>, i: nat)
    requires IsRun(run, steps) && i < |run|
    ensures Shape(run[i]) && Shares(run[i])
  {
    hide IsRun, Shares, Inv;
    RunInv(run, steps, i);
    InvShape(run[i]);
    InvShares(run[i]);
  }

  // ---------- waking ----------

  predicate Asleep(x: Proc, chan: nat) {
    x.state.Sleeping? && x.chan == chan
  }

  /** Entries `z` have been woken: a stride process at the least pass, an MLFQ process behind what was queued. */
  ghost predicate Woken(s: State, r: State, z: set<nat>) {
    && |s.procs| == |r.procs| == 64 && |s.q| == |r.q| == 3 && r == s.(procs := r.procs, q := r.q)
    && (forall p :: 0 <= p < 64 ==> WokenEntry(s, r, p, p in z))
    && (forall lev :: 0 <= lev < 3 ==> WokenQueue(s, r, z, lev))
  }

  ghost predicate WokenEntry(s: State, r: State, p: nat, woken: bool)
    requires p < |s.procs| == |r.procs|
  {
    var x, y := s.procs[p], r.procs[p];
    if !woken then y == x
    else if x.isStride then x.state.Sleeping? && y == x.(state := Runnable, pass := y.pass) && Least(s, y.pass)
    else x.state.Sleeping? && y == x.(state := Runnable)
  }

  ghost predicate WokenQueue(s: State, r: State, z: set<nat>, lev: nat)
    requires lev < |s.q| == |r.q|
  {
    && |s.q[lev]| <= |r.q[lev]| && r.q[lev][..|s.q[lev]|] == s.q[lev]
    && forall p :: p in r.q[lev][|s.q[lev]|..] <==>
         p in z && p < |s.procs| && !s.procs[p].isStride && s.procs[p].lev == lev
  }

  /** Those woken by one wakeup are queued in the order of the table. */
  ghost predicate TableOrder(s: State, r: State) {
    && |s.q| == |r.q| == 3
    && forall lev, i, j :: 0 <= lev < 3 && |s.q[lev]| <= i < j < |r.q[lev]| ==> r.q[lev][i] < r.q[lev][j]
  }

  function Sleepers(s: State, chan: nat, k: nat): (z: set<nat>)
    requires k <= |s.procs|
  {
    set p: nat | p < k && Asleep(s.procs[p], chan)
  }

  /** Waking at the least pass leaves the least pass as it is. */
  lemma LeastThrough(s: State, t: State, z: set<nat>, m: nat)
    requires Woken(s, t, z)
    ensures Least(s, m) <==> Least(t, m)
  {
    hide WokenQueue;
    LeastPass(s, MinPass(s));
    LeastForth(s, t, z, MinPass(s));
    LeastPass(t, MinPass(s));
    LeastPass(s, m);
    LeastPass(t, m);
  }

  lemma LeastForth(s: State, t: State, z: set<nat>, m: nat)
    requires Woken(s, t, z) && Least(s, m)
    ensures Least(t, m)
  {
    hide WokenQueue, MinPass;
    LeastPass(s, m);
    forall p | 0 <= p < NPROC && t.procs[p].isStride && t.procs[p].state.Runnable? ensures m <= t.procs[p].pass {
      assert WokenEntry(s, t, p, p in z);
      if p in z { LeastPass(s, t.procs[p].pass); }
    }
    if m != s.mlfqPass {
      var p :| 0 <= p < |s.procs| && s.procs[p].isStride && s.procs[p].state.Runnable? && s.procs[p].pass == m;
      assert WokenEntry(s, t, p, p in z);
    }
  }

  /** Waking some and then others is waking all of them. */
  lemma WokenJoin(s: State, t: State, u: State, y: set<nat>, z: set<nat>)
    requires Woken(s, t, y) && Woken(t, u, z)
    ensures Woken(s, u, y + z)
  {
    hide Least;
    forall p | 0 <= p < 64 ensures WokenEntry(s, u, p, p in y + z) {
      assert WokenEntry(s, t, p, p in y) && WokenEntry(t, u, p, p in z);
      LeastThrough(s, t, y, u.procs[p].pass);
    }
    forall lev | 0 <= lev < 3 ensures WokenQueue(s, u, y + z, lev) { WokenQueueJoin(s, t, u, y, z, lev); }
  }

  lemma WokenQueueJoin(s: State, t: State, u: State, y: set<nat>, z: set<nat>, lev: nat)
    requires Woken(s, t, y) && Woken(t, u, z) && lev < 3
    ensures WokenQueue(s, u, y + z, lev)
  {
    hide Least;
    assert WokenQueue(s, t, y, lev) && WokenQueue(t, u, z, lev);
    var a, b, c := s.q[lev], t.q[lev], u.q[lev];
    assert c[..|a|] == c[..|b|][..|a|] == a;
    assert c[|a|..] == c[..|b|][|a|..] + c[|b|..];
    forall p ensures p in c[|a|..] <==> p in y + z && p < |s.procs| && !s.procs[p].isStride && s.procs[p].lev == lev {
      if 0 <= p < 64 { assert WokenEntry(s, t, p, p in y); }
    }
  }

  lemma WokenNone(s: State)
    requires Shape(s)
    ensures Woken(s, s, {})
  {
  }

  /** One entry woken. */
  lemma WokenOne(s: State, p: nat)
    requires Shape(s) && p < NPROC && s.procs[p].state.Sleeping?
    ensures Woken(s, WakeOne(s, p), {p}) && TableOrder(s, WakeOne(s, p))
  {
    LeastPass(s, MinPass(s));
    hide MinPass, Least;
    var r := WakeOne(s, p);
    forall lev | 0 <= lev < 3 ensures WokenQueue(s, r, {p}, lev) {
      if !s.procs[p].isStride && s.procs[p].lev == lev {
        assert r.q[lev] == s.q[lev] + [p];
        assert r.q[lev][..|s.q[lev]|] == s.q[lev] && r.q[lev][|s.q[lev]|..] == [p];
      } else {
        assert r.q[lev] == s.q[lev] && r.q[lev][|s.q[lev]|..] == [];
      }
    }
  }

  lemma {:induction false} WakesUpto(s: State, chan: nat, k: nat)
    requires Shape(s) && k <= NPROC
    ensures Woken(s, WakeUpto(s, chan, k), Sleepers(s, chan, k)) && TableOrder(s, WakeUpto(s, chan, k))
  {
    hide WakeOne, Woken;
    if k == 0 {
      assert Sleepers(s, chan, 0) == {};
      WokenNone(s);
    } else {
      var t, r, z := WakeUpto(s, chan, k - 1), WakeUpto(s, chan, k), Sleepers(s, chan, k - 1);
      WakesUpto(s, chan, k - 1);
      WokenStays(s, t, z, k - 1);
      WakeStep(s, chan, k);
      if Asleep(s.procs[k - 1], chan) {
        WokenOne(t, k - 1);
        WokenJoin(s, t, r, z, {k - 1});
        assert Sleepers(s, chan, k) == z + {k - 1};
        OrderMore(s, t, r, z, k - 1);
      } else {
        assert Sleepers(s, chan, k) == z;
      }
    }
  }

  lemma WokenStays(s: State, t: State, z: set<nat>, p: nat)
    requires Woken(s, t, z) && p < 64 && p !in z
    ensures |t.procs| == |s.procs| == 64 && t.procs[p] == s.procs[p]
  {
    assert WokenEntry(s, t, p, p in z);
  }

  /** The entry woken next comes later in the table than those woken before. */
  lemma OrderMore(s: State, t: State, r: State, z: set<nat>, p: nat)
    requires Woken(s, t, z) && Woken(t, r, {p}) && TableOrder(s, t) && forall x :: x in z ==> x < p
    requires Shape(t) && p < 64 && t.procs[p].state.Sleeping? && r == WakeOne(t, p)
    ensures TableOrder(s, r)
  {
    hide MinPass, Least;
    forall lev, i, j | 0 <= lev < 3 && |s.q[lev]| <= i < j < |r.q[lev]| ensures r.q[lev][i] < r.q[lev][j] {
      assert WokenQueue(s, t, z, lev);
      assert r.q[lev] == t.q[lev] || r.q[lev] == t.q[lev] + [p];
      assert t.q[lev][i] in t.q[lev][|s.q[lev]|..];
    }
  }

  /** wakeup: no entry sleeps on the channel any more; those that did are runnable, in the order of the table, and
      nothing else has changed. */
  lemma WakeupWakes(s: State, chan: nat)
    requires Shape(s)
    ensures Woken(s, Wakeup(s, chan), Sleepers(s, chan, 64)) && TableOrder(s, Wakeup(s, chan))
    ensures forall p :: 0 <= p < 64 ==> !Asleep(Wakeup(s, chan).procs[p], chan)
  {
    var r, z := Wakeup(s, chan), Sleepers(s, chan, 64);
    WakesUpto(s, chan, 64);
    hide WakeUpto;
    forall p | 0 <= p < 64 ensures !Asleep(r.procs[p], chan) { assert WokenEntry(s, r, p, p in z); }
  }

  /** wakeup, kill and exit, as relations. */
  ghost predicate WakesUp(s: State, r: State, chan: nat) {
    |s.procs| == 64 && Woken(s, r, Sleepers(s, chan, 64)) && TableOrder(s, r)
  }

  predicate FirstWithPid(s: State, pid: nat, p: nat) {
    p < |s.procs| && s.procs[p].pid == pid && forall j :: 0 <= j < p ==> s.procs[j].pid != pid
  }

  ghost predicate KillsEntry(s: State, r: State, p: nat)
    requires p < |s.procs|
  {
    if s.procs[p].state.Sleeping? then Woken(s, r, {p}) && TableOrder(s, r) else r == s
  }

  /** The first entry with the pid, if it sleeps, is woken; nothing happens without one. */
  ghost predicate Kills(s: State, r: State, pid: nat) {
    if forall p :: 0 <= p < |s.procs| ==> s.procs[p].pid != pid then r == s
    else exists p: nat :: FirstWithPid(s, pid, p) && KillsEntry(s, r, p)
  }

  lemma {:induction false} FindPidFirst(s: State, pid: nat, k: nat)
    requires k <= |s.procs| == NPROC
    ensures var p := FindPid(s, pid, k);
      k <= p <= NPROC && (p < NPROC ==> s.procs[p].pid == pid) && forall j :: k <= j < p ==> s.procs[j].pid != pid
    decreases NPROC - k
  {
    if k < NPROC && s.procs[k].pid != pid { FindPidFirst(s, pid, k + 1); }
  }

  lemma KillKills(s: State, pid: nat)
    requires Shape(s)
    ensures Kills(s, Kill(s, pid), pid)
  {
    var p := FindPid(s, pid, 0);
    FindPidFirst(s, pid, 0);
    hide Woken, WakeOne;
    if p < NPROC {
      if s.procs[p].state.Sleeping? { WokenOne(s, p); }
      assert FirstWithPid(s, pid, p) && KillsEntry(s, Kill(s, pid), p);
    }
  }

  /** One wakeup after the other. */
  ghost predicate WakesInTurn(s: State, r: State, chans: seq<nat>)
    decreases |chans|
  {
    if chans == [] then r == s
    else exists t :: WakesLast(t, r, chans) && WakesInTurn(s, t, chans[..|chans| - 1])
  }

  ghost predicate WakesLast(s: State, r: State, chans: seq<nat>)
    requires chans != []
  {
    WakesUp(s, r, chans[|chans| - 1])
  }

  lemma {:induction false} WakeEachWakes(s: State, chans: seq<nat>)
    requires Shape(s)
    ensures WakesInTurn(s, WakeEach(s, chans), chans)
  {
    if chans != [] {
      var init := chans[..|chans| - 1];
      WakeEachWakes(s, init);
      WakeupWakes(WakeEach(s, init), chans[|chans| - 1]);
      hide WakesUp, Wakeup;
      assert WakesLast(WakeEach(s, init), WakeEach(s, chans), chans);
    }
  }

  /** Those asleep on one of the channels. */
  function SleepersOn(s: State, chans: seq<nat>): (z: set<nat>) {
    set p: nat | p < |s.procs| && s.procs[p].state.Sleeping? && s.procs[p].chan in chans
  }

  /** Whatever the order, everyone asleep on one of the channels has been woken, and no one else. */
  lemma {:induction false} InTurnWakesAll(s: State, r: State, chans: seq<nat>)
    requires Shape(s) && WakesInTurn(s, r, chans)
    ensures Woken(s, r, SleepersOn(s, chans))
    decreases |chans|
  {
    hide Woken, TableOrder;
    if chans == [] {
      assert SleepersOn(s, chans) == {};
      WokenNone(s);
    } else {
      var init, c := chans[..|chans| - 1], chans[|chans| - 1];
      var t :| WakesLast(t, r, chans) && WakesInTurn(s, t, init);
      InTurnWakesAll(s, t, init);
      WokenJoin(s, t, r, SleepersOn(s, init), Sleepers(t, c, 64));
      forall p: nat | p < 64 ensures p in SleepersOn(s, init) + Sleepers(t, c, 64) <==> p in SleepersOn(s, chans) {
        StillAsleep(s, t, init, p);
        assert chans == init + [c];
      }
      WokenShape(t, r, Sleepers(t, c, 64));
      assert SleepersOn(s, init) + Sleepers(t, c, 64) == SleepersOn(s, chans);
    }
  }

  lemma WokenShape(s: State, r: State, z: set<nat>)
    requires Woken(s, r, z)
    ensures |s.procs| == |r.procs| == 64 && |s.q| == |r.q| == 3
  {
  }

  lemma StillAsleep(s: State, t: State, chans: seq<nat>, p: nat)
    requires |s.procs| == 64 && Woken(s, t, SleepersOn(s, chans)) && p < 64
    ensures |t.procs| == 64 && (p in SleepersOn(s, chans) ==> !t.procs[p].state.Sleeping?)
    ensures p !in SleepersOn(s, chans) ==> t.procs[p] == s.procs[p]
  {
    assert WokenEntry(s, t, p, p in SleepersOn(s, chans));
  }

  /** exit: the channels' sleepers are woken, the share goes back to the MLFQ, the process is a zombie. */
  ghost predicate Exits(s: State, r: State, chans: seq<nat>) {
    exists t :: WakesInTurn(s, t, chans) && Leaves(t, r)
  }

  ghost predicate Leaves(t: State, r: State) {
    && |t.procs| == 64 && t.cpu.On? && t.cpu.p < 64
    && r == t.(procs := t.procs[t.cpu.p := t.procs[t.cpu.p].(state := Zombie)], cpu := Idle, total := r.total,
               mlfqTicket := r.mlfqTicket, mlfqStride := r.mlfqStride)
    && GivesBack(t, r, t.procs[t.cpu.p])
  }

  /** The tickets of a stride process become the MLFQ's. */
  ghost predicate GivesBack(t: State, r: State, x: Proc) {
    var n := if x.isStride then x.ticket else 0;
    && r.total == t.total - n && r.mlfqTicket == t.mlfqTicket + n
    && if x.isStride then Share(r.mlfqStride, r.mlfqTicket) else r.mlfqStride == t.mlfqStride
  }

  lemma ExitExits(s: State, chans: seq<nat>)
    requires Inv(s) && s.cpu.On?
    ensures Exits(s, Exit(s, chans), chans)
  {
    var t := WakeEach(s, chans);
    WakeEachWakes(s, chans);
    WakeEachKeepsInv(s, chans);
    assert ProcOk(t.procs[s.cpu.p]) && t.cpu == s.cpu;
    hide WakesInTurn, WakeEach, Queues, TicketSum, Share;
    if t.procs[s.cpu.p].isStride { StrideIsShare(t.mlfqTicket + t.procs[s.cpu.p].ticket); }
    assert Leaves(t, Exit(s, chans)) by { hide StrideOf; }
  }

  // ---------- sleeping ----------

  /** sleep: the process waits on the channel it was given and has left the CPU. */
  ghost predicate Sleeps(s: State, r: State, chan: nat) {
    && s.cpu.On? && s.cpu.p < |s.procs|
    && r == s.(procs := s.procs[s.cpu.p := s.procs[s.cpu.p].(state := Sleeping, chan := chan)], cpu := Idle)
  }
}
