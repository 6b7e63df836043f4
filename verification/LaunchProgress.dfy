/**
  What the launch protocol does not get stuck on: gate ends close with the launch, a worker whose
  launch was cut off sees that, no worker is refused its inherited lock, and every process can always
  come to its end by steps of its own.
*/
module LaunchProgress {
  import opened LaunchProtocol

  // ------------------------------------------------------------ the ends of the gate

  /** Which ends of its gate a process may still have open at its program point. */
  predicate GateEnds(q: Proc) {
    && (!q.role.Launcher? ==> !q.gateW) && (q.role.Foreground? ==> !q.gateR)
    && (q.role.Launcher? && BeforeFork(q.pc) && !q.pc.Piped? ==> !q.gateR && !q.gateW)
    && (q.pc.Reaping? || q.pc.Reaped? ==> !q.gateW)
    && (q.pc.Drained? || q.pc.Done? || !q.alive ==> !q.gateR && !q.gateW)
  }

  predicate GatesAt(s: State, p: Id) { p in s.procs ==> GateEnds(s.procs[p]) }

  ghost predicate Gates(s: State) { forall p {:trigger GatesAt(s, p)} :: GatesAt(s, p) }

  lemma MoveGates(s: State, t: State, q: Id, to: Pc, p: Id)
    requires Moves(s, t, q, to) && GatesAt(s, p) && (p in s.procs ==> PcFits(s.procs[p].role, s.procs[p].pc))
    ensures GatesAt(t, p)
  {
  }

  lemma OwnerGates(s: State, t: State, q: Id, a: OwnerStep, p: Id)
    requires OwnerNext(s, t, q, a) && GatesAt(s, p) && (p in s.procs ==> PcFits(s.procs[p].role, s.procs[p].pc))
    ensures GatesAt(t, p)
  {
    match a
    case CloseLock => CloseLockGates(s, t, q, p);
    case CloseGates => CloseGatesGates(s, t, q, p);
    case LinkChild => WorkingGates(s, t, q, a, p);
    case StartAttempt(_) => WorkingGates(s, t, q, a, p);
    case EndAttempt(_) => WorkingGates(s, t, q, a, p);
    case SelfClear => WorkingGates(s, t, q, a, p);
    case _ => RecoveringGates(s, t, q, a, p);
  }

  lemma CloseLockGates(s: State, t: State, q: Id, p: Id)
    requires ClosesLock(s, t, q) && GatesAt(s, p) && (p in s.procs ==> PcFits(s.procs[p].role, s.procs[p].pc))
    ensures GatesAt(t, p)
  {
  }

  lemma CloseGatesGates(s: State, t: State, q: Id, p: Id)
    requires ClosesGates(s, t, q) && GatesAt(s, p)
    ensures GatesAt(t, p)
  {
  }

  lemma WorkingGates(s: State, t: State, q: Id, a: OwnerStep, p: Id)
    requires OwnerNext(s, t, q, a) && (a.LinkChild? || a.StartAttempt? || a.EndAttempt? || a.SelfClear?) && GatesAt(s, p)
    ensures GatesAt(t, p)
  {
  }

  lemma RecoveringGates(s: State, t: State, q: Id, a: OwnerStep, p: Id)
    requires OwnerNext(s, t, q, a) && (a.OpenLock? || a.Flock? || a.Sweep? || a.Release? || a.ReleaseChild?) && GatesAt(s, p)
    ensures GatesAt(t, p)
  {
  }

  lemma LauncherGates(s: State, t: State, q: Id, a: LauncherStep, p: Id)
    requires LauncherNext(s, t, q, a) && GatesAt(s, p) && (p in s.procs ==> PcFits(s.procs[p].role, s.procs[p].pc))
    ensures GatesAt(t, p)
  {
    if a.Fork? || a.KillChild? {
      ChildGates(s, t, q, a, p);
    } else if a.MakePipe? || a.CloseRead? || a.CloseGate? {
      EndGates(s, t, q, a, p);
    } else {
      StoreGates(s, t, q, a, p);
    }
  }

  lemma ChildGates(s: State, t: State, q: Id, a: LauncherStep, p: Id)
    requires LauncherNext(s, t, q, a) && (a.Fork? || a.KillChild?)
    requires GatesAt(s, p) && (p in s.procs ==> PcFits(s.procs[p].role, s.procs[p].pc))
    ensures GatesAt(t, p)
  {
  }

  lemma EndGates(s: State, t: State, q: Id, a: LauncherStep, p: Id)
    requires LauncherNext(s, t, q, a) && (a.MakePipe? || a.CloseRead? || a.CloseGate?)
    requires GatesAt(s, p) && (p in s.procs ==> PcFits(s.procs[p].role, s.procs[p].pc))
    ensures GatesAt(t, p)
  {
  }

  lemma StoreGates(s: State, t: State, q: Id, a: LauncherStep, p: Id)
    requires LauncherNext(s, t, q, a) && (a.Claim? || a.WriteGate? || a.Unregister?)
    requires GatesAt(s, p) && (p in s.procs ==> PcFits(s.procs[p].role, s.procs[p].pc))
    ensures GatesAt(t, p)
  {
  }

  lemma WorkerGates(s: State, t: State, q: Id, a: WorkerStep, p: Id)
    requires WorkerNext(s, t, q, a) && GatesAt(s, p) && (p in s.procs ==> PcFits(s.procs[p].role, s.procs[p].pc))
    ensures GatesAt(t, p)
  {
  }

  lemma OutsideGates(s: State, t: State, a: OutsideStep, p: Id)
    requires OutsideNext(s, t, a) && GatesAt(s, p)
    ensures GatesAt(t, p)
  {
  }

  lemma GatesKept(s: State, a: Action, t: State)
    requires Inv(s) && Gates(s) && Next(s, a, t)
    ensures Gates(t)
  {
    forall p ensures GatesAt(t, p) {
      assert GatesAt(s, p);
      Near(s, p);
      match a
      case Move(q, to) => MoveGates(s, t, q, to, p);
      case Own(q, own) => OwnerGates(s, t, q, own, p);
      case Launch(q, launch) => LauncherGates(s, t, q, launch, p);
      case Work(q, work) => WorkerGates(s, t, q, work, p);
      case Outside(outside) => OutsideGates(s, t, outside, p);
    }
  }

  lemma {:induction false} RunGates(r: Run, i: nat)
    requires IsRun(r) && i < |r.states|
    ensures Gates(r.states[i])
  {
    if i > 0 {
      RunGates(r, i - 1);
      RunInv(r, i - 1);
      assert StepAt(r, i - 1);
      GatesKept(r.states[i - 1], r.steps[i - 1], r.states[i]);
    }
  }

  /** A process at its end has nothing open: neither the lock nor an end of a gate. */
  lemma NothingOpen(r: Run, i: nat, p: Id)
    requires IsRun(r) && i < |r.states| && p in r.states[i].procs
    requires r.states[i].procs[p].pc.Done? || !r.states[i].procs[p].alive
    ensures var q := r.states[i].procs[p]; !q.lockOpen && !q.gateR && !q.gateW
  {
    RunInv(r, i);
    Near(r.states[i], p);
    RunGates(r, i);
    assert GatesAt(r.states[i], p);
  }

  // ------------------------------------------------------------ what a worker sees of its launch

  /** A launcher that can never let its worker through any more. */
  predicate NoLonger(s: State, l: Id) {
    l in s.procs && l !in s.written
    && (!s.procs[l].alive || s.procs[l].pc.Reaping? || s.procs[l].pc.Reaped? || s.procs[l].pc.Drained? || s.procs[l].pc.Done?)
  }

  /** Once the launch is cut off and its launcher has closed the gate or died, the waiting worker can leave. */
  lemma CutOffWorkerLeaves(r: Run, i: nat, w: Id, l: Id) returns (t: State)
    requires IsRun(r) && i < |r.states| && At(r.states[i], w, Adopted) && r.states[i].procs[w].role == Worker(l)
    requires NoLonger(r.states[i], l)
    ensures Next(r.states[i], Work(w, ReadEnd), t) && At(t, w, Quitting)
  {
    var s := r.states[i];
    RunGates(r, i);
    assert GatesAt(s, l);
    t := Put(s, w, s.procs[w].(pc := Quitting, gateR := false));
    assert ReadsEnd(s, t, w);
  }

  /** And it leaves that way only when nothing can let it through any more. */
  lemma LeavesWhenCutOff(r: Run, i: nat, j: nat, w: Id, l: Id)
    requires IsRun(r) && i < |r.steps| && r.steps[i] == Work(w, ReadEnd) && i < j < |r.states|
    requires w in r.states[i].procs && r.states[i].procs[w].role == Worker(l)
    ensures l !in r.states[j].written
  {
    assert StepAt(r, i);
    RunInv(r, i);
    var s := r.states[i];
    assert Alive(s, w);
    Near(s, w);
    assert CutOff(s, l);
    CutOffStays(r, i, j, l);
  }

  /** The byte is written only while the worker is there to read it. */
  lemma WritesToReader(r: Run, i: nat, l: Id) returns (w: Id)
    requires IsRun(r) && i < |r.steps| && r.steps[i] == Launch(l, WriteGate)
    ensures Alive(r.states[i], w) && r.states[i].procs[w].role == Worker(l) && r.states[i].procs[w].gateR && w !in r.states[i].taken
  {
    assert StepAt(r, i);
    RunInv(r, i);
    var s := r.states[i];
    Near(s, l);
    w := s.procs[l].child.value;
    Near(s, w);
  }

  /** A worker is never refused the lock whose description it inherited. */
  lemma NeverRefused(r: Run, i: nat, w: Id)
    requires IsRun(r) && i < |r.steps| && w in r.states[i].procs && r.states[i].procs[w].role.Worker?
    ensures r.steps[i] != Move(w, Rejected)
  {
    RunInv(r, i);
    Near(r.states[i], w);
    assert StepAt(r, i);
  }

  /** Any other process is refused only while somebody holds the lock. */
  lemma RefusedWhileHeld(r: Run, i: nat, p: Id) returns (holder: Id)
    requires IsRun(r) && i < |r.steps| && r.steps[i] == Move(p, Rejected)
    ensures r.states[i].locked.Some? && Shares(r.states[i], holder, r.states[i].locked.value)
  {
    assert StepAt(r, i);
    RunInv(r, i);
    var s := r.states[i];
    Near(s, p);
    if s.procs[p].role.Worker? { NeverRefused(r, i, p); }
    var o := s.locked.value;
    holder := if Shares(s, o, o) then o else s.procs[o].child.value;
  }

  /** A process begins to recover only where no other living process is registered, for the parent or for its child. */
  lemma ProbesUnregistered(r: Run, i: nat, p: Id)
    requires IsRun(r) && i < |r.steps| && r.steps[i] == Move(p, Probed)
    ensures var s := r.states[i];
            && (s.reg.Some? && Alive(s, s.reg.value.owner) ==> s.reg.value.owner == p)
            && (s.linked && s.childReg.Some? ==> forall q | Alive(s, q) :: s.procs[q].pid != s.childReg.value.pid)
  {
    assert StepAt(r, i);
    RunInv(r, i);
    var s := r.states[i];
    Near(s, p);
    if s.reg.Some? && Alive(s, s.reg.value.owner) { assert PidLive(s, s.reg.value.pid); }
    if s.linked && s.childReg.Some? {
      forall q | Alive(s, q) ensures s.procs[q].pid != s.childReg.value.pid {}
    }
  }

  // ------------------------------------------------------------ the child run's registration

  predicate ChildKeptOrGone(s: State, t: State) {
    t.childReg == s.childReg || (t.childReg.None? && s.childReg.Some? && !PidLive(s, s.childReg.value.pid))
  }

  lemma OwnerChild(s: State, t: State, p: Id, a: OwnerStep)
    requires OwnerNext(s, t, p, a)
    ensures ChildKeptOrGone(s, t)
  {
  }

  lemma LauncherChild(s: State, t: State, p: Id, a: LauncherStep)
    requires LauncherNext(s, t, p, a)
    ensures ChildKeptOrGone(s, t)
  {
  }

  lemma WorkerChild(s: State, t: State, p: Id, a: WorkerStep)
    requires WorkerNext(s, t, p, a)
    ensures ChildKeptOrGone(s, t)
  {
  }

  /** By its own steps the protocol takes the child run's registration away only after that process is gone. */
  lemma ChildClearsOnlyGone(r: Run, i: nat, q: Id)
    requires IsRun(r) && i < |r.steps| && !r.steps[i].Outside? && r.states[i + 1].childReg != r.states[i].childReg
    requires Alive(r.states[i], q)
    ensures r.states[i].childReg.Some? && r.states[i + 1].childReg.None? && r.states[i].procs[q].pid != r.states[i].childReg.value.pid
  {
    assert StepAt(r, i);
    var s, t := r.states[i], r.states[i + 1];
    match r.steps[i]
    case Move(p, to) =>
    case Own(p, own) => OwnerChild(s, t, p, own);
    case Launch(p, launch) => LauncherChild(s, t, p, launch);
    case Work(p, work) => WorkerChild(s, t, p, work);
  }

  /** A worker cleans up at its exit only while the registration is still its own. */
  lemma ExitsUnderOwnPid(r: Run, i: nat, w: Id)
    requires IsRun(r) && i < |r.steps| && r.steps[i].Work? && r.steps[i].p == w && (r.steps[i].work.ExitSweep? || r.steps[i].work.ExitReleaseChild?)
    ensures At(r.states[i], w, Leaving) && r.states[i].reg.Some? && r.states[i].reg.value.pid == r.states[i].procs[w].pid
  {
    assert StepAt(r, i);
  }

  // ------------------------------------------------------------ every process can come to its end

  /** How many steps of its own a process is from its end at most, once it gives up. */
  function Rank(role: Role, pc: Pc): nat {
    match pc
    case Done => 0
    case Unlocked => 1
    case Drained => 2
    case Rejected => 2
    case Quitting => 3
    case Leaving => 4
    case Start => 7
    case Opened => 6
    case Failing => 5
    case Working => 5
    case _ => if role.Worker? then 5 else 4
  }

  /** A step of p's own that brings it nearer to its end. */
  ghost predicate Nearer(s: State, a: Action, t: State, p: Id) {
    && Next(s, a, t) && ActsAs(a, p) && Alive(s, p) && Alive(t, p) && t.procs[p].role == s.procs[p].role
    && Rank(t.procs[p].role, t.procs[p].pc) < Rank(s.procs[p].role, s.procs[p].pc)
  }

  lemma MoveNearer(s: State, p: Id, to: Pc) returns (t: State)
    requires Alive(s, p) && MoveEdge(s.procs[p].role, s.procs[p].pc, to) && MoveGuard(s, p, to)
    requires Rank(s.procs[p].role, to) < Rank(s.procs[p].role, s.procs[p].pc)
    ensures Nearer(s, Move(p, to), t, p)
  {
    t := Goto(s, p, to);
    assert Moves(s, t, p, to);
  }

  lemma OpenNearer(s: State, p: Id) returns (t: State)
    requires At(s, p, Start)
    ensures Nearer(s, Own(p, OpenLock), t, p)
  {
    t := Put(s, p, s.procs[p].(pc := Opened, lockOpen := true));
    assert OpensLock(s, t, p);
  }

  lemma FlockNearer(s: State, p: Id) returns (t: State)
    requires At(s, p, Opened) && s.locked.None?
    ensures Nearer(s, Own(p, Flock), t, p)
  {
    t := Goto(s, p, Held).(locked := Some(p));
    assert Flocks(s, t, p);
  }

  lemma GatesNearer(s: State, p: Id) returns (t: State)
    requires At(s, p, Quitting)
    ensures Nearer(s, Own(p, CloseGates), t, p)
  {
    t := Put(s, p, s.procs[p].(pc := Drained, gateR := false, gateW := false));
    assert ClosesGates(s, t, p);
  }

  lemma Unlocks(s: State, p: Id) returns (t: State)
    requires At(s, p, Drained) || At(s, p, Rejected)
    ensures ClosesLock(s, t, p) && p in t.procs
    ensures t.procs[p] == s.procs[p].(pc := if s.procs[p].role.Worker? then Unlocked else Done, lockOpen := false)
  {
    t := Settle(Put(s, p, s.procs[p].(pc := if s.procs[p].role.Worker? then Unlocked else Done, lockOpen := false)));
  }

  lemma UnlockNearer(s: State, p: Id) returns (t: State)
    requires At(s, p, Drained) || At(s, p, Rejected)
    ensures Nearer(s, Own(p, CloseLock), t, p)
  {
    t := Unlocks(s, p);
  }

  lemma ReapNearer(s: State, p: Id) returns (t: State)
    requires At(s, p, Failing) && !s.procs[p].role.Worker?
    ensures Nearer(s, Launch(p, CloseGate), t, p)
  {
    t := Put(s, p, s.procs[p].(pc := Reaping, gateW := false));
    assert ClosesGate(s, t, p);
  }

  lemma LastNearer(s: State, p: Id) returns (t: State)
    requires At(s, p, Unlocked)
    ensures Nearer(s, Work(p, FinalClear), t, p)
  {
    t := ClearPid(Put(s, p, s.procs[p].(pc := Done, gateR := false)), s.procs[p].pid);
    assert FinalClears(s, t, p);
  }

  /** The point to which a process moves by itself when it gives up. */
  function GivesUp(role: Role, pc: Pc): Pc {
    match pc
    case Opened => Rejected
    case Held => if role.Worker? then Leaving else Quitting
    case Probed => if role.Worker? then Leaving else Quitting
    case Cleared => if role.Worker? then Leaving else Quitting
    case Recovered => if role.Worker? then Leaving else Quitting
    case Working => if role.Worker? then Leaving else Quitting
    case _ => Quitting
  }

  lemma GivingUp(s: State, p: Id)
    requires Alive(s, p) && PcFits(s.procs[p].role, s.procs[p].pc)
    requires var pc := s.procs[p].pc; !(pc.Start? || pc.Failing? || pc.Quitting? || pc.Drained? || pc.Rejected? || pc.Unlocked? || pc.Done?)
    requires s.procs[p].pc.Opened? ==> s.locked.Some?
    ensures var role, pc := s.procs[p].role, s.procs[p].pc;
            MoveEdge(role, pc, GivesUp(role, pc)) && MoveGuard(s, p, GivesUp(role, pc)) && Rank(role, GivesUp(role, pc)) < Rank(role, pc)
  {
  }

  lemma OneStepNearer(s: State, p: Id) returns (a: Action, t: State)
    requires Inv(s) && Alive(s, p) && !s.procs[p].pc.Done?
    ensures Nearer(s, a, t, p)
  {
    Near(s, p);
    var pc := s.procs[p].pc;
    if pc.Start? {
      t := OpenNearer(s, p);
      a := Own(p, OpenLock);
    } else if pc.Opened? && s.locked.None? {
      t := FlockNearer(s, p);
      a := Own(p, Flock);
    } else if pc.Failing? {
      t := ReapNearer(s, p);
      a := Launch(p, CloseGate);
    } else if pc.Quitting? {
      t := GatesNearer(s, p);
      a := Own(p, CloseGates);
    } else if pc.Drained? || pc.Rejected? {
      t := UnlockNearer(s, p);
      a := Own(p, CloseLock);
    } else if pc.Unlocked? {
      t := LastNearer(s, p);
      a := Work(p, FinalClear);
    } else {
      GivingUp(s, p);
      a := Move(p, GivesUp(s.procs[p].role, pc));
      t := MoveNearer(s, p, GivesUp(s.procs[p].role, pc));
    }
  }

  /** The later run goes on where the earlier one ends, by steps of p alone. */
  ghost predicate GoesOn(r: Run, q: Run, p: Id) {
    && r.states <= q.states && r.steps <= q.steps
    && forall i | |r.steps| <= i < |q.steps| :: ActsAs(q.steps[i], p)
  }

  /** From wherever a run has taken it, a living process can come to its end by its own steps, whatever the others hold. */
  lemma {:induction false} CanEnd(r: Run, p: Id) returns (q: Run)
    requires IsRun(r) && Alive(r.states[|r.steps|], p)
    ensures IsRun(q) && GoesOn(r, q, p) && At(q.states[|q.steps|], p, Done)
    decreases Rank(r.states[|r.steps|].procs[p].role, r.states[|r.steps|].procs[p].pc)
  {
    var s := r.states[|r.steps|];
    if s.procs[p].pc.Done? {
      q := r;
    } else {
      RunInv(r, |r.steps|);
      var a, t := OneStepNearer(s, p);
      var m := RunMore(r, a, t, p);
      q := CanEnd(m, p);
      GoesOnOn(r, m, q, p);
    }
  }

  lemma RunMore(r: Run, a: Action, t: State, p: Id) returns (q: Run)
    requires IsRun(r) && Next(r.states[|r.steps|], a, t) && ActsAs(a, p)
    ensures IsRun(q) && GoesOn(r, q, p) && |q.steps| == |r.steps| + 1 && q.states[|q.steps|] == t
  {
    q := Run(r.states + [t], r.steps + [a]);
    forall i | 0 <= i < |q.steps| ensures StepAt(q, i) {
      if i < |r.steps| { assert StepAt(r, i); }
    }
  }

  lemma GoesOnOn(r: Run, m: Run, q: Run, p: Id)
    requires GoesOn(r, m, p) && GoesOn(m, q, p)
    ensures GoesOn(r, q, p)
  {
    forall i | |r.steps| <= i < |q.steps| ensures ActsAs(q.steps[i], p) {
      if i < |m.steps| { assert q.steps[i] == m.steps[i]; }
    }
  }

  // ------------------------------------------------------------ a takeover

  /** The worker of WorkerReached has registered a piece of work and died; its launcher died before. */
  function Abandoned(pid: nat, wpid: nat): State {
    var s := Orphan(pid, wpid, Working);
    Put(s, 1, Dead(s.procs[1])).(attempts := map[Attempt(false, 7) := 1], locked := None)
  }

  /** A foreground solver, under the dead launcher's pid, on its way through what the others left. */
  function Successor(pid: nat, wpid: nat, pc: Pc): State {
    var s := Abandoned(pid, wpid);
    Put(s, 2, Proc(Foreground, pid, pc, true, !pc.Start?, false, false, None))
      .(locked := if pc.Start? || pc.Opened? then None else Some(2),
        attempts := if pc.Cleared? || pc.Recovered? || pc.Working? then map[] else s.attempts,
        reg := if pc.Cleared? || pc.Recovered? || pc.Working? then None else s.reg)
  }

  lemma AbandonedReached(pid: nat, wpid: nat)
    requires pid != wpid
    ensures Reached(Abandoned(pid, wpid))
  {
    WorkerReached(pid, wpid);
    var s, k := Orphan(pid, wpid, Working), Attempt(false, 7);
    var t := s.(attempts := map[k := 1]);
    assert s.attempts[k := 1] == t.attempts;
    assert StartsAttempt(s, t, 1, k);
    ReachedNext(s, Own(1, StartAttempt(k)), t);
    WorkerDies(t);
    assert Put(t, 1, Dead(t.procs[1])).(locked := None) == Abandoned(pid, wpid);
  }

  lemma WorkerDies(t: State)
    requires Reached(t) && Alive(t, 1) && t.locked == Some(0) && t.procs.Keys == {0, 1} && !Alive(t, 0)
    ensures Reached(Put(t, 1, Dead(t.procs[1])).(locked := None))
  {
    var u := Put(t, 1, Dead(t.procs[1]));
    assert !AnyShares(u, 0);
    assert Settle(u) == u.(locked := None);
    assert Dies(t, u.(locked := None), 1);
    ReachedNext(t, Outside(Die(1)), u.(locked := None));
  }

  predicate TakesOver(from: Pc, a: Action, to: Pc) {
    match from
    case Start => a == Own(2, OpenLock) && to == Opened
    case Opened => a == Own(2, Flock) && to == Held
    case Held => a == Move(2, Probed) && to == Probed
    case Cleared => a == Move(2, Recovered) && to == Recovered
    case Recovered => a == Move(2, Working) && to == Working
    case _ => false
  }

  lemma SuccessorMoves(pid: nat, wpid: nat, from: Pc, a: Action, to: Pc)
    requires pid != wpid && Reached(Successor(pid, wpid, from)) && TakesOver(from, a, to)
    ensures Reached(Successor(pid, wpid, to))
  {
    var s, t := Successor(pid, wpid, from), Successor(pid, wpid, to);
    assert s.procs[2 := t.procs[2]] == t.procs;
    ReachedNext(s, a, t);
  }

  lemma SuccessorStarts(pid: nat, wpid: nat)
    requires pid != wpid
    ensures Reached(Successor(pid, wpid, Start))
  {
    AbandonedReached(pid, wpid);
    var s, t := Abandoned(pid, wpid), Successor(pid, wpid, Start);
    assert Spawns(s, t, 2, true, pid);
    ReachedNext(s, Outside(Spawn(2, true, pid)), t);
  }

  /** It stops the work that it finds and clears the dead worker's registration. */
  lemma SuccessorRecovers(pid: nat, wpid: nat)
    requires pid != wpid && Reached(Successor(pid, wpid, Probed))
    ensures Reached(Successor(pid, wpid, Cleared))
  {
    var s, k := Successor(pid, wpid, Probed), Attempt(false, 7);
    var m, t := s.(attempts := map[]), Successor(pid, wpid, Cleared);
    assert Without(s.attempts, k) == map[];
    assert Sweeps(s, m, 2, k);
    ReachedNext(s, Own(2, Sweep(k)), m);
    assert m.procs[2 := t.procs[2]] == t.procs;
    assert ReleasesRunner(m, t, 2);
    ReachedNext(m, Own(2, Release), t);
  }

  /** After a launcher and its working worker both died, another process takes over, even under a reused pid. */
  lemma TakeoverReached(pid: nat, wpid: nat)
    requires pid != wpid
    ensures Reached(Successor(pid, wpid, Working)) && Works(Successor(pid, wpid, Working), 2)
  {
    SuccessorStarts(pid, wpid);
    SuccessorMoves(pid, wpid, Start, Own(2, OpenLock), Opened);
    SuccessorMoves(pid, wpid, Opened, Own(2, Flock), Held);
    SuccessorMoves(pid, wpid, Held, Move(2, Probed), Probed);
    SuccessorRecovers(pid, wpid);
    SuccessorMoves(pid, wpid, Cleared, Move(2, Recovered), Recovered);
    SuccessorMoves(pid, wpid, Recovered, Move(2, Working), Working);
  }
}
