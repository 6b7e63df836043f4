/**
  The detached-solve ownership and launch protocol: any number of launchers, the workers
  they spawn, foreground solvers, crashes and cancellations, interleaved step by step.

  A process is named by an Id that is never reused; its pid may be reused once it is dead.
  The workspace lock belongs to an open file description: each description is named by the
  process that opened it and is shared only with the worker that process spawned.
*/
module LaunchProtocol {

  type Id = nat

  datatype Option<+T> = None | Some(value: T)

  datatype Role = Launcher | Foreground | Worker(launcher: Id)

  /** Where a process stands. */
  datatype Pc =
    | Start                                   // nothing opened yet
    | Opened | Rejected                       // lock file open, flock not tried / refused
    | Held | Probed | Cleared | Recovered     // recovering the previous execution under the lock
    | Piped | Forked | Parted | Claimed | Admitted | Sent   // launcher only
    | Failing | Reaping | Reaped              // launcher only: undoing a failed launch
    | Boot | Adopted | Released               // worker only: before and just after the gate
    | Working | Leaving                       // doing solve work / worker's exit cleanup
    | Quitting | Drained | Unlocked | Done    // closing the gate ends, then the lock

  datatype Proc = Proc(role: Role, pid: nat, pc: Pc, alive: bool,
                       lockOpen: bool, gateR: bool, gateW: bool, child: Option<Id>)

  /** Registered local work of the parent run, or of the child run that is linked to it. */
  datatype Attempt = Attempt(child: bool, id: nat)

  /** A registration cell; the store compares only the pid, `owner` is history. */
  datatype Registration = Registration(pid: nat, owner: Id)

  datatype State = State(
    procs: map<Id, Proc>,
    locked: Option<Id>,              // the description that holds the flock
    reg: Option<Registration>,       // runner_pid / runner_pgid of the parent run
    linked: bool,                    // a child run is linked to the parent run
    childReg: Option<Registration>,  // runner_pid / runner_pgid of the child run
    written: set<Id>,                // launchers whose gate byte was written
    taken: set<Id>,                  // workers that consumed their gate byte
    claimed: set<Id>,                // workers whose pid was ever registered
    attempts: map<Attempt, Id>,      // registered local work of both runs, with the process that started it
    terminal: bool, waiting: bool)   // terminal status / pending input of the parent run

  const INIT := State(map[], None, None, false, None, {}, {}, {}, map[], false, false)

  // ------------------------------------------------------------ helpers of the step relation

  predicate Alive(s: State, p: Id) {
    p in s.procs && s.procs[p].alive
  }

  predicate At(s: State, p: Id, pc: Pc) {
    Alive(s, p) && s.procs[p].pc == pc
  }

  function Put(s: State, p: Id, q: Proc): State {
    s.(procs := s.procs[p := q])
  }

  function Goto(s: State, p: Id, pc: Pc): State
    requires p in s.procs
  {
    Put(s, p, s.procs[p].(pc := pc))
  }

  /** The open file description behind a process's lock descriptor. */
  function Description(s: State, p: Id): Id
    requires p in s.procs
  {
    if s.procs[p].role.Worker? then s.procs[p].role.launcher else p
  }

  /** p is alive and its lock descriptor refers to description o. */
  predicate Shares(s: State, p: Id, o: Id) {
    Alive(s, p) && s.procs[p].lockOpen && Description(s, p) == o
  }

  ghost predicate AnyShares(s: State, o: Id) {
    exists p :: Shares(s, p, o)
  }

  /** Closing the last descriptor of a description drops its flock. */
  ghost function Settle(s: State): (t: State)
    ensures t == s.(locked := t.locked)
    ensures t.locked == s.locked || t.locked.None?
  {
    if s.locked.Some? && !AnyShares(s, s.locked.value) then s.(locked := None) else s
  }

  predicate PidLive(s: State, pid: nat) {
    exists p | p in s.procs :: s.procs[p].alive && s.procs[p].pid == pid
  }

  predicate Admits(s: State) { !s.terminal && !s.waiting }

  predicate RegIs(s: State, pid: nat) { s.reg.Some? && s.reg.value.pid == pid }

  /** clear_runner_process: compare-and-clear on the pid. */
  function ClearPid(s: State, pid: nat): State {
    if RegIs(s, pid) then s.(reg := None) else s
  }

  function Dead(q: Proc): Proc {
    q.(alive := false, lockOpen := false, gateR := false, gateW := false)
  }

  predicate WriterOpen(s: State, l: Id) {
    Alive(s, l) && s.procs[l].gateW
  }

  predicate InLaunch(pc: Pc) {
    pc.Piped? || pc.Forked? || pc.Parted? || pc.Claimed? || pc.Admitted?
  }

  predicate ChildIn(s: State, p: Id) {
    p in s.procs && s.procs[p].child.Some? && s.procs[p].child.value in s.procs
  }

  function Without(m: map<Attempt, Id>, k: Attempt): map<Attempt, Id> {
    map j | j in m && j != k :: m[j]
  }

  // ------------------------------------------------------------ steps of one program counter

  /** Where an exception sends a process that holds the lock but has not begun to work. */
  function Backout(role: Role): Pc {
    if role.Worker? then Leaving else Quitting
  }

  /** The steps that only move a process to another program point: the edges ... */
  predicate MoveEdge(role: Role, from: Pc, to: Pc) {
    match from
    case Opened => to == Rejected
    case Held => to == Probed || to == Backout(role)
    case Probed => to == Backout(role)
    case Cleared => to == Recovered || to == Backout(role)
    case Recovered => (to == Working && !role.Launcher?) || to == Backout(role)
    case Piped => to == Failing || to == Quitting
    case Forked => to == Failing || to == Quitting
    case Parted => to == Failing || to == Quitting
    case Claimed => to == Admitted || to == Failing || to == Quitting
    case Admitted => to == Failing || to == Quitting
    case Sent => to == Quitting
    case Reaping => to == Reaped || to == Quitting
    case Reaped => to == Quitting
    case Boot => to == Quitting || to == Rejected
    case Adopted => to == Quitting
    case Released => to == Held || to == Quitting
    case Working => to == if role.Worker? then Leaving else Quitting
    case Leaving => to == Quitting
    case _ => false
  }

  /** ... and what the state must allow: every other edge is an exception or a normal return. */
  predicate MoveGuard(s: State, p: Id, to: Pc)
    requires p in s.procs
  {
    var q := s.procs[p];
    && (q.pc.Opened? ==> s.locked.Some?)
    && (q.pc.Boot? && to.Rejected? ==> s.locked.Some? && s.locked.value != Description(s, p))
    && (q.pc.Held? && to.Probed? ==>
          && (s.reg.None? || RegIs(s, q.pid) || !PidLive(s, s.reg.value.pid))
          && (s.linked && s.childReg.Some? ==> !PidLive(s, s.childReg.value.pid)))
    && (to.Recovered? ==>
          && (forall k | k in s.attempts :: k.child && !s.linked) && (s.reg.None? || RegIs(s, q.pid))
          && (s.linked ==> s.childReg.None?))
    && (to.Admitted? ==> Admits(s))
    && (to.Reaped? ==> ChildIn(s, p) && !s.procs[q.child.value].alive)
    && (q.pc.Released? && to.Held? ==> Admits(s) && RegIs(s, q.pid))
  }

  ghost predicate Moves(s: State, t: State, p: Id, to: Pc) {
    && Alive(s, p) && MoveEdge(s.procs[p].role, s.procs[p].pc, to) && MoveGuard(s, p, to)
    && t == Goto(s, p, to)
  }

  // ------------------------------------------------------------ acquiring and recovering

  ghost predicate Spawns(s: State, t: State, p: Id, foreground: bool, pid: nat) {
    && p !in s.procs && !PidLive(s, pid)
    && t == Put(s, p, Proc(if foreground then Foreground else Launcher, pid, Start,
                           true, false, false, false, None))
  }

  ghost predicate OpensLock(s: State, t: State, p: Id) {
    At(s, p, Start) && t == Put(s, p, s.procs[p].(pc := Opened, lockOpen := true))
  }

  ghost predicate Flocks(s: State, t: State, p: Id) {
    At(s, p, Opened) && s.locked.None? && t == Goto(s, p, Held).(locked := Some(p))
  }

  /** Stop one registered piece of the previous execution's local work. */
  ghost predicate Sweeps(s: State, t: State, p: Id, k: Attempt) {
    At(s, p, Probed) && k in s.attempts && (k.child ==> s.linked) && t == s.(attempts := Without(s.attempts, k))
  }

  /** Clear the registration of a runner that is gone; one that is the caller's own stays. */
  ghost predicate ReleasesRunner(s: State, t: State, p: Id) {
    && At(s, p, Probed)
    && t == if s.reg.Some? && s.reg.value.pid != s.procs[p].pid && !PidLive(s, s.reg.value.pid)
            then Goto(s, p, Cleared).(reg := None) else Goto(s, p, Cleared)
  }

  /** The same for the child run; none of its registrations is the caller's own. */
  ghost predicate ReleasesChild(s: State, t: State, p: Id) {
    At(s, p, Probed) && s.linked && s.childReg.Some? && !PidLive(s, s.childReg.value.pid) && t == s.(childReg := None)
  }

  // ------------------------------------------------------------ the launcher

  ghost predicate MakesPipe(s: State, t: State, p: Id) {
    && At(s, p, Recovered) && s.procs[p].role.Launcher?
    && t == Put(s, p, s.procs[p].(pc := Piped, gateR := true, gateW := true))
  }

  /** The child inherits the lock descriptor and the read end of the gate, and nothing else. */
  ghost predicate Forks(s: State, t: State, p: Id, c: Id, pid: nat) {
    && At(s, p, Piped) && c !in s.procs && !PidLive(s, pid)
    && t == Put(Put(s, p, s.procs[p].(pc := Forked, child := Some(c))),
                c, Proc(Worker(p), pid, Boot, true, true, true, false, None))
  }

  ghost predicate ClosesRead(s: State, t: State, p: Id) {
    At(s, p, Forked) && t == Put(s, p, s.procs[p].(pc := Parted, gateR := false))
  }

  /** claim_runner_process on an empty cell; `raised` is a commit followed by an exception. */
  ghost predicate Claims(s: State, t: State, p: Id, raised: bool) {
    && At(s, p, Parted) && s.reg.None? && Admits(s) && ChildIn(s, p)
    && var c := s.procs[p].child.value;
       t == Goto(s, p, if raised then Failing else Claimed)
            .(reg := Some(Registration(s.procs[c].pid, c)), claimed := s.claimed + {c})
  }

  /** The one-byte write needs a reader: the launcher closed its own read end, so the child. */
  ghost predicate WritesGate(s: State, t: State, p: Id) {
    && At(s, p, Admitted) && ChildIn(s, p) && s.procs[s.procs[p].child.value].gateR
    && t == Goto(s, p, Sent).(written := s.written + {p})
  }

  ghost predicate ClosesGate(s: State, t: State, p: Id) {
    At(s, p, Failing) && t == Put(s, p, s.procs[p].(pc := Reaping, gateW := false))
  }

  ghost predicate KillsChild(s: State, t: State, p: Id) {
    && At(s, p, Reaping) && ChildIn(s, p)
    && var c := s.procs[p].child.value; t == Settle(Put(s, c, Dead(s.procs[c])))
  }

  ghost predicate Unregisters(s: State, t: State, p: Id) {
    && At(s, p, Reaped) && ChildIn(s, p)
    && t == ClearPid(Goto(s, p, Quitting), s.procs[s.procs[p].child.value].pid)
  }

  // ------------------------------------------------------------ the worker

  /** flock on the inherited descriptor: succeeds on the description that already holds it. */
  ghost predicate Adopts(s: State, t: State, p: Id) {
    && At(s, p, Boot) && s.procs[p].role.Worker?
    && (s.locked.None? || s.locked.value == Description(s, p))
    && t == Goto(s, p, Adopted).(locked := Some(Description(s, p)))
  }

  ghost predicate ReadsByte(s: State, t: State, p: Id) {
    && At(s, p, Adopted) && s.procs[p].role.Worker?
    && s.procs[p].role.launcher in s.written && p !in s.taken
    && t == Put(s, p, s.procs[p].(pc := Released, gateR := false)).(taken := s.taken + {p})
  }

  ghost predicate ReadsEnd(s: State, t: State, p: Id) {
    && At(s, p, Adopted) && s.procs[p].role.Worker?
    && s.procs[p].role.launcher !in s.written && !WriterOpen(s, s.procs[p].role.launcher)
    && t == Put(s, p, s.procs[p].(pc := Quitting, gateR := false))
  }

  ghost predicate ExitSweeps(s: State, t: State, p: Id, k: Attempt) {
    && At(s, p, Leaving) && k in s.attempts && (k.child ==> s.linked) && RegIs(s, s.procs[p].pid)
    && t == s.(attempts := Without(s.attempts, k))
  }

  ghost predicate ExitReleasesChild(s: State, t: State, p: Id) {
    && At(s, p, Leaving) && s.linked && s.childReg.Some? && !PidLive(s, s.childReg.value.pid) && RegIs(s, s.procs[p].pid)
    && t == s.(childReg := None)
  }

  // ------------------------------------------------------------ working and leaving

  ghost predicate LinksChild(s: State, t: State, p: Id) {
    At(s, p, Working) && t == s.(linked := true)
  }

  ghost predicate StartsAttempt(s: State, t: State, p: Id, k: Attempt) {
    At(s, p, Working) && k !in s.attempts && (k.child ==> s.linked) && t == s.(attempts := s.attempts[k := p])
  }

  ghost predicate EndsAttempt(s: State, t: State, p: Id, k: Attempt) {
    At(s, p, Working) && k in s.attempts && t == s.(attempts := Without(s.attempts, k))
  }

  ghost predicate SelfClears(s: State, t: State, p: Id) {
    At(s, p, Working) && t == ClearPid(s, s.procs[p].pid)
  }

  ghost predicate ClosesGates(s: State, t: State, p: Id) {
    At(s, p, Quitting) && t == Put(s, p, s.procs[p].(pc := Drained, gateR := false, gateW := false))
  }

  ghost predicate ClosesLock(s: State, t: State, p: Id) {
    && (At(s, p, Drained) || At(s, p, Rejected))
    && t == Settle(Put(s, p, s.procs[p].(pc := if s.procs[p].role.Worker? then Unlocked else Done,
                                         lockOpen := false)))
  }

  /** A worker clears its own pid only after its lock descriptor is closed. */
  ghost predicate FinalClears(s: State, t: State, p: Id) {
    && At(s, p, Unlocked)
    && t == ClearPid(Put(s, p, s.procs[p].(pc := Done, gateR := false)), s.procs[p].pid)
  }

  // ------------------------------------------------------------ the environment

  /** Exit, crash or kill at any point: the kernel closes every descriptor. */
  ghost predicate Dies(s: State, t: State, p: Id) {
    Alive(s, p) && t == Settle(Put(s, p, Dead(s.procs[p])))
  }

  /** The parent run settles, or starts or stops waiting for input. */
  ghost predicate SetsStatus(s: State, t: State, terminal: bool, waiting: bool) {
    (s.terminal ==> terminal) && t == s.(terminal := terminal, waiting := waiting)
  }

  /** Cancellation from outside: release what it has verified to be gone. */
  ghost predicate CancelClears(s: State, t: State) {
    s.reg.Some? && !PidLive(s, s.reg.value.pid) && t == s.(reg := None)
  }

  ghost predicate CancelSweeps(s: State, t: State, k: Attempt) {
    k in s.attempts && t == s.(attempts := Without(s.attempts, k))
  }

  /** Any living process may register itself for the child run, without the lock; anyone may clear that cell. */
  ghost predicate SetsChild(s: State, t: State, owner: Option<Id>) {
    match owner
    case None => t == s.(childReg := None)
    case Some(p) => s.linked && Alive(s, p) && t == s.(childReg := Some(Registration(s.procs[p].pid, p)))
  }

  datatype OwnerStep =
    | OpenLock | Flock | Sweep(k: Attempt) | Release | ReleaseChild
    | LinkChild | StartAttempt(k: Attempt) | EndAttempt(k: Attempt) | SelfClear | CloseGates | CloseLock

  datatype LauncherStep =
    | MakePipe | Fork(c: Id, pid: nat) | CloseRead | Claim(raised: bool) | WriteGate
    | CloseGate | KillChild | Unregister

  datatype WorkerStep = Adopt | ReadByte | ReadEnd | ExitSweep(k: Attempt) | ExitReleaseChild | FinalClear

  datatype OutsideStep =
    | Spawn(p: Id, foreground: bool, pid: nat) | Die(p: Id) | SetStatus(terminal: bool, waiting: bool)
    | CancelClear | CancelSweep(k: Attempt) | SetChild(owner: Option<Id>)

  datatype Action =
    | Move(p: Id, to: Pc)
    | Own(p: Id, own: OwnerStep)
    | Launch(p: Id, launch: LauncherStep)
    | Work(p: Id, work: WorkerStep)
    | Outside(outside: OutsideStep)

  ghost predicate OwnerNext(s: State, t: State, p: Id, a: OwnerStep) {
    match a
    case OpenLock => OpensLock(s, t, p)
    case Flock => Flocks(s, t, p)
    case Sweep(k) => Sweeps(s, t, p, k)
    case Release => ReleasesRunner(s, t, p)
    case ReleaseChild => ReleasesChild(s, t, p)
    case LinkChild => LinksChild(s, t, p)
    case StartAttempt(k) => StartsAttempt(s, t, p, k)
    case EndAttempt(k) => EndsAttempt(s, t, p, k)
    case SelfClear => SelfClears(s, t, p)
    case CloseGates => ClosesGates(s, t, p)
    case CloseLock => ClosesLock(s, t, p)
  }

  ghost predicate LauncherNext(s: State, t: State, p: Id, a: LauncherStep) {
    match a
    case MakePipe => MakesPipe(s, t, p)
    case Fork(c, pid) => Forks(s, t, p, c, pid)
    case CloseRead => ClosesRead(s, t, p)
    case Claim(raised) => Claims(s, t, p, raised)
    case WriteGate => WritesGate(s, t, p)
    case CloseGate => ClosesGate(s, t, p)
    case KillChild => KillsChild(s, t, p)
    case Unregister => Unregisters(s, t, p)
  }

  ghost predicate WorkerNext(s: State, t: State, p: Id, a: WorkerStep) {
    match a
    case Adopt => Adopts(s, t, p)
    case ReadByte => ReadsByte(s, t, p)
    case ReadEnd => ReadsEnd(s, t, p)
    case ExitSweep(k) => ExitSweeps(s, t, p, k)
    case ExitReleaseChild => ExitReleasesChild(s, t, p)
    case FinalClear => FinalClears(s, t, p)
  }

  ghost predicate OutsideNext(s: State, t: State, a: OutsideStep) {
    match a
    case Spawn(p, foreground, pid) => Spawns(s, t, p, foreground, pid)
    case Die(p) => Dies(s, t, p)
    case SetStatus(terminal, waiting) => SetsStatus(s, t, terminal, waiting)
    case CancelClear => CancelClears(s, t)
    case CancelSweep(k) => CancelSweeps(s, t, k)
    case SetChild(owner) => SetsChild(s, t, owner)
  }

  ghost predicate Next(s: State, a: Action, t: State) {
    match a
    case Move(p, to) => Moves(s, t, p, to)
    case Own(p, own) => OwnerNext(s, t, p, own)
    case Launch(p, launch) => LauncherNext(s, t, p, launch)
    case Work(p, work) => WorkerNext(s, t, p, work)
    case Outside(outside) => OutsideNext(s, t, outside)
  }

  // ------------------------------------------------------------ the invariant

  /** Past its flock and before its close: one of the holders of the lock. */
  predicate Holder(pc: Pc) {
    !(pc.Start? || pc.Opened? || pc.Rejected? || pc.Unlocked? || pc.Done?)
  }

  predicate AfterGate(pc: Pc) {
    pc.Released? || pc.Held? || pc.Probed? || pc.Cleared? || pc.Recovered? || pc.Working? || pc.Leaving?
  }

  /** Recovery was verified and nothing has been admitted under this process yet. */
  predicate FreshPc(pc: Pc) {
    pc.Recovered? || InLaunch(pc) || pc.Failing? || pc.Reaping? || pc.Reaped?
  }

  predicate BeforeFork(pc: Pc) {
    pc.Start? || pc.Opened? || pc.Rejected? || pc.Held? || pc.Probed? || pc.Cleared? || pc.Recovered? || pc.Piped?
  }

  predicate PcFits(role: Role, pc: Pc) {
    match role
    case Launcher =>
      !(pc.Boot? || pc.Adopted? || pc.Released? || pc.Working? || pc.Leaving? || pc.Unlocked?)
    case Foreground =>
      pc.Start? || pc.Opened? || pc.Rejected? || pc.Held? || pc.Probed? || pc.Cleared? || pc.Recovered?
      || pc.Working? || pc.Quitting? || pc.Drained? || pc.Done?
    case Worker(_) =>
      pc.Boot? || pc.Adopted? || AfterGate(pc) || pc.Quitting? || pc.Drained? || pc.Unlocked? || pc.Done?
  }

  predicate ProcOk(s: State, p: Id)
    requires p in s.procs
  {
    var q := s.procs[p];
    && PcFits(q.role, q.pc)
    && (!q.alive ==> !q.lockOpen && !q.gateR && !q.gateW)
    && (q.alive ==> (q.lockOpen <==> !(q.pc.Start? || q.pc.Unlocked? || q.pc.Done?)))
    && (q.alive && Holder(q.pc) ==> s.locked == Some(Description(s, p)))
    && (q.alive && (q.pc.Start? || q.pc.Opened? || q.pc.Rejected?) ==> s.locked != Some(p))
    && (q.alive && InLaunch(q.pc) ==> q.gateW)
  }

  predicate FamilyOk(s: State, p: Id)
    requires p in s.procs
  {
    var q := s.procs[p];
    && (q.role.Worker? ==> q.role.launcher in s.procs
                           && s.procs[q.role.launcher].role.Launcher?
                           && s.procs[q.role.launcher].child == Some(p))
    && (q.child.Some? ==> q.role.Launcher? && q.child.value in s.procs
                          && s.procs[q.child.value].role == Worker(p)
                          && s.procs[q.child.value].pid != q.pid)
    && (q.pc.Forked? || q.pc.Parted? || q.pc.Claimed? || q.pc.Admitted? || q.pc.Sent? || q.pc.Reaped?
        ==> q.child.Some?)
    && (BeforeFork(q.pc) ==> q.child.None?)
    && (q.pc.Reaped? ==> !s.procs[q.child.value].alive)
    && (q.pc.Claimed? || q.pc.Admitted? ==> q.child.value in s.claimed)
  }

  predicate GateOk(s: State, p: Id)
    requires p in s.procs
  {
    var q := s.procs[p];
    && (p in s.written ==> (q.pc.Sent? || q.pc.Quitting? || q.pc.Drained? || q.pc.Done?)
                           && q.child.Some? && q.child.value in s.claimed)
    && (p in s.taken ==> q.role.Worker? && q.role.launcher in s.written)
    && (q.role.Worker? && AfterGate(q.pc) ==> p in s.taken)
  }

  predicate RecoveryOk(s: State, p: Id)
    requires p in s.procs
  {
    var q := s.procs[p];
    && (q.alive && FreshPc(q.pc) ==>
          && s.attempts == map[]
          && (s.reg.None? || s.reg.value.pid == q.pid || q.child == Some(s.reg.value.owner)))
    && (q.alive && q.pc.Working? ==> forall k | k in s.attempts :: s.attempts[k] == p)
  }

  predicate Good(s: State, p: Id)
    requires p in s.procs
  {
    ProcOk(s, p) && FamilyOk(s, p) && GateOk(s, p) && RecoveryOk(s, p)
  }

  /** A held lock has a living sharer: the opener of its description, or the worker it spawned. */
  predicate LockOk(s: State) {
    s.locked.Some? ==>
      var o := s.locked.value;
      && o in s.procs
      && (Shares(s, o, o) || (s.procs[o].child.Some? && Shares(s, s.procs[o].child.value, o)))
  }

  predicate CellsOk(s: State) {
    && s.written <= s.procs.Keys && s.taken <= s.procs.Keys
    && (forall w | w in s.claimed :: w in s.procs && s.procs[w].role.Worker?)
    && (s.childReg.Some? ==> s.linked) && (forall k | k in s.attempts && k.child :: s.linked)
    && (s.reg.Some? ==> && s.reg.value.owner in s.claimed && s.reg.value.owner in s.procs
                        && s.procs[s.reg.value.owner].pid == s.reg.value.pid)
  }

  ghost predicate PidsDistinct(s: State) {
    forall p, q {:trigger Alive(s, p), Alive(s, q)} | Alive(s, p) && Alive(s, q) && p != q ::
      s.procs[p].pid != s.procs[q].pid
  }

  ghost predicate Inv(s: State) {
    && (forall p {:trigger Good(s, p)} | p in s.procs :: Good(s, p))
    && LockOk(s) && CellsOk(s)
  }

  // ------------------------------------------------------------ every step keeps the invariant

  lemma Near(s: State, p: Id)
    requires Inv(s)
    ensures p in s.procs ==> Good(s, p) && (s.procs[p].role.Worker? ==> Good(s, s.procs[p].role.launcher))
  {
    if p in s.procs { assert Good(s, p); }
  }

  /** Two holders share one description, so they are one process or a launcher and its worker. */
  lemma HoldersRelated(s: State, p: Id, q: Id)
    requires Inv(s) && Alive(s, p) && Alive(s, q) && Holder(s.procs[p].pc) && Holder(s.procs[q].pc)
    ensures p == q || s.procs[p].role == Worker(q) || s.procs[q].role == Worker(p)
    ensures s.procs[p].role.Worker? && s.procs[q].role.Worker? ==> p == q
  {
    Near(s, p);
    Near(s, q);
  }

  /** Emptying a cell, or changing the status or the child of the run, disturbs nobody. */
  lemma RegCleared(s: State)
    requires Inv(s)
    ensures Inv(s.(reg := None))
  {
    var t := s.(reg := None);
    forall p | p in t.procs ensures Good(t, p) { Near(s, p); }
  }

  lemma SweepKept(s: State, k: Attempt)
    requires Inv(s) && k in s.attempts
    ensures Inv(s.(attempts := Without(s.attempts, k)))
  {
    var t := s.(attempts := Without(s.attempts, k));
    forall p | p in t.procs ensures Good(t, p) { Near(s, p); }
  }

  lemma StatusKept(s: State, terminal: bool, waiting: bool)
    requires Inv(s)
    ensures Inv(s.(terminal := terminal, waiting := waiting))
  {
    var t := s.(terminal := terminal, waiting := waiting);
    forall p | p in t.procs ensures Good(t, p) { Near(s, p); }
  }

  lemma ChildKept(s: State, linked: bool, childReg: Option<Registration>)
    requires Inv(s) && (s.linked ==> linked) && (childReg.Some? ==> linked)
    ensures Inv(s.(linked := linked, childReg := childReg))
  {
    var t := s.(linked := linked, childReg := childReg);
    forall p | p in t.procs ensures Good(t, p) { Near(s, p); }
  }

  /** A step that changes only p's own program counter and gate ends. */
  lemma LocalKept(s: State, p: Id, pc: Pc, gateR: bool, gateW: bool)
    requires Inv(s) && Alive(s, p)
    requires Good(Put(s, p, s.procs[p].(pc := pc, gateR := gateR, gateW := gateW)), p)
    ensures Inv(Put(s, p, s.procs[p].(pc := pc, gateR := gateR, gateW := gateW)))
  {
    var t := Put(s, p, s.procs[p].(pc := pc, gateR := gateR, gateW := gateW));
    forall q | q in t.procs ensures Good(t, q) { Near(s, q); }
  }

  lemma MoveFits(role: Role, from: Pc, to: Pc)
    requires PcFits(role, from) && MoveEdge(role, from, to) && (from.Boot? ==> !to.Rejected?)
    ensures PcFits(role, to)
    ensures Holder(to) ==> Holder(from)
    ensures InLaunch(to) ==> InLaunch(from)
    ensures !to.Start? && !to.Opened? && !to.Unlocked? && !to.Done?
    ensures BeforeFork(to) ==> BeforeFork(from) || role.Worker?
    ensures AfterGate(to) && role.Worker? ==> AfterGate(from)
    ensures FreshPc(to) && !to.Recovered? ==> FreshPc(from)
  {
  }

  lemma MoveFamily(s: State, t: State, p: Id, to: Pc)
    requires Inv(s) && Moves(s, t, p, to)
    ensures FamilyOk(t, p)
  {
    Near(s, p);
    MoveFits(s.procs[p].role, s.procs[p].pc, to);
  }

  lemma MoveProc(s: State, t: State, p: Id, to: Pc)
    requires Inv(s) && Moves(s, t, p, to)
    ensures ProcOk(t, p)
  {
    Near(s, p);
    MoveFits(s.procs[p].role, s.procs[p].pc, to);
  }

  lemma MoveKept(s: State, t: State, p: Id, to: Pc)
    requires Inv(s) && Moves(s, t, p, to)
    ensures Inv(t)
  {
    MoveFamily(s, t, p, to);
    MoveProc(s, t, p, to);
    Near(s, p);
    LocalKept(s, p, t.procs[p].pc, t.procs[p].gateR, t.procs[p].gateW);
  }

  lemma SpawnKept(s: State, t: State, p: Id, foreground: bool, pid: nat)
    requires Inv(s) && Spawns(s, t, p, foreground, pid)
    ensures Inv(t)
  {
    forall q | q in t.procs ensures Good(t, q) { Near(s, q); }
  }

  lemma ForkKept(s: State, t: State, p: Id, c: Id, pid: nat)
    requires Inv(s) && Forks(s, t, p, c, pid)
    ensures Inv(t)
  {
    Near(s, p);
    forall q | q in t.procs ensures Good(t, q) { Near(s, q); }
  }

  lemma OpenLockKept(s: State, t: State, p: Id)
    requires Inv(s) && OpensLock(s, t, p)
    ensures Inv(t)
  {
    Near(s, p);
    forall q | q in t.procs ensures Good(t, q) { Near(s, q); }
  }

  lemma FlockKept(s: State, t: State, p: Id)
    requires Inv(s) && Flocks(s, t, p)
    ensures Inv(t)
  {
    Near(s, p);
    forall q | q in t.procs ensures Good(t, q) { Near(s, q); }
  }

  /** Adoption never takes the lock: the inherited description holds it already. */
  lemma AdoptKept(s: State, t: State, p: Id)
    requires Inv(s) && Adopts(s, t, p)
    ensures s.locked == Some(Description(s, p))
    ensures Inv(t)
  {
    Near(s, p);
    LocalKept(s, p, t.procs[p].pc, t.procs[p].gateR, t.procs[p].gateW);
  }

  lemma ClaimKept(s: State, t: State, p: Id, raised: bool)
    requires Inv(s) && Claims(s, t, p, raised)
    ensures Inv(t)
  {
    Near(s, p);
    forall q | q in t.procs
      ensures Good(t, q)
    {
      Near(s, q);
      if q != p && Alive(s, q) && FreshPc(s.procs[q].pc) { HoldersRelated(s, p, q); }
    }
  }

  lemma WriteGateKept(s: State, t: State, p: Id)
    requires Inv(s) && WritesGate(s, t, p)
    ensures Inv(t)
  {
    Near(s, p);
    forall q | q in t.procs ensures Good(t, q) { Near(s, q); }
  }

  lemma ReadByteKept(s: State, t: State, p: Id)
    requires Inv(s) && ReadsByte(s, t, p)
    ensures Inv(t)
  {
    Near(s, p);
    forall q | q in t.procs ensures Good(t, q) { Near(s, q); }
  }

  lemma StartAttemptKept(s: State, t: State, p: Id, k: Attempt)
    requires Inv(s) && StartsAttempt(s, t, p, k)
    ensures Inv(t)
  {
    Near(s, p);
    forall q | q in t.procs
      ensures Good(t, q)
    {
      Near(s, q);
      if q != p && Alive(s, q) && Holder(s.procs[q].pc) { HoldersRelated(s, p, q); }
    }
  }

  /** x is p after it closed its lock descriptor, alone or with everything else. */
  predicate Closed(s: State, p: Id, x: Proc) {
    && Alive(s, p)
    && (x == Dead(s.procs[p])
        || (x == s.procs[p].(pc := x.pc, lockOpen := false) && (x.pc.Unlocked? || x.pc.Done?)
            && (s.procs[p].pc.Drained? || s.procs[p].pc.Rejected?) && PcFits(x.role, x.pc)))
  }

  /** A close never takes the lock from another sharer of the description. */
  lemma SettleSpares(s: State, p: Id, x: Proc, q: Id)
    requires Inv(s) && Closed(s, p, x) && Alive(s, q) && q != p && Holder(s.procs[q].pc)
    ensures Settle(Put(s, p, x)).locked == s.locked
  {
    Near(s, q);
    assert Shares(Put(s, p, x), q, Description(s, q));
  }

  lemma SettleProc(s: State, p: Id, x: Proc, q: Id)
    requires Inv(s) && Closed(s, p, x) && q in s.procs
    ensures ProcOk(Settle(Put(s, p, x)), q) && GateOk(Settle(Put(s, p, x)), q)
  {
    Near(s, p);
    Near(s, q);
    if q != p && Alive(s, q) && Holder(s.procs[q].pc) { SettleSpares(s, p, x, q); }
  }

  lemma SettleFamily(s: State, p: Id, x: Proc, q: Id)
    requires Inv(s) && Closed(s, p, x) && q in s.procs
    ensures FamilyOk(Settle(Put(s, p, x)), q) && RecoveryOk(Settle(Put(s, p, x)), q)
  {
    Near(s, p);
    Near(s, q);
  }

  lemma SettleKept(s: State, p: Id, x: Proc)
    requires Inv(s) && Closed(s, p, x)
    ensures Inv(Settle(Put(s, p, x)))
  {
    var t := Settle(Put(s, p, x));
    forall q | q in t.procs ensures Good(t, q) { SettleProc(s, p, x, q); SettleFamily(s, p, x, q); }
    if t.locked.Some? {
      var w :| Shares(Put(s, p, x), w, s.locked.value);
      Near(s, w);
    }
  }

  lemma CloseLockKept(s: State, t: State, p: Id)
    requires Inv(s) && ClosesLock(s, t, p)
    ensures Inv(t)
  {
    Near(s, p);
    SettleKept(s, p, s.procs[p].(pc := if s.procs[p].role.Worker? then Unlocked else Done, lockOpen := false));
  }

  lemma DeathKept(s: State, p: Id)
    requires Inv(s) && p in s.procs
    ensures Inv(Settle(Put(s, p, Dead(s.procs[p]))))
  {
    Near(s, p);
    if s.procs[p].alive {
      SettleKept(s, p, Dead(s.procs[p]));
    } else {
      assert Put(s, p, Dead(s.procs[p])) == s;
    }
  }

  /** A compare-and-clear is p's move followed by emptying the cell. */
  lemma ReleaseKept(s: State, t: State, p: Id)
    requires Inv(s) && ReleasesRunner(s, t, p)
    ensures Inv(t)
  {
    var mid := Goto(s, p, Cleared);
    ClearedKept(s, p);
    RegCleared(mid);
    assert t == mid || t == mid.(reg := None);
  }

  lemma ClearedKept(s: State, p: Id)
    requires Inv(s) && At(s, p, Probed)
    ensures Inv(Goto(s, p, Cleared))
  {
    Near(s, p);
    LocalKept(s, p, Cleared, s.procs[p].gateR, s.procs[p].gateW);
  }

  lemma UnregisterKept(s: State, t: State, p: Id)
    requires Inv(s) && Unregisters(s, t, p)
    ensures Inv(t)
  {
    Near(s, p);
    LocalKept(s, p, Quitting, s.procs[p].gateR, s.procs[p].gateW);
    RegCleared(Goto(s, p, Quitting));
  }

  lemma FinalClearKept(s: State, t: State, p: Id)
    requires Inv(s) && FinalClears(s, t, p)
    ensures Inv(t)
  {
    Near(s, p);
    var mid := Put(s, p, s.procs[p].(pc := Done, gateR := false));
    LocalKept(s, p, Done, false, s.procs[p].gateW);
    RegCleared(mid);
  }

  lemma SelfClearKept(s: State, t: State, p: Id)
    requires Inv(s) && SelfClears(s, t, p)
    ensures Inv(t)
  {
    RegCleared(s);
  }

  lemma MakePipeKept(s: State, t: State, p: Id)
    requires Inv(s) && MakesPipe(s, t, p)
    ensures Inv(t)
  {
    Near(s, p);
    LocalKept(s, p, t.procs[p].pc, t.procs[p].gateR, t.procs[p].gateW);
  }

  lemma CloseReadKept(s: State, t: State, p: Id)
    requires Inv(s) && ClosesRead(s, t, p)
    ensures Inv(t)
  {
    Near(s, p);
    LocalKept(s, p, t.procs[p].pc, t.procs[p].gateR, t.procs[p].gateW);
  }

  lemma CloseGateKept(s: State, t: State, p: Id)
    requires Inv(s) && ClosesGate(s, t, p)
    ensures Inv(t)
  {
    Near(s, p);
    LocalKept(s, p, t.procs[p].pc, t.procs[p].gateR, t.procs[p].gateW);
  }

  lemma ReadEndKept(s: State, t: State, p: Id)
    requires Inv(s) && ReadsEnd(s, t, p)
    ensures Inv(t)
  {
    Near(s, p);
    LocalKept(s, p, t.procs[p].pc, t.procs[p].gateR, t.procs[p].gateW);
  }

  lemma CloseGatesKept(s: State, t: State, p: Id)
    requires Inv(s) && ClosesGates(s, t, p)
    ensures Inv(t)
  {
    Near(s, p);
    LocalKept(s, p, t.procs[p].pc, t.procs[p].gateR, t.procs[p].gateW);
  }

  lemma OwnerKept(s: State, t: State, p: Id, a: OwnerStep)
    requires Inv(s) && OwnerNext(s, t, p, a)
    ensures Inv(t)
  {
    match a
    case OpenLock => OpenLockKept(s, t, p);
    case Flock => FlockKept(s, t, p);
    case Sweep(k) => SweepKept(s, k);
    case Release => ReleaseKept(s, t, p);
    case ReleaseChild => ChildKept(s, s.linked, None);
    case LinkChild => ChildKept(s, true, s.childReg);
    case StartAttempt(k) => StartAttemptKept(s, t, p, k);
    case EndAttempt(k) => SweepKept(s, k);
    case SelfClear => SelfClearKept(s, t, p);
    case CloseGates => CloseGatesKept(s, t, p);
    case CloseLock => CloseLockKept(s, t, p);
  }

  lemma LauncherKept(s: State, t: State, p: Id, a: LauncherStep)
    requires Inv(s) && LauncherNext(s, t, p, a)
    ensures Inv(t)
  {
    match a
    case MakePipe => MakePipeKept(s, t, p);
    case Fork(c, pid) => ForkKept(s, t, p, c, pid);
    case CloseRead => CloseReadKept(s, t, p);
    case Claim(raised) => ClaimKept(s, t, p, raised);
    case WriteGate => WriteGateKept(s, t, p);
    case CloseGate => CloseGateKept(s, t, p);
    case KillChild => DeathKept(s, s.procs[p].child.value);
    case Unregister => UnregisterKept(s, t, p);
  }

  lemma WorkerKept(s: State, t: State, p: Id, a: WorkerStep)
    requires Inv(s) && WorkerNext(s, t, p, a)
    ensures Inv(t)
  {
    match a
    case Adopt => AdoptKept(s, t, p);
    case ReadByte => ReadByteKept(s, t, p);
    case ReadEnd => ReadEndKept(s, t, p);
    case ExitSweep(k) => SweepKept(s, k);
    case ExitReleaseChild => ChildKept(s, s.linked, None);
    case FinalClear => FinalClearKept(s, t, p);
  }

  lemma OutsideKept(s: State, t: State, a: OutsideStep)
    requires Inv(s) && OutsideNext(s, t, a)
    ensures Inv(t)
  {
    match a
    case Spawn(p, foreground, pid) => SpawnKept(s, t, p, foreground, pid);
    case Die(p) => DeathKept(s, p);
    case SetStatus(terminal, waiting) => StatusKept(s, terminal, waiting);
    case CancelClear => RegCleared(s);
    case CancelSweep(k) => SweepKept(s, k);
    case SetChild(owner) => ChildKept(s, s.linked, t.childReg);
  }

  lemma InvKept(s: State, a: Action, t: State)
    requires Inv(s) && Next(s, a, t)
    ensures Inv(t)
  {
    match a
    case Move(p, to) => MoveKept(s, t, p, to);
    case Own(p, own) => OwnerKept(s, t, p, own);
    case Launch(p, launch) => LauncherKept(s, t, p, launch);
    case Work(p, work) => WorkerKept(s, t, p, work);
    case Outside(outside) => OutsideKept(s, t, outside);
  }

  // ------------------------------------------------------------ what one step changes about one process

  /** The edges of the program counter graph that are not plain moves. */
  predicate Edge(role: Role, from: Pc, to: Pc) {
    match from
    case Start => to.Opened?
    case Opened => to.Held?
    case Probed => to.Cleared?
    case Recovered => to.Piped?
    case Piped => to.Forked?
    case Forked => to.Parted?
    case Parted => to.Claimed? || to.Failing?
    case Admitted => to.Sent?
    case Failing => to.Reaping?
    case Reaped => to.Quitting?
    case Boot => to.Adopted?
    case Adopted => to.Released? || to.Quitting?
    case Quitting => to.Drained?
    case Drained => if role.Worker? then to.Unlocked? else to.Done?
    case Rejected => if role.Worker? then to.Unlocked? else to.Done?
    case Unlocked => to.Done?
    case _ => false
  }

  /** The acting process of a step; nobody's for a step from outside. */
  predicate ActsAs(a: Action, p: Id) { !a.Outside? && a.p == p }

  predicate Frame(s: State, a: Action, t: State, p: Id)
    requires p in s.procs
  {
    && p in t.procs && t.procs[p].pid == s.procs[p].pid && t.procs[p].role == s.procs[p].role
    && (Alive(t, p) ==> Alive(s, p))
    && (t.procs[p].child == s.procs[p].child || (a.Launch? && a.p == p && a.launch.Fork? && s.procs[p].pc.Piped?))
    && (t.procs[p].pc == s.procs[p].pc
        || (Alive(s, p) && if a.Move? then a == Move(p, t.procs[p].pc) && MoveEdge(s.procs[p].role, s.procs[p].pc, t.procs[p].pc)
                           else Edge(s.procs[p].role, s.procs[p].pc, t.procs[p].pc) && ActsAs(a, p)))
    && (p in t.written ==> p in s.written || a == Launch(p, WriteGate))
    && (p in t.taken ==> p in s.taken || a == Work(p, ReadByte))
  }

  lemma OwnerFrame(s: State, t: State, q: Id, a: OwnerStep, p: Id)
    requires OwnerNext(s, t, q, a) && p in s.procs
    ensures Frame(s, Own(q, a), t, p)
  {
    OwnerLocal(s, t, q, a);
  }

  /** The step from s to t is of q alone: it changes no other process, and of its own only place and descriptors. */
  predicate Local(s: State, t: State, q: Id) {
    && Alive(s, q) && q in t.procs && t.procs == s.procs[q := t.procs[q]] && t.written == s.written && t.taken == s.taken
    && (s.childReg.None? ==> t.childReg.None?)
    && var x, y := s.procs[q], t.procs[q];
       && y == x.(pc := y.pc, lockOpen := y.lockOpen, gateR := y.gateR, gateW := y.gateW)
       && (y.pc == x.pc || Edge(x.role, x.pc, y.pc)) && (y.pc.Recovered? ==> x.pc.Recovered?)
  }

  lemma CloseLocal(s: State, t: State, q: Id)
    requires ClosesLock(s, t, q)
    ensures Local(s, t, q)
  {
  }

  lemma RecoveringLocal(s: State, t: State, q: Id, a: OwnerStep)
    requires OwnerNext(s, t, q, a) && (a.Sweep? || a.Release? || a.ReleaseChild? || a.Flock? || a.OpenLock?)
    ensures Local(s, t, q)
  {
  }

  lemma WorkingLocal(s: State, t: State, q: Id, a: OwnerStep)
    requires OwnerNext(s, t, q, a) && (a.LinkChild? || a.StartAttempt? || a.EndAttempt? || a.SelfClear? || a.CloseGates?)
    ensures Local(s, t, q)
  {
  }

  lemma OwnerLocal(s: State, t: State, q: Id, a: OwnerStep)
    requires OwnerNext(s, t, q, a)
    ensures Local(s, t, q)
  {
    if a.CloseLock? {
      CloseLocal(s, t, q);
    } else if a.Sweep? || a.Release? || a.ReleaseChild? || a.Flock? || a.OpenLock? {
      RecoveringLocal(s, t, q, a);
    } else {
      WorkingLocal(s, t, q, a);
    }
  }

  lemma LauncherFrame(s: State, t: State, q: Id, a: LauncherStep, p: Id)
    requires LauncherNext(s, t, q, a) && p in s.procs
    ensures Frame(s, Launch(q, a), t, p)
  {
    if a.KillChild? || a.Fork? { ChildFrame(s, t, q, a, p); } else { OwnLaunchFrame(s, t, q, a, p); }
  }

  lemma ChildFrame(s: State, t: State, q: Id, a: LauncherStep, p: Id)
    requires LauncherNext(s, t, q, a) && p in s.procs && (a.KillChild? || a.Fork?)
    ensures Frame(s, Launch(q, a), t, p)
  {
  }

  lemma OwnLaunchFrame(s: State, t: State, q: Id, a: LauncherStep, p: Id)
    requires LauncherNext(s, t, q, a) && p in s.procs && !a.KillChild? && !a.Fork?
    ensures Frame(s, Launch(q, a), t, p)
  {
  }

  lemma GateFrame(s: State, t: State, q: Id, a: WorkerStep, p: Id)
    requires WorkerNext(s, t, q, a) && p in s.procs && (a.Adopt? || a.ReadByte? || a.ReadEnd?)
    ensures Frame(s, Work(q, a), t, p)
  {
  }

  lemma ExitFrame(s: State, t: State, q: Id, a: WorkerStep, p: Id)
    requires WorkerNext(s, t, q, a) && p in s.procs && (a.ExitSweep? || a.ExitReleaseChild? || a.FinalClear?)
    ensures Frame(s, Work(q, a), t, p)
  {
  }

  lemma WorkerFrame(s: State, t: State, q: Id, a: WorkerStep, p: Id)
    requires WorkerNext(s, t, q, a) && p in s.procs
    ensures Frame(s, Work(q, a), t, p)
  {
    if a.Adopt? || a.ReadByte? || a.ReadEnd? { GateFrame(s, t, q, a, p); } else { ExitFrame(s, t, q, a, p); }
  }

  lemma OutsideFrame(s: State, t: State, a: OutsideStep, p: Id)
    requires OutsideNext(s, t, a) && p in s.procs
    ensures Frame(s, Outside(a), t, p)
  {
  }

  lemma StepFrame(s: State, a: Action, t: State, p: Id)
    requires Next(s, a, t) && p in s.procs
    ensures Frame(s, a, t, p)
  {
    match a
    case Move(q, to) =>
    case Own(q, own) => OwnerFrame(s, t, q, own, p);
    case Launch(q, launch) => LauncherFrame(s, t, q, launch, p);
    case Work(q, work) => WorkerFrame(s, t, q, work, p);
    case Outside(outside) => OutsideFrame(s, t, outside, p);
  }

  /** Only a spawn or a fork brings a process to life, with a pid no living process has. */
  lemma OwnerProcs(s: State, t: State, p: Id, a: OwnerStep)
    requires OwnerNext(s, t, p, a)
    ensures t.procs.Keys == s.procs.Keys
  {
  }

  lemma WorkerProcs(s: State, t: State, p: Id, a: WorkerStep)
    requires WorkerNext(s, t, p, a)
    ensures t.procs.Keys == s.procs.Keys
  {
  }

  lemma LaunchedPid(s: State, t: State, l: Id, a: LauncherStep, p: Id, q: Id)
    requires LauncherNext(s, t, l, a) && p !in s.procs && Alive(t, p) && Alive(t, q) && p != q
    ensures Alive(s, q) && t.procs[p].pid != t.procs[q].pid
  {
    assert a.Fork? && !PidLive(s, a.pid);
  }

  lemma SpawnedPid(s: State, t: State, a: OutsideStep, p: Id, q: Id)
    requires OutsideNext(s, t, a) && p !in s.procs && Alive(t, p) && Alive(t, q) && p != q
    ensures Alive(s, q) && t.procs[p].pid != t.procs[q].pid
  {
    assert a.Spawn? && !PidLive(s, a.pid);
  }

  lemma NewPid(s: State, a: Action, t: State, p: Id, q: Id)
    requires Next(s, a, t) && p !in s.procs && Alive(t, p) && Alive(t, q) && p != q
    ensures Alive(s, q) && t.procs[p].pid != t.procs[q].pid
  {
    match a
    case Move(x, to) =>
    case Own(x, own) => OwnerProcs(s, t, x, own);
    case Launch(x, launch) => LaunchedPid(s, t, x, launch, p, q);
    case Work(x, work) => WorkerProcs(s, t, x, work);
    case Outside(outside) => SpawnedPid(s, t, outside, p, q);
  }

  lemma NewPlace(s: State, a: Action, t: State, p: Id)
    requires Next(s, a, t) && p !in s.procs && p in t.procs
    ensures t.procs[p].pc.Start? || t.procs[p].pc.Boot?
  {
    match a
    case Move(x, to) =>
    case Own(x, own) => OwnerProcs(s, t, x, own);
    case Launch(x, launch) => LaunchedPlace(s, t, x, launch, p);
    case Work(x, work) => WorkerProcs(s, t, x, work);
    case Outside(outside) => SpawnedPlace(s, t, outside, p);
  }

  lemma LaunchedPlace(s: State, t: State, l: Id, a: LauncherStep, p: Id)
    requires LauncherNext(s, t, l, a) && p !in s.procs && p in t.procs
    ensures t.procs[p].pc.Boot?
  {
    assert a.Fork?;
  }

  lemma SpawnedPlace(s: State, t: State, a: OutsideStep, p: Id)
    requires OutsideNext(s, t, a) && p !in s.procs && p in t.procs
    ensures t.procs[p].pc.Start?
  {
    assert a.Spawn?;
  }

  lemma PidsKept(s: State, a: Action, t: State)
    requires PidsDistinct(s) && Next(s, a, t)
    ensures PidsDistinct(t)
  {
    forall p, q | Alive(t, p) && Alive(t, q) && p != q
      ensures t.procs[p].pid != t.procs[q].pid
    {
      if p !in s.procs {
        NewPid(s, a, t, p, q);
      } else if q !in s.procs {
        NewPid(s, a, t, q, p);
      } else {
        StepFrame(s, a, t, p);
        StepFrame(s, a, t, q);
      }
    }
  }

  predicate SameHistory(s: State, t: State) {
    t.written == s.written && t.taken == s.taken && t.claimed == s.claimed
  }

  lemma OwnerHistory(s: State, t: State, p: Id, a: OwnerStep)
    requires OwnerNext(s, t, p, a)
    ensures SameHistory(s, t)
  {
  }

  lemma OutsideHistory(s: State, t: State, a: OutsideStep)
    requires OutsideNext(s, t, a)
    ensures SameHistory(s, t)
  {
  }

  lemma LauncherHistory(s: State, t: State, p: Id, a: LauncherStep)
    requires LauncherNext(s, t, p, a)
    ensures t.taken == s.taken
    ensures t.written == s.written || (a == WriteGate && t.written == s.written + {p})
    ensures t.claimed == s.claimed || (a.Claim? && t.claimed == s.claimed + {s.procs[p].child.value})
  {
  }

  lemma WorkerHistory(s: State, t: State, p: Id, a: WorkerStep)
    requires WorkerNext(s, t, p, a)
    ensures t.written == s.written && t.claimed == s.claimed
    ensures t.taken == s.taken || (a == ReadByte && t.taken == s.taken + {p})
  {
  }

  /** The history sets grow only at their own steps. */
  ghost predicate NewHistory(s: State, a: Action, t: State) {
    && (t.written == s.written || (a.Launch? && a.launch == WriteGate && t.written == s.written + {a.p}))
    && (t.taken == s.taken || (a.Work? && a.work == ReadByte && t.taken == s.taken + {a.p}))
    && (t.claimed == s.claimed
        || (a.Launch? && a.launch.Claim? && Claims(s, t, a.p, a.launch.raised)
            && t.claimed == s.claimed + {s.procs[a.p].child.value}))
  }

  lemma HistoryGrows(s: State, a: Action, t: State)
    requires Next(s, a, t)
    ensures NewHistory(s, a, t)
  {
    match a
    case Move(p, to) =>
    case Own(p, own) => OwnerHistory(s, t, p, own);
    case Launch(p, launch) => LauncherHistory(s, t, p, launch);
    case Work(p, work) => WorkerHistory(s, t, p, work);
    case Outside(outside) => OutsideHistory(s, t, outside);
  }

  // ------------------------------------------------------------ runs

  datatype Run = Run(states: seq<State>, steps: seq<Action>)

  ghost predicate StepAt(r: Run, i: nat)
    requires |r.states| == |r.steps| + 1 && i < |r.steps|
  {
    Next(r.states[i], r.steps[i], r.states[i + 1])
  }

  ghost predicate IsRun(r: Run) {
    && |r.states| == |r.steps| + 1 && r.states[0] == INIT
    && forall i {:trigger StepAt(r, i)} | 0 <= i < |r.steps| :: StepAt(r, i)
  }

  lemma FrameAt(r: Run, i: nat, p: Id)
    requires IsRun(r) && i < |r.steps| && p in r.states[i].procs
    ensures Frame(r.states[i], r.steps[i], r.states[i + 1], p)
  {
    assert StepAt(r, i);
    StepFrame(r.states[i], r.steps[i], r.states[i + 1], p);
  }

  lemma HistoryAt(r: Run, i: nat)
    requires IsRun(r) && i < |r.steps|
    ensures NewHistory(r.states[i], r.steps[i], r.states[i + 1])
  {
    assert StepAt(r, i);
    HistoryGrows(r.states[i], r.steps[i], r.states[i + 1]);
  }

  lemma {:induction false} RunInv(r: Run, i: nat)
    requires IsRun(r) && i < |r.states|
    ensures Inv(r.states[i]) && PidsDistinct(r.states[i])
  {
    if i > 0 {
      RunInv(r, i - 1);
      assert StepAt(r, i - 1);
      InvKept(r.states[i - 1], r.steps[i - 1], r.states[i]);
      PidsKept(r.states[i - 1], r.steps[i - 1], r.states[i]);
    }
  }

  predicate Works(s: State, p: Id) { At(s, p, Working) }

  /** At most one process does solve work, whatever the interleaving. */
  lemma OneProcessWorks(r: Run, i: nat, p: Id, q: Id)
    requires IsRun(r) && i < |r.states|
    requires Works(r.states[i], p) && Works(r.states[i], q)
    ensures p == q
  {
    RunInv(r, i);
    HoldersRelated(r.states[i], p, q);
    Near(r.states[i], p);
    Near(r.states[i], q);
  }

  /** The step at which something that holds now, and not at first, became true. */
  lemma {:induction false} FirstWritten(r: Run, i: nat, l: Id) returns (k: nat)
    requires IsRun(r) && i < |r.states| && l in r.states[i].written
    ensures k < i && r.steps[k] == Launch(l, WriteGate)
  {
    assert i > 0;
    if l in r.states[i - 1].written {
      k := FirstWritten(r, i - 1, l);
    } else {
      k := i - 1;
      HistoryAt(r, k);
    }
  }

  /** The parent run is neither finished nor waiting for input. */
  predicate Open(s: State) { !s.terminal && !s.waiting }

  predicate ClaimBy(a: Action, l: Id) { a.Launch? && a.p == l && a.launch.Claim? }

  lemma {:induction false} FirstClaimed(r: Run, i: nat, l: Id, w: Id) returns (k: nat)
    requires IsRun(r) && i < |r.states| && w in r.states[i].claimed
    requires w in r.states[i].procs && r.states[i].procs[w].role == Worker(l)
    ensures k < i && ClaimBy(r.steps[k], l) && Open(r.states[k])
    ensures r.states[k + 1].reg == Some(Registration(r.states[i].procs[w].pid, w))
  {
    assert i > 0;
    var s, t := r.states[i - 1], r.states[i];
    RunInv(r, i - 1);
    if w in s.claimed {
      FrameAt(r, i - 1, w);
      k := FirstClaimed(r, i - 1, l, w);
    } else {
      k := i - 1;
      HistoryAt(r, k);
      Near(s, r.steps[k].p);
    }
  }

  lemma {:induction false} FirstTaken(r: Run, i: nat, w: Id) returns (k: nat)
    requires IsRun(r) && i < |r.states| && w in r.states[i].taken
    ensures k < i && r.steps[k] == Work(w, ReadByte)
  {
    assert i > 0;
    if w in r.states[i - 1].taken {
      k := FirstTaken(r, i - 1, w);
    } else {
      k := i - 1;
      HistoryAt(r, k);
    }
  }

  lemma {:induction false} LastAdmitted(r: Run, i: nat, p: Id) returns (k: nat)
    requires IsRun(r) && i < |r.states| && At(r.states[i], p, Admitted)
    ensures k < i && r.steps[k] == Move(p, Admitted) && At(r.states[k], p, Claimed) && Open(r.states[k])
  {
    assert i > 0;
    k := i - 1;
    assert StepAt(r, k);
    if At(r.states[k], p, Admitted) {
      k := LastAdmitted(r, k, p);
    } else {
      AdmittedBy(r.states[k], r.steps[k], r.states[i], p);
    }
  }

  /** Only its own check of the parent run takes a launcher to the gate. */
  lemma AdmittedBy(s: State, a: Action, t: State, p: Id)
    requires Next(s, a, t) && At(t, p, Admitted) && !At(s, p, Admitted)
    ensures a == Move(p, Admitted) && At(s, p, Claimed) && Open(s)
  {
    if p in s.procs { StepFrame(s, a, t, p); } else { NewPlace(s, a, t, p); }
  }

  predicate Checked(pc: Pc) { pc.Held? || pc.Probed? || pc.Cleared? || pc.Recovered? || pc.Working? }

  predicate PastCheck(s: State, w: Id) {
    Alive(s, w) && s.procs[w].role.Worker? && Checked(s.procs[w].pc)
  }

  /** What a worker found when it had read its byte: the run is open, and the registration is its own. */
  predicate Resumes(s: State, a: Action, w: Id) {
    a == Move(w, Held) && At(s, w, Released) && Open(s) && s.reg.Some? && s.reg.value.pid == s.procs[w].pid
  }

  lemma HeldBy(s: State, a: Action, t: State, w: Id)
    requires w in s.procs && Frame(s, a, t, w) && PcFits(s.procs[w].role, s.procs[w].pc)
    requires PastCheck(t, w) && !PastCheck(s, w)
    ensures a == Move(w, Held) && At(s, w, Released)
  {
  }

  lemma ResumedBy(s: State, a: Action, t: State, w: Id)
    requires Next(s, a, t) && PastCheck(t, w) && !PastCheck(s, w)
    requires w in s.procs ==> Good(s, w)
    ensures Resumes(s, a, w)
  {
    if w in s.procs {
      StepFrame(s, a, t, w);
      HeldBy(s, a, t, w);
      assert Moves(s, t, w, Held);
    } else {
      NewPlace(s, a, t, w);
    }
  }

  lemma {:induction false} LastResumed(r: Run, i: nat, w: Id) returns (k: nat)
    requires IsRun(r) && i < |r.states| && PastCheck(r.states[i], w)
    ensures k < i && Resumes(r.states[k], r.steps[k], w)
  {
    assert i > 0;
    k := i - 1;
    assert StepAt(r, k);
    if PastCheck(r.states[k], w) {
      k := LastResumed(r, k, w);
    } else {
      RunInv(r, k);
      Near(r.states[k], w);
      ResumedBy(r.states[k], r.steps[k], r.states[i], w);
    }
  }

  /**
    A detached worker works only after its pid was registered, then its launcher saw the parent run once more and
    wrote the gate byte, then the worker itself read that byte and saw the parent run. Each time the run was neither
    finished nor waiting for input, and the worker found the registration still its own.
  */
  lemma WorkFollowsRegistrationAndGate(r: Run, i: nat, w: Id, l: Id) returns (reg: nat, admit: nat, gate: nat, read: nat, go: nat)
    requires IsRun(r) && i < |r.states| && Works(r.states[i], w) && r.states[i].procs[w].role == Worker(l)
    ensures reg < admit < gate < read < go < i
    ensures ClaimBy(r.steps[reg], l) && !r.states[reg].terminal && !r.states[reg].waiting
    ensures r.states[reg + 1].reg == Some(Registration(r.states[i].procs[w].pid, w))
    ensures r.steps[admit] == Move(l, Admitted) && !r.states[admit].terminal && !r.states[admit].waiting
    ensures r.steps[gate] == Launch(l, WriteGate) && r.steps[read] == Work(w, ReadByte)
    ensures r.steps[go] == Move(w, Held) && !r.states[go].terminal && !r.states[go].waiting
    ensures r.states[go].reg.Some? && r.states[go].reg.value.pid == r.states[i].procs[w].pid
  {
    go := LastResumed(r, i, w);
    RoleFixed(r, go, i, w);
    RunInv(r, go);
    Near(r.states[go], w);
    read := FirstTaken(r, go, w);
    RunInv(r, read);
    assert StepAt(r, read);
    RoleFixed(r, read, go, w);
    gate := FirstWritten(r, read, l);
    assert StepAt(r, gate);
    admit := LastAdmitted(r, gate, l);
    RunInv(r, admit);
    Near(r.states[admit], l);
    ChildOfWorker(r, admit, i, l, w);
    reg := FirstClaimed(r, admit, l, w);
  }

  /** A launcher's child and a worker's launcher name each other for good. */
  lemma ChildOfWorker(r: Run, k: nat, i: nat, l: Id, w: Id)
    requires IsRun(r) && k <= i < |r.states| && l in r.states[k].procs && r.states[k].procs[l].child.Some?
    requires w in r.states[i].procs && r.states[i].procs[w].role == Worker(l)
    ensures r.states[k].procs[l].child == Some(w) && w in r.states[k].procs
    ensures r.states[k].procs[w].role == Worker(l) && r.states[k].procs[w].pid == r.states[i].procs[w].pid
  {
    RunInv(r, i);
    Near(r.states[i], w);
    ChildFixed(r, k, i, l);
    RunInv(r, k);
    Near(r.states[k], l);
    RoleFixed(r, k, i, w);
  }

  lemma {:induction false} RoleFixed(r: Run, i: nat, j: nat, p: Id)
    requires IsRun(r) && i <= j < |r.states| && p in r.states[i].procs
    ensures p in r.states[j].procs && r.states[j].procs[p].role == r.states[i].procs[p].role
    ensures r.states[j].procs[p].pid == r.states[i].procs[p].pid
  {
    if i < j {
      RoleFixed(r, i, j - 1, p);
      FrameAt(r, j - 1, p);
    }
  }

  lemma {:induction false} ChildFixed(r: Run, i: nat, j: nat, l: Id)
    requires IsRun(r) && i <= j < |r.states| && l in r.states[i].procs && r.states[i].procs[l].child.Some?
    ensures l in r.states[j].procs && r.states[j].procs[l].child == r.states[i].procs[l].child
  {
    if i < j {
      ChildFixed(r, i, j - 1, l);
      RunInv(r, j - 1);
      Near(r.states[j - 1], l);
      FrameAt(r, j - 1, l);
    }
  }

  predicate PastFlockPc(role: Role, pc: Pc) {
    !role.Worker? && !pc.Start? && !pc.Opened? && !pc.Rejected?
  }

  /** A launch at this point can no longer write its gate byte. */
  predicate PastGatePc(role: Role, pc: Pc) {
    role.Launcher? && !BeforeFork(pc) && !InLaunch(pc)
  }

  lemma NoWayBack(role: Role, from: Pc, to: Pc)
    requires PcFits(role, from) && (Edge(role, from, to) || MoveEdge(role, from, to))
    ensures PastFlockPc(role, from) ==> PastFlockPc(role, to)
    ensures PastGatePc(role, from) ==> PastGatePc(role, to)
  {
  }

  predicate PastFlock(s: State, l: Id) {
    l in s.procs && PastFlockPc(s.procs[l].role, s.procs[l].pc)
  }

  lemma OneStepOn(r: Run, i: nat, l: Id)
    requires IsRun(r) && i < |r.steps| && l in r.states[i].procs
    ensures PastFlock(r.states[i], l) ==> PastFlock(r.states[i + 1], l)
    ensures CutOff(r.states[i], l) ==> CutOff(r.states[i + 1], l)
  {
    var s, t := r.states[i], r.states[i + 1];
    RunInv(r, i);
    Near(s, l);
    FrameAt(r, i, l);
    if s.procs[l].pc != t.procs[l].pc { NoWayBack(s.procs[l].role, s.procs[l].pc, t.procs[l].pc); }
    if r.steps[i] == Launch(l, WriteGate) {
      assert StepAt(r, i);
      assert LauncherNext(s, t, l, WriteGate);
    }
  }

  lemma {:induction false} PastFlockStays(r: Run, i: nat, j: nat, l: Id)
    requires IsRun(r) && i <= j < |r.states| && PastFlock(r.states[i], l)
    ensures PastFlock(r.states[j], l)
  {
    if i < j {
      PastFlockStays(r, i, j - 1, l);
      OneStepOn(r, j - 1, l);
    }
  }

  /** From the acquisition of the lock to the last sharer's close, the lock is never free and
      never somebody else's. */
  lemma LockNeverFree(r: Run, k: nat, m: nat, l: Id)
    requires IsRun(r) && k < m < |r.states| && r.steps[k] == Own(l, Flock)
    requires AnyShares(r.states[m], l)
    ensures r.states[m].locked == Some(l)
  {
    RunInv(r, k);
    Near(r.states[k], l);
    assert StepAt(r, k);
    PastFlockStays(r, k + 1, m, l);
    RunInv(r, m);
    var w :| Shares(r.states[m], w, l);
    Near(r.states[m], w);
  }

  /** The launch of l ended, or l died, without the gate byte. */
  predicate CutOff(s: State, l: Id) {
    && l in s.procs && s.procs[l].role.Launcher? && l !in s.written
    && (!s.procs[l].alive || PastGatePc(s.procs[l].role, s.procs[l].pc))
  }

  lemma {:induction false} CutOffStays(r: Run, i: nat, j: nat, l: Id)
    requires IsRun(r) && i <= j < |r.states| && CutOff(r.states[i], l)
    ensures CutOff(r.states[j], l)
  {
    if i < j {
      CutOffStays(r, i, j - 1, l);
      OneStepOn(r, j - 1, l);
    }
  }

  /** A launch cut off at any step before the gate write leaves a child that never works. */
  lemma CutLaunchNeverWorks(r: Run, i: nat, j: nat, l: Id, w: Id)
    requires IsRun(r) && i <= j < |r.states| && CutOff(r.states[i], l)
    requires w in r.states[j].procs && r.states[j].procs[w].role == Worker(l)
    ensures !Works(r.states[j], w)
  {
    CutOffStays(r, i, j, l);
    RunInv(r, j);
    Near(r.states[j], w);
  }

  /** A registration disappears only by its own process, or after its process is gone: no launcher,
      recovery or late finalizer clears the registration of another living process. */
  lemma ClearsOnlyOwnOrGone(r: Run, i: nat)
    requires IsRun(r) && i < |r.steps| && r.states[i].reg.Some? && r.states[i + 1].reg != r.states[i].reg
    ensures r.states[i + 1].reg.None?
    ensures var owner := r.states[i].reg.value.owner;
            ActsAs(r.steps[i], owner) || !Alive(r.states[i], owner)
  {
    RunInv(r, i);
    if r.steps[i].Launch? { Near(r.states[i], r.steps[i].p); }
    assert StepAt(r, i);
    OneClear(r.states[i], r.steps[i], r.states[i + 1]);
  }

  /** The registration goes by its own process, or after its process is gone. */
  predicate ClearedRightly(s: State, a: Action, t: State)
    requires s.reg.Some?
  {
    t.reg == s.reg || (t.reg.None? && (ActsAs(a, s.reg.value.owner) || !Alive(s, s.reg.value.owner)))
  }

  lemma OwnerClears(s: State, t: State, p: Id, a: OwnerStep)
    requires OwnerNext(s, t, p, a) && PidsDistinct(s) && s.reg.Some?
    requires var o := s.reg.value.owner; o in s.procs && s.procs[o].pid == s.reg.value.pid
    ensures ClearedRightly(s, Own(p, a), t)
  {
    assert Alive(s, p);
  }

  lemma LauncherClears(s: State, t: State, p: Id, a: LauncherStep)
    requires LauncherNext(s, t, p, a) && PidsDistinct(s) && s.reg.Some?
    requires var o := s.reg.value.owner; o in s.procs && s.procs[o].pid == s.reg.value.pid
    requires p in s.procs ==> Good(s, p)
    ensures ClearedRightly(s, Launch(p, a), t)
  {
    assert Alive(s, p);
  }

  lemma WorkerClears(s: State, t: State, p: Id, a: WorkerStep)
    requires WorkerNext(s, t, p, a) && PidsDistinct(s) && s.reg.Some?
    requires var o := s.reg.value.owner; o in s.procs && s.procs[o].pid == s.reg.value.pid
    ensures ClearedRightly(s, Work(p, a), t)
  {
    assert Alive(s, p);
  }

  lemma OneClear(s: State, a: Action, t: State)
    requires Next(s, a, t) && PidsDistinct(s) && s.reg.Some?
    requires var o := s.reg.value.owner; o in s.procs && s.procs[o].pid == s.reg.value.pid
    requires a.Launch? && a.p in s.procs ==> Good(s, a.p)
    ensures ClearedRightly(s, a, t)
  {
    match a
    case Move(p, to) =>
    case Own(p, own) => OwnerClears(s, t, p, own);
    case Launch(p, launch) => LauncherClears(s, t, p, launch);
    case Work(p, work) => WorkerClears(s, t, p, work);
    case Outside(outside) => assert OutsideNext(s, t, outside);
  }

  // ------------------------------------------------------------ what a worker leaves

  /** A worker that passed the gate has come to its normal end. */
  predicate Ended(s: State, w: Id) {
    w in s.procs && s.procs[w].role.Worker? && w in s.taken && s.procs[w].pc.Done?
  }

  predicate NotRegistered(s: State, w: Id) { s.reg.Some? ==> s.reg.value.owner != w }

  lemma OwnerStays(s: State, t: State, p: Id, a: OwnerStep)
    requires OwnerNext(s, t, p, a)
    ensures !At(s, p, Unlocked)
  {
  }

  lemma LauncherStays(s: State, t: State, p: Id, a: LauncherStep)
    requires LauncherNext(s, t, p, a)
    ensures !At(s, p, Unlocked)
  {
  }

  lemma WorkerEnds(s: State, t: State, p: Id, a: WorkerStep)
    requires WorkerNext(s, t, p, a) && At(s, p, Unlocked)
    ensures FinalClears(s, t, p)
  {
  }

  /** The last step of a worker takes its registration away. */
  lemma EndClears(s: State, a: Action, t: State, w: Id)
    requires Inv(s) && Next(s, a, t) && w in s.procs && Ended(t, w) && !Ended(s, w)
    ensures NotRegistered(t, w)
  {
    Near(s, w);
    StepFrame(s, a, t, w);
    HistoryGrows(s, a, t);
    assert s.procs[w].pc.Unlocked? && ActsAs(a, w);
    match a
    case Move(p, to) =>
    case Own(p, own) => OwnerStays(s, t, p, own);
    case Launch(p, launch) => LauncherStays(s, t, p, launch);
    case Work(p, work) => WorkerEnds(s, t, p, work);
    case Outside(outside) =>
  }

  /** Registrations are made by claims only. */
  predicate RegBy(s: State, a: Action, t: State) {
    t.reg == s.reg || t.reg.None? || (a.Launch? && At(s, a.p, Parted) && ChildIn(s, a.p) && t.reg.value.owner == s.procs[a.p].child.value)
  }

  lemma OwnerReg(s: State, t: State, p: Id, a: OwnerStep)
    requires OwnerNext(s, t, p, a)
    ensures t.reg == s.reg || t.reg.None?
  {
  }

  lemma LauncherReg(s: State, t: State, p: Id, a: LauncherStep)
    requires LauncherNext(s, t, p, a)
    ensures RegBy(s, Launch(p, a), t)
  {
  }

  lemma WorkerReg(s: State, t: State, p: Id, a: WorkerStep)
    requires WorkerNext(s, t, p, a)
    ensures t.reg == s.reg || t.reg.None?
  {
  }

  lemma StepReg(s: State, a: Action, t: State)
    requires Next(s, a, t)
    ensures RegBy(s, a, t)
  {
    match a
    case Move(p, to) =>
    case Own(p, own) => OwnerReg(s, t, p, own);
    case Launch(p, launch) => LauncherReg(s, t, p, launch);
    case Work(p, work) => WorkerReg(s, t, p, work);
    case Outside(outside) => assert OutsideNext(s, t, outside);
  }

  lemma StaysCleared(s: State, a: Action, t: State, w: Id)
    requires Inv(s) && Next(s, a, t) && Ended(s, w) && NotRegistered(s, w)
    ensures NotRegistered(t, w)
  {
    StepReg(s, a, t);
    Near(s, w);
    if a.Launch? { Near(s, a.p); }
  }

  /** A worker that passed the gate and came to its end leaves no registration, then or later. */
  lemma {:induction false} NothingLeft(r: Run, i: nat, w: Id)
    requires IsRun(r) && i < |r.states| && Ended(r.states[i], w)
    ensures r.states[i].reg.Some? ==> r.states[i].reg.value.owner != w
  {
    assert i > 0;
    var s, t := r.states[i - 1], r.states[i];
    assert StepAt(r, i - 1);
    RunInv(r, i - 1);
    if Ended(s, w) {
      NothingLeft(r, i - 1, w);
      StaysCleared(s, r.steps[i - 1], t, w);
    } else {
      if w !in s.procs { NewPlace(s, r.steps[i - 1], t, w); }
      EndClears(s, r.steps[i - 1], t, w);
    }
  }

  /** A failing launcher kills no process but its own child, and that child has never worked. */
  lemma KillsOnlyItsIdleChild(r: Run, i: nat, p: Id, q: Id)
    requires IsRun(r) && i < |r.steps| && r.steps[i] == Launch(p, KillChild)
    requires Alive(r.states[i], q) && !Alive(r.states[i + 1], q)
    ensures r.states[i].procs[q].role == Worker(p) && q !in r.states[i].taken
    ensures !Works(r.states[i], q)
  {
    RunInv(r, i);
    Near(r.states[i], p);
    Near(r.states[i], q);
    assert StepAt(r, i);
  }

  /** p does not come to recovery by this step. */
  predicate NotRecovered(s: State, t: State, p: Id) { At(t, p, Recovered) ==> At(s, p, Recovered) }

  predicate IsSetChild(a: Action) { a.Outside? && a.outside.SetChild? }

  lemma LocalNotRecovered(s: State, t: State, q: Id, p: Id)
    requires Local(s, t, q)
    ensures NotRecovered(s, t, p)
  {
  }

  lemma LauncherNotRecovered(s: State, t: State, q: Id, a: LauncherStep, p: Id)
    requires LauncherNext(s, t, q, a)
    ensures NotRecovered(s, t, p) && t.childReg == s.childReg
  {
  }

  lemma WorkerNotRecovered(s: State, t: State, q: Id, a: WorkerStep, p: Id)
    requires WorkerNext(s, t, q, a)
    ensures NotRecovered(s, t, p) && (s.childReg.None? ==> t.childReg.None?)
  {
  }

  lemma OutsideNotRecovered(s: State, t: State, a: OutsideStep, p: Id)
    requires OutsideNext(s, t, a)
    ensures NotRecovered(s, t, p) && (s.childReg.None? && t.childReg.Some? ==> a.SetChild?)
  {
  }

  lemma RecoveredBy(s: State, a: Action, t: State, p: Id)
    requires Next(s, a, t)
    ensures NotRecovered(s, t, p) || a == Move(p, Recovered)
    ensures s.childReg.None? && t.childReg.Some? ==> IsSetChild(a)
  {
    match a
    case Move(q, to) =>
    case Own(q, own) =>
      OwnerLocal(s, t, q, own);
      LocalNotRecovered(s, t, q, p);
    case Launch(q, launch) => LauncherNotRecovered(s, t, q, launch, p);
    case Work(q, work) => WorkerNotRecovered(s, t, q, work, p);
    case Outside(outside) => OutsideNotRecovered(s, t, outside, p);
  }

  /** Neither run carries local work, or a registration but the parent run's of p. */
  predicate Clean(s: State, p: Id)
    requires p in s.procs
  {
    s.attempts == map[] && (s.reg.None? || RegIs(s, s.procs[p].pid)) && s.childReg.None?
  }

  ghost predicate ChildSetBetween(r: Run, k: nat, i: nat) {
    exists m {:trigger r.steps[m]} :: k < m < i <= |r.steps| && IsSetChild(r.steps[m])
  }

  /** Recovery is reached with both runs clean; later only a process outside the protocol registers for the child. */
  lemma {:induction false} RecoveryReached(r: Run, i: nat, p: Id) returns (k: nat)
    requires IsRun(r) && i < |r.states| && At(r.states[i], p, Recovered)
    ensures k < i && r.steps[k] == Move(p, Recovered) && At(r.states[k + 1], p, Recovered) && Clean(r.states[k + 1], p)
    ensures r.states[i].childReg.None? || ChildSetBetween(r, k, i)
  {
    assert i > 0;
    var s, t := r.states[i - 1], r.states[i];
    assert StepAt(r, i - 1);
    RecoveredBy(s, r.steps[i - 1], t, p);
    if At(s, p, Recovered) {
      k := RecoveryReached(r, i - 1, p);
      if s.childReg.Some? { var m :| k < m < i - 1 && IsSetChild(r.steps[m]); }
    } else {
      k := i - 1;
      RunInv(r, k);
      RunInv(r, i);
      Near(t, p);
      assert s.attempts == map[];
    }
  }

  /** While a continuation stands at recovery, no local work of either run and no registration of the
      parent run but its own is left, nobody is working, and the child run carries no registration
      unless somebody outside the protocol made one since recovery was reached. */
  lemma RecoveryIsClean(r: Run, i: nat, p: Id, q: Id) returns (k: nat)
    requires IsRun(r) && i < |r.states| && At(r.states[i], p, Recovered)
    ensures r.states[i].attempts == map[]
    ensures r.states[i].reg.Some? ==> r.states[i].reg.value.pid == r.states[i].procs[p].pid
    ensures k < i && r.steps[k] == Move(p, Recovered) && At(r.states[k + 1], p, Recovered) && Clean(r.states[k + 1], p)
    ensures r.states[i].childReg.None? || ChildSetBetween(r, k, i)
    ensures !Works(r.states[i], q)
  {
    RunInv(r, i);
    Near(r.states[i], p);
    if Works(r.states[i], q) {
      HoldersRelated(r.states[i], p, q);
      Near(r.states[i], q);
    }
    k := RecoveryReached(r, i, p);
  }

  predicate IsSweep(a: Action) { (a.Own? && a.own.Sweep?) || (a.Work? && a.work.ExitSweep?) }

  /** Recovery and the exit cleanup stop registered work only while no other process works. */
  lemma SweepSparesReplacement(r: Run, i: nat, q: Id)
    requires IsRun(r) && i < |r.steps| && IsSweep(r.steps[i])
    ensures !Works(r.states[i], q)
  {
    var s, a := r.states[i], r.steps[i];
    assert StepAt(r, i);
    var p := a.p;
    assert Alive(s, p) && Holder(s.procs[p].pc);
    RunInv(r, i);
    if Works(r.states[i], q) {
      HoldersRelated(r.states[i], p, q);
      Near(r.states[i], p);
      Near(r.states[i], q);
    }
  }

  /** All registered work belongs to the one process that works. */
  lemma WorkIsOwned(r: Run, i: nat, p: Id, k: Attempt)
    requires IsRun(r) && i < |r.states| && Works(r.states[i], p) && k in r.states[i].attempts
    ensures r.states[i].attempts[k] == p
  {
    RunInv(r, i);
    Near(r.states[i], p);
  }

  // ------------------------------------------------------------ such runs exist

  /** There is a run that ends in this state. */
  ghost predicate Reached(s: State) {
    exists r :: IsRun(r) && r.states[|r.steps|] == s
  }

  lemma ReachedStart()
    ensures Reached(INIT)
  {
    var r := Run([INIT], []);
    assert IsRun(r) && r.states[|r.steps|] == INIT;
  }

  lemma ReachedNext(s: State, a: Action, t: State)
    requires Reached(s) && Next(s, a, t)
    ensures Reached(t)
  {
    var r :| IsRun(r) && r.states[|r.steps|] == s;
    var q := Run(r.states + [t], r.steps + [a]);
    forall i | 0 <= i < |q.steps| ensures StepAt(q, i) {
      if i < |r.steps| { assert StepAt(r, i); }
    }
    assert IsRun(q) && q.states[|q.steps|] == t;
  }

  /** A process alone in the world, past its opening of the lock. */
  function Alone(role: Role, pid: nat, pc: Pc): State {
    INIT.(procs := map[0 := Proc(role, pid, pc, true, true, false, false, None)], locked := Some(0))
  }

  /** A launcher reaches the end of its recovery. */
  lemma LauncherReached(pid: nat)
    ensures Reached(Alone(Launcher, pid, Recovered))
  {
    ReachedStart();
    var s0 := INIT.(procs := map[0 := Proc(Launcher, pid, Start, true, false, false, false, None)]);
    assert INIT.procs[0 := s0.procs[0]] == s0.procs;
    ReachedNext(INIT, Outside(Spawn(0, false, pid)), s0);
    var s1 := Alone(Launcher, pid, Opened).(locked := None);
    assert s0.procs[0 := s1.procs[0]] == s1.procs;
    ReachedNext(s0, Own(0, OpenLock), s1);
    assert s1.procs[0 := Alone(Launcher, pid, Held).procs[0]] == Alone(Launcher, pid, Held).procs;
    ReachedNext(s1, Own(0, Flock), Alone(Launcher, pid, Held));
    AloneMoves(pid, Held, Probed);
    AloneMoves(pid, Probed, Cleared);
    AloneMoves(pid, Cleared, Recovered);
  }

  lemma AloneMoves(pid: nat, from: Pc, to: Pc)
    requires Reached(Alone(Launcher, pid, from))
    requires (from == Held && to == Probed) || (from == Probed && to == Cleared) || (from == Cleared && to == Recovered)
    ensures Reached(Alone(Launcher, pid, to))
  {
    var s, t := Alone(Launcher, pid, from), Alone(Launcher, pid, to);
    assert s.procs[0 := t.procs[0]] == t.procs;
    ReachedNext(s, if to == Cleared then Own(0, Release) else Move(0, to), t);
  }

  /** A launcher and its worker, with what they have done on the way to these program points. */
  function Pair(pid: nat, wpid: nat, l: Pc, w: Pc): State {
    INIT.(procs := map[0 := Proc(Launcher, pid, l, true, true, l.Forked?, true, Some(1)),
                       1 := Proc(Worker(0), wpid, w, true, true, !AfterGate(w), false, None)],
          locked := Some(0),
          reg := if l.Forked? || l.Parted? then None else Some(Registration(wpid, 1)), claimed := if l.Forked? || l.Parted? then {} else {1},
          written := if l.Sent? then {0} else {}, taken := if AfterGate(w) then {1} else {})
  }

  lemma ForkReached(pid: nat, wpid: nat)
    requires pid != wpid
    ensures Reached(Pair(pid, wpid, Forked, Boot))
  {
    LauncherReached(pid);
    var s0 := Alone(Launcher, pid, Recovered);
    var s1 := s0.(procs := map[0 := Proc(Launcher, pid, Piped, true, true, true, true, None)]);
    assert s0.procs[0 := s1.procs[0]] == s1.procs;
    ReachedNext(s0, Launch(0, MakePipe), s1);
    var s2 := Pair(pid, wpid, Forked, Boot);
    assert s1.procs[0 := s2.procs[0]][1 := s2.procs[1]] == s2.procs;
    ReachedNext(s1, Launch(0, Fork(1, wpid)), s2);
  }

  lemma LaunchMoves(pid: nat, wpid: nat, from: Pc, a: Action, to: Pc)
    requires pid != wpid && Reached(Pair(pid, wpid, from, Boot))
    requires (from == Forked && a == Launch(0, CloseRead) && to == Parted) || (from == Parted && a == Launch(0, Claim(false)) && to == Claimed)
             || (from == Claimed && a == Move(0, Admitted) && to == Admitted) || (from == Admitted && a == Launch(0, WriteGate) && to == Sent)
    ensures Reached(Pair(pid, wpid, to, Boot))
  {
    var s, t := Pair(pid, wpid, from, Boot), Pair(pid, wpid, to, Boot);
    assert s.procs[0 := t.procs[0]] == t.procs;
    ReachedNext(s, a, t);
  }

  /** The worker of a launcher that died just after its gate write. */
  function Orphan(pid: nat, wpid: nat, w: Pc): State {
    var s := Pair(pid, wpid, Sent, w);
    Put(s, 0, Dead(s.procs[0]))
  }

  lemma OrphanMoves(pid: nat, wpid: nat, from: Pc, a: Action, to: Pc)
    requires pid != wpid && Reached(Orphan(pid, wpid, from))
    requires (from == Boot && a == Work(1, Adopt) && to == Adopted) || (from == Adopted && a == Work(1, ReadByte) && to == Released)
             || (from == Released && a == Move(1, Held) && to == Held) || (from == Held && a == Move(1, Probed) && to == Probed)
             || (from == Probed && a == Own(1, Release) && to == Cleared) || (from == Cleared && a == Move(1, Recovered) && to == Recovered)
             || (from == Recovered && a == Move(1, Working) && to == Working)
    ensures Reached(Orphan(pid, wpid, to))
  {
    var s, t := Orphan(pid, wpid, from), Orphan(pid, wpid, to);
    assert s.procs[1 := t.procs[1]] == t.procs;
    ReachedNext(s, a, t);
  }

  lemma SentReached(pid: nat, wpid: nat)
    requires pid != wpid
    ensures Reached(Pair(pid, wpid, Sent, Boot))
  {
    ForkReached(pid, wpid);
    LaunchMoves(pid, wpid, Forked, Launch(0, CloseRead), Parted);
    LaunchMoves(pid, wpid, Parted, Launch(0, Claim(false)), Claimed);
    LaunchMoves(pid, wpid, Claimed, Move(0, Admitted), Admitted);
    LaunchMoves(pid, wpid, Admitted, Launch(0, WriteGate), Sent);
  }

  lemma OrphanReached(pid: nat, wpid: nat)
    requires pid != wpid
    ensures Reached(Orphan(pid, wpid, Boot))
  {
    SentReached(pid, wpid);
    var s, t := Pair(pid, wpid, Sent, Boot), Orphan(pid, wpid, Boot);
    assert t == Put(s, 0, Dead(s.procs[0]));
    assert Shares(t, 1, 0);
    ReachedNext(s, Outside(Die(0)), t);
  }

  /** A detached worker gets to work although its launcher died right after the gate write. */
  lemma WorkerReached(pid: nat, wpid: nat)
    requires pid != wpid
    ensures Reached(Orphan(pid, wpid, Working))
    ensures Works(Orphan(pid, wpid, Working), 1) && !Alive(Orphan(pid, wpid, Working), 0)
  {
    OrphanReached(pid, wpid);
    OrphanMoves(pid, wpid, Boot, Work(1, Adopt), Adopted);
    OrphanMoves(pid, wpid, Adopted, Work(1, ReadByte), Released);
    OrphanMoves(pid, wpid, Released, Move(1, Held), Held);
    OrphanMoves(pid, wpid, Held, Move(1, Probed), Probed);
    OrphanMoves(pid, wpid, Probed, Own(1, Release), Cleared);
    OrphanMoves(pid, wpid, Cleared, Move(1, Recovered), Recovered);
    OrphanMoves(pid, wpid, Recovered, Move(1, Working), Working);
  }
}
