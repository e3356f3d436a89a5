/** Processes, CPUs and the locks between them (proc.c, sleeplock.c, spinlock.c): one step is one lock operation or one
    assignment under a lock, by any of any number of CPUs and processes. */
module Scheduling {
  import opened Common

  datatype PState = Unused | Embryo | Sleeping | Runnable | Running | Zombie

  /** What a process sleeps on: nothing, one of the sleep locks, or (in wait) its own process structure. */
  datatype Chan = NoChan | Lock(l: nat) | Child

  /** What a process does next. The comment says which spin locks it holds: `lk` guards sleep lock `l`, `pt` is
      ptable.lock. */
  datatype Pc =
    | Out               //        anything else
    | AcqLk(l: nat)     //        acquiresleep: acquire(lk)
    | AcqTest(l: nat)   // lk     test locked
    | AcqPt(l: nat)     // lk     sleep: acquire(pt)
    | AcqDrop(l: nat)   // lk pt  release(lk)
    | AcqMark(l: nat)   // pt     set chan and state
    | AcqSwtch(l: nat)  // pt     swtch, SLEEPING
    | AcqBack(l: nat)   // pt     resumed: clear chan
    | AcqFree(l: nat)   // pt     release(pt), then acquire(lk) again
    | AcqDone(l: nat)   // lk     release(lk), the lock being taken
    | RelLk(l: nat)     //        releasesleep: acquire(lk)
    | RelClear(l: nat)  // lk     clear locked
    | RelPt(l: nat)     // lk     wakeup: acquire(pt)
    | RelWake(l: nat)   // lk pt  wakeup1
    | RelDrop(l: nat)   // lk pt  release(pt)
    | RelDone(l: nat)   // lk     release(lk)
    | YldMark           // pt     yield: set state
    | YldSwtch          // pt     swtch, RUNNABLE
    | PtDrop            // pt     release(pt) and go on with what `ret` says
    | ExitMark          // pt     exit: wake the parent, hand over the children, set state
    | ExitSwtch         // pt     swtch, ZOMBIE
    | Dead              //        never resumed
    | WaitScan          // pt     wait: look at the children
    | WaitSwtch         // pt     swtch, SLEEPING
    | WaitBack          // pt     resumed: clear chan
    | ForkPick          // pt     allocproc: find an unused slot
    | ForkHold(q: nat)  // pt   release(pt)
    | ForkBuild(q: nat) //      copy the process
    | ForkAcq(q: nat)   //      acquire(pt)
    | ForkReady(q: nat) // pt   make the child runnable

  predicate HoldsPt(pc: Pc) {
    pc.AcqDrop? || pc.AcqMark? || pc.AcqSwtch? || pc.AcqBack? || pc.AcqFree? || pc.RelWake? || pc.RelDrop?
      || pc.YldMark?
    || pc.YldSwtch? || pc.PtDrop? || pc.ExitMark? || pc.ExitSwtch? || pc.WaitScan? || pc.WaitSwtch? || pc.WaitBack?
    || pc.ForkPick? || pc.ForkHold? || pc.ForkReady?
  }

  /** The sleep lock whose spin lock the process holds. */
  function LkAt(pc: Pc): Option<nat> {
    match pc
    case AcqTest(l) => Some(l)
    case AcqPt(l) => Some(l)
    case AcqDrop(l) => Some(l)
    case AcqDone(l) => Some(l)
    case RelClear(l) => Some(l)
    case RelPt(l) => Some(l)
    case RelWake(l) => Some(l)
    case RelDrop(l) => Some(l)
    case RelDone(l) => Some(l)
    case _ => None
  }

  /** The sleep lock that acquiresleep or releasesleep was called for. */
  function LockOf(pc: Pc): Option<nat> {
    match pc
    case AcqLk(l) => Some(l)
    case AcqMark(l) => Some(l)
    case AcqSwtch(l) => Some(l)
    case AcqBack(l) => Some(l)
    case AcqFree(l) => Some(l)
    case RelLk(l) => Some(l)
    case _ => LkAt(pc)
  }

  /** Where the timer can interrupt: no spin lock is held. */
  predicate Free(pc: Pc) {
    pc.Out? || pc.AcqLk? || pc.RelLk? || pc.ForkBuild? || pc.ForkAcq?
  }

  /** Which of the sleep locks the process has, or does not have, at this point. */
  predicate MineAt(pc: Pc, mine: set<nat>) {
    && (pc.AcqDone? || pc.RelLk? || pc.RelClear? ==> pc.l in mine)
    && (pc.RelPt? || pc.RelWake? || pc.RelDrop? || pc.RelDone? ==> pc.l !in mine)
    && (pc.ExitMark? || pc.ExitSwtch? || pc.Dead? ==> mine == {})
  }

  /** The state of a process executing at this point. */
  function StateAt(pc: Pc): PState {
    if pc.AcqSwtch? || pc.WaitSwtch? then Sleeping
    else if pc.YldSwtch? then Runnable
    else if pc.ExitSwtch? then Zombie
    else Running
  }

  function ChanAt(pc: Pc): Chan {
    if pc.AcqSwtch? || pc.AcqBack? then Lock(pc.l) else if pc.WaitSwtch? || pc.WaitBack? then Child else NoChan
  }

  /** The points from which a process only takes or drops a lock, or finds the sleep lock taken. */
  predicate IsPlain(pc: Pc) {
    pc.AcqLk? || pc.AcqTest? || pc.AcqPt? || pc.AcqDrop? || pc.AcqFree? || pc.AcqDone? || pc.RelLk? || pc.RelPt?
      || pc.RelDrop?
    || pc.RelDone? || pc.ForkHold? || pc.ForkAcq?
  }

  /** What comes next there. */
  function Then(pc: Pc): Pc {
    match pc
    case AcqLk(l) => AcqTest(l)
    case AcqTest(l) => AcqPt(l)
    case AcqPt(l) => AcqDrop(l)
    case AcqDrop(l) => AcqMark(l)
    case AcqFree(l) => AcqLk(l)
    case AcqDone(l) => Out
    case RelLk(l) => RelClear(l)
    case RelPt(l) => RelWake(l)
    case RelDrop(l) => RelDone(l)
    case RelDone(l) => Out
    case ForkHold(q) => ForkBuild(q)
    case ForkAcq(q) => ForkReady(q)
    case _ => pc
  }

  predicate IsSwtch(pc: Pc) { pc.AcqSwtch? || pc.YldSwtch? || pc.ExitSwtch? || pc.WaitSwtch? }

  /** Where a process that has switched to the scheduler goes on. */
  function Resume(pc: Pc): Pc {
    if pc.AcqSwtch? then AcqBack(pc.l) else if pc.WaitSwtch? then WaitBack else if pc.ExitSwtch? then Dead else PtDrop
  }

  /** `on` is the CPU the process is executing on, `mine` are the sleep locks it has, `maker` is who is forking it. */
  datatype Proc = Proc(state: PState, chan: Chan, parent: Option<nat>, pc: Pc, ret: Pc, on: Option<nat>, mine: set<nat>,
                       maker: Option<nat>)

  /** What a CPU executes: its scheduler, or a process. */
  datatype Thread = Idle | Scan | Back | Process(p: nat)

  datatype Cpu = Cpu(proc: Option<nat>, exec: Thread)

  /** A sleep lock: its spin lock `lk`, which like all spin locks records the CPU that holds it, and who has it if it is
      locked. */
  datatype Sleeplock = Sleeplock(lk: Option<nat>, locked: bool, owner: nat)

  datatype State = State(cpus: seq<Cpu>, procs: seq<Proc>, pt: Option<nat>, locks: seq<Sleeplock>)

  // ----- The invariant -----

  ghost predicate CpuOk(s: State, c: nat) {
    c < |s.cpus| ==>
      var u := s.cpus[c];
      match u.exec
      case Idle => u.proc == None && s.pt != Some(c)
      case Scan => u.proc == None && s.pt == Some(c)
      case Back => u.proc.Some? && s.pt == Some(c)
      case Process(p) =>
        && p < |s.procs| && u.proc == Some(p) && s.procs[p].on == Some(c)
        && (s.pt == Some(c) <==> HoldsPt(s.procs[p].pc))
  }

  /** CPU `c` holds the spin lock of sleep lock `l` exactly if the process it executes does. */
  ghost predicate SpinOk(s: State, c: nat, l: nat) {
    c < |s.cpus| && l < |s.locks| ==>
      (s.locks[l].lk == Some(c) <==>
       s.cpus[c].exec.Process? && s.cpus[c].exec.p < |s.procs| && LkAt(s.procs[s.cpus[c].exec.p].pc) == Some(l))
  }

  /** A sleep lock that is locked has an owner, who has it. */
  ghost predicate LockOk(s: State, l: nat) {
    l < |s.locks| ==>
      && (s.locks[l].lk.Some? ==> s.locks[l].lk.value < |s.cpus|)
      && (s.locks[l].locked ==> s.locks[l].owner < |s.procs| && l in s.procs[s.locks[l].owner].mine)
  }

  predicate InRange(s: State, pc: Pc) { LockOf(pc).Some? ==> LockOf(pc).value < |s.locks| }

  /** What a process has it owns. */
  ghost predicate MineOk(s: State, p: nat, l: nat) {
    p < |s.procs| && l in s.procs[p].mine ==> l < |s.locks| && s.locks[l].locked && s.locks[l].owner == p
  }

  ghost predicate ProcOk(s: State, p: nat) {
    p < |s.procs| ==>
      var x := s.procs[p];
      && MineAt(x.pc, x.mine) && MineAt(x.ret, x.mine) && InRange(s, x.pc) && InRange(s, x.ret)
      && Free(x.ret) && (x.ret != Out ==> x.pc.YldMark? || x.pc.YldSwtch? || x.pc.PtDrop?)
      && ((x.state.Unused? || x.state.Embryo?) ==> x.mine == {} && x.on == None)
      && match x.on
         case Some(c) =>
           c < |s.cpus| && s.cpus[c].exec == Process(p) && x.state == StateAt(x.pc) && x.chan == ChanAt(x.pc)
             && !x.pc.Dead?
         case None =>
           match x.state
           case Unused => x.parent == None && (x.pc.Dead? || x.pc.PtDrop?)
           case Embryo => x.pc == PtDrop && x.ret == Out && x.chan == NoChan
           case Sleeping => (x.pc.AcqBack? || x.pc.WaitBack?) && x.chan == ChanAt(x.pc)
           case Runnable => (x.pc.AcqBack? || x.pc.WaitBack? || x.pc.PtDrop?) && x.chan == ChanAt(x.pc)
           case Running => false
           case Zombie => x.pc == Dead
  }

  /** A releaser of sleep lock `l` has cleared `locked` and not yet called wakeup1. */
  ghost predicate Pending(s: State, l: nat) {
    && l < |s.locks| && s.locks[l].lk.Some? && s.locks[l].lk.value < |s.cpus| && Owes(s, s.locks[l].lk.value, l)
  }

  ghost predicate Owes(s: State, c: nat, l: nat)
    requires c < |s.cpus|
  {
    && s.cpus[c].exec.Process? && s.cpus[c].exec.p < |s.procs|
    && (s.procs[s.cpus[c].exec.p].pc == RelPt(l) || s.procs[s.cpus[c].exec.p].pc == RelWake(l))
  }

  /** The sleep lock that the process has found taken, if it has not been woken since. */
  function WaitsFor(x: Proc): Option<nat> {
    match x.pc
    case AcqPt(l) => Some(l)
    case AcqDrop(l) => Some(l)
    case AcqMark(l) => Some(l)
    case AcqSwtch(l) => Some(l)
    case AcqBack(l) => if x.state == Sleeping then Some(l) else None
    case _ => None
  }

  /** The lock is taken, or its sleepers are about to be woken. */
  ghost predicate Guarded(s: State, l: nat) { l < |s.locks| && (s.locks[l].locked || Pending(s, l)) }

  ghost predicate WaitOk(s: State, p: nat) {
    p < |s.procs| && WaitsFor(s.procs[p]).Some? ==> Guarded(s, WaitsFor(s.procs[p]).value)
  }

  predicate InWait(x: Proc) { x.pc == WaitSwtch || (x.pc == WaitBack && x.state == Sleeping) }

  predicate Alive(x: Proc) { (x.state.Sleeping? || x.state.Runnable? || x.state.Running?) }

  /** Every process but init has a parent, which is alive, and not asleep in wait if the child is a zombie. */
  ghost predicate KidOk(s: State, q: nat) {
    q < |s.procs| ==>
      && (q != 0 && (Alive(s.procs[q]) || s.procs[q].state.Zombie?) ==> s.procs[q].parent.Some?)
      && (s.procs[q].parent.Some? ==>
          var r := s.procs[q].parent.value;
          r < |s.procs| && r != q && Alive(s.procs[r]) && (s.procs[q].state == Zombie ==> !InWait(s.procs[r])))
  }

  function Making(pc: Pc): Option<nat> {
    if pc.ForkHold? || pc.ForkBuild? || pc.ForkAcq? || pc.ForkReady? then Some(pc.q) else None
  }

  function Makes(x: Proc): Option<nat> { if Making(x.pc).Some? then Making(x.pc) else Making(x.ret) }

  ghost predicate ForkOk(s: State, p: nat) {
    p < |s.procs| && Makes(s.procs[p]).Some? ==>
      var q := Makes(s.procs[p]).value;
      && q < |s.procs| && s.procs[q].state == Embryo && s.procs[q].maker == Some(p)
      && s.procs[q].parent == if Bare(s.procs[p].pc) || Bare(s.procs[p].ret) then None else Some(p)
  }

  /** The child has no parent yet. */
  predicate Bare(pc: Pc) { pc.ForkHold? || pc.ForkBuild? }

  ghost predicate Inv(s: State) {
    && (s.pt.Some? ==> s.pt.value < |s.cpus|)
    && |s.procs| > 0 && Alive(s.procs[0]) && s.procs[0].parent == None
    && (forall c: nat :: CpuOk(s, c))
    && (forall c: nat, l: nat :: SpinOk(s, c, l))
    && (forall l: nat :: LockOk(s, l))
    && (forall p: nat, l: nat :: MineOk(s, p, l))
    && (forall p: nat :: ProcOk(s, p))
    && (forall p: nat :: WaitOk(s, p))
    && (forall p: nat :: KidOk(s, p))
    && (forall p: nat :: ForkOk(s, p))
  }

  // ----- The steps -----

  datatype Step =
    | SchedAcquire(c: nat) | Pick(c: nat, p: nat) | Clear(c: nat) | SchedRelease(c: nat)
    | Begin(c: nat, to: Pc)         // a process calls acquiresleep or releasesleep
    | Enter(c: nat, to: Pc)         // a process takes ptable.lock for yield, exit, wait or fork
    | Plain(c: nat) | Swtch(c: nat)
    | TakeLock(c: nat) | FallAsleep(c: nat) | WakeUp(c: nat) | GiveLock(c: nat) | WakeAll(c: nat)
    | Yield(c: nat) | Resumed(c: nat) | Exit(c: nat)
    | Reap(c: nat, q: nat) | WaitLeave(c: nat) | WaitSleep(c: nat) | WaitAgain(c: nat)
    | ForkTake(c: nat, q: nat) | ForkFail(c: nat) | ForkParent(c: nat) | ForkDone(c: nat)
    | Kill(q: nat)

  predicate Executes(s: State, c: nat) {
    c < |s.cpus| && s.cpus[c].exec.Process? && s.cpus[c].exec.p < |s.procs|
  }

  function Who(s: State, c: nat): nat
    requires Executes(s, c)
  {
    s.cpus[c].exec.p
  }

  function Me(s: State, c: nat): Proc
    requires Executes(s, c)
  {
    s.procs[s.cpus[c].exec.p]
  }

  predicate IsKid(s: State, p: nat, q: nat) { q < |s.procs| && s.procs[q].parent == Some(p) }

  predicate Enabled(s: State, step: Step) {
    match step
    case SchedAcquire(c) => c < |s.cpus| && s.cpus[c].exec.Idle? && s.pt == None
    case Pick(c, p) => c < |s.cpus| && s.cpus[c].exec.Scan? && p < |s.procs| && s.procs[p].state == Runnable
    case Clear(c) => c < |s.cpus| && s.cpus[c].exec.Back?
    case SchedRelease(c) => c < |s.cpus| && s.cpus[c].exec.Scan?
    case Begin(c, to) =>
      && Executes(s, c) && Me(s, c).pc.Out? && (to.AcqLk? || to.RelLk?) && to.l < |s.locks|
      && (to.RelLk? ==> to.l in Me(s, c).mine)
    case Enter(c, to) =>
      && Executes(s, c) && s.pt == None
      && (if to.YldMark? then Free(Me(s, c).pc)
          else
            && Me(s, c).pc.Out?
            && (to.WaitScan? || to.ForkPick? || (to.ExitMark? && Me(s, c).mine == {} && Who(s, c) != 0)))
    case Plain(c) =>
      && Executes(s, c) && IsPlain(Me(s, c).pc) && Available(s, c, Then(Me(s, c).pc))
      && (Me(s, c).pc.AcqTest? ==> Me(s, c).pc.l < |s.locks| && s.locks[Me(s, c).pc.l].locked)
    case Swtch(c) => Executes(s, c) && IsSwtch(Me(s, c).pc)
    case TakeLock(c) => Executes(s, c) && Me(s, c).pc.AcqTest? && Me(s, c).pc.l < |s.locks|
      && !s.locks[Me(s, c).pc.l].locked
    case FallAsleep(c) => Executes(s, c) && Me(s, c).pc.AcqMark?
    case WakeUp(c) => Executes(s, c) && Me(s, c).pc.AcqBack?
    case GiveLock(c) => Executes(s, c) && Me(s, c).pc.RelClear? && Me(s, c).pc.l < |s.locks|
    case WakeAll(c) => Executes(s, c) && Me(s, c).pc.RelWake?
    case Yield(c) => Executes(s, c) && Me(s, c).pc.YldMark?
    case Resumed(c) => Executes(s, c) && Me(s, c).pc.PtDrop?
    case Exit(c) => Executes(s, c) && Me(s, c).pc.ExitMark? && Who(s, c) != 0    // init exiting is a panic
    case Reap(c, q) => Executes(s, c) && Me(s, c).pc.WaitScan? && IsKid(s, Who(s, c), q) && s.procs[q].state == Zombie
    case WaitLeave(c) => Executes(s, c) && Me(s, c).pc.WaitScan?
    case WaitSleep(c) =>
      && Executes(s, c) && Me(s, c).pc.WaitScan?
      && (forall q: nat | q < |s.procs| :: IsKid(s, Who(s, c), q) ==> s.procs[q].state != Zombie)
    case WaitAgain(c) => Executes(s, c) && Me(s, c).pc.WaitBack?
    case ForkTake(c, q) => Executes(s, c) && Me(s, c).pc.ForkPick? && q < |s.procs| && s.procs[q].state == Unused
    case ForkFail(c) => Executes(s, c) && Me(s, c).pc.ForkBuild? && Me(s, c).pc.q < |s.procs|
    case ForkParent(c) => Executes(s, c) && Me(s, c).pc.ForkBuild? && Me(s, c).pc.q < |s.procs|
    case ForkDone(c) => Executes(s, c) && Me(s, c).pc.ForkReady? && Me(s, c).pc.q < |s.procs|
    case Kill(q) => q < |s.procs| && s.procs[q].state == Sleeping && s.pt == None
  }

  /** The locks needed at `to` that the process on CPU `c` does not have are free. */
  predicate Available(s: State, c: nat, to: Pc)
    requires Executes(s, c)
  {
    && (HoldsPt(to) && !HoldsPt(Me(s, c).pc) ==> s.pt == None)
    && (LkAt(to).Some? && LkAt(to) != LkAt(Me(s, c).pc) ==>
      LkAt(to).value < |s.locks| && s.locks[LkAt(to).value].lk == None)
  }

  /** Who has a lock once CPU `c` holds it or not as `want` says. */
  function Held(lock: Option<nat>, c: nat, want: bool): Option<nat> {
    if want then Some(c) else if lock == Some(c) then None else lock
  }

  /** The sleep locks once CPU `c` holds the spin lock of `want` and no other. */
  function Spun(locks: seq<Sleeplock>, c: nat, want: Option<nat>): seq<Sleeplock> {
    seq(|locks|, l requires 0 <= l < |locks| => locks[l].(lk := Held(locks[l].lk, c, want == Some(l))))
  }

  /** The process on CPU `c` changes. */
  function SetMe(s: State, c: nat, x: Proc): State
    requires Executes(s, c)
  {
    s.(procs := s.procs[s.cpus[c].exec.p := x])
  }

  /** The process on CPU `c` goes on to `to`, with the locks that takes. */
  function Move(s: State, c: nat, to: Pc): State
    requires Executes(s, c)
  {
    SetMe(s, c, Me(s, c).(pc := to)).(pt := Held(s.pt, c, HoldsPt(to)), locks := Spun(s.locks, c, LkAt(to)))
  }

  /** The process on CPU `c` switches to the scheduler, to go on where `Resume` says. */
  function SwitchOut(s: State, c: nat): State
    requires Executes(s, c)
  {
    SetMe(s, c, Me(s, c).(pc := Resume(Me(s, c).pc), on := None)).(cpus := s.cpus[c := s.cpus[c].(exec := Back)])
  }

  function Woken(x: Proc, chan: Chan): Proc {
    if x.state == Sleeping && x.chan == chan then x.(state := Runnable) else x
  }

  /** wakeup1 on a sleep lock. */
  function WakeLock(procs: seq<Proc>, l: nat): seq<Proc> {
    seq(|procs|, i requires 0 <= i < |procs| => Woken(procs[i], Lock(l)))
  }

  function Took(s: State, c: nat): State
    requires Executes(s, c) && Me(s, c).pc.AcqTest? && Me(s, c).pc.l < |s.locks|
  {
    var l := Me(s, c).pc.l;
    SetMe(s, c, Me(s, c).(pc := AcqDone(l), mine := Me(s, c).mine + {l}))
      .(locks := s.locks[l := s.locks[l].(locked := true, owner := Who(s, c))])
  }

  function Gave(s: State, c: nat): State
    requires Executes(s, c) && Me(s, c).pc.RelClear? && Me(s, c).pc.l < |s.locks|
  {
    var l := Me(s, c).pc.l;
    SetMe(s, c, Me(s, c).(pc := RelPt(l), mine := Me(s, c).mine - {l}))
      .(locks := s.locks[l := s.locks[l].(locked := false)])
  }

  function WokeAll(s: State, c: nat): State
    requires Executes(s, c) && Me(s, c).pc.RelWake?
  {
    SetMe(s.(procs := WakeLock(s.procs, Me(s, c).pc.l)), c, Me(s, c).(pc := RelDrop(Me(s, c).pc.l)))
  }

  /** exit's wakeup1 of the parent. */
  function WakeParent(procs: seq<Proc>, p: nat): seq<Proc>
    requires p < |procs|
  {
    var r := procs[p].parent;
    if r.Some? && r.value < |procs| then procs[r.value := Woken(procs[r.value], Child)] else procs
  }

  predicate HasZombie(procs: seq<Proc>, p: nat) {
    exists q :: 0 <= q < |procs| && procs[q].parent == Some(p) && procs[q].state == Zombie
  }

  /** exit's handing over of the children to init, which is woken if one of them is a zombie. */
  function HandOver(procs: seq<Proc>, p: nat): seq<Proc>
    requires 0 < |procs|
  {
    var given := seq(|procs|, i requires 0 <= i < |procs| =>
      if procs[i].parent == Some(p) then procs[i].(parent := Some(0)) else procs[i]);
    if HasZombie(procs, p) then given[0 := Woken(given[0], Child)] else given
  }

  function Exited(s: State, c: nat): State
    requires Executes(s, c)
  {
    var p := Who(s, c);
    var procs := HandOver(WakeParent(s.procs, p), p);
    s.(procs := procs[p := procs[p].(state := Zombie, pc := ExitSwtch)])
  }

  /** wait frees the slot of a zombie. */
  function Freed(s: State, c: nat, q: nat): State
    requires Executes(s, c) && q < |s.procs|
  {
    SetMe(s.(procs := s.procs[q := s.procs[q].(state := Unused, parent := None)]), c, Me(s, c).(pc := PtDrop))
  }

  /** allocproc gives an unused slot out. */
  function Given(s: State, c: nat, q: nat): State
    requires Executes(s, c) && q < |s.procs|
  {
    SetMe(s.(procs := s.procs[q := Proc(Embryo, NoChan, None, PtDrop, Out, None, {}, Some(Who(s, c)))]), c,
      Me(s, c).(pc := ForkHold(q)))
  }

  predicate Forking(s: State, c: nat) {
    Executes(s, c) && (Me(s, c).pc.ForkBuild? || Me(s, c).pc.ForkReady?) && Me(s, c).pc.q < |s.procs|
  }

  function Failed(s: State, c: nat): State
    requires Forking(s, c)
  {
    var q := Me(s, c).pc.q;
    SetMe(s.(procs := s.procs[q := s.procs[q].(state := Unused, maker := None)]), c, Me(s, c).(pc := Out))
  }

  function Parented(s: State, c: nat): State
    requires Forking(s, c)
  {
    var q := Me(s, c).pc.q;
    SetMe(s.(procs := s.procs[q := s.procs[q].(parent := Some(Who(s, c)))]), c, Me(s, c).(pc := ForkAcq(q)))
  }

  function Ready(s: State, c: nat): State
    requires Forking(s, c)
  {
    var q := Me(s, c).pc.q;
    SetMe(s.(procs := s.procs[q := s.procs[q].(state := Runnable, maker := None)]), c, Me(s, c).(pc := PtDrop))
  }

  function Slept(s: State, c: nat): State
    requires Executes(s, c) && Me(s, c).pc.AcqMark?
  {
    SetMe(s, c, Me(s, c).(pc := AcqSwtch(Me(s, c).pc.l), state := Sleeping, chan := Lock(Me(s, c).pc.l)))
  }

  function Roused(s: State, c: nat): State
    requires Executes(s, c) && Me(s, c).pc.AcqBack?
  {
    SetMe(s, c, Me(s, c).(pc := AcqFree(Me(s, c).pc.l), chan := NoChan))
  }

  function Yielded(s: State, c: nat): State
    requires Executes(s, c)
  {
    SetMe(s, c, Me(s, c).(pc := YldSwtch, state := Runnable))
  }

  function WentOn(s: State, c: nat): State
    requires Executes(s, c)
  {
    SetMe(s, c, Me(s, c).(pc := Me(s, c).ret, ret := Out)).(pt := None)
  }

  function Dozed(s: State, c: nat): State
    requires Executes(s, c)
  {
    SetMe(s, c, Me(s, c).(pc := WaitSwtch, state := Sleeping, chan := Child))
  }

  function Searched(s: State, c: nat): State
    requires Executes(s, c)
  {
    SetMe(s, c, Me(s, c).(pc := WaitScan, chan := NoChan))
  }

  /** Steps of a process that is neither in exit, wait nor fork. */
  predicate OfLocks(step: Step) {
    step.Begin? || step.Plain? || step.TakeLock? || step.FallAsleep? || step.WakeUp? || step.GiveLock? || step.WakeAll?
    || step.Enter? || step.Swtch? || step.Yield? || step.Resumed?
  }

  function NextLock(s: State, step: Step): State
    requires Enabled(s, step) && OfLocks(step)
  {
    match step
    case Begin(c, to) => Move(s, c, to)
    case Enter(c, to) =>
      if to.YldMark? then SetMe(s, c, Me(s, c).(pc := YldMark, ret := Me(s, c).pc)).(pt := Some(c)) else Move(s, c, to)
    case Plain(c) => Move(s, c, Then(Me(s, c).pc))
    case Swtch(c) => SwitchOut(s, c)
    case TakeLock(c) => Took(s, c)
    case FallAsleep(c) => Slept(s, c)
    case WakeUp(c) => Roused(s, c)
    case GiveLock(c) => Gave(s, c)
    case WakeAll(c) => WokeAll(s, c)
    case Yield(c) => Yielded(s, c)
    case Resumed(c) => WentOn(s, c)
  }

  function NextTable(s: State, step: Step): State
    requires Enabled(s, step) && !OfLocks(step)
  {
    match step
    case SchedAcquire(c) => s.(pt := Some(c), cpus := s.cpus[c := s.cpus[c].(exec := Scan)])
    case Pick(c, p) =>
      s.(cpus := s.cpus[c := Cpu(Some(p), Process(p))],
        procs := s.procs[p := s.procs[p].(state := Running, on := Some(c))])
    case Clear(c) => s.(cpus := s.cpus[c := Cpu(None, Scan)])
    case SchedRelease(c) => s.(pt := None, cpus := s.cpus[c := s.cpus[c].(exec := Idle)])
    case Exit(c) => Exited(s, c)
    case Reap(c, q) => Freed(s, c, q)
    case WaitLeave(c) => Move(s, c, PtDrop)
    case WaitSleep(c) => Dozed(s, c)
    case WaitAgain(c) => Searched(s, c)
    case ForkTake(c, q) => Given(s, c, q)
    case ForkFail(c) => Failed(s, c)
    case ForkParent(c) => Parented(s, c)
    case ForkDone(c) => Ready(s, c)
    case Kill(q) => s.(procs := s.procs[q := s.procs[q].(state := Runnable)])
  }

  function Next(s: State, step: Step): State
    requires Enabled(s, step)
  {
    if OfLocks(step) then NextLock(s, step) else NextTable(s, step)
  }

  // ----- Every step keeps the invariant -----

  /** A lock stays as it is, or CPU `c` takes or drops it. */
  predicate Passed(before: Option<nat>, after: Option<nat>, c: nat) {
    after == before || (before == None && after == Some(c)) || (before == Some(c) && after == None)
  }

  /** A zombie's parent does not go to sleep in wait. */
  ghost predicate Watched(s: State, p: nat) {
    forall q: nat :: IsKid(s, p, q) ==> s.procs[q].state != Zombie
  }

  /** What a step of the process in slot `p` on CPU `c`, which becomes `x`, may do to sleep lock `l`. Only who holds its
      spin lock takes it or gives it up, and then the sleepers are still to be woken. */
  ghost predicate LockStep(s: State, t: State, c: nat, p: nat, x: Proc, l: nat)
    requires p < |s.procs|
  {
    l < |s.locks| ==>
      && l < |t.locks| && Passed(s.locks[l].lk, t.locks[l].lk, c)
      && (|| (t.locks[l].locked == s.locks[l].locked && t.locks[l].owner == s.locks[l].owner
        && (l in x.mine <==> l in s.procs[p].mine))
          || (!s.locks[l].locked && t.locks[l].locked && t.locks[l].owner == p && l in x.mine)
          || (l in s.procs[p].mine && !t.locks[l].locked && l !in x.mine))
      && (s.locks[l].lk != Some(c) ==> t.locks[l].locked == s.locks[l].locked)
      && (s.locks[l].lk == Some(c) && Guarded(s, l) ==> Guarded(t, l))
      && SpinOk(t, c, l)
  }

  /** A step in which only CPU `c` and the process it executes, or comes to execute, change. */
  lemma FrameStep(s: State, t: State, c: nat, p: nat, u: Cpu, x: Proc)
    requires Inv(s) && c < |s.cpus| && p < |s.procs| && (s.cpus[c].exec.Process? ==> s.cpus[c].exec.p == p)
    requires t == State(s.cpus[c := u], s.procs[p := x], t.pt, t.locks) && |t.locks| == |s.locks|
    requires Passed(s.pt, t.pt, c) && forall l: nat :: LockStep(s, t, c, p, x, l)
    requires s.procs[p].on == None || s.procs[p].on == Some(c) || x == s.procs[p]
    requires x.parent == s.procs[p].parent && x.maker == s.procs[p].maker && (Alive(s.procs[p]) ==> Alive(x))
    requires forall l :: l in x.mine ==> l < |s.locks|
    requires InWait(x) ==> InWait(s.procs[p]) || Watched(s, p)
    requires x.state.Embryo? <==> s.procs[p].state.Embryo?
    requires CpuOk(t, c) && ProcOk(t, p) && WaitOk(t, p) && ForkOk(t, p) && KidOk(t, p)
    ensures Inv(t)
  {
    hide HoldsPt, LkAt, LockOf, MineAt, StateAt, ChanAt, Free, Bare, WaitsFor, Makes, Guarded, LockStep, LockOk,
      SpinOk, MineOk;
    assert ProcOk(s, p) && CpuOk(s, c);
    forall d: nat ensures CpuOk(t, d) { assert CpuOk(s, d); }
    forall q: nat ensures ProcOk(t, q) { assert ProcOk(s, q); }
    forall l: nat ensures LockOk(t, l) && (Guarded(s, l) ==> Guarded(t, l)) { FrameLock(s, t, c, p, u, x, l); }
    forall d: nat, l: nat ensures SpinOk(t, d, l) { FrameSpin(s, t, c, p, u, x, d, l); }
    forall q: nat, l: nat ensures MineOk(t, q, l) { FrameMine(s, t, c, p, x, q, l); }
    forall q: nat ensures WaitOk(t, q) { assert WaitOk(s, q); }
    forall q: nat ensures KidOk(t, q) { assert KidOk(s, q); assert IsKid(s, p, q) == IsKid(t, p, q); }
    forall q: nat ensures ForkOk(t, q) { assert ForkOk(s, q); }
  }

  lemma FrameMine(s: State, t: State, c: nat, p: nat, x: Proc, q: nat, l: nat)
    requires p < |s.procs| && t.procs == s.procs[p := x] && |t.locks| == |s.locks| && MineOk(s, p, l) && MineOk(s, q, l)
      && LockOk(s, l)
    requires LockStep(s, t, c, p, x, l) && (l in x.mine ==> l < |s.locks|)
    ensures MineOk(t, q, l)
  {
    hide Guarded, SpinOk;
  }

  lemma FrameSpin(s: State, t: State, c: nat, p: nat, u: Cpu, x: Proc, d: nat, l: nat)
    requires Inv(s) && c < |s.cpus| && p < |s.procs| && LockStep(s, t, c, p, x, l) && |t.locks| == |s.locks|
    requires t.cpus == s.cpus[c := u] && t.procs == s.procs[p := x]
      && (s.cpus[c].exec.Process? ==> s.cpus[c].exec.p == p)
    requires s.procs[p].on == None || s.procs[p].on == Some(c) || x == s.procs[p]
    ensures SpinOk(t, d, l)
  {
    assert SpinOk(s, d, l) && CpuOk(s, d);
    hide Inv, LkAt, Guarded;
  }

  lemma FrameLock(s: State, t: State, c: nat, p: nat, u: Cpu, x: Proc, l: nat)
    requires Inv(s) && c < |s.cpus| && p < |s.procs| && LockStep(s, t, c, p, x, l) && |t.locks| == |s.locks|
    requires t.cpus == s.cpus[c := u] && t.procs == s.procs[p := x]
    requires s.procs[p].on == None || s.procs[p].on == Some(c) || x == s.procs[p]
    ensures LockOk(t, l) && (Guarded(s, l) ==> Guarded(t, l))
  {
    assert LockOk(s, l) && (l < |s.locks| && s.locks[l].locked ==> MineOk(s, s.locks[l].owner, l));
    assert MineOk(s, p, l);
    if Pending(s, l) { assert CpuOk(s, s.locks[l].lk.value) && SpinOk(s, s.locks[l].lk.value, l); }
    hide Inv, SpinOk;
  }

  /** A step that leaves the sleep locks alone, and the one lock that the process is at. */
  lemma LocksAlone(s: State, t: State, c: nat, p: nat, x: Proc)
    requires Inv(s) && Executes(s, c) && Who(s, c) == p && t.locks == s.locks && x.mine == s.procs[p].mine
    requires t.cpus == s.cpus && t.procs == s.procs[p := x] && LkAt(x.pc) == LkAt(s.procs[p].pc)
    requires forall l: nat :: s.procs[p].pc == RelPt(l) || s.procs[p].pc == RelWake(l) ==>
      x.pc == RelPt(l) || x.pc == RelWake(l)
    ensures forall l: nat :: LockStep(s, t, c, p, x, l)
  {
    forall l: nat ensures LockStep(s, t, c, p, x, l) {
      assert SpinOk(s, c, l);
      hide Inv;
    }
  }

  /** A step in which only the process on CPU `c` changes, and stays alive and there. */
  lemma LocalStep(s: State, t: State, c: nat, x: Proc)
    requires Inv(s) && Executes(s, c)
    requires t == s.(procs := s.procs[Who(s, c) := x], pt := t.pt, locks := t.locks) && |t.locks| == |s.locks|
    requires Passed(s.pt, t.pt, c) && forall l: nat :: LockStep(s, t, c, Who(s, c), x, l)
    requires x.parent == Me(s, c).parent && x.maker == Me(s, c).maker && Alive(Me(s, c)) && Alive(x)
    requires forall l :: l in x.mine ==> l < |s.locks|
    requires InWait(x) ==> InWait(Me(s, c)) || Watched(s, Who(s, c))
    requires CpuOk(t, c) && ProcOk(t, Who(s, c)) && WaitOk(t, Who(s, c)) && ForkOk(t, Who(s, c))
    ensures Inv(t)
  {
    var p := Who(s, c);
    assert CpuOk(s, c) && ProcOk(s, p) && KidOk(s, p);
    hide LockStep;
    assert KidOk(t, p);
    FrameStep(s, t, c, p, s.cpus[c], x);
  }

  /** The sleep locks a process has are there. */
  lemma MineThere(s: State, p: nat)
    requires Inv(s) && p < |s.procs|
    ensures forall l :: l in s.procs[p].mine ==> l < |s.locks|
  {
    forall l | l in s.procs[p].mine ensures l < |s.locks| { assert MineOk(s, p, l); }
  }

  /** What the invariant says of the process on CPU `c`. */
  lemma Here(s: State, c: nat)
    requires Inv(s) && Executes(s, c)
    ensures CpuOk(s, c) && ProcOk(s, Who(s, c)) && WaitOk(s, Who(s, c)) && KidOk(s, Who(s, c)) && ForkOk(s, Who(s, c))
  {}

  /** Going from `pc` to `to` changes nothing but the locks held and the embryo in the making. */
  predicate Smooth(pc: Pc, to: Pc, mine: set<nat>) {
    && MineAt(to, mine) && StateAt(pc) == StateAt(to) == Running && ChanAt(pc) == ChanAt(to) == NoChan
    && !to.Dead? && !to.RelPt? && !pc.RelWake? && !pc.PtDrop? && !pc.YldMark? && !pc.YldSwtch?
    && (pc.RelPt? ==> to == RelWake(pc.l)) && (to.RelWake? ==> pc.RelPt?)
    && (to.AcqPt? || to.AcqDrop? || to.AcqMark? ==> (pc.AcqTest? || pc.AcqPt? || pc.AcqDrop?) && pc.l == to.l)
    && !to.AcqSwtch? && !to.AcqBack? && !to.WaitSwtch? && !to.WaitBack?
    && (Making(to).Some? && !pc.ForkPick? ==> Bare(to) == Bare(pc))
  }

  /** What the spin locks of the sleep locks are after a process has moved on. */
  lemma MoveLock(s: State, c: nat, to: Pc, l: nat)
    requires Inv(s) && Executes(s, c) && Smooth(Me(s, c).pc, to, Me(s, c).mine) && Available(s, c, to)
    ensures var t := Move(s, c, to); LockStep(s, t, c, Who(s, c), Me(t, c), l)
  {
    hide MineAt, StateAt, ChanAt, Bare, Making, HoldsPt, LockOf;
    assert SpinOk(s, c, l) && CpuOk(s, c);
    hide Inv;
  }

  /** Steps in which nothing but the pc and the locks change. */
  lemma GoKeeps(s: State, c: nat, to: Pc)
    requires Inv(s) && Executes(s, c) && Smooth(Me(s, c).pc, to, Me(s, c).mine) && Available(s, c, to) && InRange(s, to)
    requires Me(s, c).pc.AcqTest? ==> Guarded(s, Me(s, c).pc.l)
    requires Making(to) == Making(Me(s, c).pc) || Making(to) == None || ForkOk(Move(s, c, to), Who(s, c))
    ensures Inv(Move(s, c, to))
  {
    Here(s, c);
    MineThere(s, Who(s, c));
    var t := Move(s, c, to);
    forall l: nat ensures LockStep(s, t, c, Who(s, c), Me(t, c), l) { MoveLock(s, c, to, l); }
    MoveWait(s, c, to);
    hide Inv, HoldsPt, LkAt, LockOf, MineAt, StateAt, ChanAt, Bare, Making, LockStep, Guarded, SpinOk, WaitOk;
    LocalStep(s, t, c, Me(t, c));
  }

  lemma MoveWait(s: State, c: nat, to: Pc)
    requires Inv(s) && Executes(s, c) && Smooth(Me(s, c).pc, to, Me(s, c).mine) && Available(s, c, to) && InRange(s, to)
    requires Me(s, c).pc.AcqTest? ==> Guarded(s, Me(s, c).pc.l)
    ensures WaitOk(Move(s, c, to), Who(s, c))
  {
    Here(s, c);
    var p, t := Who(s, c), Move(s, c, to);
    if to.AcqPt? || to.AcqDrop? || to.AcqMark? {
      assert SpinOk(s, c, to.l);
      MoveLock(s, c, to, to.l);
      hide Inv;
    }
  }

  lemma ThenSmooth(pc: Pc, mine: set<nat>)
    requires IsPlain(pc) && MineAt(pc, mine)
    ensures Smooth(pc, Then(pc), mine) && Making(Then(pc)) == Making(pc)
      && (LockOf(Then(pc)).Some? ==> LockOf(Then(pc)) == LockOf(pc))
  {}

  lemma PlainKeeps(s: State, c: nat)
    requires Inv(s) && Enabled(s, Plain(c))
    ensures Inv(Move(s, c, Then(Me(s, c).pc)))
  {
    Here(s, c);
    ThenSmooth(Me(s, c).pc, Me(s, c).mine);
    hide Inv, Smooth, Available, Move, Making, LockOf;
    GoKeeps(s, c, Then(Me(s, c).pc));
  }

  /** acquiresleep finds the lock free. */
  lemma TakesLock(s: State, c: nat)
    requires Inv(s) && Executes(s, c) && Me(s, c).pc.AcqTest? && Me(s, c).pc.l < |s.locks|
      && !s.locks[Me(s, c).pc.l].locked
    ensures Inv(Took(s, c))
  {
    hide Inv, LockStep, Guarded, CpuOk, ProcOk, WaitOk, ForkOk, Alive;
    TookOk(s, c);
    MineThere(s, Who(s, c));
    var t := Took(s, c);
    forall l: nat ensures LockStep(s, t, c, Who(s, c), Me(t, c), l) { TookLock(s, c, l); }
    LocalStep(s, t, c, Me(t, c));
  }

  lemma TookOk(s: State, c: nat)
    requires Inv(s) && Executes(s, c) && Me(s, c).pc.AcqTest? && Me(s, c).pc.l < |s.locks|
    ensures var t, p := Took(s, c), Who(s, c); CpuOk(t, c) && ProcOk(t, p) && WaitOk(t, p) && ForkOk(t, p)
    ensures Alive(Me(s, c)) && Alive(Me(Took(s, c), c))
  {
    hide Inv;
    Here(s, c);
  }

  lemma TookLock(s: State, c: nat, l: nat)
    requires Inv(s) && Executes(s, c) && Me(s, c).pc.AcqTest? && Me(s, c).pc.l < |s.locks|
      && !s.locks[Me(s, c).pc.l].locked
    ensures var t := Took(s, c); LockStep(s, t, c, Who(s, c), Me(t, c), l)
  {
    assert SpinOk(s, c, l) && MineOk(s, Who(s, c), l);
    hide Inv;
  }

  /** sleep sets the channel and the state. */
  lemma FallsAsleep(s: State, c: nat)
    requires Inv(s) && Executes(s, c) && Me(s, c).pc.AcqMark?
    ensures var l := Me(s, c).pc.l; Inv(SetMe(s, c, Me(s, c).(pc := AcqSwtch(l), state := Sleeping, chan := Lock(l))))
  {
    Here(s, c);
    MineThere(s, Who(s, c));
    var l := Me(s, c).pc.l;
    var t := SetMe(s, c, Me(s, c).(pc := AcqSwtch(l), state := Sleeping, chan := Lock(l)));
    LocksAlone(s, t, c, Who(s, c), Me(t, c));
    StillGuarded(s, t, c, l);
    hide Inv, LockStep, Guarded;
    LocalStep(s, t, c, Me(t, c));
  }

  /** A process that owes no wakeup can change without one being lost. */
  lemma StillGuarded(s: State, t: State, c: nat, l: nat)
    requires Inv(s) && Executes(s, c) && t.locks == s.locks && t.cpus == s.cpus && |t.procs| == |s.procs|
    requires t.procs == s.procs[Who(s, c) := t.procs[Who(s, c)]] && !Me(s, c).pc.RelPt? && !Me(s, c).pc.RelWake?
    ensures Guarded(s, l) ==> Guarded(t, l)
  {
    if Pending(s, l) { assert CpuOk(s, s.locks[l].lk.value) && CpuOk(s, c); }
  }

  /** sleep, resumed, clears the channel. */
  lemma WakesUp(s: State, c: nat)
    requires Inv(s) && Executes(s, c) && Me(s, c).pc.AcqBack?
    ensures Inv(SetMe(s, c, Me(s, c).(pc := AcqFree(Me(s, c).pc.l), chan := NoChan)))
  {
    Here(s, c);
    MineThere(s, Who(s, c));
    var t := SetMe(s, c, Me(s, c).(pc := AcqFree(Me(s, c).pc.l), chan := NoChan));
    LocksAlone(s, t, c, Who(s, c), Me(t, c));
    hide Inv, LockStep, Guarded;
    LocalStep(s, t, c, Me(t, c));
  }

  /** releasesleep gives the lock up; from here to wakeup1 the sleepers are still to be woken. */
  lemma GivesLock(s: State, c: nat)
    requires Inv(s) && Executes(s, c) && Me(s, c).pc.RelClear? && Me(s, c).pc.l < |s.locks|
    ensures Inv(Gave(s, c))
  {
    hide Inv, LockStep, Guarded, CpuOk, ProcOk, WaitOk, ForkOk, Alive;
    GaveOk(s, c);
    MineThere(s, Who(s, c));
    var t := Gave(s, c);
    forall l: nat ensures LockStep(s, t, c, Who(s, c), Me(t, c), l) { GaveLock(s, c, l); }
    LocalStep(s, t, c, Me(t, c));
  }

  lemma GaveOk(s: State, c: nat)
    requires Inv(s) && Executes(s, c) && Me(s, c).pc.RelClear? && Me(s, c).pc.l < |s.locks|
    ensures var t, p := Gave(s, c), Who(s, c); CpuOk(t, c) && ProcOk(t, p) && WaitOk(t, p) && ForkOk(t, p)
    ensures Alive(Me(s, c)) && Alive(Me(Gave(s, c), c))
  {
    hide Inv;
    Here(s, c);
  }

  lemma GaveLock(s: State, c: nat, l: nat)
    requires Inv(s) && Executes(s, c) && Me(s, c).pc.RelClear? && Me(s, c).pc.l < |s.locks|
    ensures var t := Gave(s, c); LockStep(s, t, c, Who(s, c), Me(t, c), l)
  {
    Here(s, c);
    assert SpinOk(s, c, l) && MineOk(s, Who(s, c), l);
    hide Inv;
  }

  /** yield sets the state. */
  lemma Yields(s: State, c: nat)
    requires Inv(s) && Executes(s, c) && Me(s, c).pc.YldMark?
    ensures Inv(SetMe(s, c, Me(s, c).(pc := YldSwtch, state := Runnable)))
  {
    hide LockOk, SpinOk, MineOk;
    Here(s, c);
    MineThere(s, Who(s, c));
    var t := SetMe(s, c, Me(s, c).(pc := YldSwtch, state := Runnable));
    LocksAlone(s, t, c, Who(s, c), Me(t, c));
    hide Inv, LockStep, Guarded;
    LocalStep(s, t, c, Me(t, c));
  }

  /** A resumed process drops the ptable.lock its scheduler took. */
  lemma DropsPt(s: State, c: nat)
    requires Inv(s) && Executes(s, c) && Me(s, c).pc.PtDrop?
    ensures Inv(SetMe(s, c, Me(s, c).(pc := Me(s, c).ret, ret := Out)).(pt := None))
  {
    hide Inv, LockStep, Guarded, CpuOk, ProcOk, WaitOk, ForkOk, Alive;
    MineThere(s, Who(s, c));
    var t := SetMe(s, c, Me(s, c).(pc := Me(s, c).ret, ret := Out)).(pt := None);
    DropOk(s, c, t);
    LocksAlone(s, t, c, Who(s, c), Me(t, c));
    LocalStep(s, t, c, Me(t, c));
  }

  lemma DropOk(s: State, c: nat, t: State)
    requires Inv(s) && Executes(s, c) && Me(s, c).pc.PtDrop?
    requires t == SetMe(s, c, Me(s, c).(pc := Me(s, c).ret, ret := Out)).(pt := None)
    ensures var p := Who(s, c); CpuOk(t, c) && ProcOk(t, p) && WaitOk(t, p) && ForkOk(t, p)
    ensures Alive(Me(s, c)) && Alive(Me(t, c)) && Passed(s.pt, t.pt, c) && !InWait(Me(t, c))
    ensures LkAt(Me(t, c).pc) == LkAt(PtDrop)
  {
    hide Inv;
    Here(s, c);
  }

  /** wait, woken, looks again. */
  lemma WaitAgain(s: State, c: nat)
    requires Inv(s) && Executes(s, c) && Me(s, c).pc.WaitBack?
    ensures Inv(SetMe(s, c, Me(s, c).(pc := WaitScan, chan := NoChan)))
  {
    hide LockOk;
    Here(s, c);
    MineThere(s, Who(s, c));
    var t := SetMe(s, c, Me(s, c).(pc := WaitScan, chan := NoChan));
    LocksAlone(s, t, c, Who(s, c), Me(t, c));
    hide Inv, LockStep, Guarded;
    LocalStep(s, t, c, Me(t, c));
  }

  lemma ResumeFacts(pc: Pc, mine: set<nat>)
    requires IsSwtch(pc) && MineAt(pc, mine)
    ensures var to := Resume(pc);
      && HoldsPt(pc) && LkAt(pc) == LkAt(to) == None && LockOf(to) == LockOf(pc) && MineAt(to, mine)
      && ChanAt(to) == ChanAt(pc) && Making(to) == Making(pc) == None && !Bare(to)
      && (match StateAt(pc)
          case Sleeping => to.AcqBack? || to.WaitBack?
          case Runnable => to.PtDrop?
          case Zombie => to.Dead?
          case _ => false)
      && (to.AcqBack? <==> pc.AcqSwtch?) && (to.AcqBack? ==> to.l == pc.l) && (to.WaitBack? <==> pc.WaitSwtch?)
      && !to.WaitSwtch? && (pc.YldSwtch? <==> to.PtDrop?)
      && !to.AcqPt? && !to.AcqDrop? && !to.AcqMark? && !to.AcqSwtch? && !pc.RelPt? && !pc.RelWake?
  {}

  lemma SwtchGuarded(s: State, c: nat)
    requires Inv(s) && Executes(s, c) && Me(s, c).pc.AcqSwtch?
    ensures Guarded(SwitchOut(s, c), Me(s, c).pc.l)
  {
    Here(s, c);
    var l := Me(s, c).pc.l;
    if Pending(s, l) { assert CpuOk(s, s.locks[l].lk.value) && SpinOk(s, c, l); }
  }

  /** The switch to the scheduler: the lock goes with the CPU, from the process to its scheduler. */
  lemma SwtchKeeps(s: State, c: nat)
    requires Inv(s) && Executes(s, c) && IsSwtch(Me(s, c).pc)
    ensures Inv(SwitchOut(s, c))
  {
    Here(s, c);
    ResumeFacts(Me(s, c).pc, Me(s, c).mine);
    MineThere(s, Who(s, c));
    var p, t := Who(s, c), SwitchOut(s, c);
    forall l: nat ensures LockStep(s, t, c, p, t.procs[p], l) { assert SpinOk(s, c, l); }
    if t.procs[p].pc.AcqBack? { SwtchGuarded(s, c); }
    hide Inv, HoldsPt, LkAt, LockOf, MineAt, StateAt, ChanAt, Resume, Bare, Making, LockStep, Guarded;
    FrameStep(s, t, c, p, t.cpus[c], t.procs[p]);
  }

  /** The scheduler owes nobody a wakeup. */
  lemma SchedGuarded(s: State, t: State, c: nat, p: nat)
    requires Inv(s) && c < |s.cpus| && !s.cpus[c].exec.Process? && p < |s.procs|
    requires |t.cpus| == |s.cpus| && t.cpus == s.cpus[c := t.cpus[c]] && t.locks == s.locks && |t.procs| == |s.procs|
    requires t.procs == s.procs || WaitsFor(t.procs[p]) == None
    ensures WaitOk(t, p)
  {
    assert WaitOk(s, p);
    var l := if WaitsFor(s.procs[p]).Some? then WaitsFor(s.procs[p]).value else 0;
    if Pending(s, l) { assert CpuOk(s, s.locks[l].lk.value) && SpinOk(s, c, l); }
  }

  /** The scheduler's own steps. */
  lemma SchedKeeps(s: State, step: Step)
    requires Inv(s) && Enabled(s, step) && (step.SchedAcquire? || step.Clear? || step.SchedRelease?)
    ensures Inv(Next(s, step))
  {
    hide NextLock, Exited, Move, Freed, Given, Failed, Parented, Ready, Dozed, Searched;
    var c, t := step.c, Next(s, step);
    assert CpuOk(s, c) && ProcOk(s, 0) && WaitOk(s, 0) && KidOk(s, 0) && ForkOk(s, 0);
    assert |s.procs| > 0 && Alive(s.procs[0]);
    MineThere(s, 0);
    forall l: nat ensures LockStep(s, t, c, 0, t.procs[0], l) { assert SpinOk(s, c, l); }
    SchedGuarded(s, t, c, 0);
    hide Inv, LockStep, Guarded;
    FrameStep(s, t, c, 0, t.cpus[c], t.procs[0]);
  }

  /** Nobody else executes at a point where ptable.lock is held. */
  lemma PtAlone(s: State, c: nat, q: nat)
    requires Inv(s) && s.pt == Some(c) && q < |s.procs|
    ensures s.procs[q].on.Some? && HoldsPt(s.procs[q].pc) ==> c < |s.cpus| && s.cpus[c].exec == Process(q)
    ensures s.procs[q].on.Some? && s.procs[q].state != Running ==> HoldsPt(s.procs[q].pc)
  {
    assert ProcOk(s, q);
    if s.procs[q].on.Some? { assert CpuOk(s, s.procs[q].on.value); }
  }

  /** The scheduler runs a process that was executing nowhere. */
  lemma PickKeeps(s: State, c: nat, p: nat)
    requires Inv(s) && Enabled(s, Pick(c, p))
    ensures Inv(Next(s, Pick(c, p)))
  {
    hide NextLock, Exited, Move, Freed, Given, Failed, Parented, Ready, Dozed, Searched;
    var t := Next(s, Pick(c, p));
    assert CpuOk(s, c) && ProcOk(s, p) && WaitOk(s, p) && KidOk(s, p) && ForkOk(s, p);
    PtAlone(s, c, p);
    MineThere(s, p);
    forall l: nat ensures LockStep(s, t, c, p, t.procs[p], l) { assert SpinOk(s, c, l); }
    SchedGuarded(s, t, c, p);
    hide Inv, LockStep, Guarded;
    FrameStep(s, t, c, p, t.cpus[c], t.procs[p]);
  }

  /** A step in which only a process that is executing nowhere changes. */
  lemma ParkedStep(s: State, t: State, q: nat, y: Proc)
    requires Inv(s) && q < |s.procs| && t == s.(procs := s.procs[q := y])
    requires s.procs[q].on == None && y.on == None && s.procs[q].mine == y.mine
    requires (Alive(s.procs[q]) ==> Alive(y)) && (q == 0 ==> y.parent == None)
    requires InWait(y) ==> InWait(s.procs[q])
    requires (forall r: nat :: Makes0(s, r, q) ==> y.state.Embryo? && y.maker == s.procs[q].maker)
    requires forall r: nat :: Makes0(s, r, q) ==> y.parent == s.procs[q].parent
    requires ProcOk(t, q) && WaitOk(t, q) && KidOk(t, q) && ForkOk(t, q)
    ensures Inv(t)
  {
    hide HoldsPt, LkAt, LockOf, MineAt, StateAt, ChanAt, Free, Bare, WaitsFor, Makes;
    assert ProcOk(s, q);
    forall d: nat ensures CpuOk(t, d) { assert CpuOk(s, d); }
    forall l: nat ensures LockOk(t, l) && (Guarded(s, l) ==> Guarded(t, l)) {
      assert LockOk(s, l);
      if Pending(s, l) { assert CpuOk(s, s.locks[l].lk.value); }
    }
    forall d: nat, l: nat ensures SpinOk(t, d, l) { assert SpinOk(s, d, l) && CpuOk(s, d); }
    forall r: nat, l: nat ensures MineOk(t, r, l) { assert MineOk(s, r, l); }
    hide Guarded, SpinOk, LockOk, MineOk;
    forall r: nat ensures ProcOk(t, r) { assert ProcOk(s, r); }
    forall r: nat ensures WaitOk(t, r) { assert WaitOk(s, r); }
    forall r: nat ensures KidOk(t, r) { assert KidOk(s, r); }
    forall r: nat ensures ForkOk(t, r) { assert ForkOk(s, r); assert Makes0(s, r, q) ==> y.state.Embryo?; }
  }

  predicate Makes0(s: State, r: nat, q: nat) { r < |s.procs| && Makes(s.procs[r]) == Some(q) }

  lemma BeginKeeps(s: State, c: nat, to: Pc)
    requires Inv(s) && Enabled(s, Begin(c, to))
    ensures Inv(Move(s, c, to))
  {
    assert Smooth(Out, to, Me(s, c).mine) && LkAt(to) == None && !HoldsPt(to);
    hide Inv;
    hide Smooth;
    GoKeeps(s, c, to);
  }

  /** yield takes ptable.lock wherever the timer interrupts. */
  lemma TimerKeeps(s: State, c: nat)
    requires Inv(s) && Executes(s, c) && s.pt == None && Free(Me(s, c).pc)
    ensures Inv(SetMe(s, c, Me(s, c).(pc := YldMark, ret := Me(s, c).pc)).(pt := Some(c)))
  {
    Here(s, c);
    MineThere(s, Who(s, c));
    var t := SetMe(s, c, Me(s, c).(pc := YldMark, ret := Me(s, c).pc)).(pt := Some(c));
    LocksAlone(s, t, c, Who(s, c), Me(t, c));
    hide Inv, LockStep, Guarded;
    LocalStep(s, t, c, Me(t, c));
  }

  /** exit, wait and fork take ptable.lock. */
  lemma EnterKeeps(s: State, c: nat, to: Pc)
    requires Inv(s) && Executes(s, c) && s.pt == None && Me(s, c).pc.Out?
    requires to.WaitScan? || to.ForkPick? || (to.ExitMark? && Me(s, c).mine == {})
    ensures Inv(Move(s, c, to))
  {
    assert Smooth(Out, to, Me(s, c).mine) && LkAt(to) == None;
    hide Inv;
    hide Smooth;
    hide LkAt;
    GoKeeps(s, c, to);
  }

  /** wait gives up. */
  lemma LeaveKeeps(s: State, c: nat)
    requires Inv(s) && Executes(s, c) && Me(s, c).pc.WaitScan?
    ensures Inv(Move(s, c, PtDrop))
  {
    assert Smooth(WaitScan, PtDrop, Me(s, c).mine);
    hide Inv;
    hide Smooth;
    GoKeeps(s, c, PtDrop);
  }

  /** wait finds no zombie among the children and goes to sleep with the lock still held. */
  lemma DozeKeeps(s: State, c: nat)
    requires Inv(s) && Executes(s, c) && Me(s, c).pc.WaitScan? && Watched(s, Who(s, c))
    ensures Inv(SetMe(s, c, Me(s, c).(pc := WaitSwtch, state := Sleeping, chan := Child)))
  {
    Here(s, c);
    MineThere(s, Who(s, c));
    var t := SetMe(s, c, Me(s, c).(pc := WaitSwtch, state := Sleeping, chan := Child));
    LocksAlone(s, t, c, Who(s, c), Me(t, c));
    hide Inv, LockStep, Guarded;
    LocalStep(s, t, c, Me(t, c));
  }

  /** Nobody is making a process that is not an embryo, or whose maker is doing something else. */
  lemma NotMade(s: State, q: nat, r: nat)
    requires Inv(s) && q < |s.procs| && Makes0(s, r, q)
    ensures s.procs[q].state.Embryo? && s.procs[q].maker == Some(r)
  {
    assert ForkOk(s, r);
  }

  /** With ptable.lock free, whatever executes is RUNNING. */
  lemma SettledProc(s: State, q: nat)
    requires Inv(s) && s.pt == None && q < |s.procs|
    ensures s.procs[q].on.Some? <==> s.procs[q].state == Running
  {
    assert ProcOk(s, q);
    if s.procs[q].on.Some? { assert CpuOk(s, s.procs[q].on.value); }
  }

  /** A process asleep is woken by kill. */
  lemma KillKeeps(s: State, q: nat)
    requires Inv(s) && Enabled(s, Kill(q))
    ensures Inv(s.(procs := s.procs[q := s.procs[q].(state := Runnable)]))
  {
    var y := s.procs[q].(state := Runnable);
    var t := s.(procs := s.procs[q := y]);
    assert ProcOk(s, q) && WaitOk(s, q) && KidOk(s, q) && ForkOk(s, q);
    SettledProc(s, q);
    forall r: nat ensures !Makes0(s, r, q) { if Makes0(s, r, q) { NotMade(s, q, r); } }
    hide Inv;
    ParkedStep(s, t, q, y);
  }

  /** The parent of a zombie holds ptable.lock, so the zombie has left its CPU and its kernel stack. */
  lemma ReapSafe(s: State, c: nat, q: nat)
    requires Inv(s) && Enabled(s, Reap(c, q))
    ensures s.procs[q].on == None
    ensures forall d: nat :: d < |s.cpus| ==> s.cpus[d].exec != Process(q)
  {
    Here(s, c);
    assert ProcOk(s, q);
    PtAlone(s, c, q);
    forall d: nat | d < |s.cpus| ensures s.cpus[d].exec != Process(q) { assert CpuOk(s, d); }
  }

  /** A zombie, or an embryo nobody is making any more, is given up. */
  lemma BuryKeeps(s: State, q: nat, y: Proc)
    requires Inv(s) && q < |s.procs| && s.procs[q].on == None && (s.procs[q].state.Zombie? || s.procs[q].state.Embryo?)
    requires y == s.procs[q].(state := Unused, parent := None, maker := y.maker)
    requires forall r: nat :: !Makes0(s, r, q)
    ensures Inv(s.(procs := s.procs[q := y]))
  {
    var t := s.(procs := s.procs[q := y]);
    assert ProcOk(s, q);
    hide Inv;
    ParkedStep(s, t, q, y);
  }

  /** wait frees a zombie, which has no children left. */
  lemma ReapKeeps(s: State, c: nat, q: nat)
    requires Inv(s) && Enabled(s, Reap(c, q))
    ensures Inv(Freed(s, c, q))
  {
    ReapSafe(s, c, q);
    LeaveKeeps(s, c);
    Here(s, c);
    hide Inv;
    hide HoldsPt;
    hide LkAt;
    var m := Move(s, c, PtDrop);
    var y := s.procs[q].(state := Unused, parent := None);
    forall r: nat ensures !Makes0(m, r, q) { if Makes0(m, r, q) { NotMade(m, q, r); } }
    BuryKeeps(m, q, y);
    ReapSame(s, c, q, y);
  }

  lemma ReapSame(s: State, c: nat, q: nat, y: Proc)
    requires Inv(s) && Executes(s, c) && Me(s, c).pc.WaitScan? && CpuOk(s, c) && q < |s.procs| && q != Who(s, c)
    ensures Move(s, c, PtDrop).procs[q := y] == SetMe(s.(procs := s.procs[q := y]), c, Me(s, c).(pc := PtDrop)).procs
    ensures Move(s, c, PtDrop).pt == s.pt && Move(s, c, PtDrop).locks == s.locks
  {
    SameSpun(s, c, PtDrop);
  }

  /** Nothing happens to the spin locks when a process that holds none moves on without one. */
  lemma SameSpun(s: State, c: nat, to: Pc)
    requires Inv(s) && Executes(s, c) && LkAt(Me(s, c).pc) == LkAt(to) == None
    ensures Spun(s.locks, c, LkAt(to)) == s.locks
  {
    forall l: nat | l < |s.locks| ensures Spun(s.locks, c, None)[l] == s.locks[l] { assert SpinOk(s, c, l); }
  }

  lemma ForkSmooth(pc: Pc, to: Pc, mine: set<nat>)
    requires (pc.ForkPick? && to.ForkHold?) || (pc.ForkBuild? && to.Out?) || (pc.ForkReady? && to.PtDrop?)
    ensures Smooth(pc, to, mine) && HoldsPt(to) == HoldsPt(pc) && LkAt(to) == LkAt(pc) == LockOf(to) == None
  {}

  /** The forking process goes on; `Making` says which embryo is still its. */
  lemma ForkMoves(s: State, c: nat, to: Pc)
    requires Inv(s) && Executes(s, c)
    requires var pc := Me(s, c).pc;
      || (pc.ForkPick? && to.ForkHold?) || (pc.ForkBuild? && to.Out?) || (pc.ForkReady? && to.PtDrop?)
    requires to.ForkHold? ==>
      to.q < |s.procs| && s.procs[to.q].state.Embryo? && s.procs[to.q].maker == Some(Who(s, c))
      && s.procs[to.q].parent == None
    ensures Inv(SetMe(s, c, Me(s, c).(pc := to)))
  {
    hide Inv, Smooth, HoldsPt, LkAt, LockOf, Spun, Guarded, MineAt, StateAt, ChanAt;
    Here(s, c);
    ForkSmooth(Me(s, c).pc, to, Me(s, c).mine);
    SameSpun(s, c, to);
    GoKeeps(s, c, to);
    assert Move(s, c, to) == SetMe(s, c, Me(s, c).(pc := to));
  }

  /** allocproc takes an unused slot. */
  lemma TakeKeeps(s: State, c: nat, q: nat)
    requires Inv(s) && Executes(s, c) && Me(s, c).pc.ForkPick? && q < |s.procs| && s.procs[q].state == Unused
    ensures Inv(Given(s, c, q))
  {
    hide Inv, CpuOk, ProcOk, WaitOk, KidOk, ForkOk, Alive, InWait;
    var y := Proc(Embryo, NoChan, None, PtDrop, Out, None, {}, Some(Who(s, c)));
    var m := s.(procs := s.procs[q := y]);
    UnusedFacts(s, c, q, m, y);
    ParkedStep(s, m, q, y);
    ForkMoves(m, c, ForkHold(q));
  }

  /** An unused slot, and the embryo made of it. */
  lemma UnusedFacts(s: State, c: nat, q: nat, m: State, y: Proc)
    requires Inv(s) && Executes(s, c) && Me(s, c).pc.ForkPick? && q < |s.procs| && s.procs[q].state == Unused
    requires y == Proc(Embryo, NoChan, None, PtDrop, Out, None, {}, Some(Who(s, c)))
      && m == s.(procs := s.procs[q := y])
    ensures q != Who(s, c) && s.procs[q].on == None && s.procs[q].mine == {} && !Alive(s.procs[q]) && !InWait(y)
    ensures ProcOk(m, q) && WaitOk(m, q) && KidOk(m, q) && ForkOk(m, q) && Executes(m, c) && Who(m, c) == Who(s, c)
    ensures forall r: nat :: !Makes0(s, r, q)
  {
    hide Inv, Pending;
    Here(s, c);
    NoMaker(s, q);
  }

  lemma NoMaker(s: State, q: nat)
    requires Inv(s) && q < |s.procs| && s.procs[q].state == Unused
    ensures ProcOk(s, q) && KidOk(s, q) && forall r: nat :: !Makes0(s, r, q)
  {
    hide ProcOk, KidOk;
    forall r: nat ensures !Makes0(s, r, q) { if Makes0(s, r, q) { NotMade(s, q, r); } }
  }

  /** What the invariant says of the embryo being made on CPU `c`. */
  lemma Embryonic(s: State, c: nat)
    requires Inv(s) && Executes(s, c) && (Me(s, c).pc.ForkBuild? || Me(s, c).pc.ForkReady?)
    ensures var q := Me(s, c).pc.q;
      && q < |s.procs| && q != Who(s, c) && q != 0 && s.procs[q].state.Embryo? && s.procs[q].maker == Some(Who(s, c))
      && s.procs[q].on == None
      && ProcOk(s, q) && WaitOk(s, q) && KidOk(s, q) && ForkOk(s, q)
      && s.procs[q].parent == if Me(s, c).pc.ForkBuild? then None else Some(Who(s, c))
    ensures Alive(Me(s, c)) && Me(s, c).ret.Out?
  {
    Here(s, c);
    assert ProcOk(s, Me(s, c).pc.q);
  }

  /** Once its maker has moved on, nobody is making the embryo. */
  lemma Abandoned(s: State, q: nat, p: nat)
    requires Inv(s) && q < |s.procs| && s.procs[q].maker == Some(p) && !Makes0(s, p, q)
    ensures forall r: nat :: !Makes0(s, r, q)
  {
    forall r: nat ensures !Makes0(s, r, q) { if Makes0(s, r, q) { NotMade(s, q, r); } }
  }

  lemma PairLocks(s: State, t: State, c: nat, q: nat, x: Proc, y: Proc)
    requires Inv(s) && Executes(s, c) && q < |s.procs| && q != Who(s, c) && s.procs[q].on == None
    requires t == s.(procs := s.procs[q := y][Who(s, c) := x])
    requires x == Me(s, c).(pc := x.pc) && y == s.procs[q].(parent := y.parent)
      && LkAt(x.pc) == LkAt(Me(s, c).pc) == None
    ensures (forall l: nat :: LockOk(t, l) && (Guarded(s, l) ==> Guarded(t, l)))
      && (forall d: nat, l: nat :: SpinOk(t, d, l))
    ensures forall r: nat, l: nat :: MineOk(t, r, l)
  {
    assert CpuOk(s, c);
    forall l: nat ensures LockOk(t, l) && (Guarded(s, l) ==> Guarded(t, l)) {
      assert LockOk(s, l);
      if Pending(s, l) { assert CpuOk(s, s.locks[l].lk.value) && SpinOk(s, s.locks[l].lk.value, l); }
    }
    forall d: nat, l: nat ensures SpinOk(t, d, l) { assert SpinOk(s, d, l) && CpuOk(s, d); }
    forall r: nat, l: nat ensures MineOk(t, r, l) { assert MineOk(s, r, l); }
  }

  /** A step in which the process on CPU `c` goes on and the embryo it is making gets a parent. */
  lemma PairStep(s: State, t: State, c: nat, q: nat, x: Proc, y: Proc)
    requires Inv(s) && Executes(s, c) && q < |s.procs| && q != Who(s, c) && q != 0
    requires t == s.(procs := s.procs[q := y][Who(s, c) := x])
    requires x == Me(s, c).(pc := x.pc) && y == s.procs[q].(parent := y.parent)
    requires s.procs[q].state.Embryo? && s.procs[q].on == None && s.procs[q].maker == Some(Who(s, c))
    requires !InWait(x) && LkAt(x.pc) == LkAt(Me(s, c).pc) == None
    requires CpuOk(t, c) && ProcOk(t, Who(s, c)) && WaitOk(t, Who(s, c)) && ForkOk(t, Who(s, c)) && ProcOk(t, q)
      && KidOk(t, q)
    requires WaitsFor(y) == None && Makes(y) == None
    ensures Inv(t)
  {
    hide HoldsPt, LkAt, LockOf, MineAt, StateAt, ChanAt, Free, Bare, WaitsFor, Makes;
    var p := Who(s, c);
    assert CpuOk(s, c) && KidOk(s, p);
    forall d: nat ensures CpuOk(t, d) { assert CpuOk(s, d); }
    PairLocks(s, t, c, q, x, y);
    hide Guarded, SpinOk, LockOk, MineOk;
    forall r: nat ensures ProcOk(t, r) { assert ProcOk(s, r); }
    forall r: nat ensures WaitOk(t, r) { assert WaitOk(s, r); }
    forall r: nat ensures KidOk(t, r) { assert KidOk(s, r); }
    forall r: nat ensures ForkOk(t, r) { assert ForkOk(s, r); }
  }

  /** The forking process and its child as the parent is set. */
  lemma ParentFacts(s: State, c: nat, t: State, x: Proc, y: Proc)
    requires Inv(s) && Executes(s, c) && Me(s, c).pc.ForkBuild? && Me(s, c).pc.q < |s.procs|
    requires x == Me(s, c).(pc := ForkAcq(Me(s, c).pc.q)) && y == s.procs[Me(s, c).pc.q].(parent := Some(Who(s, c)))
    requires t == s.(procs := s.procs[Me(s, c).pc.q := y][Who(s, c) := x])
    ensures CpuOk(t, c) && ProcOk(t, Who(s, c)) && WaitOk(t, Who(s, c)) && ForkOk(t, Who(s, c))
    ensures !InWait(x) && WaitsFor(y) == None && Makes(y) == None && LkAt(x.pc) == LkAt(Me(s, c).pc) == None
  {
    hide Inv;
    ParentRuns(s, c, t, x, y);
    Embryonic(s, c);
    hide CpuOk, KidOk;
  }

  lemma ParentRuns(s: State, c: nat, t: State, x: Proc, y: Proc)
    requires Inv(s) && Executes(s, c) && Me(s, c).pc.ForkBuild? && Me(s, c).pc.q < |s.procs|
    requires x == Me(s, c).(pc := ForkAcq(Me(s, c).pc.q)) && y == s.procs[Me(s, c).pc.q].(parent := Some(Who(s, c)))
    requires t == s.(procs := s.procs[Me(s, c).pc.q := y][Who(s, c) := x])
    ensures CpuOk(t, c) && ProcOk(t, Who(s, c))
  {
    hide Inv, WaitOk, ForkOk, KidOk;
    Here(s, c);
  }

  lemma ChildFacts(s: State, c: nat, t: State, x: Proc, y: Proc)
    requires Inv(s) && Executes(s, c) && Me(s, c).pc.ForkBuild? && Me(s, c).pc.q < |s.procs|
    requires x == Me(s, c).(pc := ForkAcq(Me(s, c).pc.q)) && y == s.procs[Me(s, c).pc.q].(parent := Some(Who(s, c)))
    requires t == s.(procs := s.procs[Me(s, c).pc.q := y][Who(s, c) := x])
    ensures ProcOk(t, Me(s, c).pc.q) && KidOk(t, Me(s, c).pc.q)
  {
    Embryonic(s, c);
    hide Inv;
  }

  /** The parent is set while nobody else looks at the embryo. */
  lemma ParentKeeps(s: State, c: nat)
    requires Inv(s) && Executes(s, c) && Me(s, c).pc.ForkBuild? && Me(s, c).pc.q < |s.procs|
    ensures Inv(Parented(s, c))
  {
    Embryonic(s, c);
    hide Inv;
    var p, q := Who(s, c), Me(s, c).pc.q;
    var x, y := Me(s, c).(pc := ForkAcq(q)), s.procs[q].(parent := Some(p));
    var t := s.(procs := s.procs[q := y][p := x]);
    ParentFacts(s, c, t, x, y);
    ChildFacts(s, c, t, x, y);
    PairStep(s, t, c, q, x, y);
  }

  lemma DoneKeeps(s: State, c: nat)
    requires Inv(s) && Enabled(s, ForkDone(c))
    ensures Inv(Ready(s, c))
  {
    Embryonic(s, c);
    var p, q := Who(s, c), Me(s, c).pc.q;
    ForkMoves(s, c, PtDrop);
    var m := SetMe(s, c, Me(s, c).(pc := PtDrop));
    var y := s.procs[q].(state := Runnable, maker := None);
    var t := m.(procs := m.procs[q := y]);
    Abandoned(m, q, p);
    hide Inv;
    ParkedStep(m, t, q, y);
    assert t == Ready(s, c);
  }

  lemma FailKeeps(s: State, c: nat)
    requires Inv(s) && Enabled(s, ForkFail(c))
    ensures Inv(Failed(s, c))
  {
    Embryonic(s, c);
    var p, q := Who(s, c), Me(s, c).pc.q;
    ForkMoves(s, c, Out);
    var m := SetMe(s, c, Me(s, c).(pc := Out));
    var y := s.procs[q].(state := Unused, maker := None);
    Abandoned(m, q, p);
    hide Inv;
    BuryKeeps(m, q, y);
    assert m.(procs := m.procs[q := y]) == Failed(s, c);
  }

  // ----- wakeup -----

  /** While a releaser holds both locks, whoever waits for the sleep lock is asleep on it, off its CPU. */
  lemma WaitersAsleep(s: State, c: nat, q: nat)
    requires Inv(s) && Executes(s, c) && Me(s, c).pc.RelWake? && q < |s.procs|
    ensures s.procs[q].state.Sleeping? ==> s.procs[q].on == None
    ensures WaitsFor(s.procs[q]) == Some(Me(s, c).pc.l) ==>
      s.procs[q].state.Sleeping? && s.procs[q].chan == Lock(Me(s, c).pc.l)
  {
    Here(s, c);
    assert ProcOk(s, q);
    PtAlone(s, c, q);
    if s.procs[q].on.Some? {
      var d, l := s.procs[q].on.value, Me(s, c).pc.l;
      assert CpuOk(s, d) && SpinOk(s, d, l) && SpinOk(s, c, l);
    }
  }

  lemma WokenOk(s: State, t: State, q: nat)
    requires q < |s.procs| && ProcOk(s, q) && t == s.(procs := t.procs) && |t.procs| == |s.procs|
    requires s.procs[q].state.Sleeping? ==> s.procs[q].on == None
    requires t.procs[q] == s.procs[q] || (t.procs[q] == s.procs[q].(state := Runnable) && s.procs[q].state.Sleeping?)
    ensures ProcOk(t, q)
  {}

  /** The process at position `q` after the releaser's wakeup1. */
  lemma WakeAllAt(s: State, c: nat, t: State, q: nat)
    requires Inv(s) && Executes(s, c) && Me(s, c).pc.RelWake? && q < |s.procs| && t == WokeAll(s, c)
    ensures ProcOk(t, q) && WaitsFor(t.procs[q]) != Some(Me(s, c).pc.l)
      && (WaitsFor(t.procs[q]).Some? ==> WaitsFor(t.procs[q]) == WaitsFor(s.procs[q]))
    ensures s.procs[q].on.Some? && q != Who(s, c) ==> t.procs[q] == s.procs[q]
    ensures q != Who(s, c) ==> t.procs[q] == s.procs[q] || t.procs[q] == s.procs[q].(state := Runnable)
    ensures Alive(s.procs[q]) == Alive(t.procs[q]) && (t.procs[q].state.Sleeping? ==> s.procs[q].state.Sleeping?)
    ensures t.procs[q].mine == s.procs[q].mine
  {
    hide Pending, Guarded, ForkOk;
    Here(s, c);
    WaitersAsleep(s, c, q);
    assert ProcOk(s, q);
    hide Inv;
    var m := s.(procs := WakeLock(s.procs, Me(s, c).pc.l));
    if q != Who(s, c) { WokenOk(s, m, q); }
  }

  lemma WakeAllKids(s: State, c: nat, t: State, q: nat)
    requires Inv(s) && Executes(s, c) && Me(s, c).pc.RelWake? && t == WokeAll(s, c)
    ensures KidOk(t, q)
  {
    assert KidOk(s, q);
    hide Inv;
    hide WakeLock;
    if q < |s.procs| {
      WakeAllAt(s, c, t, q);
      if s.procs[q].parent.Some? { WakeAllAt(s, c, t, s.procs[q].parent.value); }
    }
  }

  lemma WakeAllForks(s: State, c: nat, t: State, q: nat)
    requires Inv(s) && Executes(s, c) && Me(s, c).pc.RelWake? && t == WokeAll(s, c)
    ensures ForkOk(t, q)
  {
    assert ForkOk(s, q);
    hide Inv;
    hide WakeLock;
    if q < |s.procs| {
      WakeAllAt(s, c, t, q);
      if Makes(s.procs[q]).Some? { WakeAllAt(s, c, t, Makes(s.procs[q]).value); }
    }
  }

  /** The other sleep locks are as they were. */
  lemma WakeAllLocks(s: State, c: nat, t: State, d: nat, l: nat)
    requires Inv(s) && Executes(s, c) && Me(s, c).pc.RelWake? && t == WokeAll(s, c)
    ensures SpinOk(t, d, l) && LockOk(t, l) && (l != Me(s, c).pc.l && Guarded(s, l) ==> Guarded(t, l))
  {
    hide Makes, StateAt, ChanAt, HoldsPt;
    Here(s, c);
    assert SpinOk(s, d, l) && LockOk(s, l) && CpuOk(s, d) && SpinOk(s, c, l);
    if l < |s.locks| && s.locks[l].locked { WakeAllAt(s, c, t, s.locks[l].owner); }
    if Executes(s, d) { WakeAllAt(s, c, t, Who(s, d)); }
    if Pending(s, l) {
      var e := s.locks[l].lk.value;
      assert CpuOk(s, e) && SpinOk(s, e, l);
      WakeAllAt(s, c, t, Who(s, e));
    }
    hide Inv, WakeLock;
  }

  /** wakeup1 leaves nobody waiting for this lock, so the debt of the releaser is paid. */
  lemma WakeAllKeeps(s: State, c: nat)
    requires Inv(s) && Executes(s, c) && Me(s, c).pc.RelWake?
    ensures Inv(WokeAll(s, c))
  {
    var p := Who(s, c);
    var t := WokeAll(s, c);
    Here(s, c);
    assert HoldsPt(t.procs[p].pc);
    hide WakeLock, HoldsPt, LkAt, LockOf, MineAt, StateAt, ChanAt, WaitsFor, Guarded;
    forall d: nat, l: nat ensures SpinOk(t, d, l) { WakeAllLocks(s, c, t, d, l); }
    forall l: nat
      ensures LockOk(t, l) && (l != Me(s, c).pc.l && Guarded(s, l) ==> Guarded(t, l))
    {
      WakeAllLocks(s, c, t, 0, l);
    }
    forall q: nat ensures ProcOk(t, q) && WaitOk(t, q) {
      assert WaitOk(s, q);
      if q < |s.procs| { WakeAllAt(s, c, t, q); }
    }
    forall q: nat, l: nat
      ensures MineOk(t, q, l)
    {
      assert MineOk(s, q, l);
      if q < |s.procs| {
        WakeAllAt(s, c, t, q);
      }
    }
    forall d: nat ensures CpuOk(t, d) {
      assert CpuOk(s, d);
      if Executes(s, d) { WakeAllAt(s, c, t, Who(s, d)); }
    }
    forall q: nat ensures KidOk(t, q) && ForkOk(t, q) { WakeAllKids(s, c, t, q); WakeAllForks(s, c, t, q); }
    WakeAllAt(s, c, t, 0);
  }

  // ----- exit -----

  /** What exit does to another process: it may be woken from wait, and get init for a parent. */
  predicate ExitChange(x: Proc, y: Proc, p: nat) {
    && (y == x.(parent := y.parent)
      || (x.state.Sleeping? && x.chan.Child? && y == x.(state := Runnable, parent := y.parent)))
    && y.parent == if x.parent == Some(p) then Some(0) else x.parent
  }

  lemma HandOverAt(procs: seq<Proc>, p: nat, i: nat)
    requires i < |procs|
    ensures |HandOver(procs, p)| == |procs| && ExitChange(procs[i], HandOver(procs, p)[i], p)
    ensures i != 0 ==> HandOver(procs, p)[i] == procs[i].(parent := HandOver(procs, p)[i].parent)
    ensures i == 0 && HasZombie(procs, p) ==> !(HandOver(procs, p)[0].state.Sleeping? && procs[0].chan.Child?)
  {}

  lemma WakeParentAt(procs: seq<Proc>, p: nat, i: nat)
    requires p < |procs| && i < |procs|
    ensures |WakeParent(procs, p)| == |procs|
    ensures WakeParent(procs, p)[i] == if procs[p].parent == Some(i) then Woken(procs[i], Child) else procs[i]
  {}

  lemma SameZombie(procs: seq<Proc>, p: nat)
    requires p < |procs| && HasZombie(procs, p)
    ensures HasZombie(WakeParent(procs, p), p)
  {
    var k :| 0 <= k < |procs| && procs[k].parent == Some(p) && procs[k].state == Zombie;
    WakeParentAt(procs, p, k);
  }

  lemma ExitAt(s: State, c: nat, q: nat)
    requires Executes(s, c) && q < |s.procs| && q != Who(s, c)
    ensures |Exited(s, c).procs| == |s.procs| && ExitChange(s.procs[q], Exited(s, c).procs[q], Who(s, c))
    ensures Me(s, c).parent == Some(q) ==> !(Exited(s, c).procs[q].state.Sleeping? && s.procs[q].chan.Child?)
    ensures q == 0 && HasZombie(s.procs, Who(s, c)) ==>
      !(Exited(s, c).procs[0].state.Sleeping? && s.procs[0].chan.Child?)
  {
    var p := Who(s, c);
    WakeParentAt(s.procs, p, q);
    HandOverAt(WakeParent(s.procs, p), p, q);
    if HasZombie(s.procs, p) { SameZombie(s.procs, p); }
    hide HandOver;
    hide WakeParent;
    hide HasZombie;
  }

  /** The exiting process itself. */
  lemma ExitMe(s: State, c: nat)
    requires Inv(s) && Executes(s, c) && Me(s, c).pc.ExitMark? && Who(s, c) != 0
    ensures Exited(s, c).procs[Who(s, c)] == Me(s, c).(state := Zombie, pc := ExitSwtch)
    ensures |Exited(s, c).procs| == |s.procs|
    ensures Exited(s, c) == s.(procs := Exited(s, c).procs)
  {
    Here(s, c);
  }

  lemma ChangedOk(s: State, t: State, q: nat, p: nat)
    requires q < |s.procs| && ProcOk(s, q) && t == s.(procs := t.procs) && |t.procs| == |s.procs|
    requires ExitChange(s.procs[q], t.procs[q], p)
    requires s.procs[q].state.Sleeping? ==> s.procs[q].on == None
    ensures ProcOk(t, q) && (WaitsFor(t.procs[q]).Some? ==> WaitsFor(t.procs[q]) == WaitsFor(s.procs[q]))
    ensures s.procs[q].on.Some? ==> t.procs[q] == s.procs[q].(parent := t.procs[q].parent)
  {}

  lemma ExitProcOk(s: State, c: nat, t: State, q: nat)
    requires Inv(s) && Executes(s, c) && Me(s, c).pc.ExitMark? && Who(s, c) != 0 && t == Exited(s, c)
    ensures ProcOk(t, q) && (q < |s.procs| ==> q < |t.procs| && t.procs[q].mine == s.procs[q].mine)
    ensures q < |t.procs| && WaitsFor(t.procs[q]).Some? ==>
      q < |s.procs| && WaitsFor(t.procs[q]) == WaitsFor(s.procs[q])
    ensures q < |s.procs| && q != Who(s, c) && s.procs[q].on.Some? ==>
      q < |t.procs| && t.procs[q] == s.procs[q].(parent := t.procs[q].parent)
  {
    ExitMe(s, c);
    Here(s, c);
    assert ProcOk(s, q);
    hide Exited;
    if q < |s.procs| && q != Who(s, c) {
      ExitAt(s, c, q);
      PtAlone(s, c, q);
      ChangedOk(s, t, q, Who(s, c));
      hide Inv;
    }
  }

  lemma ExitSpin(s: State, c: nat, t: State, d: nat, l: nat)
    requires Inv(s) && Executes(s, c) && Me(s, c).pc.ExitMark? && Who(s, c) != 0 && t == Exited(s, c)
    ensures SpinOk(t, d, l)
  {
    ExitMe(s, c);
    assert SpinOk(s, d, l) && CpuOk(s, d) && CpuOk(s, c);
    hide Exited, HoldsPt;
    if Executes(s, d) { ExitProcOk(s, c, t, Who(s, d)); }
    hide Inv;
  }

  lemma ExitLock(s: State, c: nat, t: State, l: nat)
    requires Inv(s) && Executes(s, c) && Me(s, c).pc.ExitMark? && Who(s, c) != 0 && t == Exited(s, c)
    ensures LockOk(t, l) && (Guarded(s, l) ==> Guarded(t, l))
  {
    ExitMe(s, c);
    assert LockOk(s, l);
    hide Exited, HoldsPt;
    if l < |s.locks| && s.locks[l].locked { ExitProcOk(s, c, t, s.locks[l].owner); }
    if Pending(s, l) {
      var e := s.locks[l].lk.value;
      assert CpuOk(s, e) && CpuOk(s, c);
      ExitProcOk(s, c, t, Who(s, e));
    }
    hide Inv;
  }

  /** A process that exit has woken, or that was not asleep in wait, is not asleep in wait. */
  lemma NotInWait(s: State, c: nat, r: nat, y: Proc)
    requires Inv(s) && Executes(s, c) && Me(s, c).pc.ExitMark? && r < |s.procs| && r != Who(s, c)
    requires ExitChange(s.procs[r], y, Who(s, c))
    ensures !(y.state.Sleeping? && s.procs[r].chan.Child?) ==> !InWait(y)
    ensures Alive(y) == Alive(s.procs[r]) && (InWait(y) ==> InWait(s.procs[r]))
  {
    Here(s, c);
    PtAlone(s, c, r);
    assert ProcOk(s, r);
  }

  lemma ExitKids(s: State, c: nat, t: State, q: nat)
    requires Inv(s) && Executes(s, c) && Me(s, c).pc.ExitMark? && Who(s, c) != 0 && t == Exited(s, c)
    ensures KidOk(t, q)
  {
    var p := Who(s, c);
    ExitMe(s, c);
    Here(s, c);
    assert KidOk(s, q) && s.procs[0].parent == None && Alive(s.procs[0]);
    hide Exited;
    hide Inv;
    hide InWait;
    if q < |s.procs| {
      if q != p { ExitAt(s, c, q); }
      ExitAt(s, c, 0);
      NotInWait(s, c, 0, t.procs[0]);
      var r := s.procs[q].parent;
      if r.Some? && r.value != p { ExitAt(s, c, r.value); NotInWait(s, c, r.value, t.procs[r.value]); }
      assert r == Some(p) && s.procs[q].state == Zombie ==> HasZombie(s.procs, p);
    }
  }

  lemma ExitForks(s: State, c: nat, t: State, q: nat)
    requires Inv(s) && Executes(s, c) && Me(s, c).pc.ExitMark? && Who(s, c) != 0 && t == Exited(s, c)
    ensures ForkOk(t, q)
  {
    ExitMe(s, c);
    Here(s, c);
    assert ForkOk(s, q) && s.procs[0].parent == None;
    hide Exited;
    hide Inv;
    hide HoldsPt, LkAt, MineAt, StateAt, ChanAt, Free;
    if q < |s.procs| {
      if q != Who(s, c) { ExitAt(s, c, q); }
      if Makes(s.procs[q]).Some? && Makes(s.procs[q]).value != Who(s, c) { ExitAt(s, c, Makes(s.procs[q]).value); }
    }
  }

  /** exit: the parent is woken, the children go to init, and only then is the process a zombie. */
  lemma ExitKeeps(s: State, c: nat)
    requires Inv(s) && Executes(s, c) && Me(s, c).pc.ExitMark? && Who(s, c) != 0
    ensures Inv(Exited(s, c))
  {
    var t := Exited(s, c);
    ExitMe(s, c);
    Here(s, c);
    ExitAt(s, c, 0);
    hide Exited, WaitsFor, LkAt, LockOf, MineAt, StateAt, ChanAt, Guarded;
    forall d: nat, l: nat ensures SpinOk(t, d, l) { ExitSpin(s, c, t, d, l); }
    forall l: nat ensures LockOk(t, l) && (Guarded(s, l) ==> Guarded(t, l)) { ExitLock(s, c, t, l); }
    forall q: nat ensures ProcOk(t, q) && WaitOk(t, q) {
      ExitProcOk(s, c, t, q);
      assert WaitOk(s, q);
    }
    forall q: nat, l: nat ensures MineOk(t, q, l) { assert MineOk(s, q, l); ExitProcOk(s, c, t, q); }
    forall q: nat ensures KidOk(t, q) && ForkOk(t, q) { ExitKids(s, c, t, q); ExitForks(s, c, t, q); }
    forall d: nat ensures CpuOk(t, d) {
      assert CpuOk(s, d);
      if Executes(s, d) && Who(s, d) != Who(s, c) { ExitProcOk(s, c, t, Who(s, d)); }
    }
  }

  // ----- Every run -----

  lemma LockSteps(s: State, step: Step)
    requires Inv(s) && Enabled(s, step)
    requires step.Begin? || step.Plain? || step.TakeLock? || step.FallAsleep? || step.WakeUp? || step.GiveLock?
      || step.WakeAll?
    ensures Inv(Next(s, step))
  {
    hide Inv;
    hide Move;
    hide SetMe;
    match step
    case Begin(c, to) => BeginKeeps(s, c, to);
    case Plain(c) => PlainKeeps(s, c);
    case TakeLock(c) => TakesLock(s, c);
    case FallAsleep(c) => FallsAsleep(s, c);
    case WakeUp(c) => WakesUp(s, c);
    case GiveLock(c) => GivesLock(s, c);
    case WakeAll(c) => WakeAllKeeps(s, c);
  }

  lemma TableSteps(s: State, step: Step)
    requires Inv(s) && Enabled(s, step)
    requires step.Enter? || step.Swtch? || step.Yield? || step.Resumed? || step.Exit? || step.Reap? || step.WaitLeave?
      || step.WaitSleep? || step.WaitAgain?
    ensures Inv(Next(s, step))
  {
    hide Inv;
    hide Move;
    hide SetMe;
    match step
    case Enter(c, to) => if to.YldMark? { TimerKeeps(s, c); } else { EnterKeeps(s, c, to); }
    case Swtch(c) => SwtchKeeps(s, c);
    case Yield(c) => Yields(s, c);
    case Resumed(c) => DropsPt(s, c);
    case Exit(c) => ExitKeeps(s, c);
    case Reap(c, q) => ReapKeeps(s, c, q);
    case WaitLeave(c) => LeaveKeeps(s, c);
    case WaitSleep(c) => DozeKeeps(s, c);
    case WaitAgain(c) => WaitAgain(s, c);
  }

  /** Every step of every CPU and every process keeps the invariant. */
  lemma StepKeeps(s: State, step: Step)
    requires Inv(s) && Enabled(s, step)
    ensures Inv(Next(s, step))
  {
    hide Inv;
    hide Move;
    hide SetMe;
    match step
    case SchedAcquire(c) => SchedKeeps(s, step);
    case Clear(c) => SchedKeeps(s, step);
    case SchedRelease(c) => SchedKeeps(s, step);
    case Pick(c, p) => PickKeeps(s, c, p);
    case ForkTake(c, q) => TakeKeeps(s, c, q);
    case ForkFail(c) => FailKeeps(s, c);
    case ForkParent(c) => ParentKeeps(s, c);
    case ForkDone(c) => DoneKeeps(s, c);
    case Kill(q) => KillKeeps(s, q);
    case Enter(c, to) => TableSteps(s, step);
    case Swtch(c) => TableSteps(s, step);
    case Yield(c) => TableSteps(s, step);
    case Resumed(c) => TableSteps(s, step);
    case Exit(c) => TableSteps(s, step);
    case Reap(c, q) => TableSteps(s, step);
    case WaitLeave(c) => TableSteps(s, step);
    case WaitSleep(c) => TableSteps(s, step);
    case WaitAgain(c) => TableSteps(s, step);
    case _ => LockSteps(s, step);
  }

  /** At boot: one process, about to run for the first time, and idle CPUs. */
  predicate Boot(s: State) {
    && |s.procs| > 0 && s.pt == None && (forall l :: 0 <= l < |s.locks| ==> s.locks[l].lk == None && !s.locks[l].locked)
    && (forall c :: 0 <= c < |s.cpus| ==> s.cpus[c] == Cpu(None, Idle))
    && s.procs[0] == Proc(Runnable, NoChan, None, PtDrop, Out, None, {}, None)
    && (forall p :: 0 < p < |s.procs| ==> s.procs[p] == Proc(Unused, NoChan, None, Dead, Out, None, {}, None))
  }

  lemma BootInv(s: State)
    requires Boot(s)
    ensures Inv(s)
  {
    forall p: nat ensures ProcOk(s, p) && WaitOk(s, p) && KidOk(s, p) && ForkOk(s, p) {
      if 0 < p < |s.procs| { assert s.procs[p] == Proc(Unused, NoChan, None, Dead, Out, None, {}, None); }
    }
    forall c: nat ensures CpuOk(s, c) {}
    forall p: nat, l: nat ensures MineOk(s, p, l) {
      if 0 < p < |s.procs| { assert s.procs[p] == Proc(Unused, NoChan, None, Dead, Out, None, {}, None); }
    }
    forall c: nat, l: nat ensures SpinOk(s, c, l) {}
  }

  /** `t` comes from `s` by the given steps. */
  predicate Runs(s: State, steps: seq<Step>, t: State)
    decreases |steps|
  {
    if steps == [] then t == s else Enabled(s, steps[0]) && Runs(Next(s, steps[0]), steps[1..], t)
  }

  lemma {:induction false} RunKeeps(s: State, steps: seq<Step>, t: State)
    requires Inv(s) && Runs(s, steps, t)
    ensures Inv(t)
    decreases |steps|
  {
    if steps != [] {
      StepKeeps(s, steps[0]);
      RunKeeps(Next(s, steps[0]), steps[1..], t);
    }
  }

  /** No lost wakeup, for any number of sleep locks, which processes may hold and wait for at the same time. In every
      reachable state, a process that has released the spin lock inside sleep and not been woken holds ptable.lock or is
      SLEEPING on the sleep lock; and when its spin lock is free, a process SLEEPING on a sleep lock means that the lock
      is held. */
  lemma NoLostWakeup(s: State, steps: seq<Step>, t: State, p: nat)
    requires Boot(s) && Runs(s, steps, t) && p < |t.procs| && WaitsFor(t.procs[p]).Some?
    ensures t.procs[p].pc.AcqMark? || t.procs[p].pc.AcqSwtch? ==> t.procs[p].on.Some? && t.pt == t.procs[p].on
    ensures t.procs[p].pc.AcqBack? ==> t.procs[p].state.Sleeping? && t.procs[p].chan == Lock(t.procs[p].pc.l)
    ensures var l := WaitsFor(t.procs[p]).value; l < |t.locks| && (t.locks[l].lk == None ==> t.locks[l].locked)
  {
    BootInv(s);
    RunKeeps(s, steps, t);
    assert ProcOk(t, p) && WaitOk(t, p);
    if t.procs[p].on.Some? { assert CpuOk(t, t.procs[p].on.value); }
  }

  /** No sleep lock ever has two holders, and it has one exactly while it is locked. */
  lemma OneHolder(s: State, steps: seq<Step>, t: State, l: nat)
    requires Boot(s) && Runs(s, steps, t) && l < |t.locks|
    ensures forall p: nat, q: nat ::
      p < |t.procs| && q < |t.procs| && l in t.procs[p].mine && l in t.procs[q].mine ==> p == q
    ensures t.locks[l].locked <==> exists p :: 0 <= p < |t.procs| && l in t.procs[p].mine
  {
    BootInv(s);
    RunKeeps(s, steps, t);
    assert LockOk(t, l);
    forall p: nat | p < |t.procs| && l in t.procs[p].mine
      ensures t.locks[l].locked && t.locks[l].owner == p
    {
      assert MineOk(t, p, l);
    }
  }

  /** Scheduler handoff. Whenever ptable.lock is free, a CPU's proc is `p` exactly when the CPU executes `p`, and a
      process is RUNNING exactly when some CPU executes it; no process is ever executing on two CPUs. */
  lemma Handoff(s: State, steps: seq<Step>, t: State, c: nat, p: nat)
    requires Boot(s) && Runs(s, steps, t) && c < |t.cpus| && p < |t.procs|
    ensures t.pt == None ==> (t.cpus[c].proc == Some(p) <==> t.cpus[c].exec == Process(p))
    ensures t.pt == None && t.cpus[c].proc == Some(p) ==> t.procs[p].state.Running?
    ensures t.pt == None && t.procs[p].state.Running? ==> exists d :: 0 <= d < |t.cpus| && t.cpus[d].proc == Some(p)
    ensures forall d :: 0 <= d < |t.cpus| && t.cpus[c].exec == Process(p) && t.cpus[d].exec == Process(p) ==> d == c
  {
    BootInv(s);
    RunKeeps(s, steps, t);
    assert CpuOk(t, c) && ProcOk(t, p);
    if t.pt == None {
      SettledProc(t, p);
      if t.procs[p].state.Running? { assert CpuOk(t, t.procs[p].on.value); }
    }
    forall d | 0 <= d < |t.cpus| && t.cpus[c].exec == Process(p) && t.cpus[d].exec == Process(p)
      ensures d == c
    {
      assert CpuOk(t, d);
    }
  }

  /** Only fork changes an unused slot. */
  lemma UnusedStays(s: State, step: Step, q: nat)
    requires Inv(s) && Enabled(s, step) && q < |s.procs| && s.procs[q].state == Unused
      && !(step.ForkTake? && step.q == q)
    ensures q < |Next(s, step).procs| && Next(s, step).procs[q].state == Unused
  {
    hide Inv, Next, Enabled;
    if OfLocks(step) { LockUnused(s, step, q); } else { TableUnused(s, step, q); }
  }

  lemma LockUnused(s: State, step: Step, q: nat)
    requires Inv(s) && Enabled(s, step) && q < |s.procs| && s.procs[q].state == Unused && OfLocks(step)
    ensures q < |Next(s, step).procs| && Next(s, step).procs[q].state == Unused
  {
    hide Inv, WakeLock, Spun, HoldsPt, Exited;
    NotUnused(s, step.c, q);
    if step.WakeAll? { WakeUnused(s.procs, Me(s, step.c).pc.l, q); }
  }

  lemma TableUnused(s: State, step: Step, q: nat)
    requires Inv(s) && Enabled(s, step) && q < |s.procs| && s.procs[q].state == Unused
      && !(step.ForkTake? && step.q == q)
    requires !OfLocks(step)
    ensures q < |Next(s, step).procs| && Next(s, step).procs[q].state == Unused
  {
    hide Inv, Exited, WakeLock, Spun, HoldsPt;
    if !step.Kill? && Executes(s, step.c) {
      NotUnused(s, step.c, q);
      if step.Exit? { ExitUnused(s, step.c, q); }
    }
  }

  lemma ExitUnused(s: State, c: nat, q: nat)
    requires Executes(s, c) && q < |s.procs| && s.procs[q].state == Unused && Who(s, c) != q
    ensures q < |Exited(s, c).procs| && Exited(s, c).procs[q].state == Unused
  {}

  lemma WakeUnused(procs: seq<Proc>, l: nat, q: nat)
    requires q < |procs| && procs[q].state == Unused
    ensures q < |WakeLock(procs, l)| && WakeLock(procs, l)[q].state == Unused && |WakeLock(procs, l)| == |procs|
  {}

  /** Neither the process on CPU `c` nor the embryo it is making is unused. */
  lemma NotUnused(s: State, c: nat, q: nat)
    requires Inv(s) && Executes(s, c) && q < |s.procs| && s.procs[q].state == Unused
    ensures Who(s, c) != q && Making(Me(s, c).pc) != Some(q)
  {
    Here(s, c);
    assert ProcOk(s, q);
  }

  /** `q` is not given out again in the given steps. */
  predicate Untaken(steps: seq<Step>, q: nat) {
    forall i :: 0 <= i < |steps| ==> !(steps[i].ForkTake? && steps[i].q == q)
  }

  lemma {:induction false} UnusedLasts(s: State, steps: seq<Step>, t: State, q: nat)
    requires Inv(s) && Runs(s, steps, t) && Untaken(steps, q) && q < |s.procs| && s.procs[q].state == Unused
    ensures q < |t.procs| && t.procs[q].state == Unused
    decreases |steps|
  {
    if steps != [] {
      hide Inv, Enabled, Next;
      StepKeeps(s, steps[0]);
      UnusedStays(s, steps[0], q);
      assert forall i :: 0 <= i < |steps[1..]| ==> steps[1..][i] == steps[i + 1];
      UnusedLasts(Next(s, steps[0]), steps[1..], t, q);
    }
  }

  /** A process reaps only its own zombie children, which no CPU is executing any more; and nobody reaps the slot again,
      however the run goes on, unless a fork has given it out in between. */
  lemma ReapedOnce(s: State, steps: seq<Step>, t: State, c: nat, q: nat, more: seq<Step>, u: State, d: nat)
    requires Boot(s) && Runs(s, steps, t) && Enabled(t, Reap(c, q))
    requires Runs(Next(t, Reap(c, q)), more, u) && Untaken(more, q)
    ensures forall e: nat :: e < |t.cpus| ==> t.cpus[e].exec != Process(q)
    ensures t.procs[q].parent == Some(Who(t, c)) && !Enabled(u, Reap(d, q))
  {
    hide Inv, Runs;
    BootInv(s);
    RunKeeps(s, steps, t);
    ReapSafe(t, c, q);
    StepKeeps(t, Reap(c, q));
    Reaped(t, c, q);
    UnusedLasts(Next(t, Reap(c, q)), more, u, q);
  }

  lemma Reaped(t: State, c: nat, q: nat)
    requires Inv(t) && Enabled(t, Reap(c, q))
    ensures q < |Next(t, Reap(c, q)).procs| && Next(t, Reap(c, q)).procs[q].state == Unused
  {
    Here(t, c);
  }

  /** A zombie always has somebody to reap it, who is alive and not asleep in wait. */
  lemma ZombieWatched(s: State, steps: seq<Step>, t: State, q: nat)
    requires Boot(s) && Runs(s, steps, t) && q < |t.procs| && t.procs[q].state.Zombie?
    ensures t.procs[q].parent.Some? && t.procs[q].parent.value < |t.procs|
    ensures var r := t.procs[t.procs[q].parent.value]; Alive(r) && !InWait(r)
  {
    BootInv(s);
    RunKeeps(s, steps, t);
    assert KidOk(t, q);
  }
}
