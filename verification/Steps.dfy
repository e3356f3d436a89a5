/** What the steps of the scheduling system do, and what they add up to (proc.c, sleeplock.c). */
module SchedulingLaws {
  import opened Common
  import opened Scheduling

  // ----- Every embryo is in the making -----

  /** An embryo in slot `q` has somebody who is forking it, and an empty slot forks nothing. */
  ghost predicate NursedAt(s: State, q: nat) {
    q < |s.procs| ==>
      && (s.procs[q].state.Embryo? ==>
            && s.procs[q].maker.Some? && s.procs[q].maker.value < |s.procs|
            && Makes(s.procs[s.procs[q].maker.value]) == Some(q))
      && (s.procs[q].state.Unused? ==> Makes(s.procs[q]) == None)
  }

  ghost predicate Nursed(s: State) { forall q: nat :: NursedAt(s, q) }

  predicate SameMaking(x: Proc, y: Proc) {
    && y.maker == x.maker && (y.state.Embryo? ==> x.state.Embryo?) && Makes(y) == Makes(x)
    && (y.state.Unused? ==> x.state.Unused? || Makes(x) == None)
  }

  lemma NursedFrame(s: State, t: State)
    requires Nursed(s) && |t.procs| == |s.procs|
    requires forall x :: 0 <= x < |s.procs| ==> SameMaking(s.procs[x], t.procs[x])
    ensures Nursed(t)
  {
    hide Makes;
    forall q: nat ensures NursedAt(t, q) {
      assert NursedAt(s, q);
      if q < |s.procs| { assert SameMaking(s.procs[q], t.procs[q]); }
      if q < |s.procs| && t.procs[q].state.Embryo? {
        var m := s.procs[q].maker.value;
        assert SameMaking(s.procs[m], t.procs[m]);
      }
    }
  }

  /** Only the process on CPU `c` changes, and goes on making what it makes. */
  lemma OneNursed(s: State, t: State, c: nat, y: Proc)
    requires Nursed(s) && Executes(s, c) && t.procs == s.procs[Who(s, c) := y] && SameMaking(Me(s, c), y)
    ensures Nursed(t)
  {
    hide Nursed, Makes;
    NursedFrame(s, t);
  }

  /** The state of the process on CPU `c`, and that it goes on elsewhere only from yield. */
  lemma MeFacts(s: State, c: nat)
    requires Inv(s) && Executes(s, c)
    ensures !Me(s, c).state.Embryo? && !Me(s, c).state.Unused? && Me(s, c).state == StateAt(Me(s, c).pc)
    ensures Me(s, c).pc.YldMark? || Me(s, c).pc.YldSwtch? || Me(s, c).pc.PtDrop? || Me(s, c).ret.Out?
  {
    Here(s, c);
    hide Inv, MineAt, LockOf, LkAt, HoldsPt;
  }

  lemma MoveNursed(s: State, c: nat, to: Pc)
    requires Inv(s) && Nursed(s) && Executes(s, c) && Making(to) == Making(Me(s, c).pc)
    requires !Me(s, c).pc.YldMark? && !Me(s, c).pc.YldSwtch? && !Me(s, c).pc.PtDrop?
    ensures Nursed(Move(s, c, to))
  {
    hide Inv, Nursed, Spun, HoldsPt, LkAt, StateAt, Making;
    MeFacts(s, c);
    OneNursed(s, Move(s, c, to), c, Me(s, c).(pc := to));
  }

  /** Steps of a process outside exit, wait and fork leave the forks alone. */
  lemma LockNursed(s: State, step: Step)
    requires Inv(s) && Nursed(s) && Enabled(s, step) && OfLocks(step)
    ensures Nursed(Next(s, step))
  {
    hide Inv, Nursed, Move, Spun, HoldsPt, LkAt, Available, WakeLock, StateAt;
    var c, t := step.c, Next(s, step);
    MeFacts(s, c);
    if step.Begin? || (step.Enter? && !step.to.YldMark?) {
      MoveNursed(s, c, step.to);
    } else if step.Plain? {
      MoveNursed(s, c, Then(Me(s, c).pc));
    } else if step.WakeAll? {
      WakeNursed(s, c);
    } else {
      OneNursed(s, t, c, t.procs[Who(s, c)]);
    }
  }

  lemma WakeNursed(s: State, c: nat)
    requires Inv(s) && Nursed(s) && Enabled(s, WakeAll(c))
    ensures Nursed(WokeAll(s, c))
  {
    MeFacts(s, c);
    hide Inv, Nursed, StateAt, HoldsPt, LkAt;
    NursedFrame(s, WokeAll(s, c));
  }

  predicate OfForks(step: Step) { step.ForkTake? || step.ForkFail? || step.ForkParent? || step.ForkDone? }

  lemma TableNursed(s: State, step: Step)
    requires Inv(s) && Nursed(s) && Enabled(s, step) && !OfLocks(step) && !OfForks(step)
    ensures Nursed(Next(s, step))
  {
    hide Inv, Nursed, Spun, HoldsPt, LkAt, StateAt, Exited, Move;
    if step.Exit? {
      ExitNursed(s, step.c);
    } else if step.WaitLeave? {
      MoveNursed(s, step.c, PtDrop);
    } else {
      if step.Reap? { ZombieMakes(s, step.q); }
      if step.Reap? || step.WaitSleep? || step.WaitAgain? { MeFacts(s, step.c); }
      NursedFrame(s, Next(s, step));
    }
  }

  lemma ZombieMakes(s: State, q: nat)
    requires Inv(s) && q < |s.procs| && s.procs[q].state.Zombie?
    ensures Makes(s.procs[q]) == None
  {
    assert ProcOk(s, q);
    hide Inv, MineAt, LockOf, LkAt, HoldsPt;
  }

  lemma ExitNursed(s: State, c: nat)
    requires Inv(s) && Nursed(s) && Enabled(s, Exit(c))
    ensures Nursed(Exited(s, c))
  {
    MeFacts(s, c);
    ExitMe(s, c);
    hide Inv, Nursed, StateAt, HoldsPt, LkAt, Exited;
    var t := Exited(s, c);
    forall x: nat | x < |s.procs| ensures SameMaking(s.procs[x], t.procs[x]) {
      if x != Who(s, c) { ExitAt(s, c, x); }
    }
    NursedFrame(s, t);
  }

  lemma MakerLives(s: State, p: nat)
    requires Inv(s) && Nursed(s) && p < |s.procs| && Makes(s.procs[p]).Some?
    ensures Alive(s.procs[p])
  {
    assert ProcOk(s, p) && NursedAt(s, p);
    hide Inv, MineAt, LockOf, LkAt, HoldsPt;
  }

  /** The one embryo that the process on CPU `c` makes. */
  lemma MyEmbryo(s: State, c: nat, q: nat)
    requires Inv(s) && Nursed(s) && Executes(s, c) && q < |s.procs| && s.procs[q].state.Embryo?
    ensures q != Who(s, c) && s.procs[q].maker.Some? && s.procs[q].maker.value < |s.procs|
    ensures s.procs[q].maker.value == Who(s, c) ==> Makes(Me(s, c)) == Some(q)
    ensures Makes(s.procs[s.procs[q].maker.value]) == Some(q) && s.procs[q].maker.value != q
  {
    MeFacts(s, c);
    assert NursedAt(s, q);
    assert ForkOk(s, s.procs[q].maker.value);
    MakerLives(s, s.procs[q].maker.value);
  }

  /** The process on CPU `c` becomes `x` and slot `z` becomes `y`, for which one of them accounts. */
  lemma PairNursed(s: State, t: State, c: nat, z: nat, x: Proc, y: Proc)
    requires Inv(s) && Nursed(s) && Executes(s, c) && z < |s.procs| && z != Who(s, c)
    requires !x.state.Embryo? && !x.state.Unused? && Makes(y) == Makes(s.procs[z]) == None
    requires t.procs == s.procs[z := y][Who(s, c) := x]
    requires y.state.Embryo? ==> y.maker == Some(Who(s, c)) && Makes(x) == Some(z)
    requires Makes(Me(s, c)).Some? ==> Makes(Me(s, c)) == Some(z)
    ensures Nursed(t)
  {
    hide Inv, Makes;
    forall q: nat ensures NursedAt(t, q) {
      assert NursedAt(s, q);
      if q < |s.procs| && q != z && s.procs[q].state.Embryo? { MyEmbryo(s, c, q); }
    }
  }

  lemma EmptySlot(s: State, c: nat, q: nat)
    requires Inv(s) && Nursed(s) && Enabled(s, ForkTake(c, q))
    ensures q != Who(s, c) && Makes(s.procs[q]) == None && Makes(Me(s, c)) == None
  {
    MeFacts(s, c);
    assert NursedAt(s, q);
    hide Inv, Nursed, StateAt;
  }

  /** The embryo of a process in fork, between the steps of that. */
  lemma TheEmbryo(s: State, c: nat)
    requires Inv(s) && Forking(s, c)
    ensures var q := Me(s, c).pc.q;
      && q != Who(s, c) && Makes(Me(s, c)) == Some(q) && Me(s, c).ret.Out?
      && s.procs[q] == Proc(Embryo, NoChan, s.procs[q].parent, PtDrop, Out, None, {}, Some(Who(s, c)))
      && s.procs[q].parent == if Me(s, c).pc.ForkBuild? then None else Some(Who(s, c))
  {
    MeFacts(s, c);
    Here(s, c);
    assert ProcOk(s, Me(s, c).pc.q);
    hide Inv, StateAt, HoldsPt, LkAt, LockOf, MineAt;
  }

  lemma TakeNursed(s: State, c: nat, q: nat)
    requires Inv(s) && Nursed(s) && Enabled(s, ForkTake(c, q))
    ensures Nursed(Given(s, c, q))
  {
    hide Inv, Nursed, StateAt;
    var t := Given(s, c, q);
    MeFacts(s, c);
    EmptySlot(s, c, q);
    PairNursed(s, t, c, q, t.procs[Who(s, c)], t.procs[q]);
  }

  lemma ForkNursed(s: State, step: Step)
    requires Inv(s) && Nursed(s) && Enabled(s, step) && OfForks(step)
    ensures Nursed(Next(s, step))
  {
    hide Inv, Nursed, StateAt, HoldsPt, LkAt, Spun, Given;
    if step.ForkTake? {
      TakeNursed(s, step.c, step.q);
    } else {
      var c, t := step.c, Next(s, step);
      MeFacts(s, c);
      TheEmbryo(s, c);
      var q := Me(s, c).pc.q;
      PairNursed(s, t, c, q, t.procs[Who(s, c)], t.procs[q]);
    }
  }

  lemma NursedStep(s: State, step: Step)
    requires Inv(s) && Nursed(s) && Enabled(s, step)
    ensures Nursed(Next(s, step))
  {
    hide Inv, Nursed, Next, Enabled;
    if OfLocks(step) {
      LockNursed(s, step);
    } else if OfForks(step) {
      ForkNursed(s, step);
    } else {
      TableNursed(s, step);
    }
  }

  lemma {:induction false} NursedRun(s: State, steps: seq<Step>, t: State)
    requires Inv(s) && Nursed(s) && Runs(s, steps, t)
    ensures Nursed(t)
    decreases |steps|
  {
    hide Inv, Nursed, Next, Enabled;
    if steps != [] {
      StepKeeps(s, steps[0]);
      NursedStep(s, steps[0]);
      NursedRun(Next(s, steps[0]), steps[1..], t);
    }
  }

  /** In every reachable state an embryo has exactly one process that is forking it, and that is alive. */
  lemma EmbryoMade(s: State, steps: seq<Step>, t: State, q: nat)
    requires Boot(s) && Runs(s, steps, t) && q < |t.procs| && t.procs[q].state.Embryo?
    ensures exists p: nat :: p < |t.procs| && Makes(t.procs[p]) == Some(q) && Alive(t.procs[p])
    ensures forall p: nat, r: nat ::
      p < |t.procs| && r < |t.procs| && Makes(t.procs[p]) == Some(q) && Makes(t.procs[r]) == Some(q) ==> p == r
  {
    BootInv(s);
    assert Nursed(s) by { forall x: nat ensures NursedAt(s, x) {} }
    NursedRun(s, steps, t);
    RunKeeps(s, steps, t);
    assert NursedAt(t, q);
    var p := t.procs[q].maker.value;
    MakerLives(t, p);
    forall r: nat | r < |t.procs| && Makes(t.procs[r]) == Some(q) ensures r == p { assert ForkOk(t, r); }
  }

  // ----- What single steps do -----

  /** Two processes that differ in state only. */
  predicate BecomesRunnable(x: Proc, y: Proc) { x.state.Sleeping? && y.state.Runnable? && y.(state := Sleeping) == x }

  /** The last step of fork: the child can be run, its parent is who forked it, and nobody else is touched. */
  lemma ForkDoneLaw(s: State, c: nat)
    requires Inv(s) && Enabled(s, ForkDone(c))
    ensures var t, p, q := Next(s, ForkDone(c)), Who(s, c), Me(s, c).pc.q;
      && |t.procs| == |s.procs| && p != q && t.procs[q].state.Runnable? && t.procs[q].parent == Some(p)
      && t.procs[q].pc == PtDrop && t.procs[q].ret == Out && t.procs[q].mine == {} && t.procs[q].maker == None
      && t.procs[p] == s.procs[p].(pc := PtDrop)
      && (forall x :: 0 <= x < |s.procs| && x != p && x != q ==> t.procs[x] == s.procs[x])
      && t.cpus == s.cpus && t.pt == s.pt && t.locks == s.locks
  {
    hide Inv, StateAt, HoldsPt, LkAt, Spun;
    TheEmbryo(s, c);
  }

  /** kill: the sleeper can be run, wherever it slept, and nothing else changes. */
  lemma KillLaw(s: State, q: nat)
    requires Enabled(s, Kill(q))
    ensures var t := Next(s, Kill(q));
      && |t.procs| == |s.procs| && BecomesRunnable(s.procs[q], t.procs[q])
      && (forall x :: 0 <= x < |s.procs| && x != q ==> t.procs[x] == s.procs[x])
      && t.cpus == s.cpus && t.pt == s.pt && t.locks == s.locks
  {}

  /** wakeup1: exactly the processes asleep on that sleep lock can be run. */
  lemma WakeAllLaw(s: State, c: nat)
    requires Inv(s) && Enabled(s, WakeAll(c))
    ensures var t, p, l := Next(s, WakeAll(c)), Who(s, c), Me(s, c).pc.l;
      && |t.procs| == |s.procs| && t.procs[p] == s.procs[p].(pc := RelDrop(l))
      && (forall x :: 0 <= x < |s.procs| && x != p ==>
            if s.procs[x].state.Sleeping? && s.procs[x].chan == Lock(l) then BecomesRunnable(s.procs[x], t.procs[x])
            else t.procs[x] == s.procs[x])
      && t.cpus == s.cpus && t.pt == s.pt && t.locks == s.locks
  {
    hide Inv, HoldsPt, LkAt;
  }

  /** What another process sees of an exit: it has init for parent if it was a child, and it can be run if it slept in
      wait and is the parent, or is init and has got a zombie. */
  predicate AfterExit(s: State, p: nat, x: nat, y: Proc)
    requires p < |s.procs| && x < |s.procs|
  {
    var kid := s.procs[x].parent == Some(p);
    var told := s.procs[p].parent == Some(x) || (x == 0 && HasZombie(s.procs, p));
    && y.parent == (if kid then Some(0) else s.procs[x].parent)
    && y.state == (if told && s.procs[x].state.Sleeping? && s.procs[x].chan.Child? then Runnable else s.procs[x].state)
    && y.(parent := s.procs[x].parent, state := s.procs[x].state) == s.procs[x]
  }

  /** exit: the process is a zombie with the parent it had. */
  lemma ExitLaw(s: State, c: nat)
    requires Inv(s) && Enabled(s, Exit(c))
    ensures var t, p := Next(s, Exit(c)), Who(s, c);
      && |t.procs| == |s.procs| && t.procs[p] == s.procs[p].(state := Zombie, pc := ExitSwtch)
      && (forall x: nat :: x < |s.procs| && x != p ==> AfterExit(s, p, x, t.procs[x]))
      && t.cpus == s.cpus && t.pt == s.pt && t.locks == s.locks
  {
    ExitMe(s, c);
    var p := Who(s, c);
    forall x: nat | x < |s.procs| && x != p ensures AfterExit(s, p, x, Exited(s, c).procs[x]) { ExitSeen(s, c, x); }
    hide Inv, Exited;
  }

  lemma ExitSeen(s: State, c: nat, x: nat)
    requires Inv(s) && Enabled(s, Exit(c)) && x < |s.procs| && x != Who(s, c)
    ensures |Exited(s, c).procs| == |s.procs| && AfterExit(s, Who(s, c), x, Exited(s, c).procs[x])
  {
    var p := Who(s, c);
    var woken := WakeParent(s.procs, p);
    forall k: nat | k < |s.procs|
      ensures woken[k].parent == s.procs[k].parent && (woken[k].state.Zombie? <==> s.procs[k].state.Zombie?)
    {
      WakeParentAt(s.procs, p, k);
    }
    if HasZombie(s.procs, p) { SameZombie(s.procs, p); }
    assert HasZombie(woken, p) ==> HasZombie(s.procs, p);
  }

  /** wait frees the slot of the zombie and touches nobody else. */
  lemma ReapLaw(s: State, c: nat, q: nat)
    requires Inv(s) && Enabled(s, Reap(c, q))
    ensures var t, p := Next(s, Reap(c, q)), Who(s, c);
      && |t.procs| == |s.procs| && p != q && t.procs[q].state.Unused? && t.procs[q].parent == None
      && t.procs[p] == s.procs[p].(pc := PtDrop)
      && (forall x :: 0 <= x < |s.procs| && x != p && x != q ==> t.procs[x] == s.procs[x])
      && t.cpus == s.cpus && t.pt == s.pt && t.locks == s.locks
  {
    MeFacts(s, c);
    hide Inv, HoldsPt, LkAt, Spun;
  }

  // ----- What steps add up to -----

  lemma Stop(s: State)
    ensures Runs(s, [], s)
  {}

  lemma RunsFirst(s: State, steps: seq<Step>, t: State)
    requires steps != [] && Enabled(s, steps[0]) && Runs(Next(s, steps[0]), steps[1..], t)
    ensures Runs(s, steps, t)
  {
    hide Enabled, Next;
  }

  /** Three steps and then more. */
  lemma Three(s: State, a: Step, b: Step, c: Step, rest: seq<Step>, t: State)
    requires Enabled(s, a) && Enabled(Next(s, a), b) && Enabled(Next(Next(s, a), b), c)
    requires Runs(Next(Next(Next(s, a), b), c), rest, t)
    ensures Runs(s, [a, b, c] + rest, t)
  {
    hide Enabled, Next, Runs;
    assert ([c] + rest)[1..] == rest;
    RunsFirst(Next(Next(s, a), b), [c] + rest, t);
    assert ([b, c] + rest)[1..] == [c] + rest;
    RunsFirst(Next(s, a), [b, c] + rest, t);
    assert ([a, b, c] + rest)[1..] == [b, c] + rest;
    RunsFirst(s, [a, b, c] + rest, t);
  }

  /** From the timer interrupt to the scheduler. */
  lemma TimerOut(s: State, c: nat) returns (t: State)
    requires Inv(s) && Enabled(s, Enter(c, YldMark))
    ensures Enabled(s, Enter(c, YldMark)) && Enabled(Next(s, Enter(c, YldMark)), Yield(c))
    ensures var s2 := Next(Next(s, Enter(c, YldMark)), Yield(c)); Enabled(s2, Swtch(c)) && t == Next(s2, Swtch(c))
    ensures Executes(s, c) && Me(s, c).ret.Out?
    ensures t == s.(cpus := s.cpus[c := Cpu(Some(Who(s, c)), Back)], pt := Some(c),
      procs := s.procs[Who(s, c) := Me(s, c).(state := Runnable, pc := PtDrop, ret := Me(s, c).pc, on := None)])
  {
    MeFacts(s, c);
    Here(s, c);
    hide Inv, HoldsPt, LkAt, Spun, MineAt, StateAt, LockOf;
    t := Next(Next(Next(s, Enter(c, YldMark)), Yield(c)), Swtch(c));
  }

  /** And back to the process. */
  lemma TimerBack(s: State, c: nat, p: nat, x: Proc)
    requires c < |s.cpus| && s.cpus[c].exec.Back? && p < |s.procs| && s.pt == Some(c)
    requires s.procs[p] == x.(state := Runnable, pc := PtDrop, ret := x.pc, on := None)
    ensures Enabled(s, Clear(c)) && Enabled(Next(s, Clear(c)), Pick(c, p))
    ensures var s2 := Next(Next(s, Clear(c)), Pick(c, p));
      && Enabled(s2, Resumed(c))
      && Next(s2, Resumed(c)) == s.(cpus := s.cpus[c := Cpu(Some(p), Process(p))], pt := None,
        procs := s.procs[p := x.(state := Running, ret := Out, on := Some(c))])
  {
    hide HoldsPt, LkAt, Spun, MineAt, StateAt, LockOf;
  }

  /** A timer interrupt after which the scheduler picks the same process again changes nothing at all: it goes on
      exactly where it was. */
  lemma TimerRound(s: State, c: nat)
    requires Inv(s) && Enabled(s, Enter(c, YldMark))
    ensures Runs(s, [Enter(c, YldMark), Yield(c), Swtch(c), Clear(c), Pick(c, Who(s, c)), Resumed(c)], s)
  {
    hide Inv, Enabled, Next, StateAt, Runs;
    var t := TimerOut(s, c);
    var p, x := Who(s, c), Me(s, c);
    TimerBack(t, c, p, x);
    TimerSame(s, c);
    assert t.procs[p := x] == s.procs && t.cpus[c := s.cpus[c]] == s.cpus;
    Stop(s);
    Three(t, Clear(c), Pick(c, p), Resumed(c), [], s);
    Three(s, Enter(c, YldMark), Yield(c), Swtch(c), [Clear(c), Pick(c, p), Resumed(c)] + [], s);
    assert [Enter(c, YldMark), Yield(c), Swtch(c), Clear(c), Pick(c, p), Resumed(c)] ==
      [Enter(c, YldMark), Yield(c), Swtch(c)] + ([Clear(c), Pick(c, p), Resumed(c)] + []);
  }

  lemma TimerSame(s: State, c: nat)
    requires Inv(s) && Enabled(s, Enter(c, YldMark))
    ensures Me(s, c) == Me(s, c).(state := Running, ret := Out, on := Some(c))
    ensures s.cpus[c] == Cpu(Some(Who(s, c)), Process(Who(s, c))) && s.pt == None
  {
    MeFacts(s, c);
    Here(s, c);
    hide Inv, MineAt, LockOf, LkAt, HoldsPt;
  }

  /** An exit by a process whose parent sleeps in wait: the CPU can go on to the parent, which finds the zombie and
      frees its slot. */
  lemma ExitReaped(s: State, c: nat, p: nat, r: nat) returns (t: State)
    requires Inv(s) && Enabled(s, Exit(c)) && Who(s, c) == p && Me(s, c).parent == Some(r)
    requires r < |s.procs| && s.procs[r].state.Sleeping? && s.procs[r].pc.WaitBack?
    ensures Runs(s, [Exit(c), Swtch(c), Clear(c), Pick(c, r), WaitAgain(c), Reap(c, p)], t)
    ensures |t.procs| == |s.procs| && t.procs[p].state.Unused?
    ensures |t.cpus| == |s.cpus| && t.cpus[c].exec == Process(r)
  {
    hide Inv, Enabled, Next, StateAt, Runs;
    var t1 := ExitOut(s, c, p, r);
    t := WaitFinds(t1, c, r, p);
    Stop(t);
    Three(t1, Pick(c, r), WaitAgain(c), Reap(c, p), [], t);
    Three(s, Exit(c), Swtch(c), Clear(c), [Pick(c, r), WaitAgain(c), Reap(c, p)] + [], t);
    assert [Exit(c), Swtch(c), Clear(c), Pick(c, r), WaitAgain(c), Reap(c, p)] ==
      [Exit(c), Swtch(c), Clear(c)] + ([Pick(c, r), WaitAgain(c), Reap(c, p)] + []);
  }

  lemma ExitOut(s: State, c: nat, p: nat, r: nat) returns (t: State)
    requires Inv(s) && Enabled(s, Exit(c)) && Who(s, c) == p && Me(s, c).parent == Some(r)
    requires r < |s.procs| && s.procs[r].state.Sleeping? && s.procs[r].pc.WaitBack?
    ensures Enabled(Next(s, Exit(c)), Swtch(c))
    ensures var s2 := Next(Next(s, Exit(c)), Swtch(c)); Enabled(s2, Clear(c)) && t == Next(s2, Clear(c))
    ensures |t.procs| == |s.procs| && |t.cpus| == |s.cpus| && c < |t.cpus| && p < |t.procs| && r != p
    ensures t.cpus[c] == Cpu(None, Scan)
    ensures t.procs[r].state.Runnable? && t.procs[r].pc.WaitBack?
    ensures t.procs[p].state.Zombie? && t.procs[p].parent == Some(r)
  {
    hide Inv, Next, StateAt, HoldsPt, LkAt;
    ExitLaw(s, c);
    Waiter(s, p, r);
    var s1 := Next(s, Exit(c));
    assert AfterExit(s, p, r, s1.procs[r]);
    Leaves(s1, c, p);
    t := Next(Next(s1, Swtch(c)), Clear(c));
  }

  lemma Waiter(s: State, p: nat, r: nat)
    requires Inv(s) && p < |s.procs| && s.procs[p].parent == Some(r)
    requires r < |s.procs| && s.procs[r].state.Sleeping? && s.procs[r].pc.WaitBack?
    ensures r != p && s.procs[r].chan.Child?
  {
    assert ProcOk(s, r) && KidOk(s, p);
    hide Inv, MineAt, LockOf, LkAt, HoldsPt;
  }

  /** From the end of exit to the scheduler. */
  lemma Leaves(s: State, c: nat, p: nat)
    requires c < |s.cpus| && p < |s.procs| && s.cpus[c].exec == Process(p) && s.procs[p].pc.ExitSwtch?
    ensures Enabled(s, Swtch(c)) && Enabled(Next(s, Swtch(c)), Clear(c))
    ensures Next(Next(s, Swtch(c)), Clear(c)) == s.(cpus := s.cpus[c := Cpu(None, Scan)],
      procs := s.procs[p := s.procs[p].(pc := Dead, on := None)])
  {
    hide HoldsPt, LkAt, Spun, StateAt;
  }

  lemma WaitFinds(s: State, c: nat, r: nat, p: nat) returns (t: State)
    requires c < |s.cpus| && s.cpus[c] == Cpu(None, Scan) && r < |s.procs| && p < |s.procs| && r != p
    requires s.procs[r].state.Runnable? && s.procs[r].pc.WaitBack?
    requires s.procs[p].state.Zombie? && s.procs[p].parent == Some(r)
    ensures Enabled(s, Pick(c, r)) && Enabled(Next(s, Pick(c, r)), WaitAgain(c))
    ensures var s2 := Next(Next(s, Pick(c, r)), WaitAgain(c)); Enabled(s2, Reap(c, p)) && t == Next(s2, Reap(c, p))
    ensures |t.procs| == |s.procs| && |t.cpus| == |s.cpus| && t.procs[p].state.Unused? && t.cpus[c].exec == Process(r)
  {
    hide Exited, HoldsPt, LkAt, Spun, MineAt, LockOf;
    t := Next(Next(Next(s, Pick(c, r)), WaitAgain(c)), Reap(c, p));
  }

  /** After a fork any idle CPU can run the child. */
  lemma ForkRuns(s: State, c: nat, q: nat, d: nat) returns (t: State)
    requires Inv(s) && Enabled(s, ForkDone(c)) && Me(s, c).pc.q == q && d < |s.cpus| && s.cpus[d].exec.Idle?
    ensures
      && Runs(s, [ForkDone(c), Resumed(c), SchedAcquire(d), Pick(d, q)], t) && |t.cpus| == |s.cpus|
      && t.cpus[d].exec == Process(q) && |t.procs| == |s.procs| && t.procs[q].parent == Some(Who(s, c))
  {
    hide Inv, Enabled, Next, StateAt, Runs;
    var s1 := Next(s, ForkDone(c));
    t := ChildRuns(s, c, d);
    Stop(t);
    Three(s1, Resumed(c), SchedAcquire(d), Pick(d, q), [], t);
    var steps := [ForkDone(c), Resumed(c), SchedAcquire(d), Pick(d, q)];
    assert steps[1..] == [Resumed(c), SchedAcquire(d), Pick(d, q)] + [];
    RunsFirst(s, steps, t);
  }

  lemma ChildRuns(s: State, c: nat, d: nat) returns (t: State)
    requires Inv(s) && Enabled(s, ForkDone(c)) && d < |s.cpus| && s.cpus[d].exec.Idle?
    ensures var q := Me(s, c).pc.q;
      var s1 := Next(s, ForkDone(c));
      && Enabled(s1, Resumed(c)) && Enabled(Next(s1, Resumed(c)), SchedAcquire(d))
      && Enabled(Next(Next(s1, Resumed(c)), SchedAcquire(d)), Pick(d, q))
      && t == Next(Next(Next(s1, Resumed(c)), SchedAcquire(d)), Pick(d, q))
      && |t.cpus| == |s.cpus| && |t.procs| == |s.procs|
      && t.cpus[d].exec == Process(q) && t.procs[q].parent == Some(Who(s, c))
  {
    ForkDoneLaw(s, c);
    hide Inv, HoldsPt, LkAt, Spun, MineAt, LockOf, Ready;
    var s1 := Next(s, ForkDone(c));
    t := Next(Next(Next(s1, Resumed(c)), SchedAcquire(d)), Pick(d, Me(s, c).pc.q));
  }

  /** A fork that fails leaves the system as it was, but for what is in the unused slot. */
  lemma ForkUndone(s: State, c: nat, q: nat) returns (t: State)
    requires Inv(s) && Enabled(s, Enter(c, ForkPick)) && q < |s.procs| && s.procs[q].state.Unused?
    ensures Runs(s, [Enter(c, ForkPick), ForkTake(c, q), Plain(c), ForkFail(c)], t)
    ensures |t.procs| == |s.procs| && t.procs[q].state.Unused? && t == s.(procs := s.procs[q := t.procs[q]])
  {
    var s1, s2 := TakeSlot(s, c, q);
    t := DropSlot(s, s2, c, q);
    hide Inv, Enabled, Next, StateAt, Runs;
    Stop(t);
    Three(s1, ForkTake(c, q), Plain(c), ForkFail(c), [], t);
    var steps := [Enter(c, ForkPick), ForkTake(c, q), Plain(c), ForkFail(c)];
    assert steps[1..] == [ForkTake(c, q), Plain(c), ForkFail(c)] + [];
    RunsFirst(s, steps, t);
  }

  /** The system with the process on CPU `c` at `to` and an embryo in slot `q`. */
  function Bearing(s: State, c: nat, q: nat, to: Pc): State
    requires Executes(s, c) && q < |s.procs|
  {
    s.(procs := s.procs[Who(s, c) := Me(s, c).(pc := to)]
      [q := Proc(Embryo, NoChan, None, PtDrop, Out, None, {}, Some(Who(s, c)))])
  }

  lemma TakeSlot(s: State, c: nat, q: nat) returns (s1: State, s2: State)
    requires Inv(s) && Enabled(s, Enter(c, ForkPick)) && q < |s.procs| && s.procs[q].state.Unused?
    ensures s1 == Next(s, Enter(c, ForkPick)) && Enabled(s1, ForkTake(c, q)) && s2 == Next(s1, ForkTake(c, q))
    ensures q != Who(s, c) && s2 == Bearing(s, c, q, ForkHold(q)).(pt := Some(c))
  {
    MeFacts(s, c);
    SameSpun(s, c, ForkPick);
    hide Inv;
    s1 := Next(s, Enter(c, ForkPick));
    s2 := Next(s1, ForkTake(c, q));
  }

  lemma DropSlot(s: State, s2: State, c: nat, q: nat) returns (t: State)
    requires Inv(s) && Enabled(s, Enter(c, ForkPick)) && q < |s.procs| && q != Who(s, c)
    requires s2 == Bearing(s, c, q, ForkHold(q)).(pt := Some(c))
    ensures Enabled(s2, Plain(c)) && Enabled(Next(s2, Plain(c)), ForkFail(c))
    ensures t == Next(Next(s2, Plain(c)), ForkFail(c))
    ensures |t.procs| == |s.procs| && t.procs[q].state.Unused? && t == s.(procs := s.procs[q := t.procs[q]])
  {
    SameSpun(s, c, ForkPick);
    hide Inv;
    Holds(s, s2, c, q);
    t := Next(Next(s2, Plain(c)), ForkFail(c));
    hide Move;
  }

  lemma Holds(s: State, s2: State, c: nat, q: nat)
    requires Executes(s, c) && s.pt == None && Spun(s.locks, c, None) == s.locks && q < |s.procs| && q != Who(s, c)
    requires s2 == Bearing(s, c, q, ForkHold(q)).(pt := Some(c))
    ensures Enabled(s2, Plain(c)) && Next(s2, Plain(c)) == Bearing(s, c, q, ForkBuild(q))
  {}

  // ----- acquiresleep and releasesleep return with the lock and without it -----

  /** Interrupted between steps by the timer. */
  predicate Yields(pc: Pc) { pc.YldMark? || pc.YldSwtch? || pc.PtDrop? }

  /** The process is in acquiresleep and has not got lock `l` yet. */
  predicate Seeks(x: Proc, l: nat) {
    || x.pc == AcqLk(l) || x.pc == AcqTest(l) || x.pc == AcqPt(l) || x.pc == AcqDrop(l) || x.pc == AcqMark(l)
    || x.pc == AcqSwtch(l) || x.pc == AcqBack(l) || x.pc == AcqFree(l) || (Yields(x.pc) && x.ret == AcqLk(l))
  }

  /** The process is in releasesleep and has not cleared the lock yet. */
  predicate Keeps(x: Proc, l: nat) { x.pc == RelLk(l) || x.pc == RelClear(l) || (Yields(x.pc) && x.ret == RelLk(l)) }

  /** The process has cleared the lock and is waking its sleepers, or has. */
  predicate Rouses(x: Proc, l: nat) {
    x.pc == RelPt(l) || x.pc == RelWake(l) || x.pc == RelDrop(l) || x.pc == RelDone(l)
  }

  predicate SamePlace(x: Proc, y: Proc) { y.pc == x.pc && y.ret == x.ret && y.mine == x.mine }

  /** The step is one of process `p` itself. */
  predicate Acts(s: State, step: Step, p: nat) {
    !step.Kill? && !step.Pick? && Executes(s, step.c) && Who(s, step.c) == p
  }

  /** What happens to a process that executes elsewhere, or nowhere, leaves it where it is. */
  lemma OthersStay(s: State, step: Step, p: nat)
    requires Inv(s) && Enabled(s, step) && p < |s.procs| && Alive(s.procs[p])
    requires !Acts(s, step, p)
    ensures p < |Next(s, step).procs| && SamePlace(s.procs[p], Next(s, step).procs[p])
  {
    hide Inv, Next, Enabled, SamePlace;
    if OfLocks(step) { LockOthers(s, step, p); } else { TableOthers(s, step, p); }
  }

  lemma LockOthers(s: State, step: Step, p: nat)
    requires Inv(s) && Enabled(s, step) && p < |s.procs| && OfLocks(step) && !Acts(s, step, p)
    ensures p < |Next(s, step).procs| && SamePlace(s.procs[p], Next(s, step).procs[p])
  {
    hide Inv, Spun, HoldsPt, LkAt, Available, StateAt, WokeAll, NextTable;
    if step.WakeAll? { WakeAllOthers(s, step.c, p); }
  }

  lemma WakeAllOthers(s: State, c: nat, p: nat)
    requires Enabled(s, WakeAll(c)) && p < |s.procs| && Who(s, c) != p
    ensures p < |WokeAll(s, c).procs| && SamePlace(s.procs[p], WokeAll(s, c).procs[p])
  {}

  lemma TableOthers(s: State, step: Step, p: nat)
    requires Inv(s) && Enabled(s, step) && p < |s.procs| && !OfLocks(step) && Alive(s.procs[p])
    requires !Acts(s, step, p)
    ensures p < |Next(s, step).procs| && SamePlace(s.procs[p], Next(s, step).procs[p])
  {
    hide Inv, Spun, HoldsPt, LkAt, Available, StateAt, Exited;
    if step.Exit? {
      ExitMe(s, step.c);
      ExitAt(s, step.c, p);
    } else if step.ForkFail? || step.ForkParent? || step.ForkDone? {
      TheEmbryo(s, step.c);
    }
  }

  lemma OwnStep(s: State, step: Step, p: nat, l: nat)
    requires Enabled(s, step) && Acts(s, step, p)
    requires Seeks(s.procs[p], l) || Keeps(s.procs[p], l) || Rouses(s.procs[p], l) || s.procs[p].pc == AcqDone(l)
    ensures OfLocks(step)
  {
    hide Available, HoldsPt, LkAt;
  }

  lemma SeeksOn(s: State, step: Step, p: nat, l: nat)
    requires Inv(s) && Enabled(s, step) && Acts(s, step, p) && OfLocks(step) && Seeks(s.procs[p], l)
    ensures p < |Next(s, step).procs|
    ensures var y := Next(s, step).procs[p]; Seeks(y, l) || (y.pc == AcqDone(l) && l in y.mine)
  {
    hide Inv, Spun, HoldsPt, LkAt, Available, StateAt, WakeLock, NextTable;
    MeFacts(s, step.c);
  }

  lemma KeepsOn(s: State, step: Step, p: nat, l: nat)
    requires Inv(s) && Enabled(s, step) && Acts(s, step, p) && OfLocks(step) && Keeps(s.procs[p], l)
    ensures p < |Next(s, step).procs|
    ensures var y := Next(s, step).procs[p]; Keeps(y, l) || (y.pc == RelPt(l) && l !in y.mine)
  {
    hide Inv, Spun, HoldsPt, LkAt, Available, StateAt, WakeLock, NextTable;
    MeFacts(s, step.c);
  }

  lemma WakerMoves(s: State, c: nat)
    requires Enabled(s, WakeAll(c))
    ensures |WokeAll(s, c).procs| == |s.procs|
    ensures WokeAll(s, c).procs[Who(s, c)] == Me(s, c).(pc := RelDrop(Me(s, c).pc.l))
  {}

  lemma RousesOn(s: State, step: Step, p: nat, l: nat)
    requires Inv(s) && Enabled(s, step) && Acts(s, step, p) && OfLocks(step) && Rouses(s.procs[p], l)
    ensures p < |Next(s, step).procs|
    ensures var x, y := s.procs[p], Next(s, step).procs[p];
      (Rouses(y, l) || y.pc.Out?) && y.mine == x.mine && (y.pc.RelDrop? && !x.pc.RelDrop? ==> step.WakeAll?)
  {
    hide Inv, Spun, HoldsPt, LkAt, Available, StateAt, WokeAll, NextTable;
    if step.WakeAll? { WakerMoves(s, step.c); } else { MeFacts(s, step.c); }
  }

  lemma HasOn(s: State, step: Step, p: nat, l: nat)
    requires Inv(s) && Enabled(s, step) && Acts(s, step, p) && OfLocks(step) && s.procs[p].pc == AcqDone(l)
    ensures p < |Next(s, step).procs|
    ensures var y := Next(s, step).procs[p]; y.pc.Out? && y.mine == s.procs[p].mine
  {
    hide Inv, Spun, HoldsPt, LkAt, Available, StateAt, WakeLock, NextTable;
    MeFacts(s, step.c);
  }

  /** acquiresleep comes back with the lock, whatever steps are made by whom: a process that is in it stays in it until
      it has the lock, and then keeps it. */
  lemma AcquireLaw(s: State, step: Step, p: nat, l: nat)
    requires Inv(s) && Enabled(s, step) && p < |s.procs| && Alive(s.procs[p])
    ensures p < |Next(s, step).procs|
    ensures var x, y := s.procs[p], Next(s, step).procs[p];
      && (Seeks(x, l) ==> Seeks(y, l) || (y.pc == AcqDone(l) && l in y.mine))
      && (x.pc == AcqDone(l) ==> (y.pc == AcqDone(l) || y.pc.Out?) && y.mine == x.mine && l in y.mine)
  {
    assert ProcOk(s, p);
    hide Inv, Next, Enabled, InRange, StateAt, ChanAt;
    if !Acts(s, step, p) {
      OthersStay(s, step, p);
    } else if Seeks(s.procs[p], l) {
      OwnStep(s, step, p, l);
      SeeksOn(s, step, p, l);
    } else if s.procs[p].pc == AcqDone(l) {
      OwnStep(s, step, p, l);
      HasOn(s, step, p, l);
    } else {
      Lasts(s, step);
    }
  }

  /** releasesleep comes back without it, after all who slept on it were woken. */
  lemma ReleaseLaw(s: State, step: Step, p: nat, l: nat)
    requires Inv(s) && Enabled(s, step) && p < |s.procs| && Alive(s.procs[p])
    ensures p < |Next(s, step).procs|
    ensures var x, y := s.procs[p], Next(s, step).procs[p];
      && (Keeps(x, l) ==> Keeps(y, l) || (y.pc == RelPt(l) && l !in y.mine))
      && (Rouses(x, l) ==> (Rouses(y, l) || y.pc.Out?) && y.mine == x.mine)
      && (Rouses(x, l) && y.pc.RelDrop? && !x.pc.RelDrop? ==> step.WakeAll? && Acts(s, step, p))
  {
    hide Inv, Next, Enabled;
    if !Acts(s, step, p) {
      OthersStay(s, step, p);
    } else if Keeps(s.procs[p], l) {
      OwnStep(s, step, p, l);
      KeepsOn(s, step, p, l);
    } else if Rouses(s.procs[p], l) {
      OwnStep(s, step, p, l);
      RousesOn(s, step, p, l);
    } else {
      Lasts(s, step);
    }
  }

  lemma Lasts(s: State, step: Step)
    requires Enabled(s, step)
    ensures |Next(s, step).procs| == |s.procs|
  {
    hide Spun, HoldsPt, LkAt, Available, StateAt;
  }
}
