/** The kernel running processes: copy-on-write refines eager copy, over every run (proc.c, vm.c, kalloc.c). */
module CowMachine {
  import opened Common
  import opened Frames
  import opened Paging
  import opened Memory
  import opened EagerCopy
  import opened Processes
  import opened Forks
  import opened Traces

  // ---- boot ----

  /** A directory that was just set up has a kernel half and no user page. */
  lemma Bare(s: Snap, d: nat, data: nat)
    requires Linked(s) && KernelBuilt(s, d, data, 4)
    ensures KernelHalf(s.ram, d, data) && forall v: nat :: User(d, v) !in s.refs
  {
    forall v: nat ensures User(d, v) !in s.refs { assert UserOk(s.ram, s.refs, d, v); }
  }

  /** The user directory of userinit beside the scheduler's, with one kernel stack. */
  ghost predicate Booted(s: Snap, kp: nat, d: nat, q: nat, data: nat) {
    && kp != d && Dir(kp) in s.refs && Dir(d) in s.refs && KernelHalf(s.ram, kp, data) && KernelHalf(s.ram, d, data)
    && (forall r :: r in s.refs ==> Mapping(r) && (r.d == kp || r.d == d))
    && (forall v: nat :: User(kp, v) !in s.refs)
    && Stack(INIT) in s.held && s.held[Stack(INIT)].frame == q
    && (forall r :: r in s.held && !Mapping(r) ==> r == Stack(INIT))
  }

  lemma BootDirs(s0: Snap, s1: Snap, s2: Snap, s3: Snap, kp: nat, d: nat, q: nat, data: nat)
    requires s0.refs == map[] && s0.held == map[] && Linked(s1) && Linked(s3)
    requires Joined(s0, s1, kp) && KernelBuilt(s1, kp, data, 4) && Dir(kp) in s1.refs
    requires s2.ram == s1.ram && s2.refs == s1.refs && s2.held == s1.held[Stack(INIT) := Pte(q, false, false)]
    requires Joined(s2, s3, d) && KernelBuilt(s3, d, data, 4) && Dir(d) in s3.refs
    ensures Booted(s3, kp, d, q, data) && forall v: nat :: User(d, v) !in s3.refs
  {
    Bare(s1, kp, data);
    Bare(s3, d, data);
    hide Linked, DataKept, KernelBuilt, KernelHalf;
    KernelHalfSame(s2, s3, d, 0, 0, kp, data);
  }

  lemma PageAdded(s0: Snap, s: Snap, d: nat, v: nat)
    requires OnePage(s0, s, d, v)
    ensures forall r :: r in s0.refs ==> r in s.refs
    ensures forall r :: r in s0.held ==> r in s.held && (r != User(d, v) ==> s.held[r] == s0.held[r])
    ensures forall r :: r in s.refs ==> r in s0.refs || r == User(d, v) || r == Tab(d, PDX(v))
    ensures forall r :: r in s.held ==> r in s0.held || r == User(d, v) || r == Tab(d, PDX(v))
  {
    hide Kept;
    var u := User(d, v);
    var r3, h3 := s.refs - {u}, s.held - {u};
    assert forall r :: r in s.refs ==> r == u || r in r3;
    assert forall r :: r in s.held ==> r == u || (r in h3 && h3[r] == s.held[r]);
    assert forall r :: r in s0.refs ==> r in r3 || r == u;
    assert forall r :: r in s0.held ==> r in h3 && h3[r] == s0.held[r];
  }

  function FirstProcs(d: nat, q: nat): Procs { map[INIT := Proc(1, PGSIZE, d, q, NOPARENT, false)] }

  ghost function FirstSys(s: Snap, kp: nat, d: nat, q: nat, data: nat): Sys {
    Sys(s, FirstProcs(d, q), 2, map[d := INIT], map[], kp, data)
  }

  /** The system after userinit: the scheduler's directory, and one process with one page. */
  lemma BootGood(s3: Snap, s: Snap, kp: nat, d: nat, q: nat, data: nat)
    requires Booted(s3, kp, d, q, data) && Linked(s) && OnePage(s3, s, d, 0) && forall v: nat :: User(d, v) !in s3.refs
    ensures Good(FirstSys(s, kp, d, q, data))
  {
    hide Linked, TableAdded;
    var w := FirstSys(s, kp, d, q, data);
    PageAdded(s3, s, d, 0);
    KernelHalfSame(s3, s, d, 0, 1, kp, data);
    KernelHalfSame(s3, s, d, 0, 1, d, data);
    hide Linked, Kept, TableAdded, KernelHalf, At;
    forall x: nat ensures ProcOk(w, x) {
      forall v: nat ensures PageOk(s, FirstProcs(d, q)[INIT], v) {}
    }
    forall e: nat ensures DirOwned(w, e) {}
    forall k: nat ensures PipeOk(w, k) {}
    forall x: nat ensures Related(w.procs, w.nextpid, x) {}
  }

  lemma BootStore(s4: Snap, s: Snap, kp: nat, d: nat, q: nat, data: nat, b: Page)
    requires Good(FirstSys(s4, kp, d, q, data)) && Linked(s) && s.refs == s4.refs && s.held == s4.held
      && EntriesKept(s4, s, 0, 0, 0)
    requires User(d, 0) in s.refs && User(d, 0) in s.held && At(s, User(d, 0)) == Bytes(b)
    ensures Good(FirstSys(s, kp, d, q, data))
    ensures Views(FirstSys(s, kp, d, q, data)) == map[INIT := EProc(1, PGSIZE, [b], NOPARENT, false)]
  {
    var w0, w := FirstSys(s4, kp, d, q, data), FirstSys(s, kp, d, q, data);
    hide Linked, Family, At, KernelHalf;
    forall x: nat ensures ProcOk(w, x) {
      assert ProcOk(w0, x);
      if x == INIT {
        forall v: nat ensures PageOk(s, w.procs[x], v) { assert PageOk(s4, w.procs[x], v); }
      }
    }
    forall e: nat ensures DirOwned(w, e) {
      assert DirOwned(w0, e);
      if Dir(e) in s.refs { KernelHalfSame(s4, s, 0, 0, 0, e, data); }
    }
    forall k: nat ensures PipeOk(w, k) { assert PipeOk(w0, k); }
    assert PagesOf(PGSIZE) == 1;
    assert View(s, w.procs[INIT]).pages == [b];
  }

  lemma FirstFresh(s0: Snap, s: Snap, kp: nat)
    requires s0.held == map[] && Joined(s0, s, kp)
    ensures Stack(INIT) !in s.held
  {
  }

  lemma SecondFresh(s: Snap, kp: nat, d: nat, q: nat, data: nat)
    requires Booted(s, kp, d, q, data)
    ensures Buf(0) !in s.held
  {
  }

  /** kvmalloc and userinit: the first process has one page, with `code` at its start. */
  method Boot(m: Kernel, code: seq<int>) returns (kp: nat, d: nat, q: nat)
    requires m.Steady() && m.held == map[] && m.refs == map[] && |m.freelist| >= 200 && |code| < PGSIZE
    modifies m
    ensures m.Steady() && Good(FirstSys(m.Now(), kp, d, q, m.data)) && m.nfail == old(m.nfail)
    ensures Views(FirstSys(m.Now(), kp, d, q, m.data)) ==
      map[INIT := EProc(1, PGSIZE, [code + Filled(0)[|code|..]], NOPARENT, false)]
  {
    hide Linked, Counted, Sound, Kept, Joined, KernelBuilt, TableAdded, Good, Booted, EntriesKept;
    ghost var s0 := m.Now();
    var dir := m.SetupKvm();
    kp := dir.value;
    ghost var s1 := m.Now();
    FirstFresh(s0, s1, kp);
    var page := m.AllocPage(Stack(INIT));
    q := page.value;
    ghost var s2 := m.Now();
    dir := m.SetupKvm();
    d := dir.value;
    ghost var s3 := m.Now();
    BootDirs(s0, s1, s2, s3, kp, d, q, m.data);
    SecondFresh(s3, kp, d, q, m.data);
    var ok;
    ok, page := m.AllocRound(d, 0);
    ghost var s4 := m.Now();
    BootGood(s3, s4, kp, d, q, m.data);
    m.StorePage(d, 0, code + Filled(0)[|code|..]);
    BootStore(s4, m.Now(), kp, d, q, m.data, code + Filled(0)[|code|..]);
  }

  /** How many frames an operation needs; none if it is refused for another reason, or needs no memory. */
  ghost function Price(w: Sys, op: Op): nat {
    if op.p !in w.procs then 0 else
    var e := w.procs[op.p];
    match op
    case Fork(_) => if exists c: nat :: c < NPROC && c !in w.procs then ForkCost(e.sz) else 0
    case Store(_, a, _) =>
      var u := User(e.pgdir, a / PGSIZE);
      if u in w.mem.refs && Holders(w.mem.held, w.mem.refs[u].frame) != {u} then 1 else 0
    case Sbrk(_, n) =>
      if 0 < n < KERNPAGES * PGSIZE - e.sz then Needs(w.mem.refs, e.pgdir, PagesOf(e.sz), PagesOf(e.sz + n)) else 0
    case PipeOpen(_, id) => if id == 0 || id in w.pipes then 0 else 1
    case _ => 0
  }

  /** Fewer frames are free than the operation needs. */
  ghost predicate Short(w: Sys, op: Op) { Enabled(Views(w), op) && w.mem.free < Price(w, op) }

  /** An operation that needs no memory is not starved. */
  lemma NoNeed(w: Sys, op: Op, out: Outcome)
    requires op.Load? || op.Exit? || op.Wait? || op.PipeClose? || (op.Sbrk? && op.n <= 0)
    ensures !Starved(Views(w), op, out) && !Short(w, op)
  {}

  /** growproc by `n` < 0 led to memory `s`, and answered `sz`. */
  ghost predicate Shrunk(w: Sys, s: Snap, p: nat, n: int, sz: nat)
    requires p in w.procs
  {
    var w' := w.(mem := s, procs := if sz == 0 then w.procs else w.procs[p := w.procs[p].(sz := sz)]);
    var out := if sz == 0 then Failed else Done;
    && Good(w') && Traced(w, w', {p}, {}) && Allowed(Views(w), Sbrk(p, n), out)
    && Views(w') == Step(Views(w), Sbrk(p, n), out)
  }

  lemma ShrunkIs(w: Sys, s: Snap, p: nat, n: int, sz: nat)
    requires p in w.procs && Shrunk(w, s, p, n, sz)
    ensures var procs := if sz == 0 then w.procs else w.procs[p := w.procs[p].(sz := sz)];
      var w', out := w.(mem := s, procs := procs), if sz == 0 then Failed else Done;
      && Good(w') && Traced(w, w', {p}, {}) && Allowed(Views(w), Sbrk(p, n), out)
      && Views(w') == Step(Views(w), Sbrk(p, n), out)
  {
    hide Good, Traced, Allowed, Step, Views;
  }

  /** A shrink by more than the size, or of nothing. */
  lemma ShrunkNone(w: Sys, p: nat, n: int)
    requires Good(w) && Enabled(Views(w), Sbrk(p, n)) && n < 0 && p in w.procs
    requires w.procs[p].sz + n < 0 || w.procs[p].sz == 0
    ensures Shrunk(w, w.mem, p, n, w.procs[p].sz)
  {
    hide Good, Traced, Allowed, Step, View;
    ProcFacts(w, p);
    GoodParts(w);
    StepShrink(Views(w), p, n);
    TracedSelf(w, {p}, {});
    assert w.procs[p := w.procs[p]] == w.procs;
  }

  lemma ShrunkSome(w: Sys, s: Snap, p: nat, n: int)
    requires Good(w) && Linked(s) && Sound(s.held) && Enabled(Views(w), Sbrk(p, n)) && n < 0 && p in w.procs
    requires 0 <= w.procs[p].sz + n
    requires var e := w.procs[p];
      && Freed(w.mem, s, e.pgdir, PagesOf(e.sz + n), PagesOf(e.sz))
      && Kept(w.mem, s, e.pgdir, PagesOf(e.sz + n), PagesOf(e.sz))
    ensures Shrunk(w, s, p, n, w.procs[p].sz + n)
  {
    hide Good, Traced, Allowed, Step, View, Kept, Moved, Still, Linked;
    var e := w.procs[p];
    ProcFacts(w, p);
    StepShrink(Views(w), p, n);
    ShrinkGood(w, s, p, e.sz + n);
    MovedDropped(w.mem, s, e.pgdir, UserRange(w.mem.refs, e.pgdir, PagesOf(e.sz + n), PagesOf(e.sz)));
    var procs := w.procs[p := e.(sz := if e.sz + n == 0 then e.sz else e.sz + n)];
    SbrkTrace(w, s, p, procs);
    assert w.procs[p := e] == w.procs && PagesOf(0) == 0;
  }

  class Machine {
    const k: Kernel
    const kpgdir: nat
    var procs: Procs
    var nextpid: nat
    var pipes: map<nat, nat>     // a pipe and its page
    ghost var owner: map<nat, nat>

    ghost function Here(): Sys
      reads this, k
    {
      Sys(k.Now(), procs, nextpid, owner, pipes, kpgdir, k.data)
    }

    ghost predicate Valid()
      reads this, k
    {
      k.Steady() && Good(Here())
    }

    /** Each process with the pages it reads. */
    ghost function Abs(): Table
      reads this, k
    {
      Views(Here())
    }

    /** Operation `op` keeps the invariant, does what it does in the simple system, gives no process a frame of another,
        starves exactly if fewer frames are free than it needs, and calls kalloc in vain exactly then. */
    twostate predicate Does(op: Op, out: Outcome)
      reads this, k
    {
      && Valid() && Allowed(old(Abs()), op, out) && Abs() == Step(old(Abs()), op, out)
      && Traced(old(Here()), Here(), Resizer(op), Writer(op))
      && (Starved(old(Abs()), op, out) <==> Short(old(Here()), op))
      && k.nfail == old(k.nfail) + if Starved(old(Abs()), op, out) then 1 else 0
    }

    constructor (lo: nat, data: nat, code: seq<int>)
      requires 0x100 < data < lo && lo + 200 <= PHYSFRAMES && |code| < PGSIZE
      ensures Valid() && fresh(k) && k.nfail == 0
      ensures Abs() == map[INIT := EProc(1, PGSIZE, [code + Filled(0)[|code|..]], NOPARENT, false)]
    {
      hide Good, Linked, Counted, Sound, View;
      var m := new Kernel(lo, data);
      var kp, d, q := Boot(m, code);
      k, kpgdir := m, kp;
      procs := FirstProcs(d, q);
      nextpid := 2;
      pipes := map[];
      owner := map[d := INIT];
    }

    /** exit: the process becomes a zombie and keeps its memory until it is waited for. */
    method Exit(p: nat) returns (out: Outcome)
      requires Valid() && Enabled(Abs(), EagerCopy.Exit(p))
      modifies this`procs
      ensures Does(EagerCopy.Exit(p), out) && out == (if p == INIT then Panicked else Done)
      ensures if p == INIT then Abs() == old(Abs()) else Left(old(Abs()), Abs(), p)
      ensures Abs() == if p == INIT then old(Abs()) else Exited(old(Abs()), p)
    {
      hide Good, Exited, View, Traced, Allowed, Step, Accounted, Left;
      ghost var w := Here();
      StepExit(Abs(), p);
      GoodParts(w);
      if p == INIT {
        TracedSelf(w, {}, {});
        return Panicked;
      }
      ExitGood(w, p);
      ExitViews(w, p);
      ExitTrace(w, p);
      procs := map x | x in procs ::
        if x == p then procs[x].(zombie := true) else if procs[x].parent == p then procs[x].(parent := INIT)
          else procs[x];
      return Done;
    }

    /** A load from user address `a`. A page that is not there is a fault that ends the process. */
    method Load(p: nat, a: nat) returns (out: Outcome)
      requires Valid() && Enabled(Abs(), EagerCopy.Load(p, a))
      modifies this, k
      ensures Does(EagerCopy.Load(p, a), out) && (out == Killed ==> Left(old(Abs()), Abs(), p))
    {
      hide Good, Exited, View, Traced, Allowed, Step, Counted, Sound, Kept, Linked, Left;
      var v := a / PGSIZE;
      var d := procs[p].pgdir;
      ProcFacts(Here(), p);
      PageView(Here(), p, v);
      StepLoad(Abs(), p, a);
      GoodParts(Here());
      TracedSelf(Here(), {}, {});
      var t := k.WalkPgdir(d, v, false);
      UserAt(k.Now(), d, v);
      if t.None? || PTX(v) !in k.ram[t.value].pte {
        out := Exit(p);
        out := if out == Done then Killed else out;
      } else {
        out := Value(k.ram[k.ram[t.value].pte[PTX(v)].frame].b[a % PGSIZE]);
      }
    }

    /** A store to user address `a`. Without PTE_W it faults, and is done again after the handler. */
    method Store(p: nat, a: nat, x: int) returns (out: Outcome)
      requires Valid() && Enabled(Abs(), EagerCopy.Store(p, a, x))
      modifies this, k
      ensures Does(EagerCopy.Store(p, a, x), out) && (out == Killed ==> Left(old(Abs()), Abs(), p))
      // a page that others hold costs one frame, and is the only thing that can panic
      ensures var u := User(old(procs[p]).pgdir, a / PGSIZE);
              u in old(k.refs) ==>
                var shared := Holders(old(k.held), old(k.refs)[u].frame) != {u};
                && (out == Panicked <==> shared && old(k.freelist) == [])
                && (out == Done ==> |k.freelist| == |old(k.freelist)| - if shared then 1 else 0)
    {
      hide Good, View, Exited, Stored, Traced, Allowed, Step, Changed, Linked, Counted, Family, Structured, Entry, Left;
      var v := a / PGSIZE;
      var d := procs[p].pgdir;
      ghost var w := Here();
      ProcFacts(w, p);
      PageView(w, p, v);
      NoneInHand(w);
      StepStore(Abs(), p, a, x);
      var f := k.UserStore(d, v, a % PGSIZE, x);
      GoodParts(w);
      TracedSelf(w, {}, {p});
      if f == NotMapped {
        out := Exit(p);
        TracedLess(w, Here(), {}, {}, {}, {p});
        return if out == Done then Killed else out;
      } else if f == OutOfMemory {
        return Panicked;
      }
      StoreGood(w, k.Now(), p, v, a % PGSIZE, x);
      StoreTrace(w, k.Now(), p, v, a % PGSIZE, x);
      return Done;
    }

    /** growproc. The new size wraps around in 32 bits; a shrink to size 0 frees everything and then reports failure. */
    method Sbrk(p: nat, n: int) returns (out: Outcome)
      requires Valid() && Enabled(Abs(), EagerCopy.Sbrk(p, n))
      modifies this, k
      ensures Does(EagerCopy.Sbrk(p, n), out)
      ensures n > 0 ==>
                var e := old(procs[p]);
                out == Done <==>
                  e.sz + n < KERNPAGES * PGSIZE
                  && |old(k.freelist)| >= Needs(old(k.refs), e.pgdir, PagesOf(e.sz), PagesOf(e.sz + n))
    {
      if n > 0 {
        out := Grow(p, n);
      } else if n < 0 {
        out := Shrink(p, n);
      } else {
        hide Good, View, Traced;
        assert Abs()[p := Abs()[p]] == Abs();
        GoodParts(Here());
        TracedSelf(Here(), {p}, {});
        out := Done;
      }
    }

    /** growproc with n > 0. */
    method Grow(p: nat, n: int) returns (out: Outcome)
      requires Valid() && Enabled(Abs(), EagerCopy.Sbrk(p, n)) && n > 0
      modifies this, k
      ensures Does(EagerCopy.Sbrk(p, n), out)
      ensures var e := old(procs[p]);
              out == Done <==>
                e.sz + n < KERNPAGES * PGSIZE
                && |old(k.freelist)| >= Needs(old(k.refs), e.pgdir, PagesOf(e.sz), PagesOf(e.sz + n))
    {
      hide Good, View, Resized, Extended, Kept, Memory.Grown, Needs, Traced, Allowed, Step, Linked, Counted, Moved,
        Still, Family, Structured;
      var e := procs[p];
      ghost var w := Here();
      ProcFacts(w, p);
      NoneInHand(w);
      RunsPages(w, p);
      StepGrow(Abs(), p, n);
      GoodParts(w);
      TracedSelf(w, {p}, {});
      var sz := k.AllocUvm(e.pgdir, e.sz, e.sz + n);
      if sz == 0 {
        if e.sz + n < KERNPAGES * PGSIZE {
          TabsGood(w, k.Now(), p);
          MovedExtended(w.mem, k.Now(), e.pgdir, 0, 0);
          assert procs == procs[p := procs[p].(sz := procs[p].sz)];
          SbrkTrace(w, k.Now(), p, procs);
        }
        return Failed;
      }
      GrowGood(w, k.Now(), p, n);
      MovedExtended(w.mem, k.Now(), e.pgdir, PagesOf(e.sz), PagesOf(e.sz + n));
      procs := procs[p := e.(sz := sz)];
      SbrkTrace(w, k.Now(), p, procs);
      return Done;
    }

    /** growproc with n < 0. */
    method Shrink(p: nat, n: int) returns (out: Outcome)
      requires Valid() && Enabled(Abs(), EagerCopy.Sbrk(p, n)) && n < 0
      modifies this, k
      ensures Does(EagerCopy.Sbrk(p, n), out)
    {
      hide Good, Kept, View, Traced, Allowed, Step, Linked, Counted, Starved, Short, Freed, Shrunk;
      var e := procs[p];
      ghost var w := Here();
      ProcFacts(w, p);
      var sz := k.DeallocUvm(e.pgdir, e.sz, (e.sz + n) % UINT);
      Wrapped(e.sz, n);
      NoNeed(w, EagerCopy.Sbrk(p, n), Failed);
      NoNeed(w, EagerCopy.Sbrk(p, n), Done);
      if e.sz + n < 0 || e.sz == 0 { ShrunkNone(w, p, n); } else { ShrunkSome(w, k.Now(), p, n); }
      ShrunkIs(w, k.Now(), p, n, sz);
      if sz == 0 {
        return Failed;
      }
      procs := procs[p := e.(sz := sz)];
      return Done;
    }

    /** The scan of allocproc: the first unused slot. */
    method FindSlot() returns (c: Option<nat>)
      ensures c.None? ==> forall x: nat :: x < NPROC ==> x in procs
      ensures c.Some? ==> c.value < NPROC && c.value !in procs && forall x: nat :: x < c.value ==> x in procs
    {
      var x := 0;
      while x < NPROC
        invariant x <= NPROC && forall y: nat :: y < x ==> y in procs
      {
        if x !in procs {
          return Some(x);
        }
        x := x + 1;
      }
      return None;
    }

    /** The failure exit of fork after copyuvm: the stack goes back, and so has every frame that was taken. */
    method UndoStack(f: nat, c: nat, p: nat, ghost n: nat, ghost w: Sys)
      requires k.Steady() && Good(w) && p in w.procs && c !in w.procs && n <= KERNPAGES && Here() == w.(mem := k.Now())
      requires Kept(WithStack(w.mem, c, f), k.Now(), w.procs[p].pgdir, 0, n)
      requires k.refs == Protected(w.mem.refs, w.procs[p].pgdir, n)
        && k.held == Protected(WithStack(w.mem, c, f).held, w.procs[p].pgdir, n)
      modifies k
      ensures Valid() && Abs() == Views(w) && Traced(w, Here(), {}, {})
      ensures k.held == Protected(w.mem.held, w.procs[p].pgdir, n) && k.nfail == old(k.nfail)
    {
      hide Good, View, Linked, Counted, Owned, WritableAlone, Traced;
      NoStack(w, c);
      ghost var s1, s2, d := WithStack(w.mem, c, f), k.Now(), procs[p].pgdir;
      k.FreePage(f, Stack(c));
      assert k.held == Protected(w.mem.held, d, n);
      assert forall r :: r in Protected(w.mem.held, d, n) ==> r in w.mem.held;
      assert forall r :: r in Protected(w.mem.refs, d, n) <==> r in w.mem.refs;
      KeptBoth(s1, s2, k.Now(), d, 0, n, 0, n);
      ForkFailed(w, k.Now(), p, n);
      assert k.refs.Keys == w.mem.refs.Keys;
      SameTrace(w, Here());
    }

    /** fork once there is a slot `c` with a kernel stack: copyuvm, and the child, or everything back. */
    method ForkInto(p: nat, c: nat, q: nat, ghost w: Sys) returns (ok: bool)
      requires k.Steady() && Good(w) && p in w.procs && Runs(Views(w), p) && c !in w.procs && c < NPROC
        && w.mem.free >= 1
      requires Here() == w.(mem := WithStack(w.mem, c, q), nextpid := w.nextpid + 1)
      modifies this, k
      ensures Valid() && Traced(w, Here(), {}, {})
      ensures ok <==> w.mem.free >= ForkCost(w.procs[p].sz)
      ensures k.nfail == old(k.nfail) + if ok then 0 else 1
      ensures ok ==>
        Abs() == Views(w)[c := Views(w)[p].(pid := w.nextpid, parent := p)]
        && |k.freelist| == w.mem.free - ForkCost(w.procs[p].sz)
      ensures !ok ==> Abs() == Views(w) && exists n :: k.held == Protected(w.mem.held, w.procs[p].pgdir, n)
    {
      hide Good, View, Copied, Kept, Protected, Linked, Counted, Sound, Traced;
      var e := procs[p];
      ProcFacts(w, p);
      RunsPages(w, p);
      TabsOfSize(e.sz);
      var d;
      ghost var n;
      d, n := k.CopyUvm(e.pgdir, e.sz);
      if d.None? {
        NextPid(w);
        NextPidTrace(w);
        ghost var w1 := w.(nextpid := nextpid);
        UndoStack(q, c, p, n, w1);
        TracedOn(w, w1, Here(), {}, {}, {}, {});
        TracedLess(w, Here(), {} + {}, {} + {}, {}, {});
        return false;
      }
      ForkGood(w, k.Now(), p, c, d.value, q);
      procs := procs[c := Proc(nextpid - 1, e.sz, d.value, q, p, false)];
      owner := owner[d.value := c];
      CopiedJoining(WithStack(w.mem, c, q), k.Now(), e.pgdir, d.value, n, k.data);
      ForkTrace(w, k.Now(), p, c, d.value, q);
      return true;
    }

    /** fork: it succeeds exactly when there is a slot, and 66 frames and one more for each 4 MiB of the parent;
        it takes exactly those, and none when it fails. */
    method Fork(p: nat) returns (out: Outcome)
      requires Valid() && Enabled(Abs(), EagerCopy.Fork(p))
      modifies this, k
      ensures Does(EagerCopy.Fork(p), out)
      ensures out.Forked? <==>
        (exists c: nat :: c < NPROC && c !in old(procs)) && |old(k.freelist)| >= ForkCost(old(procs[p]).sz)
      ensures |k.freelist| == |old(k.freelist)| - if out.Forked? then ForkCost(old(procs[p]).sz) else 0
    {
      hide Good, View, Protected, Linked, Counted, Sound, Traced, Allowed, Step, Kept, Family, Structured;
      ghost var w, t := Here(), Abs();
      GoodParts(w);
      TracedSelf(w, {}, {});
      NextPid(w);
      NextPidTrace(w);
      PidsBelow(w);
      ghost var sz := procs[p].sz;
      var slot := FindSlot();
      StepFork(t, p, if slot.Some? then slot.value else 0, nextpid);
      if slot.None? {
        return Failed;
      }
      var c, pid := slot.value, nextpid;
      NoStack(w, c);
      nextpid := nextpid + 1;
      var ks := k.AllocPage(Stack(c));
      if ks.None? {
        return Failed;
      }
      var ok := ForkInto(p, c, ks.value, w);
      if !ok {
        ghost var n :| k.held == Protected(w.mem.held, w.procs[p].pgdir, n);
        SameFree(w.mem.held, old(k.refc), old(k.freelist), k.refc, k.freelist, k.lo, w.procs[p].pgdir, n);
        return Failed;
      }
      return Forked(c, pid);
    }

    /** wait: a zombie child is reaped with all it held, or there is none. */
    method Wait(p: nat) returns (out: Outcome)
      requires Valid() && Enabled(Abs(), EagerCopy.Wait(p))
      modifies this, k
      ensures Does(EagerCopy.Wait(p), out)
      // a zombie child is freed; without one the process sleeps if it has children, and fails if it has none
      ensures out.Reaped? ==>
        && out.child in old(procs) && old(procs)[out.child].parent == p && old(procs)[out.child].zombie
        && procs == old(procs) - {out.child}
      ensures !out.Reaped? ==>
        procs == old(procs) && forall c :: c in procs && procs[c].parent == p ==> !procs[c].zombie
      ensures out == Failed ==> forall c :: c in procs ==> procs[c].parent != p
      ensures out == Asleep ==> exists c :: c in procs && procs[c].parent == p
      ensures out.Reaped? || out == Failed || out == Asleep
    {
      hide Good, View, Traced, Allowed, Step, Linked, Counted, Sound;
      ghost var w, t := Here(), Abs();
      ViewParents(w);
      GoodParts(w);
      TracedSelf(w, {}, {});
      var havekids := false;
      var x := 0;
      while x < NPROC
        invariant x <= NPROC && Here() == w && k.Steady()
        invariant havekids <==> exists c: nat :: c < x && IsChild(t, p, c)
        invariant forall c: nat :: c < x && IsChild(t, p, c) ==> !t[c].zombie
      {
        if x in procs && procs[x].parent == p {
          assert IsChild(t, p, x);
          havekids := true;
          if procs[x].zombie {
            StepReap(t, p, x);
            Reap(x);
            return Reaped(x);
          }
        }
        x := x + 1;
      }
      StepNoZombie(t, p, havekids);
      if havekids {
        ghost var c: nat :| c < NPROC && IsChild(t, p, c);
        assert c in procs && procs[c].parent == p;
        return Asleep;
      }
      assert forall c :: c in procs && procs[c].parent == p ==> IsChild(t, p, c);
      return Failed;
    }

    /** The body of the scan of wait on a zombie: its kernel stack, its page tables and its slot are free again. */
    method Reap(c: nat)
      requires Valid() && c in procs && procs[c].zombie
      modifies this, k
      ensures Valid() && Abs() == old(Abs()) - {c} && Traced(old(Here()), Here(), {}, {}) && k.nfail == old(k.nfail)
      ensures procs == old(procs) - {c} && k.held == old(k.held) - AllOf(old(k.refs), old(procs[c].pgdir)) - {Stack(c)}
    {
      hide Good, View, Kept, Linked, Counted, Sound, Traced;
      ghost var w := Here();
      ProcFacts(w, c);
      k.FreePage(procs[c].kstack, Stack(c));
      ghost var s1 := k.Now();
      k.FreeVm(procs[c].pgdir);
      KeptAny(w.mem, s1, 0, procs[c].pgdir);
      KeptBoth(w.mem, s1, k.Now(), procs[c].pgdir, 0, 0, 0, 0);
      assert k.held == w.mem.held - AllOf(w.mem.refs, procs[c].pgdir) - {Stack(c)};
      ReapGood(w, k.Now(), c);
      ReapTrace(w, k.Now(), c);
      procs := procs - {c};
    }

    /** pipealloc takes one frame for the pipe. */
    method PipeOpen(p: nat, id: nat) returns (out: Outcome)
      requires Valid() && Enabled(Abs(), EagerCopy.PipeOpen(p, id))
      modifies this, k
      ensures Does(EagerCopy.PipeOpen(p, id), out)
      ensures out == if id == 0 || id in old(pipes) then Refused else if old(k.freelist) == [] then Failed else Done
      ensures out == Done ==> |k.freelist| == |old(k.freelist)| - 1
    {
      hide Good, View, Linked, Counted, Sound, Traced, Allowed, Step, Kept, Family, Structured;
      ghost var w, op := Here(), EagerCopy.PipeOpen(p, id);
      PipeFacts(w, id);
      StepPipe(Abs(), op, Done);
      StepPipe(Abs(), op, Failed);
      StepPipe(Abs(), op, Refused);
      GoodParts(w);
      TracedSelf(w, {}, {});
      if id == 0 || id in pipes {
        return Refused;
      }
      var f := k.AllocPage(Buf(id));
      if f.None? {
        return Failed;
      }
      pipes := pipes[id := f.value];
      PipeGood(w, k.Now(), id, pipes);
      SameTrace(w, Here());
      return Done;
    }

    /** The last pipeclose gives the frame back. */
    method PipeClose(p: nat, id: nat) returns (out: Outcome)
      requires Valid() && Enabled(Abs(), EagerCopy.PipeClose(p, id))
      modifies this, k
      ensures Does(EagerCopy.PipeClose(p, id), out)
      ensures out == if id in old(pipes) then Done else Refused
      ensures out == Done ==> |k.freelist| == |old(k.freelist)| + 1
    {
      hide Good, View, Linked, Counted, Sound, Traced, Allowed, Step, Kept;
      ghost var w, op := Here(), EagerCopy.PipeClose(p, id);
      PipeFacts(w, id);
      StepPipe(Abs(), op, Done);
      StepPipe(Abs(), op, Refused);
      GoodParts(w);
      TracedSelf(w, {}, {});
      if id !in pipes {
        return Refused;
      }
      k.FreePage(pipes[id], Buf(id));
      pipes := pipes - {id};
      PipeGood(w, k.Now(), id, pipes);
      SameTrace(w, Here());
      return Done;
    }

    /** Can the process do this now? A process without its pages can only fault, and exit. */
    method CanDo(op: Op) returns (ok: bool)
      requires Valid()
      ensures ok <==> Enabled(Abs(), op)
    {
      hide Good, View, Linked, Counted;
      ViewParents(Here());
      var p := op.p;
      if p !in procs || procs[p].zombie {
        return false;
      }
      ProcFacts(Here(), p);
      assert k.Steady();
      var runs := k.Present(procs[p].pgdir, 0);
      runs := runs || procs[p].sz == 0;
      match op
      case Store(_, a, _) => return a < KERNPAGES * PGSIZE;
      case Load(_, a) => return a < KERNPAGES * PGSIZE;
      case Sbrk(_, n) => return runs && -0x8000_0000 <= n < 0x8000_0000;
      case Exit(_) => return true;
      case PipeClose(_, _) => return true;
      case _ => return runs;
    }

    /** Any operation. */
    method Do(op: Op) returns (out: Outcome)
      requires Valid()
      modifies this, k
      ensures Does(op, out)
    {
      hide Good, View, Step, Allowed, Traced, Enabled, Counted, Family, Entry;
      var ok := CanDo(op);
      GoodParts(Here());
      if !ok {
        StepDisabled(Abs(), op);
        TracedSelf(Here(), Resizer(op), Writer(op));
        return Disabled;
      }
      match op
      case Fork(p) => out := Fork(p);
      case Store(p, a, x) => out := Store(p, a, x);
      case Load(p, a) => out := Load(p, a);
      case Sbrk(p, n) => out := Sbrk(p, n);
      case Exit(p) => out := Exit(p);
      case Wait(p) => out := Wait(p);
      case PipeOpen(p, id) => out := PipeOpen(p, id);
      case PipeClose(p, id) => out := PipeClose(p, id);
    }

    /** Copy-on-write refines eager copy: over every run of operations, until the kernel panics, each process reads at
        every address what it would read if fork had copied every page. Page conservation: if the same processes and
        pipes are left, and those that are left called no sbrk and stored to no page they shared before, as many frames
        are free as before, whatever their children did. And kalloc failed exactly once for each operation that starved,
        which are those that came when fewer frames were free than they need: `ws` is the way the system went. */
    method Run(ops: seq<Op>) returns (outs: seq<Outcome>, ghost ws: seq<Sys>)
      requires Valid()
      modifies this, k
      ensures Valid() && |outs| <= |ops| && (|outs| < |ops| ==> outs != [] && outs[|outs| - 1] == Panicked)
      ensures AllAllowed(old(Abs()), ops, outs) && Abs() == EagerCopy.Run(old(Abs()), ops, outs)
      ensures Traced(old(Here()), Here(), Resizers(ops, |outs|), Writers(ops, |outs|))
      ensures Restored(old(Here()), Here(), Resizers(ops, |outs|), Writers(ops, |outs|)) ==>
        |k.freelist| == |old(k.freelist)|
      ensures k.nfail == old(k.nfail) + Starvings(old(Abs()), ops, outs)
      ensures |ws| == |outs| + 1 && ws[0] == old(Here()) && ws[|outs|] == Here()
      ensures forall i: nat :: Passed(old(Abs()), ops, outs, ws, k.lo, i)
    {
      hide Good, View, Allowed, Step, Traced, Linked, Counted, Sound, Starved, Passed, Short;
      ghost var t, w := Abs(), Here();
      ws := [w];
      PassedNone(t, ops, ws, k.lo);
      GoodParts(w);
      TracedSelf(w, {}, {});
      outs := [];
      NoneActed(ops);
      while |outs| < |ops|
        invariant Valid() && |outs| <= |ops| && AllAllowed(t, ops, outs) && Abs() == EagerCopy.Run(t, ops, outs)
        invariant Traced(w, Here(), Resizers(ops, |outs|), Writers(ops, |outs|))
        invariant k.nfail == old(k.nfail) + Starvings(t, ops, outs)
        invariant |ws| == |outs| + 1 && ws[0] == w && ws[|outs|] == Here()
        invariant forall i: nat :: Passed(t, ops, outs, ws, k.lo, i)
      {
        ghost var w1, n := Here(), |outs|;
        Conservation(k.held, k.refc, k.freelist, k.lo, PHYSFRAMES);
        var out := Do(ops[|outs|]);
        PassedMore(t, ops, outs, out, ws, k.lo, Here());
        RunMore(t, ops, outs, out);
        StarvedMore(t, ops, outs, out);
        OneActed(ops, n);
        TracedOn(w, w1, Here(), Resizers(ops, n), Writers(ops, n),
                 Resizer(ops[n]), Writer(ops[n]));
        outs := outs + [out];
        ws := ws + [Here()];
        if out == Panicked {
          break;
        }
      }
      RunFree(w, old(k.refc), old(k.freelist), Resizers(ops, |outs|), Writers(ops, |outs|));
    }

    /** The free frames after a run, by page conservation. */
    lemma RunFree(w: Sys, refc: seq<int>, freelist: seq<nat>, busy: set<nat>, wrote: set<nat>)
      requires Valid() && Good(w) && Sound(w.mem.held) && Counted(w.mem.held, refc, freelist, k.lo, PHYSFRAMES)
      requires Traced(w, Here(), busy, wrote)
      ensures Restored(w, Here(), busy, wrote) ==> |k.freelist| == |freelist|
    {
      hide Good, Linked, Counted, Traced, Restored;
      if Restored(w, Here(), busy, wrote) {
        Conserved(w, Here(), busy, wrote);
        FreeAgain(w.mem.held, refc, freelist, k.held, k.refc, k.freelist, k.lo);
      }
    }
  }

  ghost function Resizer(op: Op): set<nat> { if op.Sbrk? then {op.p} else {} }

  ghost function Writer(op: Op): set<nat> { if op.Store? then {op.p} else {} }

  /** The system went from ws[i] to ws[i + 1] by operation `i`, which starved exactly if too few frames were free: all
      from `lo` on that nobody held. */
  ghost predicate Passed(t: Table, ops: seq<Op>, outs: seq<Outcome>, ws: seq<Sys>, lo: nat, i: nat)
    requires |outs| <= |ops| && |ws| == |outs| + 1
  {
    i < |outs| ==>
      && Good(ws[i]) && Views(ws[i]) == EagerCopy.Run(t, ops, outs[..i])
      && Traced(ws[i], ws[i + 1], Resizer(ops[i]), Writer(ops[i]))
      && ws[i].mem.free + |Frames.Frames(ws[i].mem.held)| == PHYSFRAMES - lo
      && (Starved(Views(ws[i]), ops[i], outs[i]) <==> Short(ws[i], ops[i]))
  }

  lemma PassedNone(t: Table, ops: seq<Op>, ws: seq<Sys>, lo: nat)
    requires |ws| == 1
    ensures forall i: nat :: Passed(t, ops, [], ws, lo, i)
  {}

  lemma PassedMore(t: Table, ops: seq<Op>, outs: seq<Outcome>, out: Outcome, ws: seq<Sys>, lo: nat, w: Sys)
    requires |outs| < |ops| && |ws| == |outs| + 1 && forall i: nat :: Passed(t, ops, outs, ws, lo, i)
    requires Good(ws[|outs|]) && Views(ws[|outs|]) == EagerCopy.Run(t, ops, outs)
    requires Traced(ws[|outs|], w, Resizer(ops[|outs|]), Writer(ops[|outs|]))
    requires ws[|outs|].mem.free + |Frames.Frames(ws[|outs|].mem.held)| == PHYSFRAMES - lo
    requires Starved(Views(ws[|outs|]), ops[|outs|], out) <==> Short(ws[|outs|], ops[|outs|])
    ensures forall i: nat :: Passed(t, ops, outs + [out], ws + [w], lo, i)
  {
    hide Good, Views, Traced, Starved, Short;
    var outs', ws' := outs + [out], ws + [w];
    forall i: nat ensures Passed(t, ops, outs', ws', lo, i) {
      assert Passed(t, ops, outs, ws, lo, i);
      if i < |outs| {
        assert outs'[..i] == outs[..i];
      } else if i == |outs| {
        assert outs'[..i] == outs;
      }
    }
  }

  /** The slots that call sbrk among the first `n` operations. */
  ghost function Resizers(ops: seq<Op>, n: nat): set<nat>
    requires n <= |ops|
  {
    set i | 0 <= i < n && ops[i].Sbrk? :: ops[i].p
  }

  /** The slots that store among the first `n` operations. */
  ghost function Writers(ops: seq<Op>, n: nat): set<nat>
    requires n <= |ops|
  {
    set i | 0 <= i < n && ops[i].Store? :: ops[i].p
  }

  lemma Orphan(w: Sys, p: nat)
    requires Good(w) && p in w.procs
    ensures p in Views(w) && Views(w)[p].parent != p
  {
    assert Related(w.procs, w.nextpid, p) && ProcOk(w, p);
    hide Linked, ProcOk, Family;
  }

  /** A process exits and its parent waits, in any state of the machine: the parent reaps a zombie child, and nobody
      else goes. */
  method Mourned(m: Machine, p: nat) returns (out: Outcome)
    requires m.Valid() && Enabled(m.Abs(), Exit(p)) && p != INIT && Runs(m.Abs(), m.Abs()[p].parent)
    modifies m, m.k
    ensures m.Valid() && out.Reaped? && out.child in old(m.Abs())
    // the child that left, or one that was a zombie before, its own or its child's
    ensures out.child == p || old(m.Abs()[out.child].zombie)
    ensures old(m.Abs()[out.child].parent) == old(m.Abs()[p].parent) || old(m.Abs()[out.child].parent) == p
    ensures m.Abs().Keys == old(m.Abs()).Keys - {out.child}
  {
    hide Good, View, Traced, Linked, Counted, Sound, Short, Starved, Views, Left, Allowed, Step, Exited;
    ghost var t := m.Abs();
    assert p in m.procs by { ViewKeys(m.Here()); }
    Orphan(m.Here(), p);
    var q := m.procs[p].parent;
    ViewKeys(m.Here());
    var done := m.Exit(p);
    WaitAfterExit(t, m.Abs(), p, Failed);
    ghost var t1 := m.Abs();
    out := m.Wait(q);
    Mourning(t, t1, p, out);
  }

  lemma Mourning(t: Table, t1: Table, p: nat, out: Outcome)
    requires Left(t, t1, p) && p in t && t[p].parent != p && Runs(t, t[p].parent) && Allowed(t1, Wait(t[p].parent), out)
    ensures out.Reaped? && out.child in t && (out.child == p || t[out.child].zombie)
    ensures t[out.child].parent == t[p].parent || t[out.child].parent == p
    ensures Step(t1, Wait(t[p].parent), out).Keys == t.Keys - {out.child}
  {
    WaitAfterExit(t, t1, p, out);
  }

  lemma ViewKeys(w: Sys)
    ensures Views(w).Keys == w.procs.Keys && forall x :: x in w.procs ==> Views(w)[x].parent == w.procs[x].parent
  {}

  lemma NoneActed(ops: seq<Op>)
    ensures Resizers(ops, 0) == {} && Writers(ops, 0) == {}
  {}

  lemma OneActed(ops: seq<Op>, n: nat)
    requires n < |ops|
    ensures Resizers(ops, n + 1) == Resizers(ops, n) + Resizer(ops[n])
    ensures Writers(ops, n + 1) == Writers(ops, n) + Writer(ops[n])
  {}

  lemma NextPidTrace(w: Sys)
    requires Good(w)
    ensures Traced(w, w.(nextpid := w.nextpid + 1), {}, {})
  {
    var w' := w.(nextpid := w.nextpid + 1);
    forall x: nat ensures OldProc(w, w', {}, {}, x) { assert Related(w.procs, w.nextpid, x); }
    forall x: nat, y: nat ensures OldPair(w, w', x, y) {}
  }

  lemma NoStack(w: Sys, c: nat)
    requires Good(w) && c !in w.procs
    ensures Stack(c) !in w.mem.held && Stack(c) !in w.mem.refs
  {
    assert ProcOk(w, c);
  }

  lemma PidsBelow(w: Sys)
    requires Good(w)
    ensures forall x :: x in w.procs ==> Views(w)[x].pid < w.nextpid
  {
    forall x | x in w.procs ensures Views(w)[x].pid < w.nextpid { assert Related(w.procs, w.nextpid, x); }
  }

  lemma PipeFacts(w: Sys, id: nat)
    requires Good(w)
    ensures 0 !in w.pipes && Buf(id) !in w.mem.refs && (Buf(id) in w.mem.held <==> id in w.pipes)
    ensures id in w.pipes ==> w.mem.held[Buf(id)].frame == w.pipes[id]
  {
    assert PipeOk(w, id) && PipeOk(w, 0);
  }

  lemma ViewParents(w: Sys)
    requires Good(w)
    ensures forall x :: x in w.procs ==>
      x < NPROC && Views(w)[x].parent == w.procs[x].parent && Views(w)[x].zombie == w.procs[x].zombie
  {
    hide Linked, Family;
    forall x | x in w.procs ensures x < NPROC { assert ProcOk(w, x); }
  }

  lemma RunsPages(w: Sys, p: nat)
    requires Good(w) && p in w.procs && Runs(Views(w), p)
    ensures forall v: nat :: v < PagesOf(w.procs[p].sz) <==> User(w.procs[p].pgdir, v) in w.mem.refs
  {
    ProcFacts(w, p);
    forall v: nat ensures v < PagesOf(w.procs[p].sz) <==> User(w.procs[p].pgdir, v) in w.mem.refs {
      assert PageOk(w.mem, w.procs[p], v);
    }
  }
}
