/** The page counts a process can ask for (proc.c). */
module PageCounts {
  import opened Common
  import opened Frames
  import opened Paging
  import opened Processes
  import opened Traces
  import opened EagerCopy
  import opened CowMachine
  import Memory

  /** The pages below `m` that directory `d` translates. */
  ghost function Present(ram: Ram, d: nat, m: nat): set<nat> {
    set v: nat | v < m && Entry(ram, d, v).Some?
  }

  lemma PresentNext(ram: Ram, d: nat, m: nat)
    ensures |Present(ram, d, m + 1)| == |Present(ram, d, m)| + (if Entry(ram, d, m).Some? then 1 else 0)
  {
    assert Present(ram, d, m + 1) == Present(ram, d, m) + (if Entry(ram, d, m).Some? then {m} else {});
  }

  lemma PresentGap(ram: Ram, d: nat, a: nat, b: nat)
    requires a <= b && forall v: nat :: a <= v < b ==> Entry(ram, d, v).None?
    ensures Present(ram, d, b) == Present(ram, d, a)
  {}

  ghost predicate IsDir(ram: Ram, d: nat) {
    && d < |ram| && ram[d].DirOf?
    && (forall i :: i in ram[d].pde ==> i < NENTRIES && ram[d].pde[i] < |ram| && ram[ram[d].pde[i]].TabOf?)
  }

  /** countpp: the translated pages below the size, although it leaves off at the first table entry past the size. */
  method CountPp(ram: Ram, d: nat, sz: nat) returns (n: nat)
    requires IsDir(ram, d) && sz < UINT
    ensures n == |Present(ram, d, PagesOf(sz))|
  {
    n := 0;
    var i := 0;
    while i < NENTRIES
      invariant 0 <= i <= NENTRIES && n == |Present(ram, d, Min(i * NENTRIES, PagesOf(sz)))|
    {
      if i in ram[d].pde {
        var pte := ram[ram[d].pde[i]].pte;
        var j := 0;
        while j < NENTRIES
          invariant 0 <= j <= NENTRIES && n == |Present(ram, d, Min(i * NENTRIES + j, PagesOf(sz)))|
          invariant j > 0 ==> i * NENTRIES + j <= PagesOf(sz)
        {
          var v := i * NENTRIES + j;
          var va := v * PGSIZE;
          Beyond(v, sz);
          if va >= sz { return; }
          assert PDX(v) == i && PTX(v) == j;
          PresentNext(ram, d, v);
          if j in pte { n := n + 1; }
          j := j + 1;
        }
      } else {
        Gap(ram, d, i, PagesOf(sz));
      }
      i := i + 1;
    }
    assert PagesOf(sz) <= NENTRIES * NENTRIES;
  }

  lemma Beyond(v: nat, sz: nat)
    ensures v * PGSIZE >= sz <==> v >= PagesOf(sz)
  {}

  /** A missing table translates nothing. */
  lemma Gap(ram: Ram, d: nat, i: nat, m: nat)
    requires IsDir(ram, d) && i !in ram[d].pde
    ensures Present(ram, d, Min((i + 1) * NENTRIES, m)) == Present(ram, d, Min(i * NENTRIES, m))
  {
    forall v: nat | i * NENTRIES <= v < (i + 1) * NENTRIES ensures Entry(ram, d, v).None? { assert PDX(v) == i; }
    PresentGap(ram, d, Min(i * NENTRIES, m), Min((i + 1) * NENTRIES, m));
  }

  /** countptp: the directory and its tables. */
  method CountPtp(ram: Ram, d: nat) returns (n: nat)
    requires IsDir(ram, d)
    ensures n == 1 + |ram[d].pde.Keys|
  {
    n := 1;
    var i := 0;
    while i < NENTRIES
      invariant 0 <= i <= NENTRIES && n == 1 + |Tables(ram, d, i)|
    {
      assert Tables(ram, d, i + 1) == Tables(ram, d, i) + (if i in ram[d].pde then {i} else {});
      if i in ram[d].pde { n := n + 1; }
      i := i + 1;
    }
    assert Tables(ram, d, NENTRIES) == ram[d].pde.Keys;
  }

  ghost function Tables(ram: Ram, d: nat, m: nat): set<nat>
    requires IsDir(ram, d)
  {
    set i | i in ram[d].pde && i < m
  }

  /** countfp: the number of free frames exactly if no call of kalloc has failed, or 2^32 times as many have. */
  method CountFp(k: Memory.Kernel) returns (n: nat)
    requires k.Books()
    ensures n == |k.freelist| <==> k.nfail % UINT == 0
    ensures n == (|k.freelist| - k.nfail) % UINT
  {
    hide Sound;
    Conservation(k.held, k.refc, k.freelist, k.lo, PHYSFRAMES);
    return k.freecnt;
  }

  /** What a system starts from: the first process, with one page. */
  function First(code: seq<int>): Table
    requires |code| < PGSIZE
  {
    map[INIT := EProc(1, PGSIZE, [code + Filled(0)[|code|..]], NOPARENT, false)]
  }

  /** countfp after any run from boot: the number of free frames less the number of operations that starved, modulo
      2^32. */
  method CountAfter(lo: nat, data: nat, code: seq<int>, ops: seq<Op>) returns (m: Machine, outs: seq<Outcome>, n: nat)
    requires 0x100 < data < lo && lo + 200 <= PHYSFRAMES && |code| < PGSIZE
    ensures m.Valid() && |outs| <= |ops| && m.Abs() == EagerCopy.Run(First(code), ops, outs)
    ensures n == (|m.k.freelist| - Starvings(First(code), ops, outs)) % UINT
  {
    hide Good, Traced, Allowed, Step, Starved;
    m := new Machine(lo, data, code);
    ghost var ws;
    outs, ws := m.Run(ops);
    n := CountFp(m.k);
  }

  /** The first operation after boot can make the count wrong: a call of sbrk for more memory than there is. */
  method CountOff(lo: nat, data: nat, code: seq<int>) returns (m: Machine, n: nat)
    requires 0x100 < data < lo && lo + 200 <= PHYSFRAMES && |code| < PGSIZE
    ensures m.Valid() && n != |m.k.freelist|
  {
    hide Good, Traced, Step, Short, View, Linked;
    m := new Machine(lo, data, code);
    assert INIT in m.Abs();
    Conservation(m.k.held, m.k.refc, m.k.freelist, m.k.lo, PHYSFRAMES);
    ProcFacts(m.Here(), INIT);
    var out := m.Sbrk(INIT, 0x4000_0000);
    n := CountFp(m.k);
  }

  /** countvp shifts the size right; it agrees with countpp exactly when the size is a whole number of pages. */
  lemma VirtualPages(sz: nat)
    ensures sz / PGSIZE == PagesOf(sz) <==> sz % PGSIZE == 0
  {}

  /** In every good state countpp is the number of pages the size calls for, shrinking to size 0 aside. */
  lemma PhysicalPages(w: Sys, x: nat)
    requires Good(w) && x in w.procs
    ensures IsDir(w.mem.ram, w.procs[x].pgdir)
    ensures |Present(w.mem.ram, w.procs[x].pgdir, PagesOf(w.procs[x].sz))| == PageCount(w.mem, w.procs[x])
    ensures PageCount(w.mem, w.procs[x]) == PagesOf(w.procs[x].sz) || PageCount(w.mem, w.procs[x]) == 0
  {
    var s, e := w.mem, w.procs[x];
    assert ProcOk(w, x);
    var d, m := e.pgdir, PagesOf(e.sz);
    assert TabOk(s.ram, s.refs, d, 0);
    forall i | i in s.ram[d].pde ensures i < NENTRIES && s.ram[d].pde[i] < |s.ram| && s.ram[s.ram[d].pde[i]].TabOf? {
      assert TabOk(s.ram, s.refs, d, i);
    }
    assert m <= KERNPAGES;
    forall v: nat | v < m ensures v in Present(s.ram, d, m) <==> v < PageCount(s, e) {
      assert UserOk(s.ram, s.refs, d, v) && PageOk(s, e, v);
    }
    assert Present(s.ram, d, m) == Range(0, PageCount(s, e));
    RangeSize(0, PageCount(s, e));
  }
}
