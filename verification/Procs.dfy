/** The process table over copy-on-write memory (proc.c): what memory holds for whom, and what each process reads. */
module Processes {
  import opened Common
  import opened Frames
  import opened Paging
  import opened Memory
  import opened EagerCopy

  datatype Proc = Proc(pid: nat, sz: nat, pgdir: nat, kstack: nat, parent: nat, zombie: bool)

  type Procs = map<nat, Proc>

  /** The whole system: memory, process table, which slot owns which directory, and the pipes with their pages. */
  datatype Sys = Sys(mem: Snap, procs: Procs, nextpid: nat, owner: map<nat, nat>, pipes: map<nat, nat>, kpgdir: nat,
    data: nat)

  /** Pages the process has: all its size says, or none after a shrink to size 0. */
  ghost function PageCount(s: Snap, e: Proc): nat {
    if User(e.pgdir, 0) in s.refs then PagesOf(e.sz) else 0
  }

  ghost function PageAt(s: Snap, d: nat, v: nat): Page {
    if User(d, v) in s.held && At(s, User(d, v)).Bytes? then At(s, User(d, v)).b else []
  }

  /** What the process reads, page by page. */
  ghost function View(s: Snap, e: Proc): EProc {
    EProc(e.pid, e.sz, seq(PageCount(s, e), v requires 0 <= v => PageAt(s, e.pgdir, v)), e.parent, e.zombie)
  }

  ghost function Views(w: Sys): Table {
    map x | x in w.procs :: View(w.mem, w.procs[x])
  }

  /** Exactly the user pages below the size are mapped, all with PTE_U. */
  ghost predicate PageOk(s: Snap, e: Proc, v: nat) {
    var u := User(e.pgdir, v);
    (u in s.refs <==> v < PageCount(s, e)) && (u in s.refs ==> s.refs[u].u && u in s.held)
  }

  ghost predicate Pages(s: Snap, e: Proc) {
    forall v: nat :: PageOk(s, e, v)
  }

  /** One slot: a process with its stack, its directory and its pages, or nothing. */
  ghost predicate ProcOk(w: Sys, x: nat) {
    && Stack(x) !in w.mem.refs && (Stack(x) in w.mem.held <==> x in w.procs)
    && (x in w.procs ==>
          var e := w.procs[x];
          && x < NPROC && e.sz < KERNPAGES * PGSIZE && e.pgdir != w.kpgdir && Dir(e.pgdir) in w.mem.refs
          && e.pgdir in w.owner && w.owner[e.pgdir] == x && w.mem.held[Stack(x)].frame == e.kstack && Pages(w.mem, e))
  }

  /** One directory: it belongs to a process or to the scheduler, and its kernel half is complete. */
  ghost predicate DirOwned(w: Sys, d: nat) {
    && (Dir(d) in w.mem.refs ==>
          && KernelHalf(w.mem.ram, d, w.data)
          && (d == w.kpgdir || (d in w.owner && w.owner[d] in w.procs && w.procs[w.owner[d]].pgdir == d)))
    && (d == w.kpgdir ==> Dir(d) in w.mem.refs && forall v: nat :: User(d, v) !in w.mem.refs)
  }

  ghost predicate PipeOk(w: Sys, k: nat) {
    Buf(k) !in w.mem.refs && (Buf(k) in w.mem.held <==> k in w.pipes)
      && (k in w.pipes ==> k != 0 && w.mem.held[Buf(k)].frame == w.pipes[k])
  }

  /** Memory holds nothing but what the processes, the scheduler and the pipes account for. */
  ghost predicate Accounted(w: Sys) {
    && (forall x: nat :: ProcOk(w, x))
    && (forall d: nat :: DirOwned(w, d))
    && (forall k: nat :: PipeOk(w, k))
  }

  ghost predicate Related(procs: Procs, nextpid: nat, x: nat) {
    x in procs ==>
      && x < NPROC && procs[x].pid < nextpid
      && (if x == INIT then procs[x].parent == NOPARENT && !procs[x].zombie
          else procs[x].parent in procs && procs[x].parent != x && !procs[procs[x].parent].zombie)
  }

  /** Parents are in the table and are not zombies; pids are below the next one and distinct. */
  ghost predicate Family(procs: Procs, nextpid: nat) {
    && INIT in procs && (forall x: nat :: Related(procs, nextpid, x))
    && (forall x, y :: x in procs && y in procs && procs[x].pid == procs[y].pid ==> x == y)
  }

  ghost predicate Good(w: Sys) {
    Linked(w.mem) && Accounted(w) && Family(w.procs, w.nextpid)
  }

  // ---- What stays as it is when memory changes elsewhere ----

  /** Page `v` of directory `d` is mapped as before and reads as before. */
  ghost predicate EntryKept(s0: Snap, s: Snap, d: nat, v: nat) {
    var u := User(d, v);
    && (u in s.refs <==> u in s0.refs)
    && (u in s.refs && u in s0.held ==> u in s.held && s.refs[u].u == s0.refs[u].u && At(s, u) == At(s0, u))
  }

  ghost predicate DirKept(s0: Snap, s: Snap, d: nat) {
    (Dir(d) in s0.refs ==> Dir(d) in s.refs) && forall v: nat :: EntryKept(s0, s, d, v)
  }

  lemma PagesKept(s0: Snap, s: Snap, e0: Proc, e: Proc)
    requires DirKept(s0, s, e0.pgdir) && e.pgdir == e0.pgdir && e.sz == e0.sz && Pages(s0, e0)
    ensures Pages(s, e) && View(s, e).pages == View(s0, e0).pages
  {
    var d := e.pgdir;
    assert EntryKept(s0, s, d, 0);
    forall v: nat ensures PageOk(s, e, v) && (v < PageCount(s, e) ==> PageAt(s, d, v) == PageAt(s0, d, v)) {
      assert EntryKept(s0, s, d, v) && PageOk(s0, e0, v);
    }
  }

  /** Slot `x` is the same process in the same memory. */
  ghost predicate Carried(w0: Sys, w: Sys, x: nat) {
    && x in w0.procs && x in w.procs && Stack(x) in w0.mem.held && Stack(x) in w.mem.held && Stack(x) !in w.mem.refs
    && w.mem.held[Stack(x)].frame == w0.mem.held[Stack(x)].frame
    && var e0, e := w0.procs[x], w.procs[x];
    && e.sz == e0.sz && e.pgdir == e0.pgdir && e.kstack == e0.kstack && w.kpgdir == w0.kpgdir
    && e.pgdir in w.owner && e.pgdir in w0.owner && w.owner[e.pgdir] == w0.owner[e.pgdir]
    && DirKept(w0.mem, w.mem, e.pgdir)
  }

  lemma CarriedOk(w0: Sys, w: Sys, x: nat)
    requires ProcOk(w0, x) && Carried(w0, w, x)
    ensures ProcOk(w, x) && View(w.mem, w.procs[x]).pages == View(w0.mem, w0.procs[x]).pages
  {
    PagesKept(w0.mem, w.mem, w0.procs[x], w.procs[x]);
  }

  lemma KernelHalfSame(s0: Snap, s: Snap, d: nat, a: nat, b: nat, e: nat, data: nat)
    requires EntriesKept(s0, s, d, a, b) && b <= KERNPAGES && Dir(e) in s0.refs && Dir(e) in s.refs
      && KernelHalf(s0.ram, e, data)
    ensures KernelHalf(s.ram, e, data)
  {
    forall x: nat | KERNPAGES <= x < ALLPAGES ensures Entry(s.ram, e, x) == KMap(data, x) {
      assert Entry(s.ram, e, x) == Entry(s0.ram, e, x);
    }
  }

  /** A view is the fields of the process and its pages. */
  lemma ViewFields(s: Snap, e: Proc, pages: seq<Page>)
    requires View(s, e).pages == pages
    ensures View(s, e) == EProc(e.pid, e.sz, pages, e.parent, e.zombie)
  {
  }

  /** Memory `s` after a change inside pages [a, b) of directory `d` that left pipes, stacks and other directories
      alone. */
  ghost predicate Beyond(w: Sys, s: Snap, d: nat, a: nat, b: nat) {
    && Linked(s) && EntriesKept(w.mem, s, d, a, b) && b <= KERNPAGES
    && (forall e: nat :: e != d ==> DirKept(w.mem, s, e) && (Dir(e) in s.refs ==> Dir(e) in w.mem.refs))
    && (Dir(d) in s.refs ==> Dir(d) in w.mem.refs)
    && (forall r :: !Mapping(r) ==> (r in s.held <==> r in w.mem.held) && (r in s.refs <==> r in w.mem.refs))
    && (forall r :: !Mapping(r) && r in s.held ==> s.held[r].frame == w.mem.held[r].frame)
  }

  /** Slot `p` is a process with directory `d`, or is gone with it; every other process is as before and reads as
      before. */
  lemma BeyondGood(w: Sys, s: Snap, procs: Procs, d: nat, a: nat, b: nat, p: nat)
    requires Good(w) && p in w.procs && w.procs[p].pgdir == d && Beyond(w, s, d, a, b) && Family(procs, w.nextpid)
    requires forall x :: x in procs <==> x in w.procs
    requires forall x :: x in procs ==>
      procs[x] == w.procs[x].(sz := procs[x].sz) && (x != p ==> procs[x].sz == w.procs[x].sz)
    requires Dir(d) in s.refs && Pages(s, procs[p]) && procs[p].sz < KERNPAGES * PGSIZE
    ensures Good(w.(mem := s, procs := procs))
    ensures Views(w.(mem := s, procs := procs)) == Views(w)[p := View(s, procs[p])]
  {
    hide Beyond, Linked, Family, KernelHalf, View, Pages, ProcOk, DirOwned, PipeOk;
    var w' := w.(mem := s, procs := procs);
    assert ProcOk(w, p);
    BeyondLinked(w, s, d, a, b);
    forall x: nat ensures ProcOk(w', x) && (x in procs && x != p ==> View(s, procs[x]) == View(w.mem, w.procs[x])) {
      assert ProcOk(w, x);
      OneProc(w, s, procs, d, p, x, a, b);
    }
    forall e: nat ensures DirOwned(w', e) {
      assert DirOwned(w, e);
      OneDir(w, s, procs, d, p, a, b, e);
    }
    forall k: nat ensures PipeOk(w', k) {
      assert PipeOk(w, k);
      OnePipe(w, s, procs, d, a, b, k);
    }
  }

  lemma BeyondLinked(w: Sys, s: Snap, d: nat, a: nat, b: nat)
    requires Beyond(w, s, d, a, b)
    ensures Linked(s)
  {
  }

  lemma OneProc(w: Sys, s: Snap, procs: Procs, d: nat, p: nat, x: nat, a: nat, b: nat)
    requires ProcOk(w, x) && ProcOk(w, p) && p in w.procs && w.procs[p].pgdir == d && Beyond(w, s, d, a, b)
    requires x in procs <==> x in w.procs
    requires x in procs ==> procs[x] == w.procs[x].(sz := procs[x].sz) && (x != p ==> procs[x].sz == w.procs[x].sz)
    requires Dir(d) in s.refs && p in procs && Pages(s, procs[p]) && procs[p].sz < KERNPAGES * PGSIZE
    ensures var w' := w.(mem := s, procs := procs); ProcOk(w', x)
    ensures x in procs && x != p ==> View(s, procs[x]) == View(w.mem, w.procs[x])
  {
    hide Linked, View, Pages, EntriesKept, DirKept;
    if x in procs && x != p {
      OtherProc(w, s, procs, d, p, x, a, b);
    }
  }

  lemma OneDir(w: Sys, s: Snap, procs: Procs, d: nat, p: nat, a: nat, b: nat, e: nat)
    requires DirOwned(w, e) && ProcOk(w, p) && p in w.procs && w.procs[p].pgdir == d && Beyond(w, s, d, a, b)
    requires forall x :: x in procs <==> x in w.procs
    requires forall x :: x in procs ==> procs[x].pgdir == w.procs[x].pgdir
    ensures DirOwned(w.(mem := s, procs := procs), e)
  {
    hide Beyond, KernelHalf, Pages;
    OtherDir(w, s, d, a, b, e);
  }

  lemma OnePipe(w: Sys, s: Snap, procs: Procs, d: nat, a: nat, b: nat, k: nat)
    requires PipeOk(w, k) && Beyond(w, s, d, a, b)
    ensures PipeOk(w.(mem := s, procs := procs), k)
  {
    hide Linked, EntriesKept, DirKept;
  }

  lemma OtherProc(w: Sys, s: Snap, procs: Procs, d: nat, p: nat, x: nat, a: nat, b: nat)
    requires ProcOk(w, x) && ProcOk(w, p) && x in w.procs && p in w.procs && w.procs[p].pgdir == d && x != p
      && Beyond(w, s, d, a, b)
    requires x in procs && procs[x] == w.procs[x]
    ensures ProcOk(w.(mem := s, procs := procs), x) && View(s, procs[x]) == View(w.mem, w.procs[x])
  {
    hide Linked, EntriesKept, View;
    var w' := w.(mem := s, procs := procs);
    CarriedOk(w, w', x);
    ViewFields(s, procs[x], View(s, procs[x]).pages);
    ViewFields(w.mem, w.procs[x], View(s, procs[x]).pages);
  }

  lemma OtherDir(w: Sys, s: Snap, d: nat, a: nat, b: nat, e: nat)
    requires Beyond(w, s, d, a, b) && DirOwned(w, e) && d != w.kpgdir
    ensures Dir(e) in s.refs ==> Dir(e) in w.mem.refs && KernelHalf(s.ram, e, w.data)
    ensures e == w.kpgdir ==> Dir(e) in s.refs && forall v: nat :: User(e, v) !in s.refs
  {
    hide Linked;
    if Dir(e) in s.refs && Dir(e) in w.mem.refs {
      KernelHalfSame(w.mem, s, d, a, b, e, w.data);
    }
    if e == w.kpgdir {
      forall v: nat ensures User(e, v) !in s.refs { assert EntryKept(w.mem, s, e, v); }
    }
  }

  /** The other user pages are mapped as before, and DataKept says they read as before. */
  lemma BeyondBy(w: Sys, s: Snap, d: nat, a: nat, b: nat)
    requires Linked(w.mem) && Linked(s) && Kept(w.mem, s, d, a, b) && b <= KERNPAGES
    requires forall r :: r in w.mem.refs && !((r.User? || r.Tab?) && r.d == d) ==>
      r in s.refs && s.refs[r].u == w.mem.refs[r].u
    requires forall r :: r in s.refs && !((r.User? || r.Tab?) && r.d == d) ==> r in w.mem.refs
    requires forall r :: !Mapping(r) ==> (r in s.held <==> r in w.mem.held)
    requires forall r :: !Mapping(r) && r in s.held ==> s.held[r].frame == w.mem.held[r].frame
    ensures Beyond(w, s, d, a, b)
  {
    hide Structured, EntriesKept;
    forall e: nat | e != d ensures DirKept(w.mem, s, e) {
      forall v: nat ensures EntryKept(w.mem, s, e, v) {}
    }
  }

  lemma SizeFamily(procs: Procs, nextpid: nat, p: nat, sz: nat)
    requires Family(procs, nextpid) && p in procs
    ensures Family(procs[p := procs[p].(sz := sz)], nextpid)
  {
    var procs' := procs[p := procs[p].(sz := sz)];
    forall x: nat ensures Related(procs', nextpid, x) { assert Related(procs, nextpid, x); }
  }

  // ---- What a process finds at its addresses ----

  lemma ProcFacts(w: Sys, p: nat)
    requires Good(w) && p in w.procs
    ensures var e, t := w.procs[p], Views(w);
            && p < NPROC && Dir(e.pgdir) in w.mem.refs && e.sz < KERNPAGES * PGSIZE && e.pgdir != w.kpgdir
            && t[p].sz == e.sz && t[p].parent == e.parent && t[p].zombie == e.zombie && t[p].pid == e.pid < w.nextpid
            && |t[p].pages| == PageCount(w.mem, e)
            && Stack(p) in w.mem.held && Stack(p) !in w.mem.refs && w.mem.held[Stack(p)].frame == e.kstack
            && Pages(w.mem, e)
  {
    hide Linked, KernelHalf;
    assert ProcOk(w, p) && Related(w.procs, w.nextpid, p);
  }

  lemma NoneInHand(w: Sys)
    requires Good(w)
    ensures Buf(0) !in w.mem.held
  {
    assert PipeOk(w, 0);
  }

  /** What process `p` sees at page `v` is what its translation leads to. */
  lemma PageView(w: Sys, p: nat, v: nat)
    requires Good(w) && p in w.procs
    ensures var d, t := w.procs[p].pgdir, Views(w);
            && (v < |t[p].pages| <==> User(d, v) in w.mem.refs)
            && (User(d, v) in w.mem.refs ==>
                  && User(d, v) in w.mem.held && w.mem.held[User(d, v)] == w.mem.refs[User(d, v)]
                  && w.mem.refs[User(d, v)].u
                  && IsData(w.mem.ram, w.mem.refs[User(d, v)].frame)
                  && t[p].pages[v] == w.mem.ram[w.mem.refs[User(d, v)].frame].b)
  {
    hide Structured, KernelHalf;
    assert ProcOk(w, p) && PageOk(w.mem, w.procs[p], v);
    UserAt(w.mem, w.procs[p].pgdir, v);
  }

  // ---- A store ----

  lemma StoreGood(w: Sys, s: Snap, p: nat, v: nat, off: nat, x: int)
    requires Good(w) && p in w.procs && v < KERNPAGES && Linked(s) && Changed(w.mem, s, w.procs[p].pgdir, v, off, x)
    ensures Good(w.(mem := s))
    ensures var a := v * PGSIZE + off;
      Has(Views(w)[p], a) && Views(w.(mem := s)) == Views(w)[p := Stored(Views(w)[p], a, x)]
  {
    hide Good, Changed, Pages, Beyond, View, Linked, Accounted, Family;
    var e, d := w.procs[p], w.procs[p].pgdir;
    GoodParts(w);
    StoreBeyond(w, s, d, v, off, x);
    var a := v * PGSIZE + off;
    assert a / PGSIZE == v && a % PGSIZE == off;
    assert w.procs[p := e] == w.procs;
    ProcFacts(w, p);
    StorePages(w.mem, s, e, v, off, x);
    BeyondGood(w, s, w.procs, d, v, v + 1, p);
    ViewFields(s, e, Stored(Views(w)[p], a, x).pages);
    ViewFields(w.mem, e, Views(w)[p].pages);
  }

  lemma GoodParts(w: Sys)
    requires Good(w)
    ensures Linked(w.mem) && Accounted(w) && Family(w.procs, w.nextpid)
  {
  }

  lemma StoreBeyond(w: Sys, s: Snap, d: nat, v: nat, off: nat, x: int)
    requires Linked(w.mem) && Linked(s) && Changed(w.mem, s, d, v, off, x) && v < KERNPAGES
    ensures Beyond(w, s, d, v, v + 1) && Dir(d) in s.refs && off < PGSIZE
  {
    UserAt(w.mem, d, v);
    hide Structured, EntriesKept;
    forall e: nat | e != d ensures DirKept(w.mem, s, e) {
      forall y: nat ensures EntryKept(w.mem, s, e, y) {}
    }
  }

  lemma StorePages(s0: Snap, s: Snap, e: Proc, v: nat, off: nat, x: int)
    requires Changed(s0, s, e.pgdir, v, off, x) && Pages(s0, e)
    ensures Pages(s, e) && v < |View(s0, e).pages| && |View(s0, e).pages[v]| == PGSIZE
    ensures View(s, e).pages == View(s0, e).pages[v := View(s0, e).pages[v][off := x]]
  {
    hide EntriesKept;
    assert PageOk(s0, e, v);
    forall y: nat ensures PageOk(s, e, y) { assert PageOk(s0, e, y); }
  }

  // ---- sbrk ----

  lemma TabsBeyond(w: Sys, s: Snap, d: nat)
    requires Linked(w.mem) && Linked(s) && Memory.Grown(w.mem, s, d, 0, 511) && Kept(w.mem, s, d, 0, 0)
    ensures Beyond(w, s, d, 0, 0) && DirKept(w.mem, s, d) && (Dir(d) in w.mem.refs ==> Dir(d) in s.refs)
  {
    hide Structured;
    BeyondBy(w, s, d, 0, 0);
    forall v: nat ensures EntryKept(w.mem, s, d, v) {}
  }

  lemma TabsGood(w: Sys, s: Snap, p: nat)
    requires Good(w) && p in w.procs && Linked(s)
    requires Memory.Grown(w.mem, s, w.procs[p].pgdir, 0, 511) && Kept(w.mem, s, w.procs[p].pgdir, 0, 0)
    ensures Good(w.(mem := s)) && Views(w.(mem := s)) == Views(w)
  {
    hide Good, Memory.Grown, Kept, View, Beyond, Linked, KernelHalf, Pages, DirKept, Accounted, Family;
    var e, d := w.procs[p], w.procs[p].pgdir;
    GoodParts(w);
    ProcFacts(w, p);
    TabsBeyond(w, s, d);
    PagesKept(w.mem, s, e, e);
    assert w.procs[p := e] == w.procs;
    BeyondGood(w, s, w.procs, d, 0, 0, p);
    ViewFields(s, e, View(s, e).pages);
    ViewFields(w.mem, e, View(s, e).pages);
    assert Views(w)[p := Views(w)[p]] == Views(w);
  }

  lemma GrowGood(w: Sys, s: Snap, p: nat, n: int)
    requires Good(w) && Linked(s) && p in w.procs && Runs(Views(w), p) && 0 < n
      && w.procs[p].sz + n < KERNPAGES * PGSIZE
    requires var e := w.procs[p]; Extended(w.mem, s, e.pgdir, PagesOf(e.sz), PagesOf(e.sz + n))
    ensures var w' := w.(mem := s, procs := w.procs[p := w.procs[p].(sz := w.procs[p].sz + n)]);
            Good(w') && Views(w') == Views(w)[p := Resized(Views(w)[p], n)]
  {
    hide Good, Extended, Pages, View, Beyond, Linked, Accounted, Family;
    var e, d := w.procs[p], w.procs[p].pgdir;
    var e' := e.(sz := e.sz + n);
    var a, b := PagesOf(e.sz), PagesOf(e.sz + n);
    GoodParts(w);
    ProcFacts(w, p);
    GrowPages(w.mem, s, e, n);
    GrowBeyond(w, s, d, a, b);
    SizeFamily(w.procs, w.nextpid, p, e'.sz);
    BeyondGood(w, s, w.procs[p := e'], d, a, b, p);
    ViewFields(s, e', Resized(Views(w)[p], n).pages);
    ViewFields(w.mem, e, Views(w)[p].pages);
  }

  lemma GrowBeyond(w: Sys, s: Snap, d: nat, a: nat, b: nat)
    requires Linked(w.mem) && Linked(s) && Extended(w.mem, s, d, a, b) && b <= KERNPAGES
    ensures Beyond(w, s, d, a, b) && (Dir(d) in w.mem.refs ==> Dir(d) in s.refs)
  {
    hide Structured, Kept, Needs;
    BeyondBy(w, s, d, a, b);
  }

  lemma GrowPages(s0: Snap, s: Snap, e: Proc, n: int)
    requires Linked(s) && Pages(s0, e) && PageCount(s0, e) == PagesOf(e.sz) && 0 < n
    requires Extended(s0, s, e.pgdir, PagesOf(e.sz), PagesOf(e.sz + n))
    ensures var e' := e.(sz := e.sz + n); Pages(s, e') && View(s, e').pages == Resized(View(s0, e), n).pages
  {
    hide Structured, EntriesKept, Needs;
    var e', a, b := e.(sz := e.sz + n), PagesOf(e.sz), PagesOf(e.sz + n);
    assert PageOk(s0, e, 0);
    assert User(e.pgdir, 0) in s.refs;
    forall v: nat ensures PageOk(s, e', v) { assert PageOk(s0, e, v); }
    forall v: nat | v < b ensures PageAt(s, e.pgdir, v) == (Resized(View(s0, e), n).pages)[v] {
      assert PageOk(s0, e, v);
    }
  }

  /** deallocuvm below a running process: the pages above the new size are gone, and with size 0 the old size stays. */
  lemma ShrinkGood(w: Sys, s: Snap, p: nat, newsz: nat)
    requires Good(w) && Linked(s) && p in w.procs && Runs(Views(w), p) && newsz < w.procs[p].sz
    requires var e := w.procs[p];
             Freed(w.mem, s, e.pgdir, PagesOf(newsz), PagesOf(e.sz))
               && Kept(w.mem, s, e.pgdir, PagesOf(newsz), PagesOf(e.sz))
    ensures var e := w.procs[p];
            var e' := e.(sz := if newsz == 0 then e.sz else newsz);
            var w' := w.(mem := s, procs := w.procs[p := e']);
            && Good(w') && PagesOf(newsz) <= |Views(w)[p].pages|
            && Views(w') == Views(w)[p := Views(w)[p].(sz := e'.sz, pages := Views(w)[p].pages[..PagesOf(newsz)])]
  {
    var e, d := w.procs[p], w.procs[p].pgdir;
    var e' := e.(sz := if newsz == 0 then e.sz else newsz);
    var a, b := PagesOf(newsz), PagesOf(e.sz);
    ProcFacts(w, p);
    GoodParts(w);
    hide Good, Pages, View, Kept;
    ShrinkPages(w.mem, s, e, newsz);
    ShrinkBeyond(w, s, d, a, b);
    SizeFamily(w.procs, w.nextpid, p, e'.sz);
    hide Freed, Beyond;
    BeyondGood(w, s, w.procs[p := e'], d, a, b, p);
    ViewFields(s, e', Views(w)[p].pages[..a]);
    ViewFields(w.mem, e, Views(w)[p].pages);
  }

  lemma ShrinkBeyond(w: Sys, s: Snap, d: nat, a: nat, b: nat)
    requires Linked(w.mem) && Linked(s) && Freed(w.mem, s, d, a, b) && Kept(w.mem, s, d, a, b) && b <= KERNPAGES
    ensures Beyond(w, s, d, a, b) && (Dir(d) in w.mem.refs ==> Dir(d) in s.refs)
  {
    hide Structured, Kept;
    BeyondBy(w, s, d, a, b);
  }

  lemma ShrinkPages(s0: Snap, s: Snap, e: Proc, newsz: nat)
    requires Pages(s0, e) && PageCount(s0, e) == PagesOf(e.sz) && newsz < e.sz && Backed(s.refs, s.held)
    requires Freed(s0, s, e.pgdir, PagesOf(newsz), PagesOf(e.sz)) && Kept(s0, s, e.pgdir, PagesOf(newsz), PagesOf(e.sz))
    ensures var e' := e.(sz := if newsz == 0 then e.sz else newsz);
      Pages(s, e') && View(s, e').pages == View(s0, e).pages[..PagesOf(newsz)]
  {
    hide EntriesKept;
    var e' := e.(sz := if newsz == 0 then e.sz else newsz);
    assert PageOk(s0, e, 0);
    forall v: nat
      ensures PageOk(s, e', v) && (v < PagesOf(newsz) ==> PageAt(s, e.pgdir, v) == PageAt(s0, e.pgdir, v))
    {
      assert PageOk(s0, e, v);
    }
  }

  /** The 32-bit size after a shrink: at or above the old size exactly when the shrink is by more than the size. */
  lemma Wrapped(sz: nat, n: int)
    requires sz < 0x8000_0000 && -0x8000_0000 <= n < 0
    ensures (sz + n) % UINT == if 0 <= sz + n then sz + n else sz + n + UINT
  {
  }
}
