/** Processes come and go: boot, fork, exit, wait, and the pages of pipes (proc.c, pipe.c). */
module Forks {
  import opened Frames
  import opened Paging
  import opened Memory
  import opened EagerCopy
  import opened Processes

  // ---- exit ----

  /** exit, on the table: a zombie, and its children handed to init. */
  function ExitProcs(procs: Procs, p: nat): Procs {
    map x | x in procs ::
      if x == p then procs[x].(zombie := true) else if procs[x].parent == p then procs[x].(parent := INIT) else procs[x]
  }

  lemma ExitFamily(procs: Procs, nextpid: nat, p: nat)
    requires Family(procs, nextpid) && p in procs && p != INIT
    ensures Family(ExitProcs(procs, p), nextpid)
  {
    var procs' := ExitProcs(procs, p);
    assert Related(procs, nextpid, INIT) && Related(procs, nextpid, p);
    forall x: nat ensures Related(procs', nextpid, x) { assert Related(procs, nextpid, x); }
  }

  lemma StillHere(s: Snap, d: nat)
    ensures DirKept(s, s, d)
  {
    forall v: nat ensures EntryKept(s, s, d, v) {}
  }

  lemma ExitOne(w: Sys, p: nat, x: nat)
    requires ProcOk(w, x)
    ensures ProcOk(w.(procs := ExitProcs(w.procs, p)), x)
    ensures x in w.procs ==> View(w.mem, ExitProcs(w.procs, p)[x]).pages == View(w.mem, w.procs[x]).pages
  {
    hide View, Pages, DirKept;
    if x in w.procs {
      StillHere(w.mem, w.procs[x].pgdir);
      CarriedOk(w, w.(procs := ExitProcs(w.procs, p)), x);
    }
  }

  lemma ExitViews(w: Sys, p: nat)
    requires Accounted(w)
    ensures Views(w.(procs := ExitProcs(w.procs, p))) == Exited(Views(w), p)
  {
    hide View, ProcOk;
    var w' := w.(procs := ExitProcs(w.procs, p));
    var t, t' := Exited(Views(w), p), Views(w');
    forall x | x in w.procs ensures t'[x] == t[x] {
      assert ProcOk(w, x);
      ExitOne(w, p, x);
      ViewFields(w.mem, w.procs[x], View(w.mem, w.procs[x]).pages);
      ViewFields(w.mem, w'.procs[x], View(w.mem, w.procs[x]).pages);
    }
  }

  lemma ExitLeft(w: Sys, p: nat)
    requires Accounted(w) && p in w.procs
    ensures Left(Views(w), Views(w.(procs := ExitProcs(w.procs, p))), p)
  {
    hide Accounted, View, ExitProcs, Left;
    ExitViews(w, p);
    ExitLaw(Views(w), Exit(p), Done);
  }

  lemma ExitGood(w: Sys, p: nat)
    requires Good(w) && p in w.procs && p != INIT
    ensures Good(w.(procs := ExitProcs(w.procs, p))) && Left(Views(w), Views(w.(procs := ExitProcs(w.procs, p))), p)
  {
    hide Good, View, Left, ExitProcs, Accounted;
    GoodParts(w);
    ExitKept(w, p);
    ExitLeft(w, p);
  }

  lemma ExitKept(w: Sys, p: nat)
    requires Good(w) && p in w.procs && p != INIT
    ensures Good(w.(procs := ExitProcs(w.procs, p)))
  {
    var w' := w.(procs := ExitProcs(w.procs, p));
    GoodParts(w);
    hide Linked, Family, ProcOk, KernelHalf;
    ExitFamily(w.procs, w.nextpid, p);
    forall x: nat ensures ProcOk(w', x) {
      assert ProcOk(w, x);
      ExitOne(w, p, x);
    }
    forall d: nat ensures DirOwned(w', d) { assert DirOwned(w, d); }
    forall k: nat ensures PipeOk(w', k) { assert PipeOk(w, k); }
  }

  // ---- wait ----

  lemma ReapFamily(procs: Procs, nextpid: nat, c: nat)
    requires Family(procs, nextpid) && c in procs && procs[c].zombie
    ensures Family(procs - {c}, nextpid)
  {
    var procs' := procs - {c};
    assert Related(procs, nextpid, INIT);
    forall x: nat ensures Related(procs', nextpid, x) { assert Related(procs, nextpid, x); }
  }

  /** Memory without the directory `d` and the stack of slot `c`. */
  ghost predicate Gone(s0: Snap, s: Snap, c: nat, d: nat) {
    s.refs == s0.refs - AllOf(s0.refs, d) && s.held == s0.held - AllOf(s0.refs, d) - {Stack(c)} && Kept(s0, s, d, 0, 0)
  }

  lemma ReapKept(s0: Snap, s: Snap, c: nat, d: nat, e: nat)
    requires Gone(s0, s, c, d) && e != d
    ensures DirKept(s0, s, e)
  {
    forall v: nat ensures EntryKept(s0, s, e, v) {}
  }

  lemma ReapOther(w: Sys, s: Snap, c: nat, x: nat)
    requires c in w.procs && Gone(w.mem, s, c, w.procs[c].pgdir) && ProcOk(w, c) && ProcOk(w, x)
    ensures ProcOk(w.(mem := s, procs := w.procs - {c}), x)
    ensures x in w.procs && x != c ==> View(s, w.procs[x]) == View(w.mem, w.procs[x])
  {
    hide View, Pages, DirKept, Kept;
    var w', e := w.(mem := s, procs := w.procs - {c}), if x in w.procs then w.procs[x] else w.procs[c];
    if x in w.procs && x != c {
      ReapKept(w.mem, s, c, w.procs[c].pgdir, e.pgdir);
      CarriedOk(w, w', x);
      ViewFields(w.mem, e, View(w.mem, e).pages);
      ViewFields(s, e, View(w.mem, e).pages);
    }
  }

  /** wait: the zombie and everything it held is gone, and nobody else notices. */
  lemma ReapGood(w: Sys, s: Snap, c: nat)
    requires Good(w) && Linked(s) && c in w.procs && w.procs[c].zombie && Gone(w.mem, s, c, w.procs[c].pgdir)
    ensures var w' := w.(mem := s, procs := w.procs - {c}); Good(w') && Views(w') == Views(w) - {c}
  {
    hide Good, Linked, Family, View, Gone, ProcOk, DirOwned, PipeOk, Pages, PageCount;
    var w' := w.(mem := s, procs := w.procs - {c});
    GoodParts(w);
    ProcFacts(w, c);
    ReapFamily(w.procs, w.nextpid, c);
    assert ProcOk(w, c);
    forall x: nat ensures ProcOk(w', x) && (x in w.procs && x != c ==> View(s, w.procs[x]) == View(w.mem, w.procs[x])) {
      assert ProcOk(w, x);
      ReapOther(w, s, c, x);
    }
    forall e: nat ensures DirOwned(w', e) {
      assert DirOwned(w, e);
      ReapDir(w, s, c, e);
    }
    forall k: nat ensures PipeOk(w', k) {
      assert PipeOk(w, k);
      ReapPipe(w, s, c, k);
    }
    GoodFrom(w');
  }

  lemma GoodFrom(w: Sys)
    requires Linked(w.mem) && Accounted(w) && Family(w.procs, w.nextpid)
    ensures Good(w)
  {
  }

  lemma ReapPipe(w: Sys, s: Snap, c: nat, k: nat)
    requires c in w.procs && Gone(w.mem, s, c, w.procs[c].pgdir) && PipeOk(w, k)
    ensures PipeOk(w.(mem := s, procs := w.procs - {c}), k)
  {
    hide Kept;
  }

  lemma ReapDir(w: Sys, s: Snap, c: nat, e: nat)
    requires c in w.procs && Gone(w.mem, s, c, w.procs[c].pgdir) && DirOwned(w, e) && w.procs[c].pgdir != w.kpgdir
    requires ProcOk(w, c)
    ensures DirOwned(w.(mem := s, procs := w.procs - {c}), e)
  {
    if Dir(e) in s.refs { KernelHalfSame(w.mem, s, w.procs[c].pgdir, 0, 0, e, w.data); }
  }

  // ---- pipes ----

  /** A pipe's page comes or goes. */
  lemma PipeGood(w: Sys, s: Snap, k: nat, pipes: map<nat, nat>)
    requires Good(w) && Linked(s) && s.refs == w.mem.refs && Kept(w.mem, s, 0, 0, 0) && k != 0
    requires (Buf(k) !in w.mem.held && k in pipes && pipes == w.pipes[k := pipes[k]]
      && s.held == w.mem.held[Buf(k) := Pte(pipes[k], false, false)])
          || (pipes == w.pipes - {k} && s.held == w.mem.held - {Buf(k)})
    ensures var w' := w.(mem := s, pipes := pipes); Good(w') && Views(w') == Views(w)
  {
    var w' := w.(mem := s, pipes := pipes);
    GoodParts(w);
    hide Linked, Family, KernelHalf, View, Pages, EntriesKept, DirKept;
    forall x: nat ensures ProcOk(w', x) && (x in w.procs ==> View(s, w.procs[x]) == View(w.mem, w.procs[x])) {
      assert ProcOk(w, x);
      if x in w.procs {
        PipeKept(w.mem, s, k, w.procs[x].pgdir);
        CarriedOk(w, w', x);
        ViewFields(w.mem, w.procs[x], View(w.mem, w.procs[x]).pages);
        ViewFields(s, w.procs[x], View(w.mem, w.procs[x]).pages);
      }
    }
    forall e: nat ensures DirOwned(w', e) {
      assert DirOwned(w, e);
      if Dir(e) in s.refs { KernelHalfSame(w.mem, s, 0, 0, 0, e, w.data); }
    }
    forall j: nat ensures PipeOk(w', j) { assert PipeOk(w, j); }
  }

  lemma PipeKept(s0: Snap, s: Snap, k: nat, d: nat)
    requires s.refs == s0.refs && Kept(s0, s, 0, 0, 0)
      && (Buf(k) in s.held ==> s.held == s0.held[Buf(k) := s.held[Buf(k)]])
    requires Buf(k) !in s.held ==> s.held == s0.held - {Buf(k)}
    ensures DirKept(s0, s, d)
  {
    forall v: nat ensures EntryKept(s0, s, d, v) {}
  }

  // ---- fork ----

  lemma NextPid(w: Sys)
    requires Good(w)
    ensures Good(w.(nextpid := w.nextpid + 1)) && Views(w.(nextpid := w.nextpid + 1)) == Views(w)
  {
    hide Linked, View, KernelHalf, Pages;
    var w' := w.(nextpid := w.nextpid + 1);
    forall x: nat ensures ProcOk(w', x) { assert ProcOk(w, x); }
    forall d: nat ensures DirOwned(w', d) { assert DirOwned(w, d); }
    forall k: nat ensures PipeOk(w', k) { assert PipeOk(w, k); }
    forall x: nat ensures Related(w'.procs, w'.nextpid, x) { assert Related(w.procs, w.nextpid, x); }
  }

  lemma ProtectedBeyond(w: Sys, s: Snap, d: nat, n: nat)
    requires Linked(w.mem) && Linked(s) && n <= KERNPAGES
    requires s.refs == Protected(w.mem.refs, d, n) && s.held == Protected(w.mem.held, d, n) && Kept(w.mem, s, d, 0, n)
    ensures Beyond(w, s, d, 0, n) && DirKept(w.mem, s, d) && (Dir(d) in w.mem.refs ==> Dir(d) in s.refs)
  {
    hide Structured, EntriesKept;
    BeyondBy(w, s, d, 0, n);
    forall v: nat ensures EntryKept(w.mem, s, d, v) {}
  }

  /** A failed fork leaves at most write protection behind. */
  lemma ForkFailed(w: Sys, s: Snap, p: nat, n: nat)
    requires Good(w) && Linked(s) && p in w.procs && n <= KERNPAGES
    requires var d := w.procs[p].pgdir;
             s.refs == Protected(w.mem.refs, d, n) && s.held == Protected(w.mem.held, d, n) && Kept(w.mem, s, d, 0, n)
    ensures Good(w.(mem := s)) && Views(w.(mem := s)) == Views(w)
  {
    hide Good, Accounted, Family, View, Pages, Linked, Kept, Beyond, Protected, DirKept;
    var e, d := w.procs[p], w.procs[p].pgdir;
    ProcFacts(w, p);
    GoodParts(w);
    ProtectedBeyond(w, s, d, n);
    PagesKept(w.mem, s, e, e);
    assert w.procs[p := e] == w.procs;
    BeyondGood(w, s, w.procs, d, 0, n, p);
    ViewFields(s, e, View(s, e).pages);
    ViewFields(w.mem, e, View(s, e).pages);
    assert Views(w)[p := Views(w)[p]] == Views(w);
  }

  /** The frames that are held do not depend on the flags of the entries. */
  lemma ProtectedFrames(held: Refs, d: nat, n: nat)
    ensures Frames.Frames(Protected(held, d, n)) == Frames.Frames(held)
  {
    var held' := Protected(held, d, n);
    forall f | f in Frames.Frames(held) ensures f in Frames.Frames(held') {
      var r :| r in held && held[r].frame == f;
      assert r in held' && held'[r].frame == f;
    }
    forall f | f in Frames.Frames(held') ensures f in Frames.Frames(held) {
      var r :| r in held' && held'[r].frame == f;
      assert r in held;
    }
  }

  /** A failed fork gives back every frame it took. */
  lemma SameFree(held: Refs, refc: seq<int>, freelist: seq<nat>, refc': seq<int>, freelist': seq<nat>, lo: nat,
          d: nat, n: nat)
    requires Counted(held, refc, freelist, lo, PHYSFRAMES)
      && Counted(Protected(held, d, n), refc', freelist', lo, PHYSFRAMES)
    ensures |freelist'| == |freelist|
  {
    ProtectedFrames(held, d, n);
    Conservation(held, refc, freelist, lo, PHYSFRAMES);
    Conservation(Protected(held, d, n), refc', freelist', lo, PHYSFRAMES);
  }

  /** Frames taken by a fork of a process of `sz` bytes: a stack, a directory, 64 kernel tables, and one for each 4
      MiB. */
  function ForkCost(sz: nat): nat { 66 + (sz + 0x3F_FFFF) / 0x40_0000 }

  lemma TabsOfSize(sz: nat)
    ensures 66 + UserTabs(PagesOf(sz)) == ForkCost(sz)
  {
  }

  ghost function Child(w: Sys, s: Snap, p: nat, c: nat, d: nat, q: nat): Sys
    requires p in w.procs
  {
    w.(mem := s, nextpid := w.nextpid + 1, owner := w.owner[d := c],
       procs := w.procs[c := Proc(w.nextpid, w.procs[p].sz, d, q, p, false)])
  }

  /** The parent's state with the child's kernel stack. */
  ghost function WithStack(s: Snap, c: nat, q: nat): Snap {
    s.(held := s.held[Stack(c) := Pte(q, false, false)], free := if s.free > 0 then s.free - 1 else 0)
  }

  lemma ForkFamily(procs: Procs, nextpid: nat, p: nat, c: nat, e: Proc)
    requires Family(procs, nextpid) && p in procs && !procs[p].zombie && c !in procs && c < NPROC
    requires e.pid == nextpid && e.parent == p && !e.zombie
    ensures Family(procs[c := e], nextpid + 1)
  {
    var procs', n := procs[c := e], nextpid + 1;
    assert Related(procs, nextpid, p);
    forall x: nat ensures Related(procs', n, x) { assert Related(procs, nextpid, x); }
    forall x, y | x in procs' && y in procs' && procs'[x].pid == procs'[y].pid ensures x == y {
      assert Related(procs, nextpid, x) && Related(procs, nextpid, y);
    }
  }

  /** What a new directory beside a write-protected one means for everything that was there. */
  lemma JoiningFacts(s0: Snap, s: Snap, d: nat, c: nat, n: nat)
    requires Joining(s0, s, d, c, n)
    ensures forall r :: r in s0.refs ==> r in s.refs && s.refs[r].u == s0.refs[r].u && (Mapping(r) ==> r.d != c)
    ensures forall r :: r in s0.held ==> r in s.held && s.held[r].frame == s0.held[r].frame
    ensures forall r :: r in s.refs && r !in s0.refs ==> Mapping(r) && r.d == c
    ensures forall r :: r in s.held && r !in s0.held ==> Mapping(r) && r.d == c
  {
    hide Kept;
    var r1, h1 := Protected(s0.refs, d, n), Protected(s0.held, d, n);
    assert forall r :: r in r1 <==> r in s0.refs;
    assert forall r :: r in h1 <==> r in s0.held;
  }

  /** Sharing a directory's pages is invisible in every directory that was there before. */
  lemma JoiningKept(s0: Snap, s: Snap, d: nat, c: nat, n: nat, e: nat)
    requires Joining(s0, s, d, c, n) && e != c
    ensures DirKept(s0, s, e)
  {
    JoiningFacts(s0, s, d, c, n);
    hide EntriesKept, Protected, Beside;
    forall v: nat ensures EntryKept(s0, s, e, v) {}
  }

  lemma StackKept(s0: Snap, s: Snap, c: nat, q: nat, e: nat)
    requires DirKept(WithStack(s0, c, q), s, e)
    ensures DirKept(s0, s, e)
  {
    forall v: nat ensures EntryKept(s0, s, e, v) { assert EntryKept(WithStack(s0, c, q), s, e, v); }
  }

  /** The child reads what the parent read, although no page was copied. */
  lemma ForkPage(s0: Snap, s: Snap, dp: nat, d: nat, n: nat, data: nat, v: nat)
    requires Copied(s0, s, dp, d, n, data) && v < n && Backed(s.refs, s.held) && User(dp, v) in s0.refs
      && User(dp, v) in s0.held && s0.refs[User(dp, v)].u
    ensures User(d, v) in s.refs && User(d, v) in s.held && s.refs[User(d, v)].u && PageAt(s, d, v) == PageAt(s0, dp, v)
  {
    JoiningFacts(s0, s, dp, d, n);
    hide EntriesKept, KernelHalf, Protected, Beside;
    assert At(s, User(dp, v)) == At(s0, User(dp, v));
  }

  lemma ForkPages(s0: Snap, s: Snap, dp: nat, d: nat, data: nat, e: Proc, e': Proc)
    requires e.pgdir == dp && e'.pgdir == d && e'.sz == e.sz && PageCount(s0, e) == PagesOf(e.sz) && Pages(s0, e)
      && Backed(s.refs, s.held)
    requires Copied(s0, s, dp, d, PagesOf(e.sz), data)
    ensures Pages(s, e') && View(s, e').pages == View(s0, e).pages
  {
    hide Joining, KernelHalf;
    var n := PagesOf(e.sz);
    forall v: nat ensures PageOk(s, e', v) && (v < n ==> PageAt(s, d, v) == PageAt(s0, dp, v)) {
      assert PageOk(s0, e, v);
      if v < n { ForkPage(s0, s, dp, d, n, data, v); }
    }
  }

  /** The new directory is apart from all that was there. */
  lemma ForkFacts(w: Sys, s: Snap, c: nat, q: nat, dp: nat, d: nat, n: nat)
    requires Joining(WithStack(w.mem, c, q), s, dp, d, n) && c !in w.procs && ProcOk(w, c)
    ensures Stack(c) in s.held && s.held[Stack(c)].frame == q && Stack(c) !in s.refs && Dir(d) !in w.mem.refs
    ensures forall r :: !Mapping(r) ==>
      (r in s.refs <==> r in w.mem.refs) && (r != Stack(c) ==> (r in s.held <==> r in w.mem.held))
    ensures forall r :: !Mapping(r) && r != Stack(c) && r in s.held ==> s.held[r].frame == w.mem.held[r].frame
    ensures forall e: nat :: Dir(e) in s.refs && e != d ==> Dir(e) in w.mem.refs
    ensures EntriesKept(w.mem, s, dp, 0, n)
  {
    JoiningFacts(WithStack(w.mem, c, q), s, dp, d, n);
    hide Protected, Beside, DataKept;
  }

  lemma ForkOld(w: Sys, s: Snap, p: nat, c: nat, d: nat, q: nat, x: nat)
    requires p in w.procs && c !in w.procs && ProcOk(w, x) && x in w.procs && ProcOk(w, c)
    requires Joining(WithStack(w.mem, c, q), s, w.procs[p].pgdir, d, PagesOf(w.procs[p].sz))
    ensures ProcOk(Child(w, s, p, c, d, q), x) && View(s, w.procs[x]) == View(w.mem, w.procs[x])
      && w.procs[x].pgdir != d
  {
    ForkFacts(w, s, c, q, w.procs[p].pgdir, d, PagesOf(w.procs[p].sz));
    hide Joining, View, Pages, EntriesKept, DirKept;
    var e := w.procs[x];
    JoiningKept(WithStack(w.mem, c, q), s, w.procs[p].pgdir, d, PagesOf(w.procs[p].sz), e.pgdir);
    StackKept(w.mem, s, c, q, e.pgdir);
    KeptDir(w.mem, s, e.pgdir);
    CarriedOk(w, Child(w, s, p, c, d, q), x);
    ViewFields(s, e, View(s, e).pages);
    ViewFields(w.mem, e, View(s, e).pages);
  }

  lemma KeptDir(s0: Snap, s: Snap, d: nat)
    requires DirKept(s0, s, d) && Dir(d) in s0.refs
    ensures Dir(d) in s.refs
  {
  }

  lemma ForkDir(w: Sys, s: Snap, p: nat, c: nat, d: nat, q: nat, e: nat)
    requires p in w.procs && c !in w.procs && PagesOf(w.procs[p].sz) <= KERNPAGES && DirOwned(w, e) && ProcOk(w, c)
      && Dir(d) in s.refs
    requires Copied(WithStack(w.mem, c, q), s, w.procs[p].pgdir, d, PagesOf(w.procs[p].sz), w.data)
      && DirOwned(w, w.kpgdir)
    ensures DirOwned(Child(w, s, p, c, d, q), e)
  {
    var dp, n := w.procs[p].pgdir, PagesOf(w.procs[p].sz);
    ForkFacts(w, s, c, q, dp, d, n);
    hide Joining, EntriesKept, DirKept;
    if Dir(e) in w.mem.refs {
      JoiningKept(WithStack(w.mem, c, q), s, dp, d, n, e);
      KeptDir(WithStack(w.mem, c, q), s, e);
      KernelHalfSame(w.mem, s, dp, 0, n, e, w.data);
      if e == w.kpgdir { NoUsers(WithStack(w.mem, c, q), s, e); }
    }
  }

  lemma NoUsers(s0: Snap, s: Snap, d: nat)
    requires DirKept(s0, s, d) && forall v: nat :: User(d, v) !in s0.refs
    ensures forall v: nat :: User(d, v) !in s.refs
  {
    forall v: nat ensures User(d, v) !in s.refs { assert EntryKept(s0, s, d, v); }
  }

  lemma ForkOther(w: Sys, s: Snap, p: nat, c: nat, d: nat, q: nat, x: nat)
    requires p in w.procs && c !in w.procs && ProcOk(w, c) && ProcOk(w, x) && PipeOk(w, x)
    requires Joining(WithStack(w.mem, c, q), s, w.procs[p].pgdir, d, PagesOf(w.procs[p].sz))
    ensures x != c ==> ProcOk(Child(w, s, p, c, d, q), x)
    ensures PipeOk(Child(w, s, p, c, d, q), x)
    ensures x in w.procs ==> View(s, w.procs[x]) == View(w.mem, w.procs[x])
  {
    ForkFacts(w, s, c, q, w.procs[p].pgdir, d, PagesOf(w.procs[p].sz));
    hide Joining, View, Pages, EntriesKept;
    if x in w.procs {
      ForkOld(w, s, p, c, d, q, x);
    }
  }

  lemma ForkGood(w: Sys, s: Snap, p: nat, c: nat, d: nat, q: nat)
    requires Good(w) && Linked(s) && p in w.procs && Runs(Views(w), p) && c !in w.procs && c < NPROC
    requires Copied(WithStack(w.mem, c, q), s, w.procs[p].pgdir, d, PagesOf(w.procs[p].sz), w.data) && Dir(d) in s.refs
    ensures var w' := Child(w, s, p, c, d, q);
            Good(w') && Views(w') == Views(w)[c := Views(w)[p].(pid := w.nextpid, parent := p)]
  {
    hide Good, Family, View, PageCount, Linked, Copied, Joining, Pages, ProcOk, DirOwned, PipeOk;
    var w' := Child(w, s, p, c, d, q);
    GoodParts(w);
    ProcFacts(w, p);
    ForkNew(w, s, p, c, d, q);
    ForkFamily(w.procs, w.nextpid, p, c, w'.procs[c]);
    CopiedJoining(WithStack(w.mem, c, q), s, w.procs[p].pgdir, d, PagesOf(w.procs[p].sz), w.data);
    assert ProcOk(w, c) && DirOwned(w, w.kpgdir);
    forall x: nat
      ensures ProcOk(w', x) && PipeOk(w', x) && (x in w.procs ==> View(s, w.procs[x]) == View(w.mem, w.procs[x]))
    {
      assert ProcOk(w, x) && PipeOk(w, x);
      ForkOther(w, s, p, c, d, q, x);
    }
    forall e: nat ensures DirOwned(w', e) {
      assert DirOwned(w, e);
      ForkDir(w, s, p, c, d, q, e);
    }
    GoodFrom(w');
    ViewFields(s, w'.procs[c], View(w.mem, w.procs[p]).pages);
    ViewFields(w.mem, w.procs[p], View(w.mem, w.procs[p]).pages);
  }

  lemma CopiedJoining(s0: Snap, s: Snap, d: nat, c: nat, n: nat, data: nat)
    requires Copied(s0, s, d, c, n, data)
    ensures Joining(s0, s, d, c, n)
  {
  }

  lemma ForkNew(w: Sys, s: Snap, p: nat, c: nat, d: nat, q: nat)
    requires Good(w) && Linked(s) && p in w.procs && Runs(Views(w), p) && c !in w.procs && c < NPROC && Dir(d) in s.refs
    requires Copied(WithStack(w.mem, c, q), s, w.procs[p].pgdir, d, PagesOf(w.procs[p].sz), w.data)
    ensures ProcOk(Child(w, s, p, c, d, q), c)
      && View(s, Child(w, s, p, c, d, q).procs[c]).pages == View(w.mem, w.procs[p]).pages
  {
    var w', s1, e, n := Child(w, s, p, c, d, q), WithStack(w.mem, c, q), w.procs[p], PagesOf(w.procs[p].sz);
    ProcFacts(w, p);
    assert ProcOk(w, c) && DirOwned(w, w.kpgdir);
    CopiedJoining(s1, s, e.pgdir, d, n, w.data);
    ForkFacts(w, s, c, q, e.pgdir, d, n);
    hide Good, Joining, Copied, EntriesKept, DirKept, Structured, KernelHalf;
    assert DirKept(w.mem, s1, e.pgdir) by { StillHere(s1, e.pgdir); StackKept(w.mem, s1, c, q, e.pgdir); }
    PagesKept(w.mem, s1, e, e);
    ForkPages(s1, s, e.pgdir, d, w.data, e, w'.procs[c]);
  }
}
