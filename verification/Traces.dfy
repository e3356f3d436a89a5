/** What a run of operations can do to the memory of the processes that live through it, and page conservation. */
module Traces {
  import opened Common
  import opened Frames
  import opened Paging
  import opened Memory
  import opened Processes
  import opened Forks

  predicate Same(e0: Proc, e: Proc) { e.pid == e0.pid && e.pgdir == e0.pgdir }

  /** Directory `d` has the tables and pages it had. */
  ghost predicate SameDir(s0: Snap, s: Snap, d: nat) {
    && (forall i: nat :: Tab(d, i) in s.refs <==> Tab(d, i) in s0.refs)
    && (forall v: nat :: User(d, v) in s.refs <==> User(d, v) in s0.refs)
  }

  /** The pages of directory `d` are where they were. */
  ghost predicate SameFrames(s0: Snap, s: Snap, d: nat) {
    forall v: nat :: User(d, v) in s.held ==>
      User(d, v) in s0.held && s.held[User(d, v)].frame == s0.held[User(d, v)].frame
  }

  /** Pages of two directories that share a frame now shared one before. */
  ghost predicate SharedThen(s0: Snap, s: Snap, d: nat, e: nat) {
    forall v: nat, y: nat ::
      User(d, v) in s.held && User(e, y) in s.held && s.held[User(d, v)].frame == s.held[User(e, y)].frame ==>
        && User(d, v) in s0.held && User(e, y) in s0.held
        && s0.held[User(d, v)].frame == s0.held[User(e, y)].frame
  }

  /** A process of `w` whose pid was already given out in `w0` is the same process. Unless its slot is `busy` it has the
      same tables and pages, and unless it also `wrote` they are in the same frames. */
  ghost predicate OldProc(w0: Sys, w: Sys, busy: set<nat>, wrote: set<nat>, x: nat) {
    x in w.procs && w.procs[x].pid < w0.nextpid ==>
      && x in w0.procs && Same(w0.procs[x], w.procs[x])
      && (x !in busy ==> SameDir(w0.mem, w.mem, w.procs[x].pgdir))
      && (x !in busy && x !in wrote ==> SameFrames(w0.mem, w.mem, w.procs[x].pgdir))
  }

  /** Two processes that live through a run come to share no page that they did not share before. */
  ghost predicate OldPair(w0: Sys, w: Sys, x: nat, y: nat) {
    x in w.procs && y in w.procs && x != y && w.procs[x].pid < w0.nextpid && w.procs[y].pid < w0.nextpid ==>
      SharedThen(w0.mem, w.mem, w.procs[x].pgdir, w.procs[y].pgdir)
  }

  /** From `w0` to `w` the processes in the slots `busy` may have changed size, and those in `wrote` may have stored. */
  ghost predicate Traced(w0: Sys, w: Sys, busy: set<nat>, wrote: set<nat>) {
    && w0.nextpid <= w.nextpid && w.kpgdir == w0.kpgdir && SameDir(w0.mem, w.mem, w.kpgdir)
    && (forall x: nat :: OldProc(w0, w, busy, wrote, x))
    && (forall x: nat, y: nat :: OldPair(w0, w, x, y))
  }

  lemma TracedSelf(w: Sys, busy: set<nat>, wrote: set<nat>)
    requires Family(w.procs, w.nextpid)
    ensures Traced(w, w, busy, wrote)
  {
    forall x: nat ensures OldProc(w, w, busy, wrote, x) { assert Related(w.procs, w.nextpid, x); }
    forall x: nat, y: nat ensures OldPair(w, w, x, y) {}
  }

  lemma TracedOn(w0: Sys, w1: Sys, w: Sys, busy: set<nat>, wrote: set<nat>, busy': set<nat>, wrote': set<nat>)
    requires Traced(w0, w1, busy, wrote) && Traced(w1, w, busy', wrote')
    ensures Traced(w0, w, busy + busy', wrote + wrote')
  {
    hide SameDir, SameFrames, SharedThen;
    SameDirOn(w0.mem, w1.mem, w.mem, w.kpgdir);
    forall x: nat ensures OldProc(w0, w, busy + busy', wrote + wrote', x) {
      assert OldProc(w1, w, busy', wrote', x) && OldProc(w0, w1, busy, wrote, x);
      if x in w.procs {
        SameDirOn(w0.mem, w1.mem, w.mem, w.procs[x].pgdir);
        SameFramesOn(w0.mem, w1.mem, w.mem, w.procs[x].pgdir);
      }
    }
    forall x: nat, y: nat ensures OldPair(w0, w, x, y) {
      assert OldProc(w1, w, busy', wrote', x) && OldProc(w0, w1, busy, wrote, x);
      assert OldProc(w1, w, busy', wrote', y) && OldProc(w0, w1, busy, wrote, y);
      assert OldPair(w1, w, x, y) && OldPair(w0, w1, x, y);
      if x in w.procs && y in w.procs { SharedThenOn(w0.mem, w1.mem, w.mem, w.procs[x].pgdir, w.procs[y].pgdir); }
    }
  }

  lemma TracedLess(w0: Sys, w: Sys, busy: set<nat>, wrote: set<nat>, busy': set<nat>, wrote': set<nat>)
    requires Traced(w0, w, busy, wrote) && busy <= busy' && wrote <= wrote'
    ensures Traced(w0, w, busy', wrote')
  {
    hide SameDir, SameFrames, SharedThen;
    forall x: nat ensures OldProc(w0, w, busy', wrote', x) { assert OldProc(w0, w, busy, wrote, x); }
  }

  lemma SameDirOn(s0: Snap, s1: Snap, s: Snap, d: nat)
    ensures SameDir(s0, s1, d) && SameDir(s1, s, d) ==> SameDir(s0, s, d)
  {}

  lemma SameFramesOn(s0: Snap, s1: Snap, s: Snap, d: nat)
    ensures SameFrames(s0, s1, d) && SameFrames(s1, s, d) ==> SameFrames(s0, s, d)
  {}

  lemma SharedThenOn(s0: Snap, s1: Snap, s: Snap, d: nat, e: nat)
    ensures SharedThen(s0, s1, d, e) && SharedThen(s1, s, d, e) ==> SharedThen(s0, s, d, e)
  {}

  /** What one operation does: an old process keeps its frames, or gets frames nobody else holds. */
  ghost predicate Moved(s0: Snap, s: Snap) {
    forall r :: r in s.held && r.User? && Dir(r.d) in s0.refs ==>
      (r in s0.held && s.held[r].frame == s0.held[r].frame) || s.held[r].w
  }

  lemma MovedTraced(w0: Sys, w: Sys, busy: set<nat>, wrote: set<nat>)
    requires Good(w0) && Good(w) && WritableAlone(w.mem.held) && Moved(w0.mem, w.mem) && w0.nextpid <= w.nextpid
      && w.kpgdir == w0.kpgdir
    requires SameDir(w0.mem, w.mem, w.kpgdir)
    requires forall x: nat :: OldProc(w0, w, busy, wrote, x)
    ensures Traced(w0, w, busy, wrote)
  {
    hide Linked, Family, KernelHalf, SameDir, SameFrames, SharedThen, Moved, Pages, WritableAlone;
    forall x: nat, y: nat ensures OldPair(w0, w, x, y) {
      assert OldProc(w0, w, busy, wrote, x) && OldProc(w0, w, busy, wrote, y);
      assert ProcOk(w0, x) && ProcOk(w0, y);
      if x in w.procs && y in w.procs && x != y && w.procs[x].pid < w0.nextpid && w.procs[y].pid < w0.nextpid {
        NoneNew(w0.mem, w.mem, w.procs[x].pgdir, w.procs[y].pgdir);
      }
    }
  }

  lemma NoneNew(s0: Snap, s: Snap, d: nat, e: nat)
    requires WritableAlone(s.held) && Moved(s0, s) && Dir(d) in s0.refs && Dir(e) in s0.refs && d != e
    ensures SharedThen(s0, s, d, e)
  {
    forall v: nat, y: nat | User(d, v) in s.held && User(e, y) in s.held
      && s.held[User(d, v)].frame == s.held[User(e, y)].frame
      ensures User(d, v) in s0.held && User(e, y) in s0.held && s0.held[User(d, v)].frame == s0.held[User(e, y)].frame
    {
      assert Alone(s.held, User(d, v), User(e, y)) && Alone(s.held, User(e, y), User(d, v));
    }
  }

  /** Two references share in the one state exactly if they share in the other. */
  ghost predicate Alike(held: Refs, held': Refs, r: Ref, r': Ref)
    requires r in held && r' in held && r in held' && r' in held'
  {
    held[r].frame == held[r'].frame <==> held'[r].frame == held'[r'].frame
  }

  ghost predicate SamePattern(held: Refs, held': Refs)
    requires held.Keys == held'.Keys
  {
    forall r, r' {:trigger Alike(held, held', r, r')} :: r in held && r' in held ==> Alike(held, held', r, r')
  }

  lemma FramesLess(held: Refs, r: Ref)
    requires r in held
    ensures Frames.Frames(held) == Frames.Frames(held - {r}) + {held[r].frame}
    ensures held[r].frame in Frames.Frames(held - {r}) <==>
      exists a :: a in held && a != r && held[a].frame == held[r].frame
    ensures |Frames.Frames(held)| ==
      |Frames.Frames(held - {r})| + if held[r].frame in Frames.Frames(held - {r}) then 0 else 1
  {
    var rest := held - {r};
    forall f | f in Frames.Frames(held) ensures f in Frames.Frames(rest) + {held[r].frame} {
      var a :| a in held && held[a].frame == f;
      assert a != r ==> a in rest;
    }
    if a :| a in held && a != r && held[a].frame == held[r].frame { assert a in rest; }
    if held[r].frame in Frames.Frames(rest) { assert Frames.Frames(rest) + {held[r].frame} == Frames.Frames(rest); }
  }

  /** As many frames are held, if the same references are held and the same ones share. */
  lemma {:induction false} PatternSize(held: Refs, held': Refs)
    requires held.Keys == held'.Keys && SamePattern(held, held')
    ensures |Frames.Frames(held)| == |Frames.Frames(held')|
    decreases |held|
  {
    if held == map[] {
      assert held' == map[];
    } else {
      var r :| r in held;
      var rest, rest' := held - {r}, held' - {r};
      FramesLess(held, r);
      FramesLess(held', r);
      assert held[r].frame in Frames.Frames(rest) <==> held'[r].frame in Frames.Frames(rest') by {
        if a :| a in held && a != r && held[a].frame == held[r].frame { assert Alike(held, held', a, r); }
        if a :| a in held' && a != r && held'[a].frame == held'[r].frame { assert Alike(held, held', a, r); }
      }
      forall a, b | a in rest && b in rest ensures Alike(rest, rest', a, b) { assert Alike(held, held', a, b); }
      assert rest.Keys == held.Keys - {r};
      PatternSize(rest, rest');
    }
  }

  /** A directory that lives through an operation keeps its tables and pages. */
  ghost predicate Still(s0: Snap, s: Snap, d: nat) {
    Dir(d) in s0.refs && Dir(d) in s.refs ==> SameDir(s0, s, d)
  }

  ghost predicate Kin(w0: Sys, w: Sys) {
    && w0.nextpid <= w.nextpid && w.kpgdir == w0.kpgdir
    && forall x :: x in w.procs ==> (x in w0.procs && Same(w0.procs[x], w.procs[x])) || w.procs[x].pid >= w0.nextpid
  }

  /** A directory of before that is as it was, if it is still there. */
  ghost predicate Quiet(s0: Snap, s: Snap, e: nat) {
    Still(s0, s, e) && (Dir(e) in s0.refs ==> SameFrames(s0, s, e))
  }

  predicate Touched(w: Sys, p: Option<nat>, e: nat) { p.Some? && p.value in w.procs && w.procs[p.value].pgdir == e }

  /** A directory that a process has is no other process's and not the scheduler's. */
  lemma OneSlot(w: Sys, p: nat)
    requires Good(w) && p in w.procs
    ensures w.procs[p].pgdir != w.kpgdir && forall x :: x in w.procs && w.procs[x].pgdir == w.procs[p].pgdir ==> x == p
  {
    hide Linked, Family, KernelHalf, Pages;
    assert ProcOk(w, p);
    forall x | x in w.procs && w.procs[x].pgdir == w.procs[p].pgdir ensures x == p { assert ProcOk(w, x); }
  }

  /** One operation: processes stay who they are, and get no frame that anyone else holds. Only the process in slot `p`,
      if any, has other frames than before, and more or fewer of them if it is `resized`. */
  lemma TraceStep(w0: Sys, w: Sys, p: Option<nat>, resized: bool)
    requires Good(w0) && Good(w) && Sound(w.mem.held) && Moved(w0.mem, w.mem) && Kin(w0, w)
    requires forall e: nat :: if Touched(w0, p, e) then resized || Still(w0.mem, w.mem, e) else Quiet(w0.mem, w.mem, e)
    ensures Traced(w0, w, if p.Some? && resized then {p.value} else {}, if p.Some? && !resized then {p.value} else {})
  {
    hide Linked, Family, KernelHalf, SameDir, SameFrames, Moved, Pages, WritableAlone, Owned;
    var busy, wrote := if p.Some? && resized then {p.value} else {}, if p.Some? && !resized then {p.value} else {};
    if p.Some? && p.value in w0.procs { OneSlot(w0, p.value); }
    assert DirOwned(w0, w.kpgdir) && DirOwned(w, w.kpgdir);
    assert !Touched(w0, p, w.kpgdir);
    forall x: nat ensures OldProc(w0, w, busy, wrote, x) {
      assert ProcOk(w0, x) && ProcOk(w, x);
      if x in w.procs && x in w0.procs { assert Touched(w0, p, w0.procs[x].pgdir) <==> p == Some(x); }
    }
    MovedTraced(w0, w, busy, wrote);
  }

  lemma MovedSame(s0: Snap, s: Snap)
    requires s.refs.Keys == s0.refs.Keys
      && forall r :: r in s.held && r.User? ==> r in s0.held && s.held[r].frame == s0.held[r].frame
    ensures Moved(s0, s) && forall e: nat :: Quiet(s0, s, e)
  {
  }

  lemma MovedStore(s0: Snap, s: Snap, d: nat, v: nat, off: nat, x: int)
    requires Changed(s0, s, d, v, off, x)
    ensures Moved(s0, s) && Still(s0, s, d) && forall e: nat :: e != d ==> Quiet(s0, s, e)
  {
  }

  lemma MovedExtended(s0: Snap, s: Snap, d: nat, a: nat, b: nat)
    requires Linked(s0) && Linked(s) && (Extended(s0, s, d, a, b) || Memory.Grown(s0, s, d, 0, 511))
    ensures Moved(s0, s) && forall e: nat :: e != d ==> Quiet(s0, s, e)
  {
    hide Structured, Kept, Needs;
  }

  lemma MovedDropped(s0: Snap, s: Snap, d: nat, gone: set<Ref>)
    requires s.refs == s0.refs - gone && (forall r :: r in gone && Mapping(r) ==> r.d == d)
    requires forall r :: r in s.held ==> r in s0.held && s.held[r] == s0.held[r]
    ensures Moved(s0, s) && SameFrames(s0, s, d) && forall e: nat :: e != d ==> Quiet(s0, s, e)
  {
  }

  lemma MovedJoining(s0: Snap, s: Snap, d: nat, c: nat, n: nat)
    requires Joining(s0, s, d, c, n)
    ensures Moved(s0, s) && forall e: nat :: Quiet(s0, s, e)
  {
    JoiningFacts(s0, s, d, c, n);
    hide Joining;
  }

  /** Everything that is held in `w` is held in `w0`, when the processes are the same with the same tables and pages. */
  lemma SameKeys(w0: Sys, w: Sys)
    requires Good(w0) && Good(w) && w.kpgdir == w0.kpgdir && SameDir(w0.mem, w.mem, w.kpgdir)
    requires w.procs.Keys == w0.procs.Keys && w.pipes.Keys == w0.pipes.Keys
    requires forall x :: x in w.procs ==> Same(w0.procs[x], w.procs[x]) && SameDir(w0.mem, w.mem, w.procs[x].pgdir)
    ensures forall r :: r in w.mem.held ==> r in w0.mem.held
  {
    forall r | r in w.mem.held ensures r in w0.mem.held {
      if Mapping(r) {
        DirAlive(w, r);
        assert DirOwned(w, r.d) && DirOwned(w0, w0.kpgdir);
        if r.d != w.kpgdir { assert ProcOk(w0, w.owner[r.d]); }
      } else if r.Stack? {
        assert ProcOk(w, r.slot) && ProcOk(w0, r.slot);
      } else {
        assert PipeOk(w, r.k) && PipeOk(w0, r.k);
      }
    }
  }

  lemma DirAlive(w: Sys, r: Ref)
    requires Good(w) && r in w.mem.held && Mapping(r)
    ensures Dir(r.d) in w.mem.refs && r in w.mem.refs
  {
    if r.Tab? { assert TabOk(w.mem.ram, w.mem.refs, r.d, r.i); }
    if r.User? { assert UserOk(w.mem.ram, w.mem.refs, r.d, r.v); }
  }

  /** No other reference holds a frame that holds a page of directory `d`. */
  ghost predicate Sole(held: Refs, d: nat) {
    forall v: nat, r :: User(d, v) in held && r in held && held[r].frame == held[User(d, v)].frame ==> r == User(d, v)
  }

  /** The processes of `w0` are those of `w` and kept their sizes, and of the pages of those that stored none was
      shared. */
  ghost predicate Restored(w0: Sys, w: Sys, busy: set<nat>, wrote: set<nat>) {
    && w.procs.Keys == w0.procs.Keys && w.pipes.Keys == w0.pipes.Keys
    && (forall x :: x in w.procs ==> w.procs[x].pid == w0.procs[x].pid && x !in busy)
    && (forall x :: x in w.procs && x in wrote ==> Sole(w0.mem.held, w0.procs[x].pgdir))
  }

  /** Whose page it is. */
  lemma Owner(w0: Sys, w: Sys, busy: set<nat>, wrote: set<nat>, r: Ref) returns (x: nat)
    requires Good(w0) && Good(w) && Traced(w0, w, busy, wrote) && Restored(w0, w, busy, wrote)
    requires r in w.mem.held && r.User?
    ensures x in w.procs && x in w0.procs && w.procs[x].pgdir == w0.procs[x].pgdir == r.d && w.procs[x].pid < w0.nextpid
    ensures x !in wrote ==> SameFrames(w0.mem, w.mem, r.d)
  {
    hide SameDir, SameFrames, SharedThen, Sole;
    DirAlive(w, r);
    assert DirOwned(w, r.d) && DirOwned(w, w.kpgdir);
    x := w.owner[r.d];
    assert Related(w0.procs, w0.nextpid, x) && OldProc(w0, w, busy, wrote, x);
  }

  lemma SharedAlike(w0: Sys, w: Sys, busy: set<nat>, wrote: set<nat>, r: Ref, r': Ref)
    requires Good(w0) && Good(w) && Traced(w0, w, busy, wrote) && Restored(w0, w, busy, wrote)
    requires Owned(w0.mem.held) && Owned(w.mem.held)
    requires r in w.mem.held && r' in w.mem.held && r in w0.mem.held && r' in w0.mem.held
    ensures Alike(w0.mem.held, w.mem.held, r, r')
  {
    hide Good;
    assert Apart(w0.mem.held, r, r') && Apart(w.mem.held, r, r');
    if r != r' && r.User? && r'.User? && r.d != r'.d {
      var x := Owner(w0, w, busy, wrote, r);
      var y := Owner(w0, w, busy, wrote, r');
      assert OldPair(w0, w, x, y);
      if w0.mem.held[r].frame == w0.mem.held[r'].frame {
        assert x !in wrote && y !in wrote;
      }
    }
  }

  /** Page conservation over runs: when the same processes are left with the same sizes, and the same pipes, and no
      process that is left has stored to a page it shared before, then exactly the same references are held, and share
      as they did. */
  lemma Conserved(w0: Sys, w: Sys, busy: set<nat>, wrote: set<nat>)
    requires Good(w0) && Good(w) && Traced(w0, w, busy, wrote) && Restored(w0, w, busy, wrote)
    requires Owned(w0.mem.held) && Owned(w.mem.held)
    ensures w.mem.held.Keys == w0.mem.held.Keys && SamePattern(w0.mem.held, w.mem.held)
  {
    hide Linked, KernelHalf, Pages, SameDir, SameFrames, Sole, SharedThen, Owned;
    forall x | x in w.procs ensures Same(w0.procs[x], w.procs[x]) && SameDir(w0.mem, w.mem, w.procs[x].pgdir) {
      assert OldProc(w0, w, busy, wrote, x) && Related(w0.procs, w0.nextpid, x);
    }
    hide Good;
    SameDirBack(w0.mem, w.mem, w.kpgdir);
    forall x | x in w.procs
      ensures SameDir(w.mem, w0.mem, w0.procs[x].pgdir)
    {
      SameDirBack(w0.mem, w.mem, w.procs[x].pgdir);
    }
    SameKeys(w0, w);
    SameKeys(w, w0);
    forall r, r' | r in w.mem.held && r' in w.mem.held ensures Alike(w0.mem.held, w.mem.held, r, r') {
      SharedAlike(w0, w, busy, wrote, r, r');
    }
  }

  lemma SameDirBack(s0: Snap, s: Snap, d: nat)
    requires SameDir(s0, s, d)
    ensures SameDir(s, s0, d)
  {
  }

  /** As many frames are free, when the same references are held and share alike. */
  lemma FreeAgain(held: Refs, refc: seq<int>, freelist: seq<nat>, held': Refs, refc': seq<int>, freelist': seq<nat>,
          lo: nat)
    requires Counted(held, refc, freelist, lo, PHYSFRAMES) && Counted(held', refc', freelist', lo, PHYSFRAMES)
    requires held.Keys == held'.Keys && SamePattern(held, held')
    ensures |freelist'| == |freelist|
  {
    PatternSize(held, held');
    Conservation(held, refc, freelist, lo, PHYSFRAMES);
    Conservation(held', refc', freelist', lo, PHYSFRAMES);
  }

  // ---- One operation at a time ----

  lemma ExitTrace(w: Sys, p: nat)
    requires Good(w) && Good(w.(procs := ExitProcs(w.procs, p)))
    ensures Traced(w, w.(procs := ExitProcs(w.procs, p)), {}, {})
  {
    var w' := w.(procs := ExitProcs(w.procs, p));
    hide Linked, Accounted;
    forall x: nat ensures OldProc(w, w', {}, {}, x) { assert Related(w.procs, w.nextpid, x); }
    forall x: nat, y: nat ensures OldPair(w, w', x, y) {}
  }

  lemma StoreTrace(w: Sys, s: Snap, p: nat, v: nat, off: nat, x: int)
    requires Good(w) && Good(w.(mem := s)) && Sound(s.held) && p in w.procs
      && Changed(w.mem, s, w.procs[p].pgdir, v, off, x)
    ensures Traced(w, w.(mem := s), {}, {p})
  {
    hide Good, Changed, Moved, Still, SameFrames;
    MovedStore(w.mem, s, w.procs[p].pgdir, v, off, x);
    TraceStep(w, w.(mem := s), Some(p), false);
  }

  lemma SbrkTrace(w: Sys, s: Snap, p: nat, procs: Procs)
    requires Good(w) && Good(w.(mem := s, procs := procs)) && Sound(s.held) && p in w.procs && p in procs
      && procs == w.procs[p := w.procs[p].(sz := procs[p].sz)]
    requires Moved(w.mem, s) && forall e: nat :: e != w.procs[p].pgdir ==> Quiet(w.mem, s, e)
    ensures Traced(w, w.(mem := s, procs := procs), {p}, {})
  {
    hide Good, Moved, Still, SameFrames;
    TraceStep(w, w.(mem := s, procs := procs), Some(p), true);
  }

  lemma ForkTrace(w: Sys, s: Snap, p: nat, c: nat, d: nat, q: nat)
    requires Good(w) && p in w.procs && Good(Child(w, s, p, c, d, q)) && Sound(s.held) && c !in w.procs
    requires Joining(WithStack(w.mem, c, q), s, w.procs[p].pgdir, d, PagesOf(w.procs[p].sz))
    ensures Traced(w, Child(w, s, p, c, d, q), {}, {})
  {
    hide Good, Joining, Moved, Quiet;
    MovedJoining(WithStack(w.mem, c, q), s, w.procs[p].pgdir, d, PagesOf(w.procs[p].sz));
    StackQuiet(w, s, c, q);
    TraceStep(w, Child(w, s, p, c, d, q), None, false);
  }

  lemma StackQuiet(w: Sys, s: Snap, c: nat, q: nat)
    requires var s1 := WithStack(w.mem, c, q); Moved(s1, s) && forall e: nat :: Quiet(s1, s, e)
    ensures Moved(w.mem, s) && forall e: nat :: Quiet(w.mem, s, e)
  {
    var s1 := WithStack(w.mem, c, q);
    forall e: nat ensures Quiet(w.mem, s, e) { assert Quiet(s1, s, e); }
  }

  /** A failed fork; also a pipe that comes or goes: the same mappings to the same frames. */
  lemma SameTrace(w: Sys, w': Sys)
    requires Good(w) && Good(w') && Sound(w'.mem.held) && w'.kpgdir == w.kpgdir && w'.procs == w.procs
      && w.nextpid <= w'.nextpid
    requires w'.mem.refs.Keys == w.mem.refs.Keys
    requires forall r :: r in w'.mem.held && r.User? ==> r in w.mem.held && w'.mem.held[r].frame == w.mem.held[r].frame
    ensures Traced(w, w', {}, {})
  {
    hide Good, Moved, Still;
    MovedSame(w.mem, w'.mem);
    TraceStep(w, w', None, false);
  }

  lemma ReapTrace(w: Sys, s: Snap, c: nat)
    requires Good(w) && c in w.procs && Good(w.(mem := s, procs := w.procs - {c})) && Sound(s.held)
      && Gone(w.mem, s, c, w.procs[c].pgdir)
    ensures Traced(w, w.(mem := s, procs := w.procs - {c}), {}, {})
  {
    var d := w.procs[c].pgdir;
    hide Good, Moved, Kept, SameFrames;
    MovedDropped(w.mem, s, d, AllOf(w.mem.refs, d));
    ProcFacts(w, c);
    assert Dir(d) !in s.refs && Quiet(w.mem, s, d);
    hide Still;
    TraceStep(w, w.(mem := s, procs := w.procs - {c}), None, false);
  }
}
