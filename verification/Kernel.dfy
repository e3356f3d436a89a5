/** The physical allocator, the page tables and copy-on-write (kalloc.c, vm.c) as one object
    updated in place. */
module Memory {
  import opened Common
  import opened Frames
  import opened Paging

  /** How a page fault ends. */
  datatype Fault = CopyMade | Reenabled | NotMapped | OutOfMemory

  class Kernel {
    const lo: nat                // first managed frame, after `end`
    const data: nat              // frame of the kernel's data segment

    // kmem
    var freelist: seq<nat>
    var freecnt: nat
    var refc: seq<int>
    // physical memory
    var ram: Ram

    ghost var held: Refs         // what the counts account for
    ghost var refs: Refs         // what the page tables say
    ghost var nfail: nat         // failed calls of kalloc

    ghost function Now(): Snap
      reads this
    {
      Snap(ram, refs, held, |freelist|)
    }

    ghost predicate Books()
      reads this
    {
      && 0x100 < data < lo <= PHYSFRAMES && |refc| == PHYSFRAMES && |ram| == PHYSFRAMES
      && Counted(held, refc, freelist, lo, PHYSFRAMES) && Sound(held)
      && freecnt == (|freelist| - nfail) % UINT
    }

    ghost predicate Steady()
      reads this
    {
      Books() && Linked(Now())
    }

    /** kinit1 and kinit2: freerange gives every frame from `end` to the top of memory to the list. */
    constructor (lo: nat, data: nat)
      requires 0x100 < data < lo <= PHYSFRAMES
      ensures Steady() && this.lo == lo && this.data == data
      ensures held == map[] && refs == map[] && |freelist| == PHYSFRAMES - lo && nfail == 0
    {
      this.lo, this.data := lo, data;
      freelist, freecnt := [], 0;
      refc := seq(PHYSFRAMES, _ => 0);
      ram := seq(PHYSFRAMES, _ => Bytes(Filled(0)));
      held, refs, nfail := map[], map[], 0;
      new;
      hide Counted, Linked, Sound;
      NothingCounted(refc, lo);
      NothingLinked(ram);
      var f := lo;
      while f < PHYSFRAMES
        invariant lo <= f <= PHYSFRAMES && |refc| == PHYSFRAMES && |ram| == PHYSFRAMES
        invariant forall g :: 0 <= g < PHYSFRAMES ==> refc[g] == 0
        invariant Counted(map[], refc, freelist, lo, f) && |freelist| == f - lo && freecnt == |freelist| % UINT
        invariant held == map[] && refs == map[] && nfail == 0 && this.lo == lo && this.data == data
      {
        // kfree of a frame with count 0
        FreeCounted(refc, freelist, lo, f);
        ram := ram[f := Bytes(Filled(1))];
        freelist := [f] + freelist;
        freecnt := (freecnt + 1) % UINT;
        f := f + 1;
      }
      NothingLinked(ram);
    }

    /** kalloc: the count of free frames goes down even when there is none to give. */
    method Kalloc(ghost r: Ref) returns (f: Option<nat>)
      requires Books() && (freelist != [] ==> r !in held)
      modifies this`freelist, this`freecnt, this`refc, this`held, this`nfail
      ensures Books()
      ensures f.None? <==> old(freelist) == []
      ensures f.None? ==> held == old(held) && freelist == [] && refc == old(refc) && nfail == old(nfail) + 1
      ensures f.Some? ==> f.value == old(freelist)[0] && freelist == old(freelist)[1..] && nfail == old(nfail)
      ensures f.Some? ==> held == old(held)[r := Pte(f.value, false, false)]
      ensures f.Some? ==> f.value < |old(refc)| && refc == old(refc)[f.value := 1]
      ensures f.Some? ==> f.value < PHYSFRAMES && forall a :: a in old(held) ==> old(held)[a].frame != f.value
    {
      f := None;
      if freelist != [] {
        f := Some(freelist[0]);
        ghost var p := Pte(freelist[0], false, false);
        TakeCounted(held, refc, freelist, lo, PHYSFRAMES, r, p);
        FreeUnheld(held, refc, freelist, lo, PHYSFRAMES, f.value);
        SoundFresh(held, r, p);
        freelist, refc := freelist[1..], refc[f.value := 1];
        held := held[r := p];
      } else {
        nfail := nfail + 1;
      }
      freecnt := (freecnt - 1) % UINT;
    }

    /** kfree: one holder lets go; the frame is scribbled over and freed with its last holder. */
    method Kfree(f: nat, ghost r: Ref)
      requires Books() && r in held && held[r].frame == f
      modifies this`freelist, this`freecnt, this`refc, this`held, this`ram
      ensures Books()
      ensures held == old(held) - {r} && f < PHYSFRAMES
      ensures if Holders(old(held), f) == {r}
              then freelist == [f] + old(freelist) && ram == old(ram)[f := Bytes(Filled(1))]
              else freelist == old(freelist) && ram == old(ram)
    {
      HolderCounted(held, refc, freelist, lo, PHYSFRAMES, r);
      DropCounted(held, refc, freelist, lo, PHYSFRAMES, r);
      SoundLess(held, {r});
      if refc[f] > 0 {
        refc := refc[f := refc[f] - 1];
      }
      if refc[f] == 0 {
        ram := ram[f := Bytes(Filled(1))];
        freelist := [f] + freelist;
        freecnt := (freecnt + 1) % UINT;
      }
      held := held - {r};
    }

    /** walkpgdir: the table that holds the entry of page `v`, made if `alloc` and missing. */
    method WalkPgdir(d: nat, v: nat, alloc: bool) returns (t: Option<nat>)
      requires Steady() && Dir(d) in refs && v < ALLPAGES
      modifies this
      ensures Steady() && Kept(old(Now()), Now(), d, v, v)
      ensures t.Some? ==> Tab(d, PDX(v)) in refs && t.value == refs[Tab(d, PDX(v))].frame
      ensures t.None? ==> Tab(d, PDX(v)) !in refs && Now() == old(Now()) && (alloc ==> freelist == [])
      ensures !alloc || Tab(d, PDX(v)) in old(refs) ==>
        Now() == old(Now()) && freelist == old(freelist) && refc == old(refc)
      ensures t.Some? && Tab(d, PDX(v)) !in old(refs) ==>
                && Tab(d, PDX(v)) !in old(held) && old(freelist) != [] && freelist == old(freelist)[1..]
                && held == old(held)[Tab(d, PDX(v)) := Pte(t.value, false, false)]
                && refs == old(refs)[Tab(d, PDX(v)) := Pte(t.value, false, false)]
      ensures nfail == old(nfail) + if alloc && t.None? then 1 else 0
    {
      var i := PDX(v);
      assert TabOk(ram, refs, d, i);
      if i in ram[d].pde {
        return Some(ram[d].pde[i]);
      }
      if !alloc {
        return None;
      }
      t := Kalloc(Tab(d, i));
      if t.None? {
        return None;
      }
      LinkTable(old(Now()), d, i, t.value);
      ram := ram[t.value := TabOf(map[])];
      ram := ram[d := DirOf(ram[d].pde[i := t.value])];
      refs := refs[Tab(d, i) := Pte(t.value, false, false)];
    }

    /** One round of the loop of mappages: the entry of page `v`. User callers map one page, whose
        frame `src` already holds; the new entry is not yet counted. */
    method MapPage(d: nat, v: nat, p: Pte, ghost src: Ref) returns (ok: bool)
      requires Steady() && Dir(d) in refs && v < ALLPAGES && Entry(ram, d, v).None?
      requires v < KERNPAGES ==>
        src in held && (src.User? || src.Buf?) && held[src].frame == p.frame && IsData(ram, p.frame)
      modifies this
      ensures Books() && Structured(ram, refs) && Settled(refs, held)
      ensures v >= KERNPAGES || !ok ==> Steady()
      ensures ok <==> Tab(d, PDX(v)) in old(refs) || old(freelist) != []
      ensures !ok ==> Now() == old(Now()) && freelist == []
      ensures ok ==> Kept(old(Now()), Now(), d, v, v + 1) && Entry(ram, d, v) == Some(p)
      ensures ok && v >= KERNPAGES ==> TableAdded(old(Now()), Now(), d, PDX(v))
      ensures ok && v < KERNPAGES ==> User(d, v) in refs && refs[User(d, v)] == p
      ensures ok && v < KERNPAGES ==> TableAdded(old(Now()), Now().(refs := refs - {User(d, v)}), d, PDX(v))
      ensures nfail == old(nfail) + if !ok then 1 else 0
    {
      hide Counted, Owned, WritableAlone, EntriesKept, Backed, Entry, Mapping;
      var t := WalkPgdir(d, v, true);
      if t.None? {
        return false;
      }
      ghost var s1 := Now();
      assert TabOk(ram, refs, d, PDX(v));
      assert UserOk(old(ram), old(refs), d, v);
      SetEntry(s1, d, v, Some(p), src);
      ram := ram[t.value := TabOf(ram[t.value].pte[PTX(v) := p])];
      if v < KERNPAGES {
        refs := refs[User(d, v) := p];
      }
      KeptBoth(old(Now()), s1, Now(), d, v, v, v, v + 1);
      return true;
    }

    /** mappages for a segment of the kernel half: `n` pages from page `a` on, to the frames from `pa` on. */
    method MapPages(d: nat, a: nat, n: nat, pa: nat, w: bool) returns (ok: bool)
      requires Steady() && Dir(d) in refs && 1 <= n && KERNPAGES <= a && a + n <= ALLPAGES
      requires Unmapped(Now(), d, a, n)
      modifies this
      ensures Steady()
      ensures ok ==> Mapped(old(Now()), Now(), d, a, n, pa, w, a + n)
      // one frame for each table that was missing, and failure exactly when there are not enough
      ensures ok <==> |old(freelist)| >= Missing(old(refs), d, a, n)
      ensures !ok ==> Kept(old(Now()), Now(), d, a, a + n) && Grown(old(Now()), Now(), d, PDX(a), PDX(a + n - 1))
      ensures nfail == old(nfail) + if !ok then 1 else 0
    {
      hide Steady, Mapped;
      var v, f := a, pa;
      ghost var s0 := Now();
      MappedNone(s0, d, a, n, pa, w);
      while v < a + n
        invariant a <= v <= a + n && f == pa + v - a && Steady() && Dir(d) in refs
        invariant Mapped(s0, Now(), d, a, n, pa, w, v) && nfail == old(nfail)
      {
        ghost var s1 := Now();
        MappedNext(s0, s1, d, a, n, pa, w, v);
        ok := MapPage(d, v, Pte(f, w, false), Dir(d));
        if !ok {
          return false;
        }
        MappedStep(s0, s1, Now(), d, a, n, pa, w, v);
        v, f := v + 1, f + 1;
      }
      MappedNext(s0, Now(), d, a, n, pa, w, v);
      return true;
    }

    /** One round of the loop of deallocuvm on a page that is there: kfree of the frame, then the entry is cleared. */
    method Unmap(d: nat, v: nat, t: nat)
      requires Steady() && User(d, v) in refs && Tab(d, PDX(v)) in refs && refs[Tab(d, PDX(v))].frame == t
      modifies this
      ensures Steady() && held == old(held) - {User(d, v)} && refs == old(refs) - {User(d, v)}
      ensures Kept(old(Now()), Now(), d, v, v + 1)
      ensures nfail == old(nfail)
    {
      hide Counted, Structured, Kept, Sound, Backed, Settled;
      ghost var s0, u := Now(), User(d, v);
      UnmapStart(s0, d, v);
      var f := ram[t].pte[PTX(v)].frame;
      Kfree(f, u);
      ram := ram[t := TabOf(ram[t].pte - {PTX(v)})];
      refs := refs - {u};
      UnmapEnd(s0, Now(), d, v);
    }

    /** One round of the loop of deallocuvm, and where the next one starts: past the whole of a missing table. */
    method DeallocRound(d: nat, v: nat) returns (next: nat)
      requires Steady() && Dir(d) in refs && v < KERNPAGES
      modifies this
      ensures Steady() && v < next && Freed(old(Now()), Now(), d, v, next)
      ensures next == v + 1 || (held == old(held) && refs == old(refs))
      ensures Kept(old(Now()), Now(), d, v, v + 1)
      ensures nfail == old(nfail)
    {
      next := v;
      var t := WalkPgdir(d, v, false);
      NoEntries(ram, refs, d, v);
      if t.None? {
        next := (PDX(v) + 1) * NENTRIES - 1;
      } else if PTX(v) in ram[t.value].pte {
        Unmap(d, v, t.value);
      }
      next := next + 1;
    }

    /** deallocuvm: every user page from `newsz` up to `oldsz` that is mapped is unmapped and released,
        although the loop jumps over missing tables. */
    method DeallocUvm(d: nat, oldsz: nat, newsz: nat) returns (sz: nat)
      requires Steady() && Dir(d) in refs && PagesOf(oldsz) <= KERNPAGES
      modifies this
      ensures Steady() && sz == (if newsz < oldsz then newsz else oldsz) && (newsz >= oldsz ==> Now() == old(Now()))
      ensures Freed(old(Now()), Now(), d, PagesOf(newsz), PagesOf(oldsz))
      ensures Kept(old(Now()), Now(), d, PagesOf(newsz), PagesOf(oldsz))
      ensures nfail == old(nfail)
    {
      hide Steady, Kept, Freed;
      ghost var s0 := Now();
      ghost var a, b := PagesOf(newsz), PagesOf(oldsz);
      FreedNone(s0, d, a, b);
      if newsz >= oldsz {
        return oldsz;
      }
      var v := PagesOf(newsz);
      while v * PGSIZE < oldsz
        invariant a <= v && Dir(d) in refs && Steady() && nfail == old(nfail)
        invariant Freed(s0, Now(), d, a, if v < b then v else b) && Kept(s0, Now(), d, a, b)
        decreases oldsz - v * PGSIZE
      {
        ghost var v1, s1 := v, Now();
        v := DeallocRound(d, v);
        FreedStep(s0, s1, Now(), d, a, v1, v, b);
      }
      return newsz;
    }

    /** freevm: nothing of the directory is held any more, and nothing else changes. */
    method FreeVm(d: nat)
      requires Steady() && Dir(d) in refs
      modifies this
      ensures Steady() && Dropped(old(Now()), Now(), AllOf(old(refs), d)) && Kept(old(Now()), Now(), d, 0, 0)
      ensures nfail == old(nfail)
    {
      hide Counted, Sound;
      ghost var s0 := Now();
      var _ := DeallocUvm(d, KERNPAGES * PGSIZE, 0);
      ghost var s1 := Now();
      assert forall v: nat :: User(d, v) in s0.refs ==> UserOk(s0.ram, s0.refs, d, v);
      FreeTables(d);
      assert AllOf(s0.refs, d) == UserRange(s0.refs, d, 0, KERNPAGES) + DirRefs(s1.refs, d);
    }

    /** The second half of freevm: the tables of the directory, then the directory. */
    method FreeTables(d: nat)
      requires Steady() && Dir(d) in refs && forall v: nat :: User(d, v) !in refs
      modifies this
      ensures Steady() && Dropped(old(Now()), Now(), DirRefs(old(refs), d)) && Kept(old(Now()), Now(), d, 0, 0)
      ensures nfail == old(nfail)
    {
      hide Counted, WritableAlone, Entry;
      DropDir(ram, refs, d);
      ghost var r1, h1, m1 := refs, held, ram;
      assert TabOk(ram, refs, d, 0);
      refs := refs - DirRefs(refs, d);
      var pde := ram[d].pde;
      var i := 0;
      while i < NENTRIES
        invariant i <= NENTRIES
        invariant Books() && Structured(ram, refs) && refs == r1 - DirRefs(r1, d) && Kept(old(Now()), Now(), d, 0, 0)
        invariant held == h1 - TabRange(r1, d, i) && ram[d] == DirOf(pde) && nfail == old(nfail)
      {
        assert TabOk(m1, r1, d, i);
        if i in pde {
          assert Apart(held, Tab(d, i), Dir(d));
          Release(pde[i], Tab(d, i));
        }
        i := i + 1;
      }
      assert forall j: nat :: Tab(d, j) in r1 ==> TabOk(m1, r1, d, j);
      Release(d, Dir(d));
    }

    /** kfree of a frame whose one holder is a table or a directory that is no longer linked. */
    method Release(f: nat, ghost r: Ref)
      requires Books() && Structured(ram, refs) && Backed(refs, held)
      requires r in held && !r.User? && held[r].frame == f && r !in refs
      modifies this
      ensures Books() && Structured(ram, refs) && refs == old(refs) && held == old(held) - {r}
      ensures f < |ram| && ram == old(ram)[f := Bytes(Filled(1))] && Kept(old(Now()), Now(), 0, 0, 0)
      ensures |freelist| == |old(freelist)| + 1
      ensures nfail == old(nfail)
    {
      LastHolder(held, r);
      Kfree(f, r);
      ScribbleFreed(old(Now()), r);
    }

    /** kalloc of a kernel stack, or of a pipe. */
    method AllocPage(ghost r: Ref) returns (f: Option<nat>)
      requires Steady() && r !in held && !Mapping(r)
      modifies this`freelist, this`freecnt, this`refc, this`held, this`nfail
      ensures Steady()
      ensures f.None? <==> old(freelist) == []
      ensures f.None? ==> held == old(held) && freelist == []
      ensures f.Some? ==> held == old(held)[r := Pte(f.value, false, false)] && |freelist| == |old(freelist)| - 1
      ensures Kept(old(Now()), Now(), 0, 0, 0)
      ensures nfail == old(nfail) + if f.None? then 1 else 0
    {
      f := Kalloc(r);
    }

    /** kfree of a kernel stack, or of a pipe. */
    method FreePage(f: nat, ghost r: Ref)
      requires Steady() && r in held && !Mapping(r) && r !in refs && held[r].frame == f
      modifies this
      ensures Steady() && refs == old(refs) && held == old(held) - {r} && |freelist| == |old(freelist)| + 1
      ensures Kept(old(Now()), Now(), 0, 0, 0)
      ensures nfail == old(nfail)
    {
      hide Counted, Sound, Structured, Kept;
      Release(f, r);
    }

    /** The first lines of setupkvm: a frame for the directory, cleared. */
    method AllocDir() returns (c: Option<nat>)
      requires Steady()
      modifies this
      ensures Steady()
      ensures c.None? <==> old(freelist) == []
      ensures c.None? ==> Now() == old(Now())
      ensures c.Some? ==> |freelist| == |old(freelist)| - 1 && Joined(old(Now()), Now(), c.value)
      ensures c.Some? ==> Dir(c.value) in refs && KernelBuilt(Now(), c.value, data, 0)
      ensures nfail == old(nfail) + if c.None? then 1 else 0
    {
      hide Counted, Sound, Structured, Kept, KernelBuilt, Joined;
      ghost var s0, r := Now(), if freelist != [] then Dir(freelist[0]) else Buf(0);
      if freelist != [] {
        assert freelist[0] in freelist;
        FreeUnheld(held, refc, freelist, lo, PHYSFRAMES, freelist[0]);
        NewDir(s0, freelist[0]);
      }
      c := Kalloc(r);
      if c.Some? {
        ram := ram[c.value := DirOf(map[])];
        refs := refs[r := Pte(c.value, false, false)];
        DirBuilt(s0, Now(), c.value, data);
      }
    }

    /** One row of kmap: its pages are mapped, or there is no frame left for their tables. */
    method MapSegment(d: nat, k: nat, ghost s0: Snap) returns (ok: bool)
      requires Steady() && k < 4 && Dir(d) in refs && KernelBuilt(Now(), d, data, k) && Joined(s0, Now(), d)
      modifies this
      ensures Steady() && Dir(d) in refs && Joined(s0, Now(), d)
      ensures ok <==> |old(freelist)| >= KTabs(data, k + 1) - KTabs(data, k)
      ensures ok ==>
        KernelBuilt(Now(), d, data, k + 1) && |freelist| == |old(freelist)| - (KTabs(data, k + 1) - KTabs(data, k))
      ensures nfail == old(nfail) + if !ok then 1 else 0
    {
      hide Linked, Counted, Sound, Joined, Mapped;
      var g := Segments(data)[k];
      SegmentReady(Now(), d, data, k);
      ok := MapPages(d, g.a, g.n, g.pa, g.w);
      if ok {
        MappedNext(old(Now()), Now(), d, g.a, g.n, g.pa, g.w, g.a + g.n);
        SegmentMapped(old(Now()), Now(), d, data, k);
      }
      JoinedGrown(s0, old(Now()), Now(), d, g.a, g.a + g.n);
    }

    /** setupkvm: a new directory with the kernel half of kmap and an empty user half. It takes 65 frames,
        and when they are not there it gives back every one it took. */
    method SetupKvm() returns (c: Option<nat>)
      requires Steady()
      modifies this
      ensures Steady()
      ensures c.None? <==> |old(freelist)| < 65
      ensures c.None? ==> held == old(held) && refs == old(refs) && Kept(old(Now()), Now(), 0, 0, 0)
      ensures c.Some? ==> |freelist| == |old(freelist)| - 65 && Joined(old(Now()), Now(), c.value)
      ensures c.Some? ==> Dir(c.value) in refs && KernelBuilt(Now(), c.value, data, 4)
      ensures nfail == old(nfail) + if c.None? then 1 else 0
    {
      hide Linked, Counted, Sound, Joined, KernelBuilt;
      ghost var s0 := Now();
      c := AllocDir();
      if c.None? {
        return;
      }
      var d := c.value;
      var k := 0;
      while k < 4
        invariant 0 <= k <= 4 && Steady() && Dir(d) in refs && Joined(s0, Now(), d) && nfail == old(nfail)
        invariant KernelBuilt(Now(), d, data, k) && |freelist| == |old(freelist)| - 1 - KTabs(data, k)
      {
        var ok := MapSegment(d, k, s0);
        if !ok {
          Abandon(d, s0);
          return None;
        }
        k := k + 1;
      }
    }

    /** freevm of a directory still being built takes the memory back to what it was before it. */
    method Abandon(d: nat, ghost s0: Snap)
      requires Steady() && Dir(d) in refs && Joined(s0, Now(), d)
      modifies this
      ensures Steady() && held == s0.held && refs == s0.refs && Kept(s0, Now(), 0, 0, 0)
      ensures nfail == old(nfail)
    {
      hide Counted, Sound, Structured;
      ghost var s1 := Now();
      UndoJoin(s0, s1, d);
      FreeVm(d);
      KeptUndone(s0, s1, Now(), d);
    }

    /** One round of the loop of allocuvm: a zeroed page at `v`. When its table cannot be made the page stays in
        hand. */
    method AllocRound(d: nat, v: nat) returns (ok: bool, mem: Option<nat>)
      requires Steady() && Dir(d) in refs && v < KERNPAGES && User(d, v) !in refs && Buf(0) !in held
      modifies this
      ensures Steady()
      ensures ok <==> |old(freelist)| >= 1 + (if Tab(d, PDX(v)) in old(refs) then 0 else 1)
      ensures ok ==> OnePage(old(Now()), Now(), d, v)
      ensures !ok ==> refs == old(refs) && Kept(old(Now()), Now(), d, 0, 0)
      ensures !ok ==> held == if mem.None? then old(held) else old(held)[Buf(0) := Pte(mem.value, false, false)]
      ensures nfail == old(nfail) + if !ok then 1 else 0
    {
      hide Counted, WritableAlone, EntriesKept, Structured, Kept, TableAdded;
      ok := false;
      ghost var s0 := Now();
      Absent(s0, d, v);
      mem := ZeroPage();
      if mem.None? {
        assert Kept(s0, s0, d, 0, 0) by { FreedNone(s0, d, 0, 0); }
        return;
      }
      var f := mem.value;
      ghost var s1 := Now();
      ok := MapPage(d, v, Pte(f, true, true), Buf(0));
      if ok {
        PageLinked(s0, s1, Now(), d, v, f);
        MoveCounted(held, refc, freelist, lo, PHYSFRAMES, Buf(0), User(d, v), Pte(f, true, true));
        SoundMove(held, Buf(0), User(d, v), Pte(f, true, true));
        held := (held - {Buf(0)})[User(d, v) := Pte(f, true, true)];
      } else {
        KeptAny(s0, Now(), 0, d);
      }
    }

    /** kalloc and memset: a zeroed page in hand. */
    method ZeroPage() returns (mem: Option<nat>)
      requires Steady() && Buf(0) !in held
      modifies this
      ensures Steady() && (mem.None? <==> old(freelist) == [])
      ensures mem.None? ==> Now() == old(Now()) && nfail == old(nfail) + 1
      ensures mem.Some? ==>
        && mem.value < |old(ram)| && (forall r :: r in old(held) ==> old(held)[r].frame != mem.value)
        && |freelist| == |old(freelist)| - 1 && nfail == old(nfail)
        && Now() == old(Now()).(ram := old(ram)[mem.value := Bytes(Filled(0))],
                                held := old(held)[Buf(0) := Pte(mem.value, false, false)], free := |freelist|)
        && Kept(old(Now()), Now(), 0, 0, 0)
        && forall e: nat, x: nat :: Dir(e) in old(refs) ==> Entry(ram, e, x) == Entry(old(ram), e, x)
    {
      hide Counted, WritableAlone;
      ghost var s0 := Now();
      mem := Kalloc(Buf(0));
      if mem.Some? {
        FreshPage(s0, mem.value);
        ram := ram[mem.value := Bytes(Filled(0))];
      }
    }

    /** allocuvm: all the pages from `oldsz` up to `newsz`, zeroed and writable, or (on 0) no user page more than
        before. */
    method AllocUvm(d: nat, oldsz: nat, newsz: nat) returns (sz: nat)
      requires Steady() && Dir(d) in refs && Buf(0) !in held && oldsz < KERNPAGES * PGSIZE
      requires forall v: nat :: PagesOf(oldsz) <= v < PagesOf(newsz) ==> User(d, v) !in refs
      modifies this
      ensures Steady()
      ensures sz == newsz || (sz == oldsz && newsz < oldsz) || sz == 0
      ensures newsz >= KERNPAGES * PGSIZE ==> sz == 0 && Now() == old(Now())
      ensures newsz < oldsz ==> sz == oldsz && Now() == old(Now())
      ensures oldsz <= newsz < KERNPAGES * PGSIZE ==>
                var a, b := PagesOf(oldsz), PagesOf(newsz);
                if |old(freelist)| >= Needs(old(refs), d, a, b)
                then sz == newsz && Extended(old(Now()), Now(), d, a, b)
                else sz == 0 && Grown(old(Now()), Now(), d, 0, 511) && Kept(old(Now()), Now(), d, 0, 0)
      ensures nfail == old(nfail) + if oldsz <= newsz < KERNPAGES * PGSIZE
        && |old(freelist)| < Needs(old(refs), d, PagesOf(oldsz), PagesOf(newsz)) then 1 else 0
    {
      hide Linked, Counted, Sound, Extended, Kept, Needs;
      if newsz >= KERNPAGES * PGSIZE {
        return 0;
      }
      if newsz < oldsz {
        return oldsz;
      }
      ghost var s0 := Now();
      ghost var a, b := PagesOf(oldsz), PagesOf(newsz);
      var v := PagesOf(oldsz);
      ExtendedNone(s0, d, v);
      while v * PGSIZE < newsz
        invariant a <= v <= b && Steady() && Extended(s0, Now(), d, a, v) && nfail == old(nfail)
      {
        ghost var s1 := Now();
        ExtendedNext(s0, s1, d, a, v, b);
        var ok, mem := AllocRound(d, v);
        if !ok {
          AllocUndo(d, newsz, oldsz, mem, s0, s1, v);
          return 0;
        }
        ExtendedStep(s0, s1, Now(), d, a, v);
        v := v + 1;
      }
      ExtendedNext(s0, Now(), d, a, v, b);
      return newsz;
    }

    /** The two failure exits of allocuvm. */
    method AllocUndo(d: nat, newsz: nat, oldsz: nat, mem: Option<nat>, ghost s0: Snap, ghost s1: Snap, ghost v: nat)
      requires Steady() && Linked(s0) && Dir(d) in s0.refs && PagesOf(newsz) <= KERNPAGES && Buf(0) !in s0.held
      requires PagesOf(oldsz) <= v < PagesOf(newsz) && oldsz < newsz && Extended(s0, s1, d, PagesOf(oldsz), v)
      requires refs == s1.refs && Kept(s1, Now(), d, 0, 0)
      requires held == if mem.None? then s1.held else s1.held[Buf(0) := Pte(mem.value, false, false)]
      requires forall x: nat :: PagesOf(oldsz) <= x < PagesOf(newsz) ==> User(d, x) !in s0.refs
      modifies this
      ensures Steady() && Grown(s0, Now(), d, 0, 511) && Kept(s0, Now(), d, 0, 0)
      ensures nfail == old(nfail)
    {
      hide Counted, Sound, Structured, TabOk, UserOk, Kept;
      ghost var a, b := PagesOf(oldsz), PagesOf(newsz);
      ghost var s2 := Now();
      var _ := DeallocUvm(d, newsz, oldsz);
      ghost var s3 := Now();
      if mem.Some? {
        Release(mem.value, Buf(0));
      }
      Undone(s0, s1, s2, s3, Now(), d, a, v, b);
    }

    /** A new value for the entry of a mapped user page, with the frame it has now. */
    method Repoint(d: nat, v: nat, t: nat, p: Pte)
      requires Steady() && User(d, v) in refs && Tab(d, PDX(v)) in refs && refs[Tab(d, PDX(v))].frame == t
      requires p.frame == refs[User(d, v)].frame && (p.w ==> Holders(held, p.frame) == {User(d, v)})
      modifies this`ram, this`refs, this`held
      ensures Steady() && refs == old(refs)[User(d, v) := p] && held == old(held)[User(d, v) := p]
      ensures Kept(old(Now()), Now(), d, v, v + 1)
    {
      hide WritableAlone, Owned, Counted, Entry, Mapping;
      ghost var s0, u := Now(), User(d, v);
      assert TabOk(ram, refs, d, PDX(v)) && UserOk(ram, refs, d, v);
      SetEntry(s0, d, v, Some(p), u);
      MoveCounted(held, refc, freelist, lo, PHYSFRAMES, u, u, p);
      SoundMove(held, u, u, p);
      ram := ram[t := TabOf(ram[t].pte[PTX(v) := p])];
      refs := refs[u := p];
      held := (held - {u})[u := p];
      assert held == old(held)[u := p];
    }

    /** incr_refc: `r` shares the read-only page of `r0`. */
    method IncrRefc(f: nat, ghost r0: Ref, ghost r: Ref, ghost p: Pte)
      requires Books() && r0 in held && held[r0].frame == f == p.frame && r0.User? && !held[r0].w && !p.w
      requires r !in held && r.User? && forall a :: a in held && held[a].frame == f ==> !(a.User? && a.d == r.d)
      modifies this`refc, this`held
      ensures Books() && held == old(held)[r := p]
    {
      ShareCounted(held, refc, freelist, lo, PHYSFRAMES, r0, r, p);
      SoundShare(held, r0, r, p);
      refc := refc[f := refc[f] + 1];
      held := held[r := p];
    }

    /** One round of the loop of copyuvm: the page of the parent becomes read-only, and the child shares it. */
    method CopyRound(d: nat, c: nat, v: nat, ghost s0: Snap) returns (ok: bool)
      requires Steady() && Dir(c) in refs && Copied(s0, Now(), d, c, v, data) && v < KERNPAGES && User(d, v) in s0.refs
        && Linked(s0)
      modifies this
      ensures Steady() && Dir(c) in refs
      ensures ok <==> old(freelist) != [] || PTX(v) != 0
      ensures ok ==> Copied(s0, Now(), d, c, v + 1, data)
      ensures !ok ==> Joining(s0, Now(), d, c, v + 1)
      ensures nfail == old(nfail) + if !ok then 1 else 0
    {
      hide Counted, WritableAlone, Owned, Copied, EntriesKept, DataKept, Joining, Entry, Sharing;
      CopiedNext(s0, Now(), d, c, v, data);
      var t := WalkPgdir(d, v, false);
      var p := ram[t.value].pte[PTX(v)].(w := false);
      Repoint(d, v, t.value, p);
      ghost var s2 := Now();
      CopiedProtect(s0, old(Now()), s2, d, c, v, data);
      assert UserOk(ram, refs, d, v);
      ok := MapPage(c, v, p, User(d, v));
      if !ok {
        return;
      }
      ghost var s3 := Now();
      NotYetShared(s2, s3, d, c, v);
      IncrRefc(p.frame, User(d, v), User(c, v), p);
      CopiedStep(s0, old(Now()), s2, s3, d, c, v, data);
    }

    /** copyuvm: a directory that shares every page of the parent read-only, or nothing but write protection. */
    method CopyUvm(d: nat, sz: nat) returns (c: Option<nat>, ghost n: nat)
      requires Steady() && Dir(d) in refs && PagesOf(sz) <= KERNPAGES
      requires forall v: nat :: v < PagesOf(sz) <==> User(d, v) in refs
      modifies this
      ensures Steady()
      // one frame for the directory, 64 for the kernel half, one for each 4 MiB of user memory
      ensures c.Some? <==> |old(freelist)| >= 65 + UserTabs(PagesOf(sz))
      ensures c.Some? ==> n == PagesOf(sz) && Dir(c.value) in refs && |freelist| == |old(freelist)| - 65 - UserTabs(n)
      ensures c.Some? ==> Copied(old(Now()), Now(), d, c.value, n, data)
      ensures c.None? ==> n <= PagesOf(sz) && refs == Protected(old(refs), d, n) && held == Protected(old(held), d, n)
      ensures c.None? ==> Kept(old(Now()), Now(), d, 0, n)
      ensures nfail == old(nfail) + if c.None? then 1 else 0
    {
      hide Linked, Counted, Sound, Copied, Kept, Joined, Joining, KernelBuilt, Protected;
      ghost var s0 := Now();
      n := 0;
      c := SetupKvm();
      if c.None? {
        ProtectedNone(s0, Now(), d);
        return;
      }
      CopiedNone(s0, Now(), d, c.value, data);
      var v := 0;
      while v * PGSIZE < sz
        invariant v <= PagesOf(sz) && Steady() && Dir(c.value) in refs && Copied(s0, Now(), d, c.value, v, data)
        invariant nfail == old(nfail)
      {
        ghost var f1 := |freelist|;
        CopiedFree(s0, Now(), d, c.value, v, data);
        var ok := CopyRound(d, c.value, v, s0);
        if !ok {
          n := v + 1;
          assert UserTabs(v) < UserTabs(v + 1) <= UserTabs(PagesOf(sz));
          CopyUndo(d, c.value, n, s0);
          return None, n;
        }
        v := v + 1;
      }
      n := v;
      CopiedFree(s0, Now(), d, c.value, v, data);
    }

    /** The failure exit of copyuvm. */
    method CopyUndo(d: nat, c: nat, ghost n: nat, ghost s0: Snap)
      requires Steady() && Dir(c) in refs && Joining(s0, Now(), d, c, n)
      modifies this
      ensures Steady() && refs == Protected(s0.refs, d, n) && held == Protected(s0.held, d, n)
        && Kept(s0, Now(), d, 0, n)
      ensures nfail == old(nfail)
    {
      hide Counted, Sound, Structured;
      ghost var s1 := Now();
      FreeVm(c);
      JoiningUndone(s0, s1, Now(), d, c, n);
    }

    /** CoW_handler on a page of a user half: a page shared by others is copied, a page held by nobody else is made
        writable. */
    method CowHandler(d: nat, v: nat) returns (out: Fault)
      requires Steady() && Dir(d) in refs && v < KERNPAGES && Buf(0) !in held
      requires User(d, v) in refs ==> refs[User(d, v)].u
      modifies this
      ensures Steady() && Kept(old(Now()), Now(), d, v, v + 1)
      ensures out == if User(d, v) !in old(refs) then NotMapped
                     else if Holders(old(held), old(refs)[User(d, v)].frame) == {User(d, v)} then Reenabled
                     else if old(freelist) == [] then OutOfMemory else CopyMade
      ensures out.NotMapped? || out.OutOfMemory? ==> Now() == old(Now())
      ensures out.Reenabled? || out.CopyMade? ==>
                var f := if out.CopyMade? then old(freelist)[0] else old(refs)[User(d, v)].frame;
                && refs == old(refs)[User(d, v) := Pte(f, true, true)]
                && held == old(held)[User(d, v) := Pte(f, true, true)]
                && freelist == if out.CopyMade? then old(freelist)[1..] else old(freelist)
      ensures nfail == old(nfail) + if out.OutOfMemory? then 1 else 0
    {
      hide WritableAlone, Owned, EntriesKept;
      var t := WalkPgdir(d, v, false);
      assert TabOk(ram, refs, d, PDX(v)) && UserOk(ram, refs, d, v);
      EntriesWiden(Now(), Now(), d);
      if t.None? || PTX(v) !in ram[t.value].pte {
        KeptSame(Now(), d, v);
        return NotMapped;
      }
      var p := ram[t.value].pte[PTX(v)];
      HolderCounted(held, refc, freelist, lo, PHYSFRAMES, User(d, v));
      if refc[p.frame] > 1 {
        var mem := Kalloc(Buf(0));
        if mem.None? {
          KeptSame(Now(), d, v);
          return OutOfMemory;
        }
        CopyPage(d, v, t.value, mem.value, old(Now()));
        return CopyMade;
      } else {
        Repoint(d, v, t.value, p.(w := true));
        return Reenabled;
      }
    }

    /** The copying branch of CoW_handler: memmove, the new entry, and decr_refc of the old frame. */
    method CopyPage(d: nat, v: nat, t: nat, mem: nat, ghost s0: Snap)
      requires Books() && Linked(s0) && Owned(s0.held) && Buf(0) !in s0.held && User(d, v) in s0.refs
        && mem < PHYSFRAMES
      requires Tab(d, PDX(v)) in s0.refs && s0.refs[Tab(d, PDX(v))].frame == t && s0.ram == ram && s0.refs == refs
      requires held == s0.held[Buf(0) := Pte(mem, false, false)] && forall r :: r in s0.held ==> s0.held[r].frame != mem
      requires s0.refs[User(d, v)].frame < |refc| && refc[s0.refs[User(d, v)].frame] > 1
      modifies this`ram, this`refs, this`held, this`refc
      ensures Steady() && Kept(s0, Now(), d, v, v + 1)
      ensures refs == s0.refs[User(d, v) := Pte(mem, true, true)] && held == s0.held[User(d, v) := Pte(mem, true, true)]
    {
      hide WritableAlone, Counted;
      ghost var u := User(d, v);
      var q := Pte(mem, true, true);
      assert TabOk(ram, refs, d, PDX(v)) && UserOk(ram, refs, d, v);
      var pa := ram[t].pte[PTX(v)].frame;
      CopyLinked(s0, d, v, mem);
      DropCounted(held, refc, freelist, lo, PHYSFRAMES, u);
      SoundLess(held, {u});
      ram := ram[mem := ram[pa]];
      ram := ram[t := TabOf(ram[t].pte[PTX(v) := q])];
      refc := refc[pa := refc[pa] - 1];
      held := held - {u};
      MoveCounted(held, refc, freelist, lo, PHYSFRAMES, Buf(0), u, q);
      SoundMove(held, Buf(0), u, q);
      held := (held - {Buf(0)})[u := q];
      refs := refs[u := q];
      assert held == s0.held[u := q];
    }

    /** What the memory unit finds for a store to page `v`. */
    method Writable(d: nat, v: nat) returns (ok: bool)
      requires Steady() && Dir(d) in refs && v < KERNPAGES
      ensures ok <==> User(d, v) in refs && refs[User(d, v)].w
    {
      assert TabOk(ram, refs, d, PDX(v)) && UserOk(ram, refs, d, v);
      if PDX(v) !in ram[d].pde {
        return false;
      }
      var t := ram[ram[d].pde[PDX(v)]].pte;
      return PTX(v) in t && t[PTX(v)].w;
    }

    method Present(d: nat, v: nat) returns (ok: bool)
      requires Steady() && Dir(d) in refs && v < KERNPAGES
      ensures ok <==> User(d, v) in refs
    {
      assert TabOk(ram, refs, d, PDX(v)) && UserOk(ram, refs, d, v);
      return PDX(v) in ram[d].pde && PTX(v) in ram[ram[d].pde[PDX(v)]].pte;
    }

    /** A store through a writable entry: new bytes in one page, and in nothing that anyone else reads. */
    method StorePage(d: nat, v: nat, b: Page)
      requires Steady() && User(d, v) in refs && refs[User(d, v)].w && |b| == PGSIZE
      modifies this`ram
      ensures Steady() && At(Now(), User(d, v)) == Bytes(b)
      ensures forall r :: r in held && r != User(d, v) && (r.User? || r.Buf?) ==> At(Now(), r) == At(old(Now()), r)
      ensures EntriesKept(old(Now()), Now(), 0, 0, 0)
    {
      hide Counted;
      ghost var u := User(d, v);
      assert UserOk(ram, refs, d, v);
      var f := Frame(d, v);
      assert forall r :: r in held ==> Alone(held, u, r) && Apart(held, u, r);
      ScribbleStructured(ram, refs, f, Bytes(b));
      ram := ram[f := Bytes(b)];
    }

    /** A user store to page `v`: the memory unit, the fault handler if it has to, and the store done again. */
    method UserStore(d: nat, v: nat, off: nat, x: int) returns (out: Fault)
      requires Steady() && Dir(d) in refs && v < KERNPAGES && off < PGSIZE && Buf(0) !in held
      requires User(d, v) in refs ==> refs[User(d, v)].u
      modifies this
      ensures Steady()
      ensures out.NotMapped? <==> User(d, v) !in old(refs)
      ensures out.NotMapped? || out.OutOfMemory? ==> Now() == old(Now())
      ensures User(d, v) in old(refs) ==>
                var alone := Holders(old(held), old(refs)[User(d, v)].frame) == {User(d, v)};
                && (out.OutOfMemory? <==> !alone && old(freelist) == [])
                && (!out.OutOfMemory? ==> |freelist| == |old(freelist)| - if alone then 0 else 1)
      ensures out.CopyMade? || out.Reenabled? ==> Changed(old(Now()), Now(), d, v, off, x)
      ensures nfail == old(nfail) + if out.OutOfMemory? then 1 else 0
    {
      hide Counted, Owned, EntriesKept, Entry;
      ghost var s0, u := Now(), User(d, v);
      assert UserOk(ram, refs, d, v);
      var writable := Writable(d, v);
      out := Reenabled;
      KeptSame(s0, d, v);
      if !writable {
        out := CowHandler(d, v);
        if out.NotMapped? || out.OutOfMemory? {
          return;
        }
      } else {
        WritableHolder(held, u);
        assert refs == refs[u := refs[u]] && held == held[u := refs[u]];
      }
      ghost var s1 := Now();
      UserAt(s1, d, v);
      StorePage(d, v, ram[Frame(d, v)].b[off := x]);
      EntriesChain(s0, s1, Now(), d, v);
    }

    /** The frame a mapped page is in. */
    function Frame(d: nat, v: nat): (f: nat)
      requires Structured(ram, refs) && User(d, v) in refs
      reads this
      ensures f == refs[User(d, v)].frame
    {
      assert UserOk(ram, refs, d, v) && TabOk(ram, refs, d, PDX(v));
      ram[ram[d].pde[PDX(v)]].pte[PTX(v)].frame
    }
  }

  /** `s` adds to `s0` table `i` of directory `d` if it was missing, taking one frame. */
  ghost predicate TableAdded(s0: Snap, s: Snap, d: nat, i: nat) {
    if Tab(d, i) in s0.refs then
      s.held == s0.held && s.refs == s0.refs && s.free == s0.free
    else
      && Tab(d, i) !in s0.held && Tab(d, i) in s.held && s.held == s0.held[Tab(d, i) := s.held[Tab(d, i)]]
      && s.refs == s0.refs[Tab(d, i) := s.held[Tab(d, i)]] && s0.free == s.free + 1
  }

  /** `s` adds to `s0` only tables of directory `d`, numbered from `i` to `j`. */
  ghost predicate Grown(s0: Snap, s: Snap, d: nat, i: nat, j: nat) {
    && (forall r :: r in s0.refs ==> r in s.refs && s.refs[r] == s0.refs[r])
    && (forall r :: r in s0.held ==> r in s.held && s.held[r] == s0.held[r])
    && (forall r :: r in s.refs && r !in s0.refs ==> r.Tab? && r.d == d && i <= r.i <= j)
    && (forall r :: r in s.held && r !in s0.held ==> r.Tab? && r.d == d && i <= r.i <= j)
  }

  ghost predicate Unmapped(s: Snap, d: nat, a: nat, n: nat)
    requires n >= 1
  {
    && (forall v: nat :: a <= v < a + n ==> Entry(s.ram, d, v).None?)
    && (forall i: nat :: PDX(a) < i <= PDX(a + n - 1) ==> Tab(d, i) !in s.refs)
  }

  /** How many tables mapping `n` pages from `a` adds: the first may be there, the others are not. */
  ghost function Missing(refs: Refs, d: nat, a: nat, n: nat): nat
    requires n >= 1
  {
    PDX(a + n - 1) - PDX(a) + if Tab(d, PDX(a)) in refs then 0 else 1
  }

  /** Pages [a, v) of a segment are mapped: the state between two rounds of mappages. */
  ghost predicate Mapped(s0: Snap, s: Snap, d: nat, a: nat, n: nat, pa: nat, w: bool, v: nat)
    requires n >= 1
  {
    && a <= v <= a + n && Kept(s0, s, d, a, v) && Grown(s0, s, d, PDX(a), PDX(a + n - 1))
    && (forall x: nat :: a <= x < v ==> Entry(s.ram, d, x) == Some(Pte(pa + x - a, w, false)))
    && (forall x: nat :: v <= x < a + n ==> Entry(s.ram, d, x).None?)
    && (v == a ==> s == s0)
    && (v > a ==>
      s.free == s0.free - Missing(s0.refs, d, a, v - a)
      && forall i: nat :: PDX(a) <= i <= PDX(v - 1) ==> Tab(d, i) in s.refs)
    && (forall i: nat :: (v > a ==> PDX(v - 1) < i) && PDX(a) < i <= PDX(a + n - 1) ==> Tab(d, i) !in s.refs)
  }

  lemma MappedNone(s: Snap, d: nat, a: nat, n: nat, pa: nat, w: bool)
    requires n >= 1 && Unmapped(s, d, a, n)
    ensures Mapped(s, s, d, a, n, pa, w, a)
  {
  }

  /** What the next round needs, and what an interrupted run of rounds has done. */
  lemma MappedNext(s0: Snap, s: Snap, d: nat, a: nat, n: nat, pa: nat, w: bool, v: nat)
    requires n >= 1 && Mapped(s0, s, d, a, n, pa, w, v)
    ensures v < a + n ==> Entry(s.ram, d, v).None?
    ensures Kept(s0, s, d, a, a + n) && Grown(s0, s, d, PDX(a), PDX(a + n - 1))
    ensures v < a + n && s.free == 0 && Tab(d, PDX(v)) !in s.refs ==> s0.free < Missing(s0.refs, d, a, n)
    ensures v == a + n ==> s0.free >= Missing(s0.refs, d, a, n)
  {
    assert v < a + n ==> PDX(a) <= PDX(v) <= PDX(a + n - 1);
  }

  lemma MappedKept(s0: Snap, s1: Snap, s: Snap, d: nat, a: nat, n: nat, pa: nat, w: bool, v: nat)
    requires n >= 1 && Mapped(s0, s1, d, a, n, pa, w, v) && v < a + n && Dir(d) in s0.refs
    requires Kept(s1, s, d, v, v + 1) && TableAdded(s1, s, d, PDX(v)) && PDX(a) <= PDX(v) <= PDX(a + n - 1)
    ensures Kept(s0, s, d, a, v + 1) && Grown(s0, s, d, PDX(a), PDX(a + n - 1)) && Dir(d) in s1.refs && Dir(d) in s.refs
  {
    hide Kept, Entry, Missing, PDX;
    KeptBoth(s0, s1, s, d, a, v, v, v + 1);
  }

  lemma MappedEntries(s0: Snap, s1: Snap, s: Snap, d: nat, a: nat, n: nat, pa: nat, w: bool, v: nat)
    requires n >= 1 && Mapped(s0, s1, d, a, n, pa, w, v) && v < a + n && Dir(d) in s1.refs && Dir(d) in s.refs
    requires Kept(s1, s, d, v, v + 1) && Entry(s.ram, d, v) == Some(Pte(pa + v - a, w, false))
    ensures forall x: nat :: a <= x < v + 1 ==> Entry(s.ram, d, x) == Some(Pte(pa + x - a, w, false))
    ensures forall x: nat :: v + 1 <= x < a + n ==> Entry(s.ram, d, x).None?
  {
    hide DataKept, Grown, Entry, Missing, PDX;
    forall x: nat | a <= x < a + n && x != v ensures Entry(s.ram, d, x) == Entry(s1.ram, d, x) {}
  }

  lemma MappedStep(s0: Snap, s1: Snap, s: Snap, d: nat, a: nat, n: nat, pa: nat, w: bool, v: nat)
    requires n >= 1 && Mapped(s0, s1, d, a, n, pa, w, v) && v < a + n && Dir(d) in s0.refs
    requires Kept(s1, s, d, v, v + 1) && Entry(s.ram, d, v) == Some(Pte(pa + v - a, w, false))
    requires TableAdded(s1, s, d, PDX(v))
    ensures Mapped(s0, s, d, a, n, pa, w, v + 1)
  {
    hide Kept, Entry, Grown;
    assert PDX(a) <= PDX(v) <= PDX(a + n - 1);
    assert v > a ==> PDX(v - 1) <= PDX(v) <= PDX(v - 1) + 1;
    MappedKept(s0, s1, s, d, a, n, pa, w, v);
    MappedEntries(s0, s1, s, d, a, n, pa, w, v);
  }

  ghost function TabRange(refs: Refs, d: nat, n: nat): set<Ref> {
    set r | r in refs && r.Tab? && r.d == d && r.i < n
  }

  ghost predicate Dropped(s0: Snap, s: Snap, gone: set<Ref>) {
    s.held == s0.held - gone && s.refs == s0.refs - gone
  }

  ghost predicate Freed(s0: Snap, s: Snap, d: nat, a: nat, b: nat) {
    Dropped(s0, s, UserRange(s0.refs, d, a, b))
  }

  lemma FreedNone(s: Snap, d: nat, a: nat, b: nat)
    ensures Kept(s, s, d, a, b) && Freed(s, s, d, a, if a < b then a else b) && (b <= a ==> Freed(s, s, d, a, b))
  {
  }

  lemma FreedStep(s0: Snap, s1: Snap, s: Snap, d: nat, a: nat, v1: nat, v: nat, b: nat)
    requires a <= v1 < v && v1 < b && Freed(s0, s1, d, a, v1) && Freed(s1, s, d, v1, v)
    requires v <= b || (s.held == s1.held && s.refs == s1.refs)
    requires Kept(s0, s1, d, a, b) && Kept(s1, s, d, v1, v1 + 1)
    ensures Freed(s0, s, d, a, if v < b then v else b) && Kept(s0, s, d, a, b)
    ensures Dir(d) in s1.refs ==> Dir(d) in s.refs
  {
    var w := if v < b then v else b;
    assert UserRange(s0.refs, d, a, w) == UserRange(s0.refs, d, a, v1) + UserRange(s1.refs, d, v1, w);
  }

  /** What a walk without a table, or without an entry, says about the user pages. */
  lemma NoEntries(ram: Ram, refs: Refs, d: nat, v: nat)
    requires Structured(ram, refs) && Dir(d) in refs && v < KERNPAGES
    ensures Tab(d, PDX(v)) !in refs ==> UserRange(refs, d, v, (PDX(v) + 1) * NENTRIES) == {}
    ensures TabOk(ram, refs, d, PDX(v)) && UserOk(ram, refs, d, v)
    ensures UserRange(refs, d, v, v + 1) == if User(d, v) in refs then {User(d, v)} else {}
  {
    assert TabOk(ram, refs, d, PDX(v)) && UserOk(ram, refs, d, v);
    forall w: nat | v <= w < (PDX(v) + 1) * NENTRIES && Tab(d, PDX(v)) !in refs ensures User(d, w) !in refs {
      assert PDX(w) == PDX(v);
      assert UserOk(ram, refs, d, w);
    }
  }

  /** A kernel owner is alone. */
  lemma LastHolder(held: Refs, r: Ref)
    requires Owned(held) && r in held && !r.User?
    ensures Holders(held, held[r].frame) == {r}
  {
    forall a | a in Holders(held, held[r].frame) ensures a == r {
      assert Apart(held, r, a);
    }
  }

  /** A row of the kmap table, in pages. */
  datatype Segment = Segment(a: nat, n: nat, pa: nat, w: bool)

  function Segments(data: nat): seq<Segment>
    requires 0x100 < data < PHYSFRAMES
  {
    [ Segment(KERNPAGES, 0x100, 0, true),
      Segment(KERNPAGES + 0x100, data - 0x100, 0x100, false),
      Segment(KERNPAGES + data, PHYSFRAMES - data, data, true),
      Segment(0xFE000, 0x2000, 0xFE000, true) ]
  }

  function SegmentStart(data: nat, k: nat): nat {
    match k
    case 0 => KERNPAGES
    case 1 => KERNPAGES + 0x100
    case 2 => KERNPAGES + data
    case 3 => 0xFE000
    case _ => ALLPAGES
  }

  /** Page tables used by the first `k` segments. */
  function KTabs(data: nat, k: nat): nat {
    match k
    case 0 => 0
    case 1 => 1
    case 2 => PDX(KERNPAGES + data) + (if PTX(data) == 0 then 0 else 1) - 512
    case 3 => 56
    case _ => 64
  }

  predicate KTab(data: nat, k: nat, i: nat) {
    512 <= i < 512 + KTabs(data, if k < 3 then k else 3) || (k >= 4 && 1016 <= i < 1024)
  }

  /** The first `k` segments of the kernel half are in place, and nothing else. */
  ghost predicate KernelBuilt(s: Snap, d: nat, data: nat, k: nat) {
    && (forall v: nat :: v < ALLPAGES ==>
          Entry(s.ram, d, v) == if KERNPAGES <= v < SegmentStart(data, k) then KMap(data, v) else None)
    && (forall i: nat :: Tab(d, i) in s.refs <==> KTab(data, k, i))
  }

  lemma SegmentReady(s: Snap, d: nat, data: nat, k: nat)
    requires 0x100 < data < PHYSFRAMES && k < 4 && KernelBuilt(s, d, data, k)
    ensures var g := Segments(data)[k];
            && KERNPAGES <= g.a && 1 <= g.n && g.a + g.n <= ALLPAGES && Unmapped(s, d, g.a, g.n)
            && Missing(s.refs, d, g.a, g.n) == KTabs(data, k + 1) - KTabs(data, k)
  {
  }

  lemma SegmentMapped(s1: Snap, s: Snap, d: nat, data: nat, k: nat)
    requires 0x100 < data < PHYSFRAMES && k < 4 && KernelBuilt(s1, d, data, k) && Dir(d) in s1.refs && Dir(d) in s.refs
    requires var g := Segments(data)[k]; Mapped(s1, s, d, g.a, g.n, g.pa, g.w, g.a + g.n)
    ensures KernelBuilt(s, d, data, k + 1) && s.free == s1.free - (KTabs(data, k + 1) - KTabs(data, k))
  {
    hide Structured, Entry, PTX;
    SegmentReady(s1, d, data, k);
    var g := Segments(data)[k];
    forall v: nat | v < ALLPAGES
      ensures Entry(s.ram, d, v) == if KERNPAGES <= v < SegmentStart(data, k + 1) then KMap(data, v) else None
    {
      if v < g.a || g.a + g.n <= v { assert Entry(s.ram, d, v) == Entry(s1.ram, d, v); }
    }
    forall i: nat ensures Tab(d, i) in s.refs <==> KTab(data, k + 1, i) {
      assert Tab(d, i) in s1.refs <==> KTab(data, k, i);
    }
  }

  /** `after` is `before` and mappings of the new directory `d`. */
  ghost predicate Beside(before: Refs, after: Refs, d: nat) {
    && (forall r :: r in before ==> r in after && after[r] == before[r])
    && (forall r :: r in before && Mapping(r) ==> r.d != d)
    && (forall r :: r in after && r !in before ==> Mapping(r) && r.d == d)
  }

  /** Directory `d` was added to state `s0`, and that is all that happened to it. */
  ghost predicate Joined(s0: Snap, s: Snap, d: nat) {
    Beside(s0.refs, s.refs, d) && Beside(s0.held, s.held, d) && Kept(s0, s, d, 0, 0)
  }

  lemma JoinedGrown(s0: Snap, s1: Snap, s: Snap, d: nat, a: nat, b: nat)
    requires Joined(s0, s1, d) && a < b && Kept(s1, s, d, a, b) && Grown(s1, s, d, PDX(a), PDX(b - 1))
    ensures Joined(s0, s, d) && (Dir(d) in s1.refs ==> Dir(d) in s.refs)
  {
    forall e: nat, v: nat | Dir(e) in s0.refs ensures Entry(s.ram, e, v) == Entry(s0.ram, e, v) {
      assert Entry(s1.ram, e, v) == Entry(s0.ram, e, v);
    }
  }

  lemma UndoJoin(s0: Snap, s: Snap, d: nat)
    requires Joined(s0, s, d) && Linked(s)
    ensures s.refs - AllOf(s.refs, d) == s0.refs && s.held - AllOf(s.refs, d) == s0.held
  {
  }

  lemma KeptUndone(s0: Snap, s1: Snap, s: Snap, d: nat)
    requires Joined(s0, s1, d) && Kept(s1, s, d, 0, 0) && s.refs == s0.refs && s.held == s0.held
    ensures Kept(s0, s, 0, 0, 0)
  {
    forall e: nat, v: nat | Dir(e) in s0.refs ensures Entry(s.ram, e, v) == Entry(s0.ram, e, v) {
      assert Entry(s1.ram, e, v) == Entry(s0.ram, e, v);
    }
  }

  /** `s` is `s0` with a zeroed, writable user page at `v` that nobody else holds, and its table if it was missing. */
  ghost predicate OnePage(s0: Snap, s: Snap, d: nat, v: nat) {
    && User(d, v) in s.refs && User(d, v) in s.held && User(d, v) !in s0.held
    && s.refs[User(d, v)].w && s.refs[User(d, v)].u && At(s, User(d, v)) == Bytes(Filled(0))
    && TableAdded(s0, s.(refs := s.refs - {User(d, v)}, held := s.held - {User(d, v)}, free := s.free + 1), d, PDX(v))
    && Kept(s0, s, d, v, v + 1)
  }

  lemma EntriesWiden(s0: Snap, s: Snap, d: nat)
    requires forall e: nat, v: nat :: Dir(e) in s0.refs ==> Entry(s.ram, e, v) == Entry(s0.ram, e, v)
    ensures EntriesKept(s0, s, d, 0, 0)
  {
  }

  lemma NothingCounted(refc: seq<int>, lo: nat)
    requires |refc| == PHYSFRAMES && (forall g :: 0 <= g < PHYSFRAMES ==> refc[g] == 0) && lo <= PHYSFRAMES
    ensures Counted(map[], refc, [], lo, lo)
  {
    assert forall g: nat :: FrameOk(map[], refc, [], lo, lo, g);
  }

  lemma NothingLinked(ram: Ram)
    ensures Sound(map[]) && forall n: nat :: Linked(Snap(ram, map[], map[], n))
  {}

  lemma DirBuilt(s0: Snap, s: Snap, d: nat, data: nat)
    requires Linked(s0) && d < |s0.ram| && forall r :: r in s0.held ==> s0.held[r].frame != d
    requires s.ram == s0.ram[d := DirOf(map[])] && s.refs == s0.refs[Dir(d) := Pte(d, false, false)]
    requires s.held == s0.held[Dir(d) := Pte(d, false, false)]
    ensures Linked(s) && Joined(s0, s, d) && KernelBuilt(s, d, data, 0)
  {
    hide Structured, Kept;
    NewDir(s0, d);
    NoKernel(s, d, data);
    hide Entry, KernelBuilt;
    KeptHeld(s0, s0.(ram := s.ram, refs := s.refs), s, d);
  }

  lemma NoKernel(s: Snap, d: nat, data: nat)
    requires (forall v: nat :: Entry(s.ram, d, v) == None) && forall i: nat :: Tab(d, i) !in s.refs
    ensures KernelBuilt(s, d, data, 0)
  {
    hide Entry;
  }

  lemma KeptHeld(s0: Snap, s1: Snap, s: Snap, d: nat)
    requires Kept(s0, s1, d, 0, 0) && s.ram == s1.ram && s.refs == s1.refs && s1.held == s0.held
    requires forall r :: r in s0.held ==> r in s.held && s.held[r] == s0.held[r]
    requires forall r :: r in s.held && r !in s0.held ==> Mapping(r) && !r.User?
    ensures Kept(s0, s, d, 0, 0)
  {
    hide Entry;
  }

  lemma Absent(s: Snap, d: nat, v: nat)
    requires Linked(s) && Dir(d) in s.refs && v < KERNPAGES && User(d, v) !in s.refs
    ensures Entry(s.ram, d, v).None? && User(d, v) !in s.held
  {
    assert UserOk(s.ram, s.refs, d, v);
  }

  lemma UnmapStart(s: Snap, d: nat, v: nat)
    requires Linked(s) && Sound(s.held) && User(d, v) in s.refs && Tab(d, PDX(v)) in s.refs
    ensures var t, u := s.refs[Tab(d, PDX(v))].frame, User(d, v);
      && t < |s.ram| && s.ram[t].TabOf? && PTX(v) in s.ram[t].pte && u in s.held
      && s.ram[t].pte[PTX(v)].frame == s.refs[u].frame == s.held[u].frame && s.held[u].frame != t
  {
    assert TabOk(s.ram, s.refs, d, PDX(v)) && UserOk(s.ram, s.refs, d, v);
    assert Apart(s.held, User(d, v), Tab(d, PDX(v)));
  }

  /** An entry is cleared, and its frame scribbled over if nobody else holds it. */
  lemma UnmapEnd(s0: Snap, s: Snap, d: nat, v: nat)
    requires Linked(s0) && Sound(s0.held) && User(d, v) in s0.refs && Tab(d, PDX(v)) in s0.refs
    requires s.refs == s0.refs - {User(d, v)} && s.held == s0.held - {User(d, v)}
    requires var t, f := s0.refs[Tab(d, PDX(v))].frame, s0.refs[User(d, v)].frame;
      && t < |s0.ram| && s0.ram[t].TabOf? && f < |s0.ram| && f != t
      && var ram := if Holders(s0.held, f) == {User(d, v)} then s0.ram[f := Bytes(Filled(1))] else s0.ram;
         s.ram == ram[t := TabOf(s0.ram[t].pte - {PTX(v)})]
    ensures Linked(s) && Kept(s0, s, d, v, v + 1)
  {
    var u, f := User(d, v), s0.refs[User(d, v)].frame;
    assert TabOk(s0.ram, s0.refs, d, PDX(v)) && UserOk(s0.ram, s0.refs, d, v);
    SetEntry(s0, d, v, None, u);
    var s1 := s0.(ram := PutEntry(s0.ram, s0.refs, d, v, None), refs := s0.refs - {u});
    if Holders(s0.held, f) == {u} {
      ScribbleFreed(s1, u);
      assert s.ram == s1.ram[f := Bytes(Filled(1))];
    } else {
      assert s.ram == s1.ram;
    }
  }

  /** memset of a frame nobody held before. */
  lemma FreshPage(s: Snap, f: nat)
    requires Linked(s) && f < |s.ram| && forall r :: r in s.held ==> s.held[r].frame != f
    ensures Structured(s.ram[f := Bytes(Filled(0))], s.refs)
    ensures Kept(s, s.(ram := s.ram[f := Bytes(Filled(0))]), 0, 0, 0)
    ensures forall d: nat, v: nat :: Dir(d) in s.refs ==>
      Entry(s.ram[f := Bytes(Filled(0))], d, v) == Entry(s.ram, d, v)
  {
    assert forall r :: r in s.refs ==> s.held[r].frame != f;
    ScribbleStructured(s.ram, s.refs, f, Bytes(Filled(0)));
  }

  /** A page zeroed in a buffer, mapped, and its buffer handed over to the mapping. */
  ghost predicate PageMapped(s0: Snap, s1: Snap, s2: Snap, d: nat, v: nat, f: nat) {
    && Buf(0) !in s0.held && User(d, v) !in s0.held && User(d, v) !in s0.refs && f < |s0.ram|
    && (forall r :: r in s0.held ==> s0.held[r].frame != f)
    && s1 == s0.(ram := s0.ram[f := Bytes(Filled(0))], held := s0.held[Buf(0) := Pte(f, false, false)], free := s1.free)
    && s0.free == s1.free + 1
    && Kept(s1, s2, d, v, v + 1) && TableAdded(s1, s2.(refs := s2.refs - {User(d, v)}), d, PDX(v))
    && |s2.ram| == |s1.ram|
    && User(d, v) in s2.refs && s2.refs[User(d, v)] == Pte(f, true, true)
  }

  ghost function Handed(s2: Snap, d: nat, v: nat, f: nat): Snap {
    s2.(held := (s2.held - {Buf(0)})[User(d, v) := Pte(f, true, true)])
  }

  /** What the mapping added to references and holders. */
  lemma PageRefs(s0: Snap, s1: Snap, s2: Snap, d: nat, v: nat, f: nat)
    requires PageMapped(s0, s1, s2, d, v, f)
    ensures forall r :: r in s2.refs && r != User(d, v) ==>
      if r in s0.refs then s2.refs[r] == s0.refs[r] else r == Tab(d, PDX(v)) && r in s2.held && s2.held[r] == s2.refs[r]
    ensures forall r :: r in s2.held && r != Buf(0) ==>
      if r in s0.held then s2.held[r] == s0.held[r] else r == Tab(d, PDX(v)) && r in s2.refs
    ensures forall r :: r in s0.refs ==> r in s2.refs
    ensures forall r :: r in s0.held ==> r in s2.held
  {
    hide Kept, PDX;
    var u := User(d, v);
    assert forall r :: r in s2.refs && r != u ==> r in s2.refs - {u};
    assert forall r :: r in s0.refs ==> r in s2.refs - {u};
    assert Tab(d, PDX(v)) in s2.refs - {u};
  }

  lemma PageHeld(s0: Snap, s1: Snap, s2: Snap, d: nat, v: nat, f: nat)
    requires PageMapped(s0, s1, s2, d, v, f) && Backed(s0.refs, s0.held) && Settled(s0.refs, s0.held)
    ensures var s := Handed(s2, d, v, f); Backed(s.refs, s.held) && Settled(s.refs, s.held)
    ensures (forall e: nat :: Dir(e) in s0.refs ==> Dir(e) in s2.refs) && forall r :: r in s0.held ==> r in s2.held
  {
    hide Kept, PDX, TableAdded;
    PageRefs(s0, s1, s2, d, v, f);
  }

  lemma PageAdded(s0: Snap, s1: Snap, s2: Snap, d: nat, v: nat, f: nat)
    requires PageMapped(s0, s1, s2, d, v, f)
    ensures var s := Handed(s2, d, v, f);
      TableAdded(s0, s.(refs := s.refs - {User(d, v)}, held := s.held - {User(d, v)}, free := s.free + 1), d, PDX(v))
  {
    hide Kept, PDX;
    var u, s := User(d, v), Handed(s2, d, v, f);
    var s3 := s.(refs := s.refs - {u}, held := s.held - {u}, free := s.free + 1);
    assert s3.held == s2.held - {Buf(0)};
    assert Tab(d, PDX(v)) in s0.refs ==> s3.held == s0.held;
    assert Tab(d, PDX(v)) !in s0.refs ==> s3.held == s0.held[Tab(d, PDX(v)) := s2.held[Tab(d, PDX(v))]];
  }

  lemma PageKept(s0: Snap, s1: Snap, s2: Snap, d: nat, v: nat, f: nat)
    requires PageMapped(s0, s1, s2, d, v, f) && Linked(s0) && (forall e: nat :: Dir(e) in s0.refs ==> Dir(e) in s2.refs)
    requires forall r :: r in s0.held ==> r in s2.held
    ensures var s := Handed(s2, d, v, f); Kept(s0, s, d, v, v + 1)
  {
    hide TableAdded, Structured, Entry, PDX;
    FreshPage(s0, f);
    var s := Handed(s2, d, v, f);
    forall e: nat, x: nat | Dir(e) in s0.refs && (e != d || x != v) ensures Entry(s.ram, e, x) == Entry(s0.ram, e, x) {
      assert Entry(s1.ram, e, x) == Entry(s0.ram, e, x);
    }
    forall r | r in s0.held && r in s.held && (r.User? || r.Buf?) ensures At(s, r) == At(s0, r) {
      assert At(s2, r) == At(s1, r);
    }
  }

  lemma PageLinked(s0: Snap, s1: Snap, s2: Snap, d: nat, v: nat, f: nat)
    requires PageMapped(s0, s1, s2, d, v, f) && Linked(s0)
    ensures var s := Handed(s2, d, v, f); OnePage(s0, s, d, v) && Backed(s.refs, s.held) && Settled(s.refs, s.held)
    ensures Buf(0) in s2.held && s2.held[Buf(0)].frame == f && User(d, v) !in s2.held
  {
    hide Entry, EntriesKept, Structured, PDX;
    PageHeld(s0, s1, s2, d, v, f);
    PageAdded(s0, s1, s2, d, v, f);
    PageKept(s0, s1, s2, d, v, f);
    assert Buf(0) in s2.held && s2.held[Buf(0)].frame == f;
    assert At(s2, Buf(0)) == At(s1, Buf(0));
  }

  predicate Touched(a: nat, b: nat, i: nat) { a < b && PDX(a) <= i <= PDX(b - 1) }

  ghost function MissingTabs(refs: Refs, d: nat, a: nat, b: nat): set<nat> {
    set i: nat | i < NENTRIES && Touched(a, b, i) && Tab(d, i) !in refs
  }

  /** Frames needed to add pages [a, b) to directory `d`. */
  ghost function Needs(refs: Refs, d: nat, a: nat, b: nat): nat
    requires a <= b
  {
    b - a + |MissingTabs(refs, d, a, b)|
  }

  predicate InRange(r: Ref, d: nat, a: nat, v: nat) {
    Mapping(r) && r.d == d && ((r.Tab? && Touched(a, v, r.i)) || (r.User? && a <= r.v < v))
  }

  /** `after` adds to `before` only tables and entries for pages [a, v) of directory `d`. */
  ghost predicate Adds(before: Refs, after: Refs, d: nat, a: nat, v: nat) {
    && (forall r :: r in before ==> r in after && after[r] == before[r])
    && (forall r :: r in after && r !in before ==> InRange(r, d, a, v))
  }

  lemma AddsStep(before: Refs, mid: Refs, after: Refs, d: nat, a: nat, v: nat)
    requires Adds(before, mid, d, a, v) && a <= v && User(d, v) !in mid
    requires var t, h := Tab(d, PDX(v)), after - {User(d, v)}; h == mid || (t !in mid && t in h && h == mid[t := h[t]])
    ensures Adds(before, after, d, a, v + 1)
  {
    var h := after - {User(d, v)};
    assert forall r :: r in after ==> r == User(d, v) || (r in h && h[r] == after[r]);
    assert forall r :: r in h ==> r in after && h[r] == after[r];
    assert PDX(a) <= PDX(v) && (v > a ==> PDX(v - 1) <= PDX(v));
  }

  /** `s` is `s0` with pages [a, v) added to directory `d`, and with the tables they need. */
  ghost predicate Extended(s0: Snap, s: Snap, d: nat, a: nat, v: nat) {
    && a <= v && Kept(s0, s, d, a, v) && s0.free == s.free + Needs(s0.refs, d, a, v)
    && Adds(s0.refs, s.refs, d, a, v) && Adds(s0.held, s.held, d, a, v)
    && (forall i: nat :: Touched(a, v, i) ==> Tab(d, i) in s.refs)
    && (forall x: nat :: a <= x < v ==>
      User(d, x) in s.refs && User(d, x) in s.held && s.refs[User(d, x)].w && s.refs[User(d, x)].u
                                        && At(s, User(d, x)) == Bytes(Filled(0)))
  }

  lemma ExtendedNone(s: Snap, d: nat, a: nat)
    ensures Extended(s, s, d, a, a)
  {
    assert MissingTabs(s.refs, d, a, a) == {};
  }

  lemma {:induction false} NeedsMore(refs: Refs, d: nat, a: nat, v: nat, b: nat)
    requires a <= v < b <= KERNPAGES
    ensures var i := PDX(v);
            Needs(refs, d, a, v + 1) ==
              Needs(refs, d, a, v) + 1 + if Tab(d, i) in refs || Touched(a, v, i) then 0 else 1
    ensures Needs(refs, d, a, v + 1) <= Needs(refs, d, a, b)
  {
    var i := PDX(v);
    var m := MissingTabs(refs, d, a, v);
    TouchedNext(a, v);
    if Tab(d, i) in refs || Touched(a, v, i) {
      assert MissingTabs(refs, d, a, v + 1) == m;
    } else {
      assert MissingTabs(refs, d, a, v + 1) == m + {i};
    }
    var m', n := MissingTabs(refs, d, a, v + 1), MissingTabs(refs, d, a, b);
    assert m' <= n;
    assert |n| == |m'| + |n - m'|;
  }

  lemma ExtendedNext(s0: Snap, s: Snap, d: nat, a: nat, v: nat, b: nat)
    requires Extended(s0, s, d, a, v) && a <= v <= b <= KERNPAGES && Linked(s) && Dir(d) in s0.refs
      && Buf(0) !in s0.held
    requires forall x: nat :: a <= x < b ==> User(d, x) !in s0.refs
    ensures Dir(d) in s.refs && Buf(0) !in s.held
    ensures v < b ==> User(d, v) !in s.refs
    ensures v < b && s.free < 1 + (if Tab(d, PDX(v)) in s.refs then 0 else 1) ==> s0.free < Needs(s0.refs, d, a, b)
    ensures v == b ==> s0.free >= Needs(s0.refs, d, a, b)
  {
    if v < b { NeedsMore(s0.refs, d, a, v, b); }
  }

  lemma ExtendedStep(s0: Snap, s1: Snap, s: Snap, d: nat, a: nat, v: nat)
    requires Extended(s0, s1, d, a, v) && OnePage(s1, s, d, v) && User(d, v) !in s1.refs && v < KERNPAGES
      && Dir(d) in s0.refs
    ensures Extended(s0, s, d, a, v + 1)
  {
    hide Entry, MissingTabs;
    var u, i := User(d, v), PDX(v);
    NeedsMore(s0.refs, d, a, v, v + 1);
    AddsStep(s0.refs, s1.refs, s.refs, d, a, v);
    AddsStep(s0.held, s1.held, s.held, d, a, v);
    TouchedNext(a, v);
    var r3, h3 := s.refs - {u}, s.held - {u};
    forall x: nat | a <= x < v
      ensures User(d, x) in s.refs && s.refs[User(d, x)] == s1.refs[User(d, x)] && User(d, x) in s.held
    {
      assert User(d, x) in r3 && User(d, x) in h3;
    }
    forall j: nat | Touched(a, v + 1, j) ensures Tab(d, j) in s.refs {
      assert Tab(d, j) in r3;
    }
    KeptBoth(s0, s1, s, d, a, v, v, v + 1);
  }

  lemma TouchedNext(a: nat, v: nat)
    requires a <= v
    ensures forall j: nat :: Touched(a, v + 1, j) <==> Touched(a, v, j) || j == PDX(v)
  {
    forall j: nat ensures Touched(a, v + 1, j) <==> Touched(a, v, j) || j == PDX(v) {
      assert v > a ==> PDX(v - 1) <= PDX(v) <= PDX(v - 1) + 1;
    }
  }

  /** Unmapping what was mapped leaves at most new tables. */
  lemma Undone(s0: Snap, s1: Snap, s2: Snap, s3: Snap, s: Snap, d: nat, a: nat, v: nat, b: nat)
    requires Linked(s0) && Linked(s) && Dir(d) in s0.refs && Buf(0) !in s0.held && a <= v < b <= KERNPAGES
    requires Extended(s0, s1, d, a, v) && s2.refs == s1.refs && Kept(s1, s2, d, 0, 0)
    requires s2.held - {Buf(0)} == s1.held
    requires Freed(s2, s3, d, a, b) && Kept(s2, s3, d, a, b)
    requires s.refs == s3.refs && s.held == s3.held - {Buf(0)} && Kept(s3, s, 0, 0, 0)
    requires forall x: nat :: a <= x < b ==> User(d, x) !in s0.refs
    ensures Grown(s0, s, d, 0, 511) && Kept(s0, s, d, 0, 0)
  {
    assert forall r :: r in s.refs ==> r in s1.refs && s.refs[r] == s1.refs[r];
    assert forall r :: r in s1.refs && !(r.User? && r.d == d && a <= r.v < b) ==> r in s.refs;
    forall e: nat, x: nat | Dir(e) in s0.refs && Dir(e) in s.refs ensures Entry(s.ram, e, x) == Entry(s0.ram, e, x) {
      if e == d && a <= x < b {
        assert UserOk(s0.ram, s0.refs, d, x) && UserOk(s.ram, s.refs, d, x);
      } else {
        assert Entry(s1.ram, e, x) == Entry(s0.ram, e, x);
        assert Entry(s2.ram, e, x) == Entry(s1.ram, e, x);
        assert Entry(s3.ram, e, x) == Entry(s2.ram, e, x);
      }
    }
    forall r | r in s0.held && r in s.held && (r.User? || r.Buf?) ensures At(s, r) == At(s0, r) {
      assert r in s3.held && r in s2.held;
      assert At(s3, r) == At(s2, r) && At(s2, r) == At(s1, r);
    }
  }

  /** Page tables for the first `n` user pages. */
  function UserTabs(n: nat): nat { (n + NENTRIES - 1) / NENTRIES }

  /** The same references, with the first `n` pages of `d` read-only. */
  ghost function Protected(refs: Refs, d: nat, n: nat): Refs {
    map r | r in refs :: if r.User? && r.d == d && r.v < n then refs[r].(w := false) else refs[r]
  }

  /** Directory `c` was added to state `s0`, and `n` pages of directory `d` were write-protected. */
  ghost predicate Joining(s0: Snap, s: Snap, d: nat, c: nat, n: nat) {
    Beside(Protected(s0.refs, d, n), s.refs, c) && Beside(Protected(s0.held, d, n), s.held, c) && Kept(s0, s, d, 0, n)
  }

  /** The state between two rounds of copyuvm: the first `n` pages are shared read-only. */
  ghost predicate Copied(s0: Snap, s: Snap, d: nat, c: nat, n: nat, data: nat) {
    && Joining(s0, s, d, c, n) && s0.free == s.free + 65 + UserTabs(n) && KernelHalf(s.ram, c, data)
    && (forall x: nat :: User(c, x) in s.refs <==> x < n)
    && (forall x: nat :: x < n ==> User(d, x) in s.refs && s.refs[User(c, x)] == s.refs[User(d, x)])
    && (forall i: nat :: Tab(c, i) in s.refs <==> KTab(data, 4, i) || i < UserTabs(n))
  }

  lemma ProtectedNone(s0: Snap, s: Snap, d: nat)
    requires s.refs == s0.refs && s.held == s0.held && Kept(s0, s, 0, 0, 0)
    ensures s.refs == Protected(s0.refs, d, 0) && s.held == Protected(s0.held, d, 0) && Kept(s0, s, d, 0, 0)
  {
  }

  lemma CopiedNone(s0: Snap, s: Snap, d: nat, c: nat, data: nat)
    requires Joined(s0, s, c) && KernelBuilt(s, c, data, 4) && s0.free == s.free + 65 && Linked(s)
    ensures Copied(s0, s, d, c, 0, data)
  {
    assert Protected(s0.refs, d, 0) == s0.refs && Protected(s0.held, d, 0) == s0.held;
    forall x: nat ensures User(c, x) !in s.refs {
      assert UserOk(s.ram, s.refs, c, x);
    }
  }

  lemma CopiedFree(s0: Snap, s: Snap, d: nat, c: nat, v: nat, data: nat)
    requires Copied(s0, s, d, c, v, data)
    ensures s0.free == s.free + 65 + UserTabs(v)
  {
  }

  /** What the next round of copyuvm finds. */
  lemma CopiedNext(s0: Snap, s: Snap, d: nat, c: nat, v: nat, data: nat)
    requires Copied(s0, s, d, c, v, data) && v < KERNPAGES && User(d, v) in s0.refs && Linked(s0) && Linked(s)
      && Dir(c) in s.refs
    ensures Dir(d) in s.refs && d != c && User(d, v) in s.refs && s.refs[User(d, v)] == s0.refs[User(d, v)]
    ensures TabOk(s.ram, s.refs, d, PDX(v)) && Tab(d, PDX(v)) in s.refs
    ensures var m := s.ram[s.refs[Tab(d, PDX(v))].frame].pte; PTX(v) in m && m[PTX(v)] == s0.refs[User(d, v)]
    ensures User(c, v) !in s.refs && Entry(s.ram, c, v).None?
    ensures Tab(c, PDX(v)) in s.refs <==> PTX(v) != 0
  {
    assert UserOk(s0.ram, s0.refs, d, v) && TabOk(s0.ram, s0.refs, d, PDX(v));
    var r0 := Protected(s0.refs, d, v);
    assert User(d, v) in r0 && Dir(d) in r0;
    assert TabOk(s.ram, s.refs, d, PDX(v)) && UserOk(s.ram, s.refs, d, v) && UserOk(s.ram, s.refs, c, v);
  }

  lemma BesideProtect(before: Refs, s1: Refs, s2: Refs, d: nat, c: nat, v: nat, p: Pte)
    requires Beside(Protected(before, d, v), s1, c) && User(d, v) in before && d != c
    requires s2 == s1[User(d, v) := p] && p == before[User(d, v)].(w := false)
    ensures Beside(Protected(before, d, v + 1), s2, c)
  {
    var u := User(d, v);
    var b1, b2 := Protected(before, d, v), Protected(before, d, v + 1);
    forall r | r in b2 ensures r in s2 && s2[r] == b2[r] {
      assert r in b1 && (r != u ==> b1[r] == b2[r]);
    }
    assert forall r :: r in b1 <==> r in b2;
  }

  lemma CopiedProtect(s0: Snap, s1: Snap, s2: Snap, d: nat, c: nat, v: nat, data: nat)
    requires Copied(s0, s1, d, c, v, data) && User(d, v) in s0.refs && User(d, v) in s0.held && d != c
      && Dir(c) in s1.refs
    requires s0.refs[User(d, v)] == s0.held[User(d, v)]
    requires var p := s0.refs[User(d, v)].(w := false);
             s2.refs == s1.refs[User(d, v) := p] && s2.held == s1.held[User(d, v) := p]
    requires Kept(s1, s2, d, v, v + 1)
    requires Backed(s2.refs, s2.held)
    ensures Joining(s0, s2, d, c, v + 1) && Entry(s2.ram, c, v) == Entry(s1.ram, c, v)
    ensures Sharing(s2, d, c, v)
  {
    var p := s0.refs[User(d, v)].(w := false);
    BesideProtect(s0.refs, s1.refs, s2.refs, d, c, v, p);
    BesideProtect(s0.held, s1.held, s2.held, d, c, v, p);
    assert forall r :: r in s0.held ==> r in Protected(s0.held, d, v);
    assert forall r :: r in s0.refs ==> r in Protected(s0.refs, d, v);
    KeptBoth(s0, s1, s2, d, 0, v, v, v + 1);
  }

  ghost predicate Sharing(s: Snap, d: nat, c: nat, n: nat) {
    forall x: nat :: User(c, x) in s.refs ==>
      x < n && User(d, x) in s.held && User(c, x) in s.held && s.held[User(d, x)].frame == s.held[User(c, x)].frame
  }

  lemma NotYetShared(s2: Snap, s3: Snap, d: nat, c: nat, v: nat)
    requires Settled(s3.refs, s3.held) && Owned(s3.held) && d != c && User(d, v) in s2.held
    requires TableAdded(s2, s3.(refs := s3.refs - {User(c, v)}), c, PDX(v)) && User(c, v) !in s2.held
    requires Sharing(s2, d, c, v)
    ensures User(c, v) !in s3.held && User(d, v) in s3.held && s3.held[User(d, v)] == s2.held[User(d, v)]
    ensures forall a :: a in s3.held && s3.held[a].frame == s3.held[User(d, v)].frame ==> !(a.User? && a.d == c)
  {
    var r3 := s3.refs - {User(c, v)};
    forall a | a in s3.held && a.User? && a.d == c ensures s3.held[a].frame != s3.held[User(d, v)].frame {
      assert a in r3;
      assert a in s2.refs;
      assert Apart(s3.held, User(d, a.v), User(d, v));
    }
  }

  lemma BesideShare(before: Refs, r2: Refs, r3: Refs, after: Refs, c: nat, v: nat, p: Pte)
    requires Beside(before, r2, c) && after == r3[User(c, v) := p] && User(c, v) !in r2
    requires var t := Tab(c, PDX(v)); r3 == r2 || (t !in r2 && t in r3 && r3 == r2[t := r3[t]])
    ensures Beside(before, after, c)
  {
    assert forall r :: r in before ==> r in r2;
  }

  /** The child's own table and entry do not touch what was there before it. */
  lemma JoiningStep(s0: Snap, s2: Snap, s3: Snap, d: nat, c: nat, n: nat, v: nat, p: Pte)
    requires Joining(s0, s2, d, c, n) && Kept(s2, s3, c, v, v + 1) && User(c, v) !in s2.refs && User(c, v) !in s2.held
    requires User(c, v) in s3.refs && s3.refs[User(c, v)] == p
    requires TableAdded(s2, s3.(refs := s3.refs - {User(c, v)}), c, PDX(v))
    ensures Joining(s0, s3.(held := s3.held[User(c, v) := p]), d, c, n)
  {
    var u := User(c, v);
    var s := s3.(held := s3.held[u := p]);
    var r0, h0, r3 := Protected(s0.refs, d, n), Protected(s0.held, d, n), s3.refs - {u};
    assert s.refs == r3[u := p];
    BesideShare(r0, s2.refs, r3, s.refs, c, v, p);
    BesideShare(h0, s2.held, s3.held, s.held, c, v, p);
    assert forall r :: r in s0.refs ==> r in r0;
    assert forall r :: r in s0.held ==> r in h0;
    forall e: nat, x: nat | Dir(e) in s0.refs && Dir(e) in s.refs && (e != d || n <= x)
      ensures Entry(s.ram, e, x) == Entry(s0.ram, e, x)
    {
      assert Dir(e) in r0 && e != c;
      assert Entry(s2.ram, e, x) == Entry(s0.ram, e, x);
    }
    forall r | r in s0.held && r in s.held && (r.User? || r.Buf?) ensures At(s, r) == At(s0, r) {
      assert r in h0 && r in s2.held && At(s2, r) == At(s0, r) && At(s3, r) == At(s2, r);
    }
  }

  lemma CopiedStep(s0: Snap, s1: Snap, s2: Snap, s3: Snap, d: nat, c: nat, v: nat, data: nat)
    requires Copied(s0, s1, d, c, v, data) && Joining(s0, s2, d, c, v + 1) && d != c && v < KERNPAGES
      && Dir(c) in s1.refs && Linked(s2)
    requires User(d, v) in s2.refs && s2.refs == s1.refs[User(d, v) := s2.refs[User(d, v)]] && s2.free == s1.free
    requires Kept(s1, s2, d, v, v + 1) && Kept(s2, s3, c, v, v + 1) && User(c, v) !in s2.refs
    requires User(c, v) in s3.refs && s3.refs[User(c, v)] == s2.refs[User(d, v)]
    requires TableAdded(s2, s3.(refs := s3.refs - {User(c, v)}), c, PDX(v))
      && (Tab(c, PDX(v)) in s2.refs <==> PTX(v) != 0)
    ensures var s := s3.(held := s3.held[User(c, v) := s2.refs[User(d, v)]]);
            Copied(s0, s, d, c, v + 1, data) && Backed(s.refs, s.held) && Settled(s.refs, s.held) && Dir(c) in s.refs
  {
    hide Structured, EntriesKept, DataKept, Joining;
    var u, p := User(c, v), s2.refs[User(d, v)];
    JoiningStep(s0, s2, s3, d, c, v + 1, v, p);
    var s := s3.(held := s3.held[u := p]);
    var r3 := s3.refs - {u};
    assert s.refs == r3[u := p];
    KernelHalfKept(s1, s2, s3, d, c, v, data);
    assert UserTabs(v + 1) == UserTabs(v) + if PTX(v) == 0 then 1 else 0;
    assert PDX(v) == UserTabs(v + 1) - 1 && !KTab(data, 4, PDX(v));
  }

  lemma KernelHalfKept(s1: Snap, s2: Snap, s3: Snap, d: nat, c: nat, v: nat, data: nat)
    requires KernelHalf(s1.ram, c, data) && c != d && v < KERNPAGES && Dir(c) in s1.refs && Dir(c) in s2.refs
      && Dir(c) in s3.refs
    requires EntriesKept(s1, s2, d, v, v + 1) && EntriesKept(s2, s3, c, v, v + 1)
    ensures KernelHalf(s3.ram, c, data)
  {
    forall x: nat | KERNPAGES <= x < ALLPAGES ensures Entry(s3.ram, c, x) == KMap(data, x) {
      assert Entry(s2.ram, c, x) == Entry(s1.ram, c, x);
    }
  }

  lemma JoiningUndone(s0: Snap, s1: Snap, s: Snap, d: nat, c: nat, n: nat)
    requires Joining(s0, s1, d, c, n) && Linked(s1) && Dropped(s1, s, AllOf(s1.refs, c)) && Kept(s1, s, c, 0, 0)
    ensures s.refs == Protected(s0.refs, d, n) && s.held == Protected(s0.held, d, n) && Kept(s0, s, d, 0, n)
  {
    var r0, h0 := Protected(s0.refs, d, n), Protected(s0.held, d, n);
    assert forall r :: r in s0.refs <==> r in r0;
    assert forall r :: r in s0.held <==> r in h0;
    assert s.refs == r0 && s.held == h0;
    forall e: nat, x: nat | Dir(e) in s0.refs && Dir(e) in s.refs && (e != d || n <= x)
      ensures Entry(s.ram, e, x) == Entry(s0.ram, e, x)
    {
      assert Entry(s1.ram, e, x) == Entry(s0.ram, e, x);
    }
    forall r | r in s0.held && r in s.held && (r.User? || r.Buf?) ensures At(s, r) == At(s0, r) {
      assert r in s1.held && At(s1, r) == At(s0, r);
    }
  }

  lemma KeptSame(s: Snap, d: nat, v: nat)
    ensures Kept(s, s, d, v, v + 1)
  {
  }

  /** Memory after the fault handler copied page `v` of `d` into frame `mem`. */
  lemma CopyLinked(s0: Snap, d: nat, v: nat, mem: nat)
    requires Linked(s0) && Owned(s0.held) && Buf(0) !in s0.held && User(d, v) in s0.refs && Tab(d, PDX(v)) in s0.refs
      && mem < |s0.ram|
    requires forall r :: r in s0.held ==> s0.held[r].frame != mem
    requires TabOk(s0.ram, s0.refs, d, PDX(v)) && UserOk(s0.ram, s0.refs, d, v)
    ensures var u, q, t := User(d, v), Pte(mem, true, true), s0.refs[Tab(d, PDX(v))].frame;
            && s0.refs[u].frame < |s0.ram| && t != mem
            && var ram1 := s0.ram[mem := s0.ram[s0.refs[u].frame]];
            && var s := s0.(ram := ram1[t := TabOf(ram1[t].pte[PTX(v) := q])], refs := s0.refs[u := q],
              held := s0.held[u := q]);
            Linked(s) && Kept(s0, s, d, v, v + 1)
  {
    var u, q := User(d, v), Pte(mem, true, true);
    assert forall r :: r in s0.refs ==> s0.held[r].frame != mem;
    var c := s0.ram[s0.refs[u].frame];
    ScribbleStructured(s0.ram, s0.refs, mem, c);
    var s1 := s0.(ram := s0.ram[mem := c], held := s0.held[Buf(0) := q]);
    SoundBuf(s0.held, q);
    assert TabOk(s1.ram, s1.refs, d, PDX(v));
    SetEntry(s1, d, v, Some(q), Buf(0));
    var s := s1.(ram := PutEntry(s1.ram, s1.refs, d, v, Some(q)), refs := s0.refs[u := q], held := s0.held[u := q]);
    forall e: nat, x: nat | Dir(e) in s0.refs && Dir(e) in s.refs && (e != d || x != v)
      ensures Entry(s.ram, e, x) == Entry(s0.ram, e, x)
    {
      assert Entry(s1.ram, e, x) == Entry(s0.ram, e, x);
    }
    assert Apart(s1.held, Tab(d, PDX(v)), Buf(0));
    forall r | r in s0.held && (r.User? || r.Buf?) ensures At(s, r) == At(s0, r) {
      assert Apart(s1.held, Tab(d, PDX(v)), r);
    }
  }

  lemma SoundBuf(held: Refs, q: Pte)
    requires Owned(held) && forall a :: a in held ==> held[a].frame != q.frame
    ensures Owned(held[Buf(0) := q])
  {
    var held' := held[Buf(0) := q];
    forall a, b | a in held' && b in held' ensures Apart(held', a, b) {
      assert a != Buf(0) && b != Buf(0) ==> Apart(held, a, b);
    }
  }

  /** One byte of page `v` of `d` changed, perhaps in a frame of its own now; everyone else reads what they read. */
  ghost predicate Changed(s0: Snap, s: Snap, d: nat, v: nat, off: nat, x: int) {
    var u := User(d, v);
    && u in s0.refs && u in s.refs && u in s0.held && s.refs[u].u && s.refs[u].w
    && s.refs == s0.refs[u := s.refs[u]] && s.held == s0.held[u := s.refs[u]] && EntriesKept(s0, s, d, v, v + 1)
    && (forall r :: r in s0.held && r != u && (r.User? || r.Buf?) ==> At(s, r) == At(s0, r))
    && At(s0, u).Bytes? && off < PGSIZE == |At(s0, u).b| && At(s, u) == Bytes(At(s0, u).b[off := x])
  }

  lemma UserAt(s: Snap, d: nat, v: nat)
    requires Linked(s)
    ensures UserOk(s.ram, s.refs, d, v) && TabOk(s.ram, s.refs, d, PDX(v))
  {
  }

  lemma WritableHolder(held: Refs, u: Ref)
    requires WritableAlone(held) && u in held && u.User? && held[u].w
    ensures Holders(held, held[u].frame) == {u}
  {
    forall r | r in Holders(held, held[u].frame) ensures r == u {
      assert Alone(held, u, r);
    }
  }

  lemma EntriesChain(s0: Snap, s1: Snap, s: Snap, d: nat, v: nat)
    requires EntriesKept(s0, s1, d, v, v + 1) && EntriesKept(s1, s, 0, 0, 0)
    requires s.refs.Keys == s1.refs.Keys == s0.refs.Keys
    ensures EntriesKept(s0, s, d, v, v + 1)
  {
    forall e: nat, y: nat | Dir(e) in s0.refs && Dir(e) in s.refs && (e != d || y != v)
      ensures Entry(s.ram, e, y) == Entry(s0.ram, e, y)
    {
      assert Entry(s1.ram, e, y) == Entry(s0.ram, e, y);
    }
  }

}
