/** Two-level page tables kept in physical frames (vm.c, mmu.h), and what an update of one
    frame does to the translations and the bytes of everything else. */
module Paging {
  import opened Common
  import opened Frames

  const PGSIZE: nat := 4096
  const NENTRIES: nat := 1024
  const KERNPAGES: nat := 0x80000    // KERNBASE / PGSIZE: user pages are below
  const ALLPAGES: nat := 0x100000

  type Page = seq<int>

  /** A page of one byte repeated, as memset makes it. */
  function Filled(x: int): (p: Page)
    ensures |p| == PGSIZE && forall i :: 0 <= i < PGSIZE ==> p[i] == x
  {
    seq(PGSIZE, _ => x)
  }

  /** What a frame holds: bytes, a page directory (present entries only) or a page table. */
  datatype Content =
    | Bytes(b: Page)
    | DirOf(pde: map<nat, nat>)
    | TabOf(pte: map<nat, Pte>)

  type Ram = seq<Content>

  /** Memory, the references found in it, the references the counts account for, and the number of free frames. */
  datatype Snap = Snap(ram: Ram, refs: Refs, held: Refs, free: nat)

  function PDX(v: nat): nat { v / NENTRIES }
  function PTX(v: nat): nat { v % NENTRIES }

  /** Number of pages that `sz` bytes touch. */
  function PagesOf(sz: nat): nat { (sz + PGSIZE - 1) / PGSIZE }

  /** The translation of page `v` in directory `d`, walked through memory. */
  ghost function Entry(ram: Ram, d: nat, v: nat): Option<Pte> {
    if d < |ram| && ram[d].DirOf? && PDX(v) in ram[d].pde then
      var t := ram[d].pde[PDX(v)];
      if t < |ram| && ram[t].TabOf? && PTX(v) in ram[t].pte then Some(ram[t].pte[PTX(v)]) else None
    else None
  }

  ghost predicate IsData(ram: Ram, f: nat) {
    f < |ram| && ram[f].Bytes? && |ram[f].b| == PGSIZE
  }

  ghost predicate DirOk(ram: Ram, refs: Refs, d: nat) {
    Dir(d) in refs ==> d < |ram| && refs[Dir(d)].frame == d && ram[d].DirOf?
  }

  ghost predicate TabOk(ram: Ram, refs: Refs, d: nat, i: nat) {
    && DirOk(ram, refs, d)
    && (Tab(d, i) in refs <==> Dir(d) in refs && i in ram[d].pde)
    && (Tab(d, i) in refs ==>
      i < NENTRIES && refs[Tab(d, i)].frame == ram[d].pde[i] < |ram| && ram[ram[d].pde[i]].TabOf?)
  }

  ghost predicate UserOk(ram: Ram, refs: Refs, d: nat, v: nat) {
    && (User(d, v) in refs <==> Dir(d) in refs && v < KERNPAGES && Entry(ram, d, v).Some?)
    && (User(d, v) in refs ==> refs[User(d, v)] == Entry(ram, d, v).value && IsData(ram, refs[User(d, v)].frame))
  }

  /** `refs` lists exactly the directories, tables and user entries found in memory. */
  ghost predicate Structured(ram: Ram, refs: Refs) {
    && (forall d: nat, i: nat :: TabOk(ram, refs, d, i))
    && (forall d: nat, v: nat :: UserOk(ram, refs, d, v))
  }

  predicate Mapping(r: Ref) { r.Dir? || r.Tab? || r.User? }

  /** The counts account for exactly the mappings found in memory, and for kernel stacks and buffers. */
  ghost predicate Backed(refs: Refs, held: Refs) {
    forall r :: r in refs ==> r in held && held[r] == refs[r]
  }

  ghost predicate Settled(refs: Refs, held: Refs) {
    forall r :: r in held && Mapping(r) ==> r in refs
  }

  ghost predicate Linked(s: Snap) {
    Structured(s.ram, s.refs) && Backed(s.refs, s.held) && Settled(s.refs, s.held)
  }

  /** Translations of every directory that lives on are as before, except in `d` from page `a` up to `b`. */
  ghost predicate EntriesKept(s0: Snap, s: Snap, d: nat, a: nat, b: nat) {
    forall e: nat, v: nat :: Dir(e) in s0.refs && Dir(e) in s.refs && (e != d || v < a || b <= v) ==>
      Entry(s.ram, e, v) == Entry(s0.ram, e, v)
  }

  /** What reference `r` reads. */
  ghost function At(s: Snap, r: Ref): Content
    requires r in s.held
  {
    if s.held[r].frame < |s.ram| then s.ram[s.held[r].frame] else Bytes([])
  }

  /** Whoever holds a page before and after reads the same bytes in it, in the same frame or in a copy. */
  ghost predicate DataKept(s0: Snap, s: Snap) {
    forall r :: r in s0.held && r in s.held && (r.User? || r.Buf?) ==> At(s, r) == At(s0, r)
  }

  ghost predicate Kept(s0: Snap, s: Snap, d: nat, a: nat, b: nat) {
    EntriesKept(s0, s, d, a, b) && DataKept(s0, s)
  }

  lemma KeptAny(s0: Snap, s: Snap, d: nat, e: nat)
    requires Kept(s0, s, d, 0, 0)
    ensures Kept(s0, s, e, 0, 0)
  {
  }

  /** Two changes in a row, each confined to pages [a, b) of `d`. */
  lemma KeptBoth(s0: Snap, s1: Snap, s: Snap, d: nat, a: nat, m: nat, n: nat, b: nat)
    requires Kept(s0, s1, d, a, m) && Kept(s1, s, d, n, b) && a <= n && m <= b
    requires forall r :: r in s0.held && r in s.held && (r.User? || r.Buf?) ==> r in s1.held
    requires forall e: nat :: Dir(e) in s0.refs && Dir(e) in s.refs ==> Dir(e) in s1.refs
    ensures Kept(s0, s, d, a, b)
  {
    forall e: nat, v: nat | Dir(e) in s0.refs && Dir(e) in s.refs && (e != d || v < a || b <= v)
      ensures Entry(s.ram, e, v) == Entry(s0.ram, e, v)
    {
      assert Entry(s1.ram, e, v) == Entry(s0.ram, e, v);
    }
  }

  /** The kernel half of every address space: kmap in vm.c, with `data` the frame of the data segment. */
  function KMap(data: nat, v: nat): Option<Pte> {
    if KERNPAGES <= v < KERNPAGES + PHYSFRAMES then
      var f: nat := v - KERNPAGES;
      Some(Pte(f, f < 0x100 || data <= f, false))
    else if 0xFE000 <= v < ALLPAGES then Some(Pte(v, true, false))
    else None
  }

  ghost predicate KernelHalf(ram: Ram, d: nat, data: nat) {
    forall v: nat :: KERNPAGES <= v < ALLPAGES ==> Entry(ram, d, v) == KMap(data, v)
  }

  /** Overwriting a frame that holds no directory and no table changes no translation. */
  lemma ScribbleEntry(ram: Ram, refs: Refs, f: nat, c: Content, d: nat, v: nat)
    requires Structured(ram, refs) && f < |ram| && Dir(d) in refs
    requires forall r :: r in refs && !r.User? ==> refs[r].frame != f
    ensures Entry(ram[f := c], d, v) == Entry(ram, d, v)
  {
    assert TabOk(ram, refs, d, PDX(v));
  }

  lemma ScribbleStructured(ram: Ram, refs: Refs, f: nat, c: Content)
    requires Structured(ram, refs) && f < |ram|
    requires forall r :: r in refs && !r.User? ==> refs[r].frame != f
    requires (c.Bytes? && |c.b| == PGSIZE) || forall r :: r in refs ==> refs[r].frame != f
    ensures Structured(ram[f := c], refs)
    ensures forall d: nat, v: nat :: Dir(d) in refs ==> Entry(ram[f := c], d, v) == Entry(ram, d, v)
  {
    var ram' := ram[f := c];
    forall d: nat, v: nat | Dir(d) in refs ensures Entry(ram', d, v) == Entry(ram, d, v) {
      ScribbleEntry(ram, refs, f, c, d, v);
    }
    forall d: nat, i: nat ensures TabOk(ram', refs, d, i) { assert TabOk(ram, refs, d, i); }
    forall d: nat, v: nat ensures UserOk(ram', refs, d, v) { assert UserOk(ram, refs, d, v); }
  }

  /** Memory after the entry of page `v` is set, or cleared, in the table that holds it. */
  ghost function PutEntry(ram: Ram, refs: Refs, d: nat, v: nat, p: Option<Pte>): Ram
    requires TabOk(ram, refs, d, PDX(v)) && Tab(d, PDX(v)) in refs
  {
    var t := refs[Tab(d, PDX(v))].frame;
    ram[t := TabOf(if p.Some? then ram[t].pte[PTX(v) := p.value] else ram[t].pte - {PTX(v)})]
  }

  /** The structural references of a user page follow its entry; a kernel entry is not one. */
  ghost function PutRef(refs: Refs, d: nat, v: nat, p: Option<Pte>): Refs {
    if v >= KERNPAGES then refs else if p.Some? then refs[User(d, v) := p.value] else refs - {User(d, v)}
  }

  /** Tables are not shared: an update of one entry changes one translation of one directory. */
  lemma PutEntryAt(s: Snap, d: nat, v: nat, p: Option<Pte>, e: nat, w: nat)
    requires Structured(s.ram, s.refs) && Backed(s.refs, s.held) && Owned(s.held) && TabOk(s.ram, s.refs, d, PDX(v))
    requires Tab(d, PDX(v)) in s.refs && Dir(e) in s.refs
    ensures Entry(PutEntry(s.ram, s.refs, d, v, p), e, w) == if e == d && w == v then p else Entry(s.ram, e, w)
  {
    var i, j := PDX(v), PDX(w);
    assert TabOk(s.ram, s.refs, e, j);
    assert Apart(s.held, Tab(d, i), Dir(e));
    if Tab(e, j) in s.refs {
      assert Apart(s.held, Tab(d, i), Tab(e, j));
    }
    assert i == j && PTX(v) == PTX(w) ==> v == w;
  }

  lemma SetEntry(s: Snap, d: nat, v: nat, p: Option<Pte>, src: Ref)
    requires Structured(s.ram, s.refs) && Backed(s.refs, s.held) && Owned(s.held)
    requires TabOk(s.ram, s.refs, d, PDX(v)) && Tab(d, PDX(v)) in s.refs
    requires v < KERNPAGES && p.Some? ==>
               src in s.held && (src.User? || src.Buf?) && s.held[src].frame == p.value.frame
                 && IsData(s.ram, p.value.frame)
    ensures var s' := s.(ram := PutEntry(s.ram, s.refs, d, v, p), refs := PutRef(s.refs, d, v, p));
            Structured(s'.ram, s'.refs) && Kept(s, s', d, v, v + 1) && Entry(s'.ram, d, v) == p
  {
    var rt := Tab(d, PDX(v));
    var ram', refs' := PutEntry(s.ram, s.refs, d, v, p), PutRef(s.refs, d, v, p);
    assert forall r :: r in s.held ==> Apart(s.held, rt, r);
    forall e: nat, w: nat | Dir(e) in s.refs
      ensures Entry(ram', e, w) == if e == d && w == v then p else Entry(s.ram, e, w)
    {
      PutEntryAt(s, d, v, p, e, w);
    }
    forall e: nat, i: nat ensures TabOk(ram', refs', e, i) { assert TabOk(s.ram, s.refs, e, i); }
    forall e: nat, w: nat ensures UserOk(ram', refs', e, w) { assert UserOk(s.ram, s.refs, e, w); }
  }

  function WithTable(ram: Ram, d: nat, i: nat, t: nat): Ram
    requires d < |ram| && ram[d].DirOf? && t < |ram|
  {
    ram[t := TabOf(map[])][d := DirOf(ram[d].pde[i := t])]
  }

  /** walkpgdir with alloc: an empty table in a fresh frame is linked into the directory. */
  lemma LinkTable(s: Snap, d: nat, i: nat, t: nat)
    requires Structured(s.ram, s.refs) && Backed(s.refs, s.held) && Owned(s.held)
    requires DirOk(s.ram, s.refs, d) && Dir(d) in s.refs && Tab(d, i) !in s.refs && i < NENTRIES && t < |s.ram|
    requires forall r :: r in s.held ==> s.held[r].frame != t
    ensures var s' := s.(ram := WithTable(s.ram, d, i, t), refs := s.refs[Tab(d, i) := Pte(t, false, false)]);
            Structured(s'.ram, s'.refs) && Kept(s, s', d, 0, 0)
  {
    var ram, refs := s.ram, s.refs;
    assert forall r :: r in refs ==> s.held[r].frame != t;
    var ram1 := ram[t := TabOf(map[])];
    ScribbleStructured(ram, refs, t, TabOf(map[]));
    var ram', refs' := WithTable(ram, d, i, t), refs[Tab(d, i) := Pte(t, false, false)];
    var rd := Dir(d);
    assert forall r :: r in s.held ==> Apart(s.held, rd, r);
    forall e: nat, j: nat ensures TabOk(ram', refs', e, j) { assert TabOk(ram1, refs, e, j); }
    forall e: nat, v: nat | Dir(e) in refs ensures Entry(ram', e, v) == Entry(ram, e, v) {
      assert TabOk(ram1, refs, e, PDX(v)) && TabOk(ram1, refs, d, i);
    }
    forall e: nat, v: nat ensures UserOk(ram', refs', e, v) { assert UserOk(ram, refs, e, v); }
  }

  /** setupkvm: an empty directory in a fresh frame. */
  lemma NewDir(s: Snap, d: nat)
    requires Linked(s) && d < |s.ram|
    requires forall r :: r in s.held ==> s.held[r].frame != d
    ensures forall r :: r in s.held && Mapping(r) ==> r.d != d
    ensures var s' := s.(ram := s.ram[d := DirOf(map[])], refs := s.refs[Dir(d) := Pte(d, false, false)]);
            && Structured(s'.ram, s'.refs) && Kept(s, s', d, 0, 0)
            && (forall v: nat :: Entry(s'.ram, d, v) == None) && (forall i: nat :: Tab(d, i) !in s'.refs)
  {
    var ram, refs := s.ram, s.refs;
    assert forall r :: r in refs ==> s.held[r].frame != d;
    ScribbleStructured(ram, refs, d, DirOf(map[]));
    var ram', refs' := ram[d := DirOf(map[])], refs[Dir(d) := Pte(d, false, false)];
    assert TabOk(ram, refs, d, 0);
    forall r | r in refs && Mapping(r) ensures r.d != d {
      assert r.Tab? ==> TabOk(ram, refs, r.d, r.i);
      assert r.User? ==> UserOk(ram, refs, r.d, r.v);
    }
    forall e: nat, i: nat ensures TabOk(ram', refs', e, i) { assert TabOk(ram', refs, e, i); }
    forall e: nat, v: nat ensures UserOk(ram', refs', e, v) { assert UserOk(ram', refs, e, v); }
  }

  /** The directory and the tables of `d`. */
  ghost function DirRefs(refs: Refs, d: nat): set<Ref> {
    set r | r in refs && (r.Dir? || r.Tab?) && r.d == d
  }

  /** User entries of directory `d` for pages from `a` up to `b`. */
  ghost function UserRange(refs: Refs, d: nat, a: nat, b: nat): set<Ref> {
    set r | r in refs && r.User? && r.d == d && a <= r.v < b
  }

  /** Everything that goes with directory `d`. */
  ghost function AllOf(refs: Refs, d: nat): set<Ref> {
    set r | r in refs && Mapping(r) && r.d == d
  }

  lemma DropDir(ram: Ram, refs: Refs, d: nat)
    requires Structured(ram, refs) && forall v: nat :: User(d, v) !in refs
    ensures Structured(ram, refs - DirRefs(refs, d))
  {
    var refs' := refs - DirRefs(refs, d);
    forall e: nat, i: nat ensures TabOk(ram, refs', e, i) { assert TabOk(ram, refs, e, i); }
    forall e: nat, v: nat ensures UserOk(ram, refs', e, v) { assert UserOk(ram, refs, e, v); }
  }

  /** kfree of the last holder `r`, no longer in any table, scribbles over nothing that anyone else holds. */
  lemma ScribbleFreed(s: Snap, r: Ref)
    requires Structured(s.ram, s.refs) && Backed(s.refs, s.held) && r in s.held && r !in s.refs
    requires s.held[r].frame < |s.ram| && Holders(s.held, s.held[r].frame) == {r}
    ensures var s' := s.(ram := s.ram[s.held[r].frame := Bytes(Filled(1))], held := s.held - {r});
            Structured(s'.ram, s'.refs) && Kept(s, s', 0, 0, 0)
  {
    var f := s.held[r].frame;
    assert forall a :: a in s.held && s.held[a].frame == f ==> a in Holders(s.held, f);
    ScribbleStructured(s.ram, s.refs, f, Bytes(Filled(1)));
  }
}
