/** Physical frames, the references that hold them, and exact reference counting (kalloc.c). */
module Frames {
  import opened Common

  const PHYSFRAMES: nat := 0xE000   // PHYSTOP >> PGSHIFT

  /** A page-table entry: the frame, and the PTE_W and PTE_U bits. An absent entry has PTE_P clear. */
  datatype Pte = Pte(frame: nat, w: bool, u: bool)

  /** Everything that can hold a frame: a kernel stack, a page directory, one of its page
      tables, one of its user entries, or a kernel buffer (a pipe, or a page just allocated). */
  datatype Ref =
    | Stack(slot: nat)
    | Dir(d: nat)
    | Tab(d: nat, i: nat)
    | User(d: nat, v: nat)
    | Buf(k: nat)

  type Refs = map<Ref, Pte>

  ghost function Holders(refs: Refs, f: nat): set<Ref> {
    set r | r in refs && refs[r].frame == f
  }

  /** A managed frame is on the free list with count 0, or its count is the number of its holders. */
  ghost predicate FrameOk(refs: Refs, refc: seq<int>, freelist: seq<nat>, lo: nat, hi: nat, f: nat) {
    && (f in freelist ==> lo <= f < hi)
    && (lo <= f < hi ==> f < |refc| && refc[f] == |Holders(refs, f)| && (f in freelist <==> refc[f] == 0))
  }

  /** The reference-count invariant. No frame is on the free list twice. */
  ghost predicate Counted(refs: Refs, refc: seq<int>, freelist: seq<nat>, lo: nat, hi: nat) {
    && lo <= hi <= |refc| && Distinct(freelist)
    && (forall r :: r in refs ==> lo <= refs[r].frame < hi)
    && (forall f: nat :: FrameOk(refs, refc, freelist, lo, hi, f))
  }

  /** Two references to one frame are user entries of different page directories. */
  ghost predicate Apart(refs: Refs, r: Ref, r': Ref)
    requires r in refs && r' in refs
  {
    r != r' && refs[r].frame == refs[r'].frame ==> r.User? && r'.User? && r.d != r'.d
  }

  ghost predicate Owned(refs: Refs) {
    forall r, r' {:trigger Apart(refs, r, r')} :: r in refs && r' in refs ==> Apart(refs, r, r')
  }

  /** A writable user entry shares its frame with no other reference. */
  ghost predicate Alone(refs: Refs, r: Ref, r': Ref)
    requires r in refs && r' in refs
  {
    r.User? && refs[r].w && refs[r].frame == refs[r'].frame ==> r == r'
  }

  ghost predicate WritableAlone(refs: Refs) {
    forall r, r' {:trigger Alone(refs, r, r')} :: r in refs && r' in refs ==> Alone(refs, r, r')
  }

  /** Who may share what: see Apart and Alone. */
  ghost predicate Sound(refs: Refs) {
    Owned(refs) && WritableAlone(refs)
  }

  lemma SoundFresh(refs: Refs, r: Ref, p: Pte)
    requires Sound(refs) && forall a :: a in refs ==> refs[a].frame != p.frame
    ensures Sound(refs[r := p])
  {
    var refs' := refs[r := p];
    forall a, b | a in refs' && b in refs' ensures Apart(refs', a, b) && Alone(refs', a, b) {
      assert a != r && b != r ==> Apart(refs, a, b) && Alone(refs, a, b);
    }
  }

  lemma SoundLess(refs: Refs, gone: set<Ref>)
    requires Sound(refs)
    ensures Sound(refs - gone)
  {
    var refs' := refs - gone;
    forall a, b | a in refs' && b in refs' ensures Apart(refs', a, b) && Alone(refs', a, b) {
      assert Apart(refs, a, b) && Alone(refs, a, b);
    }
  }

  /** A frame held by a kernel owner, or by one user entry alone, can pass to any other reference. */
  lemma SoundMove(refs: Refs, r: Ref, r': Ref, p: Pte)
    requires Sound(refs) && r in refs && refs[r].frame == p.frame
    requires !r.User? || (r == r' && (p.w ==> Holders(refs, p.frame) == {r}))
    ensures Sound((refs - {r})[r' := p])
  {
    var refs' := (refs - {r})[r' := p];
    assert forall a :: a in refs && refs[a].frame == p.frame ==> a in Holders(refs, p.frame);
    forall a, b | a in refs' && b in refs' ensures Apart(refs', a, b) && Alone(refs', a, b) {
      assert a != r' && b != r' ==> Apart(refs, a, b) && Alone(refs, a, b);
      assert a != r' && b == r' ==> Apart(refs, a, r) && Alone(refs, a, r);
      assert a == r' && b != r' ==> Apart(refs, r, b) && Alone(refs, r, b);
    }
  }

  /** A read-only user entry can be shared with another directory that does not hold its frame. */
  lemma SoundShare(refs: Refs, r: Ref, r': Ref, p: Pte)
    requires Sound(refs) && r in refs && r.User? && !refs[r].w && refs[r].frame == p.frame && !p.w
    requires r' !in refs && r'.User? && forall a :: a in refs && refs[a].frame == p.frame ==> !(a.User? && a.d == r'.d)
    ensures Sound(refs[r' := p])
  {
    var refs' := refs[r' := p];
    forall a, b | a in refs' && b in refs' ensures Apart(refs', a, b) && Alone(refs', a, b) {
      assert a != r' && b != r' ==> Apart(refs, a, b) && Alone(refs, a, b);
      assert a != r' && b == r' ==> Apart(refs, a, r) && Alone(refs, a, r);
      assert a == r' && b != r' ==> Apart(refs, r, b) && Alone(refs, r, b);
    }
  }

  lemma HolderCounted(refs: Refs, refc: seq<int>, freelist: seq<nat>, lo: nat, hi: nat, r: Ref)
    requires Counted(refs, refc, freelist, lo, hi) && r in refs
    ensures refs[r].frame < |refc| && refc[refs[r].frame] >= 1 && refs[r].frame !in freelist
    ensures (refc[refs[r].frame] == 1) == (Holders(refs, refs[r].frame) == {r})
  {
    var f := refs[r].frame;
    assert FrameOk(refs, refc, freelist, lo, hi, f);
    assert r in Holders(refs, f);
    assert |Holders(refs, f) - {r}| == |Holders(refs, f)| - 1;
    if refc[f] == 1 {
      assert Holders(refs, f) - {r} == {};
    }
  }

  lemma FreeUnheld(refs: Refs, refc: seq<int>, freelist: seq<nat>, lo: nat, hi: nat, f: nat)
    requires Counted(refs, refc, freelist, lo, hi) && f in freelist
    ensures lo <= f < hi && forall r :: r in refs ==> refs[r].frame != f
  {
    assert FrameOk(refs, refc, freelist, lo, hi, f);
    assert |Holders(refs, f)| == 0;
    assert forall r :: r in refs && refs[r].frame == f ==> r in Holders(refs, f);
  }

  /** Two states agree on the count of every frame but one, whose holders are given. */
  lemma Recounted(refs: Refs, refc: seq<int>, freelist: seq<nat>, lo: nat, hi: nat,
          refs': Refs, f: nat, c: int, freelist': seq<nat>, holders: set<Ref>)
    requires Counted(refs, refc, freelist, lo, hi) && lo <= f < hi
    requires forall r :: r in refs' ==> (r in refs && refs'[r].frame == refs[r].frame) || refs'[r].frame == f
    requires forall r :: r in refs && refs[r].frame != f ==> r in refs' && refs'[r].frame == refs[r].frame
    requires Holders(refs', f) == holders && c == |holders|
    requires Distinct(freelist') && (f in freelist' <==> c == 0)
    requires forall g :: g in freelist' && g != f ==> g in freelist
    requires forall g :: g in freelist && g != f ==> g in freelist'
    ensures Counted(refs', refc[f := c], freelist', lo, hi)
  {
    var refc' := refc[f := c];
    forall g: nat ensures FrameOk(refs', refc', freelist', lo, hi, g) {
      assert FrameOk(refs, refc, freelist, lo, hi, g);
      if g != f {
        assert Holders(refs', g) == Holders(refs, g);
      }
    }
  }

  /** freerange: the next frame joins the managed ones, free. */
  lemma FreeCounted(refc: seq<int>, freelist: seq<nat>, lo: nat, f: nat)
    requires Counted(map[], refc, freelist, lo, f) && f < |refc| && refc[f] == 0
    ensures Counted(map[], refc, [f] + freelist, lo, f + 1)
  {
    var freelist', hi := [f] + freelist, f + 1;
    forall g: nat ensures FrameOk(map[], refc, freelist', lo, hi, g) {
      assert FrameOk(map[], refc, freelist, lo, f, g);
    }
    assert FrameOk(map[], refc, freelist, lo, f, f);
  }

  /** kalloc: the head of the list gets count 1 and its one holder. */
  lemma TakeCounted(refs: Refs, refc: seq<int>, freelist: seq<nat>, lo: nat, hi: nat, r: Ref, p: Pte)
    requires Counted(refs, refc, freelist, lo, hi) && freelist != [] && r !in refs && p.frame == freelist[0]
    ensures p.frame in freelist && p.frame < |refc|
    ensures Counted(refs[r := p], refc[p.frame := 1], freelist[1..], lo, hi)
  {
    FreeUnheld(refs, refc, freelist, lo, hi, p.frame);
    assert Holders(refs[r := p], p.frame) == {r};
    assert freelist == [p.frame] + freelist[1..];
    Recounted(refs, refc, freelist, lo, hi, refs[r := p], p.frame, 1, freelist[1..], {r});
  }

  /** incr_refc: one more holder, one more in the count. */
  lemma ShareCounted(refs: Refs, refc: seq<int>, freelist: seq<nat>, lo: nat, hi: nat, r0: Ref, r: Ref, p: Pte)
    requires Counted(refs, refc, freelist, lo, hi) && r0 in refs && r !in refs && p.frame == refs[r0].frame
    ensures p.frame < |refc| && Counted(refs[r := p], refc[p.frame := refc[p.frame] + 1], freelist, lo, hi)
  {
    var f := p.frame;
    HolderCounted(refs, refc, freelist, lo, hi, r0);
    assert FrameOk(refs, refc, freelist, lo, hi, f);
    assert Holders(refs[r := p], f) == Holders(refs, f) + {r};
    Recounted(refs, refc, freelist, lo, hi, refs[r := p], f, refc[f] + 1, freelist, Holders(refs, f) + {r});
  }

  /** decr_refc and kfree: the frame goes back to the list exactly when its last holder lets go. */
  lemma DropCounted(refs: Refs, refc: seq<int>, freelist: seq<nat>, lo: nat, hi: nat, r: Ref)
    requires Counted(refs, refc, freelist, lo, hi) && r in refs
    ensures refs[r].frame < |refc|
    ensures var f := refs[r].frame;
            Counted(refs - {r}, refc[f := refc[f] - 1], if refc[f] == 1 then [f] + freelist else freelist, lo, hi)
  {
    var f := refs[r].frame;
    HolderCounted(refs, refc, freelist, lo, hi, r);
    assert FrameOk(refs, refc, freelist, lo, hi, f);
    assert Holders(refs - {r}, f) == Holders(refs, f) - {r};
    Recounted(refs, refc, freelist, lo, hi, refs - {r}, f, refc[f] - 1,
      if refc[f] == 1 then [f] + freelist else freelist,
              Holders(refs, f) - {r});
  }

  /** Renaming a holder, or changing the flags of an entry, leaves every count as it is. */
  lemma MoveCounted(refs: Refs, refc: seq<int>, freelist: seq<nat>, lo: nat, hi: nat, r: Ref, r': Ref, p: Pte)
    requires Counted(refs, refc, freelist, lo, hi) && r in refs && (r' !in refs || r' == r) && p.frame == refs[r].frame
    ensures Counted((refs - {r})[r' := p], refc, freelist, lo, hi)
  {
    var f, refs' := p.frame, (refs - {r})[r' := p];
    HolderCounted(refs, refc, freelist, lo, hi, r);
    assert FrameOk(refs, refc, freelist, lo, hi, f);
    assert Holders(refs', f) == Holders(refs, f) - {r} + {r'};
    Recounted(refs, refc, freelist, lo, hi, refs', f, refc[f], freelist, Holders(refs', f));
    assert refc[f := refc[f]] == refc;
  }

  ghost function Frames(refs: Refs): set<nat> {
    set r | r in refs :: refs[r].frame
  }

  /** Page conservation: free frames and held frames together are all the managed frames. */
  lemma Conservation(refs: Refs, refc: seq<int>, freelist: seq<nat>, lo: nat, hi: nat)
    requires Counted(refs, refc, freelist, lo, hi)
    ensures |freelist| + |Frames(refs)| == hi - lo
  {
    var free := Elems(freelist);
    DistinctSize(freelist);
    RangeSize(lo, hi);
    forall f | f in Range(lo, hi) ensures f in free + Frames(refs) {
      assert FrameOk(refs, refc, freelist, lo, hi, f);
      if f !in free {
        assert |Holders(refs, f)| != 0;
        var r :| r in Holders(refs, f);
      }
    }
    forall f | f in free ensures f !in Frames(refs) {
      FreeUnheld(refs, refc, freelist, lo, hi, f);
    }
    assert free !! Frames(refs);
    forall f | f in free + Frames(refs) ensures f in Range(lo, hi) {
      assert FrameOk(refs, refc, freelist, lo, hi, f);
    }
    assert free + Frames(refs) == Range(lo, hi);
    assert |free + Frames(refs)| == |free| + |Frames(refs)|;
  }
}
