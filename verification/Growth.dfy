/** The user heap over the kernel: whether sbrk gives the memory that malloc goes on with (umalloc.c, proc.c). */
module HeapGrowth {
  import opened Common
  import opened Paging
  import Frames
  import Processes
  import Traces
  import opened EagerCopy
  import opened UserHeap
  import opened CowMachine

  /** All the bytes of `nu` units at `a` are in pages of the process. */
  ghost predicate Backed(e: EProc, a: nat, nu: nat) { forall b: nat :: a <= b < a + 8 * nu ==> Has(e, b) }

  /** When sbrk succeeds, morecore has the memory it asked for exactly if it asked for fewer than 2^28 units. Otherwise
      sbrk sees a number that is not positive, gives nothing, and may take pages away. */
  lemma Given(t: Table, p: nat, nu: nat)
    requires 0 < nu <= UINT / 8 && p in t && t[p].sz < KERNPAGES * PGSIZE
    requires forall v :: 0 <= v < |t[p].pages| ==> |t[p].pages[v]| == PGSIZE
    requires Enabled(t, Sbrk(p, SbrkArgument(nu))) && Allowed(t, Sbrk(p, SbrkArgument(nu)), Done)
    ensures Backed(Step(t, Sbrk(p, SbrkArgument(nu)), Done)[p], t[p].sz, nu) <==> nu < UINT / 16
  {
    var e, n := t[p], SbrkArgument(nu);
    AskedRight(nu);
    var e' := Resized(e, n);
    if nu < UINT / 16 {
      forall b: nat | e.sz <= b < e.sz + 8 * nu ensures Has(e', b) {}
    } else {
      var b := e.sz + 8 * nu - 1;
      assert n <= 0;
      assert |e'.pages| <= |e.pages|;
      assert !Has(e', b);
    }
  }

  /** The size of the process after sbrk was asked for `nu` units and succeeded. */
  function NewSize(sz: nat, nu: nat): int {
    var n := SbrkArgument(nu);
    if n > 0 || 0 < -n < sz then sz + n else sz
  }

  /** So many units were asked for that sbrk gave nothing, and the last page does not happen to reach to the header. */
  predicate Missed(sz: nat, nu: nat) {
    nu >= UINT / 16 && NewSize(sz, nu) >= 0 && (sz + 4) / PGSIZE >= PagesOf(NewSize(sz, nu))
  }

  /** morecore's first store is to the size in the header of what it was given. When sbrk succeeds, it is to a page of
      the process exactly if that was not missed; and if the size was a multiple of the page size, as exec and morecore
      itself leave it, exactly if fewer than 2^28 units were asked for. */
  lemma HeaderThere(t: Table, p: nat, nu: nat)
    requires 0 < nu <= UINT / 8 && Runs(t, p) && t[p].sz < KERNPAGES * PGSIZE
    requires forall v :: 0 <= v < |t[p].pages| ==> |t[p].pages[v]| == PGSIZE
    requires Enabled(t, Sbrk(p, SbrkArgument(nu))) && Allowed(t, Sbrk(p, SbrkArgument(nu)), Done)
    ensures var e' := Step(t, Sbrk(p, SbrkArgument(nu)), Done)[p];
      && (Has(e', t[p].sz + 4) <==> !Missed(t[p].sz, nu))
      && (t[p].sz % PGSIZE == 0 ==> (Has(e', t[p].sz + 4) <==> nu < UINT / 16))
  {
    AskedRight(nu);
    Given(t, p, nu);
    var e, n := t[p], SbrkArgument(nu);
    var e' := Resized(e, n);
    if nu < UINT / 16 {
      assert Has(e', e.sz + 4);
    } else {
      assert n <= 0 && |e'.pages| == PagesOf(NewSize(e.sz, nu)) <= PagesOf(e.sz);
    }
  }

  lemma FullPages(w: Processes.Sys, p: nat)
    requires Processes.Good(w) && p in Processes.Views(w)
    ensures p in w.procs && Processes.Views(w)[p].sz == w.procs[p].sz < KERNPAGES * PGSIZE
    ensures forall v :: 0 <= v < |Processes.Views(w)[p].pages| ==> |Processes.Views(w)[p].pages[v]| == PGSIZE
  {
    hide Processes.Good, Processes.View;
    Processes.ProcFacts(w, p);
    var e := Processes.Views(w)[p];
    forall v | 0 <= v < |e.pages| ensures |e.pages[v]| == PGSIZE { Processes.PageView(w, p, v); }
  }

  /** sbrk and the first store of morecore, in any state of the machine and by any process. */
  method Morecore(m: Machine, p: nat, nu: nat) returns (out: Outcome, hit: Outcome)
    requires m.Valid() && 0 < nu <= UINT / 8 && Enabled(m.Abs(), Sbrk(p, SbrkArgument(nu)))
    requires m.Abs()[p].sz + 4 < KERNPAGES * PGSIZE
    modifies m, m.k
    ensures m.Valid() && Allowed(old(m.Abs()), Sbrk(p, SbrkArgument(nu)), out)
    ensures out == Done && p != INIT ==> (hit == Killed <==> Missed(old(m.Abs()[p].sz), nu))
    ensures out == Done && p == INIT && Missed(old(m.Abs()[p].sz), nu) ==> hit == Panicked
    ensures out == Done && hit == Killed ==> m.Abs() == Exited(Step(old(m.Abs()), Sbrk(p, SbrkArgument(nu)), Done), p)
    ensures out == Done && hit == Panicked ==> m.Abs() == Step(old(m.Abs()), Sbrk(p, SbrkArgument(nu)), Done)
  {
    hide Processes.Good, Processes.View, Processes.Views, Traces.Traced, Short, Starved, Exited, PagesOf, Has, Missed;
    ghost var t := m.Abs();
    FullPages(m.Here(), p);
    var sz := m.procs[p].sz;
    out := m.Sbrk(p, SbrkArgument(nu));
    hit := out;
    if out == Done {
      HeaderThere(t, p, nu);
      hit := m.Store(p, sz + 4, nu);
    }
  }

  /** From boot: the first process asks for 2^28 units. The kernel answers success and gives nothing, and the store of
      the header ends the process, which for this one is a panic. */
  method Phantom(lo: nat, data: nat, code: seq<int>) returns (m: Machine, out: Outcome, hit: Outcome)
    requires 0x100 < data < lo && lo + 200 <= Frames.PHYSFRAMES && |code| < PGSIZE
    ensures m.Valid() && fresh(m) && out == Done && hit == Panicked
    ensures INIT in m.Abs() && m.Abs()[INIT].sz == PGSIZE && !Has(m.Abs()[INIT], PGSIZE + 4)
  {
    hide Processes.Good, Processes.View, Traces.Traced;
    m := new Machine(lo, data, code);
    AskedRight(UINT / 16);
    out, hit := Morecore(m, INIT, UINT / 16);
  }
}
