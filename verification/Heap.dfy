/** The user-level heap (umalloc.c), in units of one header (8 bytes): what the free list and the blocks stand for. */
module HeapModel {

  /** `list` is the free list from the base upwards; `blocks` holds the size of every block, free or live;
      `f` is where in the list freep points; `arena` is every unit obtained from the kernel. */
  datatype Heap = Heap(list: seq<nat>, blocks: map<nat, nat>, f: nat, arena: set<nat>)

  /** The base header counts as a free block of size 0. */
  function Size(h: Heap, a: nat): nat { if a in h.blocks then h.blocks[a] else 0 }

  predicate Inside(h: Heap, a: nat, u: nat) {
    a in h.blocks && a <= u < a + h.blocks[a]
  }

  /** Two blocks have no unit in common. */
  predicate Apart(h: Heap, a: nat, b: nat) {
    a in h.blocks && b in h.blocks && a < b ==> a + h.blocks[a] <= b
  }

  ghost predicate UnitOk(h: Heap, u: nat) {
    u in h.arena <==> exists a: nat :: Inside(h, a, u)
  }

  predicate Rising(list: seq<nat>, i: nat, j: nat) {
    i < j < |list| ==> list[i] < list[j]
  }

  /** Neighbours in the free list do not touch: they would have been joined. */
  predicate Untouched(h: Heap, i: nat) {
    1 <= i < |h.list| - 1 ==> h.list[i] + Size(h, h.list[i]) != h.list[i + 1]
  }

  predicate BlockOk(h: Heap, base: nat, a: nat) {
    a in h.blocks ==> h.blocks[a] > 0 && a > base
  }

  predicate ListOk(h: Heap, i: nat) {
    1 <= i < |h.list| ==> h.list[i] in h.blocks
  }

  /** The heap is in order, except that list element `x` may touch the next. */
  ghost predicate GoodBut(h: Heap, base: nat, x: int) {
    && |h.list| > 0 && h.list[0] == base && h.f < |h.list|
    && (forall i: nat, j: nat :: Rising(h.list, i, j))
    && (forall i: nat :: ListOk(h, i))
    && (forall a: nat :: BlockOk(h, base, a))
    && (forall a: nat, b: nat :: Apart(h, a, b))
    && (forall i: nat :: i == x || Untouched(h, i))
    && (forall u: nat :: UnitOk(h, u))
  }

  /** Address order, no overlap, full coalescing, and every unit in exactly one block. */
  ghost predicate Good(h: Heap, base: nat) { GoodBut(h, base, -1) }

  predicate IsLive(h: Heap, a: nat) { a in h.blocks && a !in h.list }

  /** The blocks in the program's hands. */
  function Live(h: Heap): map<nat, nat> {
    map a | a in h.blocks && IsLive(h, a) :: h.blocks[a]
  }

  /** Every unit got from the kernel is in exactly one block, free or live: none is lost and none is in two hands. */
  lemma OneBlock(h: Heap, base: nat, u: nat)
    requires Good(h, base)
    ensures u in h.arena <==> exists a: nat :: Inside(h, a, u)
    ensures forall a: nat, b: nat :: Inside(h, a, u) && Inside(h, b, u) ==> a == b
  {
    assert UnitOk(h, u);
    forall a: nat, b: nat | Inside(h, a, u) && Inside(h, b, u) ensures a == b {
      assert Apart(h, a, b) && Apart(h, b, a);
    }
  }

  // ----- free -----

  /** Where block `bp` belongs: behind the last list element below it. */
  predicate Place(h: Heap, bp: nat, t: nat) {
    && IsLive(h, bp) && t < |h.list| && h.list[t] < bp
    && (t + 1 < |h.list| ==> bp < h.list[t + 1] && h.list[t + 1] in h.blocks)
  }

  predicate TouchesUp(h: Heap, bp: nat, t: nat) {
    t + 1 < |h.list| && bp + Size(h, bp) == h.list[t + 1]
  }

  predicate TouchesDown(h: Heap, bp: nat, t: nat)
    requires t < |h.list|
  {
    h.list[t] + Size(h, h.list[t]) == bp
  }

  /** Two touching blocks made one. */
  function Merge(blocks: map<nat, nat>, a: nat, b: nat): map<nat, nat>
    requires a in blocks && b in blocks
  {
    (blocks - {b})[a := blocks[a] + blocks[b]]
  }

  /** Block `bp` enters the list behind number `t`, and the upper neighbour becomes part of it if they touch. */
  function JoinUp(h: Heap, bp: nat, t: nat): Heap
    requires Place(h, bp, t)
  {
    if TouchesUp(h, bp, t)
    then h.(blocks := Merge(h.blocks, bp, h.list[t + 1]), list := h.list[t + 1 := bp], f := t)
    else h.(list := h.list[..t + 1] + [bp] + h.list[t + 1..], f := t)
  }

  /** `bp`, now number t + 1 of the list, becomes part of its lower neighbour if they touch. */
  function JoinDown(h: Heap, bp: nat, t: nat): Heap
    requires t + 1 < |h.list| && bp in h.blocks
  {
    if TouchesDown(h, bp, t) && h.list[t] in h.blocks
    then h.(blocks := Merge(h.blocks, h.list[t], bp), list := h.list[..t + 1] + h.list[t + 2..])
    else h
  }

  /** The heap after free: in its place, joined to both neighbours where it touches them. */
  function Freed(h: Heap, bp: nat, t: nat): Heap
    requires Place(h, bp, t)
  {
    JoinDown(JoinUp(h, bp, t), bp, t)
  }

  lemma Listed(h: Heap, base: nat, x: int, i: nat, j: nat)
    requires GoodBut(h, base, x) && i < |h.list| && j < |h.list|
    ensures h.list[i] == h.list[j] <==> i == j
    ensures h.list[i] < h.list[j] <==> i < j
  {
    assert Rising(h.list, i, j) && Rising(h.list, j, i);
  }

  /** Where the block belongs it does not overlap either neighbour, and it is not in the list. */
  lemma Room(h: Heap, base: nat, bp: nat, t: nat)
    requires Good(h, base) && Place(h, bp, t)
    ensures bp > base && h.list[t] + Size(h, h.list[t]) <= bp
    ensures t + 1 < |h.list| ==> h.list[t + 1] in h.blocks && bp + h.blocks[bp] <= h.list[t + 1]
  {
    assert BlockOk(h, base, bp) && ListOk(h, t) && ListOk(h, t + 1);
    assert Apart(h, h.list[t], bp);
    if t + 1 < |h.list| { assert Apart(h, bp, h.list[t + 1]); }
  }

  lemma JoinUpRising(h: Heap, base: nat, bp: nat, t: nat)
    requires Good(h, base) && Place(h, bp, t)
    ensures forall i: nat, j: nat :: Rising(JoinUp(h, bp, t).list, i, j)
  {
    var l := JoinUp(h, bp, t).list;
    forall i: nat, j: nat ensures Rising(l, i, j) {
      if i < j < |l| {
        var up := if TouchesUp(h, bp, t) then 0 else 1;
        var i' := if i <= t + 1 then i else i - up;
        var j' := if j <= t + 1 then j else j - up;
        assert Rising(h.list, i', j') && Rising(h.list, i', t) && Rising(h.list, t + 1, j') && Rising(h.list, i, t);
      }
    }
  }

  lemma MergeOk(h: Heap, base: nat, g: Heap, a: nat, b: nat)
    requires (forall x: nat :: BlockOk(h, base, x)) && (forall x: nat, y: nat :: Apart(h, x, y))
      && (forall u: nat :: UnitOk(h, u))
    requires a in h.blocks && b in h.blocks && a + h.blocks[a] == b
    requires g.blocks == Merge(h.blocks, a, b) && g.arena == h.arena
    ensures (forall x: nat :: BlockOk(g, base, x)) && (forall x: nat, y: nat :: Apart(g, x, y))
      && (forall u: nat :: UnitOk(g, u))
  {
    assert BlockOk(h, base, a) && BlockOk(h, base, b);
    forall x: nat ensures BlockOk(g, base, x) { assert BlockOk(h, base, x); }
    forall x: nat, y: nat ensures Apart(g, x, y) {
      assert Apart(h, x, y) && Apart(h, x, b) && Apart(h, b, y) && Apart(h, a, y);
    }
    forall u: nat ensures UnitOk(g, u) {
      assert UnitOk(h, u);
      if c: nat :| Inside(h, c, u) { assert Inside(g, if c == b then a else c, u); }
      if c: nat :| Inside(g, c, u) { assert Inside(h, c, u) || Inside(h, b, u); }
    }
  }

  lemma SameBlocks(h: Heap, base: nat, g: Heap)
    requires (forall x: nat :: BlockOk(h, base, x)) && (forall x: nat, y: nat :: Apart(h, x, y))
      && (forall u: nat :: UnitOk(h, u))
    requires g.blocks == h.blocks && g.arena == h.arena
    ensures (forall x: nat :: BlockOk(g, base, x)) && (forall x: nat, y: nat :: Apart(g, x, y))
      && (forall u: nat :: UnitOk(g, u))
  {
    forall x: nat ensures BlockOk(g, base, x) { assert BlockOk(h, base, x); }
    forall x: nat, y: nat ensures Apart(g, x, y) { assert Apart(h, x, y); }
    forall u: nat ensures UnitOk(g, u) {
      assert UnitOk(h, u);
      if c: nat :| Inside(h, c, u) { assert Inside(g, c, u); }
      if c: nat :| Inside(g, c, u) { assert Inside(h, c, u); }
    }
  }

  lemma JoinUpGood(h: Heap, base: nat, bp: nat, t: nat)
    requires Good(h, base) && Place(h, bp, t)
    ensures GoodBut(JoinUp(h, bp, t), base, t)
    ensures t + 1 < |JoinUp(h, bp, t).list| && JoinUp(h, bp, t).list[t + 1] == bp
      && JoinUp(h, bp, t).list[t] == h.list[t]
  {
    var g := JoinUp(h, bp, t);
    Room(h, base, bp, t);
    JoinUpRising(h, base, bp, t);
    if TouchesUp(h, bp, t) {
      MergeOk(h, base, g, bp, h.list[t + 1]);
    } else {
      SameBlocks(h, base, g);
    }
    forall i: nat ensures ListOk(g, i) && (i == t || Untouched(g, i)) {
      JoinUpAt(h, base, bp, t, i);
    }
  }

  lemma JoinUpAt(h: Heap, base: nat, bp: nat, t: nat, i: nat)
    requires Good(h, base) && Place(h, bp, t)
    ensures ListOk(JoinUp(h, bp, t), i) && (i == t || Untouched(JoinUp(h, bp, t), i))
  {
    hide UnitOk;
    var g := JoinUp(h, bp, t);
    var up := if TouchesUp(h, bp, t) then 0 else 1;
    var i' := if i <= t + 1 then i else i - up;
    assert ListOk(h, i') && Untouched(h, i') && ListOk(h, i' + 1);
    if i < |g.list| {
      if t + 1 < |h.list| && i' < |h.list| { Listed(h, base, -1, i', t + 1); }
      assert Untouched(h, t + 1);
    }
  }

  lemma JoinDownGood(h: Heap, base: nat, bp: nat, t: nat)
    requires GoodBut(h, base, t) && h.f == t && t + 1 < |h.list| && h.list[t + 1] == bp && bp in h.blocks
    ensures Good(JoinDown(h, bp, t), base)
  {
    hide UnitOk;
    var g := JoinDown(h, bp, t);
    assert ListOk(h, t) && BlockOk(h, base, bp) && Rising(h.list, t, t + 1);
    if g != h {
      MergeOk(h, base, g, h.list[t], bp);
      forall i: nat, j: nat ensures Rising(g.list, i, j) {
        assert Rising(h.list, if i <= t then i else i + 1, if j <= t then j else j + 1);
      }
    }
    forall i: nat ensures ListOk(g, i) && Untouched(g, i) { JoinDownAt(h, base, bp, t, i); }
  }

  lemma JoinDownAt(h: Heap, base: nat, bp: nat, t: nat, i: nat)
    requires GoodBut(h, base, t) && h.f == t && t + 1 < |h.list| && h.list[t + 1] == bp && bp in h.blocks
    ensures ListOk(JoinDown(h, bp, t), i) && Untouched(JoinDown(h, bp, t), i)
  {
    var g := JoinDown(h, bp, t);
    var i' := if i <= t then i else i + 1;
    assert ListOk(h, t) && BlockOk(h, base, bp) && Rising(h.list, t, t + 1);
    assert ListOk(h, i') && (i' == t || Untouched(h, i')) && Untouched(h, t + 1) && (i == t || Untouched(h, i));
    if i < |h.list| && i' < |h.list| {
      Listed(h, base, t, i', t + 1);
      Listed(h, base, t, i', t);
    }
    hide GoodBut;
    assert i < |g.list| ==> g.list[i] == h.list[if g == h then i else i'];
  }

  /** free keeps the heap in order, gives up exactly the one block, and loses no unit. */
  lemma FreedGood(h: Heap, base: nat, bp: nat, t: nat)
    requires Good(h, base) && Place(h, bp, t)
    ensures Good(Freed(h, bp, t), base)
    ensures Live(Freed(h, bp, t)) == Live(h) - {bp} && Freed(h, bp, t).arena == h.arena
  {
    JoinUpGood(h, base, bp, t);
    var g := JoinUp(h, bp, t);
    JoinDownGood(g, base, bp, t);
    FreedLive(h, base, bp, t);
  }

  lemma FreedLive(h: Heap, base: nat, bp: nat, t: nat)
    requires Good(h, base) && Place(h, bp, t)
    ensures Live(Freed(h, bp, t)) == Live(h) - {bp}
  {
    hide Freed;
    hide GoodBut;
    var r := Freed(h, bp, t);
    forall a: nat ensures a in Live(r) <==> a in Live(h) - {bp} { FreedAt(h, base, bp, t, a); }
    forall a: nat | a in Live(r) ensures Live(r)[a] == (Live(h) - {bp})[a] { FreedAt(h, base, bp, t, a); }
  }

  lemma FreedAt(h: Heap, base: nat, bp: nat, t: nat, a: nat)
    requires Good(h, base) && Place(h, bp, t)
    ensures IsLive(Freed(h, bp, t), a) <==> IsLive(h, a) && a != bp
    ensures IsLive(Freed(h, bp, t), a) ==> Freed(h, bp, t).blocks[a] == h.blocks[a]
  {
    JoinUpGood(h, base, bp, t);
    var g := JoinUp(h, bp, t);
    var r := JoinDown(g, bp, t);
    assert a in g.list <==> (a in h.list && !(TouchesUp(h, bp, t) && a == h.list[t + 1])) || a == bp by {
      Gone(h, base, bp, t, a);
    }
    assert ListOk(g, t);
    if r != g {
      Left(g, base, t, a);
    }
  }

  lemma Gone(h: Heap, base: nat, bp: nat, t: nat, a: nat)
    requires Good(h, base) && Place(h, bp, t)
    ensures a in JoinUp(h, bp, t).list <==> (a in h.list && !(TouchesUp(h, bp, t) && a == h.list[t + 1])) || a == bp
  {
    var g := JoinUp(h, bp, t);
    if a in h.list {
      var i :| 0 <= i < |h.list| && h.list[i] == a;
      if TouchesUp(h, bp, t) { Listed(h, base, -1, i, t + 1); assert i != t + 1 ==> g.list[i] == a; }
    }
    if TouchesUp(h, bp, t) && a in g.list {
      var i :| 0 <= i < |g.list| && g.list[i] == a;
      Listed(h, base, -1, i, t + 1);
    }
    assert g.list[t + 1] == bp;
  }

  lemma Left(g: Heap, base: nat, t: nat, a: nat)
    requires GoodBut(g, base, t) && t + 1 < |g.list|
    ensures a in g.list[..t + 1] + g.list[t + 2..] <==> a in g.list && a != g.list[t + 1]
  {
    var r := g.list[..t + 1] + g.list[t + 2..];
    if a in g.list && a != g.list[t + 1] {
      var i :| 0 <= i < |g.list| && g.list[i] == a;
      assert r[if i <= t then i else i - 1] == a;
    }
    if a in r {
      var i :| 0 <= i < |r| && r[i] == a;
      Listed(g, base, t, if i <= t then i else i + 1, t + 1);
      assert g.list[if i <= t then i else i + 1] == a;
    }
  }

  // ----- malloc -----

  /** Free block number `k` is large enough. */
  predicate Fits(h: Heap, k: nat, n: nat) {
    1 <= k < |h.list| && h.list[k] in h.blocks && h.blocks[h.list[k]] >= n
  }

  /** The block handed out: all of block number `k`, or its tail end. */
  function Cut(h: Heap, k: nat, n: nat): nat
    requires Fits(h, k, n)
  {
    h.list[k] + h.blocks[h.list[k]] - n
  }

  /** The heap after `n` units of free block number `k` are handed out. */
  function Taken(h: Heap, k: nat, n: nat): Heap
    requires Fits(h, k, n)
  {
    var p := h.list[k];
    if h.blocks[p] == n then h.(list := h.list[..k] + h.list[k + 1..], f := k - 1)
    else h.(blocks := h.blocks[p := h.blocks[p] - n][Cut(h, k, n) := n], f := k - 1)
  }

  lemma OnlyFree(h: Heap, base: nat, a: nat)
    requires Good(h, base) && a in h.list
    ensures a == base || a in h.blocks
  {
    var i :| 0 <= i < |h.list| && h.list[i] == a;
    assert ListOk(h, i);
  }

  lemma WithoutAt(h: Heap, base: nat, k: nat, a: nat)
    requires Good(h, base) && 1 <= k < |h.list|
    ensures a in h.list[..k] + h.list[k + 1..] <==> a in h.list && a != h.list[k]
  {
    var r := h.list[..k] + h.list[k + 1..];
    if a in h.list && a != h.list[k] {
      var i :| 0 <= i < |h.list| && h.list[i] == a;
      assert r[if i < k then i else i - 1] == a;
    }
    if a in r {
      var i :| 0 <= i < |r| && r[i] == a;
      Listed(h, base, -1, if i < k then i else i + 1, k);
      assert h.list[if i < k then i else i + 1] == a;
    }
  }

  lemma SplitBlocks(h: Heap, base: nat, k: nat, n: nat)
    requires Good(h, base) && n > 0 && Fits(h, k, n) && h.blocks[h.list[k]] > n
    ensures Cut(h, k, n) !in h.blocks
    ensures forall x: nat :: BlockOk(Taken(h, k, n), base, x)
    ensures forall x: nat, y: nat :: Apart(Taken(h, k, n), x, y)
    ensures forall u: nat :: UnitOk(Taken(h, k, n), u)
  {
    var p, q, g := h.list[k], Cut(h, k, n), Taken(h, k, n);
    assert BlockOk(h, base, p) && Apart(h, p, q) && BlockOk(h, base, q);
    forall x: nat ensures BlockOk(g, base, x) { assert BlockOk(h, base, x); }
    forall x: nat, y: nat ensures Apart(g, x, y) {
      assert Apart(h, x, y) && Apart(h, x, p) && Apart(h, p, x) && Apart(h, p, y) && BlockOk(h, base, x);
    }
    forall u: nat ensures UnitOk(g, u) {
      assert UnitOk(h, u);
      if c: nat :| Inside(h, c, u) { assert Inside(g, if c == p && u >= q then q else c, u); }
      if c: nat :| Inside(g, c, u) { assert Inside(h, if c == q then p else c, u); }
    }
  }

  /** malloc keeps the heap in order and hands out exactly `n` units that were in no live block. */
  lemma TakenGood(h: Heap, base: nat, k: nat, n: nat)
    requires Good(h, base) && n > 0 && Fits(h, k, n)
    ensures Good(Taken(h, k, n), base)
    ensures Cut(h, k, n) !in Live(h) && Live(Taken(h, k, n)) == Live(h)[Cut(h, k, n) := n]
    ensures Taken(h, k, n).arena == h.arena
  {
    var p, g := h.list[k], Taken(h, k, n);
    if h.blocks[p] == n {
      SameBlocks(h, base, g);
      forall i: nat, j: nat ensures Rising(g.list, i, j) {
        assert Rising(h.list, if i < k then i else i + 1, if j < k then j else j + 1);
      }
      forall i: nat ensures ListOk(g, i) && Untouched(g, i) { UnlistedAt(h, base, k, n, i); }
      forall a: nat ensures IsLive(g, a) <==> IsLive(h, a) || a == p { WithoutAt(h, base, k, a); }
    } else {
      SplitBlocks(h, base, k, n);
      var q := Cut(h, k, n);
      assert BlockOk(h, base, p);
      if q in h.list { OnlyFree(h, base, q); }
      forall i: nat, j: nat ensures Rising(g.list, i, j) { assert Rising(h.list, i, j); }
      forall i: nat ensures ListOk(g, i) && Untouched(g, i) {
        assert ListOk(h, i) && Untouched(h, i);
        if 1 <= i < |h.list| - 1 {
          Listed(h, base, -1, i, k);
          assert Rising(h.list, i, i + 1);
          assert ListOk(h, i + 1) && Apart(h, h.list[i], h.list[i + 1]);
        }
      }
      forall a: nat ensures IsLive(g, a) <==> IsLive(h, a) || a == q {}
    }
  }

  /** Taking out a list element brings no two others together. */
  lemma UnlistedAt(h: Heap, base: nat, k: nat, n: nat, i: nat)
    requires Good(h, base) && n > 0 && Fits(h, k, n) && h.blocks[h.list[k]] == n
    ensures ListOk(Taken(h, k, n), i) && Untouched(Taken(h, k, n), i)
  {
    var g := Taken(h, k, n);
    var i' := if i < k then i else i + 1;
    assert ListOk(h, i') && Untouched(h, i');
    if i == k - 1 && 1 <= i < |g.list| - 1 {
      assert ListOk(h, k) && Apart(h, h.list[i], h.list[k]) && Rising(h.list, i, k) && Rising(h.list, k, k + 1);
    }
  }

  predicate Below(h: Heap, at: nat, a: nat) { a in h.blocks ==> a + h.blocks[a] <= at }

  predicate Within(at: nat, n: nat, u: nat) { at <= u < at + n }

  function Units(at: nat, n: nat): set<nat> { set u: nat | u < at + n && Within(at, n, u) }

  /** What malloc hands out are the last units of the block it found, of which the rest stays where it was. */
  lemma TailTaken(h: Heap, base: nat, k: nat, n: nat)
    requires Good(h, base) && n > 0 && Fits(h, k, n)
    ensures var g, p := Taken(h, k, n), h.list[k];
      && Cut(h, k, n) + n == p + h.blocks[p] && (p in g.list <==> n < h.blocks[p])
      && (n < h.blocks[p] ==> g.list == h.list && g.blocks[p] == h.blocks[p] - n && Cut(h, k, n) !in h.blocks)
      && (forall a :: a in h.blocks && a != p ==> a in g.blocks && g.blocks[a] == h.blocks[a])
  {
    var p, q := h.list[k], Cut(h, k, n);
    assert BlockOk(h, base, p) && Apart(h, p, q);
    if n == h.blocks[p] { WithoutAt(h, base, k, p); }
  }

  /** free undoes malloc: the blocks and the free list are what they were. */
  lemma FreeUndoes(h: Heap, base: nat, k: nat, n: nat)
    requires Good(h, base) && n > 0 && Fits(h, k, n)
    ensures var g, q, t := Taken(h, k, n), Cut(h, k, n), if h.blocks[h.list[k]] == n then k - 1 else k;
      Place(g, q, t) && Freed(g, q, t) == h.(f := t)
  {
    if h.blocks[h.list[k]] == n { WholeUndone(h, base, k, n); } else { TailUndone(h, base, k, n); }
  }

  lemma WholeUndone(h: Heap, base: nat, k: nat, n: nat)
    requires Good(h, base) && n > 0 && Fits(h, k, n) && h.blocks[h.list[k]] == n
    ensures var g, q := Taken(h, k, n), Cut(h, k, n); Place(g, q, k - 1) && Freed(g, q, k - 1) == h.(f := k - 1)
  {
    var g, p := Taken(h, k, n), h.list[k];
    WithoutAt(h, base, k, p);
    assert Rising(h.list, k - 1, k) && Rising(h.list, k, k + 1) && ListOk(h, k + 1);
    assert Untouched(h, k) && Untouched(h, k - 1) && BlockOk(h, base, base);
    assert g.list[..k] + [p] + g.list[k..] == h.list;
  }

  lemma TailFacts(h: Heap, base: nat, k: nat, n: nat)
    requires Good(h, base) && n > 0 && Fits(h, k, n) && h.blocks[h.list[k]] > n
    ensures Cut(h, k, n) !in h.list && Cut(h, k, n) !in h.blocks
    ensures k + 1 < |h.list| ==>
      h.list[k + 1] in h.blocks && h.list[k + 1] != h.list[k] && h.list[k] + h.blocks[h.list[k]] < h.list[k + 1]
  {
    var p, q := h.list[k], Cut(h, k, n);
    TailTaken(h, base, k, n);
    assert BlockOk(h, base, p) && Rising(h.list, k, k + 1) && ListOk(h, k + 1) && Untouched(h, k);
    if q in h.list { OnlyFree(h, base, q); }
    if k + 1 < |h.list| { assert Apart(h, p, h.list[k + 1]); }
  }

  lemma TailUndone(h: Heap, base: nat, k: nat, n: nat)
    requires Good(h, base) && n > 0 && Fits(h, k, n) && h.blocks[h.list[k]] > n
    ensures var g, q := Taken(h, k, n), Cut(h, k, n); Place(g, q, k) && Freed(g, q, k) == h.(f := k)
  {
    hide GoodBut;
    var g, p, q := Taken(h, k, n), h.list[k], Cut(h, k, n);
    TailFacts(h, base, k, n);
    var u := JoinUp(g, q, k);
    assert u.list == h.list[..k + 1] + [q] + h.list[k + 1..] && u.blocks == g.blocks;
    assert u.list[..k + 1] + u.list[k + 2..] == h.list;
    assert Merge(u.blocks, p, q) == h.blocks;
  }

  /** The heap after the kernel gave `n` units at `at`: one more live block, about to be freed. */
  function Grown(h: Heap, at: nat, n: nat): Heap {
    h.(blocks := h.blocks[at := n], arena := h.arena + Units(at, n))
  }

  lemma GrownGood(h: Heap, base: nat, at: nat, n: nat)
    requires Good(h, base) && n > 0 && at > base && forall a: nat :: Below(h, at, a)
    ensures Good(Grown(h, at, n), base)
    ensures at !in h.blocks && at !in h.list && Live(Grown(h, at, n)) == Live(h)[at := n]
  {
    var g := Grown(h, at, n);
    assert Below(h, at, at) && BlockOk(h, base, at);
    if at in h.list { OnlyFree(h, base, at); }
    forall x: nat ensures BlockOk(g, base, x) { assert BlockOk(h, base, x); }
    forall x: nat, y: nat
      ensures Apart(g, x, y)
    {
      assert Apart(h, x, y) && Below(h, at, x) && Below(h, at, y) && BlockOk(h, base, y);
    }
    forall u: nat ensures UnitOk(g, u) {
      assert UnitOk(h, u);
      if c: nat :| Inside(h, c, u) { assert Below(h, at, c); assert Inside(g, c, u); }
      if c: nat :| Inside(g, c, u) { assert c == at || Inside(h, c, u); }
      assert u in Units(at, n) ==> Inside(g, at, u);
    }
    forall i: nat, j: nat ensures Rising(g.list, i, j) { assert Rising(h.list, i, j); }
    forall i: nat ensures ListOk(g, i) && Untouched(g, i) {
      assert ListOk(h, i) && Untouched(h, i);
      assert 0 <= i < |h.list| ==> h.list[i] != at;
    }
    forall a: nat ensures IsLive(g, a) <==> IsLive(h, a) || a == at {}
  }
}

/** The headers in memory, and how they thread the free list. */
module HeapLinks {
  import opened HeapModel

  datatype Header = Header(ptr: nat, size: nat)

  function Next(list: seq<nat>, i: nat): nat
    requires i < |list|
  {
    if i + 1 < |list| then list[i + 1] else list[0]
  }

  predicate LinkOk(mem: map<nat, Header>, h: Heap, i: nat) {
    i < |h.list| ==> h.list[i] in mem && mem[h.list[i]].ptr == Next(h.list, i)
  }

  predicate SizeOk(mem: map<nat, Header>, h: Heap, a: nat) {
    a in h.blocks ==> a in mem && mem[a].size == h.blocks[a]
  }

  /** The headers thread the list in a circle, except perhaps at number `x`, and hold the size of every block. */
  ghost predicate LinkedBut(mem: map<nat, Header>, h: Heap, base: nat, x: int) {
    && base in mem && mem[base].size == 0
    && (forall a: nat :: SizeOk(mem, h, a))
    && (forall i: nat :: i == x || LinkOk(mem, h, i))
  }

  ghost predicate Linked(mem: map<nat, Header>, h: Heap, base: nat) { LinkedBut(mem, h, base, -1) }

  /** free's treatment of the upper neighbour. */
  function UpMem(mem: map<nat, Header>, bp: nat, q: nat): map<nat, Header>
    requires bp in mem && q in mem
  {
    if bp + mem[bp].size == q then mem[bp := Header(mem[q].ptr, mem[bp].size + mem[q].size)]
    else mem[bp := mem[bp].(ptr := q)]
  }

  /** free's treatment of the lower neighbour. */
  function DownMem(mem: map<nat, Header>, bp: nat, p: nat): map<nat, Header>
    requires bp in mem && p in mem
  {
    if p + mem[p].size == bp then mem[p := Header(mem[bp].ptr, mem[p].size + mem[bp].size)]
    else mem[p := mem[p].(ptr := bp)]
  }

  lemma UpLinked(mem: map<nat, Header>, h: Heap, base: nat, bp: nat, t: nat)
    requires Good(h, base) && Linked(mem, h, base) && Place(h, bp, t)
    requires bp in mem && Next(h.list, t) in mem
    ensures LinkedBut(UpMem(mem, bp, Next(h.list, t)), JoinUp(h, bp, t), base, t)
  {
    var g, q := JoinUp(h, bp, t), Next(h.list, t);
    var mem' := UpMem(mem, bp, q);
    assert BlockOk(h, base, bp) && SizeOk(mem, h, bp) && SizeOk(mem, h, q) && LinkOk(mem, h, t)
      && LinkOk(mem, h, t + 1);
    assert TouchesUp(h, bp, t) <==> bp + mem[bp].size == q;
    forall a: nat ensures SizeOk(mem', g, a) { assert SizeOk(mem, h, a); }
    JoinUpGood(h, base, bp, t);
    forall i: nat ensures i == t || LinkOk(mem', g, i) {
      var up := if TouchesUp(h, bp, t) then 0 else 1;
      var i' := if i <= t + 1 then i else i - up;
      assert LinkOk(mem, h, i');
      if i < |g.list| && i != t + 1 { Listed(g, base, t, i, t + 1); }
    }
  }

  lemma DownLinked(mem: map<nat, Header>, h: Heap, base: nat, bp: nat, t: nat)
    requires GoodBut(h, base, t) && LinkedBut(mem, h, base, t) && t + 1 < |h.list| && h.list[t + 1] == bp
      && bp in h.blocks
    requires bp in mem && h.list[t] in mem
    ensures Linked(DownMem(mem, bp, h.list[t]), JoinDown(h, bp, t), base)
  {
    var g, p := JoinDown(h, bp, t), h.list[t];
    var mem' := DownMem(mem, bp, p);
    assert BlockOk(h, base, bp) && BlockOk(h, base, p) && SizeOk(mem, h, bp) && SizeOk(mem, h, p)
      && LinkOk(mem, h, t + 1) && ListOk(h, t);
    assert BlockOk(h, base, base);
    forall a: nat ensures SizeOk(mem', g, a) { assert SizeOk(mem, h, a); }
    forall i: nat ensures LinkOk(mem', g, i) {
      var i' := if g != h && i > t then i + 1 else i;
      assert i' == t || LinkOk(mem, h, i');
      if i' < |h.list| { Listed(h, base, t, i', t); }
    }
  }

  lemma FreeFacts(mem: map<nat, Header>, h: Heap, base: nat, bp: nat, t: nat)
    requires Good(h, base) && Linked(mem, h, base) && Place(h, bp, t)
    ensures bp in mem && h.list[t] in mem && mem[h.list[t]].ptr == Next(h.list, t) && Next(h.list, t) in mem
    ensures Freed(h, bp, t).f == t && t < |Freed(h, bp, t).list| && Freed(h, bp, t).list[t] == h.list[t]
  {
    assert LinkOk(mem, h, t) && SizeOk(mem, h, bp) && LinkOk(mem, h, t + 1) && LinkOk(mem, h, 0);
    JoinUpGood(h, base, bp, t);
  }

  /** The assignments of free thread the new list. */
  lemma FreeLinked(mem: map<nat, Header>, h: Heap, base: nat, bp: nat, t: nat)
    requires Good(h, base) && Linked(mem, h, base) && Place(h, bp, t)
    requires bp in mem && h.list[t] in mem && Next(h.list, t) in mem
    ensures Linked(DownMem(UpMem(mem, bp, Next(h.list, t)), bp, h.list[t]), Freed(h, bp, t), base)
  {
    JoinUpGood(h, base, bp, t);
    UpLinked(mem, h, base, bp, t);
    DownLinked(UpMem(mem, bp, Next(h.list, t)), JoinUp(h, bp, t), base, bp, t);
  }

  /** malloc's change to the headers. */
  function TakeMem(mem: map<nat, Header>, prevp: nat, p: nat, n: nat): map<nat, Header>
    requires prevp in mem && p in mem && mem[p].size >= n
  {
    if mem[p].size == n then mem[prevp := mem[prevp].(ptr := mem[p].ptr)]
    else
      var m := mem[p := mem[p].(size := mem[p].size - n)];
      var q := p + m[p].size;
      m[q := Header(if q in m then m[q].ptr else 0, n)]
  }

  lemma TakeLinked(mem: map<nat, Header>, h: Heap, base: nat, k: nat, n: nat)
    requires Good(h, base) && Linked(mem, h, base) && n > 0 && Fits(h, k, n)
    requires h.list[k - 1] in mem && h.list[k] in mem && mem[h.list[k]].size >= n
    ensures Linked(TakeMem(mem, h.list[k - 1], h.list[k], n), Taken(h, k, n), base)
  {
    var g, p := Taken(h, k, n), h.list[k];
    var mem' := TakeMem(mem, h.list[k - 1], p, n);
    assert SizeOk(mem, h, p) && LinkOk(mem, h, k) && BlockOk(h, base, p) && BlockOk(h, base, base);
    forall a: nat ensures SizeOk(mem', g, a) { assert SizeOk(mem, h, a); }
    if h.blocks[p] != n { SplitBlocks(h, base, k, n); if Cut(h, k, n) in h.list { OnlyFree(h, base, Cut(h, k, n)); } }
    forall i: nat ensures LinkOk(mem', g, i) {
      var i' := if h.blocks[p] == n && i >= k then i + 1 else i;
      assert LinkOk(mem, h, i');
      if i' < |h.list| { Listed(h, base, -1, i', k - 1); }
    }
  }
}

/** malloc and free. */
module UserHeap {
  import opened Common
  import opened HeapModel
  import opened HeapLinks

  /** The number of units malloc looks for: the rounding is done in 32-bit arithmetic. */
  function Wanted(nbytes: nat): nat { (nbytes + 7) % UINT / 8 + 1 }

  /** What sbrk gets to see: a product of 32 bits taken as a signed number. */
  function SbrkArgument(nu: nat): int {
    var x := nu * 8 % UINT;
    if x < UINT / 2 then x else x - UINT
  }

  /** The units behind the header hold the bytes asked for exactly when the rounding does not wrap. */
  lemma Enough(nbytes: nat)
    requires nbytes < UINT
    ensures 8 * (Wanted(nbytes) - 1) >= nbytes <==> nbytes + 7 < UINT
    ensures nbytes + 7 < UINT ==> 8 * (Wanted(nbytes) - 2) < nbytes
  {
    if nbytes + 7 < UINT {
      assert (nbytes + 7) % UINT == nbytes + 7;
    } else {
      assert (nbytes + 7) % UINT == nbytes + 7 - UINT;
    }
  }

  /** sbrk is asked for as many bytes as meant exactly for fewer than 2^28 units. */
  lemma AskedRight(nu: nat)
    requires nu <= UINT / 8
    ensures SbrkArgument(nu) == nu * 8 <==> nu < UINT / 16
  {
    if nu == UINT / 8 {
      assert nu * 8 % UINT == 0;
    } else {
      assert nu * 8 % UINT == nu * 8;
    }
  }

  /** List element number f + j, going round. */
  function Around(h: Heap, j: nat): nat
    requires h.f < |h.list| && j <= |h.list|
  {
    if h.f + j < |h.list| then h.f + j else h.f + j - |h.list|
  }

  predicate Small(h: Heap, n: nat, k: nat) { k < |h.list| ==> Size(h, h.list[k]) < n }

  /** Block `k` is the first large enough, looking round from behind freep. */
  ghost predicate First(h: Heap, k: nat, n: nat) {
    && h.f < |h.list|
    && exists j: nat ::
      1 <= j <= |h.list| && k == Around(h, j) && forall i: nat :: 1 <= i < j ==> Small(h, n, Around(h, i))
  }

  /** A round through the list has seen all of it. */
  lemma AllSmall(h: Heap, n: nat)
    requires h.f < |h.list| && forall i: nat :: 1 <= i <= |h.list| ==> Small(h, n, Around(h, i))
    ensures forall k: nat :: Small(h, n, k)
  {
    forall k: nat ensures Small(h, n, k) {
      if k < |h.list| {
        var i := if k > h.f then k - h.f else k - h.f + |h.list|;
        assert k == Around(h, i);
      }
    }
  }

  /** After free, some free block contains the block given up. */
  lemma FreedFits(h: Heap, base: nat, bp: nat, t: nat) returns (k: nat)
    requires Good(h, base) && Place(h, bp, t)
    ensures Fits(Freed(h, bp, t), k, h.blocks[bp])
  {
    JoinUpGood(h, base, bp, t);
    var g := JoinUp(h, bp, t);
    assert ListOk(g, t) && BlockOk(h, base, bp);
    k := if Freed(h, bp, t) == g then t + 1 else t;
    if Freed(h, bp, t) != g { assert BlockOk(g, base, base); }
  }

  /** The place of a block in the list is unique. */
  lemma OnePlace(h: Heap, base: nat, bp: nat, t: nat, i: nat)
    requires Good(h, base) && Place(h, bp, t) && i < |h.list|
    ensures h.list[i] < bp <==> i <= t
  {
    Listed(h, base, -1, i, t);
    if t + 1 < |h.list| { Listed(h, base, -1, i, t + 1); }
  }

  lemma {:induction false} HasPlace(h: Heap, base: nat, bp: nat, n: nat) returns (t: nat)
    requires Good(h, base) && IsLive(h, bp) && 1 <= n <= |h.list|
    requires n < |h.list| ==> bp < h.list[n]
    ensures Place(h, bp, t)
    decreases n
  {
    assert BlockOk(h, base, bp) && ListOk(h, n);
    if n == 1 || h.list[n - 1] < bp { t := n - 1; } else { t := HasPlace(h, base, bp, n - 1); }
  }

  class Allocator {
    const base: nat
    var mem: map<nat, Header>
    var freep: Option<nat>
    ghost var h: Heap

    ghost predicate Valid()
      reads this
    {
      && Good(h, base)
      && (freep.Some? ==> Linked(mem, h, base) && freep.value == h.list[h.f])
      && (freep.None? ==> h == Heap([base], map[], 0, {}))
    }

    constructor (base: nat)
      ensures this.base == base && Valid() && h == Heap([base], map[], 0, {})
    {
      this.base := base;
      mem := map[];
      freep := None;
      h := Heap([base], map[], 0, {});
    }

    /** The loop of free: the list element the block goes behind. */
    method Find(bp: nat) returns (p: nat, ghost t: nat)
      requires Valid() && freep.Some? && IsLive(h, bp)
      ensures Place(h, bp, t) && p == h.list[t]
    {
      t := HasPlace(h, base, bp, |h.list|);
      p := freep.value;
      ghost var i: nat := h.f;
      assert LinkOk(mem, h, i) && BlockOk(h, base, bp);
      while !(bp > p && bp < mem[p].ptr)
        invariant i < |h.list| && p == h.list[i] && p in mem && mem[p].ptr == Next(h.list, i)
        decreases if i <= t then t - i else t - i + |h.list|
      {
        OnePlace(h, base, bp, t, i);
        Listed(h, base, -1, i, 0);
        if i + 1 < |h.list| { OnePlace(h, base, bp, t, i + 1); Listed(h, base, -1, i, i + 1); }
        if p >= mem[p].ptr && (bp > p || bp < mem[p].ptr) {
          t := i;
          return;
        }
        p := mem[p].ptr;
        i := if i + 1 < |h.list| then i + 1 else 0;
        assert LinkOk(mem, h, i);
      }
      Listed(h, base, -1, i, 0);
      OnePlace(h, base, bp, t, i);
      if i + 1 < |h.list| { OnePlace(h, base, bp, t, i + 1); }
    }

    /** free. */
    method Free(bp: nat) returns (ghost t: nat)
      requires Valid() && freep.Some? && IsLive(h, bp)
      modifies this`mem, this`freep, this`h
      ensures Valid() && freep.Some? && old(Place(h, bp, t)) && h == Freed(old(h), bp, t)
      ensures Live(h) == Live(old(h)) - {bp} && h.arena == old(h.arena)
    {
      var p;
      p, t := Find(bp);
      FreeFacts(mem, h, base, bp, t);
      FreedGood(h, base, bp, t);
      FreeLinked(mem, h, base, bp, t);
      hide GoodBut;
      hide LinkedBut;
      hide Freed;
      hide Live;
      var q := mem[p].ptr;
      if bp + mem[bp].size == q {
        mem := mem[bp := Header(mem[q].ptr, mem[bp].size + mem[q].size)];
      } else {
        mem := mem[bp := mem[bp].(ptr := q)];
      }
      if p + mem[p].size == bp {
        mem := mem[p := Header(mem[bp].ptr, mem[p].size + mem[bp].size)];
      } else {
        mem := mem[p := mem[p].(ptr := bp)];
      }
      freep := Some(p);
      h := Freed(h, bp, t);
    }

    /** morecore: `more` is what sbrk answers. Whether there is memory is another question: see `Given`. */
    method Morecore(n: nat, more: Option<nat>) returns (ok: bool)
      requires Valid() && freep.Some? && n > 0 && Answered(h, base, more)
      modifies this`mem, this`freep, this`h
      ensures Valid() && freep.Some? && ok == more.Some?
      ensures !ok ==> h == old(h)
      ensures ok ==> Regrown(old(h), h, more.value, Most(n)) && exists k: nat :: Fits(h, k, n)
      ensures ok ==> Live(h) == Live(old(h)) && h.arena == old(h.arena) + Units(more.value, Most(n))
    {
      var nu := if n < 4096 then 4096 else n;
      if more.None? { return false; }
      var hp := more.value;
      GrownGood(h, base, hp, nu);
      GrownLinked(mem, h, base, hp, nu);
      hide GoodBut;
      hide LinkedBut;
      hide Live;
      hide Freed;
      mem := mem[hp := Header(if hp in mem then mem[hp].ptr else 0, nu)];
      h := Grown(h, hp, nu);
      ghost var g := h;
      ghost var t := Free(hp);
      ghost var k := FreedFits(g, base, hp, t);
      assert Fits(h, k, n);
      assert Live(old(h))[hp := nu] - {hp} == Live(old(h));
      ok := true;
    }

    /** The first call finds an empty list. */
    method Init()
      requires Valid()
      modifies this`mem, this`freep
      ensures Valid() && freep.Some?
    {
      if freep.None? {
        freep := Some(base);
        mem := mem[base := Header(base, 0)];
        assert LinkOk(mem, h, 0);
      }
    }

    /** malloc. The loop goes round at most twice and asks the kernel at most once. */
    method Malloc(nbytes: nat, more: Option<nat>) returns (r: Option<nat>, ghost g: Heap, ghost k: nat)
      requires Valid() && nbytes < UINT && Answered(h, base, more)
      modifies this`mem, this`freep, this`h
      ensures Valid() && freep.Some? && Handed(old(h), more, Wanted(nbytes), g, k, h, r)
    {
      hide Handed, Live, Regrown, Answered, Valid, GoodBut, LinkedBut, Looked, Renewed, Taken, Cut, Fits, First;
      var n := Wanted(nbytes);
      Init();
      ghost var grown := false;
      g := h;
      k := 0;
      ghost var j: nat := 1;
      var prevp := freep.value;
      ValidFacts();
      LookedNone(h, n);
      RoundFacts(mem, h, base, 0);
      var p := mem[prevp].ptr;
      while true
        invariant Valid() && freep.Some? && g == h
        invariant At(h, n, j, p, prevp)
        invariant if grown then more.Some? && Renewed(old(h), h, more.value, n) else h == old(h)
        decreases !grown, |h.list| - j
      {
        ValidFacts();
        RoundFacts(mem, h, base, j);
        if mem[p].size >= n {
          k := Around(h, j);
          FirstFound(h, n, j);
          RoundFits(h, base, n, j);
          r := Take(prevp, p, n, k);
          HandedOut(old(h), more, n, g, k, h, r);
          return;
        }
        if p == freep.value {
          NoneFits(h, base, n, j);
          OnlyOnce(old(h), h, more, n, grown);
          var ok := Morecore(n, more);
          if !ok {
            HandedNone(old(h), n, k);
            return None, g, k;
          }
          grown := true;
          assert Renewed(old(h), h, more.value, n) by { RenewedIs(old(h), h, more.value, n); }
          g := h;
          j := 0;
          p := freep.value;
          ValidFacts();
          LookedNone(h, n);
          RoundFacts(mem, h, base, 0);
        }
        LookedOn(h, n, j);
        prevp := p;
        p := mem[p].ptr;
        j := j + 1;
      }
    }

    lemma ValidFacts()
      requires Valid() && freep.Some?
      ensures Good(h, base) && Linked(mem, h, base) && h.f < |h.list| && freep.value == h.list[h.f]
    {}

    /** The block is taken whole, or its tail end is. */
    method Take(prevp: nat, p: nat, n: nat, ghost k: nat) returns (r: Option<nat>)
      requires Valid() && freep.Some? && n > 0 && Fits(h, k, n) && p == h.list[k] && prevp == h.list[k - 1]
      modifies this`mem, this`freep, this`h
      ensures Valid() && freep.Some? && h == Taken(old(h), k, n) && r == Some(Cut(old(h), k, n) + 1)
      ensures Cut(old(h), k, n) !in Live(old(h)) && Live(h) == Live(old(h))[Cut(old(h), k, n) := n]
    {
      TakeFacts(mem, h, base, k);
      TakenGood(h, base, k, n);
      TakeLinked(mem, h, base, k, n);
      hide GoodBut;
      hide LinkedBut;
      hide Live;
      var q := p;
      if mem[p].size == n {
        mem := mem[prevp := mem[prevp].(ptr := mem[p].ptr)];
      } else {
        mem := mem[p := mem[p].(size := mem[p].size - n)];
        q := p + mem[p].size;
        mem := mem[q := Header(if q in mem then mem[q].ptr else 0, n)];
      }
      freep := Some(prevp);
      h := Taken(h, k, n);
      r := Some(q + 1);
    }
  }

  predicate Fresh(h: Heap, base: nat, at: nat) {
    at > base && forall a :: a in h.blocks ==> Below(h, at, a)
  }

  /** sbrk fails, or answers with the old end of the process, which is above all that it gave before. */
  predicate Answered(h: Heap, base: nat, more: Option<nat>) { more.Some? ==> Fresh(h, base, more.value) }

  /** What morecore asks for. */
  function Most(n: nat): nat { if n < 4096 then 4096 else n }

  /** `g` is `h` with `n` units at `at` added and freed. */
  ghost predicate Regrown(h: Heap, g: Heap, at: nat, n: nat) {
    exists t: nat :: Place(Grown(h, at, n), at, t) && g == Freed(Grown(h, at, n), at, t)
  }

  lemma GrownLinked(mem: map<nat, Header>, h: Heap, base: nat, at: nat, n: nat)
    requires Good(h, base) && Linked(mem, h, base) && at != base && at !in h.blocks && at !in h.list
    ensures Linked(mem[at := Header(if at in mem then mem[at].ptr else 0, n)], Grown(h, at, n), base)
  {
    var mem' := mem[at := Header(if at in mem then mem[at].ptr else 0, n)];
    var g := Grown(h, at, n);
    forall a: nat ensures SizeOk(mem', g, a) { assert SizeOk(mem, h, a); }
    forall i: nat ensures LinkOk(mem', g, i) { assert LinkOk(mem, h, i); }
  }

  /** The blocks from behind freep up to round position `j` are too small. */
  ghost predicate Looked(h: Heap, n: nat, j: nat)
    requires h.f < |h.list|
  {
    forall i: nat :: 1 <= i < j && i <= |h.list| ==> Small(h, n, Around(h, i))
  }

  lemma RoundFacts(mem: map<nat, Header>, h: Heap, base: nat, j: nat)
    requires Good(h, base) && Linked(mem, h, base) && j <= |h.list|
    ensures var p := h.list[Around(h, j)];
      && p in mem && mem[p].size == Size(h, p)
      && (j < |h.list| ==> mem[p].ptr == h.list[Around(h, j + 1)]) && (j == |h.list| ==> p == h.list[h.f])
  {
    var i := Around(h, j);
    assert LinkOk(mem, h, i) && SizeOk(mem, h, h.list[i]) && ListOk(h, i) && BlockOk(h, base, base);
  }

  lemma FirstFound(h: Heap, n: nat, j: nat)
    requires h.f < |h.list| && 1 <= j <= |h.list| && Looked(h, n, j)
    ensures First(h, Around(h, j), n)
  {
    assert forall i: nat :: 1 <= i < j ==> Small(h, n, Around(h, i));
  }

  lemma RoundFits(h: Heap, base: nat, n: nat, j: nat)
    requires Good(h, base) && n > 0 && 1 <= j <= |h.list| && Size(h, h.list[Around(h, j)]) >= n
    ensures Fits(h, Around(h, j), n) && Around(h, j - 1) == Around(h, j) - 1
  {
    assert ListOk(h, Around(h, j)) && BlockOk(h, base, base);
  }

  /** Back at freep with nothing found, nothing is large enough. */
  lemma NoneFits(h: Heap, base: nat, n: nat, j: nat)
    requires Good(h, base) && n > 0 && 1 <= j <= |h.list| && Looked(h, n, j)
    requires h.list[Around(h, j)] == h.list[h.f] && Size(h, h.list[h.f]) < n
    ensures (forall k: nat :: Small(h, n, k)) && forall k: nat :: !Fits(h, k, n)
  {
    Listed(h, base, -1, Around(h, j), h.f);
    AllSmall(h, n);
    forall k: nat ensures !Fits(h, k, n) { assert Small(h, n, k); }
  }

  lemma TakeFacts(mem: map<nat, Header>, h: Heap, base: nat, k: nat)
    requires Good(h, base) && Linked(mem, h, base) && 1 <= k < |h.list| && h.list[k] in h.blocks
    ensures h.list[k] in mem && h.list[k - 1] in mem && mem[h.list[k]].size == h.blocks[h.list[k]]
    ensures forall n | Fits(h, k, n) :: Taken(h, k, n).f == k - 1 && Taken(h, k, n).list[k - 1] == h.list[k - 1]
  {
    assert LinkOk(mem, h, k) && LinkOk(mem, h, k - 1) && SizeOk(mem, h, h.list[k]);
  }

  /** malloc's loop is at round position `j`, having found nothing. */
  ghost predicate At(h: Heap, n: nat, j: nat, p: nat, prevp: nat) {
    && h.f < |h.list| && 1 <= j <= |h.list| && Looked(h, n, j)
    && p == h.list[Around(h, j)] && prevp == h.list[Around(h, j - 1)]
  }

  lemma LookedNone(h: Heap, n: nat)
    requires h.f < |h.list|
    ensures Looked(h, n, 0) && Looked(h, n, 1)
  {}

  lemma LookedOn(h: Heap, n: nat, j: nat)
    requires h.f < |h.list| && j < |h.list| && Looked(h, n, j) && (j > 0 ==> Size(h, h.list[Around(h, j)]) < n)
    ensures Looked(h, n, j + 1)
  {}

  /** Nothing in `h` is large enough for `n` units, and `g` is `h` with new memory, where something is. */
  ghost predicate Renewed(h: Heap, g: Heap, at: nat, n: nat) {
    && (forall k: nat :: Small(h, n, k)) && Regrown(h, g, at, Most(n))
    && (exists k: nat :: Fits(g, k, n)) && Live(g) == Live(h)
  }

  lemma RenewedIs(h: Heap, g: Heap, at: nat, n: nat)
    requires (forall k: nat :: Small(h, n, k)) && Regrown(h, g, at, Most(n))
    requires (exists k: nat :: Fits(g, k, n)) && Live(g) == Live(h)
    ensures Renewed(h, g, at, n)
  {}

  /** New memory always satisfies the request it was got for. */
  lemma OnlyOnce(h: Heap, g: Heap, more: Option<nat>, n: nat, grown: bool)
    requires grown ==> more.Some? && Renewed(h, g, more.value, n)
    requires forall k: nat :: !Fits(g, k, n)
    ensures !grown
  {}

  /** What malloc promises. The block is the first large enough, looking round from behind freep, in the heap `g`: the
      old one, or if nothing in it is large enough the old one with one piece of new memory. Exactly the wanted units
      are added to the live blocks; nothing else changes hands. Without such a block and without new memory the heap
      stays as it is. */
  ghost predicate Handed(h0: Heap, more: Option<nat>, n: nat, g: Heap, k: nat, h: Heap, r: Option<nat>) {
    && (r.None? <==> (forall k: nat :: Small(h0, n, k)) && more.None?)
    && (r.None? ==> h == h0)
    && ((exists k: nat :: !Small(h0, n, k)) ==> g == h0)
    && (r.Some? ==>
      && ((forall k: nat :: Small(h0, n, k)) ==> Regrown(h0, g, more.value, Most(n)))
      && Fits(g, k, n) && First(g, k, n) && h == Taken(g, k, n) && r.value == Cut(g, k, n) + 1
      && Cut(g, k, n) !in Live(h0) && Live(h) == Live(h0)[Cut(g, k, n) := n])
  }

  lemma HandedOut(h0: Heap, more: Option<nat>, n: nat, g: Heap, k: nat, h: Heap, r: Option<nat>)
    requires n > 0 && (g == h0 || (more.Some? && Renewed(h0, g, more.value, n)))
    requires Fits(g, k, n) && First(g, k, n) && h == Taken(g, k, n) && r == Some(Cut(g, k, n) + 1)
    requires Cut(g, k, n) !in Live(g) && Live(h) == Live(g)[Cut(g, k, n) := n]
    ensures Handed(h0, more, n, g, k, h, r)
  {
    assert !Small(g, n, k);
  }

  lemma HandedNone(h: Heap, n: nat, k: nat)
    requires forall k: nat :: Small(h, n, k)
    ensures Handed(h, None, n, h, k, h, None)
  {}
}
