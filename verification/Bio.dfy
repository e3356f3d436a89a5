/** The ring of buffers (bio.c): a circular doubly linked list through a head, threaded through an array. */
module Ring {

  /** Element `j` of the ring whose head is `head`: the head stands before the first and after the last. */
  function At(order: seq<nat>, head: nat, j: int): nat {
    if 0 <= j < |order| then order[j] else head
  }

  ghost predicate Link(prev: seq<nat>, next: seq<nat>, order: seq<nat>, head: nat, j: int)
    requires |prev| == |next|
  {
    var a, b := At(order, head, j), At(order, head, j + 1);
    -1 <= j < |order| ==> a < |next| && b < |next| && next[a] == b && prev[b] == a
  }

  /** `next` and `prev` thread exactly `order`, each element once, in both directions. */
  ghost predicate Linked(prev: seq<nat>, next: seq<nat>, order: seq<nat>, head: nat) {
    && |prev| == |next| && head < |next| && head !in order
    && (forall i, j :: 0 <= i < j < |order| ==> order[i] != order[j])
    && (forall j: int :: Link(prev, next, order, head, j))
  }

  /** Exactly the first `n` are in the list. */
  ghost predicate Listed(order: seq<nat>, n: nat, i: nat) {
    i < n <==> i in order
  }

  function Without(order: seq<nat>, p: nat): seq<nat>
    requires p < |order|
  {
    order[..p] + order[p + 1..]
  }

  lemma FrontListed(order: seq<nat>, n: nat, p: nat)
    requires p < |order| && forall i: nat :: Listed(order, n, i)
    ensures forall i: nat :: Listed([order[p]] + Without(order, p), n, i)
  {
    forall i: nat ensures Listed([order[p]] + Without(order, p), n, i) {
      assert Listed(order, n, i);
      if i in order {
        var q :| 0 <= q < |order| && order[q] == i;
        assert q < p ==> Without(order, p)[q] == i;
        assert q > p ==> Without(order, p)[q - 1] == i;
      }
    }
  }

  /** Taking an element out of the ring. */
  lemma Unlinked(prev: seq<nat>, next: seq<nat>, order: seq<nat>, head: nat, p: nat)
    requires Linked(prev, next, order, head) && p < |order|
    requires order[p] < |next| && next[order[p]] < |next| && prev[order[p]] < |next|
    ensures Linked(prev[next[order[p]] := prev[order[p]]], next[prev[order[p]] := next[order[p]]],
      Without(order, p), head)
    ensures order[p] !in Without(order, p)
  {
    var x := order[p];
    var rest := Without(order, p);
    assert Link(prev, next, order, head, p - 1) && Link(prev, next, order, head, p);
    var prev' := prev[next[x] := prev[x]];
    var next' := next[prev[x] := next[x]];
    forall j: int ensures Link(prev', next', rest, head, j) {
      if -1 <= j < |rest| {
        var i := if j < p then j else j + 1;
        assert Link(prev, next, order, head, i) && Link(prev, next, order, head, j)
          && Link(prev, next, order, head, j + 1);
      }
    }
  }

  /** Putting an element right behind the head. */
  lemma Pushed(prev: seq<nat>, next: seq<nat>, order: seq<nat>, head: nat, x: nat)
    requires Linked(prev, next, order, head) && x !in order && x != head && x < |next| && next[head] < |next|
    ensures Linked(prev[x := head][next[head] := x], next[x := next[head]][head := x], [x] + order, head)
  {
    var prev' := prev[x := head][next[head] := x];
    var next' := next[x := next[head]][head := x];
    assert Link(prev, next, order, head, -1);
    forall j: int ensures Link(prev', next', [x] + order, head, j) {
      if -1 <= j <= |order| {
        assert Link(prev, next, order, head, j - 1);
      }
    }
  }
}

/** What the buffers stand for (bio.c): every block of the disk as the file system sees it. */
module Buffers {
  import opened RedoLog

  const NBUF: nat := 30
  const ROOTDEV: nat := 1

  datatype Buf = Buf(dev: nat, blockno: nat, valid: bool, dirty: bool, refcnt: nat, locked: bool, data: Block)

  ghost predicate BufOk(bufs: seq<Buf>, disk: Image, i: nat) {
    i < |bufs| ==>
      && |bufs[i].data| == NWORDS
      && (bufs[i].valid ==> bufs[i].dev == ROOTDEV && bufs[i].blockno in disk)
      && (bufs[i].dirty ==> bufs[i].valid)
      && (bufs[i].locked ==> bufs[i].refcnt > 0)
      && (bufs[i].valid && !bufs[i].dirty && !bufs[i].locked ==> bufs[i].data == disk[bufs[i].blockno])
  }

  ghost predicate Alone(bufs: seq<Buf>, i: nat, j: nat) {
    i < |bufs| && j < |bufs| && i != j && bufs[i].dev == bufs[j].dev && bufs[i].blockno == bufs[j].blockno ==>
      bufs[i].dev == 0
  }

  /** Every buffer is in order, and no two of them hold one block of the disk. */
  ghost predicate Sane(bufs: seq<Buf>, disk: Image) {
    && |bufs| == NBUF
    && (forall b :: b in disk ==> |disk[b]| == NWORDS)
    && (forall i: nat :: BufOk(bufs, disk, i))
    && (forall i: nat, j: nat :: Alone(bufs, i, j))
  }

  predicate Labelled(bufs: seq<Buf>, dev: nat, b: nat, i: nat) {
    i < |bufs| && bufs[i].dev == dev && bufs[i].blockno == b
  }

  predicate Holds(bufs: seq<Buf>, b: nat, i: nat) {
    Labelled(bufs, ROOTDEV, b, i) && bufs[i].valid
  }

  /** The block as the file system sees it: the buffer's contents if there is one, the disk's if not. */
  ghost function Seen(bufs: seq<Buf>, disk: Image, b: nat): Block
    requires b in disk
  {
    if i: nat :| Holds(bufs, b, i) then bufs[i].data else disk[b]
  }

  ghost function View(bufs: seq<Buf>, disk: Image): Image {
    map b | b in disk :: Seen(bufs, disk, b)
  }

  predicate Recyclable(bufs: seq<Buf>, i: nat) {
    i < |bufs| && bufs[i].refcnt == 0 && !bufs[i].dirty
  }

  lemma SeenIs(bufs: seq<Buf>, disk: Image, b: nat, i: nat)
    requires Sane(bufs, disk) && b in disk && Holds(bufs, b, i)
    ensures Seen(bufs, disk, b) == bufs[i].data
  {
    var j: nat :| Holds(bufs, b, j) && Seen(bufs, disk, b) == bufs[j].data;
    assert Alone(bufs, i, j);
  }

  /** A changed buffer leaves the rest in order. */
  lemma PutSane(bufs: seq<Buf>, disk: Image, disk': Image, i: nat, x: Buf)
    requires Sane(bufs, disk) && i < |bufs| && BufOk(bufs[i := x], disk', i)
    requires Labelled(bufs, x.dev, x.blockno, i) || forall j: nat :: !Labelled(bufs, x.dev, x.blockno, j)
    requires disk' == disk || (x.dev == ROOTDEV && x.blockno in disk && disk' == disk[x.blockno := x.data])
    ensures Sane(bufs[i := x], disk')
  {
    var bufs' := bufs[i := x];
    forall j: nat ensures BufOk(bufs', disk', j) {
      assert BufOk(bufs, disk, j) && BufOk(bufs, disk, i) && Alone(bufs, j, i);
      if j != i && j < |bufs| { assert !Labelled(bufs, x.dev, x.blockno, j) || x.dev == 0; }
    }
    forall j: nat, k: nat ensures Alone(bufs', j, k) {
      assert Alone(bufs, j, k) && Alone(bufs, i, j) && Alone(bufs, i, k);
      if !Labelled(bufs, x.dev, x.blockno, i) {
        assert !Labelled(bufs, x.dev, x.blockno, j) && !Labelled(bufs, x.dev, x.blockno, k);
      }
    }
  }

  /** A block is seen alike where the same buffer holds it, or none does. */
  lemma SeenAlike(bufs: seq<Buf>, disk: Image, bufs': seq<Buf>, disk': Image, b: nat)
    requires Sane(bufs, disk) && Sane(bufs', disk') && b in disk && b in disk'
    requires disk[b] == disk'[b]
    requires forall i: nat :: Holds(bufs, b, i) == Holds(bufs', b, i)
    requires forall i: nat :: Holds(bufs, b, i) ==> bufs[i].data == bufs'[i].data
    ensures Seen(bufs, disk, b) == Seen(bufs', disk', b)
  {
    if i: nat :| Holds(bufs, b, i) {
      SeenIs(bufs, disk, b, i);
      SeenIs(bufs', disk', b, i);
    }
  }

  /** Counts, locks and marks do not change what is seen. */
  lemma MarkView(bufs: seq<Buf>, disk: Image, i: nat, x: Buf)
    requires Sane(bufs, disk) && i < |bufs| && Sane(bufs[i := x], disk)
    requires x.dev == bufs[i].dev && x.blockno == bufs[i].blockno && x.valid == bufs[i].valid && x.data == bufs[i].data
    ensures View(bufs[i := x], disk) == View(bufs, disk)
  {
    forall b | b in disk ensures Seen(bufs[i := x], disk, b) == Seen(bufs, disk, b) {
      SeenAlike(bufs, disk, bufs[i := x], disk, b);
    }
  }

  /** Recycling a clean unreferenced buffer loses nothing: its block was on the disk. */
  lemma RecycleView(bufs: seq<Buf>, disk: Image, i: nat, x: Buf)
    requires Sane(bufs, disk) && Recyclable(bufs, i) && Sane(bufs[i := x], disk) && !x.valid
    ensures View(bufs[i := x], disk) == View(bufs, disk)
  {
    forall b | b in disk ensures Seen(bufs[i := x], disk, b) == Seen(bufs, disk, b) {
      if Holds(bufs, b, i) {
        SeenIs(bufs, disk, b, i);
        assert BufOk(bufs, disk, i);
        var bufs' := bufs[i := x];
        forall j: nat ensures !Holds(bufs', b, j) { assert Alone(bufs, i, j); }
      } else {
        SeenAlike(bufs, disk, bufs[i := x], disk, b);
      }
    }
  }

  /** Giving a buffer new contents shows in its own block and nowhere else. */
  lemma DataView(bufs: seq<Buf>, disk: Image, disk': Image, i: nat, x: Buf)
    requires Sane(bufs, disk) && i < |bufs| && Sane(bufs[i := x], disk')
    requires x.dev == bufs[i].dev == ROOTDEV && x.blockno == bufs[i].blockno && x.valid && x.blockno in disk
    requires disk' == disk || disk' == disk[x.blockno := x.data]
    ensures View(bufs[i := x], disk') == View(bufs, disk)[x.blockno := x.data]
  {
    var bufs' := bufs[i := x];
    forall b | b in disk ensures Seen(bufs', disk', b) == if b == x.blockno then x.data else Seen(bufs, disk, b) {
      if b == x.blockno {
        assert Holds(bufs', b, i);
        SeenIs(bufs', disk', b, i);
      } else {
        SeenAlike(bufs, disk, bufs', disk', b);
      }
    }
  }

  /** Reading a block from the disk into its buffer shows nothing new. */
  lemma FillView(bufs: seq<Buf>, disk: Image, i: nat)
    requires Sane(bufs, disk) && i < |bufs| && bufs[i].dev == ROOTDEV && bufs[i].blockno in disk && !bufs[i].valid
    ensures Seen(bufs, disk, bufs[i].blockno) == disk[bufs[i].blockno]
  {
    forall j: nat ensures !Holds(bufs, bufs[i].blockno, j) { assert Alone(bufs, i, j); }
  }

  /** If one buffer with this label is not valid, none is. */
  lemma Unread(bufs: seq<Buf>, disk: Image, dev: nat, b: nat, i: nat)
    requires Sane(bufs, disk) && i < |bufs|
    requires if Labelled(bufs, dev, b, i) then !bufs[i].valid else forall j: nat :: !Labelled(bufs, dev, b, j)
    ensures forall j: nat :: Labelled(bufs, dev, b, j) ==> !bufs[j].valid
  {
    forall j: nat | Labelled(bufs, dev, b, j) ensures !bufs[j].valid {
      assert Alone(bufs, i, j) && BufOk(bufs, disk, j);
    }
  }

  lemma SeenMap(bufs: seq<Buf>, disk: Image, b: nat)
    requires b in disk
    ensures b in View(bufs, disk) && View(bufs, disk)[b] == Seen(bufs, disk, b)
  {}

  /** A valid buffer's contents are what is seen of its block. */
  lemma SameView(bufs: seq<Buf>, disk: Image, i: nat)
    requires Sane(bufs, disk) && i < |bufs| && bufs[i].valid
    ensures bufs[i].blockno in View(bufs, disk) && View(bufs, disk)[bufs[i].blockno] == bufs[i].data
  {
    assert BufOk(bufs, disk, i);
    SeenIs(bufs, disk, bufs[i].blockno, i);
  }
}

/** Which buffers are in use and which blocks are pinned in the cache. */
module Pins {
  import opened RedoLog
  import opened Buffers
  import opened Common

  /** The buffers somebody holds. */
  function Busy(bufs: seq<Buf>): set<nat> {
    set i: nat | i < |bufs| && bufs[i].refcnt > 0
  }

  /** The buffers that are dirty. */
  function Dirty(bufs: seq<Buf>): set<nat> {
    set i: nat | i < |bufs| && bufs[i].dirty
  }

  /** The blocks kept in the cache until they are committed. */
  function Pinned(bufs: seq<Buf>): set<nat> {
    Blocks(bufs, Dirty(bufs))
  }

  function Blocks(bufs: seq<Buf>, s: set<nat>): set<nat>
    requires forall i :: i in s ==> i < |bufs|
  {
    set i | i in s :: bufs[i].blockno
  }

  /** Whoever holds the buffer only reads it: it has the contents of the disk, or is dirty. */
  ghost predicate OnlyRead(bufs: seq<Buf>, disk: Image, i: nat) {
    i < |bufs| && bufs[i].refcnt > 0 && !bufs[i].dirty ==>
      bufs[i].valid && bufs[i].blockno in disk && bufs[i].data == disk[bufs[i].blockno]
  }

  /** A block that is not pinned, in a cache in which everybody only reads, is seen as it is on the disk. */
  lemma CleanSeen(bufs: seq<Buf>, disk: Image, b: nat)
    requires Sane(bufs, disk) && (forall i: nat :: OnlyRead(bufs, disk, i)) && b in disk && b !in Pinned(bufs)
    ensures Seen(bufs, disk, b) == disk[b] == View(bufs, disk)[b]
  {
    if i: nat :| Holds(bufs, b, i) {
      SeenIs(bufs, disk, b, i);
      assert BufOk(bufs, disk, i) && OnlyRead(bufs, disk, i);
      assert bufs[i].dirty ==> i in Dirty(bufs);
    }
  }

  lemma PinnedHolds(bufs: seq<Buf>, disk: Image, b: nat) returns (i: nat)
    requires Sane(bufs, disk) && b in Pinned(bufs)
    ensures Holds(bufs, b, i) && bufs[i].dirty
  {
    i :| i in Dirty(bufs) && bufs[i].blockno == b;
    assert BufOk(bufs, disk, i);
  }

  /** A mark other than dirty changes no pin, and neither does recycling. */
  lemma PinnedSame(bufs: seq<Buf>, i: nat, x: Buf)
    requires i < |bufs| && x.dirty == bufs[i].dirty && (x.dirty ==> x.blockno == bufs[i].blockno)
    ensures Pinned(bufs[i := x]) == Pinned(bufs)
  {
    var bufs' := bufs[i := x];
    assert Dirty(bufs') == Dirty(bufs);
    assert forall j :: j in Dirty(bufs) ==> bufs'[j].blockno == bufs[j].blockno;
  }

  lemma PinnedMore(bufs: seq<Buf>, i: nat, x: Buf)
    requires i < |bufs| && x.dirty && x.blockno == bufs[i].blockno
    ensures Pinned(bufs[i := x]) == Pinned(bufs) + {x.blockno}
  {
    var bufs' := bufs[i := x];
    assert Dirty(bufs') == Dirty(bufs) + {i};
    assert forall j :: j in Dirty(bufs') ==> bufs'[j].blockno == bufs[j].blockno;
    assert i in Dirty(bufs') && bufs'[i].blockno == x.blockno;
  }

  /** Writing out the only buffer of a block unpins that block alone. */
  lemma PinnedLess(bufs: seq<Buf>, disk: Image, i: nat, x: Buf)
    requires Sane(bufs, disk) && i < |bufs| && bufs[i].valid && !x.dirty
    ensures Pinned(bufs[i := x]) == Pinned(bufs) - {bufs[i].blockno}
  {
    var bufs' := bufs[i := x];
    assert Dirty(bufs') == Dirty(bufs) - {i};
    assert BufOk(bufs, disk, i);
    forall j | j in Dirty(bufs') ensures bufs'[j].blockno == bufs[j].blockno != bufs[i].blockno {
      assert BufOk(bufs, disk, j) && Alone(bufs, i, j);
    }
  }

  /** No other buffer pins the block of one that is not dirty. */
  lemma NotPinned(bufs: seq<Buf>, disk: Image, i: nat)
    requires Sane(bufs, disk) && i < |bufs| && bufs[i].dev == ROOTDEV && !bufs[i].dirty
    ensures bufs[i].blockno !in Pinned(bufs)
  {
    forall j | j in Dirty(bufs) ensures bufs[j].blockno != bufs[i].blockno {
      assert BufOk(bufs, disk, j) && Alone(bufs, i, j);
    }
  }

  lemma BusyPut(bufs: seq<Buf>, i: nat, x: Buf)
    requires i < |bufs|
    ensures Busy(bufs[i := x]) == if x.refcnt > 0 then Busy(bufs) + {i} else Busy(bufs) - {i}
  {}

  /** As many blocks are pinned as there are dirty buffers. */
  lemma PinnedSize(bufs: seq<Buf>, disk: Image)
    requires Sane(bufs, disk)
    ensures |Pinned(bufs)| == |Dirty(bufs)|
  {
    ImageSize(bufs, disk, Dirty(bufs));
  }

  lemma {:induction false} ImageSize(bufs: seq<Buf>, disk: Image, s: set<nat>)
    requires Sane(bufs, disk) && s <= Dirty(bufs)
    ensures |Blocks(bufs, s)| == |s|
  {
    if s != {} {
      var i :| i in s;
      var rest := s - {i};
      ImageSize(bufs, disk, rest);
      assert BufOk(bufs, disk, i);
      forall j | j in rest
        ensures bufs[j].blockno != bufs[i].blockno
      {
        assert BufOk(bufs, disk, j) && Alone(bufs, i, j);
      }
      assert Blocks(bufs, s) == Blocks(bufs, rest) + {bufs[i].blockno};
    }
  }

  /** There is a buffer to give away exactly when fewer are pinned or held than there are; nobody holds a pinned one. */
  lemma IdleBuffer(bufs: seq<Buf>, disk: Image)
    requires Sane(bufs, disk) && Busy(bufs) !! Dirty(bufs)
    ensures (exists i: nat :: Recyclable(bufs, i)) <==> |Pinned(bufs)| + |Busy(bufs)| < NBUF
  {
    var all, taken := Range(0, NBUF), Dirty(bufs) + Busy(bufs);
    RangeSize(0, NBUF);
    PinnedSize(bufs, disk);
    assert taken <= all && |taken| == |Dirty(bufs)| + |Busy(bufs)|;
    if i: nat :| Recyclable(bufs, i) {
      assert i in all && i !in taken;
      SubsetSize(taken, all);
    } else {
      forall i | i in all ensures i in taken { assert !Recyclable(bufs, i); }
      assert taken == all;
    }
  }
}

/** The buffer cache (bio.c) over a disk of atomic block writes (memide.c). */
module BufferCache {
  import opened Common
  import opened RedoLog
  import opened Ring
  import opened Buffers
  import opened Pins

  class Cache {
    var bufs: seq<Buf>
    var prev: seq<nat>           // one more than there are buffers: the last is the list's head
    var next: seq<nat>
    var disk: Image
    ghost var order: seq<nat>    // the list, most recently used first
    ghost var images: seq<Image> // the disk after each write so far

    ghost predicate Valid()
      reads this
    {
      && Sane(bufs, disk)
      && Linked(prev, next, order, NBUF) && |order| == NBUF && |next| == NBUF + 1
      && (forall i: nat :: Listed(order, NBUF, i))
    }

    ghost function Sees(): Image
      reads this
    {
      View(bufs, disk)
    }

    /** binit: every buffer on the list, all labelled (device 0, block 0). */
    constructor (disk: Image)
      requires forall b :: b in disk ==> |disk[b]| == NWORDS
      ensures Valid() && this.disk == disk && images == [] && Sees() == disk
      ensures Busy(bufs) == {} && Pinned(bufs) == {}
    {
      this.disk := disk;
      images := [];
      order := [];
      bufs := seq(NBUF, i => Buf(0, 0, false, false, 0, false, seq(NWORDS, j => 0)));
      prev := seq(NBUF + 1, i => NBUF);
      next := seq(NBUF + 1, i => NBUF);
      new;
      var b := 0;
      while b < NBUF
        invariant 0 <= b <= NBUF && |next| == NBUF + 1 && |order| == b
        invariant Linked(prev, next, order, NBUF)
        invariant forall i: nat :: i < b <==> i in order
        invariant this.disk == disk && images == []
        invariant bufs == seq(NBUF, i => Buf(0, 0, false, false, 0, false, seq(NWORDS, j => 0)))
      {
        assert Link(prev, next, order, NBUF, -1);
        Pushed(prev, next, order, NBUF, b);
        Behind(b);
        b := b + 1;
      }
      assert Sees() == disk;
    }

    /** The four assignments that put a buffer right behind the head. */
    method Behind(b: nat)
      requires |prev| == |next| == NBUF + 1 && b < NBUF && next[NBUF] <= NBUF
      modifies this`prev, this`next, this`order
      ensures prev == old(prev[b := NBUF][next[NBUF] := b])
      ensures next == old(next[b := next[NBUF]][NBUF := b])
      ensures order == [b] + old(order)
    {
      next := next[b := next[NBUF]];
      prev := prev[b := NBUF];
      prev := prev[next[NBUF] := b];
      next := next[NBUF := b];
      order := [b] + order;
    }

    /** The first buffer in the list labelled (dev, b), if there is one. */
    method Find(dev: nat, b: nat) returns (r: Option<nat>)
      requires Valid()
      ensures r.Some? ==> Labelled(bufs, dev, b, r.value)
      ensures r.None? ==> forall i: nat :: !Labelled(bufs, dev, b, i)
    {
      var i := next[NBUF];
      ghost var j := 0;
      assert Link(prev, next, order, NBUF, -1);
      while i != NBUF
        invariant 0 <= j <= NBUF && i == At(order, NBUF, j)
        invariant forall k :: 0 <= k < j ==> !Labelled(bufs, dev, b, order[k])
        decreases NBUF - j
      {
        assert Listed(order, NBUF, i);
        if bufs[i].dev == dev && bufs[i].blockno == b { return Some(i); }
        assert Link(prev, next, order, NBUF, j);
        i := next[i];
        j := j + 1;
      }
      forall i: nat
        ensures !Labelled(bufs, dev, b, i)
      {
        assert Listed(order, NBUF, i);
        assert Listed(order, NBUF, NBUF);
      }
      return None;
    }

    /** The least recently used buffer that is neither referenced nor dirty, if there is one. */
    method Idle() returns (r: Option<nat>)
      requires Valid()
      ensures r.Some? ==> Recyclable(bufs, r.value)
      ensures r.Some? ==>
        exists p :: 0 <= p < NBUF && order[p] == r.value && forall q :: p < q < NBUF ==> !Recyclable(bufs, order[q])
      ensures r.None? ==> forall i: nat :: !Recyclable(bufs, i)
    {
      var i := prev[NBUF];
      ghost var j := NBUF - 1;
      assert Link(prev, next, order, NBUF, NBUF - 1);
      while i != NBUF
        invariant -1 <= j < NBUF && i == At(order, NBUF, j)
        invariant forall k :: j < k < NBUF ==> !Recyclable(bufs, order[k])
        decreases j + 1
      {
        assert Listed(order, NBUF, i);
        if bufs[i].refcnt == 0 && !bufs[i].dirty { return Some(i); }
        assert Link(prev, next, order, NBUF, j - 1);
        i := prev[i];
        j := j - 1;
      }
      forall i: nat ensures !Recyclable(bufs, i) { assert Listed(order, NBUF, i); assert Listed(order, NBUF, NBUF); }
      return None;
    }

    /** bget: the buffer of the block, locked; a new one only at the cost of an unreferenced clean one. */
    method Bget(dev: nat, b: nat) returns (r: Option<nat>)
      requires Valid()
      requires forall i: nat :: Labelled(bufs, dev, b, i) ==> !bufs[i].locked
      modifies this`bufs
      ensures Valid() && Sees() == old(Sees())
      ensures r.Some? ==> Pinned(bufs) == old(Pinned(bufs)) && Busy(bufs) == old(Busy(bufs)) + {r.value}
      ensures r.None? <==>
        (forall i: nat :: !old(Labelled(bufs, dev, b, i))) && (forall i: nat :: !old(Recyclable(bufs, i)))
      ensures r.None? ==> bufs == old(bufs)
      ensures r.Some? ==> Labelled(bufs, dev, b, r.value) && bufs == old(bufs)[r.value := bufs[r.value]]
      ensures r.Some? ==>
        var was, now := old(bufs)[r.value], bufs[r.value];
        if old(Labelled(bufs, dev, b, r.value)) then now == was.(refcnt := was.refcnt + 1, locked := true)
        else
          && old(Recyclable(bufs, r.value)) && now == Buf(dev, b, false, false, 1, true, was.data)
          && (forall i: nat :: !old(Labelled(bufs, dev, b, i)))
    {
      hide View;
      hide Pinned;
      r := Find(dev, b);
      if r.Some? {
        var i := r.value;
        var x := bufs[i].(refcnt := bufs[i].refcnt + 1, locked := true);
        assert BufOk(bufs, disk, i);
        PutSane(bufs, disk, disk, i, x);
        MarkView(bufs, disk, i, x);
        PinnedSame(bufs, i, x);
        BusyPut(bufs, i, x);
        bufs := bufs[i := x];
        return;
      }
      r := Idle();
      if r.Some? {
        var i := r.value;
        var x := Buf(dev, b, false, false, 1, true, bufs[i].data);
        assert BufOk(bufs, disk, i);
        PutSane(bufs, disk, disk, i, x);
        RecycleView(bufs, disk, i, x);
        PinnedSame(bufs, i, x);
        BusyPut(bufs, i, x);
        bufs := bufs[i := x];
      }
    }

    /** iderw: a dirty buffer goes to the disk, one that is not valid is read from it. */
    method Iderw(i: nat)
      requires Valid() && i < NBUF && bufs[i].locked && (bufs[i].dirty || !bufs[i].valid)
      requires bufs[i].dev == ROOTDEV && bufs[i].blockno in disk
      modifies this`bufs, this`disk, this`images
      ensures Valid() && bufs == old(bufs)[i := bufs[i]]
      ensures bufs[i] == old(bufs)[i].(valid := true, dirty := false, data := bufs[i].data)
      ensures Sees() == old(Sees())
      ensures Busy(bufs) == old(Busy(bufs)) && Pinned(bufs) == old(Pinned(bufs)) - {bufs[i].blockno}
      ensures old(bufs)[i].dirty ==>
        && disk == old(disk)[bufs[i].blockno := old(bufs)[i].data] && bufs[i].data == old(bufs)[i].data
        && images == old(images) + [disk]
      ensures !old(bufs)[i].dirty ==>
        disk == old(disk) && images == old(images) && bufs[i].data == disk[bufs[i].blockno]
    {
      hide View;
      hide Pinned;
      var b := bufs[i].blockno;
      assert BufOk(bufs, disk, i);
      if bufs[i].dirty {
        var x := bufs[i].(dirty := false);
        SameView(bufs, disk, i);
        PutSane(bufs, disk, disk[b := x.data], i, x);
        DataView(bufs, disk, disk[b := x.data], i, x);
        PinnedLess(bufs, disk, i, x);
        BusyPut(bufs, i, x);
        bufs := bufs[i := x];
        disk := disk[b := x.data];
        images := images + [disk];
      } else {
        var x := bufs[i].(data := disk[b], valid := true);
        FillView(bufs, disk, i);
        SeenMap(bufs, disk, b);
        PutSane(bufs, disk, disk, i, x);
        DataView(bufs, disk, disk, i, x);
        PinnedSame(bufs, i, x);
        NotPinned(bufs, disk, i);
        BusyPut(bufs, i, x);
        bufs := bufs[i := x];
      }
    }

    /** bread: the block's buffer, locked and holding what the file system sees there; None is a panic. */
    method Bread(dev: nat, b: nat) returns (r: Option<nat>)
      requires Valid()
      requires forall i: nat :: Labelled(bufs, dev, b, i) ==> !bufs[i].locked
      modifies this`bufs, this`disk, this`images
      ensures Valid() && Sees() == old(Sees()) && disk == old(disk) && images == old(images)
      ensures r.Some? ==> Pinned(bufs) == old(Pinned(bufs)) && Busy(bufs) == old(Busy(bufs)) + {r.value}
      ensures r.None? <==>
        && (forall i: nat :: old(Labelled(bufs, dev, b, i)) ==> !old(bufs)[i].valid)
        && (dev != ROOTDEV || b !in disk
            || ((forall i: nat :: !old(Labelled(bufs, dev, b, i))) && (forall i: nat :: !old(Recyclable(bufs, i)))))
      ensures r.Some? ==> Labelled(bufs, ROOTDEV, b, r.value) && bufs == old(bufs)[r.value := bufs[r.value]]
      ensures r.Some? ==> b in disk && bufs[r.value].data == Sees()[b]
      ensures r.Some? ==>
        var was, now := old(bufs)[r.value], bufs[r.value];
        if old(Labelled(bufs, dev, b, r.value))
        then now == was.(refcnt := was.refcnt + 1, locked := true, valid := true, data := now.data)
        else old(Recyclable(bufs, r.value)) && now == Buf(dev, b, true, false, 1, true, now.data)
    {
      hide View;
      hide Pinned;
      r := Bget(dev, b);
      if r.None? { return; }
      assert BufOk(bufs, disk, r.value);
      if !bufs[r.value].valid {
        if dev != ROOTDEV || b !in disk {
          Unread(old(bufs), disk, dev, b, r.value);
          return None;
        }
        NotPinned(bufs, disk, r.value);
        Iderw(r.value);
      }
      SameView(bufs, disk, r.value);
    }

    /** A holder's change to the contents of its buffer. */
    method Fill(i: nat, data: Block)
      requires Valid() && i < NBUF && bufs[i].locked && bufs[i].valid && |data| == NWORDS
      modifies this`bufs
      ensures Valid() && bufs == old(bufs)[i := old(bufs)[i].(data := data)]
      ensures Sees() == old(Sees())[bufs[i].blockno := data]
      ensures Busy(bufs) == old(Busy(bufs)) && Pinned(bufs) == old(Pinned(bufs))
    {
      hide View;
      hide Pinned;
      assert BufOk(bufs, disk, i);
      var x := bufs[i].(data := data);
      PutSane(bufs, disk, disk, i, x);
      DataView(bufs, disk, disk, i, x);
      PinnedSame(bufs, i, x);
      BusyPut(bufs, i, x);
      bufs := bufs[i := x];
    }

    /** Marks a buffer dirty, as log_write does to keep it in the cache. */
    method Pin(i: nat)
      requires Valid() && i < NBUF && bufs[i].locked && bufs[i].valid
      modifies this`bufs
      ensures Valid() && bufs == old(bufs)[i := old(bufs)[i].(dirty := true)]
      ensures Sees() == old(Sees())
      ensures Busy(bufs) == old(Busy(bufs)) && Pinned(bufs) == old(Pinned(bufs)) + {bufs[i].blockno}
    {
      hide View;
      hide Pinned;
      assert BufOk(bufs, disk, i);
      var x := bufs[i].(dirty := true);
      PutSane(bufs, disk, disk, i, x);
      MarkView(bufs, disk, i, x);
      PinnedMore(bufs, i, x);
      BusyPut(bufs, i, x);
      bufs := bufs[i := x];
    }

    /** bwrite: the buffer's contents reach the disk, in one write. */
    method Bwrite(i: nat)
      requires Valid() && i < NBUF && bufs[i].locked && bufs[i].valid
      modifies this`bufs, this`disk, this`images
      ensures Valid() && bufs == old(bufs)[i := old(bufs)[i].(dirty := false)]
      ensures Sees() == old(Sees())
      ensures Busy(bufs) == old(Busy(bufs)) && Pinned(bufs) == old(Pinned(bufs)) - {bufs[i].blockno}
      ensures disk == old(disk)[bufs[i].blockno := bufs[i].data] && images == old(images) + [disk]
    {
      hide View;
      hide Pinned;
      assert BufOk(bufs, disk, i);
      Pin(i);
      Iderw(i);
    }

    /** brelse: the last user moves the buffer to the front of the list. A change must have been written or logged. */
    method Brelse(i: nat)
      requires Valid() && i < NBUF && bufs[i].locked
      requires bufs[i].valid && !bufs[i].dirty ==> bufs[i].blockno in disk && bufs[i].data == disk[bufs[i].blockno]
      modifies this`bufs, this`prev, this`next, this`order
      ensures Valid() && Sees() == old(Sees())
      ensures Pinned(bufs) == old(Pinned(bufs))
      ensures Busy(bufs) == if old(bufs)[i].refcnt > 1 then old(Busy(bufs)) else old(Busy(bufs)) - {i}
      ensures old(bufs)[i].refcnt > 0
        && bufs == old(bufs)[i := old(bufs)[i].(refcnt := old(bufs)[i].refcnt - 1, locked := false)]
      ensures bufs[i].refcnt > 0 ==> order == old(order)
      ensures bufs[i].refcnt == 0 ==>
        exists p: nat :: p < |old(order)| && old(order)[p] == i && order == [i] + Without(old(order), p)
    {
      hide View;
      hide Pinned;
      assert BufOk(bufs, disk, i);
      var x := bufs[i].(refcnt := bufs[i].refcnt - 1, locked := false);
      PutSane(bufs, disk, disk, i, x);
      MarkView(bufs, disk, i, x);
      PinnedSame(bufs, i, x);
      BusyPut(bufs, i, x);
      bufs := bufs[i := x];
      if bufs[i].refcnt == 0 {
        assert Listed(order, NBUF, i);
        ghost var p: nat :| p < |order| && order[p] == i;
        assert Link(prev, next, order, NBUF, p - 1) && Link(prev, next, order, NBUF, p);
        Unlinked(prev, next, order, NBUF, p);
        prev := prev[next[i] := prev[i]];
        next := next[prev[i] := next[i]];
        FrontListed(order, NBUF, p);
        order := Without(order, p);
        assert Link(prev, next, order, NBUF, -1);
        Pushed(prev, next, order, NBUF, i);
        Behind(i);
      }
    }
  }
}
