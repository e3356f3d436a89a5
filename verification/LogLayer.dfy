/** How much of the log the running operations may still use (begin_op). */
module Admission {
  import opened RedoLog
  import opened Common

  /** What the operations, each having written the blocks of one of the sets, may still add. */
  ghost function Unused(ops: seq<set<nat>>): int {
    if ops == [] then 0 else MAXOPBLOCKS - |ops[0]| + Unused(ops[1..])
  }

  /** The log has room for all that the operations may still add. */
  ghost predicate Admitted(lh: seq<nat>, ops: seq<set<nat>>) {
    && |lh| + Unused(ops) <= LOGSIZE
    && (forall i :: 0 <= i < |ops| ==> |ops[i]| <= MAXOPBLOCKS && forall b :: b in ops[i] ==> b in lh)
  }

  lemma {:induction false} UnusedSet(ops: seq<set<nat>>, i: nat, x: set<nat>)
    requires i < |ops|
    ensures Unused(ops[i := x]) == Unused(ops) + |ops[i]| - |x|
  {
    if i == 0 {
      assert ops[0 := x][1..] == ops[1..];
    } else {
      UnusedSet(ops[1..], i - 1, x);
      assert ops[i := x][1..] == ops[1..][i - 1 := x];
    }
  }

  lemma {:induction false} UnusedLess(ops: seq<set<nat>>, i: nat)
    requires i < |ops|
    ensures Unused(ops[..i] + ops[i + 1..]) == Unused(ops) - (MAXOPBLOCKS - |ops[i]|)
  {
    if i == 0 {
      assert ops[..0] + ops[1..] == ops[1..];
    } else {
      UnusedLess(ops[1..], i - 1);
      assert (ops[..i] + ops[i + 1..])[1..] == ops[1..][..i - 1] + ops[1..][i..];
    }
  }

  lemma {:induction false} UnusedMore(ops: seq<set<nat>>)
    ensures Unused(ops + [{}]) == Unused(ops) + MAXOPBLOCKS
  {
    if ops != [] {
      UnusedMore(ops[1..]);
      assert (ops + [{}])[1..] == ops[1..] + [{}];
    }
  }

  lemma {:induction false} UnusedBounds(ops: seq<set<nat>>)
    requires forall i :: 0 <= i < |ops| ==> |ops[i]| <= MAXOPBLOCKS
    ensures 0 <= Unused(ops) <= MAXOPBLOCKS * |ops|
  {
    if ops != [] { UnusedBounds(ops[1..]); }
  }

  /** begin_op: an operation that finds room for MAXOPBLOCKS per operation may start. */
  lemma BeginAdmitted(lh: seq<nat>, ops: seq<set<nat>>)
    requires Admitted(lh, ops) && |lh| + (|ops| + 1) * MAXOPBLOCKS <= LOGSIZE
    ensures Admitted(lh, ops + [{}])
  {
    UnusedMore(ops);
    UnusedBounds(ops);
  }

  /** end_op: what an operation did not use is given back. */
  lemma EndAdmitted(lh: seq<nat>, ops: seq<set<nat>>, i: nat)
    requires Admitted(lh, ops) && i < |ops|
    ensures Admitted(lh, ops[..i] + ops[i + 1..])
  {
    UnusedLess(ops, i);
  }

  /** The log after block `b` is recorded: once only, however often it is written. */
  function Absorbed(lh: seq<nat>, b: nat): seq<nat> { if b in lh then lh else lh + [b] }

  /** log_write: an operation within its quota keeps the promise made to the others. */
  lemma WriteAdmitted(lh: seq<nat>, ops: seq<set<nat>>, i: nat, b: nat)
    requires Admitted(lh, ops) && i < |ops| && |ops[i] + {b}| <= MAXOPBLOCKS
    ensures Admitted(Absorbed(lh, b), ops[i := ops[i] + {b}])
    ensures b !in lh ==> |lh| < LOGSIZE
  {
    UnusedSet(ops, i, ops[i] + {b});
    var lh', ops' := Absorbed(lh, b), ops[i := ops[i] + {b}];
    assert b in ops[i] ==> ops[i] + {b} == ops[i] && b in lh;
    assert b !in ops[i] ==> |ops[i] + {b}| == |ops[i]| + 1;
    UnusedBounds(ops');
    forall j | 0 <= j < |ops'| ensures forall x :: x in ops'[j] ==> x in lh' {
      assert forall x :: x in ops[j] ==> x in lh;
    }
  }

  /** log_write's size check. */
  predicate TooBig(n: nat, size: nat) { n >= LOGSIZE || n >= size - 1 }

  /** Operation `i`, within its quota, writes a home block the log does not have yet. */
  ghost predicate Asks(l: LogLayout, lh: seq<nat>, ops: seq<set<nat>>, i: nat, b: nat) {
    && GoodHead(l, lh) && Admitted(lh, ops) && i < |ops| && |ops[i] + {b}| <= MAXOPBLOCKS
    && IsHome(l, b) && b !in lh
  }

  /** The k-th home block. */
  function Home(l: LogLayout, k: nat): nat { if k < l.start then k else k + l.size }

  function Homes(l: LogLayout, n: nat): seq<nat> { seq(n, k requires k >= 0 => Home(l, k)) }

  /** There are as many home blocks as the log leaves. */
  lemma HomeCount(l: LogLayout, bs: seq<nat>)
    requires l.start + l.size <= l.nblocks && Distinct(bs) && forall k :: 0 <= k < |bs| ==> IsHome(l, bs[k])
    ensures |bs| <= l.nblocks - l.size
  {
    var homes := Range(0, l.start) + Range(l.start + l.size, l.nblocks);
    RangeSize(0, l.start);
    RangeSize(l.start + l.size, l.nblocks);
    DistinctSize(bs);
    hide Distinct;
    assert Elems(bs) <= homes;
    SubsetSize(Elems(bs), homes);
  }

  /** Position `j` is among the first `k`, and falls to operation `i`. */
  predicate Falls(j: nat, k: nat, i: nat) { j < k && j / MAXOPBLOCKS == i }

  /** The first `k` blocks of a list, shared out to operations of at most MAXOPBLOCKS each. */
  ghost function Share(bs: seq<nat>, k: nat, i: nat): set<nat>
    requires k <= |bs|
  {
    set j: nat | j < k && Falls(j, k, i) :: bs[j]
  }

  ghost function Shares(bs: seq<nat>, k: nat): seq<set<nat>>
    requires k <= |bs|
  {
    [Share(bs, k, 0), Share(bs, k, 1), Share(bs, k, 2)]
  }

  lemma NoShares(bs: seq<nat>)
    ensures Shares(bs, 0) == [{}, {}, {}]
  {
    assert forall i: nat :: Share(bs, 0, i) == {};
  }

  lemma ShareMore(bs: seq<nat>, k: nat, i: nat)
    requires k < |bs|
    ensures Share(bs, k + 1, i) == if k / MAXOPBLOCKS == i then Share(bs, k, i) + {bs[k]} else Share(bs, k, i)
  {
    var s := if k / MAXOPBLOCKS == i then Share(bs, k, i) + {bs[k]} else Share(bs, k, i);
    forall x ensures x in Share(bs, k + 1, i) <==> x in s {
      if x in Share(bs, k + 1, i) {
        var j: nat :| j < k + 1 && Falls(j, k + 1, i) && bs[j] == x;
        assert j < k ==> Falls(j, k, i);
      }
      if x in s && x in Share(bs, k, i) {
        var j: nat :| j < k && Falls(j, k, i) && bs[j] == x;
        assert Falls(j, k + 1, i);
      }
      assert k / MAXOPBLOCKS == i ==> Falls(k, k + 1, i);
    }
  }

  lemma {:induction false} ShareSize(bs: seq<nat>, k: nat, i: nat)
    requires k <= |bs| && Distinct(bs)
    ensures |Share(bs, k, i)| == if k < MAXOPBLOCKS * i then 0 else Min(MAXOPBLOCKS, k - MAXOPBLOCKS * i)
    decreases k
  {
    hide Share;
    if k == 0 {
      ShareNone(bs, i);
    } else {
      ShareSize(bs, k - 1, i);
      ShareMore(bs, k - 1, i);
      NotYet(bs, k - 1, i);
      PlaceOf(k - 1, i);
    }
  }

  lemma ShareNone(bs: seq<nat>, i: nat)
    ensures Share(bs, 0, i) == {}
  {}

  lemma NotYet(bs: seq<nat>, k: nat, i: nat)
    requires k < |bs| && Distinct(bs)
    ensures bs[k] !in Share(bs, k, i)
  {}

  lemma PlaceOf(k: nat, i: nat)
    ensures k / MAXOPBLOCKS == i <==> MAXOPBLOCKS * i <= k < MAXOPBLOCKS * i + MAXOPBLOCKS
  {}

  lemma ShareNext(bs: seq<nat>, k: nat)
    requires k < |bs| && k < LOGSIZE && Distinct(bs)
    ensures k / MAXOPBLOCKS < 3
    ensures Shares(bs, k + 1) == Shares(bs, k)[k / MAXOPBLOCKS := Shares(bs, k)[k / MAXOPBLOCKS] + {bs[k]}]
    ensures |Shares(bs, k)[k / MAXOPBLOCKS] + {bs[k]}| <= MAXOPBLOCKS
  {
    hide Share;
    var i := k / MAXOPBLOCKS;
    ShareMore(bs, k, 0);
    ShareMore(bs, k, 1);
    ShareMore(bs, k, 2);
    ShareSize(bs, k + 1, i);
  }

  /** The shares of a log that is nearly full fit into what was admitted. */
  lemma {:induction false} SharesAdmitted(bs: seq<nat>, k: nat)
    requires k <= |bs| && k <= LOGSIZE && Distinct(bs)
    ensures Admitted(bs[..k], Shares(bs, k))
    decreases k
  {
    hide Share;
    if k == 0 {
      NoShares(bs);
      var none: seq<set<nat>> := [];
      BeginAdmitted([], none);
      BeginAdmitted([], none + [{}]);
      BeginAdmitted([], none + [{}] + [{}]);
      assert Shares(bs, 0) == none + [{}] + [{}] + [{}];
    } else {
      SharesAdmitted(bs, k - 1);
      ShareNext(bs, k - 1);
      WriteAdmitted(bs[..k - 1], Shares(bs, k - 1), (k - 1) / MAXOPBLOCKS, bs[k - 1]);
      assert bs[k - 1] !in bs[..k - 1];
      assert bs[..k] == bs[..k - 1] + [bs[k - 1]];
    }
  }

  lemma NearlyFull(l: LogLayout, bs: seq<nat>)
    requires 1 <= l.size <= LOGSIZE && |bs| == l.size && Distinct(bs) && forall k :: 0 <= k < |bs| ==> IsHome(l, bs[k])
    ensures var n := l.size - 1; Asks(l, bs[..n], Shares(bs, n), n / MAXOPBLOCKS, bs[n]) && TooBig(|bs[..n]|, l.size)
  {
    hide Share, Admitted;
    var n := l.size - 1;
    SharesAdmitted(bs, n);
    ShareNext(bs, n);
  }

  /** No operation within its quota is refused a new block. */
  ghost predicate NeverTooBig(l: LogLayout) {
    forall lh: seq<nat>, ops: seq<set<nat>>, i: nat, b: nat :: Asks(l, lh, ops, i, b) ==> !TooBig(|lh|, l.size)
  }

  /** The reservations keep every write of a new block clear of the size panic exactly when the log is larger than
      LOGSIZE, or the disk has too few blocks to fill the log. */
  lemma SizeSuffices(l: LogLayout)
    requires 1 <= l.size && l.start + l.size <= l.nblocks
    ensures NeverTooBig(l) <==> l.size > LOGSIZE || l.nblocks - l.size < l.size
  {
    hide Shares, Admitted;
    if l.size <= LOGSIZE && l.size <= l.nblocks - l.size {
      var bs := Homes(l, l.size);
      NearlyFull(l, bs);
    } else {
      forall lh: seq<nat>, ops: seq<set<nat>>, i: nat, b: nat | Asks(l, lh, ops, i, b) ensures !TooBig(|lh|, l.size) {
        WriteAdmitted(lh, ops, i, b);
        HomeCount(l, lh + [b]);
      }
    }
  }

  /** Operation `i`, within its quota, writes a block the log has already. */
  ghost predicate Repeats(l: LogLayout, lh: seq<nat>, ops: seq<set<nat>>, i: nat, b: nat) {
    GoodHead(l, lh) && Admitted(lh, ops) && i < |ops| && |ops[i] + {b}| <= MAXOPBLOCKS && b in lh
  }

  /** The size check comes before absorption: writing a block again, within the quota, is clear of the panic exactly
      when the disk has too few blocks to fill the log, or the log has no room at all. */
  lemma AgainSuffices(l: LogLayout)
    requires 1 <= l.size && l.start + l.size <= l.nblocks
    ensures (forall lh: seq<nat>, ops: seq<set<nat>>, i: nat, b: nat ::
               Repeats(l, lh, ops, i, b) ==> !TooBig(|lh|, l.size))
      <==> l.size == 1 || l.nblocks - l.size < Min(LOGSIZE, l.size - 1)
  {
    hide Shares, Admitted;
    var n := Min(LOGSIZE, l.size - 1);
    if 1 <= n <= l.nblocks - l.size {
      Again(l, Homes(l, n), n);
    } else {
      forall lh: seq<nat>, ops: seq<set<nat>>, i: nat, b: nat | Repeats(l, lh, ops, i, b)
        ensures !TooBig(|lh|, l.size)
      {
        HomeCount(l, lh);
      }
    }
  }

  /** A full log, and a block that its first operation can write again. */
  lemma Again(l: LogLayout, bs: seq<nat>, n: nat)
    requires 1 <= n == Min(LOGSIZE, l.size - 1) <= |bs| && Distinct(bs)
    requires forall k :: 0 <= k < |bs| ==> IsHome(l, bs[k])
    ensures Repeats(l, bs[..n], Shares(bs, n), 0, bs[0]) && TooBig(|bs[..n]|, l.size)
  {
    hide Admitted;
    SharesAdmitted(bs, n);
    ShareSize(bs, n, 0);
    assert Falls(0, n, 0);
    assert Share(bs, n, 0) + {bs[0]} == Share(bs, n, 0);
    assert bs[..n][0] == bs[0];
  }
}

/** The logging layer (log.c) over the buffer cache. */
module Logging {
  import opened RedoLog
  import opened Buffers
  import opened Pins
  import opened BufferCache
  import opened Admission
  import opened History
  import opened Common

  class Log {
    const c: Cache
    const l: LogLayout
    var lh: seq<nat>                // the blocks logged since the last commit
    var outstanding: nat
    var committing: bool
    ghost var ops: seq<set<nat>>    // the running operations: the blocks each has written
    ghost var commits: seq<Image>   // the committed states, oldest first
    ghost var story: seq<nat>       // for each disk write so far, the committed state a crash after it comes back as

    ghost predicate Valid()
      reads this, c
    {
      && Quiet() && GoodHead(l, lh) && Pinned(c.bufs) == Elems(lh)
      && outstanding == |ops| && (committing ==> outstanding == 0) && Admitted(lh, ops)
      && Kept(l, c.images, c.disk, commits, story)
    }

    /** The cache is in order, and whoever holds a buffer is reading a home block. */
    ghost predicate Quiet()
      reads c
    {
      c.Valid() && WholeDisk(l, c.disk) && Readers(l, c.bufs, c.disk)
    }

    /** Nobody is reading a logged block. A commit would sleep until it is let go. */
    ghost predicate Aside()
      reads c
    {
      Clear(c.bufs)
    }

    /** bread of a block nobody holds. */
    method Hold(b: nat) returns (r: Option<nat>)
      requires c.Valid() && b in c.disk && Unheld(c.bufs, b)
      modifies c
      ensures r.Some? <==>
        (exists i: nat :: old(Labelled(c.bufs, ROOTDEV, b, i))) || exists i: nat :: old(Recyclable(c.bufs, i))
      ensures c.Valid() && c.Sees() == old(c.Sees()) && c.disk == old(c.disk) && c.images == old(c.images)
      ensures r.Some? ==>
        r.value < NBUF && r.value !in old(Busy(c.bufs)) && c.bufs == old(c.bufs)[r.value := c.bufs[r.value]]
      ensures |c.bufs| == |old(c.bufs)| == NBUF && (r.Some? ==> Held(c.bufs[r.value], b, b in old(Pinned(c.bufs))))
      ensures r.Some? ==> b in c.Sees() && c.bufs[r.value].data == c.Sees()[b]
      ensures r.Some? ==> Busy(c.bufs) == old(Busy(c.bufs)) + {r.value} && Pinned(c.bufs) == old(Pinned(c.bufs))
    {
      hide View;
      hide Pinned;
      ghost var was := c.bufs;
      assert forall i: nat :: Labelled(c.bufs, ROOTDEV, b, i) ==> BufOk(c.bufs, c.disk, i);
      r := c.Bread(ROOTDEV, b);
      if r.None? { return; }
      assert BufOk(c.bufs, c.disk, r.value);
      SameView(c.bufs, c.disk, r.value);
      if b in Pinned(was) {
        ghost var f := PinnedHolds(c.bufs, c.disk, b);
        assert Alone(c.bufs, f, r.value);
      } else if c.bufs[r.value].dirty {
        PinnedBy(c.bufs, r.value);
      }
    }

    /** bread of two blocks nobody holds, the second one pinned if anything is. */
    method HoldBoth(a: nat, b: nat) returns (i: Option<nat>, j: nat)
      requires c.Valid() && a in c.disk && b in c.disk && a != b && Unheld(c.bufs, a) && Unheld(c.bufs, b)
      requires b in Pinned(c.bufs) || (Pinned(c.bufs) == {} && Busy(c.bufs) == {})
      modifies c
      ensures i.Some? <==> old(Bufferable(c.bufs, a))
      ensures c.Valid() && c.Sees() == old(c.Sees()) && c.disk == old(c.disk) && c.images == old(c.images)
      ensures i.Some? ==> i.value < NBUF && j < NBUF && i.value != j && |c.bufs| == |old(c.bufs)| == NBUF
      ensures i.Some? ==> i.value !in old(Busy(c.bufs)) && j !in old(Busy(c.bufs))
      ensures i.Some? ==> SameBut(old(c.bufs), c.bufs, i.value, j)
      ensures i.Some? ==> Pinned(c.bufs) == old(Pinned(c.bufs)) && Busy(c.bufs) == old(Busy(c.bufs)) + {i.value, j}
      ensures i.Some? ==> Held(c.bufs[i.value], a, a in old(Pinned(c.bufs)))
      ensures i.Some? ==> Held(c.bufs[j], b, b in old(Pinned(c.bufs)))
      ensures i.Some? ==> a in c.Sees() && c.bufs[i.value].data == c.Sees()[a]
      ensures i.Some? ==> b in c.Sees() && c.bufs[j].data == c.Sees()[b]
    {
      hide View, Pinned;
      j := 0;
      i := Hold(a);
      if i.None? { return; }
      if b in Pinned(c.bufs) {
        ghost var f := PinnedHolds(c.bufs, c.disk, b);
      } else {
        Spare(c.bufs, i.value);
      }
      var k := Hold(b);
      j := k.value;
    }

    /** Copies one held buffer to another, writes that one out and lets both go, the source first. */
    method Transfer(to: nat, from: nat, ghost b: nat, ghost a: nat)
      requires c.Valid() && to < NBUF && from < NBUF && to != from
      requires Held(c.bufs[to], b, c.bufs[to].dirty) && Held(c.bufs[from], a, c.bufs[from].dirty)
      requires a in c.Sees() && c.bufs[from].data == c.Sees()[a]
      requires a in c.disk && (c.bufs[from].dirty || c.Sees()[a] == c.disk[a])
      modifies c
      ensures c.Valid() && Busy(c.bufs) == old(Busy(c.bufs)) - {to, from} && Pinned(c.bufs) == old(Pinned(c.bufs)) - {b}
      ensures c.Sees() == old(c.Sees()[b := c.Sees()[a]]) && c.disk == old(c.disk)[b := old(c.Sees())[a]]
      ensures c.images == old(c.images) + [c.disk]
      ensures SameBut(old(c.bufs), c.bufs, to, from) && c.bufs[to].refcnt == c.bufs[from].refcnt == 0
    {
      hide View;
      hide Pinned;
      assert BufOk(c.bufs, c.disk, to) && BufOk(c.bufs, c.disk, from) && Alone(c.bufs, to, from);
      c.Fill(to, c.bufs[from].data);
      c.Bwrite(to);
      c.Brelse(from);
      c.Brelse(to);
    }

    /** One round of write_log: a cached home block goes to a log block. */
    method CopyOut(to: nat, from: nat) returns (ok: bool)
      requires Quiet() && Aside() && to in c.disk && !IsHome(l, to) && from in Pinned(c.bufs) && IsHome(l, from)
      requires to !in Pinned(c.bufs)
      modifies c
      ensures ok <==> old(|Pinned(c.bufs)| + |Busy(c.bufs)|) < NBUF
      ensures ok ==> Quiet() && Aside() && Busy(c.bufs) == old(Busy(c.bufs))
      ensures ok ==> Pinned(c.bufs) == old(Pinned(c.bufs)) && from in old(c.Sees())
      ensures ok ==> c.Sees() == old(c.Sees()[to := c.Sees()[from]]) && c.disk == old(c.disk)[to := old(c.Sees())[from]]
      ensures ok ==> c.images == old(c.images) + [c.disk]
      ensures !ok ==> c.disk == old(c.disk) && c.images == old(c.images)
    {
      hide View, Pinned, Readers, Clear, Busy, Unheld, Sane, Bufferable;
      ghost var was, disk := c.bufs, c.disk;
      Available(l, was, disk, to);
      Free(l, was, disk, to);
      Free(l, was, disk, from);
      PinnedThere(was, disk, from);
      var i, j := HoldBoth(to, from);
      if i.None? { return false; }
      Transfer(i.value, j, to, from);
      StillWhole(l, disk, c.bufs, c.disk);
      StillRead(l, was, disk, c.bufs, c.disk, i.value, j, to);
      ok := true;
    }

    /** One round of install_trans: a log block goes to its home, which is pinned (commit) or like all others not
        (recovery). */
    method Install(from: nat, to: nat) returns (ok: bool)
      requires Quiet() && Aside() && to in c.disk && IsHome(l, to) && from in c.disk && !IsHome(l, from)
      requires from !in Pinned(c.bufs) && (to in Pinned(c.bufs) || (Pinned(c.bufs) == {} && Busy(c.bufs) == {}))
      modifies c
      ensures ok <==> old(|Pinned(c.bufs)| + |Busy(c.bufs)|) < NBUF
      ensures ok ==> Quiet() && Aside() && Busy(c.bufs) == old(Busy(c.bufs))
      ensures ok ==> Pinned(c.bufs) == old(Pinned(c.bufs)) - {to}
      ensures ok ==> c.disk == old(c.disk[to := c.disk[from]]) && c.images == old(c.images) + [c.disk]
    {
      hide View, Pinned, Readers, Clear, Busy, Unheld, Sane, Bufferable;
      ghost var was, disk := c.bufs, c.disk;
      Available(l, was, disk, from);
      Free(l, was, disk, from);
      Free(l, was, disk, to);
      ReadSeen(l, was, disk, from);
      var i, j := HoldBoth(from, to);
      if i.None? { return false; }
      Transfer(j, i.value, to, from);
      StillRead(l, was, disk, c.bufs, c.disk, j, i.value, to);
      ok := true;
    }

    /** Gives a held buffer new contents, writes it out and lets it go. */
    method Replace(i: nat, data: Block, ghost b: nat)
      requires c.Valid() && i < NBUF && Held(c.bufs[i], b, c.bufs[i].dirty) && |data| == NWORDS
      modifies c
      ensures c.Valid() && Busy(c.bufs) == old(Busy(c.bufs)) - {i} && Pinned(c.bufs) == old(Pinned(c.bufs)) - {b}
      ensures SameBut(old(c.bufs), c.bufs, i, i) && c.bufs[i].refcnt == 0
      ensures c.Sees() == old(c.Sees())[b := data] && c.disk == old(c.disk)[b := data]
        && c.images == old(c.images) + [c.disk]
    {
      hide View, Pinned;
      c.Fill(i, data);
      c.Bwrite(i);
      c.Brelse(i);
    }

    /** write_head: the in-memory header reaches the disk in one write. */
    method WriteHead() returns (ok: bool)
      requires Quiet() && Aside() && l.start !in Pinned(c.bufs) && |lh| <= LOGSIZE
      modifies c
      ensures ok <==> old(|Pinned(c.bufs)| + |Busy(c.bufs)|) < NBUF
      ensures ok ==> Quiet() && Aside() && Busy(c.bufs) == old(Busy(c.bufs)) && Pinned(c.bufs) == old(Pinned(c.bufs))
      ensures ok ==> c.disk == Headed(l, old(c.disk), lh) && c.images == old(c.images) + [c.disk]
      ensures ok ==> c.Sees() == old(c.Sees())[l.start := c.disk[l.start]]
    {
      hide View, Pinned, EncodeHead, Sane, Readers, Clear, Busy, Unheld;
      ghost var was, disk := c.bufs, c.disk;
      Available(l, was, disk, l.start);
      Free(l, was, disk, l.start);
      ReadSeen(l, was, disk, l.start);
      HeadRoundTrip(c.disk[l.start], lh);
      var i := Hold(l.start);
      if i.None? { return false; }
      var data := PutHead(c.bufs[i.value].data, lh);
      Replace(i.value, data, l.start);
      StillRead(l, was, disk, c.bufs, c.disk, i.value, i.value, l.start);
      ok := true;
    }

    /** write_log: every logged block goes from the cache to the log. */
    method WriteLog() returns (ok: bool)
      requires Quiet() && Aside() && GoodHead(l, lh) && Pinned(c.bufs) == Elems(lh)
      modifies c
      ensures ok <==> lh == [] || |lh| + |old(Busy(c.bufs))| < NBUF
      ensures WholeDisk(l, old(c.Sees()))
      ensures ok ==> Quiet() && Aside() && Busy(c.bufs) == old(Busy(c.bufs)) && Pinned(c.bufs) == old(Pinned(c.bufs))
      ensures ok ==> c.disk == Logged(l, old(c.disk), lh, old(c.Sees()), |lh|)
      ensures ok ==> c.images == old(c.images) + LogShots(l, old(c.disk), lh, old(c.Sees()), |lh|)
      ensures ok ==> forall b :: IsHome(l, b) ==> c.Sees()[b] == old(c.Sees())[b]
      ensures !ok ==> c.disk == old(c.disk) && c.images == old(c.images)
    {
      hide View, Pinned, Sane, GoodHead, Elems, Readers, Clear, Busy, HomesSeen;
      ghost var m, view := c.disk, c.Sees();
      ViewWhole(l, c.bufs, c.disk);
      HomesSeenSelf(l, view);
      Entries(l, lh);
      var tail := 0;
      while tail < |lh|
        invariant 0 <= tail <= |lh| && (tail > 0 ==> |lh| + |Busy(c.bufs)| < NBUF)
        invariant Quiet() && Aside() && Busy(c.bufs) == old(Busy(c.bufs)) && Pinned(c.bufs) == Elems(lh)
        invariant c.disk == Logged(l, m, lh, view, tail)
        invariant c.images == old(c.images) + LogShots(l, m, lh, view, tail)
        invariant HomesSeen(l, c.Sees(), view)
      {
        Round(l, lh, tail);
        ghost var now := c.Sees();
        ok := CopyOut(l.start + tail + 1, lh[tail]);
        if !ok { return; }
        HomesSeenOn(l, now, view, l.start + tail + 1, lh[tail]);
        tail := tail + 1;
      }
      HomesSeenIs(l, c.Sees(), view);
      ok := true;
    }

    /** install_trans: every listed block goes from the log to its home. */
    method InstallTrans() returns (ok: bool)
      requires Quiet() && Aside() && GoodHead(l, lh)
      requires Pinned(c.bufs) == Elems(lh) || (Pinned(c.bufs) == {} && Busy(c.bufs) == {})
      modifies c
      ensures ok <==> lh == [] || old(|Pinned(c.bufs)| + |Busy(c.bufs)|) < NBUF
      ensures ok ==> Quiet() && Aside() && Busy(c.bufs) == old(Busy(c.bufs)) && Pinned(c.bufs) == {}
      ensures ok ==> c.disk == Installed(l, old(c.disk), lh, |lh|)
      ensures ok ==> c.images == old(c.images) + InstallShots(l, old(c.disk), lh, |lh|)
    {
      hide View, Pinned, Sane, GoodHead, Elems, Readers, Clear, Busy;
      ghost var m := c.disk;
      Entries(l, lh);
      var tail := 0;
      while tail < |lh|
        invariant 0 <= tail <= |lh| && (tail > 0 ==> old(|Pinned(c.bufs)| + |Busy(c.bufs)|) < NBUF)
        invariant Quiet() && Aside() && Busy(c.bufs) == old(Busy(c.bufs))
        invariant Pinned(c.bufs) == Elems(lh[tail..]) || (Pinned(c.bufs) == {} && Busy(c.bufs) == {})
        invariant tail == 0 ==> |Pinned(c.bufs)| == old(|Pinned(c.bufs)|)
        invariant tail > 0 ==> |Pinned(c.bufs)| + |Busy(c.bufs)| < NBUF
        invariant c.disk == Installed(l, m, lh, tail)
        invariant c.images == old(c.images) + InstallShots(l, m, lh, tail)
      {
        Round(l, lh, tail);
        ok := Install(l.start + tail + 1, lh[tail]);
        if !ok { return; }
        tail := tail + 1;
      }
      ok := true;
    }

    /** initlog: whatever the log still owes is installed, whichever way the last run ended. */
    constructor (c: Cache, l: LogLayout, ghost hd: seq<nat>, ghost want: Image)
      requires c.Valid() && Busy(c.bufs) == {} && Pinned(c.bufs) == {} && c.images == []
      requires Worth(l, c.disk, hd, want)
      modifies c
      ensures this.c == c && this.l == l && Valid() && lh == [] && ops == [] && !committing && Busy(c.bufs) == {}
      ensures commits == [want] && SameHomes(l, c.Sees(), want)
      ensures c.disk == RecoverTo(l, old(c.disk), hd, |hd| + 1)
    {
      this.c := c;
      this.l := l;
      lh := [];
      outstanding := 0;
      committing := false;
      ops := [];
      commits := [want];
      new;
      NoReaders(l, c.bufs, c.disk);
      Recover(hd, want);
    }

    /** recover_from_log. */
    method Recover(ghost hd: seq<nat>, ghost want: Image)
      requires Quiet() && Busy(c.bufs) == {} && Pinned(c.bufs) == {} && c.images == [] && commits == [want]
      requires Worth(l, c.disk, hd, want) && outstanding == 0 && ops == []
      modifies c, this`lh, this`story
      ensures Valid() && lh == [] && Busy(c.bufs) == {} && SameHomes(l, c.Sees(), want)
      ensures c.disk == RecoverTo(l, old(c.disk), hd, |hd| + 1)
    {
      hide View;
      hide Pinned;
      hide Worth;
      WorthHead(l, c.disk, hd, want);
      ghost var m := c.disk;
      ReadHead(hd);
      Nobody(c.bufs, 0);
      var ok := InstallTrans();
      lh := [];
      ok := WriteHead();
      story := Repeat(0, |hd| + 1);
      RecoverTold(l, m, hd, want);
      assert c.images == InstallShots(l, m, hd, |hd|) + [RecoverTo(l, m, hd, |hd| + 1)];
      CleanView(l, c.bufs, c.disk);
      SettledHomes(l, c.disk, want);
      EmptyLog(l);
    }

    /** read_head. */
    method ReadHead(ghost hd: seq<nat>)
      requires Quiet() && Busy(c.bufs) == {} && Pinned(c.bufs) == {} && HasHead(l, c.disk, hd)
      modifies c, this`lh
      ensures Quiet() && Busy(c.bufs) == {} && Pinned(c.bufs) == {}
      ensures c.disk == old(c.disk) && c.images == old(c.images) && lh == hd
    {
      hide View;
      hide Pinned;
      ghost var was := c.bufs;
      Available(l, was, c.disk, l.start);
      Free(l, was, c.disk, l.start);
      ReadSeen(l, was, c.disk, l.start);
      var i := Hold(l.start);
      lh := GetHead(c.bufs[i.value].data, hd);
      c.Brelse(i.value);
      StillRead(l, was, c.disk, c.bufs, c.disk, i.value, i.value, l.start);
    }

    /** begin_op: false means the operation sleeps and asks again. */
    method BeginOp() returns (ok: bool)
      requires Valid()
      modifies this`outstanding, this`ops
      ensures Valid()
      ensures ok <==> !committing && |lh| + (old(outstanding) + 1) * MAXOPBLOCKS <= LOGSIZE
      ensures ops == if ok then old(ops) + [{}] else old(ops)
    {
      if committing || |lh| + (outstanding + 1) * MAXOPBLOCKS > LOGSIZE { return false; }
      BeginAdmitted(lh, ops);
      outstanding := outstanding + 1;
      ops := ops + [{}];
      return true;
    }

    /** end_op, up to its decision to commit. The panic in it cannot happen. */
    method EndOp(ghost i: nat) returns (commit: bool)
      requires Valid() && i < |ops|
      modifies this`outstanding, this`ops, this`committing
      ensures Valid() && ops == old(ops)[..i] + old(ops)[i + 1..]
      ensures commit == committing == (ops == [])
    {
      EndAdmitted(lh, ops, i);
      outstanding := outstanding - 1;
      ops := ops[..i] + ops[i + 1..];
      if committing { assert false; }
      if outstanding == 0 {
        committing := true;
        return true;
      }
      return false;
    }

    /** bread, a change to the contents of the buffer, log_write and brelse. */
    method Change(b: nat, data: Block) returns (ok: bool, ghost r: nat)
      requires c.Valid() && b in c.disk && Unheld(c.bufs, b) && |data| == NWORDS && outstanding > 0
      modifies c, this`lh
      ensures ok <==> !TooBig(old(|lh|), l.size) && old(Bufferable(c.bufs, b))
      ensures c.disk == old(c.disk) && c.images == old(c.images) && (!ok ==> lh == old(lh))
      ensures ok ==> c.Valid() && lh == Absorbed(old(lh), b) && Pinned(c.bufs) == old(Pinned(c.bufs)) + {b}
      ensures ok ==> c.Sees() == old(c.Sees())[b := data]
      ensures ok ==> r < NBUF == |c.bufs| == |old(c.bufs)| && r !in old(Busy(c.bufs)) && c.bufs[r].refcnt == 0
      ensures ok ==> SameBut(old(c.bufs), c.bufs, r, r)
    {
      hide View, Pinned;
      r := 0;
      var i := Hold(b);
      if i.None? { return false, 0; }
      r := i.value;
      c.Fill(i.value, data);
      ok := LogWrite(i.value);
      if !ok { return; }
      c.Brelse(i.value);
    }

    /** A file system operation changes a block that nobody holds: bread, a change to its contents, log_write and
        brelse. It is refused exactly when the log is full, or when there is no buffer for the block. */
    method Write(ghost i: nat, b: nat, data: Block) returns (ok: bool)
      requires Valid() && i < |ops| && |ops[i] + {b}| <= MAXOPBLOCKS && IsHome(l, b) && |data| == NWORDS
      requires Unheld(c.bufs, b)
      modifies c, this`lh, this`ops
      ensures ok <==> !TooBig(old(|lh|), l.size) && old(Bufferable(c.bufs, b))
      ensures old(Busy(c.bufs)) == {} ==> (ok <==> !TooBig(old(|lh|), l.size))
      ensures old(Busy(c.bufs)) == {} && old(b !in lh) && l.size > LOGSIZE ==> ok
      ensures ok ==> Valid() && lh == Absorbed(old(lh), b) && ops == old(ops)[i := old(ops)[i] + {b}]
      ensures ok ==> c.Sees() == old(c.Sees())[b := data] && Busy(c.bufs) == old(Busy(c.bufs))
      ensures c.disk == old(c.disk) && c.images == old(c.images) && (!ok ==> lh == old(lh) && ops == old(ops))
    {
      hide View;
      hide Pinned;
      hide Kept;
      hide GoodHead;
      hide Admitted;
      hide Elems;
      hide Readers, Clear, Busy, Unheld, Bufferable;
      ghost var was := c.bufs;
      WriteAdmitted(lh, ops, i, b);
      Entries(l, lh);
      ForOne(was, c.disk, b);
      ghost var r;
      ok, r := Change(b, data);
      if !ok { return; }
      AbsorbedHead(l, old(lh), b);
      StillRead(l, was, c.disk, c.bufs, c.disk, r, r, b);
      ops := ops[i := ops[i] + {b}];
    }

    /** A reader's bread of a home block that nobody has locked; None is a panic. */
    method ReadIn(b: nat) returns (r: Option<nat>)
      requires Valid() && IsHome(l, b) && NotLocked(c.bufs, b)
      modifies c
      ensures r.Some? <==> old(Bufferable(c.bufs, b))
      ensures r.Some? ==> Valid() && Busy(c.bufs) == old(Busy(c.bufs)) + {r.value}
      ensures r.Some? ==> r.value < NBUF && c.bufs[r.value].locked && c.bufs[r.value].data == old(c.Sees())[b]
      ensures r.Some? ==> c.bufs[r.value].blockno == b && SameBut(old(c.bufs), c.bufs, r.value, r.value)
      ensures r.Some? ==> c.bufs[r.value].refcnt == old(c.bufs)[r.value].refcnt + 1
      ensures r.Some? ==> c.bufs[r.value].dirty == old(c.bufs)[r.value].dirty
      ensures r.Some? ==> old(Labelled(c.bufs, ROOTDEV, b, r.value) || Recyclable(c.bufs, r.value))
      ensures r.Some? && old(Unheld(c.bufs, b)) ==> r.value !in old(Busy(c.bufs))
      ensures r.Some? && b !in lh && old(Aside()) ==> Aside()
      ensures c.Sees() == old(c.Sees()) && c.disk == old(c.disk) && c.images == old(c.images)
    {
      hide View, Pinned, Kept, GoodHead, Admitted, Readers, Clear;
      ghost var was := c.bufs;
      assert b in c.disk;
      if b !in Pinned(was) { ReadSeen(l, was, c.disk, b); }
      r := c.Bread(ROOTDEV, b);
      if r.Some? {
        assert BufOk(c.bufs, c.disk, r.value);
        if c.bufs[r.value].dirty { PinnedBy(c.bufs, r.value); } else { NotPinned(c.bufs, c.disk, r.value); }
        NowRead(l, was, c.bufs, c.disk, r.value, b);
      }
    }

    /** A reader's brelse. */
    method LetGo(i: nat)
      requires Valid() && i < NBUF && c.bufs[i].locked
      modifies c
      ensures Valid() && c.Sees() == old(c.Sees()) && c.disk == old(c.disk) && c.images == old(c.images)
      ensures Busy(c.bufs) == if old(c.bufs)[i].refcnt > 1 then old(Busy(c.bufs)) else old(Busy(c.bufs)) - {i}
      ensures old(c.bufs)[i].refcnt > 0
        && c.bufs == old(c.bufs)[i := old(c.bufs)[i].(refcnt := old(c.bufs)[i].refcnt - 1, locked := false)]
    {
      hide View, Pinned, Kept, GoodHead, Admitted, Elems;
      ghost var was := c.bufs;
      assert BufOk(was, c.disk, i) && Reader(l, was, c.disk, i);
      c.Brelse(i);
      forall k: nat ensures Reader(l, c.bufs, c.disk, k) { assert Reader(l, was, c.disk, k); }
    }

    /** log_write. */
    method LogWrite(i: nat) returns (ok: bool)
      requires c.Valid() && i < NBUF && c.bufs[i].locked && c.bufs[i].valid
      modifies c`bufs, this`lh
      ensures ok <==> !TooBig(old(|lh|), l.size) && outstanding > 0
      ensures !ok ==> lh == old(lh) && c.bufs == old(c.bufs)
      ensures ok ==> lh == Absorbed(old(lh), old(c.bufs[i].blockno))
      ensures ok ==>
        c.Valid() && c.bufs == old(c.bufs)[i := old(c.bufs)[i].(dirty := true)] && c.Sees() == old(c.Sees())
      ensures ok ==>
        Busy(c.bufs) == old(Busy(c.bufs)) && Pinned(c.bufs) == old(Pinned(c.bufs)) + {old(c.bufs[i].blockno)}
    {
      if |lh| >= LOGSIZE || |lh| >= l.size - 1 { return false; }
      if outstanding < 1 { return false; }
      var k := 0;
      while k < |lh| && lh[k] != c.bufs[i].blockno
        invariant 0 <= k <= |lh| && c.bufs[i].blockno !in lh[..k]
      {
        k := k + 1;
      }
      if k == |lh| { lh := lh + [c.bufs[i].blockno]; }
      c.Pin(i);
      return true;
    }

    /** commit: what is seen becomes the newest committed state, by the 2n + 2 writes of `CommitTo`. It fails, in bget,
        exactly when every buffer is pinned or read. */
    method Commit() returns (ok: bool)
      requires Valid() && committing && Aside()
      modifies c, this`lh, this`commits, this`story
      ensures ok <==> old(lh) == [] || old(|lh| + |Busy(c.bufs)|) < NBUF
      ensures ok ==> Valid() && lh == [] && SameHomes(l, c.Sees(), old(c.Sees())) && Busy(c.bufs) == old(Busy(c.bufs))
      ensures ok && old(lh) == [] ==> c.images == old(c.images) && commits == old(commits) && story == old(story)
      ensures ok && old(lh) != [] ==>
        && WholeDisk(l, old(c.Sees())) && commits == old(commits) + [old(c.Sees())]
        && c.images == old(c.images) + CommitShots(l, old(c.disk), old(lh), old(c.Sees()))
        && story == old(story) + Repeat(|commits| - 2, old(|lh|)) + Repeat(|commits| - 1, old(|lh|) + 2)
      // the panic comes before the first disk write
      ensures !ok ==>
        c.disk == old(c.disk) && c.images == old(c.images) && lh == old(lh) && commits == old(commits)
        && story == old(story)
    {
      hide View;
      hide Pinned;
      hide Told;
      hide Worth;
      hide Admitted;
      EmptyLog(l);
      if |lh| == 0 {
        ghost var view := c.Sees();
        assert SameHomes(l, view, view) by { ViewWhole(l, c.bufs, c.disk); }
        return true;
      }
      ok := CommitAll();
    }

    /** The disk writes of commit, there being something to commit. */
    method CommitWrites() returns (ok: bool)
      requires Quiet() && Aside() && GoodHead(l, lh) && lh != [] && Pinned(c.bufs) == Elems(lh)
      modifies c, this`lh
      ensures ok <==> old(|lh| + |Busy(c.bufs)|) < NBUF
      ensures ok ==> Quiet() && lh == [] && Pinned(c.bufs) == {} && WholeDisk(l, old(c.Sees()))
      ensures ok ==> Busy(c.bufs) == old(Busy(c.bufs))
      ensures ok ==> c.disk == CommitTo(l, old(c.disk), old(lh), old(c.Sees()), 2 * old(|lh|) + 2)
      ensures ok ==> c.images == old(c.images) + CommitShots(l, old(c.disk), old(lh), old(c.Sees()))
      ensures !ok ==> c.disk == old(c.disk) && c.images == old(c.images) && lh == old(lh)
    {
      hide View, Pinned, Sane, GoodHead, EncodeHead, Elems, Logged, Installed, LogShots, InstallShots;
      ghost var m, hd, view := c.disk, lh, c.Sees();
      Entries(l, lh);
      ok := WriteLog();
      if !ok { return; }
      ok := WriteHead();
      ok := InstallTrans();
      lh := [];
      ok := WriteHead();
      assert c.images == old(c.images) + CommitShots(l, m, hd, view);
    }

    /** The body of commit and what it means. */
    method CommitAll() returns (ok: bool)
      requires Quiet() && Aside() && GoodHead(l, lh) && lh != [] && Pinned(c.bufs) == Elems(lh)
      requires ops == [] && outstanding == 0 && Kept(l, c.images, c.disk, commits, story)
      modifies c, this`lh, this`commits, this`story
      ensures ok <==> old(|lh| + |Busy(c.bufs)|) < NBUF
      ensures ok ==> Valid() && lh == [] && SameHomes(l, c.Sees(), old(c.Sees())) && Busy(c.bufs) == old(Busy(c.bufs))
      ensures ok ==>
        && WholeDisk(l, old(c.Sees())) && commits == old(commits) + [old(c.Sees())]
        && c.images == old(c.images) + CommitShots(l, old(c.disk), old(lh), old(c.Sees()))
        && story == old(story) + Repeat(|commits| - 2, old(|lh|)) + Repeat(|commits| - 1, old(|lh|) + 2)
      // the panic comes before the first disk write
      ensures !ok ==>
        c.disk == old(c.disk) && c.images == old(c.images) && lh == old(lh) && commits == old(commits)
        && story == old(story)
    {
      hide View;
      hide Pinned;
      hide Told;
      hide Worth;
      hide Sane;
      hide Elems;
      ghost var m, hd, view := c.disk, lh, c.Sees();
      Entries(l, lh);
      LoggedOnly(l, c.bufs, c.disk, lh);
      ok := CommitWrites();
      if !ok { return; }
      CommitTold(l, old(c.images), commits, story, m, hd, view);
      story := story + Repeat(|commits| - 1, |hd|) + Repeat(|commits|, |hd| + 2);
      commits := commits + [view];
      CleanView(l, c.bufs, c.disk);
      SettledHomes(l, c.disk, view);
      EmptyLog(l);
    }

    /** The end of end_op: operations may start again. */
    method Done()
      requires Valid() && committing && lh == []
      modifies this`committing
      ensures Valid() && !committing
    {
      committing := false;
    }
  }

  /** Nobody holds the buffer of block `b`. */
  predicate Unheld(bufs: seq<Buf>, b: nat) {
    forall i: nat :: i < |bufs| && Labelled(bufs, ROOTDEV, b, i) ==> bufs[i].refcnt == 0
  }

  /** A locked buffer of block `b` with one user. */
  predicate Held(x: Buf, b: nat, dirty: bool) {
    x.dev == ROOTDEV && x.blockno == b && x.valid && x.locked && x.refcnt == 1 && x.dirty == dirty
  }

  lemma PinnedBy(bufs: seq<Buf>, i: nat)
    requires i < |bufs| && bufs[i].dirty
    ensures bufs[i].blockno in Pinned(bufs)
  {
    assert i in Dirty(bufs);
  }

  /** Whoever holds buffer `i` reads a home block in it. */
  ghost predicate Reader(l: LogLayout, bufs: seq<Buf>, disk: Image, i: nat) {
    OnlyRead(bufs, disk, i) && (i < |bufs| && bufs[i].refcnt > 0 ==> IsHome(l, bufs[i].blockno))
  }

  /** There is a buffer for block `b`. */
  ghost predicate Bufferable(bufs: seq<Buf>, b: nat) {
    (exists i: nat :: Labelled(bufs, ROOTDEV, b, i)) || exists i: nat :: Recyclable(bufs, i)
  }

  ghost predicate Readers(l: LogLayout, bufs: seq<Buf>, disk: Image) { forall i: nat :: Reader(l, bufs, disk, i) }

  /** Nobody holds a pinned buffer. */
  predicate Clear(bufs: seq<Buf>) { Busy(bufs) !! Dirty(bufs) }

  predicate SameBut(a: seq<Buf>, b: seq<Buf>, i: nat, j: nat) {
    |a| == |b| && forall k :: 0 <= k < |a| && k != i && k != j ==> b[k] == a[k]
  }

  lemma ReadSeen(l: LogLayout, bufs: seq<Buf>, disk: Image, b: nat)
    requires Sane(bufs, disk) && Readers(l, bufs, disk) && b in disk && b !in Pinned(bufs)
    ensures Seen(bufs, disk, b) == disk[b] == View(bufs, disk)[b]
  {
    forall i: nat ensures OnlyRead(bufs, disk, i) { assert Reader(l, bufs, disk, i); }
    CleanSeen(bufs, disk, b);
  }

  /** There is a buffer for any block, if not all are pinned or read. */
  lemma ForOne(bufs: seq<Buf>, disk: Image, b: nat)
    requires Sane(bufs, disk)
    ensures Busy(bufs) == {} && |Pinned(bufs)| < NBUF ==> Bufferable(bufs, b)
    ensures Clear(bufs) && |Pinned(bufs)| + |Busy(bufs)| < NBUF ==> Bufferable(bufs, b)
  {
    if Clear(bufs) { IdleBuffer(bufs, disk); }
  }

  /** Outside the log the same is seen. */
  ghost predicate HomesSeen(l: LogLayout, now: Image, view: Image) {
    WholeDisk(l, now) && WholeDisk(l, view) && forall b :: IsHome(l, b) ==> now[b] == view[b]
  }

  lemma HomesSeenSelf(l: LogLayout, view: Image)
    requires WholeDisk(l, view)
    ensures HomesSeen(l, view, view)
  {}

  lemma HomesSeenOn(l: LogLayout, now: Image, view: Image, to: nat, from: nat)
    requires HomesSeen(l, now, view) && !IsHome(l, to) && to < l.nblocks && IsHome(l, from)
    ensures from in now && from in view && now[from] == view[from] && HomesSeen(l, now[to := now[from]], view)
  {}

  lemma HomesSeenIs(l: LogLayout, now: Image, view: Image)
    requires HomesSeen(l, now, view)
    ensures WholeDisk(l, now) && WholeDisk(l, view) && forall b :: IsHome(l, b) ==> now[b] == view[b]
  {}

  lemma StillWhole(l: LogLayout, disk: Image, bufs': seq<Buf>, disk': Image)
    requires WholeDisk(l, disk) && Sane(bufs', disk') && disk'.Keys == disk.Keys
    ensures WholeDisk(l, disk')
  {}

  lemma PinnedThere(bufs: seq<Buf>, disk: Image, b: nat)
    requires Sane(bufs, disk) && b in Pinned(bufs)
    ensures b in disk
  {
    var i := PinnedHolds(bufs, disk, b);
    assert BufOk(bufs, disk, i);
  }

  /** Readers hold neither blocks of the log nor, if they stay aside, logged blocks. */
  lemma Free(l: LogLayout, bufs: seq<Buf>, disk: Image, b: nat)
    requires Sane(bufs, disk) && Readers(l, bufs, disk) && Clear(bufs)
    requires !IsHome(l, b) || b in Pinned(bufs) || Busy(bufs) == {}
    ensures Unheld(bufs, b)
  {
    forall i: nat | Labelled(bufs, ROOTDEV, b, i) ensures bufs[i].refcnt == 0 {
      assert Reader(l, bufs, disk, i) && (bufs[i].refcnt > 0 ==> i in Busy(bufs));
      if b in Pinned(bufs) {
        var f := PinnedHolds(bufs, disk, b);
        assert Alone(bufs, i, f) && f in Dirty(bufs);
      }
    }
  }

  /** Buffers that were taken for a block nobody read, and let go, leave the readers where they were. */
  lemma StillRead(l: LogLayout, bufs: seq<Buf>, disk: Image, bufs': seq<Buf>, disk': Image, i: nat, j: nat, b: nat)
    requires Readers(l, bufs, disk) && Unheld(bufs, b) && Sane(bufs, disk)
    requires i < |bufs| && j < |bufs| && i !in Busy(bufs) && j !in Busy(bufs) && SameBut(bufs, bufs', i, j)
    requires bufs'[i].refcnt == bufs'[j].refcnt == 0
    requires forall x :: x in disk && x != b ==> x in disk' && disk'[x] == disk[x]
    ensures Readers(l, bufs', disk') && Busy(bufs') == Busy(bufs) && (Clear(bufs) ==> Clear(bufs'))
  {
    forall k: nat ensures Reader(l, bufs', disk', k) {
      assert Reader(l, bufs, disk, k) && BufOk(bufs, disk, k);
      assert Labelled(bufs, ROOTDEV, b, k) ==> bufs[k].refcnt == 0;
    }
    assert forall k :: k in Busy(bufs') ==> bufs'[k] == bufs[k];
  }

  predicate NotLocked(bufs: seq<Buf>, b: nat) {
    forall i: nat :: i < |bufs| && Labelled(bufs, ROOTDEV, b, i) ==> !bufs[i].locked
  }

  lemma NoneLocked(bufs: seq<Buf>, disk: Image, b: nat)
    requires Sane(bufs, disk) && Unheld(bufs, b)
    ensures NotLocked(bufs, b)
  {
    forall i: nat | i < |bufs| && Labelled(bufs, ROOTDEV, b, i) ensures !bufs[i].locked { assert BufOk(bufs, disk, i); }
  }

  /** One more reader. */
  lemma NowRead(l: LogLayout, bufs: seq<Buf>, bufs': seq<Buf>, disk: Image, i: nat, b: nat)
    requires Readers(l, bufs, disk) && i < |bufs| && SameBut(bufs, bufs', i, i) && IsHome(l, b)
    requires b in disk && bufs'[i].blockno == b && (!bufs'[i].dirty ==> bufs'[i].valid && bufs'[i].data == disk[b])
    ensures Readers(l, bufs', disk) && (Clear(bufs) && !bufs'[i].dirty ==> Clear(bufs'))
  {
    forall k: nat ensures Reader(l, bufs', disk, k) { assert Reader(l, bufs, disk, k); }
    if Clear(bufs) && !bufs'[i].dirty {
      forall k | k in Busy(bufs') ensures k !in Dirty(bufs') { assert k != i ==> k in Busy(bufs) && k !in Dirty(bufs); }
    }
  }

  /** Whether a block of the log can be read, with the readers aside. */
  lemma Available(l: LogLayout, bufs: seq<Buf>, disk: Image, b: nat)
    requires Sane(bufs, disk) && Readers(l, bufs, disk) && Clear(bufs) && !IsHome(l, b) && b !in Pinned(bufs)
    ensures Bufferable(bufs, b) <==> |Pinned(bufs)| + |Busy(bufs)| < NBUF
  {
    IdleBuffer(bufs, disk);
    if |Pinned(bufs)| + |Busy(bufs)| >= NBUF {
      forall i: nat ensures !Labelled(bufs, ROOTDEV, b, i) {
        assert !Recyclable(bufs, i) && Reader(l, bufs, disk, i) && (i < |bufs| && bufs[i].dirty ==> i in Dirty(bufs));
      }
    }
  }

  /** The t-th listed block is a home block, its log block is not, and the rest follow. */
  lemma Round(l: LogLayout, hd: seq<nat>, t: nat)
    requires GoodHead(l, hd) && t < |hd|
    ensures IsHome(l, hd[t]) && l.start + 1 + t < l.start + l.size
    ensures hd[t] in Elems(hd) && hd[t] in Elems(hd[t..])
    ensures l.start + 1 + t !in Elems(hd) && l.start + 1 + t !in Elems(hd[t..])
    ensures Elems(hd[t..]) - {hd[t]} == Elems(hd[t + 1..])
  {
    assert hd[t..] == [hd[t]] + hd[t + 1..];
    assert forall i :: t < i < |hd| ==> hd[t + 1..][i - t - 1] == hd[i];
    assert !IsHome(l, l.start + 1 + t);
    forall x | x in hd ensures IsHome(l, x) {}
  }

  lemma Entries(l: LogLayout, hd: seq<nat>)
    requires GoodHead(l, hd)
    ensures |Elems(hd)| == |hd| && hd[0..] == hd && Elems(hd[|hd|..]) == {}
    ensures l.start !in Elems(hd) || l.size == 0
  {
    DistinctSize(hd);
    forall x | x in hd ensures IsHome(l, x) {}
  }

  /** With nothing pinned and one buffer in use, another is to be had. */
  lemma Spare(bufs: seq<Buf>, i: nat)
    requires |bufs| == NBUF && Busy(bufs) == {i} && Pinned(bufs) == {}
    ensures exists j: nat :: Recyclable(bufs, j)
  {
    var j := if i == 0 then 1 else 0;
    assert j !in Busy(bufs);
    if bufs[j].dirty { PinnedBy(bufs, j); }
    assert Recyclable(bufs, j);
  }

  lemma ViewWhole(l: LogLayout, bufs: seq<Buf>, disk: Image)
    requires Sane(bufs, disk) && WholeDisk(l, disk)
    ensures WholeDisk(l, View(bufs, disk))
  {
    forall b | b in disk ensures |Seen(bufs, disk, b)| == NWORDS {
      if i: nat :| Holds(bufs, b, i) {
        SeenIs(bufs, disk, b, i);
        assert BufOk(bufs, disk, i);
      }
    }
  }

  lemma AbsorbedHead(l: LogLayout, lh: seq<nat>, b: nat)
    requires GoodHead(l, lh) && IsHome(l, b) && !TooBig(|lh|, l.size)
    ensures GoodHead(l, Absorbed(lh, b)) && Elems(Absorbed(lh, b)) == Elems(lh) + {b}
  {}

  /** Only the logged blocks are seen other than they are on the disk. */
  lemma LoggedOnly(l: LogLayout, bufs: seq<Buf>, disk: Image, lh: seq<nat>)
    requires Sane(bufs, disk) && WholeDisk(l, disk) && Pinned(bufs) == Elems(lh) && Readers(l, bufs, disk)
    ensures WholeDisk(l, View(bufs, disk)) && forall b: nat :: HomeOk(l, disk, lh, View(bufs, disk), b)
  {
    ViewWhole(l, bufs, disk);
    forall b: nat ensures HomeOk(l, disk, lh, View(bufs, disk), b) {
      if IsHome(l, b) && b !in lh { ReadSeen(l, bufs, disk, b); }
    }
  }

  /** Over the whole run, and also after a panic in commit: a crash after any disk write, any number of interrupted
      recoveries and a complete one bring back exactly the contents of the committed state that the history names. */
  lemma CrashAnywhere(log: Log, i: nat, stops: seq<nat>, r: Image, last: seq<nat>)
    requires Kept(log.l, log.c.images, log.c.disk, log.commits, log.story) && i < |log.c.images|
    requires Recoveries(log.l, log.c.images[i], stops, r) && HasHead(log.l, r, last)
    ensures i < |log.story| && log.story[i] < |log.commits|
    ensures SameHomes(log.l, RecoverTo(log.l, r, last, |last| + 1), log.commits[log.story[i]])
  {
    assert PointOk(log.l, log.c.images, log.commits, log.story, i);
    RecoversMeans(log.l, log.c.images[i], log.commits[log.story[i]], stops, r, last);
  }

  /** From boot, three operations are admitted. */
  method Three(c: Cache, l: LogLayout, ghost hd: seq<nat>, ghost want: Image) returns (log: Log)
    requires c.Valid() && Busy(c.bufs) == {} && Pinned(c.bufs) == {} && c.images == [] && Worth(l, c.disk, hd, want)
    modifies c
    ensures fresh(log) && log.c == c && log.l == l && log.Valid()
    ensures log.lh == [] && log.ops == [{}, {}, {}] && !log.committing && Busy(c.bufs) == {}
  {
    hide Worth, View, Pinned, Told, Kept, Sane, GoodHead, Admitted;
    log := new Log(c, l, hd, want);
    var ok := log.BeginOp();
    ok := log.BeginOp();
    ok := log.BeginOp();
  }

  /** Three operations within their quotas write `n` blocks. */
  method Fill(log: Log, bs: seq<nat>, n: nat, data: Block)
    requires log.Valid() && log.lh == [] && log.ops == [{}, {}, {}] && !log.committing && |data| == NWORDS
    requires Busy(log.c.bufs) == {}
    requires n <= |bs| && n <= LOGSIZE && n < log.l.size && Distinct(bs) && forall b :: b in bs ==> IsHome(log.l, b)
    modifies log, log.c
    ensures log.Valid() && log.lh == bs[..n] && log.ops == Shares(bs, n) && !log.committing
    ensures Busy(log.c.bufs) == {}
  {
    hide Worth, View, Pinned, Told, Kept, Sane, GoodHead, Admitted, Share;
    NoShares(bs);
    for k := 0 to n
      invariant log.Valid() && log.lh == bs[..k] && log.ops == Shares(bs, k) && !log.committing
      invariant Busy(log.c.bufs) == {}
    {
      Nobody(log.c.bufs, bs[k]);
      ShareNext(bs, k);
      Fresh(bs, k);
      var ok := log.Write(k / MAXOPBLOCKS, bs[k], data);
    }
  }

  lemma Fresh(bs: seq<nat>, k: nat)
    requires Distinct(bs) && k < |bs|
    ensures bs[k] !in bs[..k] && bs[..k + 1] == bs[..k] + [bs[k]]
  {}

  /** A log that mkfs could have made: with no more than LOGSIZE blocks, header included, an operation within its quota
      is refused its next block. From boot, three operations are admitted and fill the log up to its last block. */
  method Overrun(c: Cache, l: LogLayout, ghost hd: seq<nat>, ghost want: Image, bs: seq<nat>, data: Block)
    returns (log: Log, ok: bool, ghost i: nat)
    requires c.Valid() && Busy(c.bufs) == {} && Pinned(c.bufs) == {} && c.images == [] && Worth(l, c.disk, hd, want)
    requires l.size <= LOGSIZE && |bs| == l.size && Distinct(bs) && (forall b :: b in bs ==> IsHome(l, b))
      && |data| == NWORDS
    modifies c
    ensures !ok && fresh(log) && log.l == l
    ensures Asks(l, log.lh, log.ops, i, bs[l.size - 1])
  {
    hide Worth, View, Pinned, Told, Kept, Sane, Admitted, Share;
    log := Three(c, l, hd, want);
    var n := l.size - 1;
    Fill(log, bs, n, data);
    NearlyFull(l, bs);
    i := n / MAXOPBLOCKS;
    Nobody(c.bufs, bs[n]);
    ok := log.Write(i, bs[n], data);
  }

  /** Any log, filled: an operation within its quota is refused a block that the log has already. */
  method Refused(c: Cache, l: LogLayout, ghost hd: seq<nat>, ghost want: Image, bs: seq<nat>, data: Block)
    returns (log: Log, ok: bool)
    requires c.Valid() && Busy(c.bufs) == {} && Pinned(c.bufs) == {} && c.images == [] && Worth(l, c.disk, hd, want)
    requires |bs| == Min(LOGSIZE, l.size - 1) > 0 && Distinct(bs) && (forall b :: b in bs ==> IsHome(l, b))
      && |data| == NWORDS
    modifies c
    ensures !ok && fresh(log) && log.l == l
    ensures Repeats(l, log.lh, log.ops, 0, bs[0])
  {
    hide Worth, View, Pinned, Told, Kept, Sane, Admitted, Share;
    log := Three(c, l, hd, want);
    Fill(log, bs, |bs|, data);
    Again(l, bs, |bs|);
    Nobody(c.bufs, bs[0]);
    ok := log.Write(0, bs[0], data);
  }

  /** From boot, three operations write `n` blocks and end. */
  method Ended(c: Cache, l: LogLayout, ghost hd: seq<nat>, ghost want: Image, bs: seq<nat>, n: nat, data: Block)
    returns (log: Log)
    requires c.Valid() && Busy(c.bufs) == {} && Pinned(c.bufs) == {} && c.images == [] && Worth(l, c.disk, hd, want)
    requires n <= |bs| && n <= LOGSIZE && n < l.size && Distinct(bs) && (forall b :: b in bs ==> IsHome(l, b))
      && |data| == NWORDS
    modifies c
    ensures fresh(log) && log.c == c && log.l == l && log.Valid() && log.committing && log.lh == bs[..n]
    ensures Busy(c.bufs) == {}
  {
    hide Worth, View, Pinned, Told, Kept, Sane, GoodHead, Admitted, Share, Readers;
    log := Three(c, l, hd, want);
    Fill(log, bs, n, data);
    var ok := log.EndOp(2);
    ok := log.EndOp(1);
    ok := log.EndOp(0);
  }

  /** Whoever holds a buffer reads one of the blocks `bs`. */
  ghost predicate Reading(bufs: seq<Buf>, bs: set<nat>) {
    forall i: nat :: i < |bufs| && bufs[i].refcnt > 0 ==> bufs[i].blockno in bs
  }

  lemma Unread(bufs: seq<Buf>, disk: Image, bs: set<nat>, b: nat)
    requires Sane(bufs, disk) && Reading(bufs, bs) && b !in bs
    ensures Unheld(bufs, b) && NotLocked(bufs, b)
  {
    NoneLocked(bufs, disk, b);
  }

  lemma ReadingNone(bufs: seq<Buf>, bs: set<nat>)
    requires Busy(bufs) == {}
    ensures Reading(bufs, bs)
  {
    forall i: nat | i < |bufs| ensures bufs[i].refcnt == 0 { assert i !in Busy(bufs); }
  }

  lemma ReadingMore(bufs: seq<Buf>, disk: Image, bufs': seq<Buf>, bs: seq<nat>, k: nat, i: nat)
    requires Sane(bufs, disk) && k < |bs| && Reading(bufs, Elems(bs[..k])) && i < NBUF && SameBut(bufs, bufs', i, i)
    requires bufs'[i].blockno == bs[k]
    ensures Reading(bufs', Elems(bs[..k + 1]))
  {
    assert bs[..k + 1] == bs[..k] + [bs[k]];
  }

  /** Blocks that are not logged are read, until there are `r` readers. */
  method Attend(log: Log, bs: seq<nat>, r: nat)
    requires log.Valid() && Busy(log.c.bufs) == {} && |log.lh| + r <= NBUF && r <= |bs| && Distinct(bs)
    requires forall k :: 0 <= k < |bs| ==> IsHome(log.l, bs[k]) && bs[k] !in log.lh
    modifies log.c
    ensures log.Valid() && log.Aside() && |Busy(log.c.bufs)| == r
  {
    hide Sane, Bufferable, Readers, Unheld, View, Pinned, Kept, GoodHead, Admitted, Reading;
    hide Busy, Clear, NotLocked, SameBut;
    Nobody(log.c.bufs, 0);
    Entries(log.l, log.lh);
    ReadingNone(log.c.bufs, Elems(bs[..0]));
    for k := 0 to r
      invariant log.Valid() && log.Aside() && |Busy(log.c.bufs)| == k && Reading(log.c.bufs, Elems(bs[..k]))
    {
      ghost var was := log.c.bufs;
      Fresh(bs, k);
      Unread(was, log.c.disk, Elems(bs[..k]), bs[k]);
      ForOne(was, log.c.disk, bs[k]);
      var i := log.ReadIn(bs[k]);
      ReadingMore(was, log.c.disk, log.c.bufs, bs, k, i.value);
    }
  }

  /** A commit with `r` readers fails in bget: from boot, as many blocks are logged, within the quotas, as there are
      other buffers. Without readers this takes a log of more than LOGSIZE blocks, with one the log mkfs makes. */
  method Crowded(c: Cache, l: LogLayout, ghost hd: seq<nat>, ghost want: Image, bs: seq<nat>, data: Block, r: nat)
    returns (log: Log, ok: bool)
    requires c.Valid() && Busy(c.bufs) == {} && Pinned(c.bufs) == {} && c.images == [] && Worth(l, c.disk, hd, want)
    requires r < NBUF == |bs| && l.size > NBUF - r && Distinct(bs) && (forall b :: b in bs ==> IsHome(l, b))
      && |data| == NWORDS
    modifies c
    ensures !ok && fresh(log) && log.l == l && log.committing && log.lh == bs[..NBUF - r]
  {
    hide Sane, Bufferable, Readers, Clear, Unheld, View, Pinned, Worth, Kept, Admitted;
    var n := NBUF - r;
    log := Ended(c, l, hd, want, bs, n, data);
    Attend(log, bs[n..], r);
    ok := log.Commit();
  }

  /** A commit with `r` readers, none of them of a logged block. */
  ghost predicate Commits(l: LogLayout, bufs: seq<Buf>, disk: Image, lh: seq<nat>, r: nat) {
    && Sane(bufs, disk) && WholeDisk(l, disk) && Readers(l, bufs, disk) && Clear(bufs) && |Busy(bufs)| == r
    && GoodHead(l, lh) && lh != [] && Pinned(bufs) == Elems(lh)
  }

  /** No commit with `r` readers finds every buffer pinned or read. */
  ghost predicate NeverCrowded(l: LogLayout, r: nat) {
    forall bufs: seq<Buf>, disk: Image, lh: seq<nat> :: Commits(l, bufs, disk, lh, r) ==> |lh| + r < NBUF
  }

  /** Commits with `r` readers are clear of the panic in bget exactly when the log has no more blocks than the readers
      leave buffers, or the disk has fewer than NBUF blocks outside it. NBUF readers leave no buffer to log anything. */
  lemma CommitSuffices(l: LogLayout, r: nat)
    requires 1 <= l.size && l.start + l.size <= l.nblocks
    ensures NeverCrowded(l, r) <==> r >= NBUF || l.size <= NBUF - r || l.nblocks - l.size < NBUF
  {
    hide Commits;
    if r < NBUF < l.size + r && NBUF <= l.nblocks - l.size {
      var bufs, disk, lh := Crowd(l, r);
    } else {
      forall bufs: seq<Buf>, disk: Image, lh: seq<nat> | Commits(l, bufs, disk, lh, r) ensures |lh| + r < NBUF {
        Crowding(l, bufs, disk, lh, r);
      }
    }
  }

  /** All buffers pinned or read are as many home blocks. */
  lemma Crowding(l: LogLayout, bufs: seq<Buf>, disk: Image, lh: seq<nat>, r: nat)
    requires Commits(l, bufs, disk, lh, r)
    ensures |lh| < l.size && |lh| + r <= NBUF && r < NBUF && (|lh| + r == NBUF ==> NBUF <= l.nblocks - l.size)
  {
    hide View;
    var all, taken := Range(0, NBUF), Dirty(bufs) + Busy(bufs);
    RangeSize(0, NBUF);
    PinnedSize(bufs, disk);
    DistinctSize(lh);
    assert |taken| == |lh| + r;
    SubsetSize(taken, all);
    if taken == all {
      var bs := seq(NBUF, k requires 0 <= k < NBUF => bufs[k].blockno);
      forall k: nat | k < NBUF ensures IsHome(l, bs[k]) && bufs[k].dev == ROOTDEV {
        assert k in all && BufOk(bufs, disk, k) && Reader(l, bufs, disk, k);
        if bufs[k].dirty { PinnedBy(bufs, k); }
      }
      forall i, j | 0 <= i < j < NBUF ensures bs[i] != bs[j] { assert Alone(bufs, i, j); }
      HomeCount(l, bs);
    }
  }

  /** Every buffer pinned or read. */
  lemma Crowd(l: LogLayout, r: nat) returns (bufs: seq<Buf>, disk: Image, lh: seq<nat>)
    requires 1 <= l.size && l.start + l.size <= l.nblocks && r < NBUF < l.size + r && NBUF <= l.nblocks - l.size
    ensures Commits(l, bufs, disk, lh, r) && |lh| + r == NBUF
  {
    var n, zero := NBUF - r, seq(NWORDS, _ => 0);
    lh := Homes(l, n);
    disk := map b | b in Range(0, l.nblocks) :: zero;
    bufs := seq(NBUF, k requires k >= 0 => Buf(ROOTDEV, Home(l, k), true, k < n, if k < n then 0 else 1, k >= n, zero));
    assert Busy(bufs) == Range(n, NBUF);
    assert Dirty(bufs) == Range(0, n);
    RangeSize(n, NBUF);
    forall b ensures b in Pinned(bufs) <==> b in lh {
      if b in lh { var k :| 0 <= k < n && lh[k] == b; PinnedBy(bufs, k); }
      if b in Pinned(bufs) { var k :| k in Dirty(bufs) && bufs[k].blockno == b; assert k in Range(0, n) && lh[k] == b; }
    }
    assert forall i: nat :: BufOk(bufs, disk, i) && Reader(l, bufs, disk, i);
    assert forall i: nat, j: nat :: Alone(bufs, i, j);
  }

  /** No size of the log is clear of both panics, unless the disk has too few blocks to fill it. */
  lemma NoGoodSize(l: LogLayout)
    requires 1 <= l.size && l.start + l.size <= l.nblocks
    ensures NeverTooBig(l) && NeverCrowded(l, 0) <==> l.nblocks - l.size < Min(l.size, LOGSIZE)
  {
    hide NeverTooBig, NeverCrowded;
    SizeSuffices(l);
    CommitSuffices(l, 0);
  }

  lemma EmptyLog(l: LogLayout)
    requires 1 <= l.size
    ensures GoodHead(l, []) && Elems([]) == {} && Admitted([], [])
  {}

  /** With nothing pinned, the disk is what is seen. */
  lemma CleanView(l: LogLayout, bufs: seq<Buf>, disk: Image)
    requires Sane(bufs, disk) && Pinned(bufs) == {} && Readers(l, bufs, disk)
    ensures View(bufs, disk) == disk
  {
    forall b | b in disk ensures Seen(bufs, disk, b) == disk[b] { ReadSeen(l, bufs, disk, b); }
  }

  lemma NoReaders(l: LogLayout, bufs: seq<Buf>, disk: Image)
    requires Busy(bufs) == {}
    ensures Readers(l, bufs, disk)
  {
    forall i: nat ensures Reader(l, bufs, disk, i) { assert i !in Busy(bufs); }
  }

  lemma Nobody(bufs: seq<Buf>, b: nat)
    requires Busy(bufs) == {}
    ensures Unheld(bufs, b) && Clear(bufs)
  {
    forall i: nat | Labelled(bufs, ROOTDEV, b, i) ensures bufs[i].refcnt == 0 { assert i !in Busy(bufs); }
  }
}
