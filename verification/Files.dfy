/** The bytes of a file, and what is counted about its blocks. */
module Contents {
  import opened Bytes
  import opened Inodes

  /** The number of blocks for `n` bytes. */
  function Blocks(n: nat): nat { (n + BSIZE - 1) / BSIZE }

  /** Slot `k` is used in a file of `nb` data blocks. */
  predicate InUse(nb: nat, k: nat) {
    if k < NDIRECT then k < nb else if k == NDIRECT then nb > NDIRECT else k - 1 < nb
  }

  function SlotsOf(nb: nat): set<nat> { set k: nat | k < NSLOTS && InUse(nb, k) }

  lemma MoreSlots(nb: nat)
    requires nb < MAXFILE
    ensures DataSlot(nb) !in SlotsOf(nb) && (nb == NDIRECT ==> NDIRECT !in SlotsOf(nb))
    ensures SlotsOf(nb + 1) == SlotsOf(nb) + (if nb == NDIRECT then {NDIRECT} else {}) + {DataSlot(nb)}
  {}

  /** Slot `k` of inode `i` holds a data block. */
  ghost predicate HasData(f: Fs, i: nat, k: nat) {
    i in f.inodes && |f.inodes[i].addrs| == NDIRECT + 1 && k < NSLOTS && k != NDIRECT && At(f, i, k) != 0
      && At(f, i, k) in f.blocks
  }

  /** Inode `i` has data block number `bn`. */
  ghost predicate HasBlock(f: Fs, i: nat, bn: nat) { bn < MAXFILE && HasData(f, i, DataSlot(bn)) }

  ghost function ByteAt(f: Fs, i: nat, j: nat): Byte
    requires HasBlock(f, i, j / BSIZE)
  {
    f.blocks[At(f, i, DataSlot(j / BSIZE))][j % BSIZE]
  }

  /** All the data blocks of a file of size `n` are there. */
  ghost predicate NoHoles(f: Fs, i: nat, n: nat) {
    forall bn: nat :: bn < Blocks(n) ==> HasBlock(f, i, bn)
  }

  /** The contents of inode `i`. */
  ghost function File(f: Fs, i: nat): seq<Byte>
    requires i in f.inodes && NoHoles(f, i, f.inodes[i].size)
  {
    seq(f.inodes[i].size, j requires 0 <= j < f.inodes[i].size => ByteIn(f, i, f.inodes[i].size, j))
  }

  ghost function ByteIn(f: Fs, i: nat, n: nat, j: nat): Byte
    requires NoHoles(f, i, n) && j < n
  {
    BlockOf(n, j);
    assert HasBlock(f, i, j / BSIZE);
    ByteAt(f, i, j)
  }

  lemma BlockOf(n: nat, j: nat)
    requires j < n
    ensures j / BSIZE < Blocks(n)
  {}

  /** Files whose blocks stay put with their contents read the same. */
  lemma SameFile(f: Fs, g: Fs, i: nat)
    requires i in f.inodes && NoHoles(f, i, f.inodes[i].size) && i in g.inodes && g.inodes[i].size == f.inodes[i].size
    requires forall k: nat :: DataKept(f, g, i, k)
    ensures NoHoles(g, i, g.inodes[i].size) && File(g, i) == File(f, i)
  {
    hide Word;
    hide PutWord;
    var n := f.inodes[i].size;
    forall bn: nat | bn < Blocks(n) ensures HasBlock(g, i, bn) {
      assert HasBlock(f, i, bn) && DataKept(f, g, i, DataSlot(bn));
    }
    forall j: nat | j < n ensures ByteIn(g, i, n, j) == ByteIn(f, i, n, j) {
      BlockOf(n, j);
      assert HasBlock(f, i, j / BSIZE) && DataKept(f, g, i, DataSlot(j / BSIZE));
    }
  }

  /** The data block in slot `k` of inode `i` gets new contents. */
  ghost function Stored(f: Fs, i: nat, k: nat, b: Block): Fs
    requires HasData(f, i, k)
  {
    f.(blocks := f.blocks[At(f, i, k) := b])
  }

  lemma StoredInv(l: Layout, f: Fs, use: map<nat, set<nat>>, i: nat, k: nat, b: Block)
    requires Inv(l, f, use) && HasData(f, i, k)
    ensures Inv(l, Stored(f, i, k, b), use)
    ensures forall j: nat, m: nat :: j != i || m != k ==> DataKept(f, Stored(f, i, k, b), j, m)
    ensures HasData(Stored(f, i, k, b), i, k) && At(Stored(f, i, k, b), i, k) == At(f, i, k)
  {
    hide Word;
    hide PutWord;
    var g, t := Stored(f, i, k, b), At(f, i, k);
    assert SlotOk(l, f, use, i, k) && Owns(f, i, k, t);
    assert Shape(l, g);
    forall j: nat, m: nat | j in f.inodes && m < NSLOTS ensures At(g, j, m) == At(f, j, m) {
      assert SlotOk(l, f, use, j, NDIRECT) && Sole(f, i, k, j, NDIRECT);
      assert At(f, j, NDIRECT) != 0 ==> Owns(f, j, NDIRECT, At(f, j, NDIRECT));
    }
    hide At;
    forall j: nat, m: nat, c: nat ensures Owns(g, j, m, c) == Owns(f, j, m, c) {}
    forall c: nat ensures Owned(g, c) == Owned(f, c) {
      if j: nat, m: nat :| Owns(f, j, m, c) { assert Owns(g, j, m, c); }
      if j: nat, m: nat :| Owns(g, j, m, c) { assert Owns(f, j, m, c); }
    }
    forall j: nat, m: nat ensures SlotOk(l, g, use, j, m) { assert SlotOk(l, f, use, j, m); }
    forall j: nat, m: nat, j': nat, m': nat ensures Sole(g, j, m, j', m') { assert Sole(f, j, m, j', m'); }
    forall c: nat ensures BitOk(l, g, 0, c) {
      assert BitOk(l, f, 0, c);
      if c < l.size { assert MapBlock(l, c) < l.datastart; }
    }
    forall j: nat, m: nat | j != i || m != k ensures DataKept(f, g, j, m) {
      assert SlotOk(l, f, use, j, m) && Sole(f, i, k, j, m);
      assert HasData(f, j, m) ==> Owns(f, j, m, At(f, j, m));
    }
  }

  /** The blocks the free map shows as free. */
  ghost function FreeBlocks(l: Layout, f: Fs): set<nat>
    requires Shape(l, f)
  {
    set b: nat | b < l.size && !Bit(l, f, b)
  }

  lemma TakenFree(l: Layout, f: Fs, use: map<nat, set<nat>>, b: nat)
    requires Inv(l, f, use) && b < l.size && !Bit(l, f, b)
    ensures Shape(l, Taken(l, f, b)) && FreeBlocks(l, Taken(l, f, b)) == FreeBlocks(l, f) - {b}
  {
    hide Word;
    hide PutWord;
    TakenInv(l, f, use, b);
    var g := Taken(l, f, b);
    assert MapBlock(l, b) < l.datastart;
    forall c: nat | c < l.size ensures Bit(l, g, c) <==> Bit(l, f, c) || c == b {
      assert MapBlock(l, c) < l.datastart;
      BitsApart(l, f, g, b, c, true);
    }
  }

  /** The free map is all that counts for what is free. */
  lemma SameFree(l: Layout, f: Fs, g: Fs)
    requires Shape(l, f) && Shape(l, g) && forall b: nat :: b < l.datastart ==> g.blocks[b] == f.blocks[b]
    ensures FreeBlocks(l, g) == FreeBlocks(l, f)
  {
    forall c: nat | c < l.size ensures Bit(l, g, c) == Bit(l, f, c) { assert MapBlock(l, c) < l.datastart; }
  }

  // ----- Reading and writing -----

  /** Byte `p` of the contents `c` is in place. */
  ghost predicate ByteOk(f: Fs, i: nat, c: seq<Byte>, p: nat) {
    p < |c| ==> HasBlock(f, i, p / BSIZE) && ByteAt(f, i, p) == c[p]
  }

  ghost predicate Holds(f: Fs, i: nat, c: seq<Byte>) {
    forall p: nat :: ByteOk(f, i, c, p)
  }

  lemma FileHolds(f: Fs, i: nat)
    requires i in f.inodes && NoHoles(f, i, f.inodes[i].size)
    ensures Holds(f, i, File(f, i)) && |File(f, i)| == f.inodes[i].size
  {
    var c := File(f, i);
    forall p: nat ensures ByteOk(f, i, c, p) {
      if p < |c| { BlockOf(|c|, p); assert HasBlock(f, i, p / BSIZE); assert c[p] == ByteIn(f, i, |c|, p); }
    }
  }

  lemma HoldsFile(f: Fs, i: nat, c: seq<Byte>)
    requires i in f.inodes && Holds(f, i, c) && |c| == f.inodes[i].size
    ensures NoHoles(f, i, f.inodes[i].size) && File(f, i) == c
  {
    forall bn: nat | bn < Blocks(|c|) ensures HasBlock(f, i, bn) {
      assert ByteOk(f, i, c, bn * BSIZE);
      assert bn * BSIZE / BSIZE == bn;
    }
    forall p: nat | p < |c| ensures ByteIn(f, i, |c|, p) == c[p] { assert ByteOk(f, i, c, p); }
  }

  /** `src` written over `c` at `off`. */
  function Splice<T>(c: seq<T>, off: nat, src: seq<T>): seq<T>
    requires off <= |c|
  {
    c[..off] + src + (if off + |src| < |c| then c[off + |src|..] else [])
  }

  /** What is read at any place after a write: the new bytes where they were written, otherwise what was there. */
  lemma SpliceAt<T>(c: seq<T>, off: nat, src: seq<T>, j: nat)
    requires off <= |c| && j < |Splice(c, off, src)|
    ensures |Splice(c, off, src)| == (if |c| < off + |src| then off + |src| else |c|)
    ensures off <= j < off + |src| ==> Splice(c, off, src)[j] == src[j - off]
    ensures !(off <= j < off + |src|) ==> j < |c| && Splice(c, off, src)[j] == c[j]
  {}

  /** Two writes one after the other are one write. */
  lemma SpliceTwice<T>(c: seq<T>, off: nat, a: seq<T>, b: seq<T>)
    requires off <= |c|
    ensures off + |a| <= |Splice(c, off, a)|
    ensures Splice(Splice(c, off, a), off + |a|, b) == Splice(c, off, a + b)
  {}

  /** The bytes of one block from `off` on. */
  lemma InBlock(off: nat, m: nat, p: nat)
    requires off % BSIZE + m <= BSIZE && off <= p < off + m
    ensures p / BSIZE == off / BSIZE && p % BSIZE == off % BSIZE + (p - off)
  {}

  /** A stretch within one block of the file. */
  lemma Chunk(f: Fs, i: nat, c: seq<Byte>, off: nat, m: nat)
    requires Holds(f, i, c) && off + m <= |c| && off % BSIZE + m <= BSIZE && HasBlock(f, i, off / BSIZE)
    ensures f.blocks[At(f, i, DataSlot(off / BSIZE))][off % BSIZE..off % BSIZE + m] == c[off..off + m]
  {
    var b := f.blocks[At(f, i, DataSlot(off / BSIZE))];
    var u, v := b[off % BSIZE..off % BSIZE + m], c[off..off + m];
    forall x | 0 <= x < m ensures u[x] == v[x] {
      InBlock(off, m, off + x);
      assert ByteOk(f, i, c, off + x);
    }
  }

  /** A block with some of its bytes replaced. */
  function Patched(b: Block, o: nat, src: seq<Byte>): Block
    requires o + |src| <= BSIZE
  {
    b[..o] + src + b[o + |src|..]
  }

  /** One round of writei: the block is there in `g`, and `h` has it patched. */
  lemma WriteStep(f: Fs, g: Fs, h: Fs, i: nat, c: seq<Byte>, off: nat, src: seq<Byte>)
    requires Holds(f, i, c) && off <= |c| && off % BSIZE + |src| <= BSIZE && (forall k: nat :: DataKept(f, g, i, k))
    requires HasBlock(g, i, off / BSIZE)
    requires var k := DataSlot(off / BSIZE);
      h == Stored(g, i, k, Patched(g.blocks[At(g, i, k)], off % BSIZE, src)) && HasData(h, i, k)
        && At(h, i, k) == At(g, i, k)
    requires forall k: nat :: k != DataSlot(off / BSIZE) ==> DataKept(g, h, i, k)
    ensures Holds(h, i, Splice(c, off, src))
  {
    hide Word;
    hide PutWord;
    var c' := Splice(c, off, src);
    var bn := off / BSIZE;
    forall p: nat ensures ByteOk(h, i, c', p) {
      if p < |c'| {
        assert ByteOk(f, i, c, p) && DataKept(f, g, i, DataSlot(p / BSIZE));
        assert p / BSIZE != bn ==> DataKept(g, h, i, DataSlot(p / BSIZE));
        if off <= p < off + |src| { InBlock(off, |src|, p); }
      }
    }
  }
}

/** Block allocation and inode contents (fs.c), and the chunking of filewrite (file.c). */
module FileSystem {
  import opened Common
  import RedoLog
  import opened Bytes
  import opened Inodes
  import opened Contents

  class Disk {
    const l: Layout
    const inodestart: nat
    var blocks: map<nat, Block>
    var inodes: map<nat, Inode>     // the inodes in memory
    var dinodes: map<nat, Inode>    // the inodes on the disk
    ghost var use: map<nat, set<nat>>
    var logged: set<nat>            // the blocks log_write was called for since begin_op
    var began: Fs                   // what was on the disk at begin_op
    var history: seq<Op>            // the operations so far

    constructor (l: Layout, inodestart: nat, blocks: map<nat, Block>, dinodes: map<nat, Inode>,
            ghost use: map<nat, set<nat>>)
      requires Inv(l, Fs(blocks, dinodes), use)
      requires AllSized(dinodes, use)
      ensures Valid() && this.l == l && this.inodestart == inodestart
      ensures this.blocks == blocks && this.inodes == this.dinodes == dinodes && history == []
    {
      this.l := l;
      this.inodestart := inodestart;
      this.blocks := blocks;
      this.inodes := dinodes;
      this.dinodes := dinodes;
      this.use := use;
      logged, began, history := {}, Fs(blocks, dinodes), [];
    }

    function OnDisk(): Fs
      reads this
    {
      Fs(blocks, dinodes)
    }

    /** begin_op. */
    method BeginOp()
      modifies this`logged, this`began
      ensures logged == {} && began == OnDisk()
    {
      logged, began := {}, OnDisk();
    }

    /** end_op. */
    method EndOp()
      modifies this`history
      ensures history == old(history) + [Op(began, OnDisk(), logged)]
    {
      history := history + [Op(began, OnDisk(), logged)];
    }

    ghost function S(): Fs
      reads this
    {
      Fs(blocks, inodes)
    }

    /** Every inode owns exactly the blocks its size calls for, and is on the disk as it is in memory. */
    ghost predicate Valid()
      reads this
    {
      && Inv(l, S(), use)
      && AllSized(inodes, use)
      && dinodes == inodes
    }

    /** balloc: the first free block, marked and zeroed; None is a panic. */
    method Balloc() returns (r: Option<nat>)
      requires Inv(l, S(), use)
      modifies this`blocks, this`logged
      ensures r.None? <==> FreeBlocks(l, old(S())) == {}
      ensures r.None? ==> blocks == old(blocks)
      ensures r.Some? ==> r.value < l.size && !Bit(l, old(S()), r.value) && S() == Taken(l, old(S()), r.value)
      ensures r.Some? ==> forall c: nat :: c < r.value ==> Bit(l, old(S()), c)
      ensures r.Some? ==> r.value in blocks && forall j :: 0 <= j < BSIZE ==> blocks[r.value][j] == 0
      ensures r.Some? ==> logged == old(logged) + {MapBlock(l, r.value), r.value}
    {
      hide InvBut, Bit, BitAt, SetBit;
      InvShape(l, S(), use, 0);
      var b := 0;
      while b < l.size
        invariant b % BPB == 0 && S() == old(S()) && logged == old(logged)
        invariant forall c: nat :: c < b && c < l.size ==> Bit(l, S(), c)
      {
        var bi := Scan(b);
        if bi < BPB && b + bi < l.size {
          Place(b, bi);
          var bm: nat := l.bmapstart + b / BPB;
          DataFree(l, S(), use, b + bi);
          assert MapBlock(l, b + bi) < l.datastart && b + bi in FreeBlocks(l, S());
          blocks := blocks[bm := SetBit(blocks[bm], bi)];
          blocks := blocks[b + bi := Zero()];
          logged := logged + {bm, b + bi};
          return Some(b + bi);
        }
        b := b + BPB;
      }
      return None;
    }

    /** balloc's inner loop: the first clear bit of one block of the free map. */
    method Scan(b: nat) returns (bi: nat)
      requires Inv(l, S(), use) && b < l.size && b % BPB == 0
      ensures bi <= BPB
      ensures forall c: nat :: b <= c < b + bi && c < l.size ==> Bit(l, S(), c)
      ensures bi < BPB && b + bi < l.size ==> !Bit(l, S(), b + bi)
      ensures bi < BPB ==> b + bi <= l.size
    {
      hide InvBut, Bit, BitAt;
      InvShape(l, S(), use, 0);
      assert MapBlock(l, b) < l.datastart;
      var bm := l.bmapstart + b / BPB;
      bi := 0;
      while bi < BPB && b + bi < l.size
        invariant bi <= BPB
        invariant forall c: nat :: b <= c < b + bi && c < l.size ==> Bit(l, S(), c)
        invariant bi < BPB ==> b + bi <= l.size
      {
        BitIs(l, S(), b, bi);
        if !BitAt(blocks[bm], bi) { return; }
        bi := bi + 1;
      }
    }

    /** A new block for an empty slot of an inode. */
    method Fill(i: nat, k: nat) returns (r: Option<nat>)
      requires Inv(l, S(), use) && i in inodes && i in use && k < NSLOTS && k !in use[i]
      requires k > NDIRECT ==> NDIRECT in use[i]
      requires k == NDIRECT ==> forall e: nat :: e in use[i] ==> e <= NDIRECT
      modifies this`blocks, this`inodes, this`use, this`logged
      ensures r.None? <==> FreeBlocks(l, old(S())) == {}
      ensures r.None? ==> S() == old(S()) && use == old(use)
      ensures r.Some? ==> Inv(l, S(), use) && use == old(use)[i := old(use)[i] + {k}] && AllKept(old(S()), S())
      ensures r.Some? ==> Owns(S(), i, k, r.value) && Changed(old(S()), S(), i)
      ensures r.Some? ==> Shape(l, S()) && FreeBlocks(l, S()) == FreeBlocks(l, old(S())) - {r.value}
      ensures r.Some? ==> |FreeBlocks(l, S())| == |FreeBlocks(l, old(S()))| - 1 && r.value < l.size
      ensures r.Some? && k <= NDIRECT ==>
        inodes == old(inodes)[i := old(inodes)[i].(addrs := old(inodes)[i].addrs[k := r.value])]
      ensures r.Some? && k > NDIRECT ==> inodes == old(inodes)
      ensures r.Some? ==>
        Notes(l, old(S()), S(), old(logged), logged, {r.value} + (if k > NDIRECT then Table(S(), i) else {}))
    {
      hide At, InvBut, FreeBlocks, AllKept, Owns, Notes;
      TableThere(l, S(), use, 0, i);
      ghost var f := S();
      r := Balloc();
      if r.None? { return; }
      var x := r.value;
      FillAll(l, f, use, i, k, x);
      if k <= NDIRECT {
        inodes := inodes[i := inodes[i].(addrs := inodes[i].addrs[k := x])];
      } else {
        var t := inodes[i].addrs[NDIRECT];
        blocks := blocks[t := PutWord(blocks[t], k - NDIRECT - 1, x)];
        logged := logged + {t};
      }
      use := use[i := use[i] + {k}];
      assert S() == Filled(l, Taken(l, f, x), i, k, x);
      FillNotes(l, f, i, k, x, old(logged), logged);
    }

    /** An entry of the indirect block, new if it is empty. */
    method Entry(i: nat, bn: nat) returns (r: Option<nat>)
      requires Inv(l, S(), use) && i in inodes && i in use && NDIRECT in use[i] && NDIRECT <= bn < MAXFILE
      modifies this`blocks, this`inodes, this`use, this`logged
      ensures r.None? <==> bn + 1 !in old(use)[i] && FreeBlocks(l, old(S())) == {}
      ensures r.Some? ==> Inv(l, S(), use) && use == old(use)[i := old(use)[i] + {bn + 1}] && inodes == old(inodes)
      ensures r.Some? ==> AllKept(old(S()), S()) && Owns(S(), i, bn + 1, r.value)
      ensures r.Some? ==> |FreeBlocks(l, S())| == |FreeBlocks(l, old(S()))| - (if bn + 1 in old(use)[i] then 0 else 1)
      ensures bn + 1 in old(use)[i] ==> S() == old(S()) && use == old(use) && logged == old(logged)
      ensures r.Some? ==>
        Notes(l, old(S()), S(), old(logged), logged, if bn + 1 in old(use)[i] then {} else {r.value} + Table(S(), i))
    {
      hide At, InvBut, Notes, Table;
      TableThere(l, S(), use, 0, i);
      var t := inodes[i].addrs[NDIRECT];
      EntryFacts(l, S(), use, i, bn);
      NotesSelf(l, S(), logged);
      var addr := Word(blocks[t], bn - NDIRECT);
      if addr != 0 {
        KeptSelf(l, S(), use);
        assert use[i] + {bn + 1} == use[i];
        return Some(addr);
      }
      r := Fill(i, bn + 1);
    }

    /** A direct block, new if there is none. */
    method Direct(i: nat, bn: nat) returns (r: Option<nat>)
      requires Inv(l, S(), use) && i in inodes && i in use && bn < NDIRECT
      modifies this`blocks, this`inodes, this`use, this`logged
      ensures r.None? <==> bn !in old(use)[i] && FreeBlocks(l, old(S())) == {}
      ensures r.Some? ==> Inv(l, S(), use) && use == old(use)[i := old(use)[i] + {bn}] && Changed(old(S()), S(), i)
      ensures r.Some? ==> AllKept(old(S()), S()) && Owns(S(), i, bn, r.value)
      ensures r.Some? ==> |FreeBlocks(l, S())| == |FreeBlocks(l, old(S()))| - (if bn in old(use)[i] then 0 else 1)
      ensures bn in old(use)[i] ==> S() == old(S()) && use == old(use) && logged == old(logged)
      ensures r.Some? ==> Notes(l, old(S()), S(), old(logged), logged, if bn in old(use)[i] then {} else {r.value})
    {
      hide At, InvBut, Notes;
      DirectFacts(l, S(), use, i, bn);
      NotesSelf(l, S(), logged);
      if inodes[i].addrs[bn] != 0 {
        KeptSelf(l, S(), use);
        assert use[i] + {bn} == use[i];
        return Some(inodes[i].addrs[bn]);
      }
      r := Fill(i, bn);
      assert r.Some? ==> {r.value} + {} == {r.value};
    }

    /** bmap: the n-th block of inode `i`, which has `nb`, new if it is one past the end. */
    method Bmap(i: nat, bn: nat, ghost nb: nat) returns (r: Option<nat>)
      requires Inv(l, S(), use) && i in inodes && i in use && use[i] == SlotsOf(nb) && bn <= nb && bn < MAXFILE
      modifies this`blocks, this`inodes, this`use, this`logged
      ensures r.None? <==> |FreeBlocks(l, old(S()))| < Needs(nb, bn)
      ensures r.Some? ==> Inv(l, S(), use) && use == old(use)[i := SlotsOf(Max(nb, bn + 1))]
      ensures r.Some? ==> AllKept(old(S()), S()) && Changed(old(S()), S(), i) && Owns(S(), i, DataSlot(bn), r.value)
      ensures r.Some? ==> |FreeBlocks(l, S())| == |FreeBlocks(l, old(S()))| - Needs(nb, bn)
      ensures bn < nb ==> S() == old(S()) && use == old(use) && logged == old(logged)
      ensures r.Some? ==>
        Notes(l, old(S()), S(), old(logged), logged, if bn < nb then {} else {r.value} + TableIf(S(), i, bn >= NDIRECT))
      ensures r.Some? && nb > NDIRECT ==> inodes == old(inodes)
    {
      hide At, InvBut, SlotsOf, FreeBlocks, Changed, Notes, Table;
      SlotFacts(l, S(), use, i, nb, bn);
      if bn < NDIRECT {
        r := Direct(i, bn);
        assert r.Some? ==> {r.value} + {} == {r.value};
      } else if inodes[i].addrs[NDIRECT] == 0 {
        r := NewTable(i);
      } else {
        r := Entry(i, bn);
        ChangedSame(old(S()), S(), i);
      }
    }

    /** The first entry of an indirect block that is itself new. */
    method NewTable(i: nat) returns (r: Option<nat>)
      requires Inv(l, S(), use) && i in inodes && i in use && use[i] == SlotsOf(NDIRECT)
      modifies this`blocks, this`inodes, this`use, this`logged
      ensures r.None? <==> |FreeBlocks(l, old(S()))| < 2
      ensures r.Some? ==> Inv(l, S(), use) && use == old(use)[i := SlotsOf(NDIRECT + 1)]
      ensures r.Some? ==> AllKept(old(S()), S()) && Changed(old(S()), S(), i) && Owns(S(), i, NDIRECT + 1, r.value)
      ensures r.Some? ==> |FreeBlocks(l, S())| == |FreeBlocks(l, old(S()))| - 2
      ensures r.Some? ==> Notes(l, old(S()), S(), old(logged), logged, {r.value} + Table(S(), i))
    {
      hide At, InvBut, SlotsOf, FreeBlocks, AllKept, Owns, Changed, Notes;
      MoreSlots(NDIRECT);
      TableLast();
      TableThere(l, S(), use, 0, i);
      r := Fill(i, NDIRECT);
      if r.None? { return; }
      ghost var g, t, was := S(), r.value, logged;
      assert Table(S(), i) == {t} == {t} + {};
      hide Table;
      r := Entry(i, NDIRECT);
      if r.Some? {
        KeptTwice(old(S()), g, S());
        ChangedOn(old(S()), g, S(), i);
        TableSame(g, S(), i);
        NotesOn(l, old(S()), g, S(), old(logged), was, logged, {t}, {r.value} + {t});
        assert {t} + ({r.value} + {t}) == {r.value} + {t};
      }
    }

    /** readi: None is a refusal. Nothing is allocated, whatever is read. */
    method Readi(i: nat, off: nat, n: nat) returns (r: Option<seq<Byte>>)
      requires Valid() && i in inodes && off < UINT && n < UINT
      modifies this`blocks, this`inodes, this`use, this`logged
      ensures S() == old(S()) && use == old(use) && logged == old(logged) && Valid()
      ensures Whole(S(), i)
      ensures r.None? <==> off > inodes[i].size || off + n >= UINT
      ensures r.Some? ==> r.value == File(S(), i)[off..Min(off + n, inodes[i].size)]
    {
      assert UseOk(inodes, use, i);
      WholeFile(l, S(), use, i);
      if off > inodes[i].size || off + n >= UINT { return None; }
      FileHolds(S(), i);
      var dst := Gather(i, off, if off + n > inodes[i].size then inodes[i].size - off else n, File(S(), i));
      r := Some(dst);
    }

    /** The loop of readi. */
    method Gather(i: nat, off: nat, m: nat, ghost c: seq<Byte>) returns (dst: seq<Byte>)
      requires Inv(l, S(), use) && i in inodes && i in use && use[i] == SlotsOf(Blocks(inodes[i].size))
      requires Holds(S(), i, c) && |c| == inodes[i].size <= MAXFILE * BSIZE && off + m <= |c|
      modifies this`blocks, this`inodes, this`use, this`logged
      ensures S() == old(S()) && use == old(use) && logged == old(logged)
      ensures dst == c[off..off + m]
    {
      hide Holds;
      hide InvBut;
      hide SlotsOf;
      dst := [];
      var tot := 0;
      while tot < m
        invariant 0 <= tot <= m && dst == c[off..off + tot]
        invariant S() == old(S()) && use == old(use) && logged == old(logged)
      {
        var piece := Piece(i, off + tot, m - tot, c);
        dst := dst + piece;
        tot := tot + |piece|;
      }
    }

    /** One round of readi: what is wanted of one block. */
    method Piece(i: nat, o: nat, room: nat, ghost c: seq<Byte>) returns (piece: seq<Byte>)
      requires Inv(l, S(), use) && i in inodes && i in use && use[i] == SlotsOf(Blocks(inodes[i].size))
      requires Holds(S(), i, c) && |c| == inodes[i].size <= MAXFILE * BSIZE && room > 0 && o + room <= |c|
      modifies this`blocks, this`inodes, this`use, this`logged
      ensures S() == old(S()) && use == old(use) && logged == old(logged)
      ensures |piece| == Min(room, BSIZE - o % BSIZE) > 0 && piece == c[o..o + |piece|]
    {
      hide At;
      hide InvBut;
      hide Holds;
      hide SlotsOf;
      BlockOf(|c|, o);
      ThereIs(S(), i, c, o);
      var addr := Bmap(i, o / BSIZE, Blocks(inodes[i].size));
      var k := Min(room, BSIZE - o % BSIZE);
      Chunk(S(), i, c, o, k);
      piece := blocks[addr.value][o % BSIZE..o % BSIZE + k];
    }

    /** One round of writei: `data` goes into one block, which is new if it is one past the end. */
    method WriteRound(i: nat, o: nat, data: seq<Byte>, ghost nb: nat, ghost c: seq<Byte>) returns (ok: bool)
      requires Inv(l, S(), use) && i in inodes && i in use && use[i] == SlotsOf(nb)
      requires o / BSIZE <= nb && o / BSIZE < MAXFILE && o % BSIZE + |data| <= BSIZE && Holds(S(), i, c) && o <= |c|
      modifies this`blocks, this`inodes, this`use, this`logged
      ensures ok <==> |FreeBlocks(l, old(S()))| >= Needs(nb, o / BSIZE)
      ensures ok ==> Inv(l, S(), use) && use == old(use)[i := SlotsOf(Max(nb, o / BSIZE + 1))]
      ensures ok ==> Changed(old(S()), S(), i) && OthersKept(old(S()), S(), i) && Holds(S(), i, Splice(c, o, data))
      ensures ok && (o / BSIZE < nb || nb > NDIRECT) ==> inodes == old(inodes)
      ensures ok ==> |FreeBlocks(l, S())| == |FreeBlocks(l, old(S()))| - Needs(nb, o / BSIZE)
      ensures ok ==> AddrsKept(old(S()), S(), i)
      ensures ok ==>
        Notes(l, old(S()), S(), old(logged), logged,
          {AddrOf(S(), i, o / BSIZE)} + TableIf(S(), i, o / BSIZE == nb && nb >= NDIRECT))
    {
      hide At, InvBut, Holds, SlotsOf, FreeBlocks, Patched, Notes, Table, AddrsKept, AddrOf;
      ghost var f, bn := S(), o / BSIZE;
      var r := Bmap(i, o / BSIZE, nb);
      ok := r.Some?;
      if !ok { return; }
      var addr := r.value;
      RoundDone(l, f, S(), use, i, c, o, data, addr);
      ghost var g, was := S(), logged;
      blocks := blocks[addr := Patched(blocks[addr], o % BSIZE, data)];
      logged := logged + {addr};
      PatchNotes(l, g, S(), addr, was);
      ghost var own := if bn < nb then {} else {addr} + TableIf(g, i, bn >= NDIRECT);
      NotesOn(l, f, g, S(), old(logged), was, logged, own, {addr});
      TableSame(g, S(), i);
      assert own + {addr} == {addr} + TableIf(S(), i, bn == nb && nb >= NDIRECT);
    }

    /** The loop of writei. It logs exactly the blocks the bytes lie in, the blocks of the free map that say so if they
        are new, and the indirect block if it got a new entry. */
    method Scatter(i: nat, off: nat, src: seq<Byte>, ghost c: seq<Byte>) returns (ok: bool)
      requires Inv(l, S(), use) && i in inodes && i in use && use[i] == SlotsOf(Blocks(|c|))
      requires Holds(S(), i, c) && off <= |c| && off + |src| <= MAXFILE * BSIZE
      modifies this`blocks, this`inodes, this`use, this`logged
      ensures ok <==> |FreeBlocks(l, old(S()))| >= New(Blocks(|c|), Grown(c, off, |src|))
      ensures ok ==> Inv(l, S(), use) && use == old(use)[i := SlotsOf(Grown(c, off, |src|))]
      ensures ok ==> Changed(old(S()), S(), i) && OthersKept(old(S()), S(), i) && Holds(S(), i, Splice(c, off, src))
      ensures ok && off + |src| <= |c| ==> inodes == old(inodes)
      ensures ok ==> |FreeBlocks(l, S())| == |FreeBlocks(l, old(S()))| - New(Blocks(|c|), Grown(c, off, |src|))
      ensures ok ==> Notes(l, old(S()), S(), old(logged), logged, Own(S(), i, |c|, off, |src|))
    {
      hide At, InvBut, Holds, SlotsOf, FreeBlocks, Midway, Notes, Spans, New, Grown, Needs, Blocks, Own;
      ghost var f := S();
      InvShape(l, f, use, 0);
      NotesSelf(l, f, logged);
      NoneOwn(f, i, c, off, |src|);
      MidwayStart(l, S(), use, i, c, off);
      var tot := 0;
      assert src[..0] == [];
      while tot < |src|
        invariant 0 <= tot <= |src| && (tot == 0 || tot == |src| || (off + tot) % BSIZE == 0)
        invariant Midway(l, f, S(), old(use), use, i, c, off, src[..tot])
        invariant Notes(l, f, S(), old(logged), logged, Own(S(), i, |c|, off, tot))
      {
        var o := off + tot;
        var k := Min(|src| - tot, BSIZE - o % BSIZE);
        RoundMath(c, off, tot, k, |src|);
        assert src[..tot] + src[tot..tot + k] == src[..tot + k] && |src[..tot]| == tot;
        ok := Step(f, old(use), old(logged), i, c, off, src[..tot], src[tot..tot + k], o);
        if !ok { return; }
        tot := tot + k;
      }
      assert src[..|src|] == src;
      MidwayFacts(l, f, S(), old(use), use, i, c, off, src);
      ok := true;
    }

    /** A round of writei, with the accounts of what is logged. */
    method Step(ghost f: Fs, ghost use0: map<nat, set<nat>>, ghost logged0: set<nat>, i: nat, ghost c: seq<Byte>,
            off: nat, ghost part: seq<Byte>, data: seq<Byte>, o: nat)
      returns (ok: bool)
      requires off <= |c| && Midway(l, f, S(), use0, use, i, c, off, part) && o == off + |part|
      requires o / BSIZE <= Grown(c, off, |part|) && o / BSIZE < MAXFILE && o % BSIZE + |data| <= BSIZE
      requires Grown(c, off, |part| + |data|) == Max(Grown(c, off, |part|), o / BSIZE + 1)
      requires New(Blocks(|c|), Grown(c, off, |part| + |data|)) ==
        New(Blocks(|c|), Grown(c, off, |part|)) + Needs(Grown(c, off, |part|), o / BSIZE)
      requires Spans(off, |part| + |data|) == Spans(off, |part|) + 1 && o / BSIZE == off / BSIZE + Spans(off, |part|)
      requires Notes(l, f, S(), logged0, logged, Own(S(), i, |c|, off, |part|))
      modifies this`blocks, this`inodes, this`use, this`logged
      ensures Shape(l, f) && (ok <==> |FreeBlocks(l, f)| >= New(Blocks(|c|), Grown(c, off, |part| + |data|)))
      ensures ok ==> Midway(l, f, S(), use0, use, i, c, off, part + data)
      ensures ok ==> Notes(l, f, S(), logged0, logged, Own(S(), i, |c|, off, |part| + |data|))
    {
      hide At, InvBut, FreeBlocks, Midway, Notes, New, Grown, Needs, Blocks, Own, AddrsKept, AddrOf, Spans;
      ghost var g, was, nb := S(), logged, Grown(c, off, |part|);
      MidwaySpans(l, f, g, use0, use, i, c, off, part);
      ok := Onward(f, use0, i, c, off, part, data, o);
      if !ok { return; }
      ghost var more := {AddrOf(S(), i, o / BSIZE)} + TableIf(S(), i, o / BSIZE == nb && nb >= NDIRECT);
      NotesOn(l, f, g, S(), logged0, was, logged, Own(g, i, |c|, off, |part|), more);
      OwnOn(g, S(), i, c, off, |part|, |data|);
    }

    /** A round of writei as a step from one state of the loop to the next. */
    method Onward(ghost f: Fs, ghost use0: map<nat, set<nat>>, i: nat, ghost c: seq<Byte>, off: nat,
            ghost part: seq<Byte>, data: seq<Byte>, o: nat)
      returns (ok: bool)
      requires off <= |c| && Midway(l, f, S(), use0, use, i, c, off, part) && o == off + |part|
      requires o / BSIZE <= Grown(c, off, |part|) && o / BSIZE < MAXFILE && o % BSIZE + |data| <= BSIZE
      requires Grown(c, off, |part| + |data|) == Max(Grown(c, off, |part|), o / BSIZE + 1)
      requires New(Blocks(|c|), Grown(c, off, |part| + |data|)) ==
        New(Blocks(|c|), Grown(c, off, |part|)) + Needs(Grown(c, off, |part|), o / BSIZE)
      modifies this`blocks, this`inodes, this`use, this`logged
      ensures Shape(l, f) && (ok <==> |FreeBlocks(l, f)| >= New(Blocks(|c|), Grown(c, off, |part| + |data|)))
      ensures ok ==> Midway(l, f, S(), use0, use, i, c, off, part + data)
      ensures ok && (Grown(c, off, |part|) > NDIRECT || o / BSIZE < Grown(c, off, |part|)) ==> inodes == old(inodes)
      ensures ok ==> AddrsKept(old(S()), S(), i)
      ensures ok ==>
        var nb := Grown(c, off, |part|);
        Notes(l, old(S()), S(), old(logged), logged,
          {AddrOf(S(), i, o / BSIZE)} + TableIf(S(), i, o / BSIZE == nb && nb >= NDIRECT))
    {
      hide At, InvBut, Holds, SlotsOf, FreeBlocks, OthersKept, Midway, Notes, AddrsKept, AddrOf, TableIf;
      ghost var g, nb, use1 := S(), Grown(c, off, |part|), use;
      MidwayFacts(l, f, S(), use0, use, i, c, off, part);
      SpliceTwice(c, off, part, data);
      ok := WriteRound(i, o, data, nb, Splice(c, off, part));
      if !ok { return; }
      InvShape(l, S(), use, 0);
      MidwayOn(l, f, g, S(), use0, use1, use, i, c, off, part, data);
    }

    /** iupdate: the inode reaches the disk. */
    method Iupdate(i: nat)
      requires i in inodes
      modifies this`dinodes, this`logged
      ensures dinodes == old(dinodes)[i := inodes[i]] && logged == old(logged) + {InodeBlock(inodestart, i)}
    {
      dinodes := dinodes[i := inodes[i]];
      logged := logged + {InodeBlock(inodestart, i)};
    }

    /** writei: refused, out of blocks (a panic), or written: the bytes are spliced in, no other inode changes, and the
        inode on the disk is current although iupdate is called only when the file grows. Exactly `WriteSet` is logged,
        which covers all that changed. */
    method Writei(i: nat, off: nat, src: seq<Byte>) returns (r: WriteResult)
      requires Valid() && i in inodes && off < UINT && |src| < UINT
      modifies this`blocks, this`inodes, this`dinodes, this`use, this`logged
      ensures Whole(old(S()), i)
      ensures r.Refused? <==> Refuses(old(inodes[i].size), off, |src|)
      ensures r.OutOfBlocks? <==> !r.Refused? && |FreeBlocks(l, old(S()))| < NewFor(old(inodes[i].size), off, |src|)
      ensures r.Refused? ==> Valid() && S() == old(S()) && logged == old(logged)
      ensures r.Written? ==> Valid() && Sized(old(S()), S(), i, Max(old(inodes[i].size), off + |src|))
      ensures r.Written? ==>
        Whole(S(), i) && off <= |File(old(S()), i)| && File(S(), i) == Splice(File(old(S()), i), off, src)
      ensures r.Written? ==> OtherFiles(old(S()), S(), i)
      ensures r.Written? ==> Shape(l, old(S())) && Shape(l, S()) && FreeBlocks(l, S()) <= FreeBlocks(l, old(S()))
      ensures r.Written? ==> |FreeBlocks(l, S())| == |FreeBlocks(l, old(S()))| - NewFor(old(inodes[i].size), off, |src|)
      ensures r.Written? ==> logged == old(logged) + WriteSet(l, inodestart, old(S()), S(), i, off, |src|)
      ensures r.Written? ==>
        Covered(inodestart, Op(old(OnDisk()), OnDisk(), WriteSet(l, inodestart, old(S()), S(), i, off, |src|)))
    {
      hide InvBut, NoHoles, FreeBlocks, NewFor, OtherFiles, WriteSet, Covered;
      assert UseOk(inodes, use, i);
      hide AllSized;
      WholeFile(l, S(), use, i);
      InvShape(l, S(), use, 0);
      if off > inodes[i].size || off + |src| >= UINT || off + |src| > MAXFILE * BSIZE { return Refused; }
      FileHolds(S(), i);
      var ok := Overwrite(i, off, src, File(S(), i));
      r := if ok then Written else OutOfBlocks;
    }

    /** writei past its guards. */
    method Overwrite(i: nat, off: nat, src: seq<Byte>, ghost c: seq<Byte>) returns (ok: bool)
      requires Valid() && i in inodes && Whole(S(), i) && c == File(S(), i) && |c| == inodes[i].size && Holds(S(), i, c)
      requires off <= |c| && off + |src| <= MAXFILE * BSIZE
      modifies this`blocks, this`inodes, this`dinodes, this`use, this`logged
      ensures Shape(l, old(S())) && (ok <==> |FreeBlocks(l, old(S()))| >= NewFor(|c|, off, |src|))
      ensures ok ==> Valid() && Sized(old(S()), S(), i, Max(|c|, off + |src|))
      ensures ok ==> Whole(S(), i) && File(S(), i) == Splice(c, off, src) && OtherFiles(old(S()), S(), i)
      ensures ok ==> Shape(l, S()) && FreeBlocks(l, S()) <= FreeBlocks(l, old(S()))
      ensures ok ==> |FreeBlocks(l, S())| == |FreeBlocks(l, old(S()))| - NewFor(|c|, off, |src|)
      ensures ok ==> logged == old(logged) + WriteSet(l, inodestart, old(S()), S(), i, off, |src|)
      ensures ok ==>
        Covered(inodestart, Op(old(OnDisk()), OnDisk(), WriteSet(l, inodestart, old(S()), S(), i, off, |src|)))
    {
      hide InvBut, NoHoles, Holds, FreeBlocks, New, Blocks, SlotsOf, OthersKept, OtherFiles, File, Notes, Own, WriteSet,
        Covered;
      assert UseOk(inodes, use, i);
      hide AllSized;
      InvShape(l, S(), use, 0);
      ghost var f, use0, disk0 := S(), use, OnDisk();
      ok := Scatter(i, off, src, c);
      if !ok { return; }
      ghost var n, g, was := Max(|c|, off + |src|), S(), logged;
      Resized(l, f, S(), use, i, c, off, src, n);
      SizedOn(f.inodes, inodes, use0, use, i, c, off, |src|);
      if |src| > 0 && off + |src| > inodes[i].size {
        inodes := inodes[i := inodes[i].(size := off + |src|)];
        Iupdate(i);
      }
      assert S() == WithSize(Fs(blocks, inodes), i, n);
      InvShape(l, S(), use, 0);
      WriteNotes(l, inodestart, f, g, S(), i, c, off, |src|, old(logged), was, logged);
    }

    /** filewrite on an inode: chunks of at most CHUNK bytes, each an operation of its own. As many bytes are written as
        the file has room for, counted in whole chunks if that is not all of them, unless the disk runs out of blocks
        before; and then whole chunks, as many as there are blocks for. Every operation logs all that it changes, and no
        more than MAXOPBLOCKS blocks. */
    method Filewrite(i: nat, off: nat, src: seq<Byte>) returns (r: WriteResult, k: nat)
      requires Valid() && i in inodes && off < UINT && |src| < UINT / 2
      modifies this
      ensures Whole(old(S()), i) && k <= |src| && (r.Written? <==> k == |src|)
      ensures r.OutOfBlocks? <==>
        |FreeBlocks(l, old(S()))| < Cost(old(inodes[i].size), off, Room(old(inodes[i].size), off, |src|))
      ensures k <= Room(old(inodes[i].size), off, |src|)
      ensures !r.OutOfBlocks? ==> k == Room(old(inodes[i].size), off, |src|)
      ensures r.OutOfBlocks? ==> WholePieces(k) && Cost(old(inodes[i].size), off, k) <= |FreeBlocks(l, old(S()))|
      ensures r.OutOfBlocks? ==> |FreeBlocks(l, old(S()))| < Cost(old(inodes[i].size), off, Min(|src|, k + CHUNK))
      ensures !r.OutOfBlocks? ==> Valid() && Whole(S(), i) && OtherFiles(old(S()), S(), i)
      ensures !r.OutOfBlocks? && k > 0 ==>
        off <= |File(old(S()), i)| && File(S(), i) == Splice(File(old(S()), i), off, src[..k])
      ensures !r.OutOfBlocks? && k == 0 ==> File(S(), i) == File(old(S()), i)
      ensures |history| == |old(history)| + Pieces(k) + (if r.Refused? then 1 else 0)
      ensures Operated(l, inodestart, old(history), history, old(OnDisk()))
      ensures Stages(old(S()), old(history), history, i, File(old(S()), i), off, src, k)
      ensures !r.OutOfBlocks? ==> Last(history, old(history), old(OnDisk())) == OnDisk()
    {
      hide InvBut, NoHoles, OtherFiles, Operated, Last, Stages, FreeBlocks, Cost, Room, Pieces, WholePieces;
      assert UseOk(inodes, use, i);
      WholeFile(l, S(), use, i);
      hide AllSized;
      ghost var f, c := S(), File(S(), i);
      ChunkStart(f, i, off);
      r, k := Chunks(i, off, src, c);
      if !r.OutOfBlocks? { ChunkFacts(f, S(), i, c, off, src[..k]); }
    }

    /** The loop of filewrite. */
    method Chunks(i: nat, off: nat, src: seq<Byte>, ghost c: seq<Byte>) returns (r: WriteResult, k: nat)
      requires Valid() && i in inodes && off < UINT && |src| < UINT / 2 && Chunked(S(), S(), i, c, off, [])
      modifies this
      ensures k <= |src| && (r.Written? <==> k == |src|)
      ensures r.OutOfBlocks? <==>
        |FreeBlocks(l, old(S()))| < Cost(old(inodes[i].size), off, Room(old(inodes[i].size), off, |src|))
      ensures k <= Room(old(inodes[i].size), off, |src|)
      ensures !r.OutOfBlocks? ==> k == Room(old(inodes[i].size), off, |src|)
      ensures r.OutOfBlocks? ==> WholePieces(k) && Cost(old(inodes[i].size), off, k) <= |FreeBlocks(l, old(S()))|
      ensures r.OutOfBlocks? ==> |FreeBlocks(l, old(S()))| < Cost(old(inodes[i].size), off, Min(|src|, k + CHUNK))
      ensures !r.OutOfBlocks? ==> Valid() && i in inodes && Chunked(old(S()), S(), i, c, off, src[..k])
      ensures |history| == |old(history)| + Pieces(k) + (if r.Refused? then 1 else 0)
      ensures Operated(l, inodestart, old(history), history, old(OnDisk()))
      ensures Stages(old(S()), old(history), history, i, c, off, src, k)
      ensures !r.OutOfBlocks? ==> Last(history, old(history), old(OnDisk())) == OnDisk()
    {
      hide InvBut, FreeBlocks, NoHoles, OtherFiles, AllSized, Chunked, Splice, File, Operated, Last, OpOk, WriteSet,
        Covered, NewFor, Pieces, WholePieces, Cost, Room, Stages, Refuses;
      assert inodes[i].size <= MAXFILE * BSIZE by { SizeFits(inodes, use, i); }
      InvShape(l, S(), use, 0);
      k := 0;
      PieceMath(0, 0, |src|);
      assert src[..0] == [];
      ghost var h0, d0, f, size, free := history, OnDisk(), S(), inodes[i].size, |FreeBlocks(l, S())|;
      OperatedNone(l, inodestart, h0, d0);
      StagesNone(f, h0, i, c, off, src);
      RoomStart(size, off, |src|);
      while k < |src|
        invariant k <= |src| && Valid() && i in inodes && Shape(l, S()) && Chunked(f, S(), i, c, off, src[..k])
        invariant (k == |src| || WholePieces(k)) && |history| == |h0| + Pieces(k)
        invariant Operated(l, inodestart, h0, history, d0) && Last(history, h0, d0) == OnDisk()
        invariant Stages(f, h0, history, i, c, off, src, k)
        invariant inodes[i].size == Grows(size, off, k) && |FreeBlocks(l, S())| == free - Cost(size, off, k)
        invariant k <= Room(size, off, |src|)
      {
        ghost var g, h := S(), history;
        var n := Min(|src| - k, CHUNK);
        PieceMath(k, n, |src|);
        ChunkFacts(f, S(), i, c, off, src[..k]);
        RoundRoom(size, off, k, n, |src|);
        r := Operation(i, off + k, src[k..k + n]);
        if r.OutOfBlocks? {
          return;
        }
        OperatedOn(l, inodestart, h0, h, history, d0);
        if r.Refused? {
          StagesMore(f, h0, h, history, i, c, off, src, k, k);
          return;
        }
        ChunkNext(f, g, S(), i, c, off, src, k, n);
        StagesMore(f, h0, h, history, i, c, off, src, k, k + n);
        k := k + n;
      }
      r := Written;
    }

    /** One chunk of filewrite, an operation of its own. */
    method Operation(i: nat, off: nat, src: seq<Byte>) returns (r: WriteResult)
      requires Valid() && i in inodes && off < UINT && |src| <= CHUNK
      modifies this
      ensures Whole(old(S()), i)
      ensures r.Refused? <==> Refuses(old(inodes[i].size), off, |src|)
      ensures r.OutOfBlocks? <==> !r.Refused? && |FreeBlocks(l, old(S()))| < NewFor(old(inodes[i].size), off, |src|)
      ensures r.Refused? ==> Valid() && S() == old(S())
      ensures r.Written? ==>
        Shape(l, S()) && |FreeBlocks(l, S())| == |FreeBlocks(l, old(S()))| - NewFor(old(inodes[i].size), off, |src|)
      ensures r.Written? ==> Valid() && Sized(old(S()), S(), i, Max(old(inodes[i].size), off + |src|))
      ensures r.Written? ==>
        Whole(S(), i) && off <= |File(old(S()), i)| && File(S(), i) == Splice(File(old(S()), i), off, src)
      ensures r.Written? ==> OtherFiles(old(S()), S(), i)
      ensures r.OutOfBlocks? ==> history == old(history)
      ensures !r.OutOfBlocks? ==> |history| == |old(history)| + 1 && history[..|old(history)|] == old(history)
      ensures !r.OutOfBlocks? ==>
        var op := history[|old(history)|]; OpOk(l, inodestart, op) && op.before == old(OnDisk()) && op.after == OnDisk()
      ensures r.Written? ==> history[|old(history)|].logged == WriteSet(l, inodestart, old(S()), S(), i, off, |src|)
    {
      hide InvBut, NoHoles, OtherFiles, AllSized, File, Splice, WriteSet, Covered, FreeBlocks, NewFor, Placed;
      InvShape(l, S(), use, 0);
      BeginOp();
      ghost var size := inodes[i].size;
      r := Writei(i, off, src);
      if r.OutOfBlocks? { return; }
      if r.Written? {
        ChunkFits(size, off, |src|);
        WriteSize(l, inodestart, old(S()), S(), i, off, |src|);
        assert UseOk(inodes, use, i) by { SizeFits(inodes, use, i); }
        WritePlaced(l, inodestart, old(S()), S(), use, i, off, |src|);
        assert {} + WriteSet(l, inodestart, old(S()), S(), i, off, |src|) ==
          WriteSet(l, inodestart, old(S()), S(), i, off, |src|);
      } else {
        Untouched(inodestart, OnDisk());
      }
      EndOp();
    }
  }

  /** Inode `i` uses the slots its size calls for. */
  ghost predicate UseOk(inodes: map<nat, Inode>, use: map<nat, set<nat>>, i: nat) {
    i in inodes ==> i in use && inodes[i].size <= MAXFILE * BSIZE && use[i] == SlotsOf(Blocks(inodes[i].size))
  }

  ghost predicate AllSized(inodes: map<nat, Inode>, use: map<nat, set<nat>>) {
    forall i: nat :: UseOk(inodes, use, i)
  }

  lemma Place(b: nat, bi: nat)
    requires b % BPB == 0 && bi < BPB
    ensures (b + bi) / BPB == b / BPB && (b + bi) % BPB == bi
  {}

  lemma BitIs(l: Layout, f: Fs, b: nat, bi: nat)
    requires Shape(l, f) && b % BPB == 0 && bi < BPB && b + bi < l.size
    ensures MapBlock(l, b + bi) < l.datastart && l.bmapstart + b / BPB == MapBlock(l, b + bi)
    ensures Bit(l, f, b + bi) <==> BitAt(f.blocks[l.bmapstart + b / BPB], bi)
  {
    Place(b, bi);
    hide BitAt;
  }

  /** A block not in use is a data block. */
  lemma DataFree(l: Layout, f: Fs, use: map<nat, set<nat>>, b: nat)
    requires Inv(l, f, use) && b < l.size
    ensures Shape(l, f) && (!Bit(l, f, b) ==> l.datastart <= b)
  {
    hide Bit;
    assert BitOk(l, f, 0, b);
  }

  /** Of the inodes only the addresses in `i` change. */
  ghost predicate Changed(f: Fs, g: Fs, i: nat) {
    && i in f.inodes && i in g.inodes
    && g.inodes == f.inodes[i := f.inodes[i].(addrs := g.inodes[i].addrs)]
  }

  lemma InvShape(l: Layout, f: Fs, use: map<nat, set<nat>>, x: nat)
    requires InvBut(l, f, use, x)
    ensures Shape(l, f)
  {}

  /** A used indirect block is a data block. */
  lemma TableThere(l: Layout, f: Fs, use: map<nat, set<nat>>, x: nat, i: nat)
    requires InvBut(l, f, use, x) && i in f.inodes && i in use
    ensures Shape(l, f) && (NDIRECT in use[i] ==> l.datastart <= f.inodes[i].addrs[NDIRECT] < l.size)
    ensures NDIRECT !in use[i] ==> f.inodes[i].addrs[NDIRECT] == 0
  {
    hide Word;
    hide PutWord;
    assert SlotOk(l, f, use, i, NDIRECT);
  }

  lemma FilledOwns(l: Layout, f: Fs, use: map<nat, set<nat>>, i: nat, k: nat, x: nat)
    requires InvBut(l, f, use, x) && x != 0 && i in f.inodes && k < NSLOTS && i in use && k !in use[i]
      && (k > NDIRECT ==> NDIRECT in use[i])
    requires k > NDIRECT ==> f.inodes[i].addrs[NDIRECT] in f.blocks
    requires k == NDIRECT ==> f.blocks[x] == Zero() && forall e: nat :: e in use[i] ==> e <= NDIRECT
    ensures Owns(Filled(l, f, i, k, x), i, k, x)
  {
    FilledAt(l, f, use, i, k, x, i, k);
  }

  /** How many blocks bmap has to allocate. */
  function Needs(nb: nat, bn: nat): nat { if bn < nb then 0 else if bn == NDIRECT then 2 else 1 }

  /** The indirect block of an inode. */
  ghost function Table(f: Fs, i: nat): set<nat> {
    if i in f.inodes && |f.inodes[i].addrs| == NDIRECT + 1 then {f.inodes[i].addrs[NDIRECT]} else {}
  }

  ghost function TableIf(f: Fs, i: nat, yes: bool): set<nat> { if yes then Table(f, i) else {} }

  /** An operation: what was on the disk before and after it, and the blocks it logged. */
  datatype Op = Op(before: Fs, after: Fs, logged: set<nat>)

  /** All that an operation changed on the disk is in the blocks it logged. */
  ghost predicate Covered(inodestart: nat, op: Op) {
    && op.after.blocks.Keys == op.before.blocks.Keys && op.after.inodes.Keys == op.before.inodes.Keys
    && (forall b: nat :: b in op.before.blocks && op.after.blocks[b] != op.before.blocks[b] ==> b in op.logged)
    && (forall j: nat :: j in op.before.inodes && op.after.inodes[j] != op.before.inodes[j] ==>
          InodeBlock(inodestart, j) in op.logged)
  }

  /** Block `b` is of the free map, of the inodes or of the data. */
  ghost predicate Placed(l: Layout, inodestart: nat, f: Fs, b: nat) {
    || l.datastart <= b < l.size
    || l.bmapstart <= b < l.bmapstart + (l.size + BPB - 1) / BPB
    || exists j: nat :: j in f.inodes && InodeBlock(inodestart, j) == b
  }

  ghost function Maps(l: Layout, taken: set<nat>): set<nat> {
    set b | b in taken :: MapBlock(l, b)
  }

  ghost function TakenFrom(l: Layout, f: Fs, g: Fs): set<nat>
    requires Shape(l, f) && Shape(l, g)
  {
    FreeBlocks(l, f) - FreeBlocks(l, g)
  }

  /** From `f` to `g` log_write was called for exactly the blocks of `own`, which the blocks taken from the free map are
      among, and for the blocks of the free map that say so; and nothing else changed. */
  ghost predicate Notes(l: Layout, f: Fs, g: Fs, before: set<nat>, after: set<nat>, own: set<nat>) {
    && Shape(l, f) && Shape(l, g) && FreeBlocks(l, g) <= FreeBlocks(l, f) && TakenFrom(l, f, g) <= own
    && after == before + own + Maps(l, TakenFrom(l, f, g))
    && (forall b: nat :: b in f.blocks && g.blocks[b] != f.blocks[b] ==> b in own || b in Maps(l, TakenFrom(l, f, g)))
  }

  lemma NotesSelf(l: Layout, f: Fs, logged: set<nat>)
    requires Shape(l, f)
    ensures Notes(l, f, f, logged, logged, {})
  {
    assert Maps(l, TakenFrom(l, f, f)) == {};
  }

  lemma NotesOn(l: Layout, f: Fs, g: Fs, h: Fs, a: set<nat>, b: set<nat>, c: set<nat>, own: set<nat>, own': set<nat>)
    requires Notes(l, f, g, a, b, own) && Notes(l, g, h, b, c, own')
    ensures Notes(l, f, h, a, c, own + own')
  {
    hide FreeBlocks;
    assert TakenFrom(l, f, h) == TakenFrom(l, f, g) + TakenFrom(l, g, h);
    assert Maps(l, TakenFrom(l, f, h)) == Maps(l, TakenFrom(l, f, g)) + Maps(l, TakenFrom(l, g, h));
    forall x: nat | x in f.blocks && h.blocks[x] != f.blocks[x]
      ensures x in own + own' || x in Maps(l, TakenFrom(l, f, h))
    {
      assert g.blocks[x] != f.blocks[x] || h.blocks[x] != g.blocks[x];
    }
  }

  lemma FillNotes(l: Layout, f: Fs, i: nat, k: nat, x: nat, before: set<nat>, after: set<nat>)
    requires Shape(l, f) && i in f.inodes && k < NSLOTS && x < l.size && !Bit(l, f, x) && Shape(l, Taken(l, f, x))
    requires k > NDIRECT ==> f.inodes[i].addrs[NDIRECT] in f.blocks
    requires var g := Filled(l, Taken(l, f, x), i, k, x);
      && Shape(l, g) && FreeBlocks(l, g) == FreeBlocks(l, f) - {x}
      && after == before + {MapBlock(l, x), x} + (if k > NDIRECT then {f.inodes[i].addrs[NDIRECT]} else {})
    ensures var g := Filled(l, Taken(l, f, x), i, k, x);
      Notes(l, f, g, before, after, {x} + (if k > NDIRECT then Table(g, i) else {}))
  {
    hide SetBit, PutWord, Word;
    var g := Filled(l, Taken(l, f, x), i, k, x);
    assert x in FreeBlocks(l, f);
    hide FreeBlocks;
    assert TakenFrom(l, f, g) == {x};
    assert Maps(l, {x}) == {MapBlock(l, x)};
  }

  lemma PatchNotes(l: Layout, g: Fs, h: Fs, addr: nat, before: set<nat>)
    requires Shape(l, g) && Shape(l, h) && FreeBlocks(l, h) == FreeBlocks(l, g) && addr in g.blocks
    requires h.blocks == g.blocks[addr := h.blocks[addr]]
    ensures Notes(l, g, h, before, before + {addr}, {addr})
  {
    hide FreeBlocks;
    assert Maps(l, TakenFrom(l, g, h)) == {};
  }

  /** The address of the n-th data block. */
  ghost function AddrOf(f: Fs, i: nat, bn: nat): nat {
    if i in f.inodes && |f.inodes[i].addrs| == NDIRECT + 1 && bn < MAXFILE then At(f, i, DataSlot(bn)) else 0
  }

  ghost predicate AddrsKept(f: Fs, g: Fs, i: nat) {
    forall bn: nat :: AddrOf(f, i, bn) != 0 ==> AddrOf(g, i, bn) == AddrOf(f, i, bn)
  }

  /** The data blocks from number `a` up to `b`. */
  ghost function DataBlocks(f: Fs, i: nat, a: nat, b: nat): set<nat> {
    set bn: nat | a <= bn < b :: AddrOf(f, i, bn)
  }

  /** The blocks of its own that a write of `n` bytes at `off` into a file of `size` bytes logs: those the bytes lie in,
      and the indirect block if a new block is entered in it. */
  ghost function Own(g: Fs, i: nat, size: nat, off: nat, n: nat): set<nat> {
    var nb := Max(Blocks(size), Blocks(off + n));
    DataBlocks(g, i, off / BSIZE, off / BSIZE + Spans(off, n)) + TableIf(g, i, nb > Blocks(size) && nb > NDIRECT)
  }

  lemma NoneOwn<T>(f: Fs, i: nat, c: seq<T>, off: nat, n: nat)
    requires off <= |c|
    ensures Own(f, i, |c|, off, 0) == {}
    ensures off + n <= |c| ==> Grown(c, off, n) == Blocks(|c|)
  {
    assert Blocks(off) <= Blocks(|c|);
    if off + n <= |c| { assert Blocks(off + n) <= Blocks(|c|); }
  }

  lemma OwnOn<T>(g: Fs, h: Fs, i: nat, c: seq<T>, off: nat, m: nat, n: nat)
    requires AddrsKept(g, h, i)
      && forall bn: nat :: off / BSIZE <= bn < off / BSIZE + Spans(off, m) ==> AddrOf(g, i, bn) != 0
    requires Spans(off, m + n) == Spans(off, m) + 1
    requires var nb, bn := Grown(c, off, m), off / BSIZE + Spans(off, m);
      && bn <= nb && Grown(c, off, m + n) == Max(nb, bn + 1) && (nb > NDIRECT || bn < nb ==> h.inodes == g.inodes)
    ensures var nb, bn := Grown(c, off, m), off / BSIZE + Spans(off, m);
      Own(h, i, |c|, off, m + n) ==
        Own(g, i, |c|, off, m) + ({AddrOf(h, i, bn)} + TableIf(h, i, bn == nb && nb >= NDIRECT))
  {
    hide AddrOf, Spans;
    var nb, a, bn := Grown(c, off, m), off / BSIZE, off / BSIZE + Spans(off, m);
    forall x | x in DataBlocks(h, i, a, bn + 1) ensures x in DataBlocks(g, i, a, bn) + {AddrOf(h, i, bn)} {
      var y: nat :| a <= y < bn + 1 && AddrOf(h, i, y) == x;
      assert y < bn ==> AddrOf(g, i, y) == x;
    }
    forall x | x in DataBlocks(g, i, a, bn) ensures x in DataBlocks(h, i, a, bn + 1) {
      var y: nat :| a <= y < bn && AddrOf(g, i, y) == x;
      assert AddrOf(h, i, y) == x;
    }
    assert DataBlocks(h, i, a, bn + 1) == DataBlocks(g, i, a, bn) + {AddrOf(h, i, bn)};
    if h.inodes == g.inodes { TableSame(g, h, i); }
  }

  lemma MidwaySpans(l: Layout, f: Fs, g: Fs, use0: map<nat, set<nat>>, use: map<nat, set<nat>>, i: nat, c: seq<Byte>,
          off: nat, part: seq<Byte>)
    requires off <= |c| && Midway(l, f, g, use0, use, i, c, off, part)
    ensures forall bn: nat :: off / BSIZE <= bn < off / BSIZE + Spans(off, |part|) ==> AddrOf(g, i, bn) != 0
  {
    hide InvBut, SlotsOf, FreeBlocks, OthersKept, Changed;
    forall bn: nat | off / BSIZE <= bn < off / BSIZE + Spans(off, |part|) ensures AddrOf(g, i, bn) != 0 {
      var p := if bn == off / BSIZE then off else bn * BSIZE;
      InSpan(off, |part|, bn);
      assert ByteOk(g, i, Splice(c, off, part), p);
    }
  }

  lemma InSpan(off: nat, n: nat, bn: nat)
    requires off / BSIZE <= bn < off / BSIZE + Spans(off, n)
    ensures var p := if bn == off / BSIZE then off else bn * BSIZE; off <= p < off + n && p / BSIZE == bn
  {}

  /** What a write logs: the blocks of its own, the blocks of the free map that it took blocks from, and the block of
      the inode if the file grew. */
  ghost function WriteSet(l: Layout, inodestart: nat, f: Fs, g: Fs, i: nat, off: nat, n: nat): set<nat>
    requires Shape(l, f) && Shape(l, g) && i in f.inodes
  {
    var size := f.inodes[i].size;
    Own(g, i, size, off, n) + Maps(l, TakenFrom(l, f, g))
      + (if n > 0 && off + n > size then {InodeBlock(inodestart, i)} else {})
  }

  /** A size does not matter for what slots hold. */
  lemma SizeOwn(g: Fs, h: Fs, i: nat, size: nat, off: nat, n: nat)
    requires h.blocks == g.blocks && i in g.inodes && i in h.inodes && h.inodes[i].addrs == g.inodes[i].addrs
    ensures Own(h, i, size, off, n) == Own(g, i, size, off, n)
  {
    hide Spans, Blocks;
    forall bn: nat ensures AddrOf(h, i, bn) == AddrOf(g, i, bn) {}
    hide AddrOf;
    var a, b := off / BSIZE, off / BSIZE + Spans(off, n);
    forall x ensures x in DataBlocks(h, i, a, b) <==> x in DataBlocks(g, i, a, b) {
      if x in DataBlocks(h, i, a, b) { var y: nat :| a <= y < b && AddrOf(h, i, y) == x; assert AddrOf(g, i, y) == x; }
      if x in DataBlocks(g, i, a, b) { var y: nat :| a <= y < b && AddrOf(g, i, y) == x; assert AddrOf(h, i, y) == x; }
    }
  }

  /** The end of writei: from `g` to `h` only the size changes, and the inode is logged if it does. */
  lemma WriteNotes(l: Layout, inodestart: nat, f: Fs, g: Fs, h: Fs, i: nat, c: seq<Byte>, off: nat, n: nat, a: set<nat>,
          b: set<nat>, z: set<nat>)
    requires Notes(l, f, g, a, b, Own(g, i, |c|, off, n)) && i in f.inodes && f.inodes[i].size == |c|
      && Changed(f, g, i)
    requires h.blocks == g.blocks && i in h.inodes && h.inodes == g.inodes[i := h.inodes[i]]
      && h.inodes[i].addrs == g.inodes[i].addrs
    requires off + n <= |c| ==> h.inodes == f.inodes
    requires z == b + if n > 0 && off + n > |c| then {InodeBlock(inodestart, i)} else {}
    requires Shape(l, h) && off <= |c|
    ensures z == a + WriteSet(l, inodestart, f, h, i, off, n)
    ensures Covered(inodestart, Op(f, h, WriteSet(l, inodestart, f, h, i, off, n)))
    ensures FreeBlocks(l, h) == FreeBlocks(l, g) <= FreeBlocks(l, f)
  {
    hide Maps, Blocks;
    SizeOwn(g, h, i, |c|, off, n);
    hide Own;
    assert FreeBlocks(l, h) == FreeBlocks(l, g);
    hide FreeBlocks;
  }

  /** Taking a free block and filling a slot with it. */
  lemma FillAll(l: Layout, f: Fs, use: map<nat, set<nat>>, i: nat, k: nat, x: nat)
    requires Inv(l, f, use) && i in f.inodes && i in use && k < NSLOTS && k !in use[i]
    requires k > NDIRECT ==> NDIRECT in use[i]
    requires k == NDIRECT ==> forall e: nat :: e in use[i] ==> e <= NDIRECT
    requires x < l.size && !Bit(l, f, x)
    ensures Shape(l, Taken(l, f, x)) && (k > NDIRECT ==> l.datastart <= f.inodes[i].addrs[NDIRECT] < l.size)
    ensures var g := Filled(l, Taken(l, f, x), i, k, x);
      && Inv(l, g, use[i := use[i] + {k}]) && AllKept(f, g) && Owns(g, i, k, x) && Changed(f, g, i) && Shape(l, g)
      && FreeBlocks(l, g) == FreeBlocks(l, f) - {x} && |FreeBlocks(l, g)| == |FreeBlocks(l, f)| - 1
  {
    hide Word;
    hide PutWord;
    hide At;
    hide InvBut;
    InvShape(l, f, use, 0);
    TakenInv(l, f, use, x);
    TakenKept(l, f, use, x);
    TakenFree(l, f, use, x);
    var g := Taken(l, f, x);
    TableThere(l, g, use, x, i);
    FilledInv(l, g, use, i, k, x);
    var h := Filled(l, g, i, k, x);
    KeptTwice(f, g, h);
    FilledOwns(l, g, use, i, k, x);
    InvShape(l, h, use[i := use[i] + {k}], 0);
    SameFree(l, g, h);
    assert x in FreeBlocks(l, f);
    OneLess(l, h, FreeBlocks(l, f), x);
  }

  lemma OneLess(l: Layout, f: Fs, free: set<nat>, x: nat)
    requires Shape(l, f) && x in free && FreeBlocks(l, f) == free - {x}
    ensures |FreeBlocks(l, f)| == |free| - 1
  {}

  lemma KeptSelf(l: Layout, f: Fs, use: map<nat, set<nat>>)
    requires Inv(l, f, use)
    ensures AllKept(f, f)
  {
    hide Word;
    hide PutWord;
    forall i: nat, k: nat ensures DataKept(f, f, i, k) { assert SlotOk(l, f, use, i, k); }
  }

  lemma EntryFacts(l: Layout, f: Fs, use: map<nat, set<nat>>, i: nat, bn: nat)
    requires Inv(l, f, use) && i in f.inodes && i in use && NDIRECT in use[i] && NDIRECT <= bn < MAXFILE
    ensures Shape(l, f) && f.inodes[i].addrs[NDIRECT] in f.blocks
    ensures Word(f.blocks[f.inodes[i].addrs[NDIRECT]], bn - NDIRECT) == At(f, i, bn + 1)
    ensures At(f, i, bn + 1) != 0 <==> bn + 1 in use[i]
  {
    assert SlotOk(l, f, use, i, NDIRECT) && SlotOk(l, f, use, i, bn + 1);
  }

  /** In a file of `nb` blocks the tests of bmap find exactly those. */
  lemma SlotFacts(l: Layout, f: Fs, use: map<nat, set<nat>>, i: nat, nb: nat, bn: nat)
    requires Inv(l, f, use) && i in f.inodes && i in use && use[i] == SlotsOf(nb) && bn <= nb && bn < MAXFILE
    ensures Shape(l, f)
    ensures f.inodes[i].addrs[NDIRECT] != 0 <==> nb > NDIRECT
    ensures (DataSlot(bn) in use[i] <==> bn < nb) && (NDIRECT in use[i] <==> nb > NDIRECT)
    ensures bn < NDIRECT && nb > NDIRECT ==> bn in use[i]
    ensures SlotsOf(nb) + {DataSlot(bn)} == SlotsOf(Max(nb, bn + 1)) || (bn == nb == NDIRECT)
    ensures use[i := use[i]] == use
  {
    assert SlotOk(l, f, use, i, NDIRECT) && SlotOk(l, f, use, i, DataSlot(bn));
    if bn == nb { MoreSlots(nb); }
  }

  lemma ChangedSame(f: Fs, g: Fs, i: nat)
    requires i in f.inodes
    ensures g.inodes == f.inodes ==> Changed(f, g, i)
  {}

  lemma DirectFacts(l: Layout, f: Fs, use: map<nat, set<nat>>, i: nat, bn: nat)
    requires Inv(l, f, use) && i in f.inodes && i in use && bn < NDIRECT
    ensures Shape(l, f) && At(f, i, bn) == f.inodes[i].addrs[bn]
    ensures At(f, i, bn) != 0 <==> bn in use[i]
  {
    assert SlotOk(l, f, use, i, bn);
  }

  lemma TableLast()
    ensures forall e: nat :: e in SlotsOf(NDIRECT) ==> e <= NDIRECT
  {}

  /** Inode `i` has no holes below its size. */
  ghost predicate Whole(f: Fs, i: nat) {
    i in f.inodes && NoHoles(f, i, f.inodes[i].size)
  }

  lemma WholeFile(l: Layout, f: Fs, use: map<nat, set<nat>>, i: nat)
    requires Inv(l, f, use) && i in f.inodes && i in use && f.inodes[i].size <= MAXFILE * BSIZE
    requires use[i] == SlotsOf(Blocks(f.inodes[i].size))
    ensures Whole(f, i)
  {
    var n := f.inodes[i].size;
    forall bn: nat | bn < Blocks(n) ensures HasBlock(f, i, bn) {
      assert bn < MAXFILE;
      assert DataSlot(bn) in SlotsOf(Blocks(n)) && SlotOk(l, f, use, i, DataSlot(bn));
    }
  }

  lemma ThereIs(f: Fs, i: nat, c: seq<Byte>, o: nat)
    requires Holds(f, i, c) && o < |c|
    ensures HasBlock(f, i, o / BSIZE)
  {
    assert ByteOk(f, i, c, o);
  }

  /** The data blocks of all inodes but `i` stay in place with their contents. */
  ghost predicate OthersKept(f: Fs, g: Fs, i: nat) {
    forall j: nat, k: nat :: j != i ==> DataKept(f, g, j, k)
  }

  /** What patching a block of the file means. */
  lemma RoundDone(l: Layout, f: Fs, g: Fs, use: map<nat, set<nat>>, i: nat, c: seq<Byte>, o: nat, data: seq<Byte>,
          addr: nat)
    requires Inv(l, g, use) && AllKept(f, g) && Holds(f, i, c) && o <= |c| && o / BSIZE < MAXFILE
      && o % BSIZE + |data| <= BSIZE
    requires Owns(g, i, DataSlot(o / BSIZE), addr)
    ensures Shape(l, g) && l.datastart <= addr < l.size
    ensures var h := Fs(g.blocks[addr := Patched(g.blocks[addr], o % BSIZE, data)], g.inodes);
      && Inv(l, h, use) && OthersKept(f, h, i) && Holds(h, i, Splice(c, o, data)) && Shape(l, h)
      && FreeBlocks(l, h) == FreeBlocks(l, g)
      && AddrsKept(f, h, i) && AddrOf(h, i, o / BSIZE) == addr
  {
    hide Word;
    hide PutWord;
    var k := DataSlot(o / BSIZE);
    assert SlotOk(l, g, use, i, k);
    assert HasBlock(g, i, o / BSIZE);
    var b := Patched(g.blocks[addr], o % BSIZE, data);
    StoredInv(l, g, use, i, k, b);
    var h := Stored(g, i, k, b);
    assert forall m: nat :: DataKept(f, g, i, m);
    WriteStep(f, g, h, i, c, o, data);
    SameFree(l, g, h);
    hide At;
    forall j: nat, m: nat | j != i ensures DataKept(f, h, j, m) { assert DataKept(f, g, j, m) && DataKept(g, h, j, m); }
    forall bn: nat ensures AddrOf(f, i, bn) != 0 ==> AddrOf(h, i, bn) == AddrOf(f, i, bn) {
      assert DataKept(f, g, i, DataSlot(bn)) && (DataSlot(bn) != k ==> DataKept(g, h, i, DataSlot(bn)));
    }
  }

  /** The number of blocks of a file `c` once `n` bytes are written at `off`. */
  function Grown<T>(c: seq<T>, off: nat, n: nat): nat { Max(Blocks(|c|), Blocks(off + n)) }

  /** How many blocks must be allocated for a file to grow from `a` to `b` blocks. */
  function New(a: nat, b: nat): int { b - a + (if a <= NDIRECT < b then 1 else 0) }

  /** How many blocks the `n` bytes at `off` lie in. */
  function Spans(off: nat, n: nat): nat { if n == 0 then 0 else (off + n - 1) / BSIZE - off / BSIZE + 1 }

  lemma OthersSelf(f: Fs, i: nat)
    requires AllKept(f, f)
    ensures OthersKept(f, f, i)
  {
    forall j: nat, k: nat | j != i ensures DataKept(f, f, j, k) {}
  }

  lemma OthersOn(f: Fs, g: Fs, h: Fs, i: nat)
    requires OthersKept(f, g, i) && OthersKept(g, h, i)
    ensures OthersKept(f, h, i)
  {
    hide At;
    forall j: nat, k: nat | j != i ensures DataKept(f, h, j, k) { assert DataKept(f, g, j, k) && DataKept(g, h, j, k); }
  }

  /** The arithmetic of one round. */
  lemma RoundMath<T>(c: seq<T>, off: nat, tot: nat, k: nat, n: nat)
    requires off <= |c| && tot < n && off + n <= MAXFILE * BSIZE && k == Min(n - tot, BSIZE - (off + tot) % BSIZE)
    requires tot == 0 || (off + tot) % BSIZE == 0
    ensures k > 0 && (tot + k == n || (off + tot + k) % BSIZE == 0)
    ensures var bn := (off + tot) / BSIZE;
      && bn <= Grown(c, off, tot) && bn < MAXFILE
      && Grown(c, off, tot + k) == Max(Grown(c, off, tot), bn + 1) && Grown(c, off, tot + k) <= Grown(c, off, n)
      && New(Blocks(|c|), Grown(c, off, tot + k)) ==
        New(Blocks(|c|), Grown(c, off, tot)) + Needs(Grown(c, off, tot), bn)
      && New(Blocks(|c|), Grown(c, off, tot + k)) <= New(Blocks(|c|), Grown(c, off, n))
    ensures Spans(off, tot + k) == Spans(off, tot) + 1 && (off + tot) / BSIZE == off / BSIZE + Spans(off, tot)
  {
    BlockMath(off + tot, k);
  }

  lemma BlockMath(o: nat, k: nat)
    requires 0 < k <= BSIZE - o % BSIZE
    ensures Blocks(o + k) == o / BSIZE + 1 && o / BSIZE <= Blocks(o) <= o / BSIZE + 1
    ensures o % BSIZE == 0 ==> Blocks(o) == o / BSIZE
    ensures (o + k - 1) / BSIZE == o / BSIZE
  {}

  /** The state of writei's loop: `part` of the source has been written over `c`. */
  ghost predicate Midway(l: Layout, f: Fs, g: Fs, use0: map<nat, set<nat>>, use: map<nat, set<nat>>, i: nat,
          c: seq<Byte>, off: nat, part: seq<Byte>)
    requires off <= |c|
  {
    var nb := Grown(c, off, |part|);
    && Inv(l, g, use) && i in use0 && use == use0[i := SlotsOf(nb)]
    && Changed(f, g, i) && OthersKept(f, g, i) && Holds(g, i, Splice(c, off, part))
    && (nb == Blocks(|c|) ==> g.inodes == f.inodes)
    && Shape(l, f) && Shape(l, g) && |FreeBlocks(l, g)| == |FreeBlocks(l, f)| - New(Blocks(|c|), nb)
  }

  lemma MidwayStart(l: Layout, f: Fs, use: map<nat, set<nat>>, i: nat, c: seq<Byte>, off: nat)
    requires Inv(l, f, use) && i in f.inodes && i in use && use[i] == SlotsOf(Blocks(|c|)) && Holds(f, i, c)
      && off <= |c|
    ensures Midway(l, f, f, use, use, i, c, off, [])
  {
    KeptSelf(l, f, use);
    OthersSelf(f, i);
    assert Splice(c, off, []) == c;
    assert Blocks(off) <= Blocks(|c|);
    assert use[i := use[i]] == use;
  }

  lemma MidwayFacts(l: Layout, f: Fs, g: Fs, use0: map<nat, set<nat>>, use: map<nat, set<nat>>, i: nat, c: seq<Byte>,
          off: nat, part: seq<Byte>)
    requires off <= |c| && Midway(l, f, g, use0, use, i, c, off, part)
    ensures Inv(l, g, use) && use == use0[i := SlotsOf(Grown(c, off, |part|))]
    ensures Changed(f, g, i) && OthersKept(f, g, i) && Holds(g, i, Splice(c, off, part))
    ensures Grown(c, off, |part|) == Blocks(|c|) ==> g.inodes == f.inodes
    ensures Shape(l, f) && Shape(l, g)
      && |FreeBlocks(l, g)| == |FreeBlocks(l, f)| - New(Blocks(|c|), Grown(c, off, |part|))
  {}

  lemma MidwayOn(l: Layout, f: Fs, g: Fs, h: Fs, use0: map<nat, set<nat>>, use1: map<nat, set<nat>>,
          use2: map<nat, set<nat>>, i: nat, c: seq<Byte>, off: nat, part: seq<Byte>, data: seq<Byte>)
    requires off <= |c| && Midway(l, f, g, use0, use1, i, c, off, part)
    requires Inv(l, h, use2) && use2 == use1[i := SlotsOf(Grown(c, off, |part| + |data|))]
    requires Changed(g, h, i) && OthersKept(g, h, i) && off + |part| <= |Splice(c, off, part)|
    requires Holds(h, i, Splice(Splice(c, off, part), off + |part|, data))
    requires Grown(c, off, |part| + |data|) == Blocks(|c|) ==> h.inodes == g.inodes
    requires Shape(l, g) && Shape(l, h)
    requires |FreeBlocks(l, h)| ==
      |FreeBlocks(l, g)| - (New(Blocks(|c|), Grown(c, off, |part| + |data|)) - New(Blocks(|c|), Grown(c, off, |part|)))
    ensures Midway(l, f, h, use0, use2, i, c, off, part + data)
  {
    hide InvBut;
    hide Holds;
    hide FreeBlocks;
    hide SlotsOf;
    assert |part + data| == |part| + |data|;
    SpliceTwice(c, off, part, data);
    OthersOn(f, g, h, i);
    hide OthersKept;
    assert use2 == use0[i := SlotsOf(Grown(c, off, |part| + |data|))];
    assert h.inodes == f.inodes[i := h.inodes[i]];
    assert Blocks(off + |part|) <= Blocks(off + |part| + |data|);
  }

  datatype WriteResult = Written | Refused | OutOfBlocks

  /** IBLOCK: eight inodes to a block. */
  function InodeBlock(inodestart: nat, i: nat): nat { i / 8 + inodestart }

  /** The blocks to be allocated for a write into a file of `size` bytes. */
  function NewFor(size: nat, off: nat, n: nat): int { New(Blocks(size), Max(Blocks(size), Blocks(off + n))) }

  /** Of the inodes only size and addresses of `i` change, and the size is then `n`. */
  ghost predicate Sized(f: Fs, g: Fs, i: nat, n: nat) {
    && i in f.inodes && i in g.inodes
    && g.inodes == f.inodes[i := f.inodes[i].(size := n, addrs := g.inodes[i].addrs)]
  }

  /** All inodes but `i` have the contents they had. */
  ghost predicate OtherFiles(f: Fs, g: Fs, i: nat) {
    forall j: nat :: j != i ==> SameContents(f, g, j)
  }

  ghost predicate SameContents(f: Fs, g: Fs, j: nat) {
    Whole(f, j) ==> Whole(g, j) && File(g, j) == File(f, j)
  }

  /** Writing the size into an inode. */
  ghost function WithSize(f: Fs, i: nat, n: nat): Fs
    requires i in f.inodes
  {
    f.(inodes := f.inodes[i := f.inodes[i].(size := n)])
  }

  lemma WithSizeInv(l: Layout, f: Fs, use: map<nat, set<nat>>, i: nat, n: nat)
    requires Inv(l, f, use) && i in f.inodes
    ensures Inv(l, WithSize(f, i, n), use) && AllKept(f, WithSize(f, i, n))
  {
    hide Word;
    hide PutWord;
    var g := WithSize(f, i, n);
    assert Shape(l, g);
    forall j: nat, m: nat | j in f.inodes && m < NSLOTS ensures At(g, j, m) == At(f, j, m) {}
    hide At;
    forall j: nat, m: nat, c: nat ensures Owns(g, j, m, c) == Owns(f, j, m, c) {}
    forall c: nat ensures Owned(g, c) == Owned(f, c) {
      if j: nat, m: nat :| Owns(f, j, m, c) { assert Owns(g, j, m, c); }
      if j: nat, m: nat :| Owns(g, j, m, c) { assert Owns(f, j, m, c); }
    }
    forall j: nat, m: nat ensures SlotOk(l, g, use, j, m) { assert SlotOk(l, f, use, j, m); }
    forall j: nat, m: nat, j': nat, m': nat ensures Sole(g, j, m, j', m') { assert Sole(f, j, m, j', m'); }
    forall c: nat ensures BitOk(l, g, 0, c) {
      assert BitOk(l, f, 0, c);
      if c < l.size { assert MapBlock(l, c) < l.datastart; }
    }
    forall j: nat, m: nat ensures DataKept(f, g, j, m) { assert SlotOk(l, f, use, j, m); }
  }

  lemma KeptHolds(f: Fs, g: Fs, i: nat, c: seq<Byte>)
    requires Holds(f, i, c) && AllKept(f, g)
    ensures Holds(g, i, c)
  {
    forall p: nat ensures ByteOk(g, i, c, p) { assert ByteOk(f, i, c, p) && DataKept(f, g, i, DataSlot(p / BSIZE)); }
  }

  /** The end of writei. */
  lemma Resized(l: Layout, f: Fs, g: Fs, use: map<nat, set<nat>>, i: nat, c: seq<Byte>, off: nat,
          src: seq<Byte>, n: nat)
    requires Inv(l, g, use) && Changed(f, g, i) && OthersKept(f, g, i) && off <= |c| && Holds(g, i, Splice(c, off, src))
    requires n == Max(|c|, off + |src|)
    ensures var h := WithSize(g, i, n);
      && Inv(l, h, use) && Whole(h, i) && File(h, i) == Splice(c, off, src) && OtherFiles(f, h, i)
  {
    var h := WithSize(g, i, n);
    WithSizeInv(l, g, use, i, n);
    KeptHolds(g, h, i, Splice(c, off, src));
    assert |Splice(c, off, src)| == n;
    HoldsFile(h, i, Splice(c, off, src));
    forall j: nat | j != i ensures SameContents(f, h, j) {
      if Whole(f, j) {
        forall k: nat ensures DataKept(f, h, j, k) { assert DataKept(f, g, j, k) && DataKept(g, h, j, k); }
        SameFile(f, h, j);
      }
    }
  }

  /** How many blocks a write logs. */
  lemma WriteSize(l: Layout, inodestart: nat, f: Fs, g: Fs, i: nat, off: nat, n: nat)
    requires Shape(l, f) && Shape(l, g) && i in f.inodes && FreeBlocks(l, g) <= FreeBlocks(l, f)
    requires |FreeBlocks(l, g)| == |FreeBlocks(l, f)| - NewFor(f.inodes[i].size, off, n)
    ensures var w := WriteSet(l, inodestart, f, g, i, off, n);
      && |w| <= Spans(off, n) + NewFor(f.inodes[i].size, off, n) + 2
      && (l.size <= BPB ==> |w| <= Spans(off, n) + 3)
  {
    hide FreeBlocks, Spans, AddrOf, Table, Own, Maps, NewFor;
    var own, taken := Own(g, i, f.inodes[i].size, off, n), TakenFrom(l, f, g);
    OwnSize(g, i, f.inodes[i].size, off, n);
    MapsSize(l, taken);
    assert |taken| == NewFor(f.inodes[i].size, off, n) by { assert FreeBlocks(l, f) == FreeBlocks(l, g) + taken; }
    Sum(own, Maps(l, taken), if n > 0 && off + n > f.inodes[i].size then {InodeBlock(inodestart, i)} else {});
    if l.size <= BPB {
      OneMap(l, f, g);
      SubsetSize(Maps(l, taken), {l.bmapstart});
    }
  }

  predicate HasSlot(slots: set<nat>, bn: nat) { bn < MAXFILE && DataSlot(bn) in slots }

  /** And exactly how many, where the inodes have blocks of their own before the data. */
  lemma WriteExact(l: Layout, inodestart: nat, f: Fs, g: Fs, use: map<nat, set<nat>>, i: nat, off: nat, n: nat)
    requires Shape(l, f) && Inv(l, g, use) && i in f.inodes && i in g.inodes && i in use
    requires forall bn: nat :: off / BSIZE <= bn < off / BSIZE + Spans(off, n) ==> HasSlot(use[i], bn)
    requires Max(Blocks(f.inodes[i].size), Blocks(off + n)) > NDIRECT ==> NDIRECT in use[i]
    requires InodeBlock(inodestart, i) < l.datastart
      && forall b: nat :: b < l.size ==> MapBlock(l, b) != InodeBlock(inodestart, i)
    ensures Shape(l, g)
    ensures var size := f.inodes[i].size;
      var nb := Max(Blocks(size), Blocks(off + n));
      |WriteSet(l, inodestart, f, g, i, off, n)| == Spans(off, n) + |Maps(l, TakenFrom(l, f, g))|
        + (if nb > Blocks(size) && nb > NDIRECT then 1 else 0) + (if n > 0 && off + n > size then 1 else 0)
  {
    hide InvBut, AddrOf, Spans, Blocks, DataBlocks, Table;
    InvShape(l, g, use, 0);
    var size := f.inodes[i].size;
    var nb := Max(Blocks(size), Blocks(off + n));
    var a, b := off / BSIZE, off / BSIZE + Spans(off, n);
    var data, table, maps := DataBlocks(g, i, a, b), TableIf(g, i, nb > Blocks(size) && nb > NDIRECT),
      Maps(l, TakenFrom(l, f, g));
    DataExact(l, g, use, i, a, b);
    MapsBelow(l, f, g);
    Apart(data, table, maps, l.datastart, InodeBlock(inodestart, i));
  }

  lemma MapsBelow(l: Layout, f: Fs, g: Fs)
    requires Shape(l, f) && Shape(l, g)
    ensures forall x :: x in Maps(l, TakenFrom(l, f, g)) ==>
      x < l.datastart && exists b: nat :: b < l.size && x == MapBlock(l, b)
  {}

  /** A write logs blocks of the free map, of the inodes and of the data. */
  lemma WritePlaced(l: Layout, inodestart: nat, f: Fs, g: Fs, use: map<nat, set<nat>>, i: nat, off: nat, n: nat)
    requires Shape(l, f) && Inv(l, g, use) && i in f.inodes && i in g.inodes && UseOk(g.inodes, use, i)
    requires off + n <= MAXFILE * BSIZE && g.inodes[i].size == Max(f.inodes[i].size, off + n)
    ensures Shape(l, g) && forall b :: b in WriteSet(l, inodestart, f, g, i, off, n) ==> Placed(l, inodestart, g, b)
  {
    hide InvBut, AddrOf, Table, Maps, Placed;
    InvShape(l, g, use, 0);
    forall b | b in Maps(l, TakenFrom(l, f, g)) ensures Placed(l, inodestart, g, b) {
      MapPlaced(l, inodestart, f, g, b);
    }
    var nb := Max(Blocks(f.inodes[i].size), Blocks(off + n));
    MoreBlocks(f.inodes[i].size, g.inodes[i].size);
    MoreBlocks(off + n, g.inodes[i].size);
    forall b | b in DataBlocks(g, i, off / BSIZE, off / BSIZE + Spans(off, n)) ensures Placed(l, inodestart, g, b) {
      var bn: nat :| off / BSIZE <= bn < off / BSIZE + Spans(off, n) && AddrOf(g, i, bn) == b;
      SpanSlot(off, n, bn);
      SlotPlaced(l, inodestart, g, use, i, DataSlot(bn));
      AddrIs(g, i, bn);
    }
    if nb > NDIRECT {
      SlotPlaced(l, inodestart, g, use, i, NDIRECT);
      TableIs(g, i);
    }
    InodePlaced(l, inodestart, g, i);
  }

  lemma AddrIs(g: Fs, i: nat, bn: nat)
    requires i in g.inodes && |g.inodes[i].addrs| == NDIRECT + 1 && bn < MAXFILE
    ensures AddrOf(g, i, bn) == At(g, i, DataSlot(bn))
  {}

  lemma TableIs(g: Fs, i: nat)
    requires i in g.inodes && |g.inodes[i].addrs| == NDIRECT + 1
    ensures Table(g, i) == {At(g, i, NDIRECT)}
  {}

  lemma InodePlaced(l: Layout, inodestart: nat, g: Fs, i: nat)
    requires i in g.inodes
    ensures Placed(l, inodestart, g, InodeBlock(inodestart, i))
  {}

  lemma MapPlaced(l: Layout, inodestart: nat, f: Fs, g: Fs, b: nat)
    requires Shape(l, f) && Shape(l, g) && b in Maps(l, TakenFrom(l, f, g))
    ensures Placed(l, inodestart, g, b)
  {}

  lemma SpanSlot(off: nat, n: nat, bn: nat)
    requires off / BSIZE <= bn < off / BSIZE + Spans(off, n)
    ensures bn < Blocks(off + n)
  {}

  lemma SlotPlaced(l: Layout, inodestart: nat, g: Fs, use: map<nat, set<nat>>, i: nat, k: nat)
    requires Inv(l, g, use) && i in g.inodes && UseOk(g.inodes, use, i)
    requires k < NSLOTS && InUse(Blocks(g.inodes[i].size), k)
    ensures Shape(l, g) && Placed(l, inodestart, g, At(g, i, k))
  {
    hide At;
    assert SlotOk(l, g, use, i, k);
  }

  lemma Apart(data: set<nat>, table: set<nat>, maps: set<nat>, start: nat, inode: nat)
    requires (forall x :: x in data ==> start <= x) && (forall x :: x in table ==> start <= x && x !in data)
    requires (forall x :: x in maps ==> x < start) && inode < start && inode !in maps
    ensures |data + table + maps| == |data| + |table| + |maps|
      && |data + table + maps + {inode}| == |data| + |table| + |maps| + 1
  {
    assert data !! table && data + table !! maps;
    assert inode !in data + table + maps;
  }

  lemma Slotted(l: Layout, g: Fs, use: map<nat, set<nat>>, i: nat, bn: nat)
    requires Inv(l, g, use) && i in g.inodes && i in use && HasSlot(use[i], bn)
    ensures l.datastart <= AddrOf(g, i, bn) && AddrOf(g, i, bn) !in Table(g, i)
  {
    hide Word;
    assert SlotOk(l, g, use, i, DataSlot(bn)) && Sole(g, i, DataSlot(bn), i, NDIRECT);
    assert Owns(g, i, DataSlot(bn), AddrOf(g, i, bn));
  }

  lemma Differ(l: Layout, g: Fs, use: map<nat, set<nat>>, i: nat, x: nat, y: nat)
    requires Inv(l, g, use) && i in g.inodes && i in use && HasSlot(use[i], x) && HasSlot(use[i], y) && x < y
    ensures AddrOf(g, i, x) != AddrOf(g, i, y)
  {
    hide Word;
    assert SlotOk(l, g, use, i, DataSlot(x)) && Sole(g, i, DataSlot(x), i, DataSlot(y));
    assert Owns(g, i, DataSlot(x), AddrOf(g, i, x));
  }

  lemma TableOnly(l: Layout, g: Fs, use: map<nat, set<nat>>, i: nat)
    requires Inv(l, g, use) && i in g.inodes && i in use && NDIRECT in use[i]
    ensures |Table(g, i)| == 1 && forall x :: x in Table(g, i) ==> l.datastart <= x
  {
    assert SlotOk(l, g, use, i, NDIRECT);
  }

  /** Data blocks are all different, and none is the indirect block. */
  lemma {:induction false} DataExact(l: Layout, g: Fs, use: map<nat, set<nat>>, i: nat, a: nat, b: nat)
    requires Inv(l, g, use) && i in g.inodes && i in use && a <= b
    requires forall bn: nat :: a <= bn < b ==> HasSlot(use[i], bn)
    ensures |DataBlocks(g, i, a, b)| == b - a && (forall x :: x in DataBlocks(g, i, a, b) ==> l.datastart <= x)
    ensures NDIRECT in use[i] ==>
      |Table(g, i)| == 1 && forall x :: x in Table(g, i) ==> l.datastart <= x && x !in DataBlocks(g, i, a, b)
    decreases b - a
  {
    hide InvBut, AddrOf, Table;
    if a < b {
      DataExact(l, g, use, i, a, b - 1);
      var x := AddrOf(g, i, b - 1);
      assert HasSlot(use[i], b - 1);
      Slotted(l, g, use, i, b - 1);
      assert DataBlocks(g, i, a, b) == DataBlocks(g, i, a, b - 1) + {x};
      forall y: nat | a <= y < b - 1 ensures AddrOf(g, i, y) != x {
        assert HasSlot(use[i], y);
        Differ(l, g, use, i, y, b - 1);
      }
    } else {
      if NDIRECT in use[i] { TableOnly(l, g, use, i); }
      assert DataBlocks(g, i, a, b) == {};
    }
  }

  lemma OneMap(l: Layout, f: Fs, g: Fs)
    requires Shape(l, f) && Shape(l, g) && l.size <= BPB
    ensures Maps(l, TakenFrom(l, f, g)) <= {l.bmapstart}
  {}

  lemma OwnSize(g: Fs, i: nat, size: nat, off: nat, n: nat)
    ensures |Own(g, i, size, off, n)| <= Spans(off, n) + 1
  {
    hide AddrOf, Spans, Blocks;
    DataSize(g, i, off / BSIZE, off / BSIZE + Spans(off, n));
  }

  lemma {:induction false} DataSize(g: Fs, i: nat, a: nat, b: nat)
    requires a <= b
    ensures |DataBlocks(g, i, a, b)| <= b - a
    decreases b - a
  {
    hide AddrOf;
    if a < b {
      DataSize(g, i, a, b - 1);
      assert DataBlocks(g, i, a, b) == DataBlocks(g, i, a, b - 1) + {AddrOf(g, i, b - 1)};
    } else {
      assert DataBlocks(g, i, a, b) == {};
    }
  }

  lemma {:induction false} MapsSize(l: Layout, taken: set<nat>)
    ensures |Maps(l, taken)| <= |taken|
  {
    if taken != {} {
      var x :| x in taken;
      MapsSize(l, taken - {x});
      assert Maps(l, taken) == Maps(l, taken - {x}) + {MapBlock(l, x)};
    } else {
      assert Maps(l, taken) == {};
    }
  }

  lemma Sum(a: set<nat>, b: set<nat>, c: set<nat>)
    ensures |a + b + c| <= |a| + |b| + |c|
  {
    assert |a + b| <= |a| + |b|;
  }

  lemma SizedOn<T>(before: map<nat, Inode>, after: map<nat, Inode>, use0: map<nat, set<nat>>, use: map<nat, set<nat>>,
          i: nat, c: seq<T>, off: nat, n: nat)
    requires AllSized(before, use0) && i in before && i in after && after == before[i := after[i]]
      && before[i].size == |c| && off <= |c|
    requires use == use0[i := SlotsOf(Grown(c, off, n))] && off + n <= MAXFILE * BSIZE
    ensures AllSized(after[i := after[i].(size := Max(|c|, off + n))], use)
  {
    var inodes := after[i := after[i].(size := Max(|c|, off + n))];
    assert Blocks(Max(|c|, off + n)) == Grown(c, off, n) by {
      assert if |c| < off + n then Blocks(|c|) <= Blocks(off + n) else Blocks(off + n) <= Blocks(|c|);
    }
    assert UseOk(before, use0, i);
    forall j: nat ensures UseOk(inodes, use, j) { assert UseOk(before, use0, j); }
  }

  /** How many chunks `k` bytes are. */
  function Pieces(k: nat): nat { (k + CHUNK - 1) / CHUNK }

  predicate WholePieces(k: nat) { k % CHUNK == 0 }

  lemma PieceMath(k: nat, n: nat, len: nat)
    ensures WholePieces(0) && Pieces(0) == 0
    ensures WholePieces(k) && k < len && n == Min(len - k, CHUNK) ==>
      n > 0 && (k + n == len || WholePieces(k + n)) && Pieces(k + n) == Pieces(k) + 1
  {
    ChunkIs();
    if WholePieces(k) && k < len && n == Min(len - k, CHUNK) { Pieces3(k / 1536, n); }
  }

  lemma ChunkIs()
    ensures CHUNK == 1536
  {}

  lemma Pieces3(q: nat, n: nat)
    requires 0 < n <= 1536
    ensures (1536 * q + 1535) / 1536 == q && (1536 * q + n + 1535) / 1536 == q + 1
      && (n == 1536 ==> (1536 * q + n) % 1536 == 0)
  {}

  const CHUNK: nat := (RedoLog.MAXOPBLOCKS - 1 - 1 - 2) / 2 * 512

  /** A chunk logs no more blocks than an operation may. */
  lemma ChunkFits(size: nat, off: nat, n: nat)
    requires off <= size && n <= CHUNK
    ensures Spans(off, n) + NewFor(size, off, n) + 2 <= RedoLog.MAXOPBLOCKS && Spans(off, n) + 3 <= 7
  {
    assert Blocks(off) <= Blocks(size);
    assert Blocks(off + n) <= Blocks(off) + 3;
  }

  lemma OthersNext(f: Fs, g: Fs, h: Fs, i: nat)
    requires OtherFiles(f, g, i) && OtherFiles(g, h, i)
    ensures OtherFiles(f, h, i)
  {
    hide File;
    forall j: nat | j != i ensures SameContents(f, h, j) { assert SameContents(f, g, j) && SameContents(g, h, j); }
  }

  /** Two chunks in a row are one. */
  lemma Joined<T>(c: seq<T>, off: nat, src: seq<T>, k: nat, n: nat)
    requires off <= |c| && k + n <= |src|
    ensures off + k <= |Splice(c, off, src[..k])|
      && Splice(Splice(c, off, src[..k]), off + k, src[k..k + n]) == Splice(c, off, src[..k + n])
    ensures k == 0 ==> Splice(c, off, src[..k]) == c
  {
    SpliceTwice(c, off, src[..k], src[k..k + n]);
    assert src[..k] + src[k..k + n] == src[..k + n];
  }

  /** An operation within its quota that logged all it changed; no more than seven blocks if the free map is one
      block. */
  ghost predicate OpOk(l: Layout, inodestart: nat, op: Op) {
    && Covered(inodestart, op) && |op.logged| <= RedoLog.MAXOPBLOCKS && (l.size <= BPB ==> |op.logged| <= 7)
    && Shape(l, op.after) && forall b :: b in op.logged ==> Placed(l, inodestart, op.after, b)
  }

  /** What is on the disk after the operations that `h` has more than `h0`, if it was `d` before. */
  ghost function Last(h: seq<Op>, h0: seq<Op>, d: Fs): Fs {
    if |h| > |h0| then h[|h| - 1].after else d
  }

  /** The operations that `h` has more than `h0` follow one another from `d` on, and are all in order. */
  ghost predicate Operated(l: Layout, inodestart: nat, h0: seq<Op>, h: seq<Op>, d: Fs) {
    && h0 <= h
    && (forall x :: |h0| <= x < |h| ==> OpOk(l, inodestart, h[x]) && h[x].before == Last(h[..x], h0, d))
  }

  lemma OperatedNone(l: Layout, inodestart: nat, h0: seq<Op>, d: Fs)
    ensures Operated(l, inodestart, h0, h0, d) && Last(h0, h0, d) == d
  {}

  lemma OperatedOn(l: Layout, inodestart: nat, h0: seq<Op>, h: seq<Op>, h': seq<Op>, d: Fs)
    requires Operated(l, inodestart, h0, h, d) && |h'| == |h| + 1 && h'[..|h|] == h && OpOk(l, inodestart, h'[|h|])
    requires h'[|h|].before == Last(h, h0, d)
    ensures Operated(l, inodestart, h0, h', d) && Last(h', h0, d) == h'[|h|].after
  {
    hide OpOk;
    forall x | |h0| <= x < |h'| ensures OpOk(l, inodestart, h'[x]) && h'[x].before == Last(h'[..x], h0, d) {
      if x < |h| {
        assert h'[x] == h[x] && h'[..x] == h[..x];
      } else {
        assert h'[..x] == h;
      }
    }
  }

  lemma Untouched(inodestart: nat, d: Fs)
    ensures Covered(inodestart, Op(d, d, {}))
  {}

  /** writei's guards. */
  predicate Refuses(size: nat, off: nat, n: nat) { off > size || off + n >= UINT || off + n > MAXFILE * BSIZE }

  /** How many of `n` bytes a file of `size` bytes takes at `off`: all, or as many whole chunks as fit. */
  function Room(size: nat, off: nat, n: nat): nat {
    if off > size then 0
    else if off + n <= MAXFILE * BSIZE then n
    else if off > MAXFILE * BSIZE then 0
    else (MAXFILE * BSIZE - off) / CHUNK * CHUNK
  }

  /** How many blocks `k` bytes need that are not there. */
  function Cost(size: nat, off: nat, k: nat): int { if k == 0 then 0 else NewFor(size, off, k) }

  /** The size of the file after `k` bytes. */
  function Grows(size: nat, off: nat, k: nat): nat { if k == 0 then size else Max(size, off + k) }

  lemma RoomStart(size: nat, off: nat, n: nat)
    ensures 0 <= Room(size, off, n) <= n && Cost(size, off, 0) == 0 && Grows(size, off, 0) == size
  {
    ChunkIs();
  }

  lemma SizeFits(inodes: map<nat, Inode>, use: map<nat, set<nat>>, i: nat)
    requires AllSized(inodes, use) && i in inodes
    ensures inodes[i].size <= MAXFILE * BSIZE && UseOk(inodes, use, i)
  {
    assert UseOk(inodes, use, i);
  }

  /** One round: when it is refused, and what it needs. */
  lemma RoundRoom(size: nat, off: nat, k: nat, n: nat, len: nat)
    requires size <= MAXFILE * BSIZE && k < len && n == Min(len - k, CHUNK) && WholePieces(k)
    requires k <= Room(size, off, len)
    ensures Refuses(Grows(size, off, k), off + k, n) <==> k == Room(size, off, len)
    ensures k < Room(size, off, len) ==> k + n <= Room(size, off, len) && off + k + n <= MAXFILE * BSIZE
    ensures k < Room(size, off, len) ==> Grows(Grows(size, off, k), off + k, n) == Grows(size, off, k + n)
    ensures k < Room(size, off, len) ==>
      NewFor(Grows(size, off, k), off + k, n) == Cost(size, off, k + n) - Cost(size, off, k)
    ensures k < Room(size, off, len) ==> Cost(size, off, k + n) <= Cost(size, off, Room(size, off, len))
  {
    hide NewFor, Cost;
    ChunkIs();
    if k < Room(size, off, len) {
      CostMore(size, off, k, n);
      CostMore(size, off, k + n, Room(size, off, len) - (k + n));
    }
  }

  lemma CostMore(size: nat, off: nat, k: nat, n: nat)
    requires off <= size
    ensures NewFor(Grows(size, off, k), off + k, n) == Cost(size, off, k + n) - Cost(size, off, k) >= 0
  {
    MoreBlocks(off, size);
    MoreBlocks(off + k, off + k + n);
    MoreBlocks(size, Max(size, off + k));
    MoreBlocks(off + k, Max(size, off + k));
    hide Blocks;
  }

  lemma MoreBlocks(a: nat, b: nat)
    requires a <= b
    ensures Blocks(a) <= Blocks(b)
  {}

  /** Each of the operations that `h` has more than `h0` wrote its chunk: the file on the disk is then the contents `c`
      with the chunks so far written over it, and no other file has changed. */
  ghost predicate Stages(f: Fs, h0: seq<Op>, h: seq<Op>, i: nat, c: seq<Byte>, off: nat, src: seq<Byte>, k: nat) {
    && k <= |src| && |h0| <= |h|
    && forall x: nat {:trigger Stage(f, h0, h, i, c, off, src, k, x)} :: Stage(f, h0, h, i, c, off, src, k, x)
  }

  ghost predicate Stage(f: Fs, h0: seq<Op>, h: seq<Op>, i: nat, c: seq<Byte>, off: nat, src: seq<Byte>, k: nat, x: nat)
    requires k <= |src|
  {
    |h0| <= x < |h| ==> Chunked(f, h[x].after, i, c, off, src[..Min(k, (x + 1 - |h0|) * CHUNK)])
  }

  lemma StagesNone(f: Fs, h0: seq<Op>, i: nat, c: seq<Byte>, off: nat, src: seq<Byte>)
    ensures Stages(f, h0, h0, i, c, off, src, 0)
  {}

  lemma StagesMore(f: Fs, h0: seq<Op>, h: seq<Op>, h': seq<Op>, i: nat, c: seq<Byte>, off: nat, src: seq<Byte>,
          k: nat, m: nat)
    requires Stages(f, h0, h, i, c, off, src, k) && k <= m <= |src| && WholePieces(k) && |h| == |h0| + Pieces(k)
    requires m <= k + CHUNK && |h'| == |h| + 1 && h'[..|h|] == h && Chunked(f, h'[|h|].after, i, c, off, src[..m])
    ensures Stages(f, h0, h', i, c, off, src, m)
  {
    hide Chunked;
    ChunkIs();
    forall x: nat ensures Stage(f, h0, h', i, c, off, src, m, x) {
      assert Stage(f, h0, h, i, c, off, src, k, x);
      if |h0| <= x < |h| { assert h'[x] == h[x]; }
    }
  }

  /** `part` has been written over the contents `c` at `off`. */
  ghost predicate Chunked(f: Fs, g: Fs, i: nat, c: seq<Byte>, off: nat, part: seq<Byte>) {
    && Whole(g, i) && OtherFiles(f, g, i)
    && if part == [] then File(g, i) == c
      else off <= |c| && off + |part| <= MAXFILE * BSIZE && File(g, i) == Splice(c, off, part)
  }

  lemma ChunkStart(f: Fs, i: nat, off: nat)
    requires Whole(f, i)
    ensures Chunked(f, f, i, File(f, i), off, [])
  {}

  lemma ChunkFacts(f: Fs, g: Fs, i: nat, c: seq<Byte>, off: nat, part: seq<Byte>)
    requires Chunked(f, g, i, c, off, part)
    ensures Whole(g, i) && OtherFiles(f, g, i) && |File(g, i)| == g.inodes[i].size
    ensures part == [] ==> File(g, i) == c
    ensures part != [] ==> off <= |c| && off + |part| <= MAXFILE * BSIZE && File(g, i) == Splice(c, off, part)
  {}

  lemma ChunkNext(f: Fs, g: Fs, h: Fs, i: nat, c: seq<Byte>, off: nat, src: seq<Byte>, k: nat, n: nat)
    requires k + n <= |src| && n > 0 && Chunked(f, g, i, c, off, src[..k]) && OtherFiles(g, h, i)
      && off + k + n <= MAXFILE * BSIZE
    requires Whole(g, i) && Whole(h, i) && off + k <= |File(g, i)|
      && File(h, i) == Splice(File(g, i), off + k, src[k..k + n])
    ensures Chunked(f, h, i, c, off, src[..k + n])
  {
    OthersNext(f, g, h, i);
    Joined(c, off, src, k, n);
    hide File;
    hide OtherFiles;
    hide Splice;
  }

  lemma ChangedOn(f: Fs, g: Fs, h: Fs, i: nat)
    requires Changed(f, g, i) && h.inodes == g.inodes
    ensures Changed(f, h, i)
  {}

  lemma TableSame(f: Fs, g: Fs, i: nat)
    requires g.inodes == f.inodes
    ensures Table(g, i) == Table(f, i)
  {}
}
