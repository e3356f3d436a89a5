/** Discarding the contents of an inode (itrunc in fs.c). */
module Truncation {
  import opened Common
  import opened Bytes
  import opened Inodes
  import opened Contents
  import opened FileSystem
  import RedoLog

  /** The blocks in the given slots of inode `i`. */
  ghost function BlocksIn(f: Fs, i: nat, slots: set<nat>): set<nat>
    requires i in f.inodes && |f.inodes[i].addrs| == NDIRECT + 1
  {
    set k | k in slots && k < NSLOTS && At(f, i, k) != 0 :: At(f, i, k)
  }

  ghost predicate SlotKept(f: Fs, g: Fs, i: nat, done: set<nat>, k: nat)
    requires i in f.inodes && |f.inodes[i].addrs| == NDIRECT + 1 && i in g.inodes && |g.inodes[i].addrs| == NDIRECT + 1
  {
    k < NSLOTS && k !in done ==> At(g, i, k) == At(f, i, k)
  }

  /** The slots of `done` have been emptied and their blocks freed, each once; nothing else has changed. */
  ghost predicate Emptied(l: Layout, f: Fs, g: Fs, use0: map<nat, set<nat>>, use: map<nat, set<nat>>, i: nat,
          done: set<nat>) {
    && Inv(l, g, use) && i in use0 && use == use0[i := use0[i] - done]
    && Changed(f, g, i) && OthersKept(f, g, i) && Shape(l, f) && Shape(l, g)
    && (forall k: nat :: SlotKept(f, g, i, done, k))
    && FreeBlocks(l, g) == FreeBlocks(l, f) + BlocksIn(f, i, done)
  }

  lemma DroppedFree(l: Layout, f: Fs, use: map<nat, set<nat>>, i: nat, k: nat)
    requires Inv(l, f, use) && i in f.inodes && k < NSLOTS && i in use && k in use[i]
    requires k > NDIRECT ==> NDIRECT in use[i]
    requires k == NDIRECT ==> forall e: nat :: e in use[i] ==> e <= NDIRECT
    requires l.datastart <= At(f, i, k) < l.size && (k > NDIRECT ==> l.datastart <= f.inodes[i].addrs[NDIRECT] < l.size)
    ensures Shape(l, Dropped(l, f, i, k)) && FreeBlocks(l, Dropped(l, f, i, k)) == FreeBlocks(l, f) + {At(f, i, k)}
  {
    hide Word;
    hide PutWord;
    DroppedAt(l, f, use, i, k, i, k);
    var g, b := Dropped(l, f, i, k), At(f, i, k);
    assert MapBlock(l, b) < l.datastart;
    forall c: nat | c < l.size ensures Bit(l, g, c) <==> Bit(l, f, c) && c != b {
      assert MapBlock(l, c) < l.datastart;
      BitsApart(l, f, g, b, c, false);
    }
  }

  /** One more slot is emptied. */
  lemma EmptyOne(l: Layout, f: Fs, g: Fs, use0: map<nat, set<nat>>, use: map<nat, set<nat>>, i: nat,
          done: set<nat>, k: nat)
    requires Emptied(l, f, g, use0, use, i, done) && k !in done && k < NSLOTS && i in g.inodes && At(g, i, k) != 0
    requires k > NDIRECT ==> NDIRECT in use[i]
    requires k == NDIRECT ==> forall e: nat :: e in use[i] ==> e <= NDIRECT
    ensures l.datastart <= At(g, i, k) < l.size && (k > NDIRECT ==> l.datastart <= g.inodes[i].addrs[NDIRECT] < l.size)
      && Bit(l, g, At(g, i, k))
    ensures Emptied(l, f, Dropped(l, g, i, k), use0, use[i := use[i] - {k}], i, done + {k})
  {
    hide Word;
    hide PutWord;
    assert SlotOk(l, g, use, i, k) && SlotKept(f, g, i, done, k);
    DroppedInv(l, g, use, i, k);
    DroppedFree(l, g, use, i, k);
    EmptySlots(l, f, g, use0, use, i, done, k);
    var h := Dropped(l, g, i, k);
    assert h.inodes[i].size == g.inodes[i].size && h.inodes == f.inodes[i := h.inodes[i]];
    hide InvBut;
    hide Dropped;
    hide At;
    assert BlocksIn(f, i, done + {k}) == BlocksIn(f, i, done) + {At(g, i, k)};
    OthersOn(f, g, h, i);
    hide OthersKept;
    assert use0[i] - done - {k} == use0[i] - (done + {k});
    assert use[i := use[i] - {k}] == use0[i := use0[i] - (done + {k})];
  }

  lemma EmptySlots(l: Layout, f: Fs, g: Fs, use0: map<nat, set<nat>>, use: map<nat, set<nat>>, i: nat,
          done: set<nat>, k: nat)
    requires Emptied(l, f, g, use0, use, i, done) && k < NSLOTS && i in g.inodes && k in use[i]
    requires k > NDIRECT ==> NDIRECT in use[i]
    requires k == NDIRECT ==> forall e: nat :: e in use[i] ==> e <= NDIRECT
    requires l.datastart <= At(g, i, k) < l.size && (k > NDIRECT ==> l.datastart <= g.inodes[i].addrs[NDIRECT] < l.size)
    ensures Shape(l, Dropped(l, g, i, k)) && forall e: nat :: SlotKept(f, Dropped(l, g, i, k), i, done + {k}, e)
  {
    hide Word;
    hide PutWord;
    DroppedAt(l, g, use, i, k, i, k);
    var h := Dropped(l, g, i, k);
    hide InvBut;
    forall e: nat ensures SlotKept(f, h, i, done + {k}, e) {
      assert SlotKept(f, g, i, done, e);
      if e < NSLOTS { DroppedAt(l, g, use, i, k, i, e); }
    }
  }

  lemma EmptySkip(l: Layout, f: Fs, g: Fs, use0: map<nat, set<nat>>, use: map<nat, set<nat>>, i: nat,
          done: set<nat>, k: nat)
    requires Emptied(l, f, g, use0, use, i, done) && k !in done && k < NSLOTS && i in g.inodes && At(g, i, k) == 0
    ensures Emptied(l, f, g, use0, use, i, done + {k})
  {
    hide Word;
    hide PutWord;
    assert SlotOk(l, g, use, i, k) && SlotKept(f, g, i, done, k);
    hide At;
    assert BlocksIn(f, i, done + {k}) == BlocksIn(f, i, done);
    forall e: nat ensures SlotKept(f, g, i, done + {k}, e) { assert SlotKept(f, g, i, done, e); }
    assert use0[i] - (done + {k}) == use0[i] - done;
  }

  /** `f` and `g` are the same but for the contents of block `t`. */
  ghost predicate Twins(f: Fs, g: Fs, t: nat) {
    t in f.blocks && t in g.blocks && f == g.(blocks := g.blocks[t := f.blocks[t]])
  }

  /** While the entries of an indirect block are freed one by one, the block itself keeps them; emptying them as well
      would make no other difference. */
  lemma TwinDrop(l: Layout, f: Fs, g: Fs, use: map<nat, set<nat>>, i: nat, k: nat, t: nat)
    requires Twins(f, g, t) && Inv(l, g, use) && Shape(l, f) && i in g.inodes && NDIRECT < k < NSLOTS
    requires g.inodes[i].addrs[NDIRECT] == t && l.datastart <= t < l.size && At(g, i, k) < l.size
    ensures Twins(Unmarked(l, f, At(g, i, k)), Dropped(l, g, i, k), t)
    ensures var h := Unmarked(l, f, At(g, i, k));
      t in f.blocks && t in h.blocks && h.blocks[t] == f.blocks[t] && h.inodes == f.inodes
  {
    hide Word;
    hide PutWord;
    assert MapBlock(l, At(g, i, k)) < l.datastart;
  }

  lemma TwinTable(l: Layout, f: Fs, g: Fs, i: nat, t: nat)
    requires Twins(f, g, t) && Shape(l, g) && Shape(l, f) && i in g.inodes && g.inodes[i].addrs[NDIRECT] == t
      && l.datastart <= t < l.size
    ensures At(f, i, NDIRECT) == At(g, i, NDIRECT) == t
      && Twins(Dropped(l, f, i, NDIRECT), Dropped(l, g, i, NDIRECT), t)
  {
    hide Word;
    hide PutWord;
    assert MapBlock(l, t) < l.datastart;
  }

  /** Once the indirect block is free its contents no longer matter. */
  lemma TwinsAlike(l: Layout, f0: Fs, f: Fs, g: Fs, use0: map<nat, set<nat>>, use: map<nat, set<nat>>, i: nat,
          done: set<nat>, t: nat)
    requires Emptied(l, f0, g, use0, use, i, done) && Twins(f, g, t) && l.datastart <= t < l.size && !Owned(g, t)
    ensures Emptied(l, f0, f, use0, use, i, done)
  {
    hide Word;
    hide PutWord;
    Irrelevant(l, f, g, use, t);
    SameFree(l, g, f);
    forall k: nat ensures SlotKept(f0, f, i, done, k) {
      assert SlotKept(f0, g, i, done, k);
      if k < NSLOTS {
        assert SlotOk(l, g, use, i, NDIRECT);
        assert !Owns(g, i, NDIRECT, t);
        SameAt(l, g, f, use, 0, i, k);
      }
    }
    hide At;
    forall j: nat, m: nat | j != i
      ensures DataKept(f0, f, j, m)
    {
      assert DataKept(f0, g, j, m) && DataKept(g, f, j, m);
    }
  }

  /** From `f` to `g` blocks became free, and log_write was called for exactly the blocks of the free map that say so,
      in which all that changed is. */
  ghost predicate Marks(l: Layout, f: Fs, g: Fs, before: set<nat>, after: set<nat>) {
    && Shape(l, f) && Shape(l, g) && FreeBlocks(l, f) <= FreeBlocks(l, g)
    && after == before + Maps(l, TakenFrom(l, g, f))
    && (forall b: nat :: b in f.blocks && g.blocks[b] != f.blocks[b] ==> b in Maps(l, TakenFrom(l, g, f)))
  }

  lemma MarksNone(l: Layout, f: Fs, logged: set<nat>)
    requires Shape(l, f)
    ensures Marks(l, f, f, logged, logged)
  {
    assert Maps(l, TakenFrom(l, f, f)) == {};
  }

  lemma MarksOn(l: Layout, f: Fs, g: Fs, h: Fs, a: set<nat>, b: set<nat>, c: set<nat>)
    requires Marks(l, f, g, a, b) && Marks(l, g, h, b, c)
    ensures Marks(l, f, h, a, c)
  {
    hide FreeBlocks;
    assert TakenFrom(l, h, f) == TakenFrom(l, g, f) + TakenFrom(l, h, g);
    assert Maps(l, TakenFrom(l, h, f)) == Maps(l, TakenFrom(l, g, f)) + Maps(l, TakenFrom(l, h, g));
    forall x: nat | x in f.blocks && h.blocks[x] != f.blocks[x] ensures x in Maps(l, TakenFrom(l, h, f)) {
      assert g.blocks[x] != f.blocks[x] || h.blocks[x] != g.blocks[x];
    }
  }

  /** The inodes do not matter for what is free. */
  lemma MarksSame(l: Layout, f: Fs, g: Fs, h: Fs, a: set<nat>, b: set<nat>)
    requires Marks(l, f, g, a, b) && h.blocks == g.blocks && Shape(l, h)
    ensures Marks(l, f, h, a, b) && FreeBlocks(l, h) == FreeBlocks(l, g)
  {
    SameFree(l, g, h);
  }

  lemma FreeMarks(l: Layout, f: Fs, b: nat, logged: set<nat>)
    requires Shape(l, f) && b < l.size && Bit(l, f, b) && MapBlock(l, b) < l.datastart
    ensures Shape(l, Unmarked(l, f, b)) && Marks(l, f, Unmarked(l, f, b), logged, logged + {MapBlock(l, b)})
  {
    var g := Unmarked(l, f, b);
    forall c: nat | c < l.size ensures Bit(l, g, c) <==> Bit(l, f, c) && c != b {
      assert MapBlock(l, c) < l.datastart;
      BitsApart(l, f, g, b, c, false);
    }
    assert TakenFrom(l, g, f) == {b};
    assert Maps(l, {b}) == {MapBlock(l, b)};
  }

  /** bfree; false is the panic for a block that is free already. */
  method Bfree(fs: Disk, b: nat) returns (ok: bool)
    requires Shape(fs.l, fs.S()) && b < fs.l.size
    modifies fs`blocks, fs`logged
    ensures ok <==> old(Bit(fs.l, fs.S(), b))
    ensures fs.S() == if ok then Unmarked(fs.l, old(fs.S()), b) else old(fs.S())
    ensures ok ==> Marks(fs.l, old(fs.S()), fs.S(), old(fs.logged), fs.logged)
  {
    hide Marks;
    assert MapBlock(fs.l, b) < fs.l.datastart;
    var bm: nat := fs.l.bmapstart + b / BPB;
    var bi := b % BPB;
    if fs.blocks[bm][bi / 8] & Mask(bi % 8) == 0 { return false; }
    FreeMarks(fs.l, fs.S(), b, fs.logged);
    fs.blocks := fs.blocks[bm := ClearBit(fs.blocks[bm], bi)];
    fs.logged := fs.logged + {bm};
    return true;
  }

  /** The loop over the direct blocks. */
  method TruncDirect(fs: Disk, i: nat)
    requires Inv(fs.l, fs.S(), fs.use) && i in fs.inodes && i in fs.use
    modifies fs`blocks, fs`inodes, fs`use, fs`logged
    ensures Emptied(fs.l, old(fs.S()), fs.S(), old(fs.use), fs.use, i, First(NDIRECT))
    ensures Marks(fs.l, old(fs.S()), fs.S(), old(fs.logged), fs.logged)
  {
    hide At, InvBut, Marks, Bit, FreeBlocks, Shape, Unmarked, Changed;
    ghost var f := fs.S();
    InvShape(fs.l, f, fs.use, 0);
    MarksNone(fs.l, f, fs.logged);
    EmptyStart(fs.l, f, fs.use, i);
    var k := 0;
    while k < NDIRECT
      invariant 0 <= k <= NDIRECT && Emptied(fs.l, f, fs.S(), old(fs.use), fs.use, i, First(k))
      invariant Marks(fs.l, f, fs.S(), old(fs.logged), fs.logged)
    {
      hide Emptied;
      EmptyFacts(fs.l, f, fs.S(), old(fs.use), fs.use, i, First(k), k);
      var b := fs.inodes[i].addrs[k];
      if b != 0 {
        EmptyOne(fs.l, f, fs.S(), old(fs.use), fs.use, i, First(k), k);
        ghost var g, was := fs.S(), fs.logged;
        var ok := Bfree(fs, b);
        assert ok;
        ghost var h := fs.S();
        fs.inodes := fs.inodes[i := fs.inodes[i].(addrs := fs.inodes[i].addrs[k := 0])];
        fs.use := fs.use[i := fs.use[i] - {k}];
        assert fs.S() == Dropped(fs.l, g, i, k);
        MarksOn(fs.l, f, g, h, old(fs.logged), was, fs.logged);
        EmptyFacts(fs.l, f, fs.S(), old(fs.use), fs.use, i, First(k) + {k}, 0);
        MarksSame(fs.l, f, h, fs.S(), old(fs.logged), fs.logged);
      } else {
        EmptySkip(fs.l, f, fs.S(), old(fs.use), fs.use, i, First(k), k);
      }
      assert First(k) + {k} == First(k + 1);
      k := k + 1;
    }
  }

  predicate Under(n: nat, k: nat) { k < n }

  /** The first `n` slots. */
  function First(n: nat): set<nat> { set k: nat | k < n && Under(n, k) }

  lemma EmptyStart(l: Layout, f: Fs, use: map<nat, set<nat>>, i: nat)
    requires Inv(l, f, use) && i in f.inodes && i in use
    ensures Emptied(l, f, f, use, use, i, First(0))
  {
    KeptSelf(l, f, use);
    OthersSelf(f, i);
    assert use[i] - First(0) == use[i];
    assert use[i := use[i]] == use;
    assert BlocksIn(f, i, First(0)) == {};
    forall k: nat ensures SlotKept(f, f, i, First(0), k) {}
  }

  lemma EmptyFacts(l: Layout, f: Fs, g: Fs, use0: map<nat, set<nat>>, use: map<nat, set<nat>>, i: nat,
          done: set<nat>, k: nat)
    requires Emptied(l, f, g, use0, use, i, done)
    ensures Inv(l, g, use) && Shape(l, g) && i in g.inodes && i in use && i in use0 && use == use0[i := use0[i] - done]
    ensures k <= NDIRECT ==> At(g, i, k) == g.inodes[i].addrs[k]
  {}

  /** The loop over the entries of the indirect block. `g` is the disk as it would be were they emptied as well. */
  method TruncEntries(fs: Disk, i: nat, t: nat, ghost f: Fs, ghost use0: map<nat, set<nat>>) returns (ghost g: Fs)
    requires Emptied(fs.l, f, fs.S(), use0, fs.use, i, First(NDIRECT)) && i in fs.inodes
      && fs.inodes[i].addrs[NDIRECT] == t != 0
    modifies fs`blocks, fs`use, fs`logged
    ensures Emptied(fs.l, f, g, use0, fs.use, i, First(NSLOTS) - {NDIRECT}) && Twins(fs.S(), g, t)
    ensures fs.inodes == old(fs.inodes) && Marks(fs.l, old(fs.S()), fs.S(), old(fs.logged), fs.logged)
  {
    hide At, InvBut, Marks;
    g := fs.S();
    EmptyFacts(fs.l, f, g, use0, fs.use, i, First(NDIRECT), 0);
    MarksNone(fs.l, g, fs.logged);
    ghost var s, s0 := g, fs.use;
    TwinStart(g, t, fs.l, f, use0, fs.use, i);
    var j := 0;
    while j < NINDIRECT
      invariant 0 <= j <= NINDIRECT && Emptied(fs.l, f, g, use0, fs.use, i, Before(j)) && Twins(fs.S(), g, t)
      invariant fs.inodes == old(fs.inodes) && t in fs.blocks && fs.blocks[t] == old(fs.blocks)[t]
      invariant Marks(fs.l, s, fs.S(), old(fs.logged), fs.logged)
    {
      hide Emptied;
      hide Twins;
      ghost var was, before := fs.S(), fs.logged;
      g := TruncEntry(fs, i, t, f, use0, s, s0, g, j);
      MarksOn(fs.l, s, was, fs.S(), old(fs.logged), before, fs.logged);
      j := j + 1;
    }
    assert Before(NINDIRECT) == First(NSLOTS) - {NDIRECT};
  }

  method TruncEntry(fs: Disk, i: nat, t: nat, ghost f: Fs, ghost use0: map<nat, set<nat>>, ghost s: Fs,
          ghost s0: map<nat, set<nat>>, ghost g: Fs, j: nat)
    returns (ghost h: Fs)
    requires Emptied(fs.l, f, s, use0, s0, i, First(NDIRECT)) && i in s.inodes && s.inodes[i].addrs[NDIRECT] == t != 0
      && t in s.blocks
    requires j < NINDIRECT && Emptied(fs.l, f, g, use0, fs.use, i, Before(j)) && Twins(fs.S(), g, t)
    requires fs.inodes == s.inodes && t in fs.blocks && fs.blocks[t] == s.blocks[t]
    modifies fs`blocks, fs`use, fs`logged
    ensures Emptied(fs.l, f, h, use0, fs.use, i, Before(j + 1)) && Twins(fs.S(), h, t) && t in fs.blocks
      && fs.blocks[t] == s.blocks[t]
    ensures Marks(fs.l, old(fs.S()), fs.S(), old(fs.logged), fs.logged)
  {
    hide PutWord, Dropped, Unmarked, BlocksIn, At, InvBut, Emptied, Twins, Word, Marks;
    EntryFacts(fs.l, f, s, fs.S(), g, use0, s0, fs.use, i, t, j);
    var b := Word(fs.blocks[t], j);
    assert Before(j) + {NDIRECT + 1 + j} == Before(j + 1);
    if b != 0 {
      EmptyOne(fs.l, f, g, use0, fs.use, i, Before(j), NDIRECT + 1 + j);
      TwinBit(fs.l, fs.S(), g, t, b);
      TwinDrop(fs.l, fs.S(), g, fs.use, i, NDIRECT + 1 + j, t);
      assert MapBlock(fs.l, b) < fs.l.datastart;
      var ok := Bfree(fs, b);
      assert ok;
      h := Dropped(fs.l, g, i, NDIRECT + 1 + j);
      fs.use := fs.use[i := fs.use[i] - {NDIRECT + 1 + j}];
    } else {
      EmptySkip(fs.l, f, g, use0, fs.use, i, Before(j), NDIRECT + 1 + j);
      MarksNone(fs.l, fs.S(), fs.logged);
      h := g;
    }
  }

  /** The direct slots and the first `j` entries. */
  function Before(j: nat): set<nat> { First(NDIRECT + 1 + j) - {NDIRECT} }

  lemma TwinStart(g: Fs, t: nat, l: Layout, f: Fs, use0: map<nat, set<nat>>, use: map<nat, set<nat>>, i: nat)
    requires Emptied(l, f, g, use0, use, i, First(NDIRECT)) && i in g.inodes && g.inodes[i].addrs[NDIRECT] == t != 0
    ensures t in g.blocks && Twins(g, g, t) && Before(0) == First(NDIRECT) && l.datastart <= t < l.size
  {
    assert SlotOk(l, g, use, i, NDIRECT);
    assert g.blocks[t := g.blocks[t]] == g.blocks;
  }

  lemma EntryFacts(l: Layout, f: Fs, s: Fs, h: Fs, g: Fs, use0: map<nat, set<nat>>, s0: map<nat, set<nat>>,
          use: map<nat, set<nat>>, i: nat, t: nat, j: nat)
    requires Emptied(l, f, s, use0, s0, i, First(NDIRECT)) && Emptied(l, f, g, use0, use, i, Before(j)) && j < NINDIRECT
    requires Twins(h, g, t) && h.inodes == s.inodes && t in s.blocks && h.blocks[t] == s.blocks[t]
    requires i in s.inodes && s.inodes[i].addrs[NDIRECT] == t != 0
    ensures Shape(l, h) && Shape(l, g) && Inv(l, g, use) && i in g.inodes && i in use && NDIRECT in use[i]
      && l.datastart <= t < l.size
    ensures NDIRECT + 1 + j !in Before(j) && g.inodes == h.inodes
    ensures Word(h.blocks[t], j) == At(g, i, NDIRECT + 1 + j)
  {
    var k := NDIRECT + 1 + j;
    assert SlotKept(f, s, i, First(NDIRECT), k) && SlotKept(f, g, i, Before(j), k);
    assert SlotOk(l, g, use, i, NDIRECT) && SlotOk(l, s, s0, i, NDIRECT);
  }

  lemma TwinBit(l: Layout, f: Fs, g: Fs, t: nat, b: nat)
    requires Twins(f, g, t) && Shape(l, f) && Shape(l, g) && l.datastart <= t && b < l.size
    ensures Bit(l, f, b) == Bit(l, g, b)
  {
    assert MapBlock(l, b) < l.datastart;
  }

  /** itrunc: exactly the blocks of inode `i` become free, and no other inode changes. That every block freed is in use,
      so that bfree never panics, and is freed only once, is part of the proof. */
  method Itrunc(fs: Disk, i: nat)
    requires fs.Valid() && i in fs.inodes
    modifies fs`blocks, fs`inodes, fs`dinodes, fs`use, fs`logged
    ensures fs.Valid() && Sized(old(fs.S()), fs.S(), i, 0) && fs.inodes[i].addrs == seq(NDIRECT + 1, x => 0)
    ensures OtherFiles(old(fs.S()), fs.S(), i)
    ensures Shape(fs.l, old(fs.S())) && Shape(fs.l, fs.S())
    ensures FreeBlocks(fs.l, fs.S()) == FreeBlocks(fs.l, old(fs.S())) + BlocksIn(old(fs.S()), i, First(NSLOTS))
    // exactly the blocks of the free map that say so, and the inode, are logged, and they cover all that changed
    ensures fs.logged ==
      old(fs.logged) + Maps(fs.l, TakenFrom(fs.l, fs.S(), old(fs.S()))) + {InodeBlock(fs.inodestart, i)}
    ensures Covered(fs.inodestart, Op(old(fs.OnDisk()), fs.OnDisk(), fs.logged))
  {
    hide InvBut, Emptied, OtherFiles, Marks, Covered, FreeBlocks;
    ghost var f, use0, d0 := fs.S(), fs.use, fs.OnDisk();
    assert UseOk(fs.inodes, fs.use, i);
    hide AllSized;
    TruncDirect(fs, i);
    ghost var s, was := fs.S(), fs.logged;
    EmptyFacts(fs.l, f, s, use0, fs.use, i, First(NDIRECT), 0);
    TruncTable(fs, i, f, use0);
    MarksOn(fs.l, f, s, fs.S(), old(fs.logged), was, fs.logged);
    EmptyAll(fs.l, f, fs.S(), use0, fs.use, i);
    ghost var g, before := fs.S(), fs.logged;
    fs.inodes := fs.inodes[i := fs.inodes[i].(size := 0)];
    fs.Iupdate(i);
    MarksSame(fs.l, f, g, fs.S(), old(fs.logged), before);
    MarksCover(fs.l, fs.inodestart, f, fs.S(), i, old(fs.logged), before);
  }

  /** itrunc as an operation of its own. It is sure to stay within its quota on a disk of at most nine blocks of free
      map. */
  method Discard(fs: Disk, i: nat)
    requires fs.Valid() && i in fs.inodes
    modifies fs
    ensures fs.Valid() && Sized(old(fs.S()), fs.S(), i, 0) && OtherFiles(old(fs.S()), fs.S(), i)
    ensures |fs.history| == |old(fs.history)| + 1 && fs.history[..|old(fs.history)|] == old(fs.history)
    ensures var op := fs.history[|old(fs.history)|];
      && op.before == old(fs.OnDisk()) && op.after == fs.OnDisk()
      && op.logged == Maps(fs.l, BlocksIn(old(fs.S()), i, First(NSLOTS))) + {InodeBlock(fs.inodestart, i)}
      && (OpOk(fs.l, fs.inodestart, op) <==> |op.logged| <= RedoLog.MAXOPBLOCKS)
      && (fs.l.size <= 9 * BPB ==> |op.logged| <= RedoLog.MAXOPBLOCKS)
  {
    hide InvBut, AllSized, OtherFiles, Covered, FreeBlocks, Placed, Maps, BlocksIn;
    InvShape(fs.l, fs.S(), fs.use, 0);
    NotFree(fs.l, fs.S(), fs.use, i);
    hide Shape;
    fs.BeginOp();
    Itrunc(fs, i);
    ghost var maps := Maps(fs.l, TakenFrom(fs.l, fs.S(), old(fs.S())));
    assert {} + maps == maps;
    assert TakenFrom(fs.l, fs.S(), old(fs.S())) == BlocksIn(old(fs.S()), i, First(NSLOTS));
    MapsFew(fs.l, fs.S(), old(fs.S()));
    forall b | b in maps ensures Placed(fs.l, fs.inodestart, fs.S(), b) {
      FreedPlaced(fs.l, fs.inodestart, fs.S(), old(fs.S()), b);
    }
    InodePlaced(fs.l, fs.inodestart, fs.S(), i);
    fs.EndOp();
  }

  /** The blocks of an inode are not free. */
  lemma NotFree(l: Layout, f: Fs, use: map<nat, set<nat>>, i: nat)
    requires Inv(l, f, use) && Shape(l, f) && i in f.inodes
    ensures BlocksIn(f, i, First(NSLOTS)) !! FreeBlocks(l, f)
  {
    hide At;
    forall b | b in BlocksIn(f, i, First(NSLOTS)) ensures b !in FreeBlocks(l, f) {
      var k :| k in First(NSLOTS) && k < NSLOTS && At(f, i, k) == b && b != 0;
      assert Owns(f, i, k, b);
      assert Owned(f, b) && BitOk(l, f, 0, b);
    }
  }

  lemma FreedPlaced(l: Layout, inodestart: nat, f: Fs, g: Fs, b: nat)
    requires Shape(l, f) && Shape(l, g) && b in Maps(l, TakenFrom(l, f, g))
    ensures Placed(l, inodestart, f, b)
  {}

  /** The free map has a block for every BPB blocks of the disk. */
  lemma MapsFew(l: Layout, f: Fs, g: Fs)
    requires Shape(l, f) && Shape(l, g)
    ensures |Maps(l, TakenFrom(l, f, g))| <= (l.size + BPB - 1) / BPB
  {
    var hi := l.bmapstart + (l.size + BPB - 1) / BPB;
    RangeSize(l.bmapstart, hi);
    forall b | b in Maps(l, TakenFrom(l, f, g)) ensures b in Range(l.bmapstart, hi) {}
    SubsetSize(Maps(l, TakenFrom(l, f, g)), Range(l.bmapstart, hi));
  }

  lemma MarksCover(l: Layout, inodestart: nat, f: Fs, g: Fs, i: nat, before: set<nat>, after: set<nat>)
    requires Marks(l, f, g, before, after) && i in f.inodes && i in g.inodes && g.inodes == f.inodes[i := g.inodes[i]]
    ensures Shape(l, f) && Shape(l, g)
      && after + {InodeBlock(inodestart, i)} == before + Maps(l, TakenFrom(l, g, f)) + {InodeBlock(inodestart, i)}
    ensures Covered(inodestart, Op(f, g, after + {InodeBlock(inodestart, i)}))
  {
    hide FreeBlocks;
  }

  /** The part of itrunc about the indirect block. */
  method TruncTable(fs: Disk, i: nat, ghost f: Fs, ghost use0: map<nat, set<nat>>)
    requires Emptied(fs.l, f, fs.S(), use0, fs.use, i, First(NDIRECT)) && i in fs.inodes
    requires i in use0 && forall e :: e in use0[i] ==> e < NSLOTS
    modifies fs`blocks, fs`inodes, fs`use, fs`logged
    ensures Emptied(fs.l, f, fs.S(), use0, fs.use, i, First(NSLOTS))
    ensures Marks(fs.l, old(fs.S()), fs.S(), old(fs.logged), fs.logged)
  {
    hide At, InvBut, Emptied, Marks;
    EmptyFacts(fs.l, f, fs.S(), use0, fs.use, i, First(NDIRECT), NDIRECT);
    MarksNone(fs.l, fs.S(), fs.logged);
    var t := fs.inodes[i].addrs[NDIRECT];
    if t == 0 {
      NoEntries(fs.l, f, fs.S(), use0, fs.use, i);
      return;
    }
    ghost var g := TruncEntries(fs, i, t, f, use0);
    TableFacts(fs.l, f, fs.S(), g, use0, fs.use, i, t);
    ghost var s, was := fs.S(), fs.logged;
    var ok := Bfree(fs, t);
    assert ok;
    ghost var h := fs.S();
    MarksOn(fs.l, old(fs.S()), s, h, old(fs.logged), was, fs.logged);
    fs.inodes := fs.inodes[i := fs.inodes[i].(addrs := fs.inodes[i].addrs[NDIRECT := 0])];
    fs.use := fs.use[i := fs.use[i] - {NDIRECT}];
    assert fs.S() == Dropped(fs.l, s, i, NDIRECT);
    EmptyFacts(fs.l, f, fs.S(), use0, fs.use, i, First(NSLOTS), 0);
    MarksSame(fs.l, old(fs.S()), h, fs.S(), old(fs.logged), fs.logged);
  }

  /** With no indirect block there is nothing more to empty. */
  lemma NoEntries(l: Layout, f: Fs, g: Fs, use0: map<nat, set<nat>>, use: map<nat, set<nat>>, i: nat)
    requires Emptied(l, f, g, use0, use, i, First(NDIRECT)) && i in g.inodes && g.inodes[i].addrs[NDIRECT] == 0
    ensures Emptied(l, f, g, use0, use, i, First(NSLOTS))
  {
    hide Word;
    hide PutWord;
    forall k: nat ensures SlotKept(f, g, i, First(NSLOTS), k) {}
    forall k: nat | NDIRECT <= k < NSLOTS ensures At(f, i, k) == 0 && k !in use[i] {
      assert SlotKept(f, g, i, First(NDIRECT), k) && SlotOk(l, g, use, i, k);
    }
    hide At;
    assert BlocksIn(f, i, First(NSLOTS)) == BlocksIn(f, i, First(NDIRECT));
    assert use[i] == use0[i] - First(NDIRECT);
    assert forall k :: k in use[i] ==> k !in First(NSLOTS);
    assert use0[i] - First(NSLOTS) == use0[i] - First(NDIRECT);
  }

  lemma TableFacts(l: Layout, f: Fs, s: Fs, g: Fs, use0: map<nat, set<nat>>, use: map<nat, set<nat>>, i: nat, t: nat)
    requires Emptied(l, f, g, use0, use, i, First(NSLOTS) - {NDIRECT}) && Twins(s, g, t)
    requires i in s.inodes && s.inodes[i].addrs[NDIRECT] == t != 0 && forall e :: e in use0[i] ==> e < NSLOTS
    ensures Shape(l, s) && i in use && l.datastart <= t < l.size && At(s, i, NDIRECT) == t && Bit(l, s, t)
    ensures Emptied(l, f, Dropped(l, s, i, NDIRECT), use0, use[i := use[i] - {NDIRECT}], i, First(NSLOTS))
  {
    hide Word, Bit, BlocksIn;
    hide PutWord;
    var done := First(NSLOTS) - {NDIRECT};
    assert SlotOk(l, g, use, i, NDIRECT);
    assert forall e: nat :: e in use[i] ==> e < NSLOTS && e !in done;
    assert forall e: nat :: NDIRECT < e < NSLOTS ==> e in done;
    EmptyOne(l, f, g, use0, use, i, done, NDIRECT);
    TwinTable(l, s, g, i, t);
    TwinBit(l, s, g, t, t);
    var h, use' := Dropped(l, g, i, NDIRECT), use[i := use[i] - {NDIRECT}];
    DroppedFree(l, g, use, i, NDIRECT);
    assert t in FreeBlocks(l, h) && BitOk(l, h, 0, t);
    TwinsAlike(l, f, Dropped(l, s, i, NDIRECT), h, use0, use', i, done + {NDIRECT}, t);
    assert done + {NDIRECT} == First(NSLOTS);
  }

  /** All slots empty: what the end of itrunc makes of it. */
  lemma EmptyAll(l: Layout, f: Fs, g: Fs, use0: map<nat, set<nat>>, use: map<nat, set<nat>>, i: nat)
    requires Emptied(l, f, g, use0, use, i, First(NSLOTS)) && AllSized(f.inodes, use0)
    ensures i in g.inodes && Inv(l, WithSize(g, i, 0), use) && AllSized(WithSize(g, i, 0).inodes, use)
    ensures Sized(f, WithSize(g, i, 0), i, 0) && WithSize(g, i, 0).inodes[i].addrs == seq(NDIRECT + 1, x => 0)
    ensures OtherFiles(f, WithSize(g, i, 0), i)
    ensures Shape(l, f) && Shape(l, WithSize(g, i, 0))
    ensures FreeBlocks(l, WithSize(g, i, 0)) == FreeBlocks(l, f) + BlocksIn(f, i, First(NSLOTS))
  {
    hide Word;
    hide PutWord;
    var h := WithSize(g, i, 0);
    WithSizeInv(l, g, use, i, 0);
    SameFree(l, g, h);
    assert UseOk(f.inodes, use0, i);
    assert use[i] == {};
    assert SlotsOf(Blocks(0)) == {};
    forall j: nat ensures UseOk(h.inodes, use, j) { assert UseOk(f.inodes, use0, j); }
    forall k: nat | k <= NDIRECT ensures h.inodes[i].addrs[k] == 0 { assert SlotOk(l, g, use, i, k); }
    assert h.inodes[i].addrs == seq(NDIRECT + 1, x => 0);
    forall j: nat | j != i ensures SameContents(f, h, j) {
      if Whole(f, j) {
        forall k: nat ensures DataKept(f, h, j, k) { assert DataKept(f, g, j, k) && DataKept(g, h, j, k); }
        SameFile(f, h, j);
      }
    }
  }
}
