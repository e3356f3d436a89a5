/** The file system over the log: what the disk holds of the files, also after a crash. */
module Journal {
  import opened Common
  import opened Bytes
  import opened Inodes
  import opened Contents
  import opened FileSystem
  import RedoLog
  import History
  import Logging
  import BufferCache
  import Buffers
  import Pins
  import Admission

  /** Where things are: the log, then the inodes, then the free map and the data. */
  datatype Geometry = Geometry(ll: RedoLog.LogLayout, l: Layout, inodestart: nat, ninodes: nat)

  predicate Laid(g: Geometry) {
    && g.ll.nblocks == g.l.size && g.ll.size > RedoLog.MAXOPBLOCKS + 1 && g.ll.start + g.ll.size <= g.inodestart
    && g.inodestart + g.ninodes / 8 < g.l.bmapstart && g.l.bmapstart + (g.l.size + BPB - 1) / BPB <= g.l.datastart
    && g.l.datastart <= g.l.size
  }

  predicate HoldsInodes(g: Geometry, b: nat) { g.inodestart <= b <= g.inodestart + g.ninodes / 8 }

  /** The sixteen words of an inode on the disk. */
  function InodeWords(f: Fs, i: nat): (w: seq<int>)
    ensures |w| == 16
  {
    if i in f.inodes && |f.inodes[i].addrs| == NDIRECT + 1 then
      var x := f.inodes[i];
      [x.kind, x.links, x.size] + seq(NDIRECT + 1, k requires 0 <= k <= NDIRECT => x.addrs[k])
    else seq(16, k => 0)
  }

  /** A block of eight inodes, the first of them number `i`. */
  function Packed(f: Fs, i: nat): seq<int> { seq(128, w requires 0 <= w < 128 => InodeWords(f, i + w / 16)[w % 16]) }

  function Words(b: Block): seq<int> { seq(128, w requires 0 <= w < 128 => Word(b, w)) }

  /** What block `b` of the disk holds of the file system. */
  function Encoded(g: Geometry, f: Fs, b: nat): (r: seq<int>)
    ensures |r| == RedoLog.NWORDS
  {
    if HoldsInodes(g, b) then Packed(f, (b - g.inodestart) * 8)
    else if b in f.blocks then Words(f.blocks[b])
    else seq(128, w => 0)
  }

  ghost predicate ShowsAt(g: Geometry, f: Fs, m: RedoLog.Image, b: nat) {
    RedoLog.IsHome(g.ll, b) ==> b in m && m[b] == Encoded(g, f, b)
  }

  /** Outside the log, the disk holds file system `f`. */
  ghost predicate Shows(g: Geometry, f: Fs, m: RedoLog.Image) { forall b: nat :: ShowsAt(g, f, m, b) }

  // ----- One operation -----

  /** A file system for this disk. */
  ghost predicate Suits(g: Geometry, f: Fs) { Shape(g.l, f) && forall i :: i in f.inodes ==> i < g.ninodes }

  /** What an operation did not log is as before. */
  lemma Unlogged(g: Geometry, op: Op, b: nat)
    requires Covered(g.inodestart, op) && b !in op.logged
    ensures Encoded(g, op.before, b) == Encoded(g, op.after, b)
  {
    if HoldsInodes(g, b) {
      var i := (b - g.inodestart) * 8;
      forall w | 0 <= w < 128 ensures InodeWords(op.before, i + w / 16) == InodeWords(op.after, i + w / 16) {
        assert InodeBlock(g.inodestart, i + w / 16) == b;
      }
    }
  }

  lemma PlacedHome(g: Geometry, f: Fs, b: nat)
    requires Laid(g) && Suits(g, f) && Placed(g.l, g.inodestart, f, b)
    ensures RedoLog.IsHome(g.ll, b)
  {}

  /** Of the blocks in `done` the new contents are seen, of all others the old. */
  ghost predicate Partly(g: Geometry, op: Op, done: set<nat>, m: RedoLog.Image) {
    forall b: nat :: ShowsAt(g, if b in done then op.after else op.before, m, b)
  }

  lemma PartlyNone(g: Geometry, op: Op, m: RedoLog.Image)
    requires Shows(g, op.before, m)
    ensures Partly(g, op, {}, m)
  {
    hide ShowsAt;
    forall b: nat ensures ShowsAt(g, op.before, m, b) {}
  }

  lemma PartlyMore(g: Geometry, op: Op, done: set<nat>, m: RedoLog.Image, b: nat)
    requires Partly(g, op, done, m)
    ensures Partly(g, op, done + {b}, m[b := Encoded(g, op.after, b)])
  {
    hide Encoded;
    var m' := m[b := Encoded(g, op.after, b)];
    forall x: nat ensures ShowsAt(g, if x in done + {b} then op.after else op.before, m', x) {
      assert ShowsAt(g, if x in done then op.after else op.before, m, x);
    }
  }

  lemma PartlyAll(g: Geometry, op: Op, m: RedoLog.Image)
    requires Covered(g.inodestart, op) && Partly(g, op, op.logged, m)
    ensures Shows(g, op.after, m)
  {
    hide Encoded, Covered;
    forall b: nat ensures ShowsAt(g, op.after, m, b) {
      assert ShowsAt(g, if b in op.logged then op.after else op.before, m, b);
      if b !in op.logged { Unlogged(g, op, b); }
    }
  }

  lemma ShowsSame(g: Geometry, f: Fs, m: RedoLog.Image, n: RedoLog.Image)
    requires Shows(g, f, m) && RedoLog.SameHomes(g.ll, n, m)
    ensures Shows(g, f, n)
  {
    hide Encoded;
    forall b: nat ensures ShowsAt(g, f, n, b) { assert ShowsAt(g, f, m, b) && RedoLog.SameHome(g.ll, n, m, b); }
  }

  /** Nothing is running, nothing waits to be committed, and nobody holds a buffer. */
  ghost predicate Idle(log: Logging.Log)
    reads log, log.c
  {
    log.Valid() && log.lh == [] && log.ops == [] && !log.committing && Pins.Busy(log.c.bufs) == {}
  }

  lemma IdleKept(log: Logging.Log)
    requires Idle(log)
    ensures History.Kept(log.l, log.c.images, log.c.disk, log.commits, log.story)
  {}

  /** The log_writes of an operation: every block it logged, with its contents at the end. */
  method WriteAll(log: Logging.Log, g: Geometry, op: Op)
    requires Laid(g) && log.l == g.ll && log.Valid() && log.lh == [] && log.ops == [{}] && !log.committing
    requires Pins.Busy(log.c.bufs) == {}
    requires OpOk(g.l, g.inodestart, op) && Suits(g, op.after) && Shows(g, op.before, log.c.Sees())
    modifies log, log.c
    ensures log.Valid() && |log.lh| == |op.logged| && |log.ops| == 1 && !log.committing && Pins.Busy(log.c.bufs) == {}
    ensures Shows(g, op.after, log.c.Sees())
    ensures log.commits == old(log.commits) && log.story == old(log.story) && log.c.images == old(log.c.images)
  {
    hide Shows, Partly, Encoded, Covered, Placed, Shape;
    hide RedoLog.GoodHead, History.Kept, Admission.Admitted, Buffers.View, Buffers.Sane, Pins.Pinned, Logging.Readers;
    var rest := op.logged;
    PartlyNone(g, op, log.c.Sees());
    assert op.logged - rest == {};
    while rest != {}
      invariant rest <= op.logged && log.Valid() && !log.committing && log.ops == [op.logged - rest]
      invariant Pins.Busy(log.c.bufs) == {}
      invariant |log.lh| == |op.logged| - |rest| && forall b :: b in log.lh ==> b in op.logged - rest
      invariant Partly(g, op, op.logged - rest, log.c.Sees())
      invariant log.commits == old(log.commits) && log.story == old(log.story) && log.c.images == old(log.c.images)
    {
      var b :| b in rest;
      PlacedHome(g, op.after, b);
      PartlyMore(g, op, op.logged - rest, log.c.Sees(), b);
      Within(op.logged, rest, b);
      Logging.Nobody(log.c.bufs, b);
      var ok := log.Write(0, b, Encoded(g, op.after, b));
      rest := rest - {b};
    }
    assert op.logged - {} == op.logged;
    PartlyAll(g, op, log.c.Sees());
  }

  lemma Within(all: set<nat>, rest: set<nat>, b: nat)
    requires rest <= all && b in rest
    ensures all - rest + {b} == all - (rest - {b}) && |all - rest + {b}| <= |all| && |rest| <= |all|
  {
    assert all == (all - rest) + rest;
    assert all == (all - (rest - {b})) + (rest - {b});
  }

  /** end_op of the only operation, with its commit. */
  method Finish(log: Logging.Log)
    requires log.Valid() && |log.ops| == 1 && !log.committing && |log.lh| < Buffers.NBUF && Pins.Busy(log.c.bufs) == {}
    modifies log, log.c
    ensures Idle(log) && RedoLog.SameHomes(log.l, log.c.Sees(), old(log.c.Sees()))
    ensures log.commits == old(log.commits) + if old(log.lh) == [] then [] else [old(log.c.Sees())]
    ensures old(log.story) <= log.story && old(log.c.images) <= log.c.images
  {
    hide RedoLog.GoodHead, History.Kept, Admission.Admitted, Buffers.View, Buffers.Sane, Pins.Pinned,
      Logging.Readers, RedoLog.SameHomes, RedoLog.CommitShots, History.Repeat;
    var ok := log.EndOp(0);
    Logging.Nobody(log.c.bufs, 0);
    ok := log.Commit();
    log.Done();
  }

  lemma NothingLogged(g: Geometry, op: Op, m: RedoLog.Image)
    requires Covered(g.inodestart, op) && op.logged == {} && Shows(g, op.before, m)
    ensures Shows(g, op.after, m)
  {
    PartlyNone(g, op, m);
    PartlyAll(g, op, m);
  }

  /** A whole operation, from begin_op to the commit in end_op. */
  method Perform(log: Logging.Log, g: Geometry, op: Op)
    requires Laid(g) && log.l == g.ll && Idle(log)
    requires OpOk(g.l, g.inodestart, op) && Suits(g, op.after) && Shows(g, op.before, log.c.Sees())
    requires log.commits != [] && Shows(g, op.before, log.commits[|log.commits| - 1])
    modifies log, log.c
    ensures Idle(log) && Shows(g, op.after, log.c.Sees())
    ensures old(log.commits) <= log.commits && |log.commits| == |old(log.commits)| + if op.logged == {} then 0 else 1
    ensures Shows(g, op.after, log.commits[|log.commits| - 1])
    ensures old(log.story) <= log.story && old(log.c.images) <= log.c.images
  {
    hide Shows, Encoded, Covered, Placed, Shape, Laid, Suits;
    hide RedoLog.GoodHead, History.Kept, Admission.Admitted, Buffers.View, Buffers.Sane, Pins.Pinned,
      Logging.Readers, RedoLog.SameHomes;
    if op.logged == {} { NothingLogged(g, op, log.commits[|log.commits| - 1]); }
    var ok := log.BeginOp();
    WriteAll(log, g, op);
    ghost var view := log.c.Sees();
    Finish(log);
    ShowsSame(g, op.after, view, log.c.Sees());
  }

  // ----- Any number of operations -----

  /** The file system after the first `n` operations. */
  ghost function State(d0: Fs, h: seq<Op>, n: nat): Fs
    requires n <= |h|
  {
    if n == 0 then d0 else h[n - 1].after
  }

  ghost predicate CommitOk(g: Geometry, d0: Fs, h: seq<Op>, commits: seq<RedoLog.Image>, at: seq<nat>, j: nat) {
    j < |at| ==> at[j] <= |h| && j < |commits| && Shows(g, State(d0, h, at[j]), commits[j])
  }

  /** Every committed state is the file system after some of the operations; `at` says after how many. */
  ghost predicate Recorded(g: Geometry, d0: Fs, h: seq<Op>, commits: seq<RedoLog.Image>, at: seq<nat>) {
    && |at| == |commits| && (forall j: nat :: CommitOk(g, d0, h, commits, at, j))
    && (forall i, j :: 0 <= i < j < |at| ==> at[i] <= at[j])
  }

  /** These are the states that the log recovers to. */
  ghost predicate Told(log: Logging.Log, g: Geometry, d0: Fs, h: seq<Op>, at: seq<nat>)
    reads log, log.c
  {
    && log.l == g.ll && History.Kept(log.l, log.c.images, log.c.disk, log.commits, log.story)
    && Recorded(g, d0, h, log.commits, at)
  }

  /** Moreover, what is seen now and the newest committed state are the file system after all of them. */
  ghost predicate Mirror(log: Logging.Log, g: Geometry, d0: Fs, h: seq<Op>, at: seq<nat>)
    reads log, log.c
  {
    && Told(log, g, d0, h, at) && Laid(g) && Idle(log)
    && Suits(g, State(d0, h, |h|)) && Shows(g, State(d0, h, |h|), log.c.Sees())
    && log.commits != [] && Shows(g, State(d0, h, |h|), log.commits[|log.commits| - 1])
  }

  /** Boot, on a disk whose log is worth file system `d0`. */
  method Boot(c: BufferCache.Cache, g: Geometry, ghost hd: seq<nat>, ghost want: RedoLog.Image, ghost d0: Fs)
    returns (log: Logging.Log)
    requires c.Valid() && Pins.Busy(c.bufs) == {} && Pins.Pinned(c.bufs) == {} && c.images == []
    requires Laid(g) && RedoLog.Worth(g.ll, c.disk, hd, want) && Suits(g, d0) && Shows(g, d0, want)
    modifies c
    ensures fresh(log) && log.c == c && Mirror(log, g, d0, [], [0])
  {
    hide Shows, Encoded, Shape;
    hide RedoLog.GoodHead, History.Kept, Admission.Admitted, Buffers.View, Buffers.Sane, Pins.Pinned,
      Logging.Readers, RedoLog.SameHomes, RedoLog.Worth;
    log := new Logging.Log(c, g.ll, hd, want);
    ShowsSame(g, d0, want, log.c.Sees());
  }

  lemma MirrorMore(g: Geometry, d0: Fs, h: seq<Op>, op: Op, commits: seq<RedoLog.Image>, at: seq<nat>, j: nat)
    requires CommitOk(g, d0, h, commits, at, j)
    ensures CommitOk(g, d0, h + [op], commits, at, j)
  {
    hide Shows;
  }

  /** One more operation. */
  method Step(log: Logging.Log, g: Geometry, ghost d0: Fs, ghost h: seq<Op>, ghost at: seq<nat>, op: Op)
    returns (ghost at': seq<nat>)
    requires Mirror(log, g, d0, h, at) && OpOk(g.l, g.inodestart, op) && op.before == State(d0, h, |h|)
    modifies log, log.c
    ensures Mirror(log, g, d0, h + [op], at') && at <= at'
    ensures old(log.story) <= log.story && old(log.c.images) <= log.c.images
  {
    hide Shows, Encoded, Placed, Shape, Idle;
    assert Suits(g, op.after) by { SuitsAfter(g, op); }
    hide Covered, Suits;
    ghost var commits := log.commits;
    Perform(log, g, op);
    IdleKept(log);
    forall j: nat ensures CommitOk(g, d0, h + [op], commits, at, j) { MirrorMore(g, d0, h, op, commits, at, j); }
    at' := if log.commits == commits then at else at + [|h| + 1];
    forall j: nat ensures CommitOk(g, d0, h + [op], log.commits, at', j) {
      assert CommitOk(g, d0, h + [op], commits, at, j);
    }
    forall j | 0 <= j < |at| ensures at[j] <= |h| { assert CommitOk(g, d0, h, commits, at, j); }
  }

  lemma SuitsAfter(g: Geometry, op: Op)
    requires OpOk(g.l, g.inodestart, op) && Suits(g, op.before)
    ensures Suits(g, op.after)
  {
    hide Shape;
  }

  /** The operations that `h` has more than `h0`, one after the other. */
  method Replay(log: Logging.Log, g: Geometry, ghost d0: Fs, h0: seq<Op>, h: seq<Op>, ghost at: seq<nat>)
    returns (ghost at': seq<nat>)
    requires Mirror(log, g, d0, h0, at) && Operated(g.l, g.inodestart, h0, h, State(d0, h0, |h0|))
    modifies log, log.c
    ensures Mirror(log, g, d0, h, at') && at <= at'
    ensures old(log.story) <= log.story && old(log.c.images) <= log.c.images
  {
    hide Mirror, OpOk;
    at' := at;
    assert h[..|h0|] == h0 && h[..|h|] == h;
    for x := |h0| to |h|
      invariant Mirror(log, g, d0, h[..x], at') && at <= at'
      invariant old(log.story) <= log.story && old(log.c.images) <= log.c.images
    {
      assert h[..x + 1] == h[..x] + [h[x]];
      at' := Step(log, g, d0, h[..x], at', h[x]);
    }
  }

  /** A file system and the log it is kept in. */
  ghost predicate Joint(fs: Disk, log: Logging.Log, g: Geometry, d0: Fs, at: seq<nat>)
    reads fs, log, log.c
  {
    && fs.Valid() && fs.l == g.l && fs.inodestart == g.inodestart
    && Mirror(log, g, d0, fs.history, at) && State(d0, fs.history, |fs.history|) == fs.OnDisk()
  }

  /** Boot: recovery, and the file system that the disk then holds. */
  method Start(c: BufferCache.Cache, g: Geometry, ghost hd: seq<nat>, ghost want: RedoLog.Image,
          blocks: map<nat, Block>, inodes: map<nat, Inode>, ghost use: map<nat, set<nat>>)
    returns (fs: Disk, log: Logging.Log)
    requires c.Valid() && Pins.Busy(c.bufs) == {} && Pins.Pinned(c.bufs) == {} && c.images == []
    requires Laid(g) && RedoLog.Worth(g.ll, c.disk, hd, want)
    requires Inv(g.l, Fs(blocks, inodes), use) && AllSized(inodes, use) && Suits(g, Fs(blocks, inodes))
    requires Shows(g, Fs(blocks, inodes), want)
    modifies c
    ensures fresh(fs) && fresh(log) && log.c == c && Joint(fs, log, g, Fs(blocks, inodes), [0])
    ensures fs.S() == Fs(blocks, inodes) && fs.history == []
  {
    hide Mirror, InvBut, AllSized, RedoLog.Worth, Shows, Suits;
    log := Boot(c, g, hd, want, Fs(blocks, inodes));
    fs := new Disk(g.l, g.inodestart, blocks, inodes, use);
  }

  lemma StateLast(g: Geometry, d0: Fs, h0: seq<Op>, h: seq<Op>)
    requires Operated(g.l, g.inodestart, h0, h, State(d0, h0, |h0|))
    ensures State(d0, h, |h|) == Last(h, h0, State(d0, h0, |h0|))
  {}

  // ----- Calls of filewrite -----

  /** The files: the contents of every inode. */
  ghost function Texts(f: Fs): map<nat, seq<Byte>> { map i | i in f.inodes && Whole(f, i) :: File(f, i) }

  datatype Call = Call(i: nat, off: nat, src: seq<Byte>)

  /** `part` written over `c` at `off`. */
  function Over(c: seq<Byte>, off: nat, part: seq<Byte>): seq<Byte> {
    if part == [] || off > |c| then c else Splice(c, off, part)
  }

  /** How many bytes of a call there is room for. */
  function Fits(t: map<nat, seq<Byte>>, c: Call): (k: nat)
    ensures k <= |c.src|
  {
    RoomStart(if c.i in t then |t[c.i]| else 0, c.off, |c.src|);
    if c.i in t then Room(|t[c.i]|, c.off, |c.src|) else 0
  }

  /** The files after the first `j` chunks of a call. */
  function Wrote(t: map<nat, seq<Byte>>, c: Call, j: nat): map<nat, seq<Byte>> {
    if c.i in t then t[c.i := Over(t[c.i], c.off, c.src[..Min(Fits(t, c), j * CHUNK)])] else t
  }

  /** How many operations a call is: its chunks, and one more that is refused if there is no room for all. */
  function Length(t: map<nat, seq<Byte>>, c: Call): nat {
    if c.i in t then Pieces(Fits(t, c)) + (if Fits(t, c) < |c.src| then 1 else 0) else 0
  }

  /** The files after the first `m` calls. */
  function After(t: map<nat, seq<Byte>>, calls: seq<Call>, m: nat): map<nat, seq<Byte>>
    requires m <= |calls|
  {
    if m == 0 then t else
    var u := After(t, calls, m - 1);
    Wrote(u, calls[m - 1], Length(u, calls[m - 1]))
  }

  /** The disk has fewer free blocks than the call needs. */
  ghost predicate RunsOut(g: Geometry, f: Fs, c: Call) {
    && Shape(g.l, f) && c.i in f.inodes
    && var size := f.inodes[c.i].size; |FreeBlocks(g.l, f)| < Cost(size, c.off, Room(size, c.off, |c.src|))
  }

  /** The operations from `a` up to `b` are the first ones of a call. */
  ghost predicate Progress(d0: Fs, h: seq<Op>, a: nat, b: nat, t: map<nat, seq<Byte>>, c: Call) {
    a <= b <= |h| && forall x: nat :: a <= x <= b ==> Texts(State(d0, h, x)) == Wrote(t, c, x - a)
  }

  ghost predicate AllWhole(f: Fs) { forall i :: i in f.inodes ==> Whole(f, i) }

  lemma TextOf(f: Fs, i: nat)
    requires AllWhole(f) && i in f.inodes
    ensures Whole(f, i) && i in Texts(f) && Texts(f)[i] == File(f, i) && |File(f, i)| == f.inodes[i].size
  {
    hide NoHoles;
  }

  lemma WholeInodes(fs: Disk)
    requires fs.Valid()
    ensures AllWhole(fs.S())
  {
    hide InvBut;
    forall i | i in fs.inodes ensures Whole(fs.S(), i) {
      assert UseOk(fs.inodes, fs.use, i);
      WholeFile(fs.l, fs.S(), fs.use, i);
    }
  }

  lemma TextsBut(f: Fs, g: Fs, i: nat)
    requires AllWhole(f) && g.inodes.Keys == f.inodes.Keys && Whole(g, i) && OtherFiles(f, g, i)
    ensures Texts(g) == Texts(f)[i := File(g, i)]
  {
    hide NoHoles, File;
    forall j | j in f.inodes && j != i ensures Whole(g, j) && File(g, j) == File(f, j) { assert SameContents(f, g, j); }
  }

  lemma ChunkedTexts(f: Fs, g: Fs, i: nat, off: nat, part: seq<Byte>)
    requires AllWhole(f) && i in f.inodes && Whole(f, i) && g.inodes.Keys == f.inodes.Keys
    requires Chunked(f, g, i, File(f, i), off, part)
    ensures Texts(g) == Texts(f)[i := Over(File(f, i), off, part)]
  {
    hide NoHoles, File, Splice, OtherFiles, Texts;
    TextsBut(f, g, i);
  }

  lemma OpKeys(g: Geometry, op: Op)
    requires OpOk(g.l, g.inodestart, op)
    ensures op.after.inodes.Keys == op.before.inodes.Keys
  {
    hide Shape, Placed;
  }

  lemma SameKeys(g: Geometry, h0: seq<Op>, h: seq<Op>, d: Fs, x: nat)
    requires Operated(g.l, g.inodestart, h0, h, d) && |h0| <= x < |h|
    ensures h[x].after.inodes.Keys == d.inodes.Keys
    decreases x
  {
    hide OpOk;
    OpKeys(g, h[x]);
    if x > |h0| {
      SameKeys(g, h0, h, d, x - 1);
      assert h[..x][x - 1] == h[x - 1];
    }
  }

  lemma PieceLimit(k: nat, room: nat, len: nat, j: nat)
    requires k <= room <= len && (k < room ==> WholePieces(k))
    requires j <= Pieces(k) + (if k == room < len then 1 else 0)
    ensures Min(k, j * CHUNK) == Min(room, j * CHUNK)
  {
    ChunkIs();
  }

  /** Filewrite stopped after `k` bytes, the operations being those of `h` that `h0` has not. */
  ghost predicate Stopped(g: Geometry, h0: seq<Op>, h: seq<Op>, f: Fs, c: Call, k: nat) {
    && Operated(g.l, g.inodestart, h0, h, f) && AllWhole(f) && c.i in f.inodes && Whole(f, c.i)
    && Stages(f, h0, h, c.i, File(f, c.i), c.off, c.src, k)
    && var room := Room(f.inodes[c.i].size, c.off, |c.src|);
      && k <= room <= |c.src| && (k < room ==> WholePieces(k))
      && |h| <= |h0| + Pieces(k) + (if k == room < |c.src| then 1 else 0)
  }

  lemma StageOf(g: Geometry, h0: seq<Op>, h: seq<Op>, f: Fs, c: Call, k: nat, x: nat)
    requires Stopped(g, h0, h, f, c, k) && |h0| <= x < |h|
    ensures AllWhole(f) && c.i in f.inodes && Whole(f, c.i) && h[x].after.inodes.Keys == f.inodes.Keys
    ensures var part := Min(Room(f.inodes[c.i].size, c.off, |c.src|), (x + 1 - |h0|) * CHUNK);
      0 <= part <= |c.src| && Chunked(f, h[x].after, c.i, File(f, c.i), c.off, c.src[..part])
  {
    hide Operated, Chunked, NoHoles, Pieces, Room, AllWhole, File;
    assert Stage(f, h0, h, c.i, File(f, c.i), c.off, c.src, k, x);
    SameKeys(g, h0, h, f, x);
    PieceLimit(k, Room(f.inodes[c.i].size, c.off, |c.src|), |c.src|, x + 1 - |h0|);
  }

  lemma StageText(g: Geometry, h0: seq<Op>, h: seq<Op>, f: Fs, c: Call, k: nat, x: nat)
    requires Stopped(g, h0, h, f, c, k) && |h0| <= x < |h|
    ensures Texts(h[x].after) == Wrote(Texts(f), c, x + 1 - |h0|)
  {
    hide Stopped, Chunked, NoHoles, Room, Over, AllWhole, File, Texts;
    StageOf(g, h0, h, f, c, k, x);
    TextOf(f, c.i);
    var part := Min(Room(f.inodes[c.i].size, c.off, |c.src|), (x + 1 - |h0|) * CHUNK);
    ChunkedTexts(f, h[x].after, c.i, c.off, c.src[..part]);
  }

  lemma StoppedGrows(g: Geometry, h0: seq<Op>, h: seq<Op>, f: Fs, c: Call, k: nat)
    requires Stopped(g, h0, h, f, c, k)
    ensures h0 <= h
  {
    hide Stages, Whole, OpOk;
  }

  lemma WroteNone(t: map<nat, seq<Byte>>, c: Call)
    ensures Wrote(t, c, 0) == t
  {
    assert c.src[..0] == [];
    assert c.i in t ==> t[c.i := t[c.i]] == t;
  }

  /** The stages of filewrite are the chunks of the call. */
  lemma StagesProgress(g: Geometry, d0: Fs, h0: seq<Op>, h: seq<Op>, f: Fs, c: Call, k: nat)
    requires Stopped(g, h0, h, f, c, k) && State(d0, h0, |h0|) == f
    ensures Progress(d0, h, |h0|, |h|, Texts(f), c)
  {
    hide Wrote, Texts, Stopped;
    assert h0 <= h by { StoppedGrows(g, h0, h, f, c, k); }
    forall x: nat | |h0| <= x <= |h| ensures Texts(State(d0, h, x)) == Wrote(Texts(f), c, x - |h0|) {
      if x == |h0| { WroteNone(Texts(f), c); } else { StageText(g, h0, h, f, c, k, x - 1); }
    }
  }

  lemma HistoryGrows(g: Geometry, h0: seq<Op>, h: seq<Op>, d: Fs)
    requires Operated(g.l, g.inodestart, h0, h, d)
    ensures h0 <= h
  {}

  /** filewrite, with its operations logged and committed one by one: they are the chunks of the call, all that there is
      room for unless the disk runs out of blocks. Also when it does, which is a panic, the log mirrors the operations
      completed until then. */
  method Filewrite(fs: Disk, log: Logging.Log, g: Geometry, ghost d0: Fs, ghost at: seq<nat>, c: Call)
    returns (r: WriteResult, k: nat, ghost at': seq<nat>)
    requires Joint(fs, log, g, d0, at) && c.i in fs.inodes && c.off < UINT && |c.src| < UINT / 2
    modifies fs, log, log.c
    ensures c.i in Texts(old(fs.S())) && k <= Fits(Texts(old(fs.S())), c) && (r.Written? <==> k == |c.src|) && at <= at'
    ensures r.OutOfBlocks? <==> old(RunsOut(g, fs.S(), c))
    ensures !r.OutOfBlocks? ==> Joint(fs, log, g, d0, at') && k == Fits(Texts(old(fs.S())), c)
    ensures r.OutOfBlocks? ==> Mirror(log, g, d0, fs.history, at') && WholePieces(k)
    ensures old(fs.history) <= fs.history
    ensures Progress(d0, fs.history, |old(fs.history)|, |fs.history|, Texts(old(fs.S())), c)
    ensures |fs.history| ==
      |old(fs.history)| + if r.OutOfBlocks? then Pieces(k) else Length(Texts(old(fs.S())), c)
    ensures old(log.story) <= log.story && old(log.c.images) <= log.c.images
  {
    hide Mirror, Operated, Stages, InvBut, AllSized, File, NoHoles, OtherFiles, FreeBlocks, Room, Cost, Splice,
      Pieces, Progress, WholePieces, Texts, AllWhole;
    var h0 := fs.history;
    ghost var f := fs.S();
    WholeInodes(fs);
    TextOf(f, c.i);
    InvShape(fs.l, f, fs.use, 0);
    RoomStart(f.inodes[c.i].size, c.off, |c.src|);
    r, k := fs.Filewrite(c.i, c.off, c.src);
    StateLast(g, d0, h0, fs.history);
    HistoryGrows(g, h0, fs.history, f);
    StagesProgress(g, d0, h0, fs.history, f, c, k);
    at' := Replay(log, g, d0, h0, fs.history, at);
  }

  /** Call `m`, from mark to mark of the history: its operations are its chunks, all of them. */
  ghost predicate CallDone(g: Geometry, d0: Fs, h: seq<Op>, t: map<nat, seq<Byte>>, calls: seq<Call>, marks: seq<nat>,
          m: nat) {
    m < |calls| && m + 1 < |marks| ==>
      && marks[m + 1] == marks[m] + Length(After(t, calls, m), calls[m]) && marks[m] <= |h|
      && !RunsOut(g, State(d0, h, marks[m]), calls[m])
      && Progress(d0, h, marks[m], marks[m + 1], After(t, calls, m), calls[m])
  }

  /** The history is that of the first `m` calls, all complete. */
  ghost predicate Completed(g: Geometry, d0: Fs, h: seq<Op>, t: map<nat, seq<Byte>>, calls: seq<Call>, marks: seq<nat>,
          m: nat) {
    && |marks| == m + 1 && m <= |calls| && marks[m] == |h| && Texts(State(d0, h, |h|)) == After(t, calls, m)
    && forall x: nat :: CallDone(g, d0, h, t, calls, marks, x)
  }

  lemma ProgressOn(d0: Fs, h: seq<Op>, h': seq<Op>, a: nat, b: nat, t: map<nat, seq<Byte>>, c: Call)
    requires Progress(d0, h, a, b, t, c) && h <= h'
    ensures Progress(d0, h', a, b, t, c)
  {
    hide Texts, Wrote;
    forall x: nat | a <= x <= b ensures State(d0, h', x) == State(d0, h, x) {}
  }

  lemma CallMore(g: Geometry, d0: Fs, h: seq<Op>, h': seq<Op>, t: map<nat, seq<Byte>>, calls: seq<Call>,
          marks: seq<nat>, m: nat)
    requires Completed(g, d0, h, t, calls, marks, m) && m < |calls| && h <= h'
    requires !RunsOut(g, State(d0, h, |h|), calls[m])
    requires Progress(d0, h', |h|, |h'|, After(t, calls, m), calls[m])
    requires |h'| == |h| + Length(After(t, calls, m), calls[m])
    ensures Completed(g, d0, h', t, calls, marks + [|h'|], m + 1)
  {
    hide Texts, Wrote, RunsOut, Length, CallDone, Progress;
    ProgressAt(d0, h', |h|, |h'|, After(t, calls, m), calls[m]);
    forall x: nat ensures CallDone(g, d0, h', t, calls, marks + [|h'|], x) {
      assert CallDone(g, d0, h, t, calls, marks, x);
      CallOn(g, d0, h, h', t, calls, marks, m, x);
    }
  }

  lemma ProgressAt(d0: Fs, h: seq<Op>, a: nat, b: nat, t: map<nat, seq<Byte>>, c: Call)
    requires Progress(d0, h, a, b, t, c)
    ensures a <= b <= |h| && Texts(State(d0, h, b)) == Wrote(t, c, b - a)
  {}

  lemma CallOn(g: Geometry, d0: Fs, h: seq<Op>, h': seq<Op>, t: map<nat, seq<Byte>>, calls: seq<Call>, marks: seq<nat>,
          m: nat, x: nat)
    requires |marks| == m + 1 && marks[m] == |h| && h <= h' && m < |calls| && !RunsOut(g, State(d0, h, |h|), calls[m])
    requires Progress(d0, h', |h|, |h'|, After(t, calls, m), calls[m])
    requires |h'| == |h| + Length(After(t, calls, m), calls[m]) && CallDone(g, d0, h, t, calls, marks, x)
    ensures CallDone(g, d0, h', t, calls, marks + [|h'|], x)
  {
    hide Texts, Wrote, RunsOut, Length, Progress;
    if x < m {
      assert State(d0, h', marks[x]) == State(d0, h, marks[x]);
      ProgressOn(d0, h, h', marks[x], marks[x + 1], After(t, calls, x), calls[x]);
    } else if x == m {
      assert State(d0, h', |h|) == State(d0, h, |h|);
    }
  }

  /** The first `n` calls were completed; and the next, if there is one, ran out of blocks after some of its chunks. */
  ghost predicate Ran(g: Geometry, d0: Fs, h: seq<Op>, t: map<nat, seq<Byte>>, calls: seq<Call>, marks: seq<nat>,
          n: nat) {
    && |marks| == n + 1 && n <= |calls| && marks[n] <= |h| && Completed(g, d0, h[..marks[n]], t, calls, marks, n)
    && (n == |calls| ==> marks[n] == |h|)
    && (n < |calls| ==>
          && RunsOut(g, State(d0, h, marks[n]), calls[n])
          && Progress(d0, h, marks[n], |h|, After(t, calls, n), calls[n]))
  }

  /** Calls of filewrite on any files, until one of them panics. `marks` says where in the history each begins. */
  method Run(fs: Disk, log: Logging.Log, g: Geometry, ghost d0: Fs, ghost at: seq<nat>, calls: seq<Call>)
    returns (n: nat, ghost at': seq<nat>, ghost marks: seq<nat>)
    requires Joint(fs, log, g, d0, at)
    requires forall x :: 0 <= x < |calls| ==> calls[x].off < UINT && |calls[x].src| < UINT / 2
    modifies fs, log, log.c
    ensures Ran(g, d0, fs.history, Texts(old(fs.S())), calls, marks, n) && marks[0] == |old(fs.history)|
    ensures at <= at' && Mirror(log, g, d0, fs.history, at') && (n == |calls| ==> Joint(fs, log, g, d0, at'))
    ensures old(fs.history) <= fs.history && old(log.story) <= log.story && old(log.c.images) <= log.c.images
  {
    hide Mirror, Texts, InvBut, AllSized, Completed, Progress, RunsOut, Length, Fits, Wrote;
    ghost var t := Texts(fs.S());
    n, at', marks := 0, at, [|fs.history|];
    CompletedNone(g, d0, fs.history, t, calls);
    while n < |calls|
      invariant n <= |calls| && at <= at' && Joint(fs, log, g, d0, at')
      invariant Completed(g, d0, fs.history, t, calls, marks, n) && |marks| == n + 1 && marks[n] == |fs.history|
      invariant marks[0] == |old(fs.history)| && old(fs.history) <= fs.history
      invariant old(log.story) <= log.story && old(log.c.images) <= log.c.images
    {
      var c := calls[n];
      ghost var h := fs.history;
      CompletedAt(g, d0, h, t, calls, marks, n);
      if c.i in fs.inodes {
        var r, k;
        r, k, at' := Filewrite(fs, log, g, d0, at', c);
        if r.OutOfBlocks? {
          assert fs.history[..|h|] == h;
          return;
        }
      } else {
        Skipped(g, d0, h, fs.S(), c);
      }
      CallMore(g, d0, h, fs.history, t, calls, marks, n);
      marks := marks + [|fs.history|];
      n := n + 1;
    }
    assert fs.history[..|fs.history|] == fs.history;
  }

  lemma CompletedNone(g: Geometry, d0: Fs, h: seq<Op>, t: map<nat, seq<Byte>>, calls: seq<Call>)
    requires t == Texts(State(d0, h, |h|))
    ensures Completed(g, d0, h, t, calls, [|h|], 0)
  {}

  lemma CompletedAt(g: Geometry, d0: Fs, h: seq<Op>, t: map<nat, seq<Byte>>, calls: seq<Call>, marks: seq<nat>, m: nat)
    requires Completed(g, d0, h, t, calls, marks, m)
    ensures m <= |calls| && Texts(State(d0, h, |h|)) == After(t, calls, m)
    ensures forall x: nat :: CallDone(g, d0, h, t, calls, marks, x)
  {}

  /** A call on an inode that is not there is no operation. */
  lemma Skipped(g: Geometry, d0: Fs, h: seq<Op>, f: Fs, c: Call)
    requires State(d0, h, |h|) == f && c.i !in f.inodes
    ensures !RunsOut(g, f, c) && Length(Texts(f), c) == 0 && Progress(d0, h, |h|, |h|, Texts(f), c)
  {
    WroteNone(Texts(f), c);
  }

  // ----- What a crash leaves -----

  /** Crash safety of the file system: after a crash at any disk write, any number of interrupted recoveries and a
      complete one, the disk holds the file system after the first so many operations, whole. */
  lemma Recovered(log: Logging.Log, g: Geometry, d0: Fs, h: seq<Op>, at: seq<nat>, x: nat, stops: seq<nat>,
          r: RedoLog.Image, last: seq<nat>)
    requires Told(log, g, d0, h, at) && x < |log.c.images|
    requires RedoLog.Recoveries(g.ll, log.c.images[x], stops, r) && RedoLog.HasHead(g.ll, r, last)
    ensures x < |log.story| && log.story[x] < |at| && at[log.story[x]] <= |h|
    ensures Shows(g, State(d0, h, at[log.story[x]]), RedoLog.RecoverTo(g.ll, r, last, |last| + 1))
  {
    hide Shows, History.Kept;
    Logging.CrashAnywhere(log, x, stops, r, last);
    var j := log.story[x];
    assert CommitOk(g, d0, h, log.commits, at, j);
    ShowsSame(g, State(d0, h, at[j]), log.commits[j], RedoLog.RecoverTo(g.ll, r, last, |last| + 1));
  }

  /** A crash later on never leaves less. */
  lemma NeverLess(log: Logging.Log, g: Geometry, d0: Fs, h: seq<Op>, at: seq<nat>, x: nat, y: nat)
    requires Told(log, g, d0, h, at) && x <= y < |log.c.images|
    ensures y < |log.story| && log.story[x] <= log.story[y] < |at| && at[log.story[x]] <= at[log.story[y]]
  {
    hide Shows;
  }

  /** The files after the first `m` calls and the first `j` chunks of the next. */
  function Part(t: map<nat, seq<Byte>>, calls: seq<Call>, m: nat, j: nat): map<nat, seq<Byte>>
    requires m <= |calls|
  {
    if m < |calls| then Wrote(After(t, calls, m), calls[m], j) else After(t, calls, m)
  }

  /** Operation `x` of a run falls into one of the calls. */
  lemma FallsInto(marks: seq<nat>, x: nat, n: nat) returns (m: nat)
    requires n < |marks| && marks[0] <= x < marks[n]
    ensures m < n && marks[m] <= x < marks[m + 1]
  {
    if marks[n - 1] <= x { m := n - 1; } else { m := FallsInto(marks, x, n - 1); }
  }

  /** Of a run, the state after any number of operations is that after some calls and some chunks of the next. */
  lemma RanParts(g: Geometry, d0: Fs, h: seq<Op>, t: map<nat, seq<Byte>>, calls: seq<Call>, marks: seq<nat>, n: nat,
          x: nat) returns (m: nat)
    requires Ran(g, d0, h, t, calls, marks, n) && marks[0] <= x <= |h|
    ensures m <= n && marks[m] <= x && (m < n ==> x < marks[m + 1])
    ensures Texts(State(d0, h, x)) == Part(t, calls, m, x - marks[m])
  {
    hide Texts, Wrote, RunsOut, Length, Completed;
    var h' := h[..marks[n]];
    if x < marks[n] {
      m := FallsInto(marks, x, n);
      assert CallDone(g, d0, h', t, calls, marks, m) by { CompletedAt(g, d0, h', t, calls, marks, n); }
      assert State(d0, h', x) == State(d0, h, x);
    } else {
      m := n;
      CompletedAt(g, d0, h', t, calls, marks, n);
      assert State(d0, h', |h'|) == State(d0, h, marks[n]);
    }
  }

  /** Crash safety of filewrite: after a crash during a run of calls and any recoveries, the files are those after the
      first so many calls and the first so many chunks of the next one. */
  lemma CallsKept(log: Logging.Log, g: Geometry, d0: Fs, h: seq<Op>, at: seq<nat>, calls: seq<Call>, marks: seq<nat>,
          n: nat, x: nat, stops: seq<nat>, r: RedoLog.Image, last: seq<nat>) returns (f: Fs, m: nat, j: nat)
    requires Told(log, g, d0, h, at) && Ran(g, d0, h, Texts(d0), calls, marks, n) && marks[0] == 0
    requires x < |log.c.images| && RedoLog.Recoveries(g.ll, log.c.images[x], stops, r) && RedoLog.HasHead(g.ll, r, last)
    ensures Shows(g, f, RedoLog.RecoverTo(g.ll, r, last, |last| + 1))
    ensures m <= n && Texts(f) == Part(Texts(d0), calls, m, j)
  {
    hide Shows, Texts, Told, Completed, Part;
    Recovered(log, g, d0, h, at, x, stops, r, last);
    var k := at[log.story[x]];
    m := RanParts(g, d0, h, Texts(d0), calls, marks, n, k);
    f, j := State(d0, h, k), k - marks[m];
  }

  /** Durability: what is done stays done. With all operations ended, recovery brings back the file system after all. */
  lemma Durable(log: Logging.Log, g: Geometry, d0: Fs, h: seq<Op>, at: seq<nat>, stops: seq<nat>, r: RedoLog.Image,
          last: seq<nat>)
    requires Mirror(log, g, d0, h, at)
    requires RedoLog.Recoveries(g.ll, log.c.disk, stops, r) && RedoLog.HasHead(g.ll, r, last)
    ensures Shows(g, State(d0, h, |h|), RedoLog.RecoverTo(g.ll, r, last, |last| + 1))
  {
    hide Shows;
    hide RedoLog.Worth;
    var want := log.commits[|log.commits| - 1];
    assert RedoLog.Recovers(g.ll, log.c.disk, want);
    RedoLog.RecoversMeans(g.ll, log.c.disk, want, stops, r, last);
    ShowsSame(g, State(d0, h, |h|), want, RedoLog.RecoverTo(g.ll, r, last, |last| + 1));
  }

  /** Also of calls: those that returned are there after any crash. */
  lemma CallsDurable(log: Logging.Log, g: Geometry, d0: Fs, h: seq<Op>, at: seq<nat>, calls: seq<Call>, marks: seq<nat>,
          stops: seq<nat>, r: RedoLog.Image, last: seq<nat>)
    requires Mirror(log, g, d0, h, at) && Ran(g, d0, h, Texts(d0), calls, marks, |calls|)
    requires RedoLog.Recoveries(g.ll, log.c.disk, stops, r) && RedoLog.HasHead(g.ll, r, last)
    ensures Shows(g, State(d0, h, |h|), RedoLog.RecoverTo(g.ll, r, last, |last| + 1))
    ensures Texts(State(d0, h, |h|)) == After(Texts(d0), calls, |calls|)
  {
    hide Shows, Texts, Mirror, Completed;
    Durable(log, g, d0, h, at, stops, r, last);
    assert h[..|h|] == h;
    CompletedAt(g, d0, h, Texts(d0), calls, marks, |calls|);
  }

  // ----- The disk says which file system it holds -----

  /** The disk format of an inode: where in its block which field is. */
  lemma InodeLaid(g: Geometry, f: Fs, i: nat)
    requires i in f.inodes && |f.inodes[i].addrs| == NDIRECT + 1 && i <= g.ninodes
    ensures var b, o, x := Encoded(g, f, g.inodestart + i / 8), i % 8 * 16, f.inodes[i];
      && b[o] == x.kind && b[o + 1] == x.links && b[o + 2] == x.size
      && forall k :: 0 <= k < 13 ==> b[o + 3 + k] == x.addrs[k]
  {
    hide Encoded, InodeWords;
    var b, o := Encoded(g, f, g.inodestart + i / 8), i % 8 * 16;
    InodeFields(f, i);
    WordOf(g, f, i, 0);
    WordOf(g, f, i, 1);
    WordOf(g, f, i, 2);
    forall k: nat | k < 13 ensures b[o + 3 + k] == f.inodes[i].addrs[k] { WordOf(g, f, i, 3 + k); }
  }

  lemma InodeFields(f: Fs, i: nat)
    requires i in f.inodes && |f.inodes[i].addrs| == NDIRECT + 1
    ensures var w, x := InodeWords(f, i), f.inodes[i];
      w[0] == x.kind && w[1] == x.links && w[2] == x.size && forall k: nat :: k < 13 ==> w[3 + k] == x.addrs[k]
  {}

  lemma WordOf(g: Geometry, f: Fs, i: nat, w: nat)
    requires i <= g.ninodes && w < 16
    ensures Encoded(g, f, g.inodestart + i / 8)[i % 8 * 16 + w] == InodeWords(f, i)[w]
  {
    hide InodeWords;
    var o := i % 8 * 16 + w;
    assert o / 16 == i % 8 && o % 16 == w;
    assert i / 8 * 8 + i % 8 == i;
  }

  /** iupdate: the block of an inode with its sixteen words in their place, and the others as they were. */
  lemma Repacked(g: Geometry, f: Fs, i: nat, x: Inode)
    requires i in f.inodes && |x.addrs| == NDIRECT + 1 && i <= g.ninodes
    ensures var f' := f.(inodes := f.inodes[i := x]);
      var b, o := InodeBlock(g.inodestart, i), i % 8 * 16;
      Encoded(g, f', b) == Encoded(g, f, b)[..o] + InodeWords(f', i) + Encoded(g, f, b)[o + 16..]
  {
    var f', b, o := f.(inodes := f.inodes[i := x]), InodeBlock(g.inodestart, i), i % 8 * 16;
    var j := (b - g.inodestart) * 8;
    assert j + i % 8 == i;
    forall w | 0 <= w < 128
      ensures Encoded(g, f', b)[w] == (Encoded(g, f, b)[..o] + InodeWords(f', i) + Encoded(g, f, b)[o + 16..])[w]
    {
      assert Encoded(g, f', b)[w] == InodeWords(f', j + w / 16)[w % 16];
      assert Encoded(g, f, b)[w] == InodeWords(f, j + w / 16)[w % 16];
      if o <= w < o + 16 { assert w / 16 == i % 8 && w % 16 == w - o; }
    }
  }

  lemma SameInode(g: Geometry, f: Fs, f': Fs, m: RedoLog.Image, i: nat)
    requires Laid(g) && Suits(g, f) && Suits(g, f') && Shows(g, f, m) && Shows(g, f', m)
    requires i in f.inodes && i in f'.inodes
    ensures f.inodes[i] == f'.inodes[i]
  {
    var b := InodeBlock(g.inodestart, i);
    var j := (b - g.inodestart) * 8;
    assert j + i % 8 == i;
    assert ShowsAt(g, f, m, b) && ShowsAt(g, f', m, b);
    forall w | 0 <= w < 16 ensures InodeWords(f, i)[w] == InodeWords(f', i)[w] {
      var v := i % 8 * 16 + w;
      assert v / 16 == i % 8 && v % 16 == w;
      assert Packed(f, j)[v] == Packed(f', j)[v];
    }
    var x, y := f.inodes[i], f'.inodes[i];
    forall k | 0 <= k <= NDIRECT ensures x.addrs[k] == y.addrs[k] {
      assert InodeWords(f, i)[3 + k] == x.addrs[k] && InodeWords(f', i)[3 + k] == y.addrs[k];
    }
    assert InodeWords(f, i)[0] == x.kind && InodeWords(f, i)[1] == x.links && InodeWords(f, i)[2] == x.size;
  }

  /** No disk holds two file systems: the inodes that both have are the same, and so are all other blocks. */
  lemma Determined(g: Geometry, f: Fs, f': Fs, m: RedoLog.Image)
    requires Laid(g) && Suits(g, f) && Suits(g, f') && Shows(g, f, m) && Shows(g, f', m)
    ensures forall i :: i in f.inodes && i in f'.inodes ==> f.inodes[i] == f'.inodes[i]
    ensures forall b: nat :: RedoLog.IsHome(g.ll, b) && !HoldsInodes(g, b) && b < g.l.size ==>
      b in f.blocks && b in f'.blocks && f.blocks[b] == f'.blocks[b]
  {
    forall i | i in f.inodes && i in f'.inodes ensures f.inodes[i] == f'.inodes[i] { SameInode(g, f, f', m, i); }
    forall b: nat | RedoLog.IsHome(g.ll, b) && !HoldsInodes(g, b) && b < g.l.size
      ensures b in f.blocks && b in f'.blocks && f.blocks[b] == f'.blocks[b]
    {
      assert ShowsAt(g, f, m, b) && ShowsAt(g, f', m, b);
      SameWords(f.blocks[b], f'.blocks[b]);
    }
  }

  lemma SameWords(x: Block, y: Block)
    requires Words(x) == Words(y)
    ensures x == y
  {
    hide Int;
    forall i | 0 <= i < BSIZE ensures x[i] == y[i] {
      var w := i / 4;
      assert Words(x)[w] == Words(y)[w];
      SameBytes(x[4 * w], x[4 * w + 1], x[4 * w + 2], x[4 * w + 3], y[4 * w], y[4 * w + 1], y[4 * w + 2], y[4 * w + 3]);
      assert i == 4 * w || i == 4 * w + 1 || i == 4 * w + 2 || i == 4 * w + 3;
    }
  }

  /** A word says what its four bytes are. */
  lemma SameBytes(a: Byte, b: Byte, c: Byte, d: Byte, a': Byte, b': Byte, c': Byte, d': Byte)
    requires Int(a) + 256 * Int(b) + 65536 * Int(c) + 16777216 * Int(d)
      == Int(a') + 256 * Int(b') + 65536 * Int(c') + 16777216 * Int(d')
    ensures a == a' && b == b' && c == c' && d == d'
  {
    ByteRange(a); ByteRange(b); ByteRange(c); ByteRange(d);
    ByteRange(a'); ByteRange(b'); ByteRange(c'); ByteRange(d');
    hide Int;
    assert Int(a) == Int(a') && Int(b) == Int(b') && Int(c) == Int(c') && Int(d) == Int(d');
    SameByte(a, a');
    SameByte(b, b');
    SameByte(c, c');
    SameByte(d, d');
  }

  lemma ByteRange(x: Byte)
    ensures Int(x) < 256
  {}

  lemma SameByte(x: Byte, y: Byte)
    requires Int(x) == Int(y)
    ensures x == y
  {
    assert (x & 128 != 0) == (y & 128 != 0);
    assert (x & 64 != 0) == (y & 64 != 0);
    assert (x & 32 != 0) == (y & 32 != 0);
    assert (x & 16 != 0) == (y & 16 != 0);
    assert (x & 8 != 0) == (y & 8 != 0);
    assert (x & 4 != 0) == (y & 4 != 0);
    assert (x & 2 != 0) == (y & 2 != 0);
    assert (x & 1 != 0) == (y & 1 != 0);
    hide Int;
  }
}
