/** Operations that run at the same time and are committed together (log.c), over the file system. */
module GroupCommit {
  import opened Common
  import opened Bytes
  import opened Inodes
  import opened Contents
  import opened FileSystem
  import opened Journal
  import RedoLog
  import History
  import Logging
  import Buffers
  import Pins
  import Admission
  import Truncation

  /** What an operation does to the files: a chunk of filewrite, or itrunc. */
  datatype Act = Write(c: Call) | Empty(i: nat)

  function Acted(t: map<nat, seq<Byte>>, a: Act): map<nat, seq<Byte>> {
    match a
    case Write(c) => Wrote(t, c, 1)
    case Empty(i) => if i in t then t[i := []] else t
  }

  /** The files after the first `n` acts. */
  function Acts(t: map<nat, seq<Byte>>, acts: seq<Act>, n: nat): map<nat, seq<Byte>>
    requires n <= |acts|
  {
    if n == 0 then t else Acted(Acts(t, acts, n - 1), acts[n - 1])
  }

  /** What can happen next. `p` is the place of an operation among the running ones. */
  datatype Event =
    | Begin                                                // begin_op
    | Change(p: nat, act: Act)                             // the operation changes the files
    | Draft(p: nat, b: nat, data: RedoLog.Block)           // log_write of a block it is not done with
    | Put(p: nat, b: nat)                                  // its last log_write of a block
    | Read(b: nat)                                         // bread by somebody else
    | Release(i: nat)                                      // brelse
    | End(p: nat)                                          // end_op
    | Commit

  /** A state: the files; the operations so far, what each did, and the blocks it is not done with; for each running
      operation its number, if it has changed the files; the log, the buffers and what is seen in them; the committed
      states, and how many operations are in each. */
  datatype Sys = Sys(f: Fs, h: seq<Op>, acts: seq<Act>, todo: seq<set<nat>>, running: seq<Option<nat>>, lh: seq<nat>,
    committing: bool, bufs: seq<Buffers.Buf>, view: RedoLog.Image, commits: seq<RedoLog.Image>, at: seq<nat>)

  predicate Awaits(todo: seq<set<nat>>, x: nat, b: nat) { x < |todo| && b in todo[x] }

  predicate Possible(g: Geometry, f: Fs, a: Act) {
    match a
    case Write(c) => c.i in f.inodes && c.off < UINT && |c.src| <= CHUNK
    case Empty(i) => i in f.inodes && g.l.size <= 9 * BPB
  }

  /** Operation `p` is not done with block `b`, and nobody holds it. */
  predicate Busied(running: seq<Option<nat>>, todo: seq<set<nat>>, bufs: seq<Buffers.Buf>, p: nat, b: nat) {
    p < |running| && running[p].Some? && Awaits(todo, running[p].value, b) && Logging.Unheld(bufs, b)
  }

  predicate Earlier(todo: seq<set<nat>>, x: nat, b: nat) { exists y :: 0 <= y < x && Awaits(todo, y, b) }

  /** The operation did nothing, or is done with all its blocks. */
  predicate Finished(r: Option<nat>, todo: seq<set<nat>>) { r.None? || (r.value < |todo| && todo[r.value] == {}) }

  /** Whether an event can happen now. Otherwise its process sleeps, or is somewhere else. */
  ghost predicate Enabled(g: Geometry, w: Sys, e: Event) {
    match e
    case Begin =>
      !w.committing && |w.lh| + (|w.running| + 1) * RedoLog.MAXOPBLOCKS <= RedoLog.LOGSIZE
    case Change(p, a) => p < |w.running| && w.running[p].None? && Possible(g, w.f, a)
    case Draft(p, b, data) => Busied(w.running, w.todo, w.bufs, p, b) && |data| == RedoLog.NWORDS
    case Put(p, b) => Busied(w.running, w.todo, w.bufs, p, b) && !Earlier(w.todo, w.running[p].value, b)
    case Read(b) => RedoLog.IsHome(g.ll, b) && Logging.NotLocked(w.bufs, b)
    case Release(i) => i < |w.bufs| && w.bufs[i].locked
    case End(p) => p < |w.running| && Finished(w.running[p], w.todo)
    case Commit => w.committing && Logging.Clear(w.bufs)
  }

  /** Whether it ends in a panic. */
  ghost predicate Panics(g: Geometry, w: Sys, e: Event) {
    match e
    case Change(_, a) => a.Write? && RunsOut(g, w.f, a.c)
    case Draft(_, b, _) => Admission.TooBig(|w.lh|, g.ll.size) || !Logging.Bufferable(w.bufs, b)
    case Put(_, b) => Admission.TooBig(|w.lh|, g.ll.size) || !Logging.Bufferable(w.bufs, b)
    case Read(b) => !Logging.Bufferable(w.bufs, b)
    case Commit => w.lh != [] && |w.lh| + |Pins.Busy(w.bufs)| >= Buffers.NBUF
    case _ => false
  }

  /** The same buffers are held. */
  ghost predicate SameReaders(w: Sys, w': Sys) { Pins.Busy(w'.bufs) == Pins.Busy(w.bufs) }

  /** Buffer `r` holds block `b`, as it is seen, locked and for one user more; it had that block or was free. */
  ghost predicate ReadsIn(w: Sys, b: nat, r: nat, w': Sys) {
    && r < |w.bufs| == |w'.bufs| && b in w.view
    && (Buffers.Labelled(w.bufs, Buffers.ROOTDEV, b, r) || Buffers.Recyclable(w.bufs, r))
    && var x, y := w.bufs[r], w'.bufs[r];
      && y.blockno == b && y.locked && y.data == w.view[b] && y.refcnt == x.refcnt + 1 && y.dirty == x.dirty
      && w'.bufs == w.bufs[r := y]
  }

  /** What happens then. */
  ghost predicate Happens(g: Geometry, w: Sys, e: Event, w': Sys) {
    match e
    case Begin => w' == w.(running := w.running + [None])
    case Change(p, a) =>
      && |w'.h| == |w.h| + 1 && p < |w.running|
      && var op := w'.h[|w.h|];
        && op.before == w.f && Texts(op.after) == Acted(Texts(w.f), a)
        && w' == w.(f := op.after, h := w.h + [op], acts := w.acts + [a], todo := w.todo + [op.logged],
          running := w.running[p := Some(|w.h|)])
    case Draft(p, b, data) =>
      && w' == w.(lh := Admission.Absorbed(w.lh, b), bufs := w'.bufs, view := w.view[b := data])
      && SameReaders(w, w')
    case Put(p, b) =>
      && p < |w.running| && w.running[p].Some? && w.running[p].value < |w.todo| == |w.h| && SameReaders(w, w')
      && var x := w.running[p].value;
        w' == w.(todo := w.todo[x := w.todo[x] - {b}], lh := Admission.Absorbed(w.lh, b), bufs := w'.bufs,
          view := w.view[b := Encoded(g, w.h[x].after, b)])
    case Read(b) => w' == w.(bufs := w'.bufs) && exists r: nat :: ReadsIn(w, b, r, w')
    case Release(i) =>
      && i < |w.bufs| && w.bufs[i].refcnt > 0
      && w' == w.(bufs := w.bufs[i := w.bufs[i].(refcnt := w.bufs[i].refcnt - 1, locked := false)])
    case End(p) =>
      && p < |w.running|
      && w' == w.(running := w.running[..p] + w.running[p + 1..], committing := |w.running| == 1)
    case Commit =>
      && RedoLog.SameHomes(g.ll, w'.view, w.view) && SameReaders(w, w')
      && w' == w.(lh := [], committing := false, bufs := w'.bufs, view := w'.view,
        commits := w.commits + (if w.lh == [] then [] else [w.view]),
        at := w.at + if w.lh == [] then [] else [|w.h|])
  }

  // ----- What every event keeps -----

  /** Operation `x` follows the ones before it, and did what its act says. */
  ghost predicate OpAt(g: Geometry, d0: Fs, h: seq<Op>, acts: seq<Act>, x: nat) {
    x < |h| && x < |acts| ==>
      && OpOk(g.l, g.inodestart, h[x]) && h[x].before == State(d0, h, x)
      && Texts(h[x].after) == Acted(Texts(h[x].before), acts[x])
  }

  ghost predicate Linear(g: Geometry, d0: Fs, h: seq<Op>, acts: seq<Act>) {
    |acts| == |h| && forall x: nat :: OpAt(g, d0, h, acts, x)
  }

  /** A block that all operations are done with is seen as the file system has it. */
  ghost predicate Settled(g: Geometry, f: Fs, view: RedoLog.Image, todo: seq<set<nat>>, b: nat) {
    (forall x: nat :: !Awaits(todo, x, b)) ==> ShowsAt(g, f, view, b)
  }

  /** Operations are done with a block in their order. */
  ghost predicate InOrder(h: seq<Op>, todo: seq<set<nat>>, x: nat, z: nat, b: nat) {
    Awaits(todo, x, b) && x < z < |h| && b in h[z].logged ==> Awaits(todo, z, b)
  }

  /** What the log knows of the running operations. */
  ghost predicate Slot(h: seq<Op>, ops: seq<set<nat>>, running: seq<Option<nat>>, k: nat) {
    k < |running| && k < |ops| ==>
      if running[k].None? then ops[k] == {} else running[k].value < |h| && ops[k] <= h[running[k].value].logged
  }

  ghost predicate Owed(h: seq<Op>, todo: seq<set<nat>>, running: seq<Option<nat>>, x: nat) {
    x < |todo| && x < |h| ==> todo[x] <= h[x].logged && (todo[x] != {} ==> Some(x) in running)
  }

  /** The operations and the log. */
  ghost predicate Queued(h: seq<Op>, todo: seq<set<nat>>, ops: seq<set<nat>>, running: seq<Option<nat>>) {
    && |todo| == |h| && |running| == |ops|
    && (forall k: nat :: Slot(h, ops, running, k)) && (forall x: nat :: Owed(h, todo, running, x))
    && (forall x: nat, z: nat, b: nat :: InOrder(h, todo, x, z, b))
  }

  ghost predicate AllSettled(g: Geometry, f: Fs, view: RedoLog.Image, todo: seq<set<nat>>) {
    forall b: nat :: Settled(g, f, view, todo, b)
  }

  lemma QueuedBegin(h: seq<Op>, todo: seq<set<nat>>, ops: seq<set<nat>>, running: seq<Option<nat>>)
    requires Queued(h, todo, ops, running)
    ensures Queued(h, todo, ops + [{}], running + [None])
  {
    forall k: nat ensures Slot(h, ops + [{}], running + [None], k) { assert Slot(h, ops, running, k); }
    forall x: nat ensures Owed(h, todo, running + [None], x) { assert Owed(h, todo, running, x); }
  }

  lemma QueuedEnd(h: seq<Op>, todo: seq<set<nat>>, ops: seq<set<nat>>, running: seq<Option<nat>>, p: nat)
    requires Queued(h, todo, ops, running) && p < |running| && Finished(running[p], todo)
    ensures Queued(h, todo, ops[..p] + ops[p + 1..], running[..p] + running[p + 1..])
  {
    var ops', running' := ops[..p] + ops[p + 1..], running[..p] + running[p + 1..];
    forall k: nat ensures Slot(h, ops', running', k) {
      assert Slot(h, ops, running, k) && Slot(h, ops, running, k + 1);
    }
    forall x: nat ensures Owed(h, todo, running', x) {
      assert Owed(h, todo, running, x);
      if x < |h| && todo[x] != {} {
        var k :| 0 <= k < |running| && running[k] == Some(x);
        assert k < p ==> running'[k] == Some(x);
        assert k > p ==> running'[k - 1] == Some(x);
      }
    }
  }

  lemma QueuedChange(h: seq<Op>, todo: seq<set<nat>>, ops: seq<set<nat>>, running: seq<Option<nat>>, p: nat, op: Op)
    requires Queued(h, todo, ops, running) && p < |running| && running[p].None?
    ensures Queued(h + [op], todo + [op.logged], ops, running[p := Some(|h|)])
  {
    var h', todo', running' := h + [op], todo + [op.logged], running[p := Some(|h|)];
    forall k: nat ensures Slot(h', ops, running', k) { assert Slot(h, ops, running, k); }
    forall x: nat ensures Owed(h', todo', running', x) {
      assert Owed(h, todo, running, x);
      if x < |h| && todo[x] != {} {
        var k :| 0 <= k < |running| && running[k] == Some(x);
        assert running'[k] == Some(x);
      }
      assert running'[p] == Some(|h|);
    }
    forall x: nat, z: nat, b: nat ensures InOrder(h', todo', x, z, b) { assert InOrder(h, todo, x, z, b); }
  }

  lemma QueuedPut(h: seq<Op>, todo: seq<set<nat>>, ops: seq<set<nat>>, running: seq<Option<nat>>, p: nat, b: nat,
          left: set<nat>)
    requires Queued(h, todo, ops, running) && p < |running| && running[p].Some? && running[p].value < |todo|
    requires var x := running[p].value;
      b in todo[x] && (left == todo[x] || (left == todo[x] - {b} && !Earlier(todo, x, b)))
    ensures Queued(h, todo[running[p].value := left], ops[p := ops[p] + {b}], running)
  {
    var x := running[p].value;
    var todo', ops' := todo[x := left], ops[p := ops[p] + {b}];
    assert Owed(h, todo, running, x);
    forall k: nat ensures Slot(h, ops', running, k) { assert Slot(h, ops, running, k); }
    forall y: nat ensures Owed(h, todo', running, y) { assert Owed(h, todo, running, y); }
    forall y: nat, z: nat, c: nat ensures InOrder(h, todo', y, z, c) {
      assert InOrder(h, todo, y, z, c) && (Awaits(todo', y, c) ==> Awaits(todo, y, c));
    }
  }

  lemma SettledChange(g: Geometry, view: RedoLog.Image, todo: seq<set<nat>>, op: Op)
    requires AllSettled(g, op.before, view, todo) && Covered(g.inodestart, op)
    ensures AllSettled(g, op.after, view, todo + [op.logged])
  {
    hide Encoded, Covered;
    var todo' := todo + [op.logged];
    forall b: nat ensures Settled(g, op.after, view, todo', b) {
      assert Settled(g, op.before, view, todo, b);
      if forall x: nat :: !Awaits(todo', x, b) {
        forall x: nat ensures !Awaits(todo, x, b) { assert !Awaits(todo', x, b); }
        assert !Awaits(todo', |todo|, b);
        Unlogged(g, op, b);
      }
    }
  }

  lemma SettledDraft(g: Geometry, f: Fs, view: RedoLog.Image, todo: seq<set<nat>>, x: nat, b: nat, data: RedoLog.Block)
    requires AllSettled(g, f, view, todo) && Awaits(todo, x, b)
    ensures AllSettled(g, f, view[b := data], todo)
  {
    hide Encoded;
    var view' := view[b := data];
    forall c: nat ensures Settled(g, f, view', todo, c) { assert Settled(g, f, view, todo, c); }
  }

  /** Operations that do not log a block leave it as it is. */
  lemma Passed(g: Geometry, d0: Fs, h: seq<Op>, acts: seq<Act>, b: nat, x: nat, z: nat)
    requires Linear(g, d0, h, acts) && x <= z <= |h| && forall y :: x <= y < z ==> b !in h[y].logged
    ensures Encoded(g, State(d0, h, x), b) == Encoded(g, State(d0, h, z), b)
    decreases z - x
  {
    hide Encoded, Texts, Acted, Covered, Placed, Shape;
    if x < z {
      Passed(g, d0, h, acts, b, x, z - 1);
      assert OpAt(g, d0, h, acts, z - 1);
      Unlogged(g, h[z - 1], b);
    }
  }

  lemma SettledPut(g: Geometry, d0: Fs, h: seq<Op>, acts: seq<Act>, view: RedoLog.Image, todo: seq<set<nat>>,
          ops: seq<set<nat>>, running: seq<Option<nat>>, x: nat, b: nat)
    requires Linear(g, d0, h, acts) && Queued(h, todo, ops, running) && Awaits(todo, x, b)
    requires AllSettled(g, State(d0, h, |h|), view, todo)
    ensures AllSettled(g, State(d0, h, |h|), view[b := Encoded(g, h[x].after, b)], todo[x := todo[x] - {b}])
  {
    hide Encoded, Linear;
    var f, todo', view' := State(d0, h, |h|), todo[x := todo[x] - {b}], view[b := Encoded(g, h[x].after, b)];
    forall c: nat ensures Settled(g, f, view', todo', c) {
      assert Settled(g, f, view, todo, c);
      if forall y: nat :: !Awaits(todo', y, c) {
        forall y: nat ensures Awaits(todo, y, c) ==> y == x && c == b { assert !Awaits(todo', y, c); }
        if c == b {
          forall y | x < y < |h| ensures b !in h[y].logged { assert InOrder(h, todo, x, y, b); }
          Passed(g, d0, h, acts, b, x + 1, |h|);
        }
      }
    }
  }

  lemma SettledSame(g: Geometry, f: Fs, view: RedoLog.Image, view': RedoLog.Image, todo: seq<set<nat>>)
    requires AllSettled(g, f, view, todo) && RedoLog.SameHomes(g.ll, view', view)
    ensures AllSettled(g, f, view', todo)
  {
    hide Encoded;
    forall b: nat ensures Settled(g, f, view', todo, b) {
      assert Settled(g, f, view, todo, b) && RedoLog.SameHome(g.ll, view', view, b);
    }
  }

  /** With no operation running, the file system is what is seen. */
  lemma SettledAll(g: Geometry, h: seq<Op>, f: Fs, view: RedoLog.Image, todo: seq<set<nat>>, ops: seq<set<nat>>,
          running: seq<Option<nat>>)
    requires Queued(h, todo, ops, running) && running == [] && AllSettled(g, f, view, todo)
    ensures Shows(g, f, view)
  {
    hide ShowsAt;
    forall b: nat ensures ShowsAt(g, f, view, b) {
      assert Settled(g, f, view, todo, b);
      forall x: nat ensures !Awaits(todo, x, b) { assert Owed(h, todo, running, x); }
    }
  }

  lemma RecordedMore(g: Geometry, d0: Fs, h: seq<Op>, op: Op, commits: seq<RedoLog.Image>, at: seq<nat>)
    requires Recorded(g, d0, h, commits, at)
    ensures Recorded(g, d0, h + [op], commits, at)
  {
    hide CommitOk;
    forall j: nat ensures CommitOk(g, d0, h + [op], commits, at, j) { MirrorMore(g, d0, h, op, commits, at, j); }
  }

  lemma LinearMore(g: Geometry, d0: Fs, h: seq<Op>, acts: seq<Act>, op: Op, a: Act)
    requires Linear(g, d0, h, acts) && OpOk(g.l, g.inodestart, op) && op.before == State(d0, h, |h|)
    requires Texts(op.after) == Acted(Texts(op.before), a)
    ensures Linear(g, d0, h + [op], acts + [a])
  {
    hide OpOk, Texts, Acted;
    forall x: nat ensures OpAt(g, d0, h + [op], acts + [a], x) {
      assert OpAt(g, d0, h, acts, x);
      assert x <= |h| ==> State(d0, h + [op], x) == State(d0, h, x);
    }
  }

  /** The files after any number of operations are what their acts make of them. */
  lemma {:induction false} LinearTexts(g: Geometry, d0: Fs, h: seq<Op>, acts: seq<Act>, n: nat)
    requires Linear(g, d0, h, acts) && n <= |h|
    ensures Texts(State(d0, h, n)) == Acts(Texts(d0), acts, n)
  {
    hide OpOk, Texts, Acted;
    if n > 0 {
      LinearTexts(g, d0, h, acts, n - 1);
      assert OpAt(g, d0, h, acts, n - 1);
    }
  }

  /** An operation that has changed the files is on record. */
  lemma Entered(g: Geometry, d0: Fs, h: seq<Op>, acts: seq<Act>, op: Op, a: Act, todo: seq<set<nat>>,
          ops: seq<set<nat>>, running: seq<Option<nat>>, p: nat, view: RedoLog.Image, commits: seq<RedoLog.Image>,
          at: seq<nat>)
    requires Linear(g, d0, h, acts) && Queued(h, todo, ops, running) && AllSettled(g, op.before, view, todo)
    requires Recorded(g, d0, h, commits, at) && p < |running| && running[p].None?
    requires OpOk(g.l, g.inodestart, op) && op.before == State(d0, h, |h|)
    requires Texts(op.after) == Acted(Texts(op.before), a)
    ensures Linear(g, d0, h + [op], acts + [a])
    ensures Queued(h + [op], todo + [op.logged], ops, running[p := Some(|h|)])
    ensures AllSettled(g, op.after, view, todo + [op.logged]) && Recorded(g, d0, h + [op], commits, at)
  {
    hide Linear, Queued, AllSettled, Recorded, Texts, Acted;
    LinearMore(g, d0, h, acts, op, a);
    QueuedChange(h, todo, ops, running, p, op);
    SettledChange(g, view, todo, op);
    RecordedMore(g, d0, h, op, commits, at);
  }

  /** A commit puts the file system after all the operations so far on record. */
  lemma Committed(g: Geometry, d0: Fs, h: seq<Op>, f: Fs, todo: seq<set<nat>>, ops: seq<set<nat>>,
          running: seq<Option<nat>>, lh: seq<nat>, view: RedoLog.Image, commits: seq<RedoLog.Image>, at: seq<nat>,
          view': RedoLog.Image)
    requires Queued(h, todo, ops, running) && running == [] && AllSettled(g, f, view, todo) && f == State(d0, h, |h|)
    requires Recorded(g, d0, h, commits, at) && Level(g.ll, lh, view, commits) && RedoLog.SameHomes(g.ll, view', view)
    ensures AllSettled(g, f, view', todo) && Level(g.ll, [], view', commits + if lh == [] then [] else [view])
    ensures Recorded(g, d0, h, commits + (if lh == [] then [] else [view]), at + if lh == [] then [] else [|h|])
  {
    hide Queued, AllSettled, Recorded, Level, RedoLog.SameHomes, Shows;
    SettledAll(g, h, f, view, todo, ops, running);
    SettledSame(g, f, view, view', todo);
    LevelAgain(g.ll, lh, view, commits, view');
    assert commits + [] == commits && at + [] == at;
    if lh != [] { RecordedNow(g, d0, h, commits, at, view); }
  }

  // ----- The acts -----

  /** A chunk: writei's guards and needs are those of filewrite. */
  lemma OneChunk(size: nat, off: nat, n: nat)
    requires size <= MAXFILE * BSIZE && n <= CHUNK
    ensures Refuses(size, off, n) ==> Room(size, off, n) == 0 == Cost(size, off, 0)
    ensures !Refuses(size, off, n) ==>
      Room(size, off, n) == n && off + n <= MAXFILE * BSIZE && Cost(size, off, n) == NewFor(size, off, n)
  {
    ChunkIs();
    if off <= size { MoreBlocks(off, size); }
  }

  lemma ChunkActed(f: Fs, f': Fs, c: Call)
    requires AllWhole(f) && c.i in f.inodes && f.inodes[c.i].size <= MAXFILE * BSIZE && |c.src| <= CHUNK
    requires if Refuses(f.inodes[c.i].size, c.off, |c.src|) then f' == f
      else Whole(f, c.i) && f'.inodes.Keys == f.inodes.Keys && Chunked(f, f', c.i, File(f, c.i), c.off, c.src)
    ensures Texts(f') == Wrote(Texts(f), c, 1)
  {
    hide Chunked, Refuses, Room, NoHoles;
    OneChunk(f.inodes[c.i].size, c.off, |c.src|);
    TextOf(f, c.i);
    if Refuses(f.inodes[c.i].size, c.off, |c.src|) {
      WroteNone(Texts(f), c);
    } else {
      ChunkedTexts(f, f', c.i, c.off, c.src);
      assert c.src[..|c.src|] == c.src;
    }
  }

  /** One chunk written over the contents. */
  lemma IsChunk(f: Fs, f': Fs, i: nat, off: nat, src: seq<Byte>)
    requires Whole(f, i) && Whole(f', i) && OtherFiles(f, f', i)
    requires off <= |File(f, i)| && off + |src| <= MAXFILE * BSIZE && File(f', i) == Splice(File(f, i), off, src)
    ensures Chunked(f, f', i, File(f, i), off, src)
  {}

  method ApplyWrite(fs: Disk, g: Geometry, c: Call) returns (alive: bool)
    requires fs.Valid() && fs.l == g.l && fs.inodestart == g.inodestart && Possible(g, fs.OnDisk(), Write(c))
    modifies fs
    ensures alive <==> !RunsOut(g, old(fs.OnDisk()), c)
    ensures if alive then Applied(fs, g, old(fs.OnDisk()), old(fs.history), Write(c)) else fs.history == old(fs.history)
  {
    hide InvBut, AllSized, OtherFiles, Covered, FreeBlocks, Shape, Placed, File, NoHoles, Splice, Texts, OpOk, Chunked,
      AllWhole, Wrote, Refuses, NewFor, Cost, Room, WriteSet;
    var f := fs.OnDisk();
    WholeInodes(fs);
    SizeFits(fs.inodes, fs.use, c.i);
    InvShape(fs.l, fs.S(), fs.use, 0);
    OneChunk(fs.inodes[c.i].size, c.off, |c.src|);
    var r := fs.Operation(c.i, c.off, c.src);
    alive := !r.OutOfBlocks?;
    if r.Written? { IsChunk(f, fs.OnDisk(), c.i, c.off, c.src); }
    if alive { ChunkActed(f, fs.OnDisk(), c); }
  }

  /** The operation was done, and did what its act says. */
  ghost predicate Applied(fs: Disk, g: Geometry, f: Fs, h: seq<Op>, a: Act)
    reads fs
  {
    && fs.Valid() && |fs.history| == |h| + 1 && fs.history[..|h|] == h
    && var op := fs.history[|h|];
      && OpOk(g.l, g.inodestart, op) && op.before == f && op.after == fs.OnDisk()
      && Texts(op.after) == Acted(Texts(f), a)
  }

  lemma EmptyActed(f: Fs, f': Fs, i: nat)
    requires AllWhole(f) && AllWhole(f') && Sized(f, f', i, 0) && OtherFiles(f, f', i)
    ensures Texts(f') == Acted(Texts(f), Empty(i))
  {
    hide NoHoles, OtherFiles;
    TextOf(f', i);
    TextsBut(f, f', i);
    assert i in Texts(f);
  }

  method ApplyEmpty(fs: Disk, g: Geometry, i: nat)
    requires fs.Valid() && fs.l == g.l && fs.inodestart == g.inodestart && Possible(g, fs.OnDisk(), Empty(i))
    modifies fs
    ensures Applied(fs, g, old(fs.OnDisk()), old(fs.history), Empty(i))
  {
    hide InvBut, AllSized, OtherFiles, Texts, OpOk, AllWhole;
    WholeInodes(fs);
    ghost var f := fs.OnDisk();
    Truncation.Discard(fs, i);
    WholeInodes(fs);
    EmptyActed(f, fs.OnDisk(), i);
  }

  // ----- The system -----

  /** With nothing logged, what is seen is the newest committed state. */
  ghost predicate Level(l: RedoLog.LogLayout, lh: seq<nat>, view: RedoLog.Image, commits: seq<RedoLog.Image>) {
    commits != [] && (lh == [] ==> RedoLog.SameHomes(l, view, commits[|commits| - 1]))
  }

  lemma LevelFirst(g: Geometry, f: Fs, lh: seq<nat>, view: RedoLog.Image, commits: seq<RedoLog.Image>)
    requires commits != [] && Shows(g, f, view) && Shows(g, f, commits[|commits| - 1])
    ensures Level(g.ll, lh, view, commits)
  {
    hide Encoded;
    var last := commits[|commits| - 1];
    forall b: nat ensures RedoLog.SameHome(g.ll, view, last, b) {
      assert ShowsAt(g, f, view, b) && ShowsAt(g, f, last, b);
    }
  }

  lemma LevelLogged(l: RedoLog.LogLayout, lh: seq<nat>, view: RedoLog.Image, commits: seq<RedoLog.Image>, b: nat)
    requires b in lh && commits != []
    ensures Level(l, lh, view, commits)
  {}

  lemma LevelAgain(l: RedoLog.LogLayout, lh: seq<nat>, view: RedoLog.Image, commits: seq<RedoLog.Image>,
          view': RedoLog.Image)
    requires Level(l, lh, view, commits) && RedoLog.SameHomes(l, view', view)
    ensures Level(l, [], view', commits + if lh == [] then [] else [view])
  {
    if lh == [] {
      var last := commits[|commits| - 1];
      assert commits + [] == commits;
      forall b: nat ensures RedoLog.SameHome(l, view', last, b) {
        assert RedoLog.SameHome(l, view', view, b) && RedoLog.SameHome(l, view, last, b);
      }
    }
  }

  /** A commit records the file system after all the operations so far. */
  lemma RecordedNow(g: Geometry, d0: Fs, h: seq<Op>, commits: seq<RedoLog.Image>, at: seq<nat>, view: RedoLog.Image)
    requires Recorded(g, d0, h, commits, at) && Shows(g, State(d0, h, |h|), view)
    ensures Recorded(g, d0, h, commits + [view], at + [|h|])
  {
    hide Shows;
    forall j: nat ensures CommitOk(g, d0, h, commits + [view], at + [|h|], j) {
      assert CommitOk(g, d0, h, commits, at, j);
    }
    forall j | 0 <= j < |at| ensures at[j] <= |h| { assert CommitOk(g, d0, h, commits, at, j); }
  }

  lemma RecordedOrder(g: Geometry, d0: Fs, h: seq<Op>, commits: seq<RedoLog.Image>, at: seq<nat>)
    requires Recorded(g, d0, h, commits, at)
    ensures forall i, j :: 0 <= i < j < |at| ==> at[i] <= at[j]
  {}

  /** What an operation has written, with the block it writes next, is within its quota. */
  lemma QueuedFacts(h: seq<Op>, todo: seq<set<nat>>, ops: seq<set<nat>>, running: seq<Option<nat>>, p: nat, b: nat)
    requires Queued(h, todo, ops, running) && p < |running| && running[p].Some? && Awaits(todo, running[p].value, b)
    ensures var x := running[p].value; x < |h| && b in h[x].logged && |ops[p] + {b}| <= |h[x].logged|
  {
    var x := running[p].value;
    assert Slot(h, ops, running, p) && Owed(h, todo, running, x);
    SubsetSize(ops[p] + {b}, h[x].logged);
  }

  lemma HomeBlock(g: Geometry, d0: Fs, h: seq<Op>, acts: seq<Act>, f: Fs, x: nat, b: nat)
    requires Laid(g) && Linear(g, d0, h, acts) && State(d0, h, |h|) == f && Suits(g, f) && x < |h| && b in h[x].logged
    ensures RedoLog.IsHome(g.ll, b) && |h[x].logged| <= RedoLog.MAXOPBLOCKS
  {
    hide Texts, Acted, Covered, Shape;
    assert OpAt(g, d0, h, acts, x);
    SameInodes(g, d0, h, acts, x + 1);
    assert Placed(g.l, g.inodestart, h[x].after, b);
  }

  lemma SameInodes(g: Geometry, d0: Fs, h: seq<Op>, acts: seq<Act>, n: nat)
    requires Linear(g, d0, h, acts) && n <= |h|
    ensures State(d0, h, n).inodes.Keys == State(d0, h, |h|).inodes.Keys
    decreases |h| - n
  {
    hide Texts, Acted, OpOk;
    if n < |h| {
      SameInodes(g, d0, h, acts, n + 1);
      assert OpAt(g, d0, h, acts, n);
      OpKeys(g, h[n]);
    }
  }

  lemma SettledFirst(g: Geometry, f: Fs, view: RedoLog.Image)
    requires Shows(g, f, view)
    ensures AllSettled(g, f, view, [])
  {
    hide ShowsAt;
  }

  /** The running operations came after the first `n`. */
  ghost predicate Later(n: nat, running: seq<Option<nat>>, len: nat) {
    n <= len && forall k :: 0 <= k < |running| && running[k].Some? ==> n <= running[k].value < len
  }

  lemma SeenThere(g: Geometry, bufs: seq<Buffers.Buf>, disk: RedoLog.Image, b: nat)
    requires Buffers.Sane(bufs, disk) && RedoLog.WholeDisk(g.ll, disk) && RedoLog.IsHome(g.ll, b)
    ensures |bufs| == Buffers.NBUF && b in Buffers.View(bufs, disk)
  {}

  class System {
    const fs: Disk
    const log: Logging.Log
    const g: Geometry
    ghost const d0: Fs
    ghost var acts: seq<Act>
    ghost var at: seq<nat>
    var todo: seq<set<nat>>
    var running: seq<Option<nat>>

    ghost function Here(): Sys
      reads this, fs, log, log.c
    {
      Sys(fs.OnDisk(), fs.history, acts, todo, running, log.lh, log.committing, log.c.bufs, log.c.Sees(), log.commits,
        at)
    }

    /** What holds also after a panic: every committed state is the file system after some of the operations, and these
        did what their acts say. */
    ghost predicate Safe()
      reads this, fs, log, log.c
    {
      Told(log, g, d0, fs.history, at) && Linear(g, d0, fs.history, acts)
    }

    ghost predicate Valid()
      reads this, fs, log, log.c
    {
      && Safe() && fs.Valid() && fs.l == g.l && fs.inodestart == g.inodestart && log.Valid() && Laid(g)
      && Suits(g, fs.OnDisk()) && State(d0, fs.history, |fs.history|) == fs.OnDisk()
      && |todo| == |fs.history| && |running| == |log.ops|
      && Queued(fs.history, todo, log.ops, running) && AllSettled(g, fs.OnDisk(), log.c.Sees(), todo)
      && log.commits != [] && Level(log.l, log.lh, log.c.Sees(), log.commits)
      && (running == [] && !log.committing ==> log.lh == [])
      && |at| > 0 && Later(at[|at| - 1], running, |fs.history|)
    }

    constructor (fs: Disk, log: Logging.Log, g: Geometry)
      requires Joint(fs, log, g, fs.OnDisk(), [0]) && fs.history == []
      ensures this.fs == fs && this.log == log && this.g == g && this.d0 == fs.OnDisk()
      ensures Valid() && acts == [] && running == [] && at == [0]
    {
      hide Shows, Level, AllSettled, Recorded, Suits, Shape;
      hide RedoLog.GoodHead, History.Kept, Admission.Admitted, Buffers.View, Buffers.Sane, Pins.Pinned, Logging.Readers;
      this.fs, this.log, this.g, this.d0 := fs, log, g, fs.OnDisk();
      acts, at, todo, running := [], [0], [], [];
      SettledFirst(g, fs.OnDisk(), log.c.Sees());
      LevelFirst(g, fs.OnDisk(), log.lh, log.c.Sees(), log.commits);
    }

    /** Event `e`: it can happen exactly if it is enabled, it is a panic exactly as `Panics` says, otherwise its effect
        is as `Happens` says, and the invariant is kept. What was on record stays. */
    twostate predicate Does(e: Event, alive: bool)
      reads this, fs, log, log.c
    {
      && Safe() && (alive ==> Valid()) && (alive <==> !(Enabled(g, old(Here()), e) && Panics(g, old(Here()), e)))
      && (alive && Enabled(g, old(Here()), e) ==> Happens(g, old(Here()), e, Here()))
      && (alive && !Enabled(g, old(Here()), e) ==> Here() == old(Here()))
      && (!alive ==>
            acts == old(acts) && at == old(at) && fs.history == old(fs.history) && log.commits == old(log.commits))
      && old(fs.history) <= fs.history && old(acts) <= acts && old(at) <= at
      && old(log.story) <= log.story && old(log.c.images) <= log.c.images
    }

    /** begin_op. */
    method Starts()
      requires Valid()
      modifies this, log
      ensures Does(Begin, true)
    {
      hide Recorded, Linear, Suits, Laid, Queued, AllSettled, Level, Buffers.View, Shape;
      hide RedoLog.GoodHead, History.Kept, Admission.Admitted, Logging.Readers, Buffers.Sane, Pins.Pinned;
      ghost var ops := log.ops;
      var ok := log.BeginOp();
      if ok {
        QueuedBegin(fs.history, todo, ops, running);
        running := running + [None];
      }
    }

    /** The operation's changes to the files, in one step. */
    method Changes(p: nat, a: Act) returns (alive: bool)
      requires Valid()
      modifies this, fs
      ensures Does(Change(p, a), alive)
    {
      hide Recorded, Linear, Suits, Laid, Queued, AllSettled, Level, Buffers.View, Shape, InvBut, AllSized, RunsOut,
        Texts, Acted, OpOk;
      hide RedoLog.GoodHead, History.Kept, Admission.Admitted, Logging.Readers, Buffers.Sane, Pins.Pinned;
      if !(p < |running| && running[p].None? && Possible(g, fs.OnDisk(), a)) { return true; }
      var h := fs.history;
      alive := true;
      if a.Write? { alive := ApplyWrite(fs, g, a.c); } else { ApplyEmpty(fs, g, a.i); }
      if !alive { return; }
      var op := fs.history[|h|];
      assert fs.history == h + [op];
      SuitsAfter(g, op);
      Entered(g, d0, h, acts, op, a, todo, log.ops, running, p, log.c.Sees(), log.commits, at);
      running := running[p := Some(|h|)];
      todo := todo + [op.logged];
      acts := acts + [a];
    }

    /** bread, a change to the contents, log_write and brelse. */
    method Writes(p: nat, b: nat, data: RedoLog.Block, done: bool) returns (alive: bool)
      requires Valid() && |data| == RedoLog.NWORDS && Busied(running, todo, log.c.bufs, p, b)
      requires var x := running[p].value;
        done ==> !Earlier(todo, x, b) && x < |fs.history| && data == Encoded(g, fs.history[x].after, b)
      modifies this, log, log.c
      ensures Does(if done then Put(p, b) else Draft(p, b, data), alive)
    {
      hide Recorded, Linear, Suits, Laid, Queued, AllSettled, Level, Buffers.View, Shape, InvBut, AllSized, Encoded;
      hide RedoLog.GoodHead, History.Kept, Admission.Admitted, Logging.Readers, Buffers.Sane, Pins.Pinned;
      var x := running[p].value;
      ghost var view, ops := log.c.Sees(), log.ops;
      QueuedFacts(fs.history, todo, ops, running, p, b);
      HomeBlock(g, d0, fs.history, acts, fs.OnDisk(), x, b);
      alive := log.Write(p, b, data);
      if !alive { return; }
      if done {
        SettledPut(g, d0, fs.history, acts, view, todo, ops, running, x, b);
        QueuedPut(fs.history, todo, ops, running, p, b, todo[x] - {b});
        todo := todo[x := todo[x] - {b}];
      } else {
        SettledDraft(g, fs.OnDisk(), view, todo, x, b, data);
        QueuedPut(fs.history, todo, ops, running, p, b, todo[x]);
        assert todo[x := todo[x]] == todo;
      }
      LevelLogged(log.l, log.lh, log.c.Sees(), log.commits, b);
    }

    /** bread by somebody else. */
    method Reads(b: nat) returns (alive: bool)
      requires Valid()
      modifies log.c
      ensures Does(Read(b), alive)
    {
      hide Recorded, Linear, Suits, Laid, Queued, AllSettled, Level, Buffers.View, Shape, InvBut, AllSized, Encoded;
      hide RedoLog.GoodHead, History.Kept, Admission.Admitted, Logging.Readers, Buffers.Sane, Pins.Pinned;
      if !(RedoLog.IsHome(log.l, b) && Logging.NotLocked(log.c.bufs, b)) { return true; }
      ghost var w := Here();
      SeenThere(g, log.c.bufs, log.c.disk, b);
      var r := log.ReadIn(b);
      alive := r.Some?;
      if alive { assert ReadsIn(w, b, r.value, Here()); }
    }

    /** brelse. */
    method Releases(i: nat)
      requires Valid()
      modifies log.c
      ensures Does(Release(i), true)
    {
      hide Recorded, Linear, Suits, Laid, Queued, AllSettled, Level, Buffers.View, Shape, InvBut, AllSized, Encoded;
      hide RedoLog.GoodHead, History.Kept, Admission.Admitted, Logging.Readers, Pins.Pinned;
      if i < |log.c.bufs| && log.c.bufs[i].locked { log.LetGo(i); }
    }

    /** end_op, up to the commit. */
    method Ends(p: nat)
      requires Valid()
      modifies this, log
      ensures Does(End(p), true)
    {
      hide Recorded, Linear, Suits, Laid, Queued, AllSettled, Level, Buffers.View, Shape, InvBut, AllSized, Encoded;
      hide RedoLog.GoodHead, History.Kept, Admission.Admitted, Logging.Readers, Buffers.Sane, Pins.Pinned;
      if p < |running| && Finished(running[p], todo) {
        QueuedEnd(fs.history, todo, log.ops, running, p);
        var c := log.EndOp(p);
        running := running[..p] + running[p + 1..];
      }
    }

    /** commit, and what end_op does then. */
    method Commits() returns (alive: bool)
      requires Valid()
      modifies this, log, log.c
      ensures Does(Commit, alive)
    {
      hide Recorded, Linear, Suits, Laid, Queued, AllSettled, Level, Buffers.View, Shape, InvBut, AllSized, Encoded;
      hide RedoLog.GoodHead, History.Kept, Admission.Admitted, Logging.Readers, Buffers.Sane, Pins.Pinned,
        RedoLog.SameHomes, RedoLog.CommitShots, History.Repeat, Shows;
      if !(log.committing && Logging.Clear(log.c.bufs)) { return true; }
      ghost var view, commits, lh := log.c.Sees(), log.commits, log.lh;
      alive := log.Commit();
      if !alive { return; }
      log.Done();
      assert commits + [] == commits;
      Committed(g, d0, fs.history, fs.OnDisk(), todo, log.ops, running, lh, view, commits, at, log.c.Sees());
      at := at + if lh == [] then [] else [|fs.history|];
    }

    method Do(e: Event) returns (alive: bool)
      requires Valid()
      modifies this, fs, log, log.c
      ensures Does(e, alive)
    {
      hide Recorded, Linear, Suits, Laid, Queued, AllSettled, Level, Buffers.View, Shape, InvBut, AllSized, Encoded;
      hide RedoLog.GoodHead, History.Kept, Admission.Admitted, Logging.Readers, Buffers.Sane, Pins.Pinned;
      alive := true;
      match e {
        case Begin => Starts();
        case Change(p, a) => alive := Changes(p, a);
        case Draft(p, b, data) =>
          if Busied(running, todo, log.c.bufs, p, b) && |data| == RedoLog.NWORDS { alive := Writes(p, b, data, false); }
        case Put(p, b) =>
          if Busied(running, todo, log.c.bufs, p, b) && !Earlier(todo, running[p].value, b) {
            var data := Encoded(g, fs.history[running[p].value].after, b);
            alive := Writes(p, b, data, true);
          }
        case Read(b) => alive := Reads(b);
        case Release(i) => Releases(i);
        case End(p) => Ends(p);
        case Commit => alive := Commits();
      }
    }

    /** Any number of events, in any order, until a panic. */
    method Run(events: seq<Event>) returns (n: nat, ghost ws: seq<Sys>)
      requires Valid()
      modifies this, fs, log, log.c
      ensures Safe() && n <= |events| && |ws| == n + 1 && ws[0] == old(Here()) && Timely(ws[0])
      ensures forall i :: 0 <= i < n ==> Steps(g, ws[i], events[i], ws[i + 1])
      ensures n == |events| ==> Valid() && Here() == ws[n]
      ensures n < |events| ==> Enabled(g, ws[n], events[n]) && Panics(g, ws[n], events[n])
      ensures acts == ws[n].acts && at == ws[n].at && fs.history == ws[n].h && log.commits == ws[n].commits
      ensures old(log.story) <= log.story && old(log.c.images) <= log.c.images
    {
      hide Enabled, Panics, Happens, Recorded, Linear, Suits, Laid, Queued, AllSettled, Level, Buffers.View, Shape,
        InvBut, AllSized;
      hide RedoLog.GoodHead, History.Kept, Admission.Admitted, Logging.Readers, Buffers.Sane, Pins.Pinned;
      n, ws := 0, [Here()];
      RecordedOrder(g, d0, fs.history, log.commits, at);
      while n < |events|
        invariant Valid() && n <= |events| && |ws| == n + 1 && ws[0] == old(Here()) && ws[n] == Here()
        invariant forall i :: 0 <= i < n ==> Steps(g, ws[i], events[i], ws[i + 1])
        invariant old(log.story) <= log.story && old(log.c.images) <= log.c.images
      {
        var alive := Do(events[n]);
        if !alive { return; }
        ws := ws + [Here()];
        n := n + 1;
      }
    }
  }

  /** One event, not a panic. */
  ghost predicate Steps(g: Geometry, w: Sys, e: Event, w': Sys) {
    if Enabled(g, w, e) then !Panics(g, w, e) && Happens(g, w, e, w') else w' == w
  }

  // ----- What a crash leaves -----

  /** Crash safety with operations running at the same time: after a crash at any disk write and any recoveries, the
      files are what the first so many acts make of them. None is there in part. */
  lemma Recovers(sys: System, x: nat, stops: seq<nat>, r: RedoLog.Image, last: seq<nat>) returns (f: Fs, j: nat)
    requires sys.Safe() && x < |sys.log.c.images|
    requires RedoLog.Recoveries(sys.g.ll, sys.log.c.images[x], stops, r) && RedoLog.HasHead(sys.g.ll, r, last)
    ensures Shows(sys.g, f, RedoLog.RecoverTo(sys.g.ll, r, last, |last| + 1))
    ensures j < |sys.at| && sys.at[j] <= |sys.acts| && Texts(f) == Acts(Texts(sys.d0), sys.acts, sys.at[j])
  {
    hide Shows, Texts, Acts, History.Kept, Recorded;
    Recovered(sys.log, sys.g, sys.d0, sys.fs.history, sys.at, x, stops, r, last);
    j := sys.log.story[x];
    f := State(sys.d0, sys.fs.history, sys.at[j]);
    LinearTexts(sys.g, sys.d0, sys.fs.history, sys.acts, sys.at[j]);
  }

  /** Durability: when no operation runs and none waits for the commit, all acts are there after any crash. */
  lemma Rests(sys: System, stops: seq<nat>, r: RedoLog.Image, last: seq<nat>)
    requires sys.Valid() && sys.running == [] && !sys.log.committing
    requires RedoLog.Recoveries(sys.g.ll, sys.log.c.disk, stops, r) && RedoLog.HasHead(sys.g.ll, r, last)
    ensures Shows(sys.g, sys.fs.OnDisk(), RedoLog.RecoverTo(sys.g.ll, r, last, |last| + 1))
    ensures Texts(sys.fs.OnDisk()) == Acts(Texts(sys.d0), sys.acts, |sys.acts|)
  {
    hide Shows, Texts, Acts, AllSettled, Queued, Suits, OpAt, Recorded, RedoLog.Worth, Buffers.View, InvBut, AllSized;
    var log, g, f := sys.log, sys.g, sys.fs.OnDisk();
    var view, want := log.c.Sees(), log.commits[|log.commits| - 1];
    SettledAll(g, sys.fs.history, f, view, sys.todo, log.ops, sys.running);
    LastSeen(g, f, view, want);
    assert RedoLog.Recovers(g.ll, log.c.disk, want);
    RedoLog.RecoversMeans(g.ll, log.c.disk, want, stops, r, last);
    ShowsSame(g, f, want, RedoLog.RecoverTo(g.ll, r, last, |last| + 1));
    LinearTexts(g, sys.d0, sys.fs.history, sys.acts, |sys.acts|);
  }

  lemma LastSeen(g: Geometry, f: Fs, view: RedoLog.Image, last: RedoLog.Image)
    requires Shows(g, f, view) && RedoLog.SameHomes(g.ll, view, last)
    ensures Shows(g, f, last)
  {
    hide Encoded;
    forall b: nat ensures ShowsAt(g, f, last, b) {
      assert ShowsAt(g, f, view, b) && RedoLog.SameHome(g.ll, view, last, b);
    }
  }

  /** Commits are made with no operation running, and the running ones came after them. */
  ghost predicate Timely(w: Sys) {
    && (w.committing ==> w.running == []) && |w.at| > 0 && Later(w.at[|w.at| - 1], w.running, |w.h|)
    && (forall i, j :: 0 <= i < j < |w.at| ==> w.at[i] <= w.at[j])
  }

  /** What was committed since has all the operations of before. */
  ghost predicate Outgrows(w: Sys, w': Sys) {
    w.at <= w'.at && |w.h| <= |w'.h| && forall j :: |w.at| <= j < |w'.at| ==> |w.h| <= w'.at[j]
  }

  lemma StepTimely(g: Geometry, w: Sys, e: Event, w': Sys)
    requires Timely(w) && Steps(g, w, e, w')
    ensures Timely(w') && Outgrows(w, w')
  {
    hide Panics, Texts, Acted, Possible, RedoLog.SameHomes, Encoded, Logging.Clear, Logging.Unheld, Logging.NotLocked;
  }

  lemma {:induction false} RunTimely(g: Geometry, events: seq<Event>, ws: seq<Sys>, i: nat, n: nat)
    requires i <= n < |ws| <= |events| + 1 && Timely(ws[i])
    requires forall k :: 0 <= k < n ==> Steps(g, ws[k], events[k], ws[k + 1])
    ensures Timely(ws[n]) && Outgrows(ws[i], ws[n])
    decreases n
  {
    hide Steps, Timely;
    if i < n {
      RunTimely(g, events, ws, i, n - 1);
      StepTimely(g, ws[n - 1], events[n - 1], ws[n]);
    }
  }

  /** Operations that were running at the same time are never separated: every committed state has both or neither. */
  lemma Together(g: Geometry, events: seq<Event>, ws: seq<Sys>, n: nat, i: nat, x: nat, y: nat, j: nat)
    requires i <= n < |ws| <= |events| + 1 && Timely(ws[0])
    requires forall k :: 0 <= k < n ==> Steps(g, ws[k], events[k], ws[k + 1])
    requires Some(x) in ws[i].running && Some(y) in ws[i].running && j < |ws[n].at|
    ensures x < ws[n].at[j] <==> y < ws[n].at[j]
  {
    hide Steps;
    RunTimely(g, events, ws, 0, i);
    RunTimely(g, events, ws, i, n);
    var w := ws[i];
    assert j < |w.at| ==> w.at[j] <= w.at[|w.at| - 1];
  }

  // ----- Readers -----

  /** One reader more holds the buffer, or the same buffers if it was held. */
  lemma ReadBusy(w: Sys, b: nat, r: nat, w': Sys)
    requires ReadsIn(w, b, r, w')
    ensures Pins.Busy(w'.bufs) == Pins.Busy(w.bufs) + {r} && Pins.Dirty(w'.bufs) == Pins.Dirty(w.bufs)
  {}

  /** A read that is let go again leaves the buffers held that were held before, and nothing in the way of a commit. */
  lemma ReadRelease(g: Geometry, w: Sys, b: nat, r: nat, w1: Sys, w2: Sys)
    requires Happens(g, w, Read(b), w1) && ReadsIn(w, b, r, w1) && Happens(g, w1, Release(r), w2)
    ensures Enabled(g, w1, Release(r)) && SameReaders(w, w2) && w2 == w.(bufs := w2.bufs)
    ensures Enabled(g, w, Commit) <==> Enabled(g, w2, Commit)
    ensures Enabled(g, w, Read(b)) ==> Enabled(g, w2, Read(b))
  {
    ReadBusy(w, b, r, w1);
    assert Pins.Dirty(w2.bufs) == Pins.Dirty(w.bufs);
    assert Pins.Busy(w2.bufs) == Pins.Busy(w.bufs);
  }
}
