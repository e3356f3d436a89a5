/** A disk on which one chunk of filewrite logs as many blocks as an operation may. */
module ChunkLimit {
  import opened Bytes
  import opened Inodes
  import opened Contents
  import opened FileSystem
  import RedoLog

  const LAYOUT: Layout := Layout(12299, 2, 4095)
  const INODES: nat := 10                // the first block of inodes

  /** A data block that is a file of one byte; the file has the number of the block. */
  predicate Single(b: nat) { 4096 <= b < 8191 || 8192 <= b < 12287 }

  /** Everything else but the ten blocks of file 1 is free: one block in each of the four parts of the free map. */
  predicate Busy(b: nat) { b < 4095 || Single(b) || 12289 <= b }

  function ByteFor(b: nat): Byte {
    Pack(Busy(b), Busy(b + 1), Busy(b + 2), Busy(b + 3), Busy(b + 4), Busy(b + 5), Busy(b + 6), Busy(b + 7))
  }

  lemma ByteBits(b: nat, k: nat)
    requires k < 8
    ensures Has(ByteFor(b), k) <==> Busy(b + k)
  {
    hide Busy;
    Packed(Busy(b), Busy(b + 1), Busy(b + 2), Busy(b + 3), Busy(b + 4), Busy(b + 5), Busy(b + 6), Busy(b + 7));
    Masks(k);
    hide Pack, Mask;
  }

  function MapFor(m: nat): Block { seq(BSIZE, x requires x >= 0 => ByteFor(BPB * m + 8 * x)) }

  lemma MapBits(m: nat, i: nat)
    requires i < BPB
    ensures BitAt(MapFor(m), i) <==> Busy(BPB * m + i)
  {
    hide ByteFor, Has, Busy;
    ByteBits(BPB * m + 8 * (i / 8), i % 8);
    assert BPB * m + 8 * (i / 8) + i % 8 == BPB * m + i;
  }

  function Size(j: nat): nat { if j == 1 then 9 * BSIZE + 1 else 1 }

  function Addr(j: nat, k: nat): nat {
    if j == 1 then if k < 10 then 12289 + k else 0
    else if k == 0 then j else 0
  }

  function Files(): map<nat, Inode> {
    map j: nat | j < 12299 && (j == 1 || Single(j)) ::
      Inode(2, 1, Size(j), seq(NDIRECT + 1, k requires k >= 0 => Addr(j, k)))
  }

  predicate Exists(b: nat) { b < 12299 }

  function Image(): map<nat, Block> {
    map b: nat | b < 12299 && Exists(b) :: if 2 <= b < 6 then MapFor(b - 2) else Zero()
  }

  ghost function Use(): map<nat, set<nat>> {
    map j: nat | j < 12299 && (j == 1 || Single(j)) :: SlotsOf(Blocks(Size(j)))
  }

  ghost function Start(): Fs { Fs(Image(), Files()) }

  lemma StartShape()
    ensures Shape(LAYOUT, Start())
  {}

  lemma StartAt(j: nat, k: nat)
    requires j in Files() && k < NSLOTS
    ensures At(Start(), j, k) == Addr(j, k) && (Addr(j, k) != 0 <==> k in Use()[j])
  {
    hide MapFor;
    assert Blocks(1) == 1 && Blocks(9 * BSIZE + 1) == 10;
  }

  lemma StartOwned(b: nat)
    requires 4095 <= b < 12299
    ensures Owned(Start(), b) <==> Busy(b)
  {
    hide MapFor, At, Blocks;
    if Busy(b) {
      var j, k := if Single(b) then b else 1, if Single(b) then 0 else b - 12289;
      StartAt(j, k);
      assert Owns(Start(), j, k, b);
    }
    if j: nat, k: nat :| Owns(Start(), j, k, b) { StartAt(j, k); }
  }

  lemma StartBit(b: nat)
    requires b < 12299 && Shape(LAYOUT, Start())
    ensures Bit(LAYOUT, Start(), b) <==> Busy(b)
  {
    hide BitAt, MapFor, Busy;
    MapBits(b / BPB, b % BPB);
    assert Start().blocks[2 + b / BPB] == MapFor(b / BPB);
    assert BPB * (b / BPB) + b % BPB == b;
  }

  lemma StartInv()
    ensures Inv(LAYOUT, Start(), Use()) && AllSized(Files(), Use())
  {
    StartShape();
    hide Image, At, Blocks, SlotsOf, Bit;
    forall j: nat, k: nat ensures SlotOk(LAYOUT, Start(), Use(), j, k) {
      if j in Files() && k < NSLOTS { StartAt(j, k); }
    }
    forall j: nat, k: nat, i: nat, m: nat ensures Sole(Start(), j, k, i, m) {
      if j in Files() && k < NSLOTS { StartAt(j, k); }
      if i in Files() && m < NSLOTS { StartAt(i, m); }
    }
    forall b: nat ensures BitOk(LAYOUT, Start(), 0, b) {
      if b < 12299 { StartBit(b); }
      if 4095 <= b < 12299 { StartOwned(b); }
    }
    forall j: nat ensures UseOk(Files(), Use(), j) {}
  }

  /** The four free blocks are all in different parts of the free map. */
  lemma StartFree()
    requires Shape(LAYOUT, Start())
    ensures FreeBlocks(LAYOUT, Start()) == {4095, 8191, 12287, 12288}
    ensures Maps(LAYOUT, {4095, 8191, 12287, 12288}) == {2, 3, 4, 5}
  {
    hide Bit, Image;
    forall b: nat | b < 12299 ensures Bit(LAYOUT, Start(), b) <==> Busy(b) { StartBit(b); }
    var four := {4095, 8191, 12287, 12288};
    assert MapBlock(LAYOUT, 4095) == 2 && MapBlock(LAYOUT, 8191) == 3 && MapBlock(LAYOUT, 12287) == 4
      && MapBlock(LAYOUT, 12288) == 5;
    assert forall x :: x in Maps(LAYOUT, four) <==> x in {2, 3, 4, 5};
  }

  method Made() returns (fs: Disk)
    ensures fresh(fs) && fs.Valid() && fs.l == LAYOUT && fs.inodestart == INODES && fs.history == []
    ensures fs.S() == fs.OnDisk() == Start() && Shape(LAYOUT, Start()) && 1 in fs.inodes
    ensures fs.inodes[1].size == 9 * BSIZE + 1
  {
    hide InvBut, AllSized, Image;
    StartInv();
    InvShape(LAYOUT, Start(), Use(), 0);
    fs := new Disk(LAYOUT, INODES, Image(), Files(), Use());
  }

  lemma FourMore()
    ensures !Refuses(9 * BSIZE + 1, 9 * BSIZE + 1, 1536) && NewFor(9 * BSIZE + 1, 9 * BSIZE + 1, 1536) == 4
  {}

  /** filewrite's bound is reached: appending one chunk to file 1 logs the block it begins in, three new ones, the
      indirect block, which is new too, four blocks of the free map and the block of the inode. */
  method Reached() returns (fs: Disk)
    ensures fresh(fs) && fs.Valid() && |fs.history| == 1 && |fs.history[0].logged| == RedoLog.MAXOPBLOCKS
  {
    hide InvBut, AllSized, FreeBlocks, Start, WriteSet, Covered, File, OtherFiles, NoHoles, NewFor, Refuses, Shape;
    fs := Made();
    StartFree();
    FourMore();
    ChunkIs();
    fs.BeginOp();
    var r := fs.Writei(1, 9 * BSIZE + 1, seq(CHUNK, i => 1));
    assert r.Written?;
    Ten(fs.S(), fs.use);
    fs.EndOp();
  }

  lemma Ten(g: Fs, use: map<nat, set<nat>>)
    requires Shape(LAYOUT, Start()) && Inv(LAYOUT, g, use) && AllSized(g.inodes, use) && Shape(LAYOUT, g)
    requires 1 in g.inodes && g.inodes[1].size == 9 * BSIZE + 1 + 1536
    requires FreeBlocks(LAYOUT, g) <= FreeBlocks(LAYOUT, Start())
      && |FreeBlocks(LAYOUT, g)| == |FreeBlocks(LAYOUT, Start())| - 4
    ensures |WriteSet(LAYOUT, INODES, Start(), g, 1, 9 * BSIZE + 1, 1536)| == 10
  {
    hide InvBut, FreeBlocks, Image, WriteSet;
    StartFree();
    assert UseOk(g.inodes, use, 1);
    hide AllSized;
    assert Blocks(9 * BSIZE + 1) == 10 && Blocks(9 * BSIZE + 1 + 1536) == 13 && Spans(9 * BSIZE + 1, 1536) == 4;
    forall bn: nat | 9 <= bn < 13 ensures HasSlot(use[1], bn) {}
    assert NDIRECT in SlotsOf(13);
    WriteExact(LAYOUT, INODES, Start(), g, use, 1, 9 * BSIZE + 1, 1536);
    assert FreeBlocks(LAYOUT, g) == {};
    assert TakenFrom(LAYOUT, Start(), g) == {4095, 8191, 12287, 12288};
  }
}
