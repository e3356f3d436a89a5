/** Bytes, the 32-bit words in them, and the bits of the free map. */
module Bytes {

  const BSIZE: nat := 512
  const BPB: nat := 4096       // bits in a block of the free map

  type Byte = bv8

  type Block = b: seq<Byte> | |b| == BSIZE witness seq(BSIZE, i => 0)

  function Zero(): Block { seq(BSIZE, i => 0) }

  function Weight(x: Byte, m: Byte, w: nat): nat { if x & m != 0 then w else 0 }

  /** A byte as a number, bit by bit. */
  function Int(x: Byte): nat {
    Weight(x, 1, 1) + Weight(x, 2, 2) + Weight(x, 4, 4) + Weight(x, 8, 8) + Weight(x, 16, 16) + Weight(x, 32, 32)
    + Weight(x, 64, 64) + Weight(x, 128, 128)
  }

  function Flag(b: bool, m: Byte): Byte { if b then m else 0 }

  function Pack(b0: bool, b1: bool, b2: bool, b3: bool, b4: bool, b5: bool, b6: bool, b7: bool): Byte {
    Flag(b0, 1) | Flag(b1, 2) | Flag(b2, 4) | Flag(b3, 8) | Flag(b4, 16) | Flag(b5, 32) | Flag(b6, 64) | Flag(b7, 128)
  }

  lemma Packed(b0: bool, b1: bool, b2: bool, b3: bool, b4: bool, b5: bool, b6: bool, b7: bool)
    ensures var x := Pack(b0, b1, b2, b3, b4, b5, b6, b7);
      && (x & 1 != 0) == b0 && (x & 2 != 0) == b1 && (x & 4 != 0) == b2 && (x & 8 != 0) == b3
      && (x & 16 != 0) == b4 && (x & 32 != 0) == b5 && (x & 64 != 0) == b6 && (x & 128 != 0) == b7
  {}

  predicate Odd(v: nat) { v % 2 == 1 }

  function Half(v: nat): nat { v / 2 }

  /** The low eight bits of a number, found by halving. */
  function Low(v: nat): Byte {
    var h1 := Half(v); var h2 := Half(h1); var h3 := Half(h2); var h4 := Half(h3);
    var h5 := Half(h4); var h6 := Half(h5); var h7 := Half(h6);
    Pack(Odd(v), Odd(h1), Odd(h2), Odd(h3), Odd(h4), Odd(h5), Odd(h6), Odd(h7))
  }

  function One(b: bool): nat { if b then 1 else 0 }

  lemma Halves(v: nat)
    ensures v == One(Odd(v)) + 2 * Half(v)
  {}

  /** A packed byte as a number. */
  lemma PackInt(b0: bool, b1: bool, b2: bool, b3: bool, b4: bool, b5: bool, b6: bool, b7: bool)
    ensures Int(Pack(b0, b1, b2, b3, b4, b5, b6, b7)) ==
            One(b0) + 2 * (One(b1)
              + 2 * (One(b2) + 2 * (One(b3) + 2 * (One(b4) + 2 * (One(b5) + 2 * (One(b6) + 2 * One(b7)))))))
  {
    Packed(b0, b1, b2, b3, b4, b5, b6, b7);
    hide Pack;
  }

  lemma LowInt(v: nat)
    ensures Int(Low(v)) == v % 256
  {
    hide Odd;
    hide Half;
    hide Int;
    hide Pack;
    var h1 := Half(v); var h2 := Half(h1); var h3 := Half(h2); var h4 := Half(h3);
    var h5 := Half(h4); var h6 := Half(h5); var h7 := Half(h6);
    Halves(v); Halves(h1); Halves(h2); Halves(h3); Halves(h4); Halves(h5); Halves(h6); Halves(h7);
    FourOf(v, h1, h2, h3, h4, Odd(v), Odd(h1), Odd(h2), Odd(h3));
    FourOf(h4, h5, h6, h7, Half(h7), Odd(h4), Odd(h5), Odd(h6), Odd(h7));
    Eight(v, h4, Half(h7), Odd(v), Odd(h1), Odd(h2), Odd(h3), Odd(h4), Odd(h5), Odd(h6), Odd(h7));
  }

  /** Two groups of four bits. */
  lemma Eight(v: nat, h4: nat, h8: nat, b0: bool, b1: bool, b2: bool, b3: bool, b4: bool, b5: bool, b6: bool, b7: bool)
    requires v == Four(b0, b1, b2, b3) + 16 * h4 && h4 == Four(b4, b5, b6, b7) + 16 * h8
    ensures Int(Pack(b0, b1, b2, b3, b4, b5, b6, b7)) == v % 256
  {
    PackInt(b0, b1, b2, b3, b4, b5, b6, b7);
    hide Pack;
    hide Int;
    Remainder(v, h8, Int(Pack(b0, b1, b2, b3, b4, b5, b6, b7)));
  }

  function Four(b0: bool, b1: bool, b2: bool, b3: bool): nat {
    One(b0) + 2 * (One(b1) + 2 * (One(b2) + 2 * One(b3)))
  }

  lemma FourOf(v: nat, h1: nat, h2: nat, h3: nat, h4: nat, b0: bool, b1: bool, b2: bool, b3: bool)
    requires v == One(b0) + 2 * h1 && h1 == One(b1) + 2 * h2 && h2 == One(b2) + 2 * h3 && h3 == One(b3) + 2 * h4
    ensures v == Four(b0, b1, b2, b3) + 16 * h4
  {}

  lemma Remainder(v: nat, q: nat, n: nat)
    requires v == n + 256 * q && n < 256
    ensures v % 256 == n
  {}

  /** The i-th little-endian word of a block. */
  function Word(b: Block, i: nat): nat
    requires i < 128
  {
    Int(b[4 * i]) + 256 * Int(b[4 * i + 1]) + 65536 * Int(b[4 * i + 2]) + 16777216 * Int(b[4 * i + 3])
  }

  function PutWord(b: Block, i: nat, v: nat): Block
    requires i < 128
  {
    b[4 * i := Low(v)][4 * i + 1 := Low(v / 256)][4 * i + 2 := Low(v / 65536)][4 * i + 3 := Low(v / 16777216)]
  }

  lemma WordPut(b: Block, i: nat, v: nat)
    requires i < 128 && v < 0x1_0000_0000
    ensures Word(PutWord(b, i, v), i) == v
    ensures forall j: nat :: j < 128 && j != i ==> Word(PutWord(b, i, v), j) == Word(b, j)
  {
    hide Int;
    hide Low;
    LowInt(v);
    LowInt(v / 256);
    LowInt(v / 65536);
    LowInt(v / 16777216);
    Digits(v);
    var p := PutWord(b, i, v);
    assert p[4 * i] == Low(v) && p[4 * i + 1] == Low(v / 256) && p[4 * i + 2] == Low(v / 65536)
      && p[4 * i + 3] == Low(v / 16777216);
    forall j: nat | j < 128 && j != i ensures Word(p, j) == Word(b, j) {
      assert p[4 * j] == b[4 * j] && p[4 * j + 1] == b[4 * j + 1] && p[4 * j + 2] == b[4 * j + 2]
        && p[4 * j + 3] == b[4 * j + 3];
    }
  }

  lemma Digits(v: nat)
    requires v < 0x1_0000_0000
    ensures v == v % 256 + 256 * (v / 256 % 256) + 65536 * (v / 65536 % 256) + 16777216 * (v / 16777216 % 256)
  {
    assert v == v % 256 + 256 * (v / 256);
    assert v / 256 == v / 256 % 256 + 256 * (v / 65536) by { assert v / 256 / 256 == v / 65536; }
    assert v / 65536 == v / 65536 % 256 + 256 * (v / 16777216) by { assert v / 65536 / 256 == v / 16777216; }
  }

  lemma ByteLess(x: Byte)
    ensures Int(x) < 256
  {}

  /** A word is stored with its lowest byte first. */
  lemma WordBytes(b: Block, i: nat)
    requires i < 128
    ensures Int(b[4 * i]) == Word(b, i) % 256 && Int(b[4 * i + 1]) == Word(b, i) / 256 % 256
    ensures Int(b[4 * i + 2]) == Word(b, i) / 65536 % 256 && Int(b[4 * i + 3]) == Word(b, i) / 16777216
  {
    ByteLess(b[4 * i]);
    ByteLess(b[4 * i + 1]);
    ByteLess(b[4 * i + 2]);
    ByteLess(b[4 * i + 3]);
    FourDigits(Int(b[4 * i]), Int(b[4 * i + 1]), Int(b[4 * i + 2]), Int(b[4 * i + 3]));
    hide Int;
  }

  lemma FourDigits(a: nat, b: nat, c: nat, d: nat)
    requires a < 256 && b < 256 && c < 256
    ensures var v := a + 256 * b + 65536 * c + 16777216 * d;
      a == v % 256 && b == v / 256 % 256 && c == v / 65536 % 256 && d == v / 16777216
  {
    var v := a + 256 * b + 65536 * c + 16777216 * d;
    assert v / 256 == b + 256 * c + 65536 * d;
    assert v / 65536 == c + 256 * d;
  }

  lemma WordZero(i: nat)
    requires i < 128
    ensures Word(Zero(), i) == 0
  {}

  function Mask(k: nat): Byte
    requires k < 8
  {
    (1 as Byte) << k
  }

  predicate Has(x: Byte, k: nat)
    requires k < 8
  {
    x & Mask(k) != 0
  }

  function With(x: Byte, k: nat): Byte
    requires k < 8
  {
    x | Mask(k)
  }

  function Without(x: Byte, k: nat): Byte
    requires k < 8
  {
    x & !Mask(k)
  }

  lemma MaskBits(x: Byte, k: nat, j: nat)
    requires k < 8 && j < 8
    ensures Has(With(x, k), j) <==> j == k || Has(x, j)
    ensures Has(Without(x, k), j) <==> j != k && Has(x, j)
  {
    hide Mask;
    MasksApart(k, j);
    if j == k { OneMask(x, Mask(k)); } else { TwoMasks(x, Mask(k), Mask(j)); }
  }

  lemma MasksApart(k: nat, j: nat)
    requires k < 8 && j < 8
    ensures Mask(k) != 0 && (k != j ==> Mask(k) & Mask(j) == 0)
  {
    Masks(k);
    Masks(j);
  }

  lemma Masks(k: nat)
    requires k < 8
    ensures Mask(k) == if k == 0 then 1 else if k == 1 then 2 else if k == 2 then 4 else if k == 3 then 8
                       else if k == 4 then 16 else if k == 5 then 32 else if k == 6 then 64 else 128
  {}

  lemma OneMask(x: Byte, m: Byte)
    requires m != 0
    ensures (x | m) & m != 0 && (x & !m) & m == 0
  {}

  lemma TwoMasks(x: Byte, m: Byte, n: Byte)
    requires m & n == 0
    ensures (x | m) & n == x & n == (x & !m) & n
  {}

  /** A number halved `k` times. */
  function Halved(n: nat, k: nat): nat
    decreases k
  {
    if k == 0 then n else Halved(n / 2, k - 1)
  }

  lemma HalfOf(b: bool, n: nat)
    ensures (One(b) + 2 * n) / 2 == n && Odd(One(b) + 2 * n) == b
  {}

  /** Binary digits as a number, the lowest first. */
  function Value(bits: seq<bool>): nat { if bits == [] then 0 else One(bits[0]) + 2 * Value(bits[1..]) }

  lemma {:induction false} Digit(bits: seq<bool>, k: nat)
    requires k < |bits|
    ensures Odd(Halved(Value(bits), k)) == bits[k]
    decreases k
  {
    HalfOf(bits[0], Value(bits[1..]));
    if k > 0 { Digit(bits[1..], k - 1); }
  }

  function BitsOf(x: Byte): seq<bool> {
    [x & 1 != 0, x & 2 != 0, x & 4 != 0, x & 8 != 0, x & 16 != 0, x & 32 != 0, x & 64 != 0, x & 128 != 0]
  }

  lemma ValueTwo(s: seq<bool>)
    requires |s| >= 2
    ensures Value(s) == One(s[0]) + 2 * One(s[1]) + 4 * Value(s[2..])
  {
    assert s[1..][1..] == s[2..];
  }

  lemma ValueOf(s: seq<bool>)
    requires |s| == 8
    ensures Value(s) == One(s[0]) + 2 * One(s[1]) + 4 * One(s[2]) + 8 * One(s[3]) + 16 * One(s[4]) + 32 * One(s[5])
      + 64 * One(s[6]) + 128 * One(s[7])
  {
    hide One, Value;
    ValueTwo(s);
    ValueTwo(s[2..]);
    assert s[2..][2..] == s[4..];
    ValueTwo(s[4..]);
    assert s[4..][2..] == s[6..];
    ValueTwo(s[6..]);
    assert s[6..][2..] == [] && Value([]) == 0 by { NoValue(); }
  }

  lemma NoValue()
    ensures Value([]) == 0
  {}

  lemma IntBits(x: Byte)
    ensures Int(x) == Value(BitsOf(x))
  {
    hide Value;
    ValueOf(BitsOf(x));
  }

  lemma MaskedBit(x: Byte, k: nat)
    requires k < 8
    ensures Has(x, k) <==> BitsOf(x)[k]
  {
    Masks(k);
    hide Mask;
  }

  /** A bit of a byte is that digit of it as a binary number, the lowest being bit 0. */
  lemma BitValue(x: Byte, k: nat)
    requires k < 8
    ensures Has(x, k) <==> Odd(Halved(Int(x), k))
  {
    hide Halved, Odd, Int, Value, Has;
    MaskedBit(x, k);
    IntBits(x);
    assert |BitsOf(x)| == 8;
    hide BitsOf;
    Digit(BitsOf(x), k);
  }

  /** Bit `i` of a block of the free map. */
  predicate BitAt(b: Block, i: nat)
    requires i < BPB
  {
    Has(b[i / 8], i % 8)
  }

  function SetBit(b: Block, i: nat): Block
    requires i < BPB
  {
    b[i / 8 := With(b[i / 8], i % 8)]
  }

  function ClearBit(b: Block, i: nat): Block
    requires i < BPB
  {
    b[i / 8 := Without(b[i / 8], i % 8)]
  }

  lemma Bits(b: Block, i: nat, j: nat)
    requires i < BPB && j < BPB
    ensures BitAt(SetBit(b, i), j) <==> j == i || BitAt(b, j)
    ensures BitAt(ClearBit(b, i), j) <==> j != i && BitAt(b, j)
  {
    hide BitAt, SetBit, ClearBit;
    if i / 8 == j / 8 { SameByte(b, i, j); } else { OtherByte(b, i, j); }
  }

  lemma SameByte(b: Block, i: nat, j: nat)
    requires i < BPB && j < BPB && i / 8 == j / 8
    ensures BitAt(SetBit(b, i), j) <==> j == i || BitAt(b, j)
    ensures BitAt(ClearBit(b, i), j) <==> j != i && BitAt(b, j)
  {
    hide Has, With, Without;
    MaskBits(b[i / 8], i % 8, j % 8);
    SamePlace(i, j);
  }

  lemma OtherByte(b: Block, i: nat, j: nat)
    requires i < BPB && j < BPB && i / 8 != j / 8
    ensures BitAt(SetBit(b, i), j) <==> BitAt(b, j)
    ensures BitAt(ClearBit(b, i), j) <==> BitAt(b, j)
  {
    hide Has, With, Without;
  }

  lemma SamePlace(i: nat, j: nat)
    requires i / 8 == j / 8
    ensures i == j <==> i % 8 == j % 8
  {}
}

/** Inodes, the blocks they own and the bytes they hold (fs.c). */
module Inodes {
  import opened Bytes

  const NDIRECT: nat := 12
  const NINDIRECT: nat := 128
  const MAXFILE: nat := 140
  const NSLOTS: nat := 141      // the direct blocks, the indirect block, and the entries in it

  /** The super block: `size` blocks in all, the free map from `bmapstart` on, data from `datastart` on. */
  datatype Layout = Layout(size: nat, bmapstart: nat, datastart: nat)

  /** An inode on the disk; `kind` is the word with type and major number, `links` the one with minor number and
      links. */
  datatype Inode = Inode(kind: nat, links: nat, size: nat, addrs: seq<nat>)

  /** The blocks as the log layer shows them, and the inodes in memory. */
  datatype Fs = Fs(blocks: map<nat, Block>, inodes: map<nat, Inode>)

  ghost predicate Shape(l: Layout, f: Fs) {
    && 0 < l.datastart <= l.size < 0x1_0000_0000
    && (forall b: nat :: b < l.size ==> l.bmapstart + b / BPB < l.datastart)
    && (forall b: nat :: b in f.blocks <==> b < l.size)
    && (forall i :: i in f.inodes ==> |f.inodes[i].addrs| == NDIRECT + 1)
  }

  /** The block number in slot `k` of inode `i`: 0 to 11 direct, 12 the indirect block, 13 on its entries; 0 is none. */
  ghost function At(f: Fs, i: nat, k: nat): nat
    requires i in f.inodes && |f.inodes[i].addrs| == NDIRECT + 1 && k < NSLOTS
  {
    var a := f.inodes[i].addrs;
    if k <= NDIRECT then a[k]
    else if a[NDIRECT] != 0 && a[NDIRECT] in f.blocks then Word(f.blocks[a[NDIRECT]], k - NDIRECT - 1)
    else 0
  }

  /** The slot of the n-th data block. */
  function DataSlot(bn: nat): nat { if bn < NDIRECT then bn else bn + 1 }

  /** Where the number of the n-th data block is: in the inode for the first twelve, then in the indirect block, whose
      own number is the thirteenth in the inode. */
  lemma DataAddress(f: Fs, i: nat, bn: nat)
    requires i in f.inodes && |f.inodes[i].addrs| == NDIRECT + 1 && bn < MAXFILE
    ensures var a := f.inodes[i].addrs;
      && (bn < 12 ==> At(f, i, DataSlot(bn)) == a[bn])
      && (bn >= 12 && a[12] != 0 && a[12] in f.blocks ==> At(f, i, DataSlot(bn)) == Word(f.blocks[a[12]], bn - 12))
  {
    hide Word;
  }

  /** The free map says block `b` is in use. */
  ghost predicate Bit(l: Layout, f: Fs, b: nat)
    requires Shape(l, f) && b < l.size
  {
    BitAt(f.blocks[l.bmapstart + b / BPB], b % BPB)
  }

  ghost predicate Owns(f: Fs, i: nat, k: nat, b: nat) {
    i in f.inodes && |f.inodes[i].addrs| == NDIRECT + 1 && k < NSLOTS && At(f, i, k) == b != 0
  }

  /** A slot is filled exactly if it is among the used ones, and then with the number of a data block. */
  ghost predicate SlotOk(l: Layout, f: Fs, use: map<nat, set<nat>>, i: nat, k: nat)
    requires Shape(l, f)
  {
    i in f.inodes && k < NSLOTS ==>
      && i in use
      && (At(f, i, k) != 0 <==> k in use[i])
      && (At(f, i, k) != 0 ==> l.datastart <= At(f, i, k) < l.size)
  }

  ghost predicate Sole(f: Fs, i: nat, k: nat, j: nat, m: nat) {
    forall b: nat :: Owns(f, i, k, b) && Owns(f, j, m, b) ==> i == j && k == m
  }

  /** Block `b` is in use exactly if it is not a data block, or is owned, or is `x`, just taken and not yet owned. */
  ghost predicate BitOk(l: Layout, f: Fs, x: nat, b: nat)
    requires Shape(l, f)
  {
    b < l.size ==> (Bit(l, f, b) <==> b < l.datastart || Owned(f, b) || b == x)
  }

  ghost predicate Owned(f: Fs, b: nat) {
    exists i: nat, k: nat :: Owns(f, i, k, b)
  }

  /** Block ownership, with `x` taken but not yet owned (0 for none). */
  ghost predicate InvBut(l: Layout, f: Fs, use: map<nat, set<nat>>, x: nat) {
    && Shape(l, f)
    && (forall i: nat, k: nat :: SlotOk(l, f, use, i, k))
    && (forall i: nat, k: nat, j: nat, m: nat :: Sole(f, i, k, j, m))
    && (forall b: nat :: BitOk(l, f, x, b))
    && (x != 0 ==> l.datastart <= x < l.size && !Owned(f, x))
  }

  ghost predicate Inv(l: Layout, f: Fs, use: map<nat, set<nat>>) { InvBut(l, f, use, 0) }

  // ----- Taking and giving back blocks -----

  /** What slots hold depends on the inodes and the indirect blocks alone. */
  lemma SameAt(l: Layout, f: Fs, g: Fs, use: map<nat, set<nat>>, x: nat, i: nat, k: nat)
    requires InvBut(l, f, use, x) && Shape(l, g) && g.inodes == f.inodes
    requires i in f.inodes && k < NSLOTS
    requires var t := f.inodes[i].addrs[NDIRECT]; t != 0 ==>
      t in f.blocks && t in g.blocks && g.blocks[t] == f.blocks[t]
    ensures At(g, i, k) == At(f, i, k)
  {
    hide Word;
    hide PutWord;
    assert SlotOk(l, f, use, i, NDIRECT);
  }

  function MapBlock(l: Layout, b: nat): nat { l.bmapstart + b / BPB }

  /** The disk after balloc takes block `b`: marked in the free map and zeroed. */
  ghost function Taken(l: Layout, f: Fs, b: nat): Fs
    requires Shape(l, f) && b < l.size
  {
    var bm := MapBlock(l, b);
    assert l.bmapstart + b / BPB < l.datastart;
    f.(blocks := f.blocks[bm := SetBit(f.blocks[bm], b % BPB)][b := Zero()])
  }

  /** Different blocks have different bits. */
  lemma BitsApart(l: Layout, f: Fs, g: Fs, b: nat, c: nat, on: bool)
    requires Shape(l, f) && Shape(l, g) && b < l.size && c < l.size && MapBlock(l, c) < l.datastart
    requires MapBlock(l, b) < l.datastart
    requires g.blocks[MapBlock(l, b)] == if on then SetBit(f.blocks[MapBlock(l, b)], b % BPB)
      else ClearBit(f.blocks[MapBlock(l, b)], b % BPB)
    requires MapBlock(l, c) != MapBlock(l, b) ==> g.blocks[MapBlock(l, c)] == f.blocks[MapBlock(l, c)]
    ensures Bit(l, g, c) == if c == b then on else Bit(l, f, c)
  {
    Bits(f.blocks[MapBlock(l, b)], b % BPB, c % BPB);
    if MapBlock(l, c) == MapBlock(l, b) && c % BPB == b % BPB {
      assert c == c / BPB * BPB + c % BPB && b == b / BPB * BPB + b % BPB;
    }
  }

  lemma TakenInv(l: Layout, f: Fs, use: map<nat, set<nat>>, b: nat)
    requires Inv(l, f, use) && b < l.size && !Bit(l, f, b)
    ensures InvBut(l, Taken(l, f, b), use, b) && l.datastart <= b
    ensures forall i, k | i in f.inodes && 0 <= k < NSLOTS :: At(Taken(l, f, b), i, k) == At(f, i, k)
  {
    assert BitOk(l, f, 0, b);
    var g := Taken(l, f, b);
    assert MapBlock(l, b) < l.datastart;
    TakenAt(l, f, use, b);
    TakenRest(l, f, use, b);
  }

  lemma TakenAt(l: Layout, f: Fs, use: map<nat, set<nat>>, b: nat)
    requires Inv(l, f, use) && l.datastart <= b < l.size && !Bit(l, f, b) && MapBlock(l, b) < l.datastart
    ensures Shape(l, Taken(l, f, b))
    ensures forall i, k | i in f.inodes && 0 <= k < NSLOTS :: At(Taken(l, f, b), i, k) == At(f, i, k)
  {
    hide Word;
    hide PutWord;
    var g := Taken(l, f, b);
    assert BitOk(l, f, 0, b);
    forall i: nat, k: nat | i in f.inodes && k < NSLOTS ensures At(g, i, k) == At(f, i, k) {
      assert SlotOk(l, f, use, i, NDIRECT);
      assert !Owns(f, i, NDIRECT, b);
      SameAt(l, f, g, use, 0, i, k);
    }
  }

  lemma TakenRest(l: Layout, f: Fs, use: map<nat, set<nat>>, b: nat)
    requires Inv(l, f, use) && l.datastart <= b < l.size && !Bit(l, f, b) && MapBlock(l, b) < l.datastart
    requires Shape(l, Taken(l, f, b))
    requires forall i, k | i in f.inodes && 0 <= k < NSLOTS :: At(Taken(l, f, b), i, k) == At(f, i, k)
    ensures InvBut(l, Taken(l, f, b), use, b)
  {
    hide Word;
    hide PutWord;
    var g := Taken(l, f, b);
    hide At;
    forall i: nat, k: nat, c: nat ensures Owns(g, i, k, c) == Owns(f, i, k, c) {}
    forall c: nat ensures Owned(g, c) == Owned(f, c) {
      if i: nat, k: nat :| Owns(f, i, k, c) { assert Owns(g, i, k, c); }
      if i: nat, k: nat :| Owns(g, i, k, c) { assert Owns(f, i, k, c); }
    }
    assert BitOk(l, f, 0, b);
    forall i: nat, k: nat ensures SlotOk(l, g, use, i, k) { assert SlotOk(l, f, use, i, k); }
    forall i: nat, k: nat, j: nat, m: nat ensures Sole(g, i, k, j, m) { assert Sole(f, i, k, j, m); }
    forall c: nat ensures BitOk(l, g, b, c) {
      assert BitOk(l, f, 0, c);
      if c < l.size { assert MapBlock(l, c) < l.datastart; BitsApart(l, f, g, b, c, true); }
    }
  }

  /** The data block in slot `k` of inode `i`, if any, stays in its place with its contents. */
  ghost predicate DataKept(f: Fs, g: Fs, i: nat, k: nat) {
    i in f.inodes && |f.inodes[i].addrs| == NDIRECT + 1 && k < NSLOTS && k != NDIRECT && At(f, i, k) != 0 ==>
      && i in g.inodes && |g.inodes[i].addrs| == NDIRECT + 1 && At(g, i, k) == At(f, i, k)
      && At(f, i, k) in f.blocks && At(f, i, k) in g.blocks && g.blocks[At(f, i, k)] == f.blocks[At(f, i, k)]
  }

  ghost predicate AllKept(f: Fs, g: Fs) {
    forall i: nat, k: nat :: DataKept(f, g, i, k)
  }

  lemma KeptTwice(f: Fs, g: Fs, h: Fs)
    requires AllKept(f, g) && AllKept(g, h)
    ensures AllKept(f, h)
  {
    hide At;
    forall i: nat, k: nat ensures DataKept(f, h, i, k) { assert DataKept(f, g, i, k) && DataKept(g, h, i, k); }
  }

  lemma TakenKept(l: Layout, f: Fs, use: map<nat, set<nat>>, b: nat)
    requires Inv(l, f, use) && b < l.size && !Bit(l, f, b)
    ensures AllKept(f, Taken(l, f, b))
  {
    hide Word;
    hide PutWord;
    TakenInv(l, f, use, b);
    assert MapBlock(l, b) < l.datastart;
    var g := Taken(l, f, b);
    assert BitOk(l, f, 0, b);
    forall i: nat, k: nat ensures DataKept(f, g, i, k) {
      assert SlotOk(l, f, use, i, k);
      assert !Owns(f, i, k, b);
    }
  }

  /** Slot `k` of inode `i` is filled with block `x`: an address in the inode, or an entry of its indirect block. */
  ghost function Filled(l: Layout, f: Fs, i: nat, k: nat, x: nat): Fs
    requires Shape(l, f) && i in f.inodes && k < NSLOTS
    requires k > NDIRECT ==> f.inodes[i].addrs[NDIRECT] in f.blocks
  {
    var a := f.inodes[i].addrs;
    if k <= NDIRECT then f.(inodes := f.inodes[i := f.inodes[i].(addrs := a[k := x])])
    else f.(blocks := f.blocks[a[NDIRECT] := PutWord(f.blocks[a[NDIRECT]], k - NDIRECT - 1, x)])
  }

  /** Filling a slot changes that slot alone. */
  lemma FilledAt(l: Layout, f: Fs, use: map<nat, set<nat>>, i: nat, k: nat, x: nat, j: nat, m: nat)
    requires InvBut(l, f, use, x) && x != 0 && i in f.inodes && k < NSLOTS && i in use && k !in use[i]
      && (k > NDIRECT ==> NDIRECT in use[i])
    requires k > NDIRECT ==> f.inodes[i].addrs[NDIRECT] in f.blocks
    requires k == NDIRECT ==> f.blocks[x] == Zero() && forall e: nat :: e in use[i] ==> e <= NDIRECT
    requires j in f.inodes && m < NSLOTS
    ensures Shape(l, Filled(l, f, i, k, x))
    ensures At(Filled(l, f, i, k, x), j, m) == if j == i && m == k then x else At(f, j, m)
  {
    hide Word;
    hide PutWord;
    hide Zero;
    hide BitOk;
    var g := Filled(l, f, i, k, x);
    assert SlotOk(l, f, use, i, NDIRECT) && SlotOk(l, f, use, j, NDIRECT) && SlotOk(l, f, use, i, k)
      && SlotOk(l, f, use, j, m);
    if k > NDIRECT {
      var t := f.inodes[i].addrs[NDIRECT];
      WordPut(f.blocks[t], k - NDIRECT - 1, x);
      assert Owns(f, i, NDIRECT, t) && Sole(f, i, NDIRECT, j, NDIRECT);
    } else if k == NDIRECT && j == i && m > NDIRECT {
      WordZero(m - NDIRECT - 1);
    }
  }

  lemma FilledInv(l: Layout, f: Fs, use: map<nat, set<nat>>, i: nat, k: nat, x: nat)
    requires InvBut(l, f, use, x) && x != 0 && i in f.inodes && k < NSLOTS && i in use && k !in use[i]
      && (k > NDIRECT ==> NDIRECT in use[i])
    requires k > NDIRECT ==> f.inodes[i].addrs[NDIRECT] in f.blocks
    requires k == NDIRECT ==> f.blocks[x] == Zero() && forall e: nat :: e in use[i] ==> e <= NDIRECT
    ensures Inv(l, Filled(l, f, i, k, x), use[i := use[i] + {k}])
    ensures AllKept(f, Filled(l, f, i, k, x))
  {
    hide Word;
    hide PutWord;
    var g, use' := Filled(l, f, i, k, x), use[i := use[i] + {k}];
    FilledAt(l, f, use, i, k, x, i, k);
    forall j: nat, m: nat | j in f.inodes && m < NSLOTS
      ensures At(g, j, m) == if j == i && m == k then x else At(f, j, m)
    {
      FilledAt(l, f, use, i, k, x, j, m);
    }
    FilledRest(l, f, use, i, k, x);
    forall j: nat, m: nat ensures DataKept(f, g, j, m) {
      assert SlotOk(l, f, use, j, m);
      if k > NDIRECT && j in f.inodes && m < NSLOTS && m != NDIRECT {
        assert SlotOk(l, f, use, i, NDIRECT) && Sole(f, i, NDIRECT, j, m)
          && (At(f, j, m) != 0 ==> Owns(f, j, m, At(f, j, m)));
        assert Owns(f, i, NDIRECT, f.inodes[i].addrs[NDIRECT]);
      }
    }
  }

  lemma FilledRest(l: Layout, f: Fs, use: map<nat, set<nat>>, i: nat, k: nat, x: nat)
    requires InvBut(l, f, use, x) && x != 0 && i in f.inodes && k < NSLOTS && i in use && k !in use[i]
    requires k > NDIRECT ==> NDIRECT in use[i] && f.inodes[i].addrs[NDIRECT] in f.blocks
    requires Shape(l, Filled(l, f, i, k, x))
    requires forall j: nat, m: nat | j in f.inodes && m < NSLOTS ::
      At(Filled(l, f, i, k, x), j, m) == if j == i && m == k then x else At(f, j, m)
    ensures Inv(l, Filled(l, f, i, k, x), use[i := use[i] + {k}])
  {
    hide Word;
    hide PutWord;
    var g, use' := Filled(l, f, i, k, x), use[i := use[i] + {k}];
    assert SlotOk(l, f, use, i, k) && SlotOk(l, f, use, i, NDIRECT);
    hide At;
    forall j: nat, m: nat, c: nat ensures Owns(g, j, m, c) <==> Owns(f, j, m, c) || (j == i && m == k && c == x) {}
    forall c: nat ensures Owned(g, c) <==> Owned(f, c) || c == x {
      if j: nat, m: nat :| Owns(f, j, m, c) { assert Owns(g, j, m, c); }
      if j: nat, m: nat :| Owns(g, j, m, c) { assert Owns(f, j, m, c) || c == x; }
      assert Owns(g, i, k, x);
    }
    forall j: nat, m: nat ensures SlotOk(l, g, use', j, m) { assert SlotOk(l, f, use, j, m); }
    forall j: nat, m: nat, j': nat, m': nat ensures Sole(g, j, m, j', m') {
      assert Sole(f, j, m, j', m') && !Owned(f, x);
      assert !Owns(f, j, m, x) && !Owns(f, j', m', x);
    }
    forall c: nat ensures BitOk(l, g, 0, c) {
      assert BitOk(l, f, x, c);
      if c < l.size { assert MapBlock(l, c) < l.datastart; }
    }
  }

  /** Block `b` is marked free. */
  ghost function Unmarked(l: Layout, f: Fs, b: nat): Fs
    requires Shape(l, f) && b < l.size
  {
    var bm := MapBlock(l, b);
    assert l.bmapstart + b / BPB < l.datastart;
    f.(blocks := f.blocks[bm := ClearBit(f.blocks[bm], b % BPB)])
  }

  /** The block in slot `k` of inode `i` is freed and the slot emptied. */
  ghost function Dropped(l: Layout, f: Fs, i: nat, k: nat): Fs
    requires Shape(l, f) && i in f.inodes && k < NSLOTS && At(f, i, k) < l.size
    requires k > NDIRECT ==> l.datastart <= f.inodes[i].addrs[NDIRECT] < l.size
  {
    assert MapBlock(l, At(f, i, k)) < l.datastart;
    Filled(l, Unmarked(l, f, At(f, i, k)), i, k, 0)
  }

  lemma DroppedAt(l: Layout, f: Fs, use: map<nat, set<nat>>, i: nat, k: nat, j: nat, m: nat)
    requires Inv(l, f, use) && i in f.inodes && k < NSLOTS && i in use && k in use[i]
    requires k > NDIRECT ==> NDIRECT in use[i]
    requires k == NDIRECT ==> forall e: nat :: e in use[i] ==> e <= NDIRECT
    requires j in f.inodes && m < NSLOTS
    ensures l.datastart <= At(f, i, k) < l.size && (k > NDIRECT ==> l.datastart <= f.inodes[i].addrs[NDIRECT] < l.size)
    ensures Shape(l, Dropped(l, f, i, k))
    ensures At(Dropped(l, f, i, k), j, m) == if j == i && m == k then 0 else At(f, j, m)
  {
    hide Word;
    hide PutWord;
    hide BitOk;
    assert SlotOk(l, f, use, i, NDIRECT) && SlotOk(l, f, use, j, NDIRECT) && SlotOk(l, f, use, i, k)
      && SlotOk(l, f, use, j, m);
    var b := At(f, i, k);
    assert MapBlock(l, b) < l.datastart;
    var g := Dropped(l, f, i, k);
    if k > NDIRECT {
      var t := f.inodes[i].addrs[NDIRECT];
      WordPut(f.blocks[t], k - NDIRECT - 1, 0);
      assert Owns(f, i, NDIRECT, t) && Sole(f, i, NDIRECT, j, NDIRECT);
    }
  }

  lemma DroppedInv(l: Layout, f: Fs, use: map<nat, set<nat>>, i: nat, k: nat)
    requires Inv(l, f, use) && i in f.inodes && k < NSLOTS && i in use && k in use[i]
    requires k > NDIRECT ==> NDIRECT in use[i]
    requires k == NDIRECT ==> forall e: nat :: e in use[i] ==> e <= NDIRECT
    ensures l.datastart <= At(f, i, k) < l.size && (k > NDIRECT ==> l.datastart <= f.inodes[i].addrs[NDIRECT] < l.size)
    ensures Bit(l, f, At(f, i, k))
    ensures Inv(l, Dropped(l, f, i, k), use[i := use[i] - {k}])
    ensures forall j: nat, m: nat :: j != i || m != k ==> DataKept(f, Dropped(l, f, i, k), j, m)
  {
    hide Word;
    hide PutWord;
    DroppedAt(l, f, use, i, k, i, k);
    var g := Dropped(l, f, i, k);
    var b := At(f, i, k);
    assert MapBlock(l, b) < l.datastart;
    assert Owns(f, i, k, b) && BitOk(l, f, 0, b);
    forall j: nat, m: nat | j in f.inodes && m < NSLOTS
      ensures At(g, j, m) == if j == i && m == k then 0 else At(f, j, m)
    {
      DroppedAt(l, f, use, i, k, j, m);
    }
    DroppedRest(l, f, use, i, k);
    forall j: nat, m: nat | j != i || m != k ensures DataKept(f, g, j, m) { DroppedKept(l, f, use, i, k, j, m); }
  }

  lemma DroppedKept(l: Layout, f: Fs, use: map<nat, set<nat>>, i: nat, k: nat, j: nat, m: nat)
    requires Inv(l, f, use) && i in f.inodes && k < NSLOTS && i in use && k in use[i]
    requires k > NDIRECT ==> NDIRECT in use[i]
    requires k == NDIRECT ==> forall e: nat :: e in use[i] ==> e <= NDIRECT
    requires l.datastart <= At(f, i, k) < l.size && (k > NDIRECT ==> l.datastart <= f.inodes[i].addrs[NDIRECT] < l.size)
    requires j != i || m != k
    ensures DataKept(f, Dropped(l, f, i, k), j, m)
  {
    hide Word;
    hide PutWord;
    assert MapBlock(l, At(f, i, k)) < l.datastart;
    assert SlotOk(l, f, use, j, m) && SlotOk(l, f, use, i, NDIRECT);
    if j in f.inodes && m < NSLOTS && m != NDIRECT && At(f, j, m) != 0 {
      DroppedAt(l, f, use, i, k, j, m);
      assert Sole(f, i, NDIRECT, j, m) && Owns(f, j, m, At(f, j, m));
      assert k > NDIRECT ==> Owns(f, i, NDIRECT, f.inodes[i].addrs[NDIRECT]);
      hide At;
    }
  }

  lemma DroppedRest(l: Layout, f: Fs, use: map<nat, set<nat>>, i: nat, k: nat)
    requires Inv(l, f, use) && i in f.inodes && k < NSLOTS && i in use && k in use[i]
    requires l.datastart <= At(f, i, k) < l.size && (k > NDIRECT ==> l.datastart <= f.inodes[i].addrs[NDIRECT] < l.size)
    requires Shape(l, Dropped(l, f, i, k))
    requires forall j: nat, m: nat | j in f.inodes && m < NSLOTS ::
      At(Dropped(l, f, i, k), j, m) == if j == i && m == k then 0 else At(f, j, m)
    ensures Inv(l, Dropped(l, f, i, k), use[i := use[i] - {k}])
  {
    hide Word;
    hide PutWord;
    var g, use', b := Dropped(l, f, i, k), use[i := use[i] - {k}], At(f, i, k);
    assert MapBlock(l, b) < l.datastart;
    assert SlotOk(l, f, use, i, k) && Owns(f, i, k, b);
    hide At;
    forall j: nat, m: nat, c: nat ensures Owns(g, j, m, c) <==> Owns(f, j, m, c) && c != b {
      assert Sole(f, i, k, j, m);
    }
    forall c: nat ensures Owned(g, c) <==> Owned(f, c) && c != b {
      if j: nat, m: nat :| Owns(f, j, m, c) && c != b { assert Owns(g, j, m, c); }
      if j: nat, m: nat :| Owns(g, j, m, c) { assert Owns(f, j, m, c); }
    }
    forall j: nat, m: nat ensures SlotOk(l, g, use', j, m) { assert SlotOk(l, f, use, j, m); }
    forall j: nat, m: nat, j': nat, m': nat ensures Sole(g, j, m, j', m') { assert Sole(f, j, m, j', m'); }
    forall c: nat ensures BitOk(l, g, 0, c) {
      assert BitOk(l, f, 0, c);
      if c < l.size { assert MapBlock(l, c) < l.datastart; BitsApart(l, f, g, b, c, false); }
    }
  }

  /** The contents of a block nobody owns do not matter. */
  lemma Irrelevant(l: Layout, f: Fs, g: Fs, use: map<nat, set<nat>>, t: nat)
    requires Inv(l, g, use) && l.datastart <= t < l.size && !Owned(g, t)
    requires t in f.blocks && f == g.(blocks := g.blocks[t := f.blocks[t]])
    ensures Inv(l, f, use) && AllKept(g, f)
  {
    hide Word;
    hide PutWord;
    assert Shape(l, f);
    forall i: nat, k: nat | i in f.inodes && k < NSLOTS ensures At(f, i, k) == At(g, i, k) {
      assert SlotOk(l, g, use, i, NDIRECT) && !Owns(g, i, NDIRECT, t);
    }
    hide At;
    forall j: nat, m: nat, c: nat ensures Owns(g, j, m, c) == Owns(f, j, m, c) {}
    forall c: nat ensures Owned(g, c) == Owned(f, c) {
      if j: nat, m: nat :| Owns(f, j, m, c) { assert Owns(g, j, m, c); }
      if j: nat, m: nat :| Owns(g, j, m, c) { assert Owns(f, j, m, c); }
    }
    forall j: nat, m: nat ensures SlotOk(l, f, use, j, m) { assert SlotOk(l, g, use, j, m); }
    forall j: nat, m: nat, j': nat, m': nat ensures Sole(f, j, m, j', m') { assert Sole(g, j, m, j', m'); }
    forall c: nat ensures BitOk(l, f, 0, c) {
      assert BitOk(l, g, 0, c);
      if c < l.size { assert MapBlock(l, c) < l.datastart; }
    }
    forall j: nat, m: nat ensures DataKept(g, f, j, m) { assert SlotOk(l, g, use, j, m) && !Owns(g, j, m, t); }
  }
}
