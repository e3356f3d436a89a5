/** The on-disk redo log (log.c): what a crash between any two block writes leaves behind, and what recovery makes of
    it. */
module RedoLog {

  const LOGSIZE: nat := 30          // MAXOPBLOCKS * 3
  const MAXOPBLOCKS: nat := 10
  const NWORDS: nat := 128          // words in a block: BSIZE / 4

  /** A block as its 32-bit words. */
  type Block = seq<int>

  /** The contents of the disk. */
  type Image = map<nat, Block>

  /** Where the log is: the header at `start`, its log blocks after it, `size` blocks in all, on a disk of `nblocks`. */
  datatype LogLayout = LogLayout(start: nat, size: nat, nblocks: nat)

  predicate IsHome(l: LogLayout, b: nat) {
    b < l.nblocks && !(l.start <= b < l.start + l.size)
  }

  ghost predicate WholeDisk(l: LogLayout, m: Image) {
    && 1 <= l.size && l.start + l.size <= l.nblocks
    && (forall b: nat :: b in m <==> b < l.nblocks)
    && (forall b: nat :: b in m ==> |m[b]| == NWORDS)
  }

  /** A list of home blocks that fits in the log, each once. */
  ghost predicate GoodHead(l: LogLayout, hd: seq<nat>) {
    && |hd| <= LOGSIZE && |hd| < l.size
    && (forall i :: 0 <= i < |hd| ==> IsHome(l, hd[i]))
    && (forall i, j :: 0 <= i < j < |hd| ==> hd[i] != hd[j])
  }

  /** write_head: the count and the block numbers over the first words of the header block. */
  function EncodeHead(b: Block, hd: seq<nat>): Block
    requires |b| == NWORDS && |hd| <= LOGSIZE
  {
    [|hd|] + seq(|hd|, i requires 0 <= i < |hd| => hd[i]) + b[1 + |hd|..]
  }

  /** read_head: as many block numbers as the count says. */
  function DecodeHead(b: Block): seq<int>
    requires |b| == NWORDS && 0 <= b[0] <= LOGSIZE
  {
    b[1..1 + b[0]]
  }

  lemma HeadRoundTrip(b: Block, hd: seq<nat>)
    requires |b| == NWORDS && |hd| <= LOGSIZE
    ensures |EncodeHead(b, hd)| == NWORDS && EncodeHead(b, hd)[0] == |hd| && DecodeHead(EncodeHead(b, hd)) == hd
    ensures forall i :: 0 <= i < |hd| ==> EncodeHead(b, hd)[1 + i] == hd[i]
    ensures forall i :: |hd| < i < NWORDS ==> EncodeHead(b, hd)[i] == b[i]
  {
    var e := EncodeHead(b, hd);
    forall i | 0 <= i < |hd| ensures e[1 + i] == hd[i] {}
  }

  /** The loop of write_head. */
  method PutHead(b: Block, hd: seq<nat>) returns (r: Block)
    requires |b| == NWORDS && |hd| <= LOGSIZE
    ensures r == EncodeHead(b, hd)
  {
    r := b[0 := |hd|];
    for i := 0 to |hd|
      invariant |r| == NWORDS && r[0] == |hd| && r[1 + i..] == b[1 + i..]
      invariant forall k :: 0 <= k < i ==> r[1 + k] == hd[k]
    {
      r := r[1 + i := hd[i]];
      assert r[2 + i..] == b[2 + i..];
    }
    assert r[1..1 + |hd|] == seq(|hd|, i requires 0 <= i < |hd| => hd[i]);
    assert r == [r[0]] + r[1..1 + |hd|] + r[1 + |hd|..];
  }

  /** The loop of read_head. */
  method GetHead(b: Block, ghost hd: seq<nat>) returns (r: seq<nat>)
    requires |b| == NWORDS && 0 <= b[0] <= LOGSIZE && DecodeHead(b) == hd
    ensures r == hd && |r| == b[0] && forall i :: 0 <= i < |r| ==> r[i] == b[1 + i]
  {
    r := [];
    for i := 0 to b[0]
      invariant r == hd[..i]
    {
      assert b[1..1 + b[0]][i] == b[1 + i];
      r := r + [b[1 + i]];
    }
  }

  /** The disk's header lists `hd`. */
  ghost predicate HasHead(l: LogLayout, m: Image, hd: seq<nat>) {
    WholeDisk(l, m) && GoodHead(l, hd) && 0 <= m[l.start][0] <= LOGSIZE && DecodeHead(m[l.start]) == hd
  }

  // ----- The block writes of commit and of recovery, one by one -----

  /** The i-th block of the log. */
  function LogBlock(l: LogLayout, i: nat): nat { l.start + 1 + i }

  /** The disk after the first `k` writes of write_log, the blocks' new contents being those of `view`. */
  ghost function Logged(l: LogLayout, m: Image, hd: seq<nat>, view: Image, k: nat): (r: Image)
    requires WholeDisk(l, m) && WholeDisk(l, view) && GoodHead(l, hd) && k <= |hd|
    ensures WholeDisk(l, r)
  {
    if k == 0 then m
    else
      assert IsHome(l, hd[k - 1]);
      Logged(l, m, hd, view, k - 1)[LogBlock(l, k - 1) := view[hd[k - 1]]]
  }

  /** The disk after write_head. */
  ghost function Headed(l: LogLayout, m: Image, hd: seq<nat>): (r: Image)
    requires WholeDisk(l, m) && |hd| <= LOGSIZE
    ensures WholeDisk(l, r)
  {
    HeadRoundTrip(m[l.start], hd);
    m[l.start := EncodeHead(m[l.start], hd)]
  }

  /** The disk after the first `k` writes of install_trans. */
  ghost function Installed(l: LogLayout, m: Image, hd: seq<nat>, k: nat): (r: Image)
    requires WholeDisk(l, m) && GoodHead(l, hd) && k <= |hd|
    ensures WholeDisk(l, r)
  {
    if k == 0 then m
    else
      var p := Installed(l, m, hd, k - 1);
      assert IsHome(l, hd[k - 1]);
      p[hd[k - 1] := p[LogBlock(l, k - 1)]]
  }

  /** The disk after each of the first `k` writes of write_log. */
  ghost function LogShots(l: LogLayout, m: Image, hd: seq<nat>, view: Image, k: nat): (s: seq<Image>)
    requires WholeDisk(l, m) && WholeDisk(l, view) && GoodHead(l, hd) && k <= |hd|
    ensures |s| == k && forall j :: 0 <= j < k ==> s[j] == Logged(l, m, hd, view, j + 1)
  {
    if k == 0 then [] else LogShots(l, m, hd, view, k - 1) + [Logged(l, m, hd, view, k)]
  }

  /** The disk after each of the first `k` writes of install_trans. */
  ghost function InstallShots(l: LogLayout, m: Image, hd: seq<nat>, k: nat): (s: seq<Image>)
    requires WholeDisk(l, m) && GoodHead(l, hd) && k <= |hd|
    ensures |s| == k && forall j :: 0 <= j < k ==> s[j] == Installed(l, m, hd, j + 1)
  {
    if k == 0 then [] else InstallShots(l, m, hd, k - 1) + [Installed(l, m, hd, k)]
  }

  /** The disk after each write of commit. */
  ghost function CommitShots(l: LogLayout, m: Image, hd: seq<nat>, view: Image): (s: seq<Image>)
    requires WholeDisk(l, m) && WholeDisk(l, view) && GoodHead(l, hd)
    ensures |s| == 2 * |hd| + 2
    ensures forall j :: 0 <= j < |s| ==> s[j] == CommitTo(l, m, hd, view, j + 1)
  {
    var h := Headed(l, Logged(l, m, hd, view, |hd|), hd);
    LogShots(l, m, hd, view, |hd|) + [h] + InstallShots(l, h, hd, |hd|) + [Headed(l, Installed(l, h, hd, |hd|), [])]
  }

  /** The disk after the first `k` of the 2n + 2 block writes of commit. */
  ghost function CommitTo(l: LogLayout, m: Image, hd: seq<nat>, view: Image, k: nat): (r: Image)
    requires WholeDisk(l, m) && WholeDisk(l, view) && GoodHead(l, hd) && k <= 2 * |hd| + 2
    ensures WholeDisk(l, r)
  {
    if k <= |hd| then Logged(l, m, hd, view, k)
    else
      var h := Headed(l, Logged(l, m, hd, view, |hd|), hd);
      if k <= 2 * |hd| + 1 then Installed(l, h, hd, k - |hd| - 1)
      else Headed(l, Installed(l, h, hd, |hd|), [])
  }

  /** The disk after the first `k` of the n + 1 block writes of recovery, the header listing `hd`. */
  ghost function RecoverTo(l: LogLayout, m: Image, hd: seq<nat>, k: nat): (r: Image)
    requires WholeDisk(l, m) && GoodHead(l, hd) && k <= |hd| + 1
    ensures WholeDisk(l, r)
  {
    if k <= |hd| then Installed(l, m, hd, k) else Headed(l, Installed(l, m, hd, |hd|), [])
  }

  // ----- What a disk is worth -----

  /** Home block `b` has its wanted contents, or is still owed them by the log. */
  ghost predicate HomeOk(l: LogLayout, m: Image, hd: seq<nat>, want: Image, b: nat)
    requires WholeDisk(l, m) && WholeDisk(l, want)
  {
    IsHome(l, b) && b !in hd ==> m[b] == want[b]
  }

  ghost predicate OwedOk(l: LogLayout, m: Image, hd: seq<nat>, want: Image, i: nat)
    requires WholeDisk(l, m) && WholeDisk(l, want) && GoodHead(l, hd)
  {
    i < |hd| ==> IsHome(l, hd[i]) && m[LogBlock(l, i)] == want[hd[i]]
  }

  /** The header lists `hd`, the log holds their wanted contents, and every other home block already has its own. */
  ghost predicate Worth(l: LogLayout, m: Image, hd: seq<nat>, want: Image) {
    && HasHead(l, m, hd) && WholeDisk(l, want)
    && (forall i: nat :: OwedOk(l, m, hd, want, i))
    && (forall b: nat :: HomeOk(l, m, hd, want, b))
  }

  ghost predicate SameHome(l: LogLayout, m: Image, n: Image, b: nat) {
    IsHome(l, b) ==> b in m && b in n && m[b] == n[b]
  }

  ghost predicate SameHomes(l: LogLayout, m: Image, n: Image) {
    forall b: nat :: SameHome(l, m, n, b)
  }

  lemma {:induction false} InstalledAt(l: LogLayout, m: Image, hd: seq<nat>, k: nat, b: nat)
    requires WholeDisk(l, m) && GoodHead(l, hd) && k <= |hd| && b < l.nblocks
    ensures b !in hd ==> Installed(l, m, hd, k)[b] == m[b]
    ensures forall i :: 0 <= i < k && hd[i] == b ==> Installed(l, m, hd, k)[b] == m[LogBlock(l, i)]
  {
    if k != 0 {
      InstalledAt(l, m, hd, k - 1, b);
      assert IsHome(l, hd[k - 1]);
      if hd[k - 1] == b { InstalledAt(l, m, hd, k - 1, LogBlock(l, k - 1)); }
    }
  }

  lemma HeadWords(l: LogLayout, m: Image, n: Image, hd: seq<nat>)
    requires HasHead(l, m, hd) && WholeDisk(l, n) && n[l.start] == m[l.start]
    ensures HasHead(l, n, hd)
  {}

  lemma InstalledWorth(l: LogLayout, m: Image, hd: seq<nat>, want: Image, k: nat)
    requires Worth(l, m, hd, want) && k <= |hd|
    ensures Worth(l, Installed(l, m, hd, k), hd, want)
    ensures forall i :: 0 <= i < k ==> IsHome(l, hd[i]) && Installed(l, m, hd, k)[hd[i]] == want[hd[i]]
  {
    var r := Installed(l, m, hd, k);
    hide DecodeHead;
    hide Installed;
    InstalledAt(l, m, hd, k, l.start);
    HeadWords(l, m, r, hd);
    forall i: nat ensures OwedOk(l, r, hd, want, i) {
      if i < |hd| { assert OwedOk(l, m, hd, want, i); InstalledAt(l, m, hd, k, LogBlock(l, i)); }
    }
    forall b: nat ensures HomeOk(l, r, hd, want, b) {
      if IsHome(l, b) { assert HomeOk(l, m, hd, want, b); InstalledAt(l, m, hd, k, b); }
    }
    forall i | 0 <= i < k ensures IsHome(l, hd[i]) && r[hd[i]] == want[hd[i]] {
      assert OwedOk(l, m, hd, want, i);
      InstalledAt(l, m, hd, k, hd[i]);
    }
  }

  /** Once every block is installed the header can go: nothing is owed any more. */
  lemma ClearedWorth(l: LogLayout, m: Image, hd: seq<nat>, want: Image)
    requires Worth(l, m, hd, want)
    requires forall i :: 0 <= i < |hd| ==> IsHome(l, hd[i]) && m[hd[i]] == want[hd[i]]
    ensures Worth(l, Headed(l, m, []), [], want)
  {
    HeadRoundTrip(m[l.start], []);
    hide DecodeHead;
    var r := Headed(l, m, []);
    forall b: nat ensures HomeOk(l, r, [], want, b) { assert HomeOk(l, m, hd, want, b); }
  }

  /** With nothing owed, the home blocks are what the disk is worth. */
  lemma SettledHomes(l: LogLayout, m: Image, want: Image)
    requires Worth(l, m, [], want)
    ensures SameHomes(l, m, want)
  {
    forall b: nat ensures SameHome(l, m, want, b) { assert HomeOk(l, m, [], want, b); }
  }

  lemma {:induction false} LoggedAt(l: LogLayout, m: Image, hd: seq<nat>, view: Image, k: nat, b: nat)
    requires WholeDisk(l, m) && WholeDisk(l, view) && GoodHead(l, hd) && k <= |hd| && b < l.nblocks
    ensures !(l.start < b <= l.start + k) ==> Logged(l, m, hd, view, k)[b] == m[b]
    ensures forall i :: 0 <= i < k && LogBlock(l, i) == b ==>
      IsHome(l, hd[i]) && Logged(l, m, hd, view, k)[b] == view[hd[i]]
  {
    if k != 0 {
      LoggedAt(l, m, hd, view, k - 1, b);
      assert IsHome(l, hd[k - 1]);
    }
  }

  /** Writing the log changes nothing the disk is worth while the header is empty. */
  lemma LoggedWorth(l: LogLayout, m: Image, hd: seq<nat>, view: Image, want: Image, k: nat)
    requires Worth(l, m, [], want) && WholeDisk(l, view) && GoodHead(l, hd) && k <= |hd|
    ensures Worth(l, Logged(l, m, hd, view, k), [], want)
  {
    hide DecodeHead;
    hide Logged;
    var r := Logged(l, m, hd, view, k);
    LoggedAt(l, m, hd, view, k, l.start);
    HeadWords(l, m, r, []);
    forall b: nat ensures HomeOk(l, r, [], want, b) {
      if IsHome(l, b) { assert HomeOk(l, m, [], want, b); LoggedAt(l, m, hd, view, k, b); }
    }
  }

  lemma HeadedHead(l: LogLayout, m: Image, hd: seq<nat>)
    requires WholeDisk(l, m) && GoodHead(l, hd)
    ensures HasHead(l, Headed(l, m, hd), hd)
  {
    HeadRoundTrip(m[l.start], hd);
  }

  /** The header write turns the old worth into the new one at a stroke. */
  lemma HeadedWorth(l: LogLayout, m: Image, hd: seq<nat>, view: Image)
    requires WholeDisk(l, m) && WholeDisk(l, view) && GoodHead(l, hd) && |hd| <= LOGSIZE
    requires forall b: nat :: HomeOk(l, m, hd, view, b)
    ensures Worth(l, Headed(l, Logged(l, m, hd, view, |hd|), hd), hd, view)
  {
    hide HasHead;
    hide WholeDisk;
    hide Logged;
    hide Headed;
    hide GoodHead;
    hide HomeOk;
    hide OwedOk;
    var g := Logged(l, m, hd, view, |hd|);
    HeadedHead(l, g, hd);
    AllOwed(l, m, hd, view);
    AllHome(l, m, hd, view);
  }

  lemma AllOwed(l: LogLayout, m: Image, hd: seq<nat>, view: Image)
    requires WholeDisk(l, m) && WholeDisk(l, view) && GoodHead(l, hd)
    ensures forall i: nat :: OwedOk(l, Headed(l, Logged(l, m, hd, view, |hd|), hd), hd, view, i)
  {
    forall i: nat
      ensures OwedOk(l, Headed(l, Logged(l, m, hd, view, |hd|), hd), hd, view, i)
    {
      HeadedOwed(l, m, hd, view, i);
    }
  }

  lemma AllHome(l: LogLayout, m: Image, hd: seq<nat>, view: Image)
    requires WholeDisk(l, m) && WholeDisk(l, view) && GoodHead(l, hd) && forall b: nat :: HomeOk(l, m, hd, view, b)
    ensures forall b: nat :: HomeOk(l, Headed(l, Logged(l, m, hd, view, |hd|), hd), hd, view, b)
  {
    forall b: nat ensures HomeOk(l, Headed(l, Logged(l, m, hd, view, |hd|), hd), hd, view, b) {
      assert HomeOk(l, m, hd, view, b);
      HeadedHome(l, m, hd, view, b);
    }
  }

  lemma HeadedOwed(l: LogLayout, m: Image, hd: seq<nat>, view: Image, i: nat)
    requires WholeDisk(l, m) && WholeDisk(l, view) && GoodHead(l, hd)
    ensures OwedOk(l, Headed(l, Logged(l, m, hd, view, |hd|), hd), hd, view, i)
  {
    if i < |hd| {
      LoggedEntry(l, m, hd, view, i);
      HeadedOther(l, Logged(l, m, hd, view, |hd|), hd, LogBlock(l, i));
      hide GoodHead;
      hide Logged;
      hide Headed;
    }
  }

  lemma LoggedEntry(l: LogLayout, m: Image, hd: seq<nat>, view: Image, i: nat)
    requires WholeDisk(l, m) && WholeDisk(l, view) && GoodHead(l, hd) && i < |hd|
    ensures IsHome(l, hd[i]) && LogBlock(l, i) < l.start + l.size
    ensures Logged(l, m, hd, view, |hd|)[LogBlock(l, i)] == view[hd[i]]
  {
    LoggedAt(l, m, hd, view, |hd|, LogBlock(l, i));
  }

  lemma HeadedOther(l: LogLayout, m: Image, hd: seq<nat>, b: nat)
    requires WholeDisk(l, m) && GoodHead(l, hd) && b < l.nblocks && b != l.start
    ensures Headed(l, m, hd)[b] == m[b]
  {}

  lemma HeadedHome(l: LogLayout, m: Image, hd: seq<nat>, view: Image, b: nat)
    requires WholeDisk(l, m) && WholeDisk(l, view) && GoodHead(l, hd) && HomeOk(l, m, hd, view, b)
    ensures HomeOk(l, Headed(l, Logged(l, m, hd, view, |hd|), hd), hd, view, b)
  {
    hide Logged;
    hide Headed;
    if IsHome(l, b) {
      LoggedAt(l, m, hd, view, |hd|, b);
      HeadedOther(l, Logged(l, m, hd, view, |hd|), hd, b);
    }
  }

  // ----- Crash atomicity -----

  /** What the disk is worth after `k` writes of commit: the old contents until the header write, the new ones from then
      on. */
  lemma CommitWorth(l: LogLayout, m: Image, hd: seq<nat>, view: Image, want: Image, k: nat) returns (now: seq<nat>)
    requires Worth(l, m, [], want) && WholeDisk(l, view) && GoodHead(l, hd) && k <= 2 * |hd| + 2
    requires forall b: nat :: HomeOk(l, m, hd, view, b)
    ensures Worth(l, CommitTo(l, m, hd, view, k), now, if k <= |hd| then want else view)
    ensures k == 2 * |hd| + 2 ==> now == []
  {
    hide Worth;
    var n := |hd|;
    if k <= n {
      LoggedWorth(l, m, hd, view, want, k);
      now := [];
    } else {
      WorthHead(l, m, [], want);
      HeadedWorth(l, m, hd, view);
      var h := Headed(l, Logged(l, m, hd, view, n), hd);
      if k <= 2 * n + 1 {
        InstalledWorth(l, h, hd, view, k - n - 1);
        now := hd;
      } else {
        InstalledWorth(l, h, hd, view, n);
        ClearedWorth(l, Installed(l, h, hd, n), hd, view);
        now := [];
      }
    }
  }

  lemma WorthHead(l: LogLayout, m: Image, hd: seq<nat>, want: Image)
    requires Worth(l, m, hd, want)
    ensures HasHead(l, m, hd) && WholeDisk(l, want)
  {}

  /** An interrupted recovery leaves the disk worth what it was; a complete one owes nothing. */
  lemma RecoverWorth(l: LogLayout, m: Image, hd: seq<nat>, want: Image, k: nat) returns (now: seq<nat>)
    requires Worth(l, m, hd, want) && k <= |hd| + 1
    ensures Worth(l, RecoverTo(l, m, hd, k), now, want)
    ensures k == |hd| + 1 ==> now == []
  {
    InstalledWorth(l, m, hd, want, if k <= |hd| then k else |hd|);
    now := hd;
    if k == |hd| + 1 {
      ClearedWorth(l, Installed(l, m, hd, |hd|), hd, want);
      now := [];
    }
  }

  /** `m` is turned into `r` by recoveries that stop after `stops[0]`, `stops[1]`, ... writes; each starts by reading
      the header. */
  ghost predicate Recoveries(l: LogLayout, m: Image, stops: seq<nat>, r: Image)
    decreases |stops|
  {
    if stops == [] then r == m
    else exists hd: seq<nat> :: Interrupted(l, m, hd, stops, r)
  }

  ghost predicate Interrupted(l: LogLayout, m: Image, hd: seq<nat>, stops: seq<nat>, r: Image)
    requires stops != []
    decreases |stops|, 0
  {
    HasHead(l, m, hd) && stops[0] <= |hd| + 1 && Recoveries(l, RecoverTo(l, m, hd, stops[0]), stops[1..], r)
  }

  lemma {:induction false} RecoveriesWorth(l: LogLayout, m: Image, hd: seq<nat>, want: Image, stops: seq<nat>, r: Image)
    returns (now: seq<nat>)
    requires Worth(l, m, hd, want) && Recoveries(l, m, stops, r)
    ensures Worth(l, r, now, want)
    decreases |stops|
  {
    now := hd;
    if stops != [] {
      var h: seq<nat> :| Interrupted(l, m, h, stops, r);
      assert h == hd;
      var mid := RecoverWorth(l, m, hd, want, stops[0]);
      now := RecoveriesWorth(l, RecoverTo(l, m, hd, stops[0]), mid, want, stops[1..], r);
    }
  }

  /** Crash atomicity. Commit stops after any `k` of its block writes, any number of recoveries stop anywhere, and one
      recovery completes: the home blocks are then all old if the header write was not reached, and all new if it
      was. */
  lemma CrashAtomicity(l: LogLayout, m: Image, hd: seq<nat>, view: Image, k: nat, stops: seq<nat>, r: Image,
          last: seq<nat>)
    requires HasHead(l, m, []) && WholeDisk(l, view) && GoodHead(l, hd) && k <= 2 * |hd| + 2
    requires forall b: nat :: HomeOk(l, m, hd, view, b)
    requires Recoveries(l, CommitTo(l, m, hd, view, k), stops, r)
    requires HasHead(l, r, last)
    ensures SameHomes(l, RecoverTo(l, r, last, |last| + 1), if k <= |hd| then m else view)
    ensures HasHead(l, RecoverTo(l, r, last, |last| + 1), [])
  {
    hide HomeOk;
    hide OwedOk;
    hide CommitTo;
    hide RecoverTo;
    var want := if k <= |hd| then m else view;
    SettledWorth(l, m);
    var now := CommitWorth(l, m, hd, view, m, k);
    now := RecoveriesWorth(l, CommitTo(l, m, hd, view, k), now, want, stops, r);
    assert now == last;
    now := RecoverWorth(l, r, last, want, |last| + 1);
    SettledHomes(l, RecoverTo(l, r, last, |last| + 1), want);
  }

  lemma SettledWorth(l: LogLayout, m: Image)
    requires HasHead(l, m, [])
    ensures Worth(l, m, [], m)
  {}

  /** Which of the two it is can be told apart whenever some logged block was really changed. */
  lemma HeaderDecides(l: LogLayout, m: Image, hd: seq<nat>, view: Image, k: nat, stops: seq<nat>, r: Image,
          last: seq<nat>)
    requires HasHead(l, m, []) && WholeDisk(l, view) && GoodHead(l, hd) && k <= 2 * |hd| + 2
    requires forall b: nat :: HomeOk(l, m, hd, view, b)
    requires Recoveries(l, CommitTo(l, m, hd, view, k), stops, r)
    requires HasHead(l, r, last)
    requires !SameHomes(l, m, view)
    ensures SameHomes(l, RecoverTo(l, r, last, |last| + 1), view) <==> k > |hd|
  {
    CrashAtomicity(l, m, hd, view, k, stops, r, last);
    hide CommitTo;
    hide RecoverTo;
    hide HomeOk;
    hide HasHead;
    var f := RecoverTo(l, r, last, |last| + 1);
    if k <= |hd| && SameHomes(l, f, view) {
      forall b: nat ensures SameHome(l, m, view, b) {
        assert SameHome(l, f, view, b) && SameHome(l, f, m, b);
      }
    }
  }

  /** Some number of completed recovery steps from `m` leads to the home contents of `want`. */
  ghost predicate Recovers(l: LogLayout, m: Image, want: Image) {
    exists hd: seq<nat> :: Worth(l, m, hd, want)
  }

  /** What `Recovers` means: however often recovery is interrupted, the one that completes leaves exactly those
      contents. */
  lemma RecoversMeans(l: LogLayout, m: Image, want: Image, stops: seq<nat>, r: Image, last: seq<nat>)
    requires Recovers(l, m, want) && Recoveries(l, m, stops, r) && HasHead(l, r, last)
    ensures SameHomes(l, RecoverTo(l, r, last, |last| + 1), want)
  {
    hide HomeOk;
    hide OwedOk;
    hide RecoverTo;
    var hd: seq<nat> :| Worth(l, m, hd, want);
    var now := RecoveriesWorth(l, m, hd, want, stops, r);
    assert now == last;
    now := RecoverWorth(l, r, last, want, |last| + 1);
    SettledHomes(l, RecoverTo(l, r, last, |last| + 1), want);
  }
}

/** The history of a disk: what a crash after each write would have come back as. */
module History {
  import opened RedoLog

  /** A crash after write `i` recovers to committed state number `story[i]`. */
  ghost predicate PointOk(l: LogLayout, images: seq<Image>, commits: seq<Image>, story: seq<nat>, i: nat)
    requires |story| == |images|
  {
    i < |images| ==> story[i] < |commits| && Recovers(l, images[i], commits[story[i]])
  }

  /** Every crash point recovers to a committed state, and never to an older one than an earlier point would have. */
  ghost predicate Told(l: LogLayout, images: seq<Image>, commits: seq<Image>, story: seq<nat>) {
    && |story| == |images|
    && (forall i: nat :: PointOk(l, images, commits, story, i))
    && (forall i, j :: 0 <= i < j < |story| ==> story[i] <= story[j])
    && (forall i :: 0 <= i < |story| ==> story[i] < |commits|)
  }

  /** The whole history is accounted for, and the disk is now worth the newest committed state. */
  ghost predicate Kept(l: LogLayout, images: seq<Image>, disk: Image, commits: seq<Image>, story: seq<nat>) {
    commits != [] && Told(l, images, commits, story) && Worth(l, disk, [], commits[|commits| - 1])
  }

  function Repeat(x: nat, n: nat): seq<nat> { seq(n, i => x) }

  /** The 2n + 2 writes of one more commit: old until the header write, new from then on. */
  lemma CommitTold(l: LogLayout, images: seq<Image>, commits: seq<Image>, story: seq<nat>, m: Image, hd: seq<nat>,
          view: Image)
    requires Told(l, images, commits, story) && commits != []
    requires Worth(l, m, [], commits[|commits| - 1]) && WholeDisk(l, view) && GoodHead(l, hd)
    requires forall b: nat :: HomeOk(l, m, hd, view, b)
    ensures Told(l, images + CommitShots(l, m, hd, view), commits + [view],
                 story + Repeat(|commits| - 1, |hd|) + Repeat(|commits|, |hd| + 2))
    ensures Worth(l, CommitTo(l, m, hd, view, 2 * |hd| + 2), [], view)
  {
    hide Worth;
    hide CommitTo;
    hide CommitShots;
    WorthHead(l, m, [], commits[|commits| - 1]);
    var shots := CommitShots(l, m, hd, view);
    var images' := images + shots;
    var commits' := commits + [view];
    var story' := story + Repeat(|commits| - 1, |hd|) + Repeat(|commits|, |hd| + 2);
    forall i: nat ensures PointOk(l, images', commits', story', i) {
      if i < |images| {
        assert PointOk(l, images, commits, story, i);
      } else if i < |images'| {
        var k := i - |images| + 1;
        assert images'[i] == shots[k - 1];
        var now := CommitWorth(l, m, hd, view, commits[|commits| - 1], k);
      }
    }
    var now := CommitWorth(l, m, hd, view, commits[|commits| - 1], 2 * |hd| + 2);
  }

  /** The n + 1 writes of the recovery at boot all belong to the one state there is to come back to. */
  lemma RecoverTold(l: LogLayout, m: Image, hd: seq<nat>, want: Image)
    requires Worth(l, m, hd, want)
    ensures Told(l, InstallShots(l, m, hd, |hd|) + [RecoverTo(l, m, hd, |hd| + 1)], [want], Repeat(0, |hd| + 1))
    ensures Worth(l, RecoverTo(l, m, hd, |hd| + 1), [], want)
  {
    hide Worth;
    WorthHead(l, m, hd, want);
    var images := InstallShots(l, m, hd, |hd|) + [RecoverTo(l, m, hd, |hd| + 1)];
    var story := Repeat(0, |hd| + 1);
    forall i: nat ensures PointOk(l, images, [want], story, i) {
      if i < |images| { var now := RecoverWorth(l, m, hd, want, i + 1); }
    }
    var now := RecoverWorth(l, m, hd, want, |hd| + 1);
  }
}
