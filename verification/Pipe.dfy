/** Pipes (pipe.c): a ring of PIPESIZE bytes between any number of writers and readers. Everything between taking the
    pipe's lock and giving it up, at the end of a call or in sleep, is one step; the steps of all processes
    interleave. */
module Pipes {
  import opened Common

  const PIPESIZE: nat := 512

  type Byte = x: int | 0 <= x < 256

  /** A call in progress: what pipewrite still has to write, or how much piperead wants. */
  datatype Call = Writing(rest: seq<Byte>) | Reading(n: nat)

  /** How a step of a call ends. */
  datatype Outcome = Done | Early | Asleep

  /** What can happen to a pipe: a call begins, a process goes on with its call, an end is closed, a process is
      killed. */
  datatype Event = Begin(p: nat, call: Call) | Go(p: nat, killed: bool) | Shut(writable: bool) | Shoot(p: nat)

  /** A pipe without its ring: all bytes ever accepted and delivered, the calls in progress and who sleeps on which
      end. */
  datatype View = View(sent: seq<Byte>, got: seq<Byte>, calls: map<nat, Call>, sleepW: set<nat>, sleepR: set<nat>,
                       readopen: bool, writeopen: bool)

  predicate Full(v: View) { |v.sent| == |v.got| + PIPESIZE }

  /** Delivered bytes are the first of the accepted ones, at most PIPESIZE are under way, and a writer sleeps only on a
      full pipe that is still read. */
  ghost predicate Ok(v: View) {
    && v.got <= v.sent && |v.sent| <= |v.got| + PIPESIZE
    && (forall p :: p in v.sleepW ==> p in v.calls && v.calls[p].Writing?)
    && (forall p :: p in v.sleepR ==> p in v.calls && v.calls[p].Reading?)
    && (v.sleepW != {} ==> Full(v) && v.readopen)
  }

  /** No reader sleeps but on an empty pipe that may still be written. */
  predicate Awake(v: View) { v.sleepR != {} ==> v.sent == v.got && v.writeopen }

  predicate Enabled(v: View, e: Event) {
    match e
    case Begin(p, _) => p !in v.calls
    case Go(p, _) => p in v.calls && p !in v.sleepW && p !in v.sleepR
    case Shut(_) => true
    case Shoot(_) => true
  }

  /** pipewrite goes on until it ends, sleeps or gives up. */
  function Wrote(v: View, p: nat, killed: bool): View
    requires Ok(v) && p in v.calls && v.calls[p].Writing?
  {
    var rest := v.calls[p].rest;
    var k := Min(|rest|, PIPESIZE - (|v.sent| - |v.got|));
    var w := v.(sent := v.sent + rest[..k]);
    if k == |rest| then w.(calls := v.calls - {p}, sleepR := {})
    else if killed || !v.readopen then w.(calls := v.calls - {p})
    else w.(calls := v.calls[p := Writing(rest[k..])], sleepR := {}, sleepW := v.sleepW + {p})
  }

  /** piperead goes on until it ends, sleeps or gives up. */
  function ReadOut(v: View, p: nat, killed: bool): View
    requires Ok(v) && p in v.calls && v.calls[p].Reading?
  {
    if v.sent == v.got && v.writeopen then
      if killed then v.(calls := v.calls - {p}) else v.(sleepR := v.sleepR + {p})
    else
      v.(got := v.sent[..|v.got| + Min(v.calls[p].n, |v.sent| - |v.got|)], calls := v.calls - {p}, sleepW := {})
  }

  /** What an event makes of a pipe; one that cannot happen makes nothing of it. */
  function After(v: View, e: Event): View
    requires Ok(v)
  {
    if !Enabled(v, e) then v else
      match e
      case Begin(p, call) => v.(calls := v.calls[p := call])
      case Go(p, killed) => if v.calls[p].Writing? then Wrote(v, p, killed) else ReadOut(v, p, killed)
      case Shut(writable) =>
        if writable then v.(writeopen := false, sleepR := {}) else v.(readopen := false, sleepW := {})
      case Shoot(p) => v.(sleepW := v.sleepW - {p}, sleepR := v.sleepR - {p})
  }

  /** The one event that leaves a reader asleep without a reason: a writer that is killed or no longer read, with more
      bytes than fit, takes the early return while a reader sleeps. */
  predicate Strands(v: View, e: Event) {
    && e.Go? && Enabled(v, e) && v.calls[e.p].Writing? && (e.killed || !v.readopen)
    && v.sleepR != {} && |v.calls[e.p].rest| > PIPESIZE
  }

  lemma WroteOk(v: View, p: nat, killed: bool)
    requires Ok(v) && p in v.calls && v.calls[p].Writing? && p !in v.sleepW && p !in v.sleepR
    ensures Ok(Wrote(v, p, killed)) && v.sent <= Wrote(v, p, killed).sent && v.got == Wrote(v, p, killed).got
  {}

  lemma ReadOk(v: View, p: nat, killed: bool)
    requires Ok(v) && p in v.calls && v.calls[p].Reading? && p !in v.sleepW && p !in v.sleepR
    ensures Ok(ReadOut(v, p, killed)) && v.sent == ReadOut(v, p, killed).sent && v.got <= ReadOut(v, p, killed).got
  {}

  /** Every event keeps the pipe in order and only adds to what was accepted and delivered. */
  lemma OkAfter(v: View, e: Event)
    requires Ok(v)
    ensures Ok(After(v, e)) && v.sent <= After(v, e).sent && v.got <= After(v, e).got
  {
    hide Wrote, ReadOut;
    if e.Go? && Enabled(v, e) {
      if v.calls[e.p].Writing? { WroteOk(v, e.p, e.killed); } else { ReadOk(v, e.p, e.killed); }
    }
  }

  /** Where readers sleep with reason they do after an event, except exactly the one that strands them. */
  lemma AwakeAfter(v: View, e: Event)
    requires Ok(v) && Awake(v)
    ensures Awake(After(v, e)) <==> !Strands(v, e)
  {
    if e.Go? && Enabled(v, e) && v.calls[e.p].Writing? {
      assert v.sleepR != {} ==> |v.sent| == |v.got|;
    }
  }

  /** The pipe after some events, one after the other. */
  ghost function Fold(v: View, events: seq<Event>): (w: View)
    requires Ok(v)
    ensures Ok(w)
    decreases |events|
  {
    if events == [] then v else
      var w := Fold(v, events[..|events| - 1]);
      OkAfter(w, events[|events| - 1]);
      After(w, events[|events| - 1])
  }

  lemma FoldNone(v: View, events: seq<Event>)
    requires Ok(v) && events == []
    ensures Fold(v, events) == v
  {}

  lemma FoldMore(v: View, events: seq<Event>, i: nat)
    requires Ok(v) && i < |events|
    ensures Fold(v, events[..i + 1]) == After(Fold(v, events[..i]), events[i])
  {
    assert events[..i + 1][..i] == events[..i];
  }

  ghost predicate StrandedAt(v: View, events: seq<Event>, i: nat)
    requires Ok(v)
  {
    i < |events| && Strands(Fold(v, events[..i]), events[i])
  }

  /** First in, first out, over every run of any number of readers and writers: nothing accepted or delivered is taken
      back, what is delivered is what was accepted first, and at most PIPESIZE bytes are under way. */
  lemma {:induction false} FirstOut(v: View, events: seq<Event>)
    requires Ok(v)
    ensures v.sent <= Fold(v, events).sent && v.got <= Fold(v, events).got <= Fold(v, events).sent
    ensures |Fold(v, events).sent| <= |Fold(v, events).got| + PIPESIZE
    decreases |events|
  {
    if events != [] {
      FirstOut(v, events[..|events| - 1]);
      OkAfter(Fold(v, events[..|events| - 1]), events[|events| - 1]);
    }
  }

  /** What an event adds to the bytes accepted. */
  ghost function Piece(v: View, e: Event): seq<Byte>
    requires Ok(v)
  {
    OkAfter(v, e);
    After(v, e).sent[|v.sent|..]
  }

  /** The pieces of all events, in their order. */
  ghost function Pieces(v: View, events: seq<Event>): seq<Byte>
    requires Ok(v)
    decreases |events|
  {
    if events == [] then [] else
      var n := |events| - 1;
      Pieces(v, events[..n]) + Piece(Fold(v, events[..n]), events[n])
  }

  /** What the last call of process `p` that began during the events was given to write, if it was a writer's. */
  ghost function Asked(v: View, events: seq<Event>, p: nat): Option<seq<Byte>>
    requires Ok(v)
    decreases |events|
  {
    if events == [] then None else
      var n := |events| - 1;
      var e := events[n];
      if e.Begin? && e.p == p && Enabled(Fold(v, events[..n]), e) then
        if e.call.Writing? then Some(e.call.rest) else None
      else Asked(v, events[..n], p)
  }

  /** The pieces accepted from that call, joined. */
  ghost function Accepted(v: View, events: seq<Event>, p: nat): seq<Byte>
    requires Ok(v)
    decreases |events|
  {
    if events == [] then [] else
      var n := |events| - 1;
      var w, e := Fold(v, events[..n]), events[n];
      if e.Begin? && e.p == p && Enabled(w, e) then []
      else if e.Go? && e.p == p then Accepted(v, events[..n], p) + Piece(w, e)
      else Accepted(v, events[..n], p)
  }

  /** Nothing is accepted but the pieces of the writers' calls, one after the other. */
  lemma {:induction false} SentPieces(v: View, events: seq<Event>)
    requires Ok(v)
    ensures Fold(v, events).sent == v.sent + Pieces(v, events)
    decreases |events|
  {
    hide After, Ok;
    if events != [] {
      var n := |events| - 1;
      SentPieces(v, events[..n]);
      OkAfter(Fold(v, events[..n]), events[n]);
    }
  }

  /** Only a writer that goes on adds to the bytes accepted: the first of those it has left, as many as fit. The rest it
      keeps, asleep, unless it was killed or nobody reads any more. */
  lemma PieceOf(v: View, e: Event)
    requires Ok(v)
    ensures !(e.Go? && Enabled(v, e) && v.calls[e.p].Writing?) ==> Piece(v, e) == []
    ensures e.Go? && Enabled(v, e) && v.calls[e.p].Writing? ==>
      var rest, calls := v.calls[e.p].rest, After(v, e).calls;
      && |Piece(v, e)| == Min(|rest|, PIPESIZE - (|v.sent| - |v.got|)) && Piece(v, e) <= rest
      && (e.p in calls <==> Piece(v, e) != rest && !e.killed && v.readopen)
      && (e.p in calls ==> e.p in After(v, e).sleepW && calls[e.p].Writing? && Piece(v, e) + calls[e.p].rest == rest)
  {}

  /** Nobody's call is changed by what another process does. */
  lemma CallKept(v: View, e: Event, p: nat)
    requires Ok(v) && !(e.Go? && e.p == p) && !(e.Begin? && e.p == p)
    ensures p in After(v, e).calls <==> p in v.calls
    ensures p in v.calls ==> After(v, e).calls[p] == v.calls[p]
  {}

  /** Over every run, writers' calls are accepted in order, byte for byte: the pieces accepted from a call and what it
      has left are what it was given; when it has ended they are the first bytes of it. */
  lemma {:induction false} Ledger(v: View, events: seq<Event>, p: nat)
    requires Ok(v)
    ensures Asked(v, events, p).Some? ==>
      var w, src := Fold(v, events), Asked(v, events, p).value;
      if p in w.calls then w.calls[p].Writing? && Accepted(v, events, p) + w.calls[p].rest == src
      else Accepted(v, events, p) <= src
    decreases |events|
  {
    hide After, Ok;
    if events != [] {
      var n := |events| - 1;
      var w, e := Fold(v, events[..n]), events[n];
      Ledger(v, events[..n], p);
      PieceOf(w, e);
      if e.Begin? && e.p == p {
        Begun(w, e);
      } else if !(e.Go? && e.p == p) {
        CallKept(w, e, p);
      } else if !Enabled(w, e) {
        NotNow(w, e);
      }
    }
  }

  /** A call begins with what it was given, and one that cannot happen does not. */
  lemma Begun(v: View, e: Event)
    requires Ok(v) && e.Begin?
    ensures e.p in After(v, e).calls
    ensures After(v, e).calls[e.p] == if Enabled(v, e) then e.call else v.calls[e.p]
  {}

  lemma NotNow(v: View, e: Event)
    requires Ok(v) && !Enabled(v, e)
    ensures After(v, e) == v && Piece(v, e) == []
  {}

  /** A writer that returns while the pipe is read, and was not killed, has written everything. */
  lemma AllWritten(v: View, events: seq<Event>, e: Event)
    requires Ok(v) && e.Go? && !e.killed && Fold(v, events).readopen && Asked(v, events, e.p).Some?
    requires e.p in Fold(v, events).calls && e.p !in Fold(v, events + [e]).calls
    ensures Accepted(v, events + [e], e.p) == Asked(v, events, e.p).value
  {
    hide After, Ok;
    var more := events + [e];
    assert more[..|more| - 1] == events;
    Ledger(v, events, e.p);
    PieceOf(Fold(v, events), e);
    if !Enabled(Fold(v, events), e) { NotNow(Fold(v, events), e); }
  }

  /** A reader that goes on gets the oldest bytes under way, as many as it wants and there are; it is left with a call
      only if there is nothing and somebody may still write, and then asleep. */
  lemma ReadOf(v: View, e: Event)
    requires Ok(v) && e.Go? && Enabled(v, e) && v.calls[e.p].Reading?
    ensures var w, n := After(v, e), |v.sent| - |v.got|;
      && w.sent == v.sent && v.got <= w.got <= v.sent
      && |w.got| == |v.got| + Min(v.calls[e.p].n, n)
      && (e.p in w.calls <==> n == 0 && v.writeopen && !e.killed)
      && (e.p in w.calls ==> w.calls[e.p] == v.calls[e.p] && e.p in w.sleepR && w.sleepW == v.sleepW)
      && (n > 0 || !v.writeopen ==> w.sleepW == {})
  {}

  /** Closing an end closes that end, and wakes those who sleep on the other. */
  lemma ShutOf(v: View, writable: bool)
    requires Ok(v)
    ensures var w := After(v, Shut(writable));
      && (writable ==> !w.writeopen && w.readopen == v.readopen && w.sleepR == {} && w.sleepW == v.sleepW)
      && (!writable ==> !w.readopen && w.writeopen == v.writeopen && w.sleepW == {} && w.sleepR == v.sleepR)
      && w.sent == v.sent && w.got == v.got && w.calls == v.calls
  {}

  /** Over every run: a reader sleeps without a reason only if some event of the run stranded one. */
  lemma {:induction false} NobodyStranded(v: View, events: seq<Event>)
    requires Ok(v) && Awake(v) && forall i: nat :: !StrandedAt(v, events, i)
    ensures Awake(Fold(v, events))
    decreases |events|
  {
    if events != [] {
      var n := |events| - 1;
      forall i: nat ensures !StrandedAt(v, events[..n], i) {
        assert !StrandedAt(v, events, i);
        if i < n { assert events[..n][..i] == events[..i]; }
      }
      NobodyStranded(v, events[..n]);
      assert !StrandedAt(v, events, n);
      AwakeAfter(Fold(v, events[..n]), events[n]);
    }
  }

  /** And the first event that strands a reader does leave it asleep without a reason. */
  lemma FirstStranded(v: View, events: seq<Event>, n: nat)
    requires Ok(v) && Awake(v) && StrandedAt(v, events, n) && forall i: nat :: i < n ==> !StrandedAt(v, events, i)
    ensures !Awake(Fold(v, events[..n + 1]))
  {
    forall i: nat ensures !StrandedAt(v, events[..n], i) {
      if i < n {
        assert !StrandedAt(v, events, i);
        assert events[..n][..i] == events[..i];
      }
    }
    NobodyStranded(v, events[..n]);
    assert events[..n + 1][..n] == events[..n];
    AwakeAfter(Fold(v, events[..n]), events[n]);
  }

  /** The bytes accepted, those delivered, the ring and the two 32-bit counters belong together. */
  ghost predicate RingOk(data: seq<Byte>, nread: nat, nwrite: nat, sent: seq<Byte>, got: seq<Byte>) {
    && |data| == PIPESIZE && got <= sent && |sent| <= |got| + PIPESIZE
    && nread == |got| % UINT && nwrite == |sent| % UINT
    && (forall k :: |got| <= k < |sent| ==> data[k % PIPESIZE] == sent[k])
  }

  lemma Wrap(n: nat)
    ensures n % UINT % PIPESIZE == n % PIPESIZE
  {
    assert n == n / UINT * UINT + n % UINT;
    assert UINT == 8388608 * PIPESIZE;
    assert n == (n / UINT * 8388608) * PIPESIZE + n % UINT;
    ModPlus(n / UINT * 8388608, n % UINT);
  }

  lemma ModPlus(q: nat, r: nat)
    ensures (q * PIPESIZE + r) % PIPESIZE == r % PIPESIZE
  {
    assert q * PIPESIZE + r == (q + r / PIPESIZE) * PIPESIZE + r % PIPESIZE;
  }

  /** The full and empty tests are right although the counters wrap. */
  lemma Counters(data: seq<Byte>, nread: nat, nwrite: nat, sent: seq<Byte>, got: seq<Byte>)
    requires RingOk(data, nread, nwrite, sent, got)
    ensures nwrite == (nread + PIPESIZE) % UINT <==> |sent| == |got| + PIPESIZE
    ensures nread == nwrite <==> |sent| == |got|
    ensures nwrite % PIPESIZE == |sent| % PIPESIZE && nread % PIPESIZE == |got| % PIPESIZE
    ensures (nwrite + 1) % UINT == (|sent| + 1) % UINT && (nread + 1) % UINT == (|got| + 1) % UINT
  {
    Wrap(|sent|);
    Wrap(|got|);
    Distance(|got|, |sent| - |got|);
    Distance(|got|, PIPESIZE);
    Distance(|sent|, 1);
    Distance(|got|, 1);
  }

  /** Counters at most PIPESIZE apart agree modulo 2^32 exactly when they agree. */
  lemma Distance(a: nat, d: nat)
    requires d <= PIPESIZE
    ensures (a + d) % UINT == (a % UINT + d) % UINT
    ensures (a + d) % UINT == if a % UINT + d < UINT then a % UINT + d else a % UINT + d - UINT
  {
    var r := a % UINT + d;
    assert a + d == a / UINT * UINT + r;
    if r < UINT {
      Unique(a + d, a / UINT, r);
    } else {
      Unique(a + d, a / UINT + 1, r - UINT);
      Unique(r, 1, r - UINT);
    }
  }

  lemma Unique(x: nat, q: nat, r: nat)
    requires x == q * UINT + r && r < UINT
    ensures x % UINT == r
  {}

  /** Slots less than PIPESIZE apart are different slots. */
  lemma Slots(a: nat, b: nat)
    requires a < b < a + PIPESIZE
    ensures a % PIPESIZE != b % PIPESIZE
  {}

  lemma PutOk(data: seq<Byte>, nread: nat, nwrite: nat, sent: seq<Byte>, got: seq<Byte>, b: Byte)
    requires RingOk(data, nread, nwrite, sent, got) && |sent| < |got| + PIPESIZE
    ensures RingOk(data[nwrite % PIPESIZE := b], nread, (nwrite + 1) % UINT, sent + [b], got)
  {
    Counters(data, nread, nwrite, sent, got);
    forall k | |got| <= k < |sent| ensures k % PIPESIZE != |sent| % PIPESIZE { Slots(k, |sent|); }
  }

  lemma GetOk(data: seq<Byte>, nread: nat, nwrite: nat, sent: seq<Byte>, got: seq<Byte>)
    requires RingOk(data, nread, nwrite, sent, got) && |got| < |sent|
    ensures data[nread % PIPESIZE] == sent[|got|]
    ensures RingOk(data, (nread + 1) % UINT, nwrite, sent, got + [data[nread % PIPESIZE]])
  {
    Counters(data, nread, nwrite, sent, got);
    assert data[|got| % PIPESIZE] == sent[|got|];
  }

  class Pipe {
    var data: seq<Byte>
    var nread: nat
    var nwrite: nat
    var readopen: bool
    var writeopen: bool
    var calls: map<nat, Call>      // the calls in progress, by process
    var sleepW: set<nat>           // processes asleep on nwrite
    var sleepR: set<nat>           // processes asleep on nread
    ghost var sent: seq<Byte>      // all bytes ever accepted
    ghost var got: seq<Byte>       // all bytes ever delivered

    ghost function Abs(): View
      reads this
    {
      View(sent, got, calls, sleepW, sleepR, readopen, writeopen)
    }

    ghost predicate Valid()
      reads this
    {
      RingOk(data, nread, nwrite, sent, got) && Ok(Abs())
    }

    constructor ()
      ensures Valid() && Abs() == View([], [], map[], {}, {}, true, true)
    {
      data := seq(PIPESIZE, i => 0);
      nread, nwrite, readopen, writeopen := 0, 0, true, true;
      calls, sleepW, sleepR := map[], {}, {};
      sent, got := [], [];
    }

    /** wakeup(&p->nread). */
    method WakeReaders()
      modifies this`sleepR
      ensures sleepR == {}
    {
      sleepR := {};
    }

    /** The bytes are accepted until the ring is full. */
    method PutAll(rest: seq<Byte>) returns (k: nat)
      requires RingOk(data, nread, nwrite, sent, got)
      modifies this`data, this`nwrite, this`sent
      ensures RingOk(data, nread, nwrite, sent, got)
      ensures k <= |rest| && sent == old(sent) + rest[..k]
      ensures k == Min(|rest|, old(PIPESIZE - (|sent| - |got|)))
    {
      k := 0;
      while k < |rest| && nwrite != (nread + PIPESIZE) % UINT
        invariant k <= |rest| && sent == old(sent) + rest[..k]
        invariant RingOk(data, nread, nwrite, sent, got)
      {
        Counters(data, nread, nwrite, sent, got);
        PutOk(data, nread, nwrite, sent, got, rest[k]);
        data := data[nwrite % PIPESIZE := rest[k]];
        nwrite := (nwrite + 1) % UINT;
        sent := sent + [rest[k]];
        k := k + 1;
      }
      Counters(data, nread, nwrite, sent, got);
    }

    /** pipewrite, from where it holds the lock to where it gives it up. */
    method Write(p: nat, killed: bool) returns (r: Outcome, k: nat)
      requires Valid() && Enabled(Abs(), Go(p, killed)) && calls[p].Writing?
      modifies this
      ensures Valid() && Abs() == Wrote(old(Abs()), p, killed)
      ensures k <= |old(calls[p].rest)| && sent == old(sent) + old(calls[p].rest)[..k] && got == old(got)
      ensures r.Asleep? ==> p in calls && calls[p] == Writing(old(calls[p].rest)[k..])
      ensures !r.Asleep? ==> p !in calls
      ensures r == if k == |old(calls[p].rest)| then Done else if killed || !readopen then Early else Asleep
    {
      var rest := calls[p].rest;
      k := PutAll(rest);
      if k < |rest| {
        if !readopen || killed {
          calls := calls - {p};
          return Early, k;
        }
        WakeReaders();
        calls := calls[p := Writing(rest[k..])];
        sleepW := sleepW + {p};
        return Asleep, k;
      }
      WakeReaders();
      calls := calls - {p};
      r := Done;
    }

    /** The bytes are delivered until the ring is empty. */
    method GetAll(n: nat) returns (bytes: seq<Byte>)
      requires RingOk(data, nread, nwrite, sent, got)
      modifies this`nread, this`got
      ensures RingOk(data, nread, nwrite, sent, got)
      ensures got == old(got) + bytes && |bytes| == Min(n, |sent| - |old(got)|)
    {
      bytes := [];
      Counters(data, nread, nwrite, sent, got);
      while |bytes| < n && nread != nwrite
        invariant |bytes| <= n && got == old(got) + bytes
        invariant RingOk(data, nread, nwrite, sent, got)
      {
        Counters(data, nread, nwrite, sent, got);
        GetOk(data, nread, nwrite, sent, got);
        bytes := bytes + [data[nread % PIPESIZE]];
        got := got + [data[nread % PIPESIZE]];
        nread := (nread + 1) % UINT;
      }
      Counters(data, nread, nwrite, sent, got);
    }

    /** piperead, from where it holds the lock to where it gives it up. */
    method Read(p: nat, killed: bool) returns (r: Outcome, bytes: seq<Byte>)
      requires Valid() && Enabled(Abs(), Go(p, killed)) && calls[p].Reading?
      modifies this
      ensures Valid() && Abs() == ReadOut(old(Abs()), p, killed)
      ensures got == old(got) + bytes && sent == old(sent)
      ensures |bytes| == Min(old(calls[p].n), |old(sent)| - |old(got)|)
      ensures p in calls <==> r.Asleep?
      ensures r == if old(sent != got || !writeopen) then Done else if killed then Early else Asleep
    {
      bytes := [];
      Counters(data, nread, nwrite, sent, got);
      if nread == nwrite && writeopen {
        if killed {
          calls := calls - {p};
          return Early, [];
        }
        sleepR := sleepR + {p};
        return Asleep, [];
      }
      bytes := GetAll(calls[p].n);
      sleepW := {};
      calls := calls - {p};
      r := Done;
    }

    /** pipeclose: both ends closed frees the pipe. */
    method Close(writable: bool) returns (free: bool)
      requires Valid()
      modifies this`readopen, this`writeopen, this`sleepR, this`sleepW
      ensures Valid() && Abs() == After(old(Abs()), Shut(writable))
      ensures writeopen == (old(writeopen) && !writable) && readopen == (old(readopen) && writable)
      ensures sleepR == (if writable then {} else old(sleepR)) && sleepW == (if writable then old(sleepW) else {})
      ensures free == (!readopen && !writeopen)
    {
      if writable {
        writeopen := false;
        WakeReaders();
      } else {
        readopen := false;
        sleepW := {};
      }
      free := !readopen && !writeopen;
    }

    /** kill wakes a sleeper, whatever it sleeps on. */
    method Kill(p: nat)
      requires Valid()
      modifies this`sleepR, this`sleepW
      ensures Valid() && Abs() == After(old(Abs()), Shoot(p))
      ensures sleepW == old(sleepW) - {p} && sleepR == old(sleepR) - {p}
    {
      sleepW := sleepW - {p};
      sleepR := sleepR - {p};
    }

    /** One event; what cannot happen does not. */
    method Do(e: Event) returns (bytes: seq<Byte>)
      requires Valid()
      modifies this
      ensures Valid() && Abs() == After(old(Abs()), e) && got == old(got) + bytes
    {
      bytes := [];
      match e
      case Begin(p, call) => if p !in calls { calls := calls[p := call]; }
      case Shut(writable) => var _ := Close(writable);
      case Shoot(p) => Kill(p);
      case Go(p, killed) =>
        if p in calls && p !in sleepW && p !in sleepR {
          if calls[p].Writing? {
            var _, _ := Write(p, killed);
          } else {
            var _, more := Read(p, killed);
            bytes := more;
          }
        }
    }

    /** Any events in any order, from any number of processes. */
    method Run(events: seq<Event>) returns (bytes: seq<Byte>)
      requires Valid()
      modifies this
      ensures Valid() && Abs() == Fold(old(Abs()), events) && got == old(got) + bytes
    {
      hide Ok, After, Fold, RingOk;
      bytes := [];
      ghost var v := Abs();
      assert Fold(v, events[..0]) == v by { FoldNone(v, events[..0]); }
      for i := 0 to |events|
        invariant Valid() && Abs() == Fold(v, events[..i]) && got == old(got) + bytes
      {
        FoldMore(v, events, i);
        var more := Do(events[i]);
        bytes := bytes + more;
      }
      assert events[..|events|] == events;
    }
  }

  /** A run in which a reader is stranded: it sleeps on an empty pipe, and a killed writer fills the ring and
      returns. */
  method Strand(bytes: seq<Byte>) returns (p: Pipe)
    requires |bytes| > PIPESIZE
    ensures p.Valid() && p.sleepR == {0} && Full(p.Abs()) && p.writeopen && !Awake(p.Abs())
  {
    p := new Pipe();
    var none := p.Do(Begin(0, Reading(1)));
    none := p.Do(Go(0, false));
    none := p.Do(Begin(1, Writing(bytes)));
    none := p.Do(Go(1, true));
  }
}
