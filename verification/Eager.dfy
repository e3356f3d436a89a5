/** The simple system that copy-on-write must look like: every process has its own pages, and fork copies them all. */
module EagerCopy {
  import opened Paging

  const NPROC: nat := 64
  const NOPARENT: nat := 64
  const INIT: nat := 0          // the slot of initproc

  datatype EProc = EProc(pid: nat, sz: nat, pages: seq<Page>, parent: nat, zombie: bool)

  type Table = map<nat, EProc>

  /** What a process, or the kernel on its behalf, can do. `p` is a slot of the process table. */
  datatype Op =
    | Fork(p: nat)
    | Store(p: nat, a: nat, x: int)
    | Load(p: nat, a: nat)
    | Sbrk(p: nat, n: int)
    | Exit(p: nat)
    | Wait(p: nat)
    | PipeOpen(p: nat, k: nat)
    | PipeClose(p: nat, k: nat)

  datatype Outcome =
    | Forked(child: nat, pid: nat)
    | Reaped(child: nat)
    | Value(x: int)
    | Done
    | Failed          // the system call returned -1
    | Killed          // the process touched an address it does not have
    | Asleep
    | Panicked        // the kernel stopped
    | Refused         // no such pipe, or one there already
    | Disabled        // the process cannot do this now

  /** A process runs if it is not a zombie and has the pages its size says. */
  predicate Runs(t: Table, p: nat) {
    p in t && !t[p].zombie && |t[p].pages| == PagesOf(t[p].sz)
  }

  predicate Enabled(t: Table, op: Op) {
    match op
    case Fork(p) => Runs(t, p)
    case Store(p, a, x) => p in t && !t[p].zombie && a < KERNPAGES * PGSIZE
    case Load(p, a) => p in t && !t[p].zombie && a < KERNPAGES * PGSIZE
    case Sbrk(p, n) => Runs(t, p) && -0x8000_0000 <= n < 0x8000_0000
    case Exit(p) => p in t && !t[p].zombie
    case Wait(p) => Runs(t, p)
    case PipeOpen(p, k) => Runs(t, p)
    case PipeClose(p, k) => p in t && !t[p].zombie
  }

  function Zeros(n: nat): seq<Page> {
    seq(n, _ => Filled(0))
  }

  /** Is address `a` in a page of the process? */
  predicate Has(e: EProc, a: nat) {
    a / PGSIZE < |e.pages| && |e.pages[a / PGSIZE]| == PGSIZE
  }

  function Stored(e: EProc, a: nat, x: int): EProc
    requires Has(e, a)
  {
    var v := a / PGSIZE;
    e.(pages := e.pages[v := e.pages[v][a % PGSIZE := x]])
  }

  /** The exiting process is a zombie, and its children go to init. */
  function Exited(t: Table, p: nat): Table {
    map x | x in t :: if x == p then t[x].(zombie := true) else if t[x].parent == p then t[x].(parent := INIT) else t[x]
  }

  /** sbrk that succeeds: zeroed pages more, or pages dropped. A shrink by more than the size wraps around and does
      nothing. */
  function Resized(e: EProc, n: int): EProc {
    if n > 0 then
      var len := PagesOf(e.sz + n);
      e.(sz := e.sz + n, pages := e.pages + Zeros(if len < |e.pages| then 0 else len - |e.pages|))
    else if 0 < -n < e.sz && PagesOf(e.sz + n) <= |e.pages| then
      e.(sz := e.sz + n, pages := e.pages[..PagesOf(e.sz + n)])
    else e
  }

  /** The table after operation `op` ended with `out`. */
  function Step(t: Table, op: Op, out: Outcome): Table {
    if op.p !in t then t else
    var e := t[op.p];
    match out
    case Forked(c, pid) => if op.Fork? then t[c := e.(pid := pid, parent := op.p)] else t
    case Reaped(c) => if op.Wait? then t - {c} else t
    case Killed => Exited(t, op.p)
    case Done =>
      (match op
       case Store(p, a, x) => if Has(e, a) then t[p := Stored(e, a, x)] else t
       case Sbrk(p, n) => t[p := Resized(e, n)]
       case Exit(p) => Exited(t, p)
       case _ => t)
    // a shrink to size 0 drops every page and then reports failure
    case Failed => if op.Sbrk? && op.n < 0 && e.sz + op.n == 0 then t[op.p := e.(pages := [])] else t
    case _ => t
  }

  predicate IsChild(t: Table, p: nat, c: nat) {
    c in t && t[c].parent == p
  }

  /** The outcomes the simple system allows; only memory decides between them. */
  ghost predicate Allowed(t: Table, op: Op, out: Outcome) {
    if !Enabled(t, op) then out == Disabled else
    var e := t[op.p];
    match op
    case Fork(p) =>
      || out == Failed
      || (out.Forked? && out.child < NPROC && out.child !in t && forall x :: x in t ==> t[x].pid < out.pid)
    case Store(p, a, x) =>
      if Has(e, a) then out == Done || out == Panicked else out == if p == INIT then Panicked else Killed
    case Load(p, a) =>
      if Has(e, a) then out == Value(e.pages[a / PGSIZE][a % PGSIZE])
      else out == if p == INIT then Panicked else Killed
    case Sbrk(p, n) =>
      if n > 0 then out == Failed || (out == Done && e.sz + n < KERNPAGES * PGSIZE)
      else out == if n < 0 && (e.sz == 0 || e.sz + n == 0) then Failed else Done
    case Exit(p) => out == if p == INIT then Panicked else Done
    case Wait(p) =>
      if exists c :: IsChild(t, p, c) && t[c].zombie then out.Reaped? && IsChild(t, p, out.child) && t[out.child].zombie
      else out == if exists c :: IsChild(t, p, c) then Asleep else Failed
    case PipeOpen(p, k) => out == Done || out == Failed || out == Refused
    case PipeClose(p, k) => out == Done || out == Refused
  }

  /** The operation ran out of memory: the process table and the sizes had no other reason to refuse it. */
  ghost predicate Starved(t: Table, op: Op, out: Outcome) {
    Enabled(t, op) &&
    match op
    case Fork(p) => out == Failed && exists c: nat :: c < NPROC && c !in t
    case Store(p, a, x) => out == Panicked && Has(t[p], a)
    case Sbrk(p, n) => out == Failed && n > 0 && t[p].sz + n < KERNPAGES * PGSIZE
    case PipeOpen(p, k) => out == Failed
    case _ => false
  }

  /** How many of the operations starved. */
  ghost function Starvings(t: Table, ops: seq<Op>, outs: seq<Outcome>): nat
    requires |outs| <= |ops|
  {
    if outs == [] then 0 else
    var n := |outs| - 1;
    Starvings(t, ops, outs[..n]) + if Starved(Run(t, ops, outs[..n]), ops[n], outs[n]) then 1 else 0
  }

  lemma StarvedMore(t: Table, ops: seq<Op>, outs: seq<Outcome>, out: Outcome)
    requires |outs| < |ops|
    ensures Starvings(t, ops, outs + [out]) ==
      Starvings(t, ops, outs) + if Starved(Run(t, ops, outs), ops[|outs|], out) then 1 else 0
  {
    assert (outs + [out])[..|outs|] == outs;
  }

  /** The table after the operations `ops` ended with `outs`, one after the other. */
  function Run(t: Table, ops: seq<Op>, outs: seq<Outcome>): Table
    requires |outs| <= |ops|
  {
    if outs == [] then t else
    var n := |outs| - 1;
    Step(Run(t, ops, outs[..n]), ops[n], outs[n])
  }

  /** Every outcome is one the simple system allows at that point. */
  ghost predicate AllAllowed(t: Table, ops: seq<Op>, outs: seq<Outcome>)
    requires |outs| <= |ops|
  {
    forall i :: 0 <= i < |outs| ==> Allowed(Run(t, ops, outs[..i]), ops[i], outs[i])
  }

  lemma RunMore(t: Table, ops: seq<Op>, outs: seq<Outcome>, out: Outcome)
    requires |outs| < |ops| && AllAllowed(t, ops, outs) && Allowed(Run(t, ops, outs), ops[|outs|], out)
    ensures Run(t, ops, outs + [out]) == Step(Run(t, ops, outs), ops[|outs|], out)
    ensures AllAllowed(t, ops, outs + [out])
  {
    hide Allowed, Step;
    var outs' := outs + [out];
    assert outs'[..|outs|] == outs;
    forall i | 0 <= i < |outs'| ensures Allowed(Run(t, ops, outs'[..i]), ops[i], outs'[i]) {
      if i < |outs| { assert outs'[..i] == outs[..i]; }
    }
  }

  lemma StepDisabled(t: Table, op: Op)
    requires !Enabled(t, op)
    ensures Allowed(t, op, Disabled) && Step(t, op, Disabled) == t
  {
  }

  lemma StepFork(t: Table, p: nat, c: nat, pid: nat)
    requires Enabled(t, Fork(p))
    ensures Allowed(t, Fork(p), Failed) && Step(t, Fork(p), Failed) == t
    ensures c < NPROC && c !in t && (forall x :: x in t ==> t[x].pid < pid) ==> Allowed(t, Fork(p), Forked(c, pid))
    ensures Step(t, Fork(p), Forked(c, pid)) == t[c := t[p].(pid := pid, parent := p)]
  {
  }

  lemma StepStore(t: Table, p: nat, a: nat, x: int)
    requires Enabled(t, Store(p, a, x))
    ensures Has(t[p], a) ==>
      Allowed(t, Store(p, a, x), Done) && Step(t, Store(p, a, x), Done) == t[p := Stored(t[p], a, x)]
    ensures Has(t[p], a) || p == INIT ==> Allowed(t, Store(p, a, x), Panicked) && Step(t, Store(p, a, x), Panicked) == t
    ensures !Has(t[p], a) && p != INIT ==>
      Allowed(t, Store(p, a, x), Killed) && Step(t, Store(p, a, x), Killed) == Exited(t, p)
  {
  }

  lemma StepLoad(t: Table, p: nat, a: nat)
    requires Enabled(t, Load(p, a))
    ensures Has(t[p], a) ==>
      var v := Value(t[p].pages[a / PGSIZE][a % PGSIZE]); Allowed(t, Load(p, a), v) && Step(t, Load(p, a), v) == t
    ensures !Has(t[p], a) && p == INIT ==> Allowed(t, Load(p, a), Panicked) && Step(t, Load(p, a), Panicked) == t
    ensures !Has(t[p], a) && p != INIT ==> Allowed(t, Load(p, a), Killed) && Step(t, Load(p, a), Killed) == Exited(t, p)
  {
  }

  lemma StepGrow(t: Table, p: nat, n: int)
    requires Enabled(t, Sbrk(p, n)) && n > 0
    ensures Allowed(t, Sbrk(p, n), Failed) && Step(t, Sbrk(p, n), Failed) == t
    ensures t[p].sz + n < KERNPAGES * PGSIZE ==> Allowed(t, Sbrk(p, n), Done)
    ensures Step(t, Sbrk(p, n), Done) == t[p := Resized(t[p], n)]
  {
  }

  lemma StepShrink(t: Table, p: nat, n: int)
    requires Enabled(t, Sbrk(p, n)) && n < 0
    ensures var e, out := t[p], if t[p].sz == 0 || t[p].sz + n == 0 then Failed else Done;
            && Allowed(t, Sbrk(p, n), out)
            && (e.sz + n < 0 || e.sz == 0 ==> Step(t, Sbrk(p, n), out) == t)
            && (0 < e.sz + n ==>
              Step(t, Sbrk(p, n), out) == t[p := e.(sz := e.sz + n, pages := e.pages[..PagesOf(e.sz + n)])])
            && (e.sz + n == 0 && e.sz > 0 ==> Step(t, Sbrk(p, n), out) == t[p := e.(pages := e.pages[..0])])
  {
    var e := t[p];
    assert t[p := e] == t && e.pages[..0] == [];
  }

  lemma StepExit(t: Table, p: nat)
    requires Enabled(t, Exit(p))
    ensures if p == INIT then Allowed(t, Exit(p), Panicked) && Step(t, Exit(p), Panicked) == t
            else Allowed(t, Exit(p), Done) && Step(t, Exit(p), Done) == Exited(t, p)
  {
  }

  lemma StepPipe(t: Table, op: Op, out: Outcome)
    requires Enabled(t, op) && (op.PipeOpen? || op.PipeClose?)
      && (out == Done || out == Refused || (op.PipeOpen? && out == Failed))
    ensures Allowed(t, op, out) && Step(t, op, out) == t
  {
  }

  lemma StepReap(t: Table, p: nat, c: nat)
    requires Enabled(t, Wait(p)) && IsChild(t, p, c) && t[c].zombie
    ensures Allowed(t, Wait(p), Reaped(c)) && Step(t, Wait(p), Reaped(c)) == t - {c}
  {
  }

  lemma StepNoZombie(t: Table, p: nat, havekids: bool)
    requires Enabled(t, Wait(p)) && (havekids <==> exists c :: IsChild(t, p, c))
      && forall c :: IsChild(t, p, c) ==> !t[c].zombie
    ensures var out := if havekids then Asleep else Failed; Allowed(t, Wait(p), out) && Step(t, Wait(p), out) == t
  {
  }

  // ----- What the operations mean -----

  /** Process `p` has left: it is a zombie, otherwise as it was, its children have init for parent, and nothing else has
      changed for anybody. */
  ghost predicate Left(t: Table, t': Table, p: nat) {
    && t'.Keys == t.Keys
    && forall x :: x in t ==>
      && t'[x].pid == t[x].pid && t'[x].sz == t[x].sz && t'[x].pages == t[x].pages
      && (t'[x].zombie <==> t[x].zombie || x == p)
      && t'[x].parent == if x != p && t[x].parent == p then INIT else t[x].parent
  }

  /** exit, and the end of a process at an address that it does not have. */
  lemma ExitLaw(t: Table, op: Op, out: Outcome)
    requires op.p in t && ((op.Exit? && out == Done) || out == Killed)
    ensures Left(t, Step(t, op, out), op.p)
  {}

  /** A parent that waits after its child has left is sure to reap a zombie child, and may reap this one. */
  lemma WaitAfterExit(t: Table, t': Table, p: nat, out: Outcome)
    requires Left(t, t', p) && p in t && t[p].parent != p && Runs(t, t[p].parent)
    ensures var q := t[p].parent;
      && Enabled(t', Wait(q)) && Allowed(t', Wait(q), Reaped(p)) && p !in Step(t', Wait(q), Reaped(p))
      && (Allowed(t', Wait(q), out) ==> out.Reaped? && IsChild(t', q, out.child) && t'[out.child].zombie)
  {
    assert IsChild(t', t[p].parent, p) && t'[p].zombie;
  }

  /** wait: the zombie goes, and nobody else is touched. */
  lemma WaitLaw(t: Table, p: nat, c: nat)
    requires Enabled(t, Wait(p)) && Allowed(t, Wait(p), Reaped(c))
    ensures var t' := Step(t, Wait(p), Reaped(c));
      t[c].parent == p && t[c].zombie && t'.Keys == t.Keys - {c} && forall x :: x in t' ==> t'[x] == t[x]
  {}

  /** fork: a new process with a pid that nobody has, its parent's size and memory, and nobody else touched. */
  lemma ForkLaw(t: Table, p: nat, c: nat, pid: nat)
    requires Enabled(t, Fork(p)) && Allowed(t, Fork(p), Forked(c, pid))
    ensures var t' := Step(t, Fork(p), Forked(c, pid));
      && c !in t && t'.Keys == t.Keys + {c} && (forall x :: x in t ==> t'[x] == t[x] && t'[x].pid != t'[c].pid)
      && t'[c].parent == p && !t'[c].zombie && t'[c].sz == t[p].sz && t'[c].pages == t[p].pages && Runs(t', c)
  {}

  /** The byte of a process at an address it has. */
  function ByteOf(e: EProc, a: nat): int
    requires Has(e, a)
  {
    e.pages[a / PGSIZE][a % PGSIZE]
  }

  /** A store is read back at its address and changes no other byte of any process. */
  lemma StoreLaw(t: Table, p: nat, a: nat, x: int, q: nat, b: nat)
    requires Enabled(t, Store(p, a, x)) && Has(t[p], a) && q in t
    ensures var t' := Step(t, Store(p, a, x), Done);
      && t'.Keys == t.Keys && (Has(t'[q], b) <==> Has(t[q], b))
      && (Has(t[q], b) ==> ByteOf(t'[q], b) == if q == p && b == a then x else ByteOf(t[q], b))
      && (b < KERNPAGES * PGSIZE && !t[q].zombie && Has(t[q], b) ==>
            Allowed(t', Load(q, b), Value(if q == p && b == a then x else ByteOf(t[q], b))))
  {}

  /** The pages of a process are whole. */
  predicate Paged(e: EProc) { forall v :: 0 <= v < |e.pages| ==> |e.pages[v]| == PGSIZE }

  /** sbrk: the size changes by `n`, the process has exactly the pages its size says, the bytes that it keeps are the
      same, those that are new are 0; a shrink beyond the size changes nothing. */
  lemma SbrkLaw(t: Table, p: nat, n: int, a: nat)
    requires Enabled(t, Sbrk(p, n)) && Allowed(t, Sbrk(p, n), Done) && Paged(t[p])
    ensures var e, e' := t[p], Step(t, Sbrk(p, n), Done)[p];
      && e'.sz == (if e.sz + n < 0 then e.sz else e.sz + n) && (Has(e', a) <==> a / PGSIZE < PagesOf(e'.sz))
      && (Has(e', a) ==> ByteOf(e', a) == if Has(e, a) then ByteOf(e, a) else 0)
    ensures var t' := Step(t, Sbrk(p, n), Done);
      && t'.Keys == t.Keys && t'[p].pid == t[p].pid && t'[p].parent == t[p].parent
      && forall x :: x in t && x != p ==> t'[x] == t[x]
  {}
}
