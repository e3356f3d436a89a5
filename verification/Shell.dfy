/** The shell's parser (sh.c) as functions of the input line and a position in it. */
module ShellGrammar {

  const MAXARGS: nat := 10

  predicate IsSpace(c: char) { c == ' ' || c == '\t' || c == '\r' || c == '\n' || c == '\U{0b}' }

  predicate IsSymbol(c: char) { c == '<' || c == '|' || c == '>' || c == '&' || c == ';' || c == '(' || c == ')' }

  predicate IsWordChar(c: char) { !IsSpace(c) && !IsSymbol(c) }

  /** A stretch of the input line: its first position and the one behind its last. */
  datatype Span = Span(q: nat, eq: nat)

  /** What a redirection opens, and as which file descriptor. */
  datatype Mode = ReadFrom | WriteTo

  datatype Cmd =
    | Exec(argv: seq<Span>)
    | Redir(cmd: Cmd, file: Span, mode: Mode)
    | Pipe(left: Cmd, right: Cmd)
    | List(left: Cmd, right: Cmd)
    | Back(cmd: Cmd)

  datatype Kind = End | Word | Append | Symbol(c: char)

  datatype Token = Token(kind: Kind, span: Span, next: nat)

  datatype Parsed = Ok(cmd: Cmd, next: nat) | Panic(why: string)

  function Skip(s: string, i: nat): (j: nat)
    requires i <= |s|
    ensures i <= j <= |s| && (j < |s| ==> !IsSpace(s[j]))
    decreases |s| - i
  {
    if i < |s| && IsSpace(s[i]) then Skip(s, i + 1) else i
  }

  function WordEnd(s: string, i: nat): (j: nat)
    requires i <= |s|
    ensures i <= j <= |s| && (j < |s| ==> !IsWordChar(s[j]))
    decreases |s| - i
  {
    if i < |s| && IsWordChar(s[i]) then WordEnd(s, i + 1) else i
  }

  /** gettoken. */
  function GetToken(s: string, i: nat): (t: Token)
    requires i <= |s|
    ensures i <= t.span.q <= t.span.eq <= t.next <= |s| && (t.kind != End ==> i < t.next)
    ensures t.kind == End <==> Skip(s, i) == |s|
  {
    var q := Skip(s, i);
    if q == |s| then Token(End, Span(q, q), q)
    else if s[q] == '>' && q + 1 < |s| && s[q + 1] == '>' then Token(Append, Span(q, q + 2), Skip(s, q + 2))
    else if IsSymbol(s[q]) then Token(Symbol(s[q]), Span(q, q + 1), Skip(s, q + 1))
    else Token(Word, Span(q, WordEnd(s, q)), Skip(s, WordEnd(s, q)))
  }

  /** peek. */
  predicate Peek(s: string, i: nat, toks: string)
    requires i <= |s|
  {
    Skip(s, i) < |s| && s[Skip(s, i)] in toks
  }

  datatype Redirs = Redirs(list: seq<(Span, Mode)>, next: nat) | NoFile

  /** parseredirs: the redirections from position `i` on. */
  function ParseRedirs(s: string, i: nat): (r: Redirs)
    requires i <= |s|
    ensures r.Redirs? ==> i <= r.next <= |s|
    decreases |s| - i
  {
    if !Peek(s, i, "<>") then Redirs([], Skip(s, i))
    else
      var tok := GetToken(s, i);
      var file := GetToken(s, tok.next);
      if file.kind != Word then NoFile
      else
        var rest := ParseRedirs(s, file.next);
        if rest.NoFile? then NoFile
        else Redirs([(file.span, if tok.kind == Symbol('<') then ReadFrom else WriteTo)] + rest.list, rest.next)
  }

  /** The last redirection is outermost. */
  function Wrap(cmd: Cmd, list: seq<(Span, Mode)>): Cmd
    decreases |list|
  {
    if list == [] then cmd else Wrap(Redir(cmd, list[0].0, list[0].1), list[1..])
  }

  datatype Args = Args(argv: seq<Span>, list: seq<(Span, Mode)>, next: nat) | BadArgs(why: string)

  /** The loop of parseexec: words and redirections in any order. */
  function ParseArgs(s: string, i: nat, argc: nat): (r: Args)
    requires i <= |s|
    ensures r.Args? ==> i <= r.next <= |s|
    decreases |s| - i
  {
    if Peek(s, i, "|)&;") then Args([], [], Skip(s, i))
    else
      var tok := GetToken(s, i);
      if tok.kind == End then Args([], [], tok.next)
      else if tok.kind != Word then BadArgs("syntax")
      else if argc + 1 >= MAXARGS then BadArgs("too many args")
      else
        var redirs := ParseRedirs(s, tok.next);
        if redirs.NoFile? then BadArgs("missing file for redirection")
        else
          var rest := ParseArgs(s, redirs.next, argc + 1);
          if rest.BadArgs? then rest else Args([tok.span] + rest.argv, redirs.list + rest.list, rest.next)
  }

  /** parseexec. */
  function ParseExec(s: string, i: nat): (r: Parsed)
    requires i <= |s|
    ensures r.Ok? ==> i <= r.next <= |s|
    decreases |s| - i, 1
  {
    if Peek(s, i, "(") then ParseBlock(s, i)
    else
      var first := ParseRedirs(s, i);
      if first.NoFile? then Panic("missing file for redirection")
      else
        var args := ParseArgs(s, first.next, 0);
        if args.BadArgs? then Panic(args.why) else Ok(Wrap(Exec(args.argv), first.list + args.list), args.next)
  }

  /** parseblock. */
  function ParseBlock(s: string, i: nat): (r: Parsed)
    requires i <= |s|
    ensures r.Ok? ==> i <= r.next <= |s|
    decreases |s| - i, 0
  {
    if !Peek(s, i, "(") then Panic("parseblock")
    else
      var body := ParseLine(s, GetToken(s, i).next);
      if body.Panic? then body
      else if !Peek(s, body.next, ")") then Panic("syntax - missing )")
      else
        var redirs := ParseRedirs(s, GetToken(s, body.next).next);
        if redirs.NoFile? then Panic("missing file for redirection") else Ok(Wrap(body.cmd, redirs.list), redirs.next)
  }

  /** parsepipe. */
  function ParsePipe(s: string, i: nat): (r: Parsed)
    requires i <= |s|
    ensures r.Ok? ==> i <= r.next <= |s|
    decreases |s| - i, 2
  {
    var left := ParseExec(s, i);
    if left.Panic? then left
    else if !Peek(s, left.next, "|") then Ok(left.cmd, Skip(s, left.next))
    else
      var right := ParsePipe(s, GetToken(s, left.next).next);
      if right.Panic? then right else Ok(Pipe(left.cmd, right.cmd), right.next)
  }

  /** parseline's loop over &. */
  function ParseBacks(s: string, i: nat, cmd: Cmd): (r: Parsed)
    requires i <= |s|
    ensures r.Ok? && i <= r.next <= |s|
    decreases |s| - i
  {
    if Peek(s, i, "&") then ParseBacks(s, GetToken(s, i).next, Back(cmd)) else Ok(cmd, Skip(s, i))
  }

  /** parseline. */
  function ParseLine(s: string, i: nat): (r: Parsed)
    requires i <= |s|
    ensures r.Ok? ==> i <= r.next <= |s|
    decreases |s| - i, 3
  {
    var left := ParsePipe(s, i);
    if left.Panic? then left
    else
      var back := ParseBacks(s, left.next, left.cmd);
      if !Peek(s, back.next, ";") then back
      else
        var right := ParseLine(s, GetToken(s, back.next).next);
        if right.Panic? then right else Ok(List(back.cmd, right.cmd), right.next)
  }

  /** parsecmd, up to nulterminate. */
  function ParseCmd(s: string): Parsed {
    var r := ParseLine(s, 0);
    if r.Panic? then r else if Skip(s, r.next) != |s| then Panic("syntax") else r
  }
}

/** What a parsed command means. */
module ShellText {
  import opened ShellGrammar

  /** A command by what its words say. */
  datatype Tree =
    | Run(words: seq<string>)
    | To(cmd: Tree, file: string, mode: Mode)
    | Piped(left: Tree, right: Tree)
    | Then(left: Tree, right: Tree)
    | Bg(cmd: Tree)

  function WordAt(s: string, w: Span): string {
    if w.q <= w.eq <= |s| then s[w.q..w.eq] else []
  }

  function WordsAt(s: string, argv: seq<Span>): (r: seq<string>)
    ensures |r| == |argv|
  {
    if argv == [] then [] else [WordAt(s, argv[0])] + WordsAt(s, argv[1..])
  }

  function Meaning(s: string, cmd: Cmd): Tree {
    match cmd
    case Exec(argv) => Run(WordsAt(s, argv))
    case Redir(c, file, mode) => To(Meaning(s, c), WordAt(s, file), mode)
    case Pipe(l, r) => Piped(Meaning(s, l), Meaning(s, r))
    case List(l, r) => Then(Meaning(s, l), Meaning(s, r))
    case Back(c) => Bg(Meaning(s, c))
  }

  /** A word the shell would not cut up. */
  predicate Clean(w: string) { w != [] && forall k :: 0 <= k < |w| ==> IsWordChar(w[k]) }

  predicate Sayable(t: Tree) {
    match t
    case Run(words) => |words| < MAXARGS && forall k :: 0 <= k < |words| ==> Clean(words[k])
    case To(c, file, mode) => Sayable(c) && Clean(file)
    case Piped(l, r) => Sayable(l) && Sayable(r)
    case Then(l, r) => Sayable(l) && Sayable(r)
    case Bg(c) => Sayable(c)
  }
}

/** The parser as it runs: a buffer, a cursor, and at the end the pass that cuts the buffer into strings. */
module ShellParser {
  import opened Common
  import opened ShellGrammar

  class Shell {
    const buf: array<char>      // the line and the NUL behind it
    const es: nat               // the end of the line
    ghost const s: string
    var ps: nat                 // the cursor

    ghost predicate Valid()
      reads this, buf
    {
      && buf.Length == |s| + 1 && es == |s| && ps <= es
      && buf[..es] == s && buf[es] == '\0' && forall k :: 0 <= k < |s| ==> s[k] != '\0'
    }

    constructor (line: string)
      requires forall k :: 0 <= k < |line| ==> line[k] != '\0'
      ensures Valid() && s == line && ps == 0 && fresh(buf)
    {
      s := line;
      es := |line|;
      ps := 0;
      buf := new char[|line| + 1](i requires 0 <= i <= |line| => if i < |line| then line[i] else '\0');
      new;
      assert buf[..es] == s;
    }

    /** The loops over whitespace. */
    method Over(i: nat) returns (j: nat)
      requires Valid() && i <= es
      ensures j == Skip(s, i)
    {
      j := i;
      while j < es && IsSpace(buf[j])
        invariant i <= j <= es && Skip(s, j) == Skip(s, i)
      {
        assert buf[j] == s[j];
        j := j + 1;
      }
      assert j < es ==> buf[j] == s[j];
    }

    /** gettoken. */
    method NextToken() returns (t: Token)
      requires Valid()
      modifies this`ps
      ensures Valid() && t == GetToken(s, old(ps)) && ps == t.next
    {
      var i := Over(ps);
      var q := i;
      var kind;
      assert i < es ==> buf[i] == s[i];
      assert i + 1 < es ==> buf[i + 1] == s[i + 1];
      if buf[i] == '\0' {
        kind := End;
      } else if buf[i] == '>' && buf[i + 1] == '>' {
        kind, i := Append, i + 2;
      } else if IsSymbol(buf[i]) {
        kind, i := Symbol(buf[i]), i + 1;
      } else {
        kind := Word;
        while i < es && IsWordChar(buf[i])
          invariant q <= i <= es && WordEnd(s, i) == WordEnd(s, q)
        {
          assert buf[i] == s[i];
          i := i + 1;
        }
        assert i < es ==> buf[i] == s[i];
      }
      var next := Over(i);
      t := Token(kind, Span(q, i), next);
      ps := next;
    }

    /** peek. */
    method Look(toks: string) returns (b: bool)
      requires Valid() && forall k :: 0 <= k < |toks| ==> toks[k] != '\0'
      modifies this`ps
      ensures Valid() && ps == Skip(s, old(ps)) && b == Peek(s, old(ps), toks) == Peek(s, ps, toks)
      ensures Skip(s, ps) == ps
    {
      ps := Over(ps);
      NoSkip(s, ps);
      assert ps < es ==> buf[ps] == s[ps];
      b := buf[ps] != '\0' && buf[ps] in toks;
    }

    /** parseredirs: the redirections, first to last; None is a panic. */
    method Redirections() returns (r: Option<seq<(Span, Mode)>>)
      requires Valid()
      modifies this`ps
      ensures Valid() && old(ps) <= ps
      ensures var d := ParseRedirs(s, old(ps));
        if d.NoFile? then r == None else r == Some(d.list) && ps == d.next && Skip(s, ps) == ps
    {
      hide GetToken;
      hide ParseRedirs;
      hide Skip;
      hide Onto;
      var list := [];
      var more := Look("<>");
      SkipFirst(s, old(ps));
      OntoStart(ParseRedirs(s, ps));
      while more
        invariant Valid() && old(ps) <= ps && more == Peek(s, ps, "<>") && Skip(s, ps) == ps
        invariant Onto(ParseRedirs(s, old(ps)), list, ParseRedirs(s, ps))
        decreases es - ps
      {
        ghost var p := ps;
        var tok := NextToken();
        var file := NextToken();
        RedirsNext(s, p, tok, file);
        if file.kind != Word {
          OntoNone(ParseRedirs(s, old(ps)), list, ParseRedirs(s, p));
          return None;
        }
        var mode := if tok.kind == Symbol('<') then ReadFrom else WriteTo;
        more := Look("<>");
        SkipFirst(s, file.next);
        OntoNext(ParseRedirs(s, old(ps)), list, ParseRedirs(s, p), ParseRedirs(s, ps), file.span, mode);
        list := list + [(file.span, mode)];
      }
      NoRedirs(s, ps);
      OntoEnd(ParseRedirs(s, old(ps)), list, ps);
      r := Some(list);
    }

    /** The loop of parseexec: the words and redirections, or None for a panic. */
    method Words() returns (r: Option<(seq<Span>, seq<(Span, Mode)>)>)
      requires Valid()
      modifies this`ps
      ensures Valid() && old(ps) <= ps
      ensures var a := ParseArgs(s, old(ps), 0);
        if a.BadArgs? then r == None else r == Some((a.argv, a.list)) && ps == a.next
    {
      hide GetToken, Peek, IsSpace;
      hide ParseRedirs;
      hide ParseArgs;
      hide Skip;
      hide Beyond;
      var argv, list := [], [];
      SkipFirst(s, ps);
      var stop := Look("|)&;");
      BeyondStart(ParseArgs(s, ps, 0));
      while !stop
        invariant Valid() && old(ps) <= ps && stop == Peek(s, ps, "|)&;") && Skip(s, ps) == ps && |argv| < MAXARGS
        invariant Beyond(ParseArgs(s, old(ps), 0), argv, list, ParseArgs(s, ps, |argv|))
        decreases es - ps
      {
        ghost var p := ps;
        var tok := NextToken();
        ArgsNext(s, p, |argv|, tok, ParseRedirs(s, tok.next));
        if tok.kind == End {
          BeyondEnd(ParseArgs(s, old(ps), 0), argv, list, ps);
          return Some((argv, list));
        }
        if tok.kind != Word || |argv| + 1 >= MAXARGS {
          BeyondBad(ParseArgs(s, old(ps), 0), argv, list, ParseArgs(s, p, |argv|));
          return None;
        }
        var d := Redirections();
        if d.None? {
          BeyondBad(ParseArgs(s, old(ps), 0), argv, list, ParseArgs(s, p, |argv|));
          return None;
        }
        BeyondNext(ParseArgs(s, old(ps), 0), argv, list, ParseArgs(s, p, |argv|), ParseArgs(s, ps, |argv| + 1),
          tok.span, d.value);
        argv := argv + [tok.span];
        list := list + d.value;
        stop := Look("|)&;");
      }
      ArgsStop(s, ps, |argv|);
      BeyondEnd(ParseArgs(s, old(ps), 0), argv, list, ps);
      r := Some((argv, list));
    }

    /** parseexec; None is a panic. */
    method Simple() returns (r: Option<Cmd>)
      requires Valid()
      modifies this`ps
      ensures Valid() && old(ps) <= ps && Agrees(r, ps, ParseExec(s, old(ps)))
      decreases es - ps, 1
    {
      hide GetToken;
      hide ParseRedirs;
      hide ParseArgs;
      hide Skip;
      SkipFirst(s, ps);
      ghost var p := ps;
      var b := Look("(");
      if b {
        r := Group();
        return;
      }
      var first := Redirections();
      if first.None? { return None; }
      var args := Words();
      if args.None? { return None; }
      r := Some(Wrap(Exec(args.value.0), first.value + args.value.1));
    }

    /** parseblock. */
    method Group() returns (r: Option<Cmd>)
      requires Valid()
      modifies this`ps
      ensures Valid() && old(ps) <= ps && Agrees(r, ps, ParseBlock(s, old(ps)))
      decreases es - ps, 0
    {
      hide GetToken;
      hide ParseRedirs;
      hide ParseLine;
      hide Skip;
      SkipFirst(s, ps);
      var b := Look("(");
      if !b { return None; }
      var open := NextToken();
      r := Line();
      if r.None? { return; }
      SkipFirst(s, ps);
      b := Look(")");
      if !b { return None; }
      var close := NextToken();
      var list := Redirections();
      if list.None? { return None; }
      r := Some(Wrap(r.value, list.value));
    }

    /** parsepipe. */
    method Pipeline() returns (r: Option<Cmd>)
      requires Valid()
      modifies this`ps
      ensures Valid() && old(ps) <= ps && Agrees(r, ps, ParsePipe(s, old(ps)))
      decreases es - ps, 2
    {
      hide GetToken;
      hide ParseExec;
      hide Skip;
      r := Simple();
      if r.None? { return; }
      SkipFirst(s, ps);
      var b := Look("|");
      if b {
        var bar := NextToken();
        var right := Pipeline();
        r := if right.None? then None else Some(Pipe(r.value, right.value));
      }
    }

    /** parseline. */
    method Line() returns (r: Option<Cmd>)
      requires Valid()
      modifies this`ps
      ensures Valid() && old(ps) <= ps && Agrees(r, ps, ParseLine(s, old(ps)))
      decreases es - ps, 3
    {
      hide GetToken;
      hide ParsePipe;
      hide Skip;
      hide ParseBacks;
      r := Pipeline();
      if r.None? { return; }
      ghost var p, cmd := ps, r.value;
      SkipFirst(s, ps);
      var more := Look("&");
      BacksSkip(s, p, cmd);
      while more
        invariant Valid() && p <= ps && r.Some? && more == Peek(s, ps, "&") && Skip(s, ps) == ps
        invariant ParseBacks(s, p, cmd) == ParseBacks(s, ps, r.value)
        decreases es - ps
      {
        BacksNext(s, ps, r.value);
        var amp := NextToken();
        BacksSkip(s, ps, Back(r.value));
        r := Some(Back(r.value));
        SkipFirst(s, ps);
        more := Look("&");
      }
      BacksNext(s, ps, r.value);
      var b := Look(";");
      if b {
        var semi := NextToken();
        var right := Line();
        r := if right.None? then None else Some(List(r.value, right.value));
      }
    }

    /** parsecmd: the whole line is one command, and the buffer is cut into its words. */
    method Command() returns (r: Option<Cmd>)
      requires Valid() && ps == 0
      modifies this`ps, buf
      ensures var p := ParseCmd(s);
        if p.Panic? then r == None else r == Some(p.cmd) && Terminated(buf[..], s, EndsOf(p.cmd))
    {
      hide ParseLine;
      hide Skip;
      r := Line();
      if r.None? { return; }
      ps := Over(ps);
      if ps != es { return None; }
      SpansOk(s);
      TermStart(buf[..], s);
      Nulterminate(r.value, {});
    }

    /** nulterminate. */
    method Nulterminate(cmd: Cmd, ghost done: set<nat>)
      requires buf.Length == |s| + 1 && es == |s| && Within(s, cmd) && Terminated(buf[..], s, done)
      modifies buf
      ensures Terminated(buf[..], s, done + EndsOf(cmd))
      decreases cmd
    {
      match cmd
      case Exec(argv) =>
        var i := 0;
        assert done + ArgEnds(argv[..0]) == done;
        while i < |argv|
          invariant 0 <= i <= |argv| && Terminated(buf[..], s, done + ArgEnds(argv[..i]))
        {
          assert argv[i] in argv && WholeWord(s, argv[i]);
          Mark(argv[i].eq, done + ArgEnds(argv[..i]));
          EndsMore(argv, i);
          assert done + ArgEnds(argv[..i]) + {argv[i].eq} == done + ArgEnds(argv[..i + 1]);
          i := i + 1;
        }
        assert argv[..|argv|] == argv;
      case Redir(c, file, mode) =>
        Nulterminate(c, done);
        Mark(file.eq, done + EndsOf(c));
        assert done + EndsOf(c) + {file.eq} == done + EndsOf(cmd);
      case Pipe(l, r) =>
        Nulterminate(l, done);
        Nulterminate(r, done + EndsOf(l));
        assert done + EndsOf(l) + EndsOf(r) == done + EndsOf(cmd);
      case List(l, r) =>
        Nulterminate(l, done);
        Nulterminate(r, done + EndsOf(l));
        assert done + EndsOf(l) + EndsOf(r) == done + EndsOf(cmd);
      case Back(c) =>
        Nulterminate(c, done);
    }

    /** One end mark. */
    method Mark(at: nat, ghost done: set<nat>)
      requires buf.Length == |s| + 1 && at <= |s| && Terminated(buf[..], s, done)
      modifies buf
      ensures Terminated(buf[..], s, done + {at})
    {
      ghost var before := buf[..];
      buf[at] := '\0';
      assert buf[..] == before[at := '\0'];
    }
  }

  /** A method's result agrees with the grammar's. */
  predicate Agrees(r: Option<Cmd>, ps: nat, p: Parsed) {
    if p.Panic? then r == None else r == Some(p.cmd) && ps == p.next
  }

  /** What is read from `d` is `list` and then what is read from `e`. */
  predicate Onto(d: Redirs, list: seq<(Span, Mode)>, e: Redirs) {
    d == if e.NoFile? then NoFile else Redirs(list + e.list, e.next)
  }

  lemma OntoStart(d: Redirs)
    ensures Onto(d, [], d)
  {
    if d.Redirs? { assert [] + d.list == d.list; }
  }

  lemma OntoNone(d: Redirs, list: seq<(Span, Mode)>, e: Redirs)
    requires Onto(d, list, e) && e.NoFile?
    ensures d.NoFile?
  {}

  lemma OntoEnd(d: Redirs, list: seq<(Span, Mode)>, next: nat)
    requires Onto(d, list, Redirs([], next))
    ensures d == Redirs(list, next)
  {
    assert list + [] == list;
  }

  lemma OntoNext(d: Redirs, list: seq<(Span, Mode)>, e: Redirs, rest: Redirs, file: Span, mode: Mode)
    requires Onto(d, list, e)
    requires e == if rest.NoFile? then NoFile else Redirs([(file, mode)] + rest.list, rest.next)
    ensures Onto(d, list + [(file, mode)], rest)
  {
    if rest.Redirs? { assert list + ([(file, mode)] + rest.list) == (list + [(file, mode)]) + rest.list; }
  }

  /** Nothing to skip at a character that is not a space. */
  lemma NoSkip(s: string, i: nat)
    requires i <= |s| && (i < |s| ==> !IsSpace(s[i]))
    ensures Skip(s, i) == i
  {}

  lemma NoRedirs(s: string, i: nat)
    requires i <= |s| && !Peek(s, i, "<>")
    ensures ParseRedirs(s, i) == Redirs([], Skip(s, i))
  {}

  /** Skipping whitespace first makes no difference to what is read. */
  lemma SkipFirst(s: string, i: nat)
    requires i <= |s|
    ensures var j := Skip(s, i);
      && Skip(s, j) == j && GetToken(s, i) == GetToken(s, j) && ParseRedirs(s, i) == ParseRedirs(s, j)
      && ParseBlock(s, i) == ParseBlock(s, j) && forall argc: nat :: ParseArgs(s, i, argc) == ParseArgs(s, j, argc)
  {
    NoSkip(s, Skip(s, i));
    assert GetToken(s, i) == GetToken(s, Skip(s, i));
    hide GetToken;
  }

  lemma RedirsNext(s: string, p: nat, tok: Token, file: Token)
    requires p <= |s| && Peek(s, p, "<>") && tok == GetToken(s, p) && file == GetToken(s, tok.next)
    ensures file.kind != Word ==> ParseRedirs(s, p).NoFile?
    ensures file.kind == Word ==>
      var rest := ParseRedirs(s, file.next);
      ParseRedirs(s, p) == if rest.NoFile? then NoFile
        else Redirs([(file.span, if tok.kind == Symbol('<') then ReadFrom else WriteTo)] + rest.list, rest.next)
  {}

  // ----- The loops of parseexec and parseline -----

  predicate Beyond(a: Args, argv: seq<Span>, list: seq<(Span, Mode)>, rest: Args) {
    if rest.BadArgs? then a.BadArgs? else a == Args(argv + rest.argv, list + rest.list, rest.next)
  }

  lemma BeyondStart(a: Args)
    ensures Beyond(a, [], [], a)
  {
    if a.Args? { assert [] + a.argv == a.argv && [] + a.list == a.list; }
  }

  lemma BeyondBad(a: Args, argv: seq<Span>, list: seq<(Span, Mode)>, rest: Args)
    requires Beyond(a, argv, list, rest) && rest.BadArgs?
    ensures a.BadArgs?
  {}

  lemma BeyondEnd(a: Args, argv: seq<Span>, list: seq<(Span, Mode)>, next: nat)
    requires Beyond(a, argv, list, Args([], [], next))
    ensures a == Args(argv, list, next)
  {
    assert argv + [] == argv && list + [] == list;
  }

  lemma BeyondNext(a: Args, argv: seq<Span>, list: seq<(Span, Mode)>, here: Args, rest: Args, w: Span,
          d: seq<(Span, Mode)>)
    requires Beyond(a, argv, list, here)
    requires if rest.BadArgs? then here.BadArgs? else here == Args([w] + rest.argv, d + rest.list, rest.next)
    ensures Beyond(a, argv + [w], list + d, rest)
  {
    if rest.Args? {
      assert argv + ([w] + rest.argv) == (argv + [w]) + rest.argv;
      assert list + (d + rest.list) == (list + d) + rest.list;
    }
  }

  lemma ArgsNext(s: string, p: nat, argc: nat, tok: Token, d: Redirs)
    requires p <= |s| && !Peek(s, p, "|)&;") && tok == GetToken(s, p) && d == ParseRedirs(s, tok.next)
    ensures tok.kind == End ==> ParseArgs(s, p, argc) == Args([], [], tok.next)
    ensures tok.kind != End && (tok.kind != Word || argc + 1 >= MAXARGS || d.NoFile?) ==> ParseArgs(s, p, argc).BadArgs?
    ensures tok.kind == Word && argc + 1 < MAXARGS && d.Redirs? ==>
      var rest := ParseArgs(s, d.next, argc + 1);
      if rest.BadArgs? then ParseArgs(s, p, argc).BadArgs?
      else ParseArgs(s, p, argc) == Args([tok.span] + rest.argv, d.list + rest.list, rest.next)
  {}

  lemma ArgsStop(s: string, p: nat, argc: nat)
    requires p <= |s| && Peek(s, p, "|)&;") && Skip(s, p) == p
    ensures ParseArgs(s, p, argc) == Args([], [], p)
  {}

  lemma BacksSkip(s: string, p: nat, cmd: Cmd)
    requires p <= |s|
    ensures ParseBacks(s, p, cmd) == ParseBacks(s, Skip(s, p), cmd)
  {
    NoSkip(s, Skip(s, p));
    assert GetToken(s, p) == GetToken(s, Skip(s, p));
    hide GetToken;
  }

  lemma BacksNext(s: string, p: nat, cmd: Cmd)
    requires p <= |s| && Skip(s, p) == p
    ensures ParseBacks(s, p, cmd) == if Peek(s, p, "&") then ParseBacks(s, GetToken(s, p).next, Back(cmd))
      else Ok(cmd, p)
  {}

  // ----- nulterminate -----

  function ArgEnds(argv: seq<Span>): set<nat> { set w | w in argv :: w.eq }

  /** The positions behind the words of a command. */
  function EndsOf(cmd: Cmd): set<nat> {
    match cmd
    case Exec(argv) => ArgEnds(argv)
    case Redir(c, file, mode) => EndsOf(c) + {file.eq}
    case Pipe(l, r) => EndsOf(l) + EndsOf(r)
    case List(l, r) => EndsOf(l) + EndsOf(r)
    case Back(c) => EndsOf(c)
  }

  /** A whole word of the line: what follows it, if anything, is not part of a word. */
  ghost predicate WholeWord(s: string, w: Span) {
    && w.q < w.eq <= |s| && (forall k :: w.q <= k < w.eq ==> IsWordChar(s[k]))
    && (w.eq < |s| ==> !IsWordChar(s[w.eq]))
  }

  /** All the words of a command are whole words of the line. */
  ghost predicate Within(s: string, cmd: Cmd) {
    match cmd
    case Exec(argv) => forall w :: w in argv ==> WholeWord(s, w)
    case Redir(c, file, mode) => Within(s, c) && WholeWord(s, file)
    case Pipe(l, r) => Within(s, l) && Within(s, r)
    case List(l, r) => Within(s, l) && Within(s, r)
    case Back(c) => Within(s, c)
  }

  /** The line with a NUL at its end and at the positions of `ends`. */
  ghost predicate Terminated(buf: seq<char>, s: string, ends: set<nat>) {
    && |buf| == |s| + 1 && buf[|s|] == '\0'
    && forall k :: 0 <= k < |s| ==> buf[k] == if k in ends then '\0' else s[k]
  }

  lemma TermStart(buf: seq<char>, s: string)
    requires |buf| == |s| + 1 && buf[|s|] == '\0' && buf[..|s|] == s
    ensures Terminated(buf, s, {})
  {}

  lemma EndsMore(argv: seq<Span>, i: nat)
    requires i < |argv|
    ensures ArgEnds(argv[..i + 1]) == ArgEnds(argv[..i]) + {argv[i].eq}
  {
    assert argv[..i + 1] == argv[..i] + [argv[i]];
    forall x | x in ArgEnds(argv[..i]) + {argv[i].eq} ensures x in ArgEnds(argv[..i + 1]) {
      if x != argv[i].eq {
        var w :| w in argv[..i] && w.eq == x;
        assert w in argv[..i + 1];
      } else {
        assert argv[i] in argv[..i + 1];
      }
    }
  }

  // ----- Every word of a parsed command is a whole word of the line -----

  lemma {:induction false} WordRun(s: string, i: nat)
    requires i <= |s|
    ensures forall k :: i <= k < WordEnd(s, i) ==> IsWordChar(s[k])
    decreases |s| - i
  {
    if i < |s| && IsWordChar(s[i]) { WordRun(s, i + 1); }
  }

  lemma TokenWhole(s: string, i: nat)
    requires i <= |s| && GetToken(s, i).kind == Word
    ensures WholeWord(s, GetToken(s, i).span)
  {
    var q := Skip(s, i);
    WordRun(s, q);
    assert WordEnd(s, q) > q;
  }

  ghost predicate FilesOk(s: string, list: seq<(Span, Mode)>) {
    forall d :: d in list ==> WholeWord(s, d.0)
  }

  lemma {:induction false} RedirsWhole(s: string, i: nat)
    requires i <= |s| && ParseRedirs(s, i).Redirs?
    ensures FilesOk(s, ParseRedirs(s, i).list)
    decreases |s| - i
  {
    if Peek(s, i, "<>") {
      var tok := GetToken(s, i);
      TokenWhole(s, tok.next);
      RedirsWhole(s, GetToken(s, tok.next).next);
    }
  }

  lemma {:induction false} WrapWithin(s: string, cmd: Cmd, list: seq<(Span, Mode)>)
    requires Within(s, cmd) && FilesOk(s, list)
    ensures Within(s, Wrap(cmd, list))
    decreases |list|
  {
    if list != [] {
      assert list[0] in list;
      WrapWithin(s, Redir(cmd, list[0].0, list[0].1), list[1..]);
    }
  }

  lemma {:induction false} ArgsWhole(s: string, i: nat, argc: nat)
    requires i <= |s| && ParseArgs(s, i, argc).Args?
    ensures (forall w :: w in ParseArgs(s, i, argc).argv ==> WholeWord(s, w)) && FilesOk(s, ParseArgs(s, i, argc).list)
    decreases |s| - i
  {
    hide GetToken, Peek, ParseRedirs, WholeWord;
    if !Peek(s, i, "|)&;") && GetToken(s, i).kind != End {
      TokenWhole(s, i);
      var redirs := ParseRedirs(s, GetToken(s, i).next);
      RedirsWhole(s, GetToken(s, i).next);
      ArgsWhole(s, redirs.next, argc + 1);
    }
  }

  lemma {:induction false} ExecWithin(s: string, i: nat)
    requires i <= |s| && ParseExec(s, i).Ok?
    ensures Within(s, ParseExec(s, i).cmd)
    decreases |s| - i, 1
  {
    hide GetToken;
    hide WholeWord;
    hide ParseArgs;
    hide ParseRedirs;
    if Peek(s, i, "(") {
      BlockWithin(s, i);
    } else {
      var first := ParseRedirs(s, i);
      var args := ParseArgs(s, first.next, 0);
      RedirsWhole(s, i);
      ArgsWhole(s, first.next, 0);
      WrapWithin(s, Exec(args.argv), first.list + args.list);
    }
  }

  lemma {:induction false} BlockWithin(s: string, i: nat)
    requires i <= |s| && ParseBlock(s, i).Ok?
    ensures Within(s, ParseBlock(s, i).cmd)
    decreases |s| - i, 0
  {
    hide WholeWord;
    hide ParseRedirs;
    var next := GetToken(s, i).next;
    LineWithin(s, next);
    var body := ParseLine(s, next);
    RedirsWhole(s, GetToken(s, body.next).next);
    hide ParseLine;
    WrapWithin(s, body.cmd, ParseRedirs(s, GetToken(s, body.next).next).list);
  }

  lemma {:induction false} PipeWithin(s: string, i: nat)
    requires i <= |s| && ParsePipe(s, i).Ok?
    ensures Within(s, ParsePipe(s, i).cmd)
    decreases |s| - i, 2
  {
    hide WholeWord;
    hide ParseExec;
    ExecWithin(s, i);
    var left := ParseExec(s, i);
    if Peek(s, left.next, "|") { PipeWithin(s, GetToken(s, left.next).next); }
  }

  lemma {:induction false} BacksWithin(s: string, i: nat, cmd: Cmd)
    requires i <= |s| && Within(s, cmd)
    ensures Within(s, ParseBacks(s, i, cmd).cmd)
    decreases |s| - i
  {
    if Peek(s, i, "&") { BacksWithin(s, GetToken(s, i).next, Back(cmd)); }
  }

  lemma {:induction false} LineWithin(s: string, i: nat)
    requires i <= |s| && ParseLine(s, i).Ok?
    ensures Within(s, ParseLine(s, i).cmd)
    decreases |s| - i, 3
  {
    hide WholeWord;
    hide ParsePipe;
    hide ParseBacks;
    PipeWithin(s, i);
    var left := ParsePipe(s, i);
    BacksWithin(s, left.next, left.cmd);
    var back := ParseBacks(s, left.next, left.cmd);
    if Peek(s, back.next, ";") { LineWithin(s, GetToken(s, back.next).next); }
  }

  /** The string a C program reads at position `i`. */
  function CString(buf: seq<char>, i: nat): string
    requires i <= |buf|
    decreases |buf| - i
  {
    if i == |buf| || buf[i] == '\0' then [] else [buf[i]] + CString(buf, i + 1)
  }

  lemma {:induction false} ReadsTo(buf: seq<char>, s: string, i: nat, j: nat)
    requires i <= j <= |s| && |buf| == |s| + 1 && buf[j] == '\0' && forall k :: i <= k < j ==> buf[k] == s[k] != '\0'
    ensures CString(buf, i) == s[i..j]
    decreases j - i
  {
    if i < j {
      ReadsTo(buf, s, i + 1, j);
      assert s[i..j] == [s[i]] + s[i + 1..j];
    }
  }

  /** The words of a command. */
  function WordsOf(cmd: Cmd): set<Span> {
    match cmd
    case Exec(argv) => set w | w in argv
    case Redir(c, file, mode) => WordsOf(c) + {file}
    case Pipe(l, r) => WordsOf(l) + WordsOf(r)
    case List(l, r) => WordsOf(l) + WordsOf(r)
    case Back(c) => WordsOf(c)
  }

  lemma {:induction false} EndsAre(s: string, cmd: Cmd)
    requires Within(s, cmd)
    ensures forall w :: w in WordsOf(cmd) ==> WholeWord(s, w) && w.eq in EndsOf(cmd)
    ensures forall e :: e in EndsOf(cmd) ==> e <= |s| && (e < |s| ==> !IsWordChar(s[e]))
  {
    match cmd
    case Exec(argv) =>
    case Redir(c, file, mode) => EndsAre(s, c);
    case Pipe(l, r) => EndsAre(s, l); EndsAre(s, r);
    case List(l, r) => EndsAre(s, l); EndsAre(s, r);
    case Back(c) => EndsAre(s, c);
  }

  /** After nulterminate every argument and file name reads as exactly its token: no end mark falls inside another. */
  lemma CutRight(s: string, buf: seq<char>, w: Span)
    requires ParseCmd(s).Ok? && Terminated(buf, s, EndsOf(ParseCmd(s).cmd)) && w in WordsOf(ParseCmd(s).cmd)
    requires forall k :: 0 <= k < |s| ==> s[k] != '\0'
    ensures w.q < w.eq <= |s| && CString(buf, w.q) == s[w.q..w.eq]
  {
    var cmd := ParseCmd(s).cmd;
    SpansOk(s);
    EndsAre(s, cmd);
    hide ParseCmd;
    forall k | w.q <= k < w.eq ensures buf[k] == s[k] != '\0' { assert IsWordChar(s[k]); }
    ReadsTo(buf, s, w.q, w.eq);
  }

  lemma SpansOk(s: string)
    requires ParseCmd(s).Ok?
    ensures Within(s, ParseCmd(s).cmd)
  {
    LineWithin(s, 0);
  }
}
