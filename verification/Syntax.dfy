/** The grammar of the shell's command lines: which lines sh.c accepts, and as what. */
module ShellSyntax {
  import opened ShellGrammar
  import opened ShellText

  /** A line as its tokens: words, the signs | & ; ( ) < > and the sign >>. */
  datatype Tok = Name(word: string) | Sign(c: char) | Twice

  function TokOf(s: string, t: Token): Tok {
    match t.kind
    case Word => Name(WordAt(s, t.span))
    case Append => Twice
    case Symbol(c) => Sign(c)
    case End => Twice
  }

  function Lex(s: string, i: nat): seq<Tok>
    requires i <= |s|
    decreases |s| - i
  {
    var t := GetToken(s, i);
    if t.kind == End then [] else [TokOf(s, t)] + Lex(s, t.next)
  }

  // ----- Sentences of the grammar -----

  /** < file, > file or >> file. */
  datatype Arrow = From | Onto | After

  datatype Redirect = Redirect(arrow: Arrow, file: string)

  /** A word and the redirections behind it. */
  datatype Arg = Arg(word: string, redirs: seq<Redirect>)

  /** A simple command, redirections and words in any order, or a line in parentheses. */
  datatype Command = Simple(first: seq<Redirect>, args: seq<Arg>) | Block(line: Sentence, redirs: seq<Redirect>)

  /** Commands with | between them. */
  datatype Pipeline = Last(cmd: Command) | Bar(cmd: Command, rest: Pipeline)

  /** Pipelines with ; between them, each followed by any number of &. */
  datatype Sentence = One(pipe: Pipeline, amps: nat) | Semi(pipe: Pipeline, amps: nat, rest: Sentence)

  function ArrowTok(a: Arrow): Tok { if a.From? then Sign('<') else if a.Onto? then Sign('>') else Twice }

  function RedirToks(rs: seq<Redirect>): seq<Tok> {
    if rs == [] then [] else [ArrowTok(rs[0].arrow), Name(rs[0].file)] + RedirToks(rs[1..])
  }

  function ArgToks(args: seq<Arg>): seq<Tok> {
    if args == [] then [] else [Name(args[0].word)] + (RedirToks(args[0].redirs) + ArgToks(args[1..]))
  }

  function Amps(n: nat): seq<Tok> { if n == 0 then [] else [Sign('&')] + Amps(n - 1) }

  /** The tokens of a sentence. */
  function CommandToks(c: Command): seq<Tok> {
    match c
    case Simple(first, args) => RedirToks(first) + ArgToks(args)
    case Block(line, redirs) => [Sign('(')] + (Toks(line) + ([Sign(')')] + RedirToks(redirs)))
  }

  function PipeToks(p: Pipeline): seq<Tok> {
    match p
    case Last(c) => CommandToks(c)
    case Bar(c, rest) => CommandToks(c) + ([Sign('|')] + PipeToks(rest))
  }

  function Toks(l: Sentence): seq<Tok> {
    match l
    case One(p, n) => PipeToks(p) + Amps(n)
    case Semi(p, n, rest) => PipeToks(p) + (Amps(n) + ([Sign(';')] + Toks(rest)))
  }

  // ----- What a sentence means -----

  function Modes(rs: seq<Redirect>): seq<(string, Mode)> {
    if rs == [] then [] else [(rs[0].file, if rs[0].arrow.From? then ReadFrom else WriteTo)] + Modes(rs[1..])
  }

  function ArgModes(args: seq<Arg>): seq<(string, Mode)> {
    if args == [] then [] else Modes(args[0].redirs) + ArgModes(args[1..])
  }

  function Names(args: seq<Arg>): seq<string> {
    if args == [] then [] else [args[0].word] + Names(args[1..])
  }

  /** The last redirection is outermost. */
  function Redirected(t: Tree, ms: seq<(string, Mode)>): Tree
    decreases |ms|
  {
    if ms == [] then t else Redirected(To(t, ms[0].0, ms[0].1), ms[1..])
  }

  function Bgs(t: Tree, n: nat): Tree
    decreases n
  {
    if n == 0 then t else Bgs(Bg(t), n - 1)
  }

  function CommandTree(c: Command): Tree {
    match c
    case Simple(first, args) => Redirected(Run(Names(args)), Modes(first) + ArgModes(args))
    case Block(line, redirs) => Redirected(TreeOf(line), Modes(redirs))
  }

  function PipeTree(p: Pipeline): Tree {
    match p
    case Last(c) => CommandTree(c)
    case Bar(c, rest) => Piped(CommandTree(c), PipeTree(rest))
  }

  /** | binds closest, then &, then ;. All group to the right. */
  function TreeOf(l: Sentence): Tree {
    match l
    case One(p, n) => Bgs(PipeTree(p), n)
    case Semi(p, n, rest) => Then(Bgs(PipeTree(p), n), TreeOf(rest))
  }

  /** No simple command has MAXARGS words or more. */
  predicate CommandFits(c: Command) {
    match c
    case Simple(first, args) => |args| < MAXARGS
    case Block(line, redirs) => Fits(line)
  }

  predicate PipeFits(p: Pipeline) {
    match p
    case Last(c) => CommandFits(c)
    case Bar(c, rest) => CommandFits(c) && PipeFits(rest)
  }

  predicate Fits(l: Sentence) {
    match l
    case One(p, n) => PipeFits(p)
    case Semi(p, n, rest) => PipeFits(p) && Fits(rest)
  }

  // ----- Tokens and the parser's look ahead -----

  predicate Starts(toks: seq<Tok>, c: char) { toks != [] && toks[0] == Sign(c) }

  predicate StartsArrow(toks: seq<Tok>) {
    toks != [] && (toks[0] == Sign('<') || toks[0] == Sign('>') || toks[0] == Twice)
  }

  predicate StartsName(toks: seq<Tok>) { toks != [] && toks[0].Name? }

  lemma SkipTwice(s: string, i: nat)
    requires i <= |s|
    ensures Skip(s, Skip(s, i)) == Skip(s, i) && Lex(s, Skip(s, i)) == Lex(s, i)
  {
    assert Skip(s, Skip(s, i)) == Skip(s, i);
    assert GetToken(s, Skip(s, i)) == GetToken(s, i);
  }

  /** What peek sees is the first token. */
  lemma Ahead(s: string, i: nat)
    requires i <= |s|
    ensures Peek(s, i, "(") <==> Starts(Lex(s, i), '(')
    ensures Peek(s, i, ")") <==> Starts(Lex(s, i), ')')
    ensures Peek(s, i, "|") <==> Starts(Lex(s, i), '|')
    ensures Peek(s, i, "&") <==> Starts(Lex(s, i), '&')
    ensures Peek(s, i, ";") <==> Starts(Lex(s, i), ';')
    ensures Peek(s, i, "<>") <==> StartsArrow(Lex(s, i))
    ensures Peek(s, i, "|)&;") <==>
      Starts(Lex(s, i), '|') || Starts(Lex(s, i), ')') || Starts(Lex(s, i), '&') || Starts(Lex(s, i), ';')
    ensures GetToken(s, i).kind == Word <==> StartsName(Lex(s, i))
    ensures GetToken(s, i).kind == End <==> Lex(s, i) == []
    ensures Skip(s, i) == |s| <==> Lex(s, i) == []
  {
    hide Skip, WordEnd;
  }

  /** The token that gettoken takes. */
  lemma Took(s: string, i: nat)
    requires i <= |s| && Lex(s, i) != []
    ensures Lex(s, i) == [TokOf(s, GetToken(s, i))] + Lex(s, GetToken(s, i).next)
    ensures Lex(s, i)[0] == TokOf(s, GetToken(s, i)) && Lex(s, i)[1..] == Lex(s, GetToken(s, i).next)
  {}

  lemma AtEnd(s: string, i: nat)
    requires i <= |s| && GetToken(s, i).kind == End
    ensures Lex(s, i) == [] && Lex(s, GetToken(s, i).next) == []
  {}

  lemma Assoc(a: seq<Tok>, b: seq<Tok>, c: seq<Tok>)
    ensures a + (b + c) == (a + b) + c
  {}

  lemma Two(x: Tok, y: Tok, a: seq<Tok>, b: seq<Tok>)
    ensures [x] + ([y] + (a + b)) == ([x, y] + a) + b
  {
    Assoc([x], [y], a + b);
    Assoc([x, y], a, b);
    assert [x] + [y] == [x, y];
  }

  lemma Nested(a: seq<Tok>, b: seq<Tok>, c: seq<Tok>, d: seq<Tok>, e: seq<Tok>)
    ensures a + (b + (c + (d + e))) == (a + (b + (c + d))) + e
  {
    Assoc(c, d, e);
    Assoc(b, c + d, e);
    Assoc(a, b + (c + d), e);
  }

  /** The parser's redirections by what their words say. */
  function Said(s: string, list: seq<(Span, Mode)>): seq<(string, Mode)> {
    if list == [] then [] else [(WordAt(s, list[0].0), list[0].1)] + Said(s, list[1..])
  }

  lemma {:induction false} SaidBoth(s: string, a: seq<(Span, Mode)>, b: seq<(Span, Mode)>)
    ensures Said(s, a + b) == Said(s, a) + Said(s, b)
  {
    if a == [] {
      assert a + b == b;
    } else {
      SaidBoth(s, a[1..], b);
      assert (a + b)[1..] == a[1..] + b;
    }
  }

  lemma {:induction false} WrapMeans(s: string, cmd: Cmd, list: seq<(Span, Mode)>)
    ensures Meaning(s, Wrap(cmd, list)) == Redirected(Meaning(s, cmd), Said(s, list))
    decreases |list|
  {
    if list != [] {
      WrapMeans(s, Redir(cmd, list[0].0, list[0].1), list[1..]);
      assert Said(s, list)[1..] == Said(s, list[1..]);
    }
  }

  lemma {:induction false} BacksMean(s: string, i: nat, cmd: Cmd) returns (n: nat)
    requires i <= |s|
    ensures Lex(s, i) == Amps(n) + Lex(s, ParseBacks(s, i, cmd).next)
      && Meaning(s, ParseBacks(s, i, cmd).cmd) == Bgs(Meaning(s, cmd), n)
    decreases |s| - i
  {
    hide GetToken, Skip, Peek, Lex;
    Ahead(s, i);
    if Peek(s, i, "&") {
      Took(s, i);
      assert GetToken(s, i).kind == Symbol('&');
      n := BacksMean(s, GetToken(s, i).next, Back(cmd));
      Assoc([Sign('&')], Amps(n), Lex(s, ParseBacks(s, i, cmd).next));
      n := n + 1;
    } else {
      SkipTwice(s, i);
      n := 0;
    }
  }

  // ----- What the parser accepts is a sentence -----

  lemma {:induction false} RedirsSound(s: string, i: nat) returns (rs: seq<Redirect>)
    requires i <= |s| && ParseRedirs(s, i).Redirs?
    ensures Lex(s, i) == RedirToks(rs) + Lex(s, ParseRedirs(s, i).next) && Said(s, ParseRedirs(s, i).list) == Modes(rs)
    decreases |s| - i
  {
    hide GetToken, Skip, Peek, Lex;
    Ahead(s, i);
    if !Peek(s, i, "<>") {
      SkipTwice(s, i);
      rs := [];
    } else {
      Took(s, i);
      var tok := GetToken(s, i);
      Ahead(s, tok.next);
      var file := GetToken(s, tok.next);
      Took(s, tok.next);
      var rest := RedirsSound(s, file.next);
      var a := if tok.kind == Symbol('<') then From else if tok.kind == Append then After else Onto;
      assert ArrowTok(a) == TokOf(s, tok);
      rs := [Redirect(a, WordAt(s, file.span))] + rest;
      assert rs[1..] == rest;
      Two(ArrowTok(a), Name(WordAt(s, file.span)), RedirToks(rest), Lex(s, ParseRedirs(s, i).next));
      var list := ParseRedirs(s, file.next).list;
      assert ParseRedirs(s, i).list[1..] == list;
    }
  }

  lemma {:induction false} ArgsSound(s: string, i: nat, argc: nat) returns (args: seq<Arg>)
    requires i <= |s| && ParseArgs(s, i, argc).Args?
    ensures Lex(s, i) == ArgToks(args) + Lex(s, ParseArgs(s, i, argc).next)
    ensures Said(s, ParseArgs(s, i, argc).list) == ArgModes(args)
    ensures WordsAt(s, ParseArgs(s, i, argc).argv) == Names(args)
    ensures args != [] ==> argc + |args| < MAXARGS
    decreases |s| - i
  {
    hide GetToken, Skip, Peek, Lex, ParseRedirs, Modes, RedirToks;
    Ahead(s, i);
    var tok := GetToken(s, i);
    if Peek(s, i, "|)&;") {
      SkipTwice(s, i);
      args := [];
    } else if tok.kind == End {
      AtEnd(s, i);
      args := [];
    } else {
      Took(s, i);
      var rs := RedirsSound(s, tok.next);
      var redirs := ParseRedirs(s, tok.next);
      var rest := ParseArgs(s, redirs.next, argc + 1);
      var more := ArgsSound(s, redirs.next, argc + 1);
      args := [Arg(WordAt(s, tok.span), rs)] + more;
      assert args[1..] == more;
      var end := Lex(s, rest.next);
      Assoc(RedirToks(rs), ArgToks(more), end);
      Assoc([Name(WordAt(s, tok.span))], RedirToks(rs) + ArgToks(more), end);
      SaidBoth(s, redirs.list, rest.list);
    }
  }

  lemma {:induction false} CommandSound(s: string, i: nat) returns (c: Command)
    requires i <= |s| && ParseExec(s, i).Ok?
    ensures Lex(s, i) == CommandToks(c) + Lex(s, ParseExec(s, i).next)
    ensures Meaning(s, ParseExec(s, i).cmd) == CommandTree(c) && CommandFits(c)
    decreases |s| - i, 1
  {
    hide GetToken, Skip, Peek, Lex, ParseRedirs, ParseArgs, Modes, ArgModes, RedirToks, ArgToks, Said, Redirected, Wrap;
    if Peek(s, i, "(") {
      c := BlockSound(s, i);
    } else {
      var rs := RedirsSound(s, i);
      var first := ParseRedirs(s, i);
      var args := ArgsSound(s, first.next, 0);
      var rest := ParseArgs(s, first.next, 0);
      c := Simple(rs, args);
      Assoc(RedirToks(rs), ArgToks(args), Lex(s, rest.next));
      SaidBoth(s, first.list, rest.list);
      WrapMeans(s, Exec(rest.argv), first.list + rest.list);
    }
  }

  lemma {:induction false} BlockSound(s: string, i: nat) returns (c: Command)
    requires i <= |s| && ParseBlock(s, i).Ok?
    ensures Lex(s, i) == CommandToks(c) + Lex(s, ParseBlock(s, i).next)
    ensures Meaning(s, ParseBlock(s, i).cmd) == CommandTree(c) && CommandFits(c)
    decreases |s| - i, 0
  {
    hide GetToken, Skip, Peek, Lex, ParseRedirs, ParseLine, Modes, RedirToks, Said, Redirected, Wrap, Toks,
      TreeOf, Fits;
    Ahead(s, i);
    Took(s, i);
    var open := GetToken(s, i);
    var body := ParseLine(s, open.next);
    var line := SentenceSound(s, open.next);
    Ahead(s, body.next);
    Took(s, body.next);
    var close := GetToken(s, body.next);
    var rs := RedirsSound(s, close.next);
    c := Block(line, rs);
    Nested([Sign('(')], Toks(line), [Sign(')')], RedirToks(rs), Lex(s, ParseBlock(s, i).next));
    WrapMeans(s, body.cmd, ParseRedirs(s, close.next).list);
  }

  lemma {:induction false} PipeSound(s: string, i: nat) returns (p: Pipeline)
    requires i <= |s| && ParsePipe(s, i).Ok?
    ensures Lex(s, i) == PipeToks(p) + Lex(s, ParsePipe(s, i).next)
    ensures Meaning(s, ParsePipe(s, i).cmd) == PipeTree(p) && PipeFits(p)
    decreases |s| - i, 2
  {
    hide GetToken, Skip, Peek, Lex, ParseExec, CommandToks, CommandTree, CommandFits;
    var left := ParseExec(s, i);
    var c := CommandSound(s, i);
    Ahead(s, left.next);
    if Peek(s, left.next, "|") {
      Took(s, left.next);
      var rest := PipeSound(s, GetToken(s, left.next).next);
      p := Bar(c, rest);
      var end := Lex(s, ParsePipe(s, i).next);
      Assoc([Sign('|')], PipeToks(rest), end);
      Assoc(CommandToks(c), [Sign('|')] + PipeToks(rest), end);
    } else {
      SkipTwice(s, left.next);
      p := Last(c);
    }
  }

  lemma {:induction false} SentenceSound(s: string, i: nat) returns (l: Sentence)
    requires i <= |s| && ParseLine(s, i).Ok?
    ensures Lex(s, i) == Toks(l) + Lex(s, ParseLine(s, i).next)
    ensures Meaning(s, ParseLine(s, i).cmd) == TreeOf(l) && Fits(l)
    decreases |s| - i, 3
  {
    hide GetToken, Skip, Peek, Lex, ParsePipe, ParseBacks, PipeToks, PipeTree, PipeFits, Amps, Bgs;
    var left := ParsePipe(s, i);
    var p := PipeSound(s, i);
    var n := BacksMean(s, left.next, left.cmd);
    var back := ParseBacks(s, left.next, left.cmd);
    Ahead(s, back.next);
    if Peek(s, back.next, ";") {
      Took(s, back.next);
      var rest := SentenceSound(s, GetToken(s, back.next).next);
      l := Semi(p, n, rest);
      Nested(PipeToks(p), Amps(n), [Sign(';')], Toks(rest), Lex(s, ParseLine(s, i).next));
    } else {
      l := One(p, n);
      Assoc(PipeToks(p), Amps(n), Lex(s, back.next));
    }
  }

  // ----- What is a sentence the parser accepts -----

  predicate StopsCommand(toks: seq<Tok>) {
    toks == [] || Starts(toks, '|') || Starts(toks, '&') || Starts(toks, ';') || Starts(toks, ')')
  }

  predicate StopsPipe(toks: seq<Tok>) { toks == [] || Starts(toks, '&') || Starts(toks, ';') || Starts(toks, ')') }

  predicate StopsLine(toks: seq<Tok>) { toks == [] || Starts(toks, ')') }

  lemma {:induction false} BacksDone(s: string, i: nat, cmd: Cmd, n: nat, rest: seq<Tok>)
    requires i <= |s| && Lex(s, i) == Amps(n) + rest && !Starts(rest, '&')
    ensures Lex(s, ParseBacks(s, i, cmd).next) == rest
    ensures Meaning(s, ParseBacks(s, i, cmd).cmd) == Bgs(Meaning(s, cmd), n)
    decreases n
  {
    hide GetToken, Skip, Peek, Lex;
    Ahead(s, i);
    if n == 0 {
      SkipTwice(s, i);
    } else {
      Took(s, i);
      BacksDone(s, GetToken(s, i).next, Back(cmd), n - 1, rest);
    }
  }

  lemma {:induction false} RedirsDone(s: string, i: nat, rs: seq<Redirect>, rest: seq<Tok>)
    requires i <= |s| && Lex(s, i) == RedirToks(rs) + rest && !StartsArrow(rest)
    ensures ParseRedirs(s, i).Redirs? && Lex(s, ParseRedirs(s, i).next) == rest
    ensures Said(s, ParseRedirs(s, i).list) == Modes(rs)
    decreases |rs|
  {
    hide GetToken, Skip, Peek, Lex;
    Ahead(s, i);
    if rs == [] {
      SkipTwice(s, i);
    } else {
      Took(s, i);
      var tok := GetToken(s, i);
      Ahead(s, tok.next);
      assert Lex(s, tok.next) == [Name(rs[0].file)] + (RedirToks(rs[1..]) + rest);
      Took(s, tok.next);
      var file := GetToken(s, tok.next);
      RedirsDone(s, file.next, rs[1..], rest);
      assert ParseRedirs(s, i).list[1..] == ParseRedirs(s, file.next).list;
    }
  }

  /** What follows an argument is another, or the end of the command. */
  lemma NextArg(args: seq<Arg>, rest: seq<Tok>)
    requires StopsCommand(rest)
    ensures !StartsArrow(ArgToks(args) + rest) && !Starts(ArgToks(args) + rest, '(')
    ensures StartsName(ArgToks(args) + rest) <==> args != []
  {}

  lemma {:induction false} ArgsDone(s: string, i: nat, argc: nat, args: seq<Arg>, rest: seq<Tok>)
    requires i <= |s| && Lex(s, i) == ArgToks(args) + rest && StopsCommand(rest)
    requires args != [] ==> argc + |args| < MAXARGS
    ensures ParseArgs(s, i, argc).Args? && Lex(s, ParseArgs(s, i, argc).next) == rest
    ensures Said(s, ParseArgs(s, i, argc).list) == ArgModes(args)
    ensures WordsAt(s, ParseArgs(s, i, argc).argv) == Names(args)
    decreases |args|
  {
    hide GetToken, Skip, Peek, Lex, ParseRedirs, Modes, RedirToks;
    Ahead(s, i);
    if args == [] {
      SkipTwice(s, i);
      if rest == [] {
        AtEnd(s, i);
      }
    } else {
      Took(s, i);
      var tok := GetToken(s, i);
      var more := ArgToks(args[1..]) + rest;
      assert Lex(s, tok.next) == RedirToks(args[0].redirs) + more;
      NextArg(args[1..], rest);
      RedirsDone(s, tok.next, args[0].redirs, more);
      var redirs := ParseRedirs(s, tok.next);
      ArgsDone(s, redirs.next, argc + 1, args[1..], rest);
      SaidBoth(s, redirs.list, ParseArgs(s, redirs.next, argc + 1).list);
    }
  }

  lemma {:induction false} CommandDone(s: string, i: nat, c: Command, rest: seq<Tok>)
    requires i <= |s| && Lex(s, i) == CommandToks(c) + rest && StopsCommand(rest) && CommandFits(c)
    ensures ParseExec(s, i).Ok? && Lex(s, ParseExec(s, i).next) == rest
    ensures Meaning(s, ParseExec(s, i).cmd) == CommandTree(c)
    decreases c
  {
    hide GetToken, Skip, Peek, Lex, ParseRedirs, ParseArgs, Modes, ArgModes, ArgToks, Said, Redirected, Wrap,
      ParseBlock;
    Ahead(s, i);
    match c
    case Simple(first, args) =>
      var more := ArgToks(args) + rest;
      assert Lex(s, i) == RedirToks(first) + more;
      NextArg(args, rest);
      RedirsDone(s, i, first, more);
      var redirs := ParseRedirs(s, i);
      ArgsDone(s, redirs.next, 0, args, rest);
      var parsed := ParseArgs(s, redirs.next, 0);
      SaidBoth(s, redirs.list, parsed.list);
      WrapMeans(s, Exec(parsed.argv), redirs.list + parsed.list);
    case Block(line, redirs) =>
      BlockDone(s, i, line, redirs, rest);
  }

  lemma {:induction false} BlockDone(s: string, i: nat, line: Sentence, rs: seq<Redirect>, rest: seq<Tok>)
    requires i <= |s| && Lex(s, i) == CommandToks(Block(line, rs)) + rest && StopsCommand(rest) && Fits(line)
    ensures ParseBlock(s, i).Ok? && Lex(s, ParseBlock(s, i).next) == rest
    ensures Meaning(s, ParseBlock(s, i).cmd) == CommandTree(Block(line, rs))
    decreases line, 1
  {
    hide GetToken, Skip, Peek, Lex, ParseRedirs, ParseLine, Modes, RedirToks, Said, Redirected, Wrap, Toks,
      TreeOf, Fits;
    Ahead(s, i);
    Took(s, i);
    var open := GetToken(s, i);
    var tail := [Sign(')')] + (RedirToks(rs) + rest);
    assert Lex(s, open.next) == Toks(line) + tail;
    SentenceDone(s, open.next, line, tail);
    var body := ParseLine(s, open.next);
    Ahead(s, body.next);
    Took(s, body.next);
    var close := GetToken(s, body.next);
    RedirsDone(s, close.next, rs, rest);
    WrapMeans(s, body.cmd, ParseRedirs(s, close.next).list);
  }

  lemma {:induction false} PipeDone(s: string, i: nat, p: Pipeline, rest: seq<Tok>)
    requires i <= |s| && Lex(s, i) == PipeToks(p) + rest && StopsPipe(rest) && PipeFits(p)
    ensures ParsePipe(s, i).Ok? && Lex(s, ParsePipe(s, i).next) == rest
    ensures Meaning(s, ParsePipe(s, i).cmd) == PipeTree(p)
    decreases p
  {
    hide GetToken, Skip, Peek, Lex, ParseExec, CommandToks, CommandTree, CommandFits;
    match p
    case Last(c) =>
      CommandDone(s, i, c, rest);
      var left := ParseExec(s, i);
      Ahead(s, left.next);
      SkipTwice(s, left.next);
    case Bar(c, more) =>
      var tail := [Sign('|')] + (PipeToks(more) + rest);
      assert Lex(s, i) == CommandToks(c) + tail;
      CommandDone(s, i, c, tail);
      var left := ParseExec(s, i);
      Ahead(s, left.next);
      Took(s, left.next);
      PipeDone(s, GetToken(s, left.next).next, more, rest);
  }

  lemma {:induction false} SentenceDone(s: string, i: nat, l: Sentence, rest: seq<Tok>)
    requires i <= |s| && Lex(s, i) == Toks(l) + rest && StopsLine(rest) && Fits(l)
    ensures ParseLine(s, i).Ok? && Lex(s, ParseLine(s, i).next) == rest
    ensures Meaning(s, ParseLine(s, i).cmd) == TreeOf(l)
    decreases l, 0
  {
    hide GetToken, Skip, Peek, Lex, ParsePipe, ParseBacks, PipeToks, PipeTree, PipeFits, Bgs;
    var after := if l.One? then rest else [Sign(';')] + (Toks(l.rest) + rest);
    assert Lex(s, i) == PipeToks(l.pipe) + (Amps(l.amps) + after);
    PipeDone(s, i, l.pipe, Amps(l.amps) + after);
    var left := ParsePipe(s, i);
    BacksDone(s, left.next, left.cmd, l.amps, after);
    var back := ParseBacks(s, left.next, left.cmd);
    Ahead(s, back.next);
    if l.Semi? {
      Took(s, back.next);
      SentenceDone(s, GetToken(s, back.next).next, l.rest, rest);
    }
  }

  // ----- Lines and tokens -----

  predicate CleanTok(t: Tok) {
    match t
    case Name(w) => Clean(w)
    case Sign(c) => IsSymbol(c)
    case Twice => true
  }

  function TokText(t: Tok): string {
    match t
    case Name(w) => w
    case Sign(c) => [c]
    case Twice => ">>"
  }

  predicate Blank(gap: string) { forall k :: 0 <= k < |gap| ==> IsSpace(gap[k]) }

  /** Two tokens that would be read as something else without a space between them. */
  predicate Clash(a: Tok, b: Tok) { (a.Name? && b.Name?) || (a == Sign('>') && (b == Sign('>') || b == Twice)) }

  /** Spaces that may stand behind the tokens. */
  predicate Parted(toks: seq<Tok>, gaps: seq<string>) {
    && |gaps| == |toks| && (forall k :: 0 <= k < |gaps| ==> Blank(gaps[k]))
    && forall k :: 0 <= k < |toks| - 1 && Clash(toks[k], toks[k + 1]) ==> gaps[k] != []
  }

  function Spelled(toks: seq<Tok>, gaps: seq<string>): string
    requires |gaps| == |toks|
  {
    if toks == [] then [] else TokText(toks[0]) + (gaps[0] + Spelled(toks[1..], gaps[1..]))
  }

  /** The line is these tokens written out, with these spaces. */
  predicate Writes(s: string, toks: seq<Tok>, lead: string, gaps: seq<string>) {
    && (forall k :: 0 <= k < |toks| ==> CleanTok(toks[k]))
    && Blank(lead) && Parted(toks, gaps) && s == lead + Spelled(toks, gaps)
  }

  lemma {:induction false} WordStops(s: string, i: nat, n: nat)
    requires i + n <= |s| && (i + n < |s| ==> !IsWordChar(s[i + n])) && forall k :: i <= k < i + n ==> IsWordChar(s[k])
    ensures WordEnd(s, i) == i + n
    decreases n
  {
    if n > 0 {
      WordStops(s, i + 1, n - 1);
    }
  }

  /** A character that the token before it cannot swallow. */
  predicate Apart(t: Tok, c: char) { (t.Name? ==> !IsWordChar(c)) && (t == Sign('>') ==> c != '>') }

  lemma NameBack(s: string, i: nat, w: string)
    requires Clean(w) && i + |w| <= |s| && s[i..i + |w|] == w && (i + |w| < |s| ==> !IsWordChar(s[i + |w|]))
    ensures GetToken(s, i) == Token(Word, Span(i, i + |w|), Skip(s, i + |w|))
  {
    assert forall k :: i <= k < i + |w| ==> s[k] == w[k - i];
    WordStops(s, i, |w|);
    assert IsWordChar(s[i]);
    hide WordEnd, Clean;
  }

  /** gettoken finds a written token again. */
  lemma TokenBack(s: string, i: nat, t: Tok)
    requires CleanTok(t) && i + |TokText(t)| <= |s| && s[i..i + |TokText(t)|] == TokText(t)
    requires i + |TokText(t)| < |s| ==> Apart(t, s[i + |TokText(t)|])
    ensures GetToken(s, i).kind != End && TokOf(s, GetToken(s, i)) == t
    ensures GetToken(s, i).next == Skip(s, i + |TokText(t)|)
  {
    hide Clean, WordEnd;
    if t.Name? {
      NameBack(s, i, t.word);
      hide GetToken, Skip;
    } else {
      assert s[i] == TokText(t)[0];
      if t == Twice {
        assert s[i + 1] == TokText(t)[1];
      }
    }
  }

  lemma {:induction false} BlankLex(s: string, i: nat, n: nat)
    requires i + n <= |s| && Blank(s[i..i + n])
    ensures Lex(s, i) == Lex(s, i + n)
    decreases n
  {
    hide Lex, IsSpace;
    if n > 0 {
      var gap := s[i..i + n];
      assert gap[0] == s[i] && gap[1..] == s[i + 1..i + n];
      assert Skip(s, i) == Skip(s, i + 1);
      SkipTwice(s, i);
      SkipTwice(s, i + 1);
      BlankLex(s, i + 1, n - 1);
    }
  }

  lemma Pieces(s: string, i: nat, a: string, b: string, c: string)
    requires i <= |s| && s[i..] == a + (b + c)
    ensures |s| == i + |a| + |b| + |c| && s[i..i + |a|] == a && s[i + |a|..] == b + c
    ensures s[i + |a|..i + |a| + |b|] == b && s[i + |a| + |b|..] == c
  {
    var t := s[i..];
    assert t[..|a|] == a && t[|a|..] == b + c;
    assert t[|a|..][..|b|] == b && t[|a|..][|b|..] == c;
    assert s[i..i + |a|] == t[..|a|] && s[i + |a|..] == t[|a|..];
    assert s[i + |a|..i + |a| + |b|] == t[|a|..][..|b|] && s[i + |a| + |b|..] == t[|a|..][|b|..];
  }

  lemma FirstApart(a: Tok, b: Tok)
    requires CleanTok(b) && !Clash(a, b)
    ensures TokText(b) != [] && Apart(a, TokText(b)[0])
  {}

  /** What stands behind the first token of a line is not part of it. */
  lemma FirstEnds(toks: seq<Tok>, gaps: seq<string>)
    requires toks != [] && Parted(toks, gaps) && forall k :: 0 <= k < |toks| ==> CleanTok(toks[k])
    ensures var more := gaps[0] + Spelled(toks[1..], gaps[1..]); more != [] ==> Apart(toks[0], more[0])
  {
    hide CleanTok, TokText;
    if gaps[0] != [] {
      assert Blank(gaps[0]) && IsSpace(gaps[0][0]);
    } else if |toks| > 1 {
      assert !Clash(toks[0], toks[0 + 1]);
      FirstApart(toks[0], toks[1]);
      assert Spelled(toks[1..], gaps[1..])[0] == TokText(toks[1])[0];
    }
  }

  lemma PartedTail(toks: seq<Tok>, gaps: seq<string>)
    requires toks != [] && Parted(toks, gaps)
    ensures Parted(toks[1..], gaps[1..])
  {
    hide Blank, Clash;
    forall k | 0 <= k < |toks[1..]| - 1 && Clash(toks[1..][k], toks[1..][k + 1])
      ensures gaps[1..][k] != []
    {
      assert Clash(toks[k + 1], toks[k + 1 + 1]);
    }
  }

  /** The first token of a written line, and where the next one is looked for. */
  lemma FirstBack(s: string, i: nat, t: Tok, more: string)
    requires CleanTok(t) && i + |TokText(t)| <= |s| && s[i..i + |TokText(t)|] == TokText(t)
    requires s[i + |TokText(t)|..] == more && (more != [] ==> Apart(t, more[0]))
    ensures Lex(s, i) == [t] + Lex(s, i + |TokText(t)|)
  {
    hide GetToken, Skip, TokText, CleanTok, Apart, TokOf;
    var end := i + |TokText(t)|;
    assert more != [] ==> s[end] == more[0];
    TokenBack(s, i, t);
    SkipTwice(s, end);
  }

  lemma {:induction false} LexSpelled(s: string, i: nat, toks: seq<Tok>, gaps: seq<string>)
    requires Parted(toks, gaps) && forall k :: 0 <= k < |toks| ==> CleanTok(toks[k])
    requires i <= |s| && s[i..] == Spelled(toks, gaps)
    ensures Lex(s, i) == toks
    decreases |toks|
  {
    hide GetToken, Skip, TokText, CleanTok, TokOf, Blank, Clash, Apart, Lex;
    if toks == [] {
      Ahead(s, i);
      AtEnd(s, i);
    } else {
      var text, rest := TokText(toks[0]), Spelled(toks[1..], gaps[1..]);
      var end := i + |text|;
      FirstEnds(toks, gaps);
      Pieces(s, i, text, gaps[0], rest);
      FirstBack(s, i, toks[0], gaps[0] + rest);
      BlankLex(s, end, |gaps[0]|);
      PartedTail(toks, gaps);
      LexSpelled(s, end + |gaps[0]|, toks[1..], gaps[1..]);
    }
  }

  lemma {:induction false} SkipBlank(s: string, i: nat)
    requires i <= |s|
    ensures Blank(s[i..Skip(s, i)])
    decreases |s| - i
  {
    if i < |s| && IsSpace(s[i]) {
      SkipBlank(s, i + 1);
      assert s[i..Skip(s, i)] == [s[i]] + s[i + 1..Skip(s, i)];
    }
  }

  lemma {:induction false} WordChars(s: string, i: nat)
    requires i <= |s|
    ensures forall k :: i <= k < WordEnd(s, i) ==> IsWordChar(s[k])
    ensures i < |s| && IsWordChar(s[i]) ==> i < WordEnd(s, i)
    decreases |s| - i
  {
    if i < |s| && IsWordChar(s[i]) {
      WordChars(s, i + 1);
    }
  }

  lemma CleanWord(s: string, i: nat)
    requires i < |s| && IsWordChar(s[i])
    ensures Clean(s[i..WordEnd(s, i)])
  {
    WordChars(s, i);
  }

  lemma Shape(s: string, i: nat)
    requires i <= |s| && GetToken(s, i).kind != End
    ensures var t, q := GetToken(s, i), Skip(s, i);
      && t.span.q == q < |s| && (t.kind == Word ==> IsWordChar(s[q]) && t.span.eq == WordEnd(s, q))
      && (t.kind == Append ==> t.span.eq == q + 2 <= |s| && s[q] == s[q + 1] == '>')
      && (t.kind.Symbol? ==> t.span.eq == q + 1 && t.kind.c == s[q] && IsSymbol(s[q]))
  {
    hide WordEnd, Skip;
  }

  lemma CutText(s: string, i: nat)
    requires i <= |s| && GetToken(s, i).kind != End
    ensures var t := GetToken(s, i);
      t.span.q == Skip(s, i) && TokText(TokOf(s, t)) == s[t.span.q..t.span.eq] && CleanTok(TokOf(s, t))
  {
    hide WordEnd, Clean, Skip, GetToken, IsSymbol;
    var t, q := GetToken(s, i), Skip(s, i);
    Shape(s, i);
    if t.kind == Word {
      CleanWord(s, q);
    } else if t.kind == Append {
      assert s[q..q + 2] == [s[q], s[q + 1]] == ">>";
    } else {
      assert s[q..q + 1] == [s[q]];
    }
  }

  /** A token is its stretch of the line, with only spaces up to the next one. */
  lemma CutToken(s: string, i: nat)
    requires i <= |s| && GetToken(s, i).kind != End
    ensures var t := GetToken(s, i);
      && t.span.q == Skip(s, i) && t.next == Skip(s, t.span.eq) == Skip(s, t.next) && Blank(s[t.span.eq..t.next])
      && TokText(TokOf(s, t)) == s[t.span.q..t.span.eq] && CleanTok(TokOf(s, t))
  {
    hide WordEnd, Clean, Blank, Skip, TokText, CleanTok, TokOf;
    var t := GetToken(s, i);
    CutText(s, i);
    SkipBlank(s, t.span.eq);
    SkipTwice(s, t.span.eq);
  }

  lemma NoClash(s: string, i: nat)
    requires i <= |s|
    ensures var t := GetToken(s, i); var u := GetToken(s, t.next);
      t.kind != End && u.kind != End && t.span.eq == t.next ==> !Clash(TokOf(s, t), TokOf(s, u))
  {
    var t := GetToken(s, i);
    SkipTwice(s, t.span.eq);
    WordChars(s, t.next);
  }

  lemma NoneParted()
    ensures Parted([], [])
  {}

  lemma PartedMore(s: string, i: nat, rest: seq<string>)
    requires i <= |s| && GetToken(s, i).kind != End && Parted(Lex(s, GetToken(s, i).next), rest)
    ensures var t := GetToken(s, i); Parted(Lex(s, i), [s[t.span.eq..t.next]] + rest)
  {
    hide Clash, Blank, GetToken, Skip, TokOf;
    var t := GetToken(s, i);
    CutToken(s, i);
    NoClash(s, i);
    var toks, gaps := Lex(s, i), [s[t.span.eq..t.next]] + rest;
    var more := Lex(s, t.next);
    assert toks == [TokOf(s, t)] + more;
    forall k | 0 <= k < |toks| - 1 && Clash(toks[k], toks[k + 1])
      ensures gaps[k] != []
    {
      if k > 0 {
        assert Clash(more[k - 1], more[k - 1 + 1]);
      }
    }
  }

  /** A line's tokens, and the spaces behind them. */
  lemma {:induction false} Cut(s: string, i: nat) returns (gaps: seq<string>)
    requires i <= |s|
    ensures Parted(Lex(s, i), gaps) && s[Skip(s, i)..] == Spelled(Lex(s, i), gaps)
    ensures forall k :: 0 <= k < |Lex(s, i)| ==> CleanTok(Lex(s, i)[k])
    decreases |s| - i
  {
    hide Parted, GetToken, Skip, TokOf, TokText, CleanTok;
    Ahead(s, i);
    if Lex(s, i) == [] {
      gaps := [];
      NoneParted();
    } else {
      var t := GetToken(s, i);
      Took(s, i);
      var rest := Cut(s, t.next);
      CutToken(s, i);
      gaps := [s[t.span.eq..t.next]] + rest;
      PartedMore(s, i, rest);
      assert s[t.span.q..] == s[t.span.q..t.span.eq] + (s[t.span.eq..t.next] + s[t.next..]);
    }
  }

  /** A written line has the tokens it was written from. */
  lemma Tokenised(s: string, toks: seq<Tok>, lead: string, gaps: seq<string>)
    requires Writes(s, toks, lead, gaps)
    ensures Lex(s, 0) == toks
  {
    hide Lex, Blank, Clash, CleanTok, Spelled;
    assert s[0..0 + |lead|] == lead;
    BlankLex(s, 0, |lead|);
    assert s[|lead|..] == Spelled(toks, gaps);
    LexSpelled(s, |lead|, toks, gaps);
  }

  /** Every line is its tokens, written out. */
  lemma Untokenised(s: string) returns (lead: string, gaps: seq<string>)
    ensures Writes(s, Lex(s, 0), lead, gaps)
  {
    hide Lex, Parted, CleanTok, Spelled, Skip;
    lead := s[0..Skip(s, 0)];
    SkipBlank(s, 0);
    gaps := Cut(s, 0);
    assert s == lead + s[Skip(s, 0)..];
  }

  // ----- The parser is the grammar -----

  /** The line says `l`: it is the tokens of `l` with some spaces between them. */
  ghost predicate Says(s: string, l: Sentence) {
    Fits(l) && exists lead, gaps :: Writes(s, Toks(l), lead, gaps)
  }

  lemma SaysLex(s: string, l: Sentence)
    ensures Says(s, l) <==> Fits(l) && Lex(s, 0) == Toks(l)
  {
    hide Writes, Toks, Fits, Lex;
    if Says(s, l) {
      var lead, gaps :| Writes(s, Toks(l), lead, gaps);
      Tokenised(s, Toks(l), lead, gaps);
    }
    if Lex(s, 0) == Toks(l) {
      var lead, gaps := Untokenised(s);
    }
  }

  /** A sentence is parsed, and as what it means. */
  lemma Complete(s: string, l: Sentence)
    requires Says(s, l)
    ensures ParseCmd(s).Ok? && Meaning(s, ParseCmd(s).cmd) == TreeOf(l)
  {
    hide ParseLine, Lex, Toks, TreeOf, Fits, Meaning, Says;
    SaysLex(s, l);
    assert Toks(l) + [] == Toks(l);
    SentenceDone(s, 0, l, []);
    Ahead(s, ParseLine(s, 0).next);
  }

  /** What is parsed is a sentence. */
  lemma Sound(s: string) returns (l: Sentence)
    requires ParseCmd(s).Ok?
    ensures Says(s, l) && Meaning(s, ParseCmd(s).cmd) == TreeOf(l)
  {
    hide ParseLine, Lex, Toks, TreeOf, Fits, Meaning, Says;
    l := SentenceSound(s, 0);
    Ahead(s, ParseLine(s, 0).next);
    assert Toks(l) + [] == Toks(l);
    SaysLex(s, l);
  }

  /** The shell takes exactly the lines of its grammar. */
  lemma Accepted(s: string)
    ensures ParseCmd(s).Ok? <==> exists l :: Says(s, l)
  {
    hide *;
    if ParseCmd(s).Ok? {
      var l := Sound(s);
    }
    forall l | Says(s, l)
      ensures ParseCmd(s).Ok?
    {
      Complete(s, l);
    }
  }

  /** No line says two things. */
  lemma OneReading(s: string, l: Sentence, m: Sentence)
    requires Says(s, l) && Says(s, m)
    ensures TreeOf(l) == TreeOf(m)
  {
    hide *;
    Complete(s, l);
    Complete(s, m);
  }

  // ----- Every command can be said -----

  function Plain(words: seq<string>): seq<Arg> {
    if words == [] then [] else [Arg(words[0], [])] + Plain(words[1..])
  }

  function Grouped(l: Sentence): Pipeline { Last(Block(l, [])) }

  /** A sentence for a command, with parentheses around every part. */
  function SentenceOf(t: Tree): Sentence {
    match t
    case Run(words) => One(Last(Simple([], Plain(words))), 0)
    case To(c, file, mode) =>
      One(Last(Block(SentenceOf(c), [Redirect(if mode.ReadFrom? then From else Onto, file)])), 0)
    case Piped(l, r) => One(Bar(Block(SentenceOf(l), []), Grouped(SentenceOf(r))), 0)
    case Then(l, r) => Semi(Grouped(SentenceOf(l)), 0, One(Grouped(SentenceOf(r)), 0))
    case Bg(c) => One(Grouped(SentenceOf(c)), 1)
  }

  lemma {:induction false} PlainMeans(words: seq<string>)
    ensures Names(Plain(words)) == words && ArgModes(Plain(words)) == [] && |Plain(words)| == |words|
    ensures (forall k :: 0 <= k < |words| ==> Clean(words[k])) ==> AllClean(ArgToks(Plain(words)))
  {
    if words != [] {
      PlainMeans(words[1..]);
      assert ArgToks(Plain(words)) == [Name(words[0])] + ([] + ArgToks(Plain(words[1..])));
    }
  }

  predicate AllClean(toks: seq<Tok>) { forall k :: 0 <= k < |toks| ==> CleanTok(toks[k]) }

  lemma CleanBoth(a: seq<Tok>, b: seq<Tok>)
    requires AllClean(a) && AllClean(b)
    ensures AllClean(a + b)
  {}

  lemma BlockMeans(l: Sentence, rs: seq<Redirect>)
    requires Fits(l) && AllClean(Toks(l)) && |rs| <= 1 && forall r :: r in rs ==> Clean(r.file)
    ensures CommandFits(Block(l, rs)) && AllClean(CommandToks(Block(l, rs)))
    ensures CommandTree(Block(l, rs)) == if rs == [] then TreeOf(l) else To(TreeOf(l), rs[0].file, Modes(rs)[0].1)
  {
    hide Toks, TreeOf, Fits;
    if rs != [] {
      assert rs[0] in rs && rs[1..] == [];
      var ms := Modes(rs);
      assert ms[1..] == [];
      assert Redirected(TreeOf(l), ms) == Redirected(To(TreeOf(l), ms[0].0, ms[0].1), []);
    }
    assert AllClean(RedirToks(rs));
    CleanBoth([Sign(')')], RedirToks(rs));
    CleanBoth(Toks(l), [Sign(')')] + RedirToks(rs));
    CleanBoth([Sign('(')], Toks(l) + ([Sign(')')] + RedirToks(rs)));
  }

  lemma GroupedMeans(l: Sentence)
    requires Fits(l) && AllClean(Toks(l))
    ensures PipeFits(Grouped(l)) && AllClean(PipeToks(Grouped(l))) && PipeTree(Grouped(l)) == TreeOf(l)
  {
    hide Toks, TreeOf, Fits, CommandToks, CommandTree, CommandFits, AllClean;
    BlockMeans(l, []);
  }

  lemma {:induction false} SentenceMeans(t: Tree)
    requires Sayable(t)
    ensures Fits(SentenceOf(t)) && TreeOf(SentenceOf(t)) == t && AllClean(Toks(SentenceOf(t)))
  {
    hide CommandToks, CommandTree, CommandFits;
    match t
    case Run(words) =>
      RunMeans(words);
    case To(c, file, mode) =>
      SentenceMeans(c);
      BlockMeans(SentenceOf(c), [Redirect(if mode.ReadFrom? then From else Onto, file)]);
    case Piped(l, r) =>
      SentenceMeans(l);
      SentenceMeans(r);
      BlockMeans(SentenceOf(l), []);
      GroupedMeans(SentenceOf(r));
    case Then(l, r) =>
      SentenceMeans(l);
      SentenceMeans(r);
      GroupedMeans(SentenceOf(l));
      GroupedMeans(SentenceOf(r));
    case Bg(c) =>
      SentenceMeans(c);
      GroupedMeans(SentenceOf(c));
  }

  lemma RunMeans(words: seq<string>)
    requires Sayable(Run(words))
    ensures var c := Simple([], Plain(words));
      CommandFits(c) && CommandTree(c) == Run(words) && AllClean(CommandToks(c))
  {
    PlainMeans(words);
  }

  /** Round trip: every command of clean words has a line, and with any spaces it is parsed as the command. */
  lemma RoundTrip(t: Tree, s: string, lead: string, gaps: seq<string>)
    requires Sayable(t) && Blank(lead) && Parted(Toks(SentenceOf(t)), gaps)
    requires s == lead + Spelled(Toks(SentenceOf(t)), gaps)
    ensures ParseCmd(s).Ok? && Meaning(s, ParseCmd(s).cmd) == t
  {
    hide Parted, Spelled, ParseCmd, Meaning, Toks, SentenceOf, Sayable, Fits, TreeOf;
    SentenceMeans(t);
    assert Writes(s, Toks(SentenceOf(t)), lead, gaps);
    Complete(s, SentenceOf(t));
  }

  // ----- & ends a command -----

  predicate EndsPart(t: Tok) { t == Sign('&') || t == Sign(';') || t == Sign(')') }

  /** Behind every & stands another, a ; or a ). */
  predicate AmpsEnd(toks: seq<Tok>) {
    forall k :: 0 <= k < |toks| - 1 && toks[k] == Sign('&') ==> EndsPart(toks[k + 1])
  }

  predicate Calm(toks: seq<Tok>) { AmpsEnd(toks) && (toks == [] || toks[|toks| - 1] != Sign('&')) }

  lemma Joined(a: seq<Tok>, b: seq<Tok>)
    requires Calm(a) || (AmpsEnd(a) && b != [] && EndsPart(b[0]))
    requires AmpsEnd(b)
    ensures AmpsEnd(a + b) && (Calm(b) && (b != [] || Calm(a)) ==> Calm(a + b))
  {
    forall k | 0 <= k < |a + b| - 1 && (a + b)[k] == Sign('&')
      ensures EndsPart((a + b)[k + 1])
    {
      if k + 1 < |a| {
        assert EndsPart(a[k + 1]);
      } else if k >= |a| {
        assert b[k - |a|] == Sign('&');
        assert EndsPart(b[k - |a| + 1]);
      }
    }
  }

  lemma {:induction false} RedirsCalm(rs: seq<Redirect>)
    ensures Calm(RedirToks(rs))
  {
    if rs != [] {
      RedirsCalm(rs[1..]);
      Joined([ArrowTok(rs[0].arrow), Name(rs[0].file)], RedirToks(rs[1..]));
    }
  }

  lemma {:induction false} ArgsCalm(args: seq<Arg>)
    ensures Calm(ArgToks(args))
  {
    if args != [] {
      RedirsCalm(args[0].redirs);
      ArgsCalm(args[1..]);
      Joined(RedirToks(args[0].redirs), ArgToks(args[1..]));
      Joined([Name(args[0].word)], RedirToks(args[0].redirs) + ArgToks(args[1..]));
    }
  }

  lemma {:induction false} AmpsOnly(n: nat)
    ensures AmpsEnd(Amps(n)) && (n > 0 ==> Amps(n)[0] == Sign('&'))
  {
    if n > 0 {
      AmpsOnly(n - 1);
      assert Amps(n) == [Sign('&')] + Amps(n - 1);
    }
  }

  lemma {:induction false} CommandCalm(c: Command)
    ensures Calm(CommandToks(c))
    decreases c
  {
    hide Calm, AmpsEnd, RedirToks, ArgToks, Toks;
    match c
    case Simple(first, args) =>
      RedirsCalm(first);
      ArgsCalm(args);
      JoinedCalm(RedirToks(first), ArgToks(args));
    case Block(line, redirs) =>
      SentenceCalm(line);
      RedirsCalm(redirs);
      OneCalm(Sign(')'));
      OneCalm(Sign('('));
      JoinedCalm([Sign(')')], RedirToks(redirs));
      JoinedEnd(Toks(line), [Sign(')')] + RedirToks(redirs));
      JoinedCalm([Sign('(')], Toks(line) + ([Sign(')')] + RedirToks(redirs)));
  }

  lemma OneCalm(t: Tok)
    requires t != Sign('&')
    ensures Calm([t])
  {}

  lemma JoinedCalm(a: seq<Tok>, b: seq<Tok>)
    requires Calm(a)
    ensures Calm(b) ==> Calm(a + b)
    ensures AmpsEnd(b) ==> AmpsEnd(a + b)
  {
    if AmpsEnd(b) {
      Joined(a, b);
    }
  }

  lemma JoinedEnd(a: seq<Tok>, b: seq<Tok>)
    requires AmpsEnd(a) && b != [] && EndsPart(b[0])
    ensures Calm(b) ==> Calm(a + b)
    ensures AmpsEnd(b) ==> AmpsEnd(a + b)
  {
    if AmpsEnd(b) {
      Joined(a, b);
    }
  }

  lemma {:induction false} PipeCalm(p: Pipeline)
    ensures Calm(PipeToks(p))
    decreases p
  {
    hide Calm, AmpsEnd, CommandToks;
    CommandCalm(p.cmd);
    if p.Bar? {
      PipeCalm(p.rest);
      OneCalm(Sign('|'));
      JoinedCalm([Sign('|')], PipeToks(p.rest));
      JoinedCalm(CommandToks(p.cmd), [Sign('|')] + PipeToks(p.rest));
    }
  }

  lemma {:induction false} SentenceCalm(l: Sentence)
    ensures AmpsEnd(Toks(l))
    decreases l
  {
    hide Calm, AmpsEnd, PipeToks, Amps;
    PipeCalm(l.pipe);
    AmpsOnly(l.amps);
    if l.Semi? {
      SentenceCalm(l.rest);
      OneCalm(Sign(';'));
      JoinedCalm([Sign(';')], Toks(l.rest));
      JoinedEnd(Amps(l.amps), [Sign(';')] + Toks(l.rest));
      JoinedCalm(PipeToks(l.pipe), Amps(l.amps) + ([Sign(';')] + Toks(l.rest)));
    } else {
      JoinedCalm(PipeToks(l.pipe), Amps(l.amps));
    }
  }

  /** A line in which a command follows & without ; is refused. */
  lemma AmpRefused(s: string, toks: seq<Tok>, lead: string, gaps: seq<string>, k: nat)
    requires Writes(s, toks, lead, gaps)
    requires k + 1 < |toks| && toks[k] == Sign('&') && !EndsPart(toks[k + 1])
    ensures ParseCmd(s).Panic?
  {
    hide ParseCmd, Lex, Toks, TreeOf, Fits, Says, Writes;
    if ParseCmd(s).Ok? {
      var l := Sound(s);
      SaysLex(s, l);
      Tokenised(s, toks, lead, gaps);
      SentenceCalm(l);
    }
  }
}
