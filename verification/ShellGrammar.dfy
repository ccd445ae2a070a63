/** The grammar of the command lines that user/sh.c accepts, and the trees it gives them, stated without a parser.

    line  ::= pipe '&'* | pipe '&'* ';' line     pipe   ::= exec | exec '|' pipe
    exec  ::= '(' line ')' redirs | redirs args  redirs ::= ( ( '<' | '>' | '>>' ) word )*
    args  ::= ( word redirs )*

A derivation is a value of `Line`; at most nine words may be the arguments of one command. */
module ShellGrammar {
  import opened Options
  import opened Shell

  datatype Arg<W> = Arg(w: W, redirs: seq<To<W>>)

  datatype Operand<W> = Group(line: Line<W>, redirs: seq<To<W>>) | Simple(redirs: seq<To<W>>, args: seq<Arg<W>>)

  datatype Pipeline<W> = One(first: Operand<W>) | Into(first: Operand<W>, next: Pipeline<W>)

  datatype Line<W> = Last(pipe: Pipeline<W>, backs: nat) | Then(pipe: Pipeline<W>, backs: nat, next: Line<W>)

  // ---------------------------------------------------------------------------
  // The tokens of a derivation, followed by `rest`

  function EmitRedirs<W>(tos: seq<To<W>>, rest: seq<Tok<W>>): seq<Tok<W>> {
    if tos == [] then rest else [ModeTok(tos[0].mode), Word(tos[0].file)] + EmitRedirs(tos[1..], rest)
  }

  function EmitArgs<W>(args: seq<Arg<W>>, rest: seq<Tok<W>>): seq<Tok<W>> {
    if args == [] then rest else [Word(args[0].w)] + EmitRedirs(args[0].redirs, EmitArgs(args[1..], rest))
  }

  function EmitOperand<W>(d: Operand<W>, rest: seq<Tok<W>>): seq<Tok<W>> {
    match d
    case Group(line, redirs) => [Sym('(')] + EmitLine(line, [Sym(')')] + EmitRedirs(redirs, rest))
    case Simple(redirs, args) => EmitRedirs(redirs, EmitArgs(args, rest))
  }

  function EmitPipeline<W>(d: Pipeline<W>, rest: seq<Tok<W>>): seq<Tok<W>> {
    match d
    case One(first) => EmitOperand(first, rest)
    case Into(first, next) => EmitOperand(first, [Sym('|')] + EmitPipeline(next, rest))
  }

  function EmitBacks<W>(n: nat, rest: seq<Tok<W>>): seq<Tok<W>> {
    if n == 0 then rest else [Sym('&')] + EmitBacks(n - 1, rest)
  }

  function EmitLine<W>(d: Line<W>, rest: seq<Tok<W>>): seq<Tok<W>> {
    match d
    case Last(pipe, backs) => EmitPipeline(pipe, EmitBacks(backs, rest))
    case Then(pipe, backs, next) => EmitPipeline(pipe, EmitBacks(backs, [Sym(';')] + EmitLine(next, rest)))
  }

  // ---------------------------------------------------------------------------
  // Its tree

  function WordsOf<W>(args: seq<Arg<W>>): seq<W> {
    if args == [] then [] else [args[0].w] + WordsOf(args[1..])
  }

  function FilesOf<W>(args: seq<Arg<W>>): seq<To<W>> {
    if args == [] then [] else args[0].redirs + FilesOf(args[1..])
  }

  function OperandTree<W>(d: Operand<W>): Cmd<W> {
    match d
    case Group(line, redirs) => Wrap(LineTree(line), redirs)
    case Simple(redirs, args) => Wrap(Exec(WordsOf(args)), redirs + FilesOf(args))
  }

  function PipelineTree<W>(d: Pipeline<W>): Cmd<W> {
    match d
    case One(first) => OperandTree(first)
    case Into(first, next) => Pipe(OperandTree(first), PipelineTree(next))
  }

  function BacksTree<W>(cmd: Cmd<W>, n: nat): Cmd<W>
    decreases n
  {
    if n == 0 then cmd else BacksTree(Back(cmd), n - 1)
  }

  function LineTree<W>(d: Line<W>): Cmd<W> {
    match d
    case Last(pipe, backs) => BacksTree(PipelineTree(pipe), backs)
    case Then(pipe, backs, next) => List(BacksTree(PipelineTree(pipe), backs), LineTree(next))
  }

  // ---------------------------------------------------------------------------
  // Few arguments

  predicate OperandOk<W>(d: Operand<W>) {
    match d
    case Group(line, redirs) => LineOk(line)
    case Simple(redirs, args) => |args| < MAXARGS
  }

  predicate PipelineOk<W>(d: Pipeline<W>) { OperandOk(d.first) && (d.Into? ==> PipelineOk(d.next)) }

  predicate LineOk<W>(d: Line<W>) { PipelineOk(d.pipe) && (d.Then? ==> LineOk(d.next)) }

  /** The grammar derives the tokens `ts` with the tree `cmd`. */
  ghost predicate Derives<W(!new)>(ts: seq<Tok<W>>, cmd: Cmd<W>) {
    exists d: Line<W> :: LineOk(d) && EmitLine(d, []) == ts && LineTree(d) == cmd
  }

  // ---------------------------------------------------------------------------
  // The tests of the parser

  ghost predicate AtSym<W>(ts: seq<Tok<W>>, c: char) { ts != [] && ts[0] == Sym(c) }

  ghost predicate AtRedir<W>(ts: seq<Tok<W>>) { ts != [] && (ts[0] == Sym('<') || ts[0] == Sym('>') || ts[0].Append?) }

  /** No command continues here. */
  ghost predicate AtEnd<W>(ts: seq<Tok<W>>) { ts == [] || AtSym(ts, '|') || AtSym(ts, ')') || AtSym(ts, '&') || AtSym(ts, ';') }

  lemma {:induction false} StartsRedir<W>(ts: seq<Tok<W>>)
    ensures Starts(ts, "<>") == AtRedir(ts)
  {
    forall c: char ensures c in "<>" <==> c == '<' || c == '>' { assert "<>"[0] == '<' && "<>"[1] == '>'; }
  }

  lemma {:induction false} StartsEnd<W>(ts: seq<Tok<W>>)
    ensures (ts == [] || Starts(ts, "|)&;")) == AtEnd(ts)
  {
    var s := "|)&;";
    assert s[0] == '|' && s[1] == ')' && s[2] == '&' && s[3] == ';';
    forall c: char ensures c in s <==> c == '|' || c == ')' || c == '&' || c == ';' {}
  }

  lemma {:induction false} StartsOne<W>(ts: seq<Tok<W>>, c: char)
    requires c != '>'
    ensures Starts(ts, [c]) == AtSym(ts, c)
  {
  }

  // ---------------------------------------------------------------------------
  // The parser accepts all of the grammar

  lemma {:induction false} RedirsComplete<W>(tos: seq<To<W>>, rest: seq<Tok<W>>)
    requires !AtRedir(rest)
    ensures ParseRedirs(EmitRedirs(tos, rest)) == Some(Redirs(tos, rest))
    decreases |tos|
  {
    var ts := EmitRedirs(tos, rest);
    StartsRedir(ts);
    if tos != [] {
      RedirsComplete(tos[1..], rest);
      assert ts[2..] == EmitRedirs(tos[1..], rest) && tos == [tos[0]] + tos[1..];
    }
  }

  lemma {:induction false} ArgsComplete<W>(args: seq<Arg<W>>, rest: seq<Tok<W>>, done: seq<W>, tos: seq<To<W>>)
    requires AtEnd(rest) && |done| + |args| < MAXARGS
    ensures ParseArgs(EmitArgs(args, rest), done, tos) == Some(Parsed(Wrap(Exec(done + WordsOf(args)), tos + FilesOf(args)), rest))
    decreases |args|
  {
    if args == [] {
      ArgsEnd(rest, done, tos);
    } else {
      var more := EmitArgs(args[1..], rest);
      RedirsComplete(args[0].redirs, more);
      ArgsTurn(args[0], more, done, tos);
      ArgsComplete(args[1..], rest, done + [args[0].w], tos + args[0].redirs);
      FirstArg(args, done, tos);
    }
  }

  lemma {:induction false} ArgsEnd<W>(rest: seq<Tok<W>>, done: seq<W>, tos: seq<To<W>>)
    requires AtEnd(rest)
    ensures ParseArgs(rest, done, tos) == Some(Parsed(Wrap(Exec(done + []), tos + []), rest))
  {
    StartsEnd(rest);
    assert done + [] == done && tos + [] == tos;
  }

  lemma {:induction false} FirstArg<W>(args: seq<Arg<W>>, done: seq<W>, tos: seq<To<W>>)
    requires args != []
    ensures done + [args[0].w] + WordsOf(args[1..]) == done + WordsOf(args)
    ensures tos + args[0].redirs + FilesOf(args[1..]) == tos + FilesOf(args)
  {
  }

  /** One turn of the loop of `parseexec`. */
  lemma {:induction false} ArgsTurn<W>(arg: Arg<W>, more: seq<Tok<W>>, done: seq<W>, tos: seq<To<W>>)
    requires |done| + 1 < MAXARGS && ParseRedirs(EmitRedirs(arg.redirs, more)) == Some(Redirs(arg.redirs, more))
    ensures ParseArgs([Word(arg.w)] + EmitRedirs(arg.redirs, more), done, tos) == ParseArgs(more, done + [arg.w], tos + arg.redirs)
  {
    var ts := [Word(arg.w)] + EmitRedirs(arg.redirs, more);
    StartsEnd(ts);
    assert ts[1..] == EmitRedirs(arg.redirs, more);
  }

  lemma {:induction false} SimpleComplete<W>(redirs: seq<To<W>>, args: seq<Arg<W>>, rest: seq<Tok<W>>)
    requires AtEnd(rest) && |args| < MAXARGS
    ensures ParseExec(EmitRedirs(redirs, EmitArgs(args, rest))) == Some(Parsed(Wrap(Exec(WordsOf(args)), redirs + FilesOf(args)), rest))
  {
    var more := EmitArgs(args, rest);
    var ts := EmitRedirs(redirs, more);
    assert !AtRedir(more) && !AtSym(ts, '(');
    StartsOne(ts, '(');
    RedirsComplete(redirs, more);
    ArgsComplete(args, rest, [], redirs);
    assert [] + WordsOf(args) == WordsOf(args);
  }

  lemma {:induction false} OperandComplete<W>(d: Operand<W>, rest: seq<Tok<W>>)
    requires OperandOk(d) && AtEnd(rest)
    ensures ParseExec(EmitOperand(d, rest)) == Some(Parsed(OperandTree(d), rest))
    decreases d
  {
    match d
    case Group(line, redirs) =>
      var inner := [Sym(')')] + EmitRedirs(redirs, rest);
      LineComplete(line, inner);
      RedirsComplete(redirs, rest);
      assert inner[1..] == EmitRedirs(redirs, rest);
      BlockTurn(EmitLine(line, inner), inner, LineTree(line), redirs, rest);
    case Simple(redirs, args) => SimpleComplete(redirs, args, rest);
  }

  lemma {:induction false} BlockTurn<W>(body: seq<Tok<W>>, inner: seq<Tok<W>>, cmd: Cmd<W>, redirs: seq<To<W>>, rest: seq<Tok<W>>)
    requires ParseLine(body) == Some(Parsed(cmd, inner)) && AtSym(inner, ')') && ParseRedirs(inner[1..]) == Some(Redirs(redirs, rest))
    ensures ParseExec([Sym('(')] + body) == Some(Parsed(Wrap(cmd, redirs), rest))
  {
    var ts := [Sym('(')] + body;
    assert ts[1..] == body;
    StartsOne(ts, '(');
    StartsOne(inner, ')');
  }

  lemma {:induction false} PipelineComplete<W>(d: Pipeline<W>, rest: seq<Tok<W>>)
    requires PipelineOk(d) && AtEnd(rest) && !AtSym(rest, '|')
    ensures ParsePipe(EmitPipeline(d, rest)) == Some(Parsed(PipelineTree(d), rest))
    decreases d
  {
    match d
    case One(first) =>
      OperandComplete(first, rest);
      StartsOne(rest, '|');
    case Into(first, next) =>
      var more := [Sym('|')] + EmitPipeline(next, rest);
      OperandComplete(first, more);
      PipelineComplete(next, rest);
      assert more[1..] == EmitPipeline(next, rest);
      StartsOne(more, '|');
  }

  lemma {:induction false} BacksComplete<W>(cmd: Cmd<W>, n: nat, rest: seq<Tok<W>>)
    requires !AtSym(rest, '&')
    ensures ParseBacks(Parsed(cmd, EmitBacks(n, rest))) == Parsed(BacksTree(cmd, n), rest)
    decreases n
  {
    var ts := EmitBacks(n, rest);
    StartsOne(ts, '&');
    if n > 0 {
      assert ts[1..] == EmitBacks(n - 1, rest);
      BacksComplete(Back(cmd), n - 1, rest);
    }
  }

  lemma {:induction false} LineComplete<W>(d: Line<W>, rest: seq<Tok<W>>)
    requires LineOk(d) && (rest == [] || AtSym(rest, ')'))
    ensures ParseLine(EmitLine(d, rest)) == Some(Parsed(LineTree(d), rest))
    decreases d
  {
    var more := if d.Last? then rest else [Sym(';')] + EmitLine(d.next, rest);
    PipelineComplete(d.pipe, EmitBacks(d.backs, more));
    BacksComplete(PipelineTree(d.pipe), d.backs, more);
    StartsOne(more, ';');
    if d.Then? {
      LineComplete(d.next, rest);
      assert more[1..] == EmitLine(d.next, rest);
    }
  }

  // ---------------------------------------------------------------------------
  // The parser accepts nothing else

  lemma {:induction false} RedirsSound<W>(ts: seq<Tok<W>>)
    requires ParseRedirs(ts).Some?
    ensures EmitRedirs(ParseRedirs(ts).value.tos, ParseRedirs(ts).value.rest) == ts
    decreases |ts|
  {
    StartsRedir(ts);
    if AtRedir(ts) {
      var more := ParseRedirs(ts[2..]).value;
      RedirsSound(ts[2..]);
      var tos := [To(ModeOf(ts[0]), ts[1].w)] + more.tos;
      assert tos[1..] == more.tos;
      assert ts == [ts[0], ts[1]] + ts[2..];
    }
  }

  lemma {:induction false} ArgsSound<W>(ts: seq<Tok<W>>, done: seq<W>, tos: seq<To<W>>) returns (args: seq<Arg<W>>)
    requires ParseArgs(ts, done, tos).Some? && |done| < MAXARGS
    ensures |done| + |args| < MAXARGS && EmitArgs(args, ParseArgs(ts, done, tos).value.rest) == ts
    ensures ParseArgs(ts, done, tos).value.cmd == Wrap(Exec(done + WordsOf(args)), tos + FilesOf(args))
    decreases |ts|
  {
    if ts == [] || Starts(ts, "|)&;") {
      args := [];
      assert done + [] == done && tos + [] == tos;
    } else {
      var more := ParseRedirs(ts[1..]).value;
      RedirsSound(ts[1..]);
      var others := ArgsSound(more.rest, done + [ts[0].w], tos + more.tos);
      args := [Arg(ts[0].w, more.tos)] + others;
      ArgsAgain(ts, args, others, done, tos, more, ParseArgs(ts, done, tos).value.rest);
    }
  }

  lemma {:induction false} ArgsAgain<W>(ts: seq<Tok<W>>, args: seq<Arg<W>>, others: seq<Arg<W>>, done: seq<W>, tos: seq<To<W>>, more: Redirs<W>,
                                        rest: seq<Tok<W>>)
    requires ts != [] && ts[0].Word? && args == [Arg(ts[0].w, more.tos)] + others
    requires EmitRedirs(more.tos, more.rest) == ts[1..] && EmitArgs(others, rest) == more.rest
    ensures EmitArgs(args, rest) == ts
    ensures done + WordsOf(args) == done + [ts[0].w] + WordsOf(others) && tos + FilesOf(args) == tos + more.tos + FilesOf(others)
  {
    assert args[1..] == others && ts == [ts[0]] + ts[1..];
  }

  lemma {:induction false} OperandSound<W>(ts: seq<Tok<W>>) returns (d: Operand<W>)
    requires ParseExec(ts).Some?
    ensures OperandOk(d) && EmitOperand(d, ParseExec(ts).value.rest) == ts && ParseExec(ts).value.cmd == OperandTree(d)
    decreases |ts|, 1
  {
    StartsOne(ts, '(');
    if AtSym(ts, '(') {
      d := BlockSound(ts);
    } else {
      var more := ParseRedirs(ts).value;
      RedirsSound(ts);
      var args := ArgsSound(more.rest, [], more.tos);
      assert [] + WordsOf(args) == WordsOf(args);
      d := Simple(more.tos, args);
    }
  }

  lemma {:induction false} BlockSound<W>(ts: seq<Tok<W>>) returns (d: Operand<W>)
    requires AtSym(ts, '(') && Starts(ts, "(") && ParseBlock(ts).Some?
    ensures OperandOk(d) && EmitOperand(d, ParseBlock(ts).value.rest) == ts && ParseBlock(ts).value.cmd == OperandTree(d)
    decreases |ts|, 0
  {
    var inner := LineSound(ts[1..]);
    var rest := ParseLine(ts[1..]).value.rest;
    StartsOne(rest, ')');
    RedirsSound(rest[1..]);
    d := Group(inner, ParseRedirs(rest[1..]).value.tos);
    assert rest == [Sym(')')] + rest[1..] && ts == [Sym('(')] + ts[1..];
  }

  lemma {:induction false} PipelineSound<W>(ts: seq<Tok<W>>) returns (d: Pipeline<W>)
    requires ParsePipe(ts).Some?
    ensures PipelineOk(d) && EmitPipeline(d, ParsePipe(ts).value.rest) == ts && ParsePipe(ts).value.cmd == PipelineTree(d)
    decreases |ts|, 2
  {
    var first := OperandSound(ts);
    var rest := ParseExec(ts).value.rest;
    StartsOne(rest, '|');
    if AtSym(rest, '|') {
      var next := PipelineSound(rest[1..]);
      d := Into(first, next);
      assert rest == [Sym('|')] + rest[1..];
    } else {
      d := One(first);
    }
  }

  lemma {:induction false} BacksSound<W>(p: Parsed<W>) returns (n: nat)
    ensures EmitBacks(n, ParseBacks(p).rest) == p.rest && ParseBacks(p).cmd == BacksTree(p.cmd, n)
    decreases |p.rest|
  {
    StartsOne(p.rest, '&');
    if AtSym(p.rest, '&') {
      var m := BacksSound(Parsed(Back(p.cmd), p.rest[1..]));
      n := m + 1;
      assert p.rest == [Sym('&')] + p.rest[1..];
    } else {
      n := 0;
    }
  }

  lemma {:induction false} LineSound<W>(ts: seq<Tok<W>>) returns (d: Line<W>)
    requires ParseLine(ts).Some?
    ensures LineOk(d) && EmitLine(d, ParseLine(ts).value.rest) == ts && ParseLine(ts).value.cmd == LineTree(d)
    decreases |ts|, 3
  {
    var pipe := PipelineSound(ts);
    var p := ParsePipe(ts).value;
    var backs := BacksSound(p);
    var rest := ParseBacks(p).rest;
    StartsOne(rest, ';');
    if AtSym(rest, ';') {
      var next := LineSound(rest[1..]);
      d := Then(pipe, backs, next);
      assert rest == [Sym(';')] + rest[1..];
    } else {
      d := Last(pipe, backs);
    }
  }

  /** `parsecmd` accepts exactly the lines of the grammar, and gives each the tree of its derivation. */
  lemma {:induction false} ParsesExactly<W(!new)>(ts: seq<Tok<W>>, cmd: Cmd<W>)
    ensures ParseCmd(ts) == Some(cmd) <==> Derives(ts, cmd)
  {
    if ParseCmd(ts) == Some(cmd) {
      var d := LineSound(ts);
      assert EmitLine(d, []) == ts;
    }
    if Derives(ts, cmd) {
      var d: Line<W> :| LineOk(d) && EmitLine(d, []) == ts && LineTree(d) == cmd;
      LineComplete(d, []);
    }
  }
}
