/** The command parser of user/sh.c.  The grammar is given on tokens, with any type of words; the
    character-level parser, which lexes as it goes, is proved to follow it.  `None` stands for a panic. */
module Shell {
  import opened Options

  const MAXARGS := 10

  datatype Tok<W> = Sym(c: char) | Append | Word(w: W)

  /** How a redirection opens its file: `<`, `>` or `>>`. */
  datatype Mode = Input | Truncate | Extend

  datatype Cmd<W> =
    | Exec(args: seq<W>)
    | Redir(cmd: Cmd<W>, mode: Mode, file: W)
    | Pipe(left: Cmd<W>, right: Cmd<W>)
    | List(left: Cmd<W>, right: Cmd<W>)
    | Back(cmd: Cmd<W>)

  datatype To<W> = To(mode: Mode, file: W)

  /** A command, or redirections, and the tokens behind them. */
  datatype Parsed<W> = Parsed(cmd: Cmd<W>, rest: seq<Tok<W>>)
  datatype Redirs<W> = Redirs(tos: seq<To<W>>, rest: seq<Tok<W>>)

  // ---------------------------------------------------------------------------
  // Grammar

  predicate Starts<W>(ts: seq<Tok<W>>, set_: string) {
    ts != [] && ((ts[0].Sym? && ts[0].c in set_) || (ts[0].Append? && '>' in set_))
  }

  /** `parseredirs` wraps its command once for every redirection. */
  function Wrap<W>(cmd: Cmd<W>, tos: seq<To<W>>): Cmd<W>
    decreases |tos|
  {
    if tos == [] then cmd else Wrap(Redir(cmd, tos[0].mode, tos[0].file), tos[1..])
  }

  function ModeOf<W>(t: Tok<W>): Mode {
    if t.Append? then Extend else if t == Sym('<') then Input else Truncate
  }

  function ParseRedirs<W>(ts: seq<Tok<W>>): (r: Option<Redirs<W>>)
    ensures r.Some? ==> |r.value.rest| <= |ts|
  {
    if !Starts(ts, "<>") then Some(Redirs([], ts))
    else if |ts| < 2 || !ts[1].Word? then None
    else match ParseRedirs(ts[2..])
         case None => None
         case Some(more) => Some(Redirs([To(ModeOf(ts[0]), ts[1].w)] + more.tos, more.rest))
  }

  /** The loop of `parseexec`, with the arguments and redirections found so far. */
  function ParseArgs<W>(ts: seq<Tok<W>>, args: seq<W>, tos: seq<To<W>>): (r: Option<Parsed<W>>)
    ensures r.Some? ==> |r.value.rest| <= |ts|
    decreases |ts|
  {
    if ts == [] || Starts(ts, "|)&;") then Some(Parsed(Wrap(Exec(args), tos), ts))
    else if !ts[0].Word? || |args| + 1 >= MAXARGS then None
    else match ParseRedirs(ts[1..])
         case None => None
         case Some(more) => ParseArgs(more.rest, args + [ts[0].w], tos + more.tos)
  }

  function ParseExec<W>(ts: seq<Tok<W>>): (r: Option<Parsed<W>>)
    ensures r.Some? ==> |r.value.rest| <= |ts|
    decreases |ts|, 1
  {
    if Starts(ts, "(") then ParseBlock(ts)
    else match ParseRedirs(ts)
         case None => None
         case Some(more) => ParseArgs(more.rest, [], more.tos)
  }

  function ParseBlock<W>(ts: seq<Tok<W>>): (r: Option<Parsed<W>>)
    requires Starts(ts, "(")
    ensures r.Some? ==> |r.value.rest| < |ts|
    decreases |ts|, 0
  {
    match ParseLine(ts[1..])
    case None => None
    case Some(line) =>
      if !Starts(line.rest, ")") then None
      else match ParseRedirs(line.rest[1..])
           case None => None
           case Some(more) => Some(Parsed(Wrap(line.cmd, more.tos), more.rest))
  }

  function ParsePipe<W>(ts: seq<Tok<W>>): (r: Option<Parsed<W>>)
    ensures r.Some? ==> |r.value.rest| <= |ts|
    decreases |ts|, 2
  {
    match ParseExec(ts)
    case None => None
    case Some(left) =>
      if !Starts(left.rest, "|") then Some(left)
      else match ParsePipe(left.rest[1..])
           case None => None
           case Some(right) => Some(Parsed(Pipe(left.cmd, right.cmd), right.rest))
  }

  function ParseBacks<W>(p: Parsed<W>): (r: Parsed<W>)
    ensures |r.rest| <= |p.rest|
    decreases |p.rest|
  {
    if Starts(p.rest, "&") then ParseBacks(Parsed(Back(p.cmd), p.rest[1..])) else p
  }

  function ParseLine<W>(ts: seq<Tok<W>>): (r: Option<Parsed<W>>)
    ensures r.Some? ==> |r.value.rest| <= |ts|
    decreases |ts|, 3
  {
    match ParsePipe(ts)
    case None => None
    case Some(p) =>
      var left := ParseBacks(p);
      if !Starts(left.rest, ";") then Some(left)
      else match ParseLine(left.rest[1..])
           case None => None
           case Some(right) => Some(Parsed(List(left.cmd, right.cmd), right.rest))
  }

  /** `parsecmd`: a line, and nothing left over. */
  function ParseCmd<W>(ts: seq<Tok<W>>): Option<Cmd<W>> {
    match ParseLine(ts)
    case None => None
    case Some(p) => if p.rest == [] then Some(p.cmd) else None
  }

  // ---------------------------------------------------------------------------
  // Fully parenthesised tokens parse back

  function Words<W>(args: seq<W>): seq<Tok<W>> {
    if args == [] then [] else [Word(args[0])] + Words(args[1..])
  }

  function ModeTok<W>(mode: Mode): Tok<W> {
    match mode case Input => Sym('<') case Truncate => Sym('>') case Extend => Append
  }

  function Block<W>(cmd: Cmd<W>): seq<Tok<W>>
    decreases cmd, 1
  {
    [Sym('(')] + Print(cmd) + [Sym(')')]
  }

  function Print<W>(cmd: Cmd<W>): seq<Tok<W>>
    decreases cmd, 0
  {
    match cmd
    case Exec(args) => Words(args)
    case Redir(c, mode, file) => Block(c) + [ModeTok(mode), Word(file)]
    case Pipe(l, r) => Block(l) + [Sym('|')] + Block(r)
    case List(l, r) => Block(l) + [Sym(';')] + Block(r)
    case Back(c) => Block(c) + [Sym('&')]
  }

  predicate FewArgs<W>(cmd: Cmd<W>) {
    match cmd
    case Exec(args) => |args| < MAXARGS
    case Redir(c, _, _) => FewArgs(c)
    case Pipe(l, r) => FewArgs(l) && FewArgs(r)
    case List(l, r) => FewArgs(l) && FewArgs(r)
    case Back(c) => FewArgs(c)
  }

  /** The end of the tokens, or a closing parenthesis. */
  predicate Closed<W>(ts: seq<Tok<W>>) { ts == [] || ts[0] == Sym(')') }

  lemma {:induction false} NoRedirs<W>(args: seq<W>, rest: seq<Tok<W>>)
    requires Closed(rest)
    ensures var ts := Words(args) + rest; !Starts(ts, "(") && ParseRedirs(ts) == Some(Redirs([], ts))
  {
    if args != [] { assert (Words(args) + rest)[0] == Word(args[0]); } else { assert Words(args) + rest == rest; }
  }

  lemma {:induction false} OneWord<W>(done: seq<W>, w: W, ts: seq<Tok<W>>)
    requires |done| + 1 < MAXARGS && ParseRedirs(ts) == Some(Redirs([], ts))
    ensures ParseArgs([Word(w)] + ts, done, []) == ParseArgs(ts, done + [w], [])
  {
    assert ([Word(w)] + ts)[1..] == ts;
    var none: seq<To<W>> := [];
    assert none + [] == none;
  }

  lemma {:induction false} WordsParse<W>(done: seq<W>, args: seq<W>, rest: seq<Tok<W>>)
    requires Closed(rest) && |done| + |args| < MAXARGS
    ensures ParseArgs(Words(args) + rest, done, []) == Some(Parsed(Exec(done + args), rest))
    decreases |args|
  {
    if args == [] {
      NoWords(done, rest);
      assert Words(args) + rest == rest && done + args == done;
    } else {
      NoRedirs(args[1..], rest);
      OneWord(done, args[0], Words(args[1..]) + rest);
      WordsParse(done + [args[0]], args[1..], rest);
      FirstWord(done, args, rest);
    }
  }

  lemma {:induction false} NoWords<W>(done: seq<W>, rest: seq<Tok<W>>)
    requires Closed(rest) && |done| < MAXARGS
    ensures ParseArgs(rest, done, []) == Some(Parsed(Exec(done), rest))
  {
  }

  lemma {:induction false} FirstWord<W>(done: seq<W>, args: seq<W>, rest: seq<Tok<W>>)
    requires args != []
    ensures done + [args[0]] + args[1..] == done + args && [Word(args[0])] + (Words(args[1..]) + rest) == Words(args) + rest
  {
  }

  /** A parenthesised command is one operand of whatever follows it. */
  lemma {:induction false} BlockParses<W>(cmd: Cmd<W>, rest: seq<Tok<W>>)
    requires FewArgs(cmd) && !Starts(rest, "<>")
    ensures ParseExec(Block(cmd) + rest) == Some(Parsed(cmd, rest))
    decreases cmd, 3
  {
    var ts := Block(cmd) + rest;
    var inner := [Sym(')')] + rest;
    assert ts[1..] == Print(cmd) + inner;
    PrintParses(cmd, inner);
    assert inner[1..] == rest;
  }

  lemma {:induction false} OneRedir<W>(mode: Mode, file: W, rest: seq<Tok<W>>)
    requires Closed(rest)
    ensures ParseRedirs([ModeTok(mode), Word(file)] + rest) == Some(Redirs([To(mode, file)], rest))
  {
    var ts := [ModeTok(mode), Word(file)] + rest;
    var tok: Tok<W> := ModeTok(mode);
    assert ts[0] == tok && ts[1] == Word(file) && ts[2..] == rest;
    assert "<>"[0] == '<' && "<>"[1] == '>';
    assert Starts(ts, "<>") && ModeOf(tok) == mode;
    assert ParseRedirs(rest) == Some(Redirs([], rest));
    assert [To(mode, file)] + [] == [To(mode, file)];
  }

  lemma {:induction false} WrapOne<W>(cmd: Cmd<W>, mode: Mode, file: W)
    ensures Wrap(cmd, [To(mode, file)]) == Redir(cmd, mode, file)
  {
    assert [To(mode, file)][1..] == [];
  }

  /** A single operand is a pipeline and a line. */
  lemma {:induction false} OperandIsLine<W>(ts: seq<Tok<W>>, cmd: Cmd<W>, rest: seq<Tok<W>>)
    requires ParseExec(ts) == Some(Parsed(cmd, rest)) && Closed(rest)
    ensures ParsePipe(ts) == Some(Parsed(cmd, rest)) && ParseLine(ts) == Some(Parsed(cmd, rest))
  {
  }

  lemma {:induction false} RedirParses<W>(cmd: Cmd<W>, mode: Mode, file: W, rest: seq<Tok<W>>)
    requires FewArgs(cmd) && Closed(rest)
    ensures ParseExec(Block(cmd) + [ModeTok(mode), Word(file)] + rest) == Some(Parsed(Redir(cmd, mode, file), rest))
    decreases cmd, 3
  {
    var tail := [ModeTok(mode), Word(file)] + rest;
    var ts := Block(cmd) + [ModeTok(mode), Word(file)] + rest;
    var inner := [Sym(')')] + tail;
    assert ts[1..] == Print(cmd) + inner;
    PrintParses(cmd, inner);
    assert inner[1..] == tail;
    OneRedir(mode, file, rest);
    WrapOne(cmd, mode, file);
    assert ParseBlock(ts) == Some(Parsed(Redir(cmd, mode, file), rest));
  }

  lemma {:induction false} JoinCase<W>(cmd: Cmd<W>, rest: seq<Tok<W>>)
    requires (cmd.Pipe? || cmd.List?) && FewArgs(cmd) && Closed(rest)
    ensures ParseLine(Print(cmd) + rest) == Some(Parsed(cmd, rest))
    decreases cmd, 1
  {
    var op := if cmd.Pipe? then '|' else ';';
    var right := Block(cmd.right) + rest;
    BlockParses(cmd.right, rest);
    OperandIsLine(right, cmd.right, rest);
    BlockParses(cmd.left, [Sym(op)] + right);
    JoinParses(cmd.left, op, cmd.right, rest);
    Regroup(Block(cmd.left), Sym(op), Block(cmd.right), rest);
  }

  lemma {:induction false} Regroup<W>(a: seq<Tok<W>>, op: Tok<W>, b: seq<Tok<W>>, rest: seq<Tok<W>>)
    ensures a + [op] + b + rest == a + ([op] + (b + rest))
  {
  }

  lemma {:induction false} BackCase<W>(cmd: Cmd<W>, rest: seq<Tok<W>>)
    requires cmd.Back? && FewArgs(cmd) && Closed(rest)
    ensures ParseLine(Print(cmd) + rest) == Some(Parsed(cmd, rest))
    decreases cmd, 1
  {
    BlockParses(cmd.cmd, [Sym('&')] + rest);
    BackParses(cmd.cmd, rest);
    assert Block(cmd.cmd) + [Sym('&')] + rest == Block(cmd.cmd) + ([Sym('&')] + rest);
  }

  /** What is printed parses back, up to the end or a closing parenthesis. */
  lemma {:induction false} PrintParses<W>(cmd: Cmd<W>, rest: seq<Tok<W>>)
    requires FewArgs(cmd) && Closed(rest)
    ensures ParseLine(Print(cmd) + rest) == Some(Parsed(cmd, rest))
    decreases cmd, 2
  {
    match cmd
    case Exec(args) =>
      NoRedirs(args, rest);
      WordsParse([], args, rest);
      assert [] + args == args;
      OperandIsLine(Print(cmd) + rest, cmd, rest);
    case Redir(c, mode, file) =>
      RedirParses(c, mode, file, rest);
      OperandIsLine(Print(cmd) + rest, cmd, rest);
    case Back(c) => BackCase(cmd, rest);
    case _ => JoinCase(cmd, rest);
  }

  lemma {:induction false} JoinParses<W>(l: Cmd<W>, op: char, r: Cmd<W>, rest: seq<Tok<W>>)
    requires (op == '|' || op == ';') && Closed(rest)
    requires ParseExec(Block(l) + ([Sym(op)] + (Block(r) + rest))) == Some(Parsed(l, [Sym(op)] + (Block(r) + rest)))
    requires ParsePipe(Block(r) + rest) == Some(Parsed(r, rest)) && ParseLine(Block(r) + rest) == Some(Parsed(r, rest))
    ensures ParseLine(Block(l) + ([Sym(op)] + (Block(r) + rest))) == Some(Parsed(if op == '|' then Pipe(l, r) else List(l, r), rest))
  {
    var tail := [Sym(op)] + (Block(r) + rest);
    assert tail[1..] == Block(r) + rest;
  }

  lemma {:induction false} BackParses<W>(c: Cmd<W>, rest: seq<Tok<W>>)
    requires Closed(rest)
    requires ParseExec(Block(c) + ([Sym('&')] + rest)) == Some(Parsed(c, [Sym('&')] + rest))
    ensures ParseLine(Block(c) + ([Sym('&')] + rest)) == Some(Parsed(Back(c), rest))
  {
    var tail := [Sym('&')] + rest;
    assert tail[1..] == rest;
    assert ParseBacks(Parsed(Back(c), rest)) == Parsed(Back(c), rest);
  }

  // ---------------------------------------------------------------------------
  // The parser loses no word and makes up none

  ghost function WordsOf<W>(ts: seq<Tok<W>>): multiset<W> {
    if ts == [] then multiset{} else (if ts[0].Word? then multiset{ts[0].w} else multiset{}) + WordsOf(ts[1..])
  }

  ghost function Files<W>(tos: seq<To<W>>): multiset<W> {
    if tos == [] then multiset{} else multiset{tos[0].file} + Files(tos[1..])
  }

  ghost function CmdWords<W>(cmd: Cmd<W>): multiset<W> {
    match cmd
    case Exec(args) => multiset(args)
    case Redir(c, _, file) => CmdWords(c) + multiset{file}
    case Pipe(l, r) => CmdWords(l) + CmdWords(r)
    case List(l, r) => CmdWords(l) + CmdWords(r)
    case Back(c) => CmdWords(c)
  }

  lemma {:induction false} FilesCons<W>(to: To<W>, tos: seq<To<W>>)
    ensures Files([to] + tos) == multiset{to.file} + Files(tos)
  {
    assert ([to] + tos)[1..] == tos;
  }

  lemma {:induction false} HeadOff<T>(a: seq<T>, b: seq<T>)
    requires a != []
    ensures [a[0]] + (a[1..] + b) == a + b
  {
  }

  lemma {:induction false} FilesJoin<W>(a: seq<To<W>>, b: seq<To<W>>)
    ensures Files(a + b) == Files(a) + Files(b)
    decreases |a|
  {
    if a == [] {
      assert a + b == b;
    } else {
      FilesJoin(a[1..], b);
      FilesCons(a[0], a[1..] + b);
      FilesCons(a[0], a[1..]);
      HeadOff(a, b);
      assert [a[0]] + a[1..] == a;
    }
  }

  lemma {:induction false} WrapWords<W>(cmd: Cmd<W>, tos: seq<To<W>>)
    ensures CmdWords(Wrap(cmd, tos)) == CmdWords(cmd) + Files(tos)
    decreases |tos|
  {
    if tos != [] { WrapWords(Redir(cmd, tos[0].mode, tos[0].file), tos[1..]); }
  }

  lemma {:induction false} RedirsKeepWords<W>(ts: seq<Tok<W>>)
    requires ParseRedirs(ts).Some?
    ensures var r := ParseRedirs(ts).value; WordsOf(ts) == Files(r.tos) + WordsOf(r.rest)
    decreases |ts|
  {
    if Starts(ts, "<>") {
      RedirsKeepWords(ts[2..]);
      var more := ParseRedirs(ts[2..]).value;
      assert ts[1..][1..] == ts[2..] && WordsOf(ts) == multiset{ts[1].w} + WordsOf(ts[2..]);
      assert ([To(ModeOf(ts[0]), ts[1].w)] + more.tos)[1..] == more.tos;
    }
  }

  lemma {:induction false} ArgsKeepWords<W>(ts: seq<Tok<W>>, args: seq<W>, tos: seq<To<W>>)
    requires ParseArgs(ts, args, tos).Some?
    ensures var r := ParseArgs(ts, args, tos).value; multiset(args) + Files(tos) + WordsOf(ts) == CmdWords(r.cmd) + WordsOf(r.rest)
    decreases |ts|
  {
    if ts == [] || Starts(ts, "|)&;") {
      WrapWords(Exec(args), tos);
    } else {
      RedirsKeepWords(ts[1..]);
      var more := ParseRedirs(ts[1..]).value;
      FilesJoin(tos, more.tos);
      ArgsKeepWords(more.rest, args + [ts[0].w], tos + more.tos);
    }
  }

  ghost predicate KeepsWords<W>(ts: seq<Tok<W>>, r: Option<Parsed<W>>) {
    r.Some? ==> WordsOf(ts) == CmdWords(r.value.cmd) + WordsOf(r.value.rest)
  }

  lemma {:induction false} ExecKeepsWords<W>(ts: seq<Tok<W>>)
    ensures KeepsWords(ts, ParseExec(ts))
    decreases |ts|, 1
  {
    if Starts(ts, "(") {
      BlockKeepsWords(ts);
    } else if ParseExec(ts).Some? {
      RedirsKeepWords(ts);
      var more := ParseRedirs(ts).value;
      ArgsKeepWords(more.rest, [], more.tos);
    }
  }

  lemma {:induction false} AddFiles<W>(a: multiset<W>, b: multiset<W>, c: multiset<W>)
    ensures a + (b + c) == a + b + c
  {
  }

  lemma {:induction false} BlockKeepsWords<W>(ts: seq<Tok<W>>)
    requires Starts(ts, "(")
    ensures KeepsWords(ts, ParseBlock(ts))
    decreases |ts|, 0
  {
    LineKeepsWords(ts[1..]);
    if ParseBlock(ts).Some? {
      var line := ParseLine(ts[1..]).value;
      var more := ParseRedirs(line.rest[1..]).value;
      RedirsKeepWords(line.rest[1..]);
      WrapWords(line.cmd, more.tos);
      assert WordsOf(ts) == WordsOf(ts[1..]) && WordsOf(line.rest) == WordsOf(line.rest[1..]);
      AddFiles(CmdWords(line.cmd), Files(more.tos), WordsOf(more.rest));
    }
  }

  lemma {:induction false} PipeKeepsWords<W>(ts: seq<Tok<W>>)
    ensures KeepsWords(ts, ParsePipe(ts))
    decreases |ts|, 2
  {
    ExecKeepsWords(ts);
    if ParseExec(ts).Some? && Starts(ParseExec(ts).value.rest, "|") { PipeKeepsWords(ParseExec(ts).value.rest[1..]); }
  }

  lemma {:induction false} BacksKeepWords<W>(p: Parsed<W>)
    ensures CmdWords(p.cmd) + WordsOf(p.rest) == CmdWords(ParseBacks(p).cmd) + WordsOf(ParseBacks(p).rest)
    decreases |p.rest|
  {
    if Starts(p.rest, "&") { BacksKeepWords(Parsed(Back(p.cmd), p.rest[1..])); }
  }

  lemma {:induction false} LineKeepsWords<W>(ts: seq<Tok<W>>)
    ensures KeepsWords(ts, ParseLine(ts))
    decreases |ts|, 3
  {
    PipeKeepsWords(ts);
    if ParsePipe(ts).Some? {
      BacksKeepWords(ParsePipe(ts).value);
      var left := ParseBacks(ParsePipe(ts).value);
      if Starts(left.rest, ";") { LineKeepsWords(left.rest[1..]); }
    }
  }

  /** The words of an accepted line are the words of its tree, each as often. */
  lemma {:induction false} ParseKeepsWords<W>(ts: seq<Tok<W>>)
    requires ParseCmd(ts).Some?
    ensures CmdWords(ParseCmd(ts).value) == WordsOf(ts)
  {
    LineKeepsWords(ts);
  }

  // ---------------------------------------------------------------------------
  // The parser looks at the kinds of tokens only

  function MapTok<V, W>(f: V -> W, t: Tok<V>): Tok<W> {
    match t case Sym(c) => Sym(c) case Append => Append case Word(w) => Word(f(w))
  }

  function MapToks<V, W>(f: V -> W, ts: seq<Tok<V>>): (r: seq<Tok<W>>)
    ensures |r| == |ts| && forall k :: 0 <= k < |ts| ==> r[k] == MapTok(f, ts[k])
  {
    if ts == [] then [] else [MapTok(f, ts[0])] + MapToks(f, ts[1..])
  }

  function MapArgs<V, W>(f: V -> W, args: seq<V>): (r: seq<W>)
    ensures |r| == |args| && forall k :: 0 <= k < |args| ==> r[k] == f(args[k])
  {
    if args == [] then [] else [f(args[0])] + MapArgs(f, args[1..])
  }

  function MapTos<V, W>(f: V -> W, tos: seq<To<V>>): (r: seq<To<W>>)
    ensures |r| == |tos| && forall k :: 0 <= k < |tos| ==> r[k] == To(tos[k].mode, f(tos[k].file))
  {
    if tos == [] then [] else [To(tos[0].mode, f(tos[0].file))] + MapTos(f, tos[1..])
  }

  function MapCmd<V, W>(f: V -> W, cmd: Cmd<V>): Cmd<W> {
    match cmd
    case Exec(args) => Exec(MapArgs(f, args))
    case Redir(c, mode, file) => Redir(MapCmd(f, c), mode, f(file))
    case Pipe(l, r) => Pipe(MapCmd(f, l), MapCmd(f, r))
    case List(l, r) => List(MapCmd(f, l), MapCmd(f, r))
    case Back(c) => Back(MapCmd(f, c))
  }

  /** The two results agree up to `f`. */
  ghost predicate SameParse<V, W>(f: V -> W, r: Option<Parsed<V>>, r': Option<Parsed<W>>) {
    (r.Some? <==> r'.Some?) && (r.Some? ==> r'.value.cmd == MapCmd(f, r.value.cmd) && r'.value.rest == MapToks(f, r.value.rest))
  }

  lemma {:induction false} MapTail<V, W>(f: V -> W, ts: seq<Tok<V>>, k: nat)
    requires k <= |ts|
    ensures MapToks(f, ts)[k..] == MapToks(f, ts[k..])
  {
  }

  lemma {:induction false} MapJoins<V, W>(f: V -> W, args: seq<V>, w: V, tos: seq<To<V>>, more: seq<To<V>>)
    ensures MapArgs(f, args + [w]) == MapArgs(f, args) + [f(w)] && MapTos(f, tos + more) == MapTos(f, tos) + MapTos(f, more)
  {
  }

  lemma {:induction false} WrapMaps<V, W>(f: V -> W, cmd: Cmd<V>, tos: seq<To<V>>)
    ensures Wrap(MapCmd(f, cmd), MapTos(f, tos)) == MapCmd(f, Wrap(cmd, tos))
    decreases |tos|
  {
    if tos != [] {
      assert MapTos(f, tos)[1..] == MapTos(f, tos[1..]);
      WrapMaps(f, Redir(cmd, tos[0].mode, tos[0].file), tos[1..]);
    }
  }

  lemma {:induction false} RedirsMap<V, W>(f: V -> W, ts: seq<Tok<V>>)
    ensures var r, r' := ParseRedirs(ts), ParseRedirs(MapToks(f, ts));
            && (r.Some? <==> r'.Some?)
            && (r.Some? ==> r'.value.tos == MapTos(f, r.value.tos) && r'.value.rest == MapToks(f, r.value.rest))
    decreases |ts|
  {
    if Starts(ts, "<>") && |ts| >= 2 && ts[1].Word? {
      MapTail(f, ts, 2);
      RedirsMap(f, ts[2..]);
      if ParseRedirs(ts[2..]).Some? {
        var more := ParseRedirs(ts[2..]).value;
        assert [To(ModeOf(ts[0]), f(ts[1].w))] + MapTos(f, more.tos) == MapTos(f, [To(ModeOf(ts[0]), ts[1].w)] + more.tos);
      }
    }
  }

  lemma {:induction false} ArgsMap<V, W>(f: V -> W, ts: seq<Tok<V>>, args: seq<V>, tos: seq<To<V>>)
    ensures SameParse(f, ParseArgs(ts, args, tos), ParseArgs(MapToks(f, ts), MapArgs(f, args), MapTos(f, tos)))
    decreases |ts|
  {
    if ts == [] || Starts(ts, "|)&;") {
      WrapMaps(f, Exec(args), tos);
    } else if ts[0].Word? && |args| + 1 < MAXARGS {
      MapTail(f, ts, 1);
      RedirsMap(f, ts[1..]);
      if ParseRedirs(ts[1..]).Some? {
        var more := ParseRedirs(ts[1..]).value;
        ArgsMap(f, more.rest, args + [ts[0].w], tos + more.tos);
        MapJoins(f, args, ts[0].w, tos, more.tos);
      }
    }
  }

  lemma {:induction false} ExecMaps<V, W>(f: V -> W, ts: seq<Tok<V>>)
    ensures SameParse(f, ParseExec(ts), ParseExec(MapToks(f, ts)))
    decreases |ts|, 1
  {
    if Starts(ts, "(") {
      BlockMaps(f, ts);
    } else {
      RedirsMap(f, ts);
      if ParseRedirs(ts).Some? {
        var more := ParseRedirs(ts).value;
        ArgsMap(f, more.rest, [], more.tos);
      }
    }
  }

  lemma {:induction false} BlockMaps<V, W>(f: V -> W, ts: seq<Tok<V>>)
    requires Starts(ts, "(")
    ensures Starts(MapToks(f, ts), "(") && SameParse(f, ParseBlock(ts), ParseBlock(MapToks(f, ts)))
    decreases |ts|, 0
  {
    MapTail(f, ts, 1);
    LineMaps(f, ts[1..]);
    if ParseLine(ts[1..]).Some? {
      var line := ParseLine(ts[1..]).value;
      if Starts(line.rest, ")") {
        MapTail(f, line.rest, 1);
        RedirsMap(f, line.rest[1..]);
        if ParseRedirs(line.rest[1..]).Some? { WrapMaps(f, line.cmd, ParseRedirs(line.rest[1..]).value.tos); }
      }
    }
  }

  lemma {:induction false} PipeMaps<V, W>(f: V -> W, ts: seq<Tok<V>>)
    ensures SameParse(f, ParsePipe(ts), ParsePipe(MapToks(f, ts)))
    decreases |ts|, 2
  {
    ExecMaps(f, ts);
    if ParseExec(ts).Some? && Starts(ParseExec(ts).value.rest, "|") {
      MapTail(f, ParseExec(ts).value.rest, 1);
      PipeMaps(f, ParseExec(ts).value.rest[1..]);
    }
  }

  lemma {:induction false} BacksMap<V, W>(f: V -> W, p: Parsed<V>, p': Parsed<W>)
    requires SameParse(f, Some(p), Some(p'))
    ensures SameParse(f, Some(ParseBacks(p)), Some(ParseBacks(p')))
    decreases |p.rest|
  {
    if Starts(p.rest, "&") {
      MapTail(f, p.rest, 1);
      BacksMap(f, Parsed(Back(p.cmd), p.rest[1..]), Parsed(Back(p'.cmd), p'.rest[1..]));
    }
  }

  lemma {:induction false} LineMaps<V, W>(f: V -> W, ts: seq<Tok<V>>)
    ensures SameParse(f, ParseLine(ts), ParseLine(MapToks(f, ts)))
    decreases |ts|, 3
  {
    PipeMaps(f, ts);
    if ParsePipe(ts).Some? {
      BacksMap(f, ParsePipe(ts).value, ParsePipe(MapToks(f, ts)).value);
      var left := ParseBacks(ParsePipe(ts).value);
      if Starts(left.rest, ";") {
        MapTail(f, left.rest, 1);
        LineMaps(f, left.rest[1..]);
      }
    }
  }

  // ---------------------------------------------------------------------------
  // Tokens of a text

  const NUL: char := '\0'

  predicate Space(c: char) { c == ' ' || c == '\t' || c == '\r' || c == '\n' || c == '\U{000B}' }

  predicate Symbol(c: char) { c == '<' || c == '|' || c == '>' || c == '&' || c == ';' || c == '(' || c == ')' }

  predicate Plain(c: char) { !Space(c) && !Symbol(c) }

  datatype Span = Span(lo: nat, hi: nat)

  /** The first place from `i` on that is not a space. */
  function Skip(s: string, i: nat): (j: nat)
    requires i <= |s|
    ensures i <= j <= |s| && (forall k :: i <= k < j ==> Space(s[k])) && (j < |s| ==> !Space(s[j]))
    decreases |s| - i
  {
    if i < |s| && Space(s[i]) then Skip(s, i + 1) else i
  }

  /** The first place from `i` on that is not in a word. */
  function WordEnd(s: string, i: nat): (j: nat)
    requires i <= |s|
    ensures i <= j <= |s| && (forall k :: i <= k < j ==> Plain(s[k])) && (j < |s| ==> !Plain(s[j]))
    decreases |s| - i
  {
    if i < |s| && Plain(s[i]) then WordEnd(s, i + 1) else i
  }

  function TokAt(s: string, i: nat): Tok<Span>
    requires i < |s| && !Space(s[i])
  {
    if Plain(s[i]) then Word(Span(i, WordEnd(s, i)))
    else if s[i] == '>' && i + 1 < |s| && s[i + 1] == '>' then Append
    else Sym(s[i])
  }

  function TokEnd(s: string, i: nat): (j: nat)
    requires i < |s| && !Space(s[i])
    ensures i < j <= |s|
  {
    if Plain(s[i]) then WordEnd(s, i) else if TokAt(s, i).Append? then i + 2 else i + 1
  }

  function Lex(s: string, i: nat): seq<Tok<Span>>
    requires i <= |s|
    decreases |s| - i
  {
    var j := Skip(s, i);
    if j == |s| then [] else [TokAt(s, j)] + Lex(s, TokEnd(s, j))
  }

  /** Lexing may start behind the spaces. */
  lemma {:induction false} LexSkip(s: string, i: nat)
    requires i <= |s|
    ensures Lex(s, Skip(s, i)) == Lex(s, i)
  {
    SkipTwice(s, i);
  }

  lemma {:induction false} SkipTwice(s: string, i: nat)
    requires i <= |s|
    ensures Skip(s, Skip(s, i)) == Skip(s, i)
  {
  }

  predicate SpanOk(s: string, i: nat, w: Span) {
    i <= w.lo < w.hi <= |s| && (forall k :: w.lo <= k < w.hi ==> Plain(s[k])) && (w.hi < |s| ==> !Plain(s[w.hi]))
  }

  ghost predicate AllSpansOk(s: string, i: nat, ts: seq<Tok<Span>>) {
    forall k :: 0 <= k < |ts| && ts[k].Word? ==> SpanOk(s, i, ts[k].w)
  }

  /** Every word is a maximal run of plain characters. */
  lemma {:induction false} LexSpans(s: string, i: nat)
    requires i <= |s|
    ensures AllSpansOk(s, i, Lex(s, i))
    decreases |s| - i
  {
    var j := Skip(s, i);
    if j < |s| {
      LexSpans(s, TokEnd(s, j));
      var ts, more := Lex(s, i), Lex(s, TokEnd(s, j));
      forall k | 0 <= k < |ts| && ts[k].Word? ensures SpanOk(s, i, ts[k].w) {
        if k > 0 { assert ts[k] == more[k - 1] && SpanOk(s, TokEnd(s, j), more[k - 1].w); }
      }
    }
  }

  lemma {:induction false} WordsFromTokens(s: string, i: nat, ts: seq<Tok<Span>>, w: Span)
    requires AllSpansOk(s, i, ts) && w in WordsOf(ts)
    ensures SpanOk(s, i, w)
    decreases |ts|
  {
    if !(ts[0].Word? && ts[0].w == w) {
      forall k | 0 <= k < |ts[1..]| && ts[1..][k].Word? ensures SpanOk(s, i, ts[1..][k].w) { assert ts[1..][k] == ts[k + 1]; }
      WordsFromTokens(s, i, ts[1..], w);
    }
  }

  // ---------------------------------------------------------------------------
  // Fully parenthesised text

  function TokText(t: Tok<string>): string {
    match t case Sym(c) => [c] case Append => ">>" case Word(w) => w
  }

  /** Every token followed by a space. */
  function Render(ts: seq<Tok<string>>): string {
    if ts == [] then "" else TokText(ts[0]) + " " + Render(ts[1..])
  }

  predicate LegalWord(w: string) { w != "" && forall k :: 0 <= k < |w| ==> Plain(w[k]) && w[k] != NUL }

  predicate LegalTok(t: Tok<string>) {
    match t case Sym(c) => Symbol(c) case Append => true case Word(w) => LegalWord(w)
  }

  function TextOf(s: string): Span -> string {
    (w: Span) => if w.lo <= w.hi <= |s| then s[w.lo..w.hi] else ""
  }

  lemma {:induction false} SkipHere(s: string, i: nat)
    requires i <= |s| && (i < |s| ==> !Space(s[i]))
    ensures Skip(s, i) == i
  {
  }

  lemma {:induction false} WordEndIs(s: string, i: nat, j: nat)
    requires i <= j <= |s| && (forall k :: i <= k < j ==> Plain(s[k])) && (j < |s| ==> !Plain(s[j]))
    ensures WordEnd(s, i) == j
    decreases j - i
  {
    if i < j { WordEndIs(s, i + 1, j); }
  }

  /** The token `t` stands at `i`, with a space behind it. */
  ghost predicate Stands(s: string, i: nat, t: string) {
    t != "" && i + |t| < |s| && (forall k :: 0 <= k < |t| ==> s[i + k] == t[k]) && s[i + |t|] == ' '
  }

  lemma {:induction false} FirstToken(s: string, i: nat, t: Tok<string>)
    requires LegalTok(t) && Stands(s, i, TokText(t))
    ensures !Space(s[i]) && TokEnd(s, i) == i + |TokText(t)| && MapTok(TextOf(s), TokAt(s, i)) == t
  {
    var j := i + |TokText(t)|;
    assert s[i] == s[i + 0] == TokText(t)[0];
    match t
    case Sym(c) => assert s[i] == c && s[i + 1] == ' ';
    case Append => assert s[i + 1] == TokText(t)[1];
    case Word(w) =>
      forall k | i <= k < j ensures Plain(s[k]) && s[k] == w[k - i] { assert s[i + (k - i)] == w[k - i]; }
      WordEndIs(s, i, j);
      assert s[i..j] == w;
  }

  lemma {:induction false} LexSpace(s: string, i: nat)
    requires i < |s| && Space(s[i])
    ensures Lex(s, i) == Lex(s, i + 1)
  {
    assert Skip(s, i) == Skip(s, i + 1);
  }

  ghost predicate AllLegal(ts: seq<Tok<string>>) { forall k :: 0 <= k < |ts| ==> LegalTok(ts[k]) }

  lemma {:induction false} LexFirst(s: string, i: nat, t: Tok<string>) returns (next: nat, first: Tok<Span>, more: seq<Tok<Span>>)
    requires LegalTok(t) && Stands(s, i, TokText(t))
    ensures next == i + |TokText(t)| + 1 && MapTok(TextOf(s), first) == t && more == Lex(s, next) && Lex(s, i) == [first] + more
  {
    FirstToken(s, i, t);
    SkipHere(s, i);
    LexSpace(s, i + |TokText(t)|);
    next := i + |TokText(t)| + 1;
    first, more := TokAt(s, i), Lex(s, next);
  }

  lemma {:induction false} RenderedParts(s: string, i: nat, text: string, post: string)
    requires i <= |s| && s[i..] == text + " " + post && text != ""
    ensures Stands(s, i, text) && s[i + |text| + 1..] == post
  {
    forall k | 0 <= k < |text| ensures s[i + k] == text[k] { assert s[i..][k] == text[k]; }
    assert s[i..][|text|] == ' ';
    assert s[i..][|text| + 1..] == post && s[i + |text| + 1..] == s[i..][|text| + 1..];
  }

  /** The tokens `l` of `s` read `ts`. */
  ghost predicate Spells(s: string, l: seq<Tok<Span>>, ts: seq<Tok<string>>) {
    |l| == |ts| && forall k :: 0 <= k < |ts| ==> MapTok(TextOf(s), l[k]) == ts[k]
  }

  /** The first of rendered tokens, and where the others start. */
  lemma {:induction false} RenderStep(s: string, i: nat, ts: seq<Tok<string>>) returns (next: nat, t: Tok<Span>, more: seq<Tok<Span>>)
    requires ts != [] && i <= |s| && s[i..] == Render(ts) && AllLegal(ts)
    ensures next <= |s| && s[next..] == Render(ts[1..])
    ensures MapTok(TextOf(s), t) == ts[0] && more == Lex(s, next) && Lex(s, i) == [t] + more
  {
    assert LegalTok(ts[0]);
    RenderedParts(s, i, TokText(ts[0]), Render(ts[1..]));
    next, t, more := LexFirst(s, i, ts[0]);
  }

  /** The tokens of rendered tokens are those tokens. */
  lemma {:induction false} LexRender(s: string, i: nat, ts: seq<Tok<string>>, l: seq<Tok<Span>>)
    requires i <= |s| && s[i..] == Render(ts) && AllLegal(ts) && l == Lex(s, i)
    ensures Spells(s, l, ts)
    decreases |ts|
  {
    if ts == [] {
      assert |s[i..]| == 0;
    } else {
      var next, t, more := RenderStep(s, i, ts);
      LexRender(s, next, ts[1..], more);
      SpellsCons(s, t, more, ts, l);
    }
  }

  lemma {:induction false} SpellsCons(s: string, t: Tok<Span>, more: seq<Tok<Span>>, ts: seq<Tok<string>>, l: seq<Tok<Span>>)
    requires ts != [] && MapTok(TextOf(s), t) == ts[0] && Spells(s, more, ts[1..]) && l == [t] + more
    ensures Spells(s, l, ts)
  {
    forall k | 0 < k < |ts| ensures MapTok(TextOf(s), more[k - 1]) == ts[k] { assert ts[1..][k - 1] == ts[k]; }
  }

  predicate Legal(cmd: Cmd<string>) {
    match cmd
    case Exec(args) => |args| < MAXARGS && forall k :: 0 <= k < |args| ==> LegalWord(args[k])
    case Redir(c, _, file) => Legal(c) && LegalWord(file)
    case Pipe(l, r) => Legal(l) && Legal(r)
    case List(l, r) => Legal(l) && Legal(r)
    case Back(c) => Legal(c)
  }

  lemma {:induction false} WordsLegal(args: seq<string>)
    requires forall k :: 0 <= k < |args| ==> LegalWord(args[k])
    ensures AllLegal(Words(args))
    decreases |args|
  {
    if args != [] { WordsLegal(args[1..]); }
  }

  lemma {:induction false} BlockLegal(cmd: Cmd<string>)
    requires Legal(cmd)
    ensures AllLegal(Block(cmd))
    decreases cmd, 1
  {
    PrintLegal(cmd);
  }

  lemma {:induction false} PrintLegal(cmd: Cmd<string>)
    requires Legal(cmd)
    ensures AllLegal(Print(cmd)) && FewArgs(cmd)
    decreases cmd, 0
  {
    match cmd
    case Exec(args) => WordsLegal(args);
    case Redir(c, _, _) => BlockLegal(c); PrintLegal(c);
    case Back(c) => BlockLegal(c); PrintLegal(c);
    case _ =>
      BlockLegal(cmd.left); PrintLegal(cmd.left);
      BlockLegal(cmd.right); PrintLegal(cmd.right);
  }

  /** The parser inverts the printer: the fully parenthesised text of every command tree with legal words
      and fewer than MAXARGS arguments per command parses to that tree. */
  lemma {:induction false} ParseInvertsPrint(cmd: Cmd<string>)
    requires Legal(cmd)
    ensures var s := Render(Print(cmd));
            ParseCmd(Lex(s, 0)).Some? && MapCmd(TextOf(s), ParseCmd(Lex(s, 0)).value) == cmd
  {
    var s := Render(Print(cmd));
    PrintLegal(cmd);
    assert s[0..] == s;
    LexRender(s, 0, Print(cmd), Lex(s, 0));
    assert MapToks(TextOf(s), Lex(s, 0)) == Print(cmd);
    assert Print(cmd) + [] == Print(cmd);
    PrintParses(cmd, []);
    LineMaps(TextOf(s), Lex(s, 0));
  }

  // ---------------------------------------------------------------------------
  // Termination of words in place

  ghost function Ends(cmd: Cmd<Span>): set<nat> {
    set w | w in CmdWords(cmd) :: w.hi
  }

  /** The C string at `lo` is `t`. */
  predicate ReadsAs(mem: string, lo: nat, t: string) {
    lo + |t| < |mem| && mem[lo..lo + |t|] == t && NUL !in t && mem[lo + |t|] == NUL
  }

  /** `mem'` is `mem` with a NUL at every end of a word of `cmd`. */
  ghost predicate Terminated(mem: string, mem': string, cmd: Cmd<Span>) {
    |mem'| == |mem| && forall i :: 0 <= i < |mem| ==> mem'[i] == if i in Ends(cmd) then NUL else mem[i]
  }

  /** The words of the tree of an accepted input are words of the input. */
  lemma {:induction false} TreeSpans(s: string, cmd: Cmd<Span>, w: Span)
    requires ParseCmd(Lex(s, 0)) == Some(cmd) && w in CmdWords(cmd)
    ensures SpanOk(s, 0, w)
  {
    LexSpans(s, 0);
    ParseKeepsWords(Lex(s, 0));
    WordsFromTokens(s, 0, Lex(s, 0), w);
  }

  lemma {:induction false} ReadsToken(s: string, mem': string, w: Span)
    requires NUL !in s && SpanOk(s, 0, w) && |mem'| == |s| + 1 && mem'[w.hi] == NUL && forall i :: w.lo <= i < w.hi ==> mem'[i] == s[i]
    ensures ReadsAs(mem', w.lo, s[w.lo..w.hi])
  {
    assert mem'[w.lo..w.hi] == s[w.lo..w.hi];
  }

  /** For every input that the parser accepts: once `nulterminate` is done, each word of the tree, read as a
      C string from its start, is exactly its token. */
  lemma {:induction false} EachWordReadsItsToken(s: string, cmd: Cmd<Span>, mem': string, w: Span)
    requires NUL !in s && ParseCmd(Lex(s, 0)) == Some(cmd) && w in CmdWords(cmd)
    requires Terminated(s + [NUL], mem', cmd)
    ensures SpanOk(s, 0, w) && ReadsAs(mem', w.lo, s[w.lo..w.hi])
  {
    TreeSpans(s, cmd, w);
    forall i | w.lo <= i < w.hi ensures i !in Ends(cmd) {
      if v :| v in CmdWords(cmd) && v.hi == i { TreeSpans(s, cmd, v); }
    }
    assert w.hi in Ends(cmd);
    ReadsToken(s, mem', w);
  }

  /** The loop of `nulterminate` over the arguments of a command. */
  method TerminateArgs(buf: array<char>, args: seq<Span>)
    requires forall w :: w in multiset(args) ==> w.hi < buf.Length
    modifies buf
    ensures Terminated(old(buf[..]), buf[..], Exec(args))
  {
    ghost var mem := buf[..];
    var i := 0;
    while i < |args|
      invariant i <= |args|
      invariant forall j :: 0 <= j < |mem| ==> buf[j] == if exists k :: 0 <= k < i && args[k].hi == j then NUL else mem[j]
    {
      assert args[i] in multiset(args);
      buf[args[i].hi] := NUL;
      i := i + 1;
    }
    ExecEnds(args, buf[..], mem);
  }

  /** `nulterminate` */
  method Nulterminate(buf: array<char>, cmd: Cmd<Span>)
    requires forall w :: w in CmdWords(cmd) ==> w.hi < buf.Length
    modifies buf
    ensures Terminated(old(buf[..]), buf[..], cmd)
    decreases cmd
  {
    ghost var mem := buf[..];
    match cmd
    case Exec(args) =>
      TerminateArgs(buf, args);
    case Redir(c, _, file) =>
      assert file in CmdWords(cmd);
      Nulterminate(buf, c);
      buf[file.hi] := NUL;
      RedirEnds(cmd);
    case Pipe(l, r) =>
      Nulterminate(buf, l);
      Nulterminate(buf, r);
      BothEnds(cmd, l, r);
    case List(l, r) =>
      Nulterminate(buf, l);
      Nulterminate(buf, r);
      BothEnds(cmd, l, r);
    case Back(c) =>
      Nulterminate(buf, c);
      assert Ends(cmd) == Ends(c);
  }

  lemma {:induction false} ExecEnds(args: seq<Span>, mem': string, mem: string)
    requires |mem'| == |mem|
    requires forall j :: 0 <= j < |mem| ==> mem'[j] == if exists k :: 0 <= k < |args| && args[k].hi == j then NUL else mem[j]
    ensures Terminated(mem, mem', Exec(args))
  {
    forall j | 0 <= j < |mem| ensures j in Ends(Exec(args)) <==> exists k :: 0 <= k < |args| && args[k].hi == j {
      if j in Ends(Exec(args)) {
        var w :| w in CmdWords(Exec(args)) && w.hi == j;
        var k :| 0 <= k < |args| && args[k] == w;
      }
      if k :| 0 <= k < |args| && args[k].hi == j { assert args[k] in multiset(args); }
    }
  }

  lemma {:induction false} RedirEnds(cmd: Cmd<Span>)
    requires cmd.Redir?
    ensures Ends(cmd) == Ends(cmd.cmd) + {cmd.file.hi}
  {
    assert cmd.file in CmdWords(cmd);
    forall w | w in CmdWords(cmd.cmd) ensures w in CmdWords(cmd) {}
  }

  lemma {:induction false} BothEnds(cmd: Cmd<Span>, l: Cmd<Span>, r: Cmd<Span>)
    requires CmdWords(cmd) == CmdWords(l) + CmdWords(r)
    ensures Ends(cmd) == Ends(l) + Ends(r)
  {
    forall w | w in CmdWords(l) ensures w in CmdWords(cmd) {}
    forall w | w in CmdWords(r) ensures w in CmdWords(cmd) {}
  }

  // ---------------------------------------------------------------------------
  // The parser on characters

  predicate Symbols(set_: string) { forall k :: 0 <= k < |set_| ==> Symbol(set_[k]) }

  /** Whether the next token is one of `set_` shows in its first character. */
  lemma {:induction false} PeekIs(s: string, i: nat, set_: string)
    requires i <= |s| && Symbols(set_)
    ensures var j := Skip(s, i); Starts(Lex(s, i), set_) <==> j < |s| && s[j] in set_
  {
    var j := Skip(s, i);
    if j < |s| { assert Lex(s, i)[0] == TokAt(s, j); }
  }

  lemma {:induction false} LexHead(s: string, i: nat)
    requires i <= |s| && Skip(s, i) < |s|
    ensures var j := Skip(s, i); Lex(s, i) != [] && Lex(s, i)[0] == TokAt(s, j) && Lex(s, i)[1..] == Lex(s, TokEnd(s, j))
  {
  }

  /** `*ps` is the field `ps`; the end `es` of the text is its length. */
  class Parser {
    const s: string
    var ps: nat

    constructor (s: string)
      ensures this.s == s && ps == 0
    {
      this.s, ps := s, 0;
    }

    /** The tokens that are left. */
    ghost function Left(): seq<Tok<Span>>
      requires ps <= |s|
      reads this
    {
      Lex(s, ps)
    }

    /** The loop that skips spaces. */
    method SkipSpaces()
      requires ps <= |s|
      modifies this
      ensures ps == Skip(s, old(ps)) && ps <= |s| && Left() == old(Left())
    {
      LexSkip(s, ps);
      while ps < |s| && Space(s[ps])
        invariant ps <= |s| && Skip(s, ps) == Skip(s, old(ps))
        decreases |s| - ps
      {
        ps := ps + 1;
      }
    }

    /** `peek` */
    method Peek(toks: string) returns (r: bool)
      requires ps <= |s| && Symbols(toks)
      modifies this
      ensures ps == Skip(s, old(ps)) && Left() == old(Left()) && (r <==> Starts(Left(), toks))
    {
      PeekIs(s, ps, toks);
      SkipSpaces();
      r := ps < |s| && s[ps] in toks;
    }

    /** The loop of `gettoken` over the characters of a word. */
    method SkipWord()
      requires ps <= |s|
      modifies this
      ensures ps == WordEnd(s, old(ps)) && ps <= |s|
    {
      while ps < |s| && !Space(s[ps]) && !Symbol(s[ps])
        invariant ps <= |s| && WordEnd(s, ps) == WordEnd(s, old(ps))
        decreases |s| - ps
      {
        ps := ps + 1;
      }
    }

    /** `gettoken`; no token is the return value 0. */
    method GetToken() returns (tok: Option<Tok<Span>>)
      requires ps <= |s|
      modifies this
      ensures ps <= |s|
      ensures old(Left()) == [] ==> tok == None && Left() == []
      ensures old(Left()) != [] ==> tok == Some(old(Left())[0]) && Left() == old(Left())[1..]
    {
      SkipSpaces();
      var q := ps;
      if q == |s| {
        return None;
      }
      LexHead(s, ps);
      if s[q] == '>' {
        ps := ps + 1;
        tok := Some(Sym('>'));
        if ps < |s| && s[ps] == '>' {
          ps := ps + 1;
          tok := Some(Append);
        }
      } else if Symbol(s[q]) {
        ps := ps + 1;
        tok := Some(Sym(s[q]));
      } else {
        SkipWord();
        tok := Some(Word(Span(q, ps)));
      }
      assert tok == Some(TokAt(s, q)) && ps == TokEnd(s, q);
      SkipSpaces();
    }

    /** `r` and the place reached are what the grammar says. */
    ghost predicate Agrees(r: Option<Cmd<Span>>, spec: Option<Parsed<Span>>)
      reads this
    {
      ps <= |s| && (r.Some? <==> spec.Some?) && (r.Some? ==> r.value == spec.value.cmd && Left() == spec.value.rest)
    }

    /** `parseredirs`, up to the wrapping of the command; nothing where the code panics. */
    method Parseredirs() returns (tos: Option<seq<To<Span>>>)
      requires ps <= |s|
      modifies this
      ensures ps <= |s| && (tos.Some? <==> ParseRedirs(old(Left())).Some?)
      ensures tos.Some? ==> Redirs(tos.value, Left()) == ParseRedirs(old(Left())).value
    {
      ghost var spec := ParseRedirs(Left());
      var found := [];
      var more := Peek("<>");
      while more
        invariant ps <= |s| && (more <==> Starts(Left(), "<>"))
        invariant RedirsSoFar(found, ParseRedirs(Left()), spec)
        decreases |Left()|
      {
        ghost var ts := Left();
        var tok := GetToken();
        var file := GetToken();
        if file.None? || !file.value.Word? {
          return None;
        }
        assert ts[1..][1..] == ts[2..];
        RedirsNext(ts, found, spec);
        found := found + [To(ModeOf(tok.value), file.value.w)];
        more := Peek("<>");
      }
      assert found + [] == found;
      tos := Some(found);
    }

    /** `parseexec` */
    method Parseexec() returns (r: Option<Cmd<Span>>)
      requires ps <= |s|
      modifies this
      ensures Agrees(r, ParseExec(old(Left())))
      decreases |Left()|, 1
    {
      var block := Peek("(");
      if block {
        r := Parseblock();
        return;
      }
      var tos := Parseredirs();
      if tos.None? {
        return None;
      }
      r := Parseargs(tos.value);
    }

    /** The loop of `parseexec`. */
    method Parseargs(first: seq<To<Span>>) returns (r: Option<Cmd<Span>>)
      requires ps <= |s|
      modifies this
      ensures Agrees(r, ParseArgs(old(Left()), [], first))
      decreases |Left()|, 0
    {
      ghost var spec := ParseArgs(Left(), [], first);
      var args, tos := [], first;
      var stop := Peek("|)&;");
      while !stop
        invariant ps <= |s| && (stop <==> Starts(Left(), "|)&;")) && ParseArgs(Left(), args, tos) == spec
        decreases |Left()|
      {
        var tok := GetToken();
        if tok.None? {
          break;
        }
        if !tok.value.Word? || |args| + 1 >= MAXARGS {
          return None;
        }
        args := args + [tok.value.w];
        var more := Parseredirs();
        if more.None? {
          return None;
        }
        tos := tos + more.value;
        stop := Peek("|)&;");
      }
      r := Some(Wrap(Exec(args), tos));
    }

    /** `parseblock` */
    method Parseblock() returns (r: Option<Cmd<Span>>)
      requires ps <= |s| && Starts(Left(), "(")
      modifies this
      ensures Agrees(r, ParseBlock(old(Left())))
      decreases |Left()|, 0
    {
      var paren := GetToken();
      var line := Parseline();
      if line.None? {
        return None;
      }
      var close := Peek(")");
      if !close {
        return None;
      }
      paren := GetToken();
      var tos := Parseredirs();
      if tos.None? {
        return None;
      }
      r := Some(Wrap(line.value, tos.value));
    }

    /** `parsepipe` */
    method Parsepipe() returns (r: Option<Cmd<Span>>)
      requires ps <= |s|
      modifies this
      ensures Agrees(r, ParsePipe(old(Left())))
      decreases |Left()|, 2
    {
      r := Parseexec();
      if r.None? {
        return;
      }
      var bar := Peek("|");
      if bar {
        var tok := GetToken();
        var right := Parsepipe();
        r := if right.None? then None else Some(Pipe(r.value, right.value));
      }
    }

    /** `parseline` */
    method Parseline() returns (r: Option<Cmd<Span>>)
      requires ps <= |s|
      modifies this
      ensures Agrees(r, ParseLine(old(Left())))
      decreases |Left()|, 3
    {
      ghost var ts := Left();
      r := Parsepipe();
      if r.None? {
        return;
      }
      ghost var left := ParseBacks(ParsePipe(ts).value);
      var amp := Peek("&");
      while amp
        invariant ps <= |s| && r.Some? && (amp <==> Starts(Left(), "&")) && ParseBacks(Parsed(r.value, Left())) == left
        invariant |Left()| <= |ts|
        decreases |Left()|
      {
        var tok := GetToken();
        r := Some(Back(r.value));
        amp := Peek("&");
      }
      var semi := Peek(";");
      if semi {
        var tok := GetToken();
        var right := Parseline();
        r := if right.None? then None else Some(List(r.value, right.value));
      }
    }

    /** `parsecmd` up to `nulterminate`: it accepts what the grammar accepts, with the same tree. */
    method Parsecmd() returns (r: Option<Cmd<Span>>)
      requires ps == 0
      modifies this
      ensures r == ParseCmd(Lex(s, 0))
    {
      r := Parseline();
      if r.Some? {
        SkipTwice(s, ps);
        var more := Peek("");
        if ps != |s| {
          return None;
        }
      }
    }
  }

  /** Redirections found so far, and those that the grammar finds from here on. */
  ghost predicate RedirsSoFar(found: seq<To<Span>>, now: Option<Redirs<Span>>, spec: Option<Redirs<Span>>) {
    (now.Some? <==> spec.Some?) && (now.Some? ==> spec.value == Redirs(found + now.value.tos, now.value.rest))
  }

  lemma {:induction false} RedirsNext(ts: seq<Tok<Span>>, found: seq<To<Span>>, spec: Option<Redirs<Span>>)
    requires Starts(ts, "<>") && |ts| >= 2 && ts[1].Word? && RedirsSoFar(found, ParseRedirs(ts), spec)
    ensures RedirsSoFar(found + [To(ModeOf(ts[0]), ts[1].w)], ParseRedirs(ts[2..]), spec)
  {
    if ParseRedirs(ts[2..]).Some? {
      var to, more := To(ModeOf(ts[0]), ts[1].w), ParseRedirs(ts[2..]).value.tos;
      assert found + ([to] + more) == found + [to] + more;
    }
  }

  /** `parsecmd` on a line in memory: if it returns, every argument and file name of the tree, read as a C
      string, is exactly its token. */
  method ParseInPlace(buf: array<char>) returns (r: Option<Cmd<Span>>)
    requires buf.Length > 0 && buf[buf.Length - 1] == NUL && NUL !in buf[..buf.Length - 1]
    modifies buf
    ensures r == ParseCmd(Lex(old(buf[..buf.Length - 1]), 0))
    ensures r.Some? ==> forall w :: w in CmdWords(r.value) ==>
              SpanOk(old(buf[..buf.Length - 1]), 0, w) && ReadsAs(buf[..], w.lo, old(buf[..buf.Length - 1])[w.lo..w.hi])
  {
    var text := buf[..buf.Length - 1];
    ghost var mem := buf[..];
    assert mem == text + [NUL];
    var parser := new Parser(text);
    r := parser.Parsecmd();
    if r.Some? {
      forall w | w in CmdWords(r.value) ensures w.hi < buf.Length { TreeSpans(text, r.value, w); }
      Nulterminate(buf, r.value);
      forall w | w in CmdWords(r.value) ensures SpanOk(text, 0, w) && ReadsAs(buf[..], w.lo, text[w.lo..w.hi]) {
        EachWordReadsItsToken(text, r.value, buf[..], w);
      }
    }
  }
}
