/** The matcher and the line loop of user/grep.c.  A C string is the sequence of characters before its
    terminating NUL. */
module Grep {
  const NUL: char := '\0'
  const BUFSIZE := 1024

  // ---------------------------------------------------------------------------
  // What a pattern means

  /** One character, or a starred one.  The character `.` stands for every character. */
  datatype Item = One(c: char) | Star(c: char)

  /** A pattern after its optional `^`: a sequence of items, and whether it ends in `$`. */
  datatype Pattern = Pattern(items: seq<Item>, toEnd: bool)

  predicate Fits(c: char, x: char) { c == '.' || c == x }

  predicate AllFit(c: char, w: string) { forall k :: 0 <= k < |w| ==> Fits(c, w[k]) }

  function Parse(re: string): Pattern {
    if re == "" then Pattern([], false)
    else if |re| > 1 && re[1] == '*' then var p := Parse(re[2..]); Pattern([Star(re[0])] + p.items, p.toEnd)
    else if re == "$" then Pattern([], true)
    else var p := Parse(re[1..]); Pattern([One(re[0])] + p.items, p.toEnd)
  }

  predicate ItemTakes(item: Item, w: string) {
    if item.One? then |w| == 1 && Fits(item.c, w[0]) else AllFit(item.c, w)
  }

  function Join(pieces: seq<string>): string {
    if pieces == [] then "" else pieces[0] + Join(pieces[1..])
  }

  ghost predicate Splits(items: seq<Item>, pieces: seq<string>, w: string) {
    |pieces| == |items| && Join(pieces) == w && forall k :: 0 <= k < |items| ==> ItemTakes(items[k], pieces[k])
  }

  /** The language of a sequence of items: `w` can be cut into one piece per item. */
  ghost predicate InLanguage(items: seq<Item>, w: string) {
    exists pieces :: Splits(items, pieces, w)
  }

  /** A prefix of `text`, all of it if the pattern ends in `$`, is in the language. */
  ghost predicate MatchesHere(re: string, text: string) {
    exists j :: 0 <= j <= |text| && PrefixMatches(Parse(re), text, j)
  }

  ghost predicate PrefixMatches(p: Pattern, text: string, j: nat)
    requires j <= |text|
  {
    (p.toEnd ==> j == |text|) && InLanguage(p.items, text[..j])
  }

  /** Some substring of `text` is in the language: one at its start if the pattern begins with `^`, one
      that reaches its end if the pattern ends in `$`. */
  ghost predicate Matches(re: string, text: string) {
    var anchored := re != "" && re[0] == '^';
    var p := Parse(if anchored then re[1..] else re);
    exists i, j :: 0 <= i <= j <= |text| && (anchored ==> i == 0) && (p.toEnd ==> j == |text|) && InLanguage(p.items, text[i..j])
  }

  // ---------------------------------------------------------------------------
  // One item at a time

  lemma {:induction false} EmptyLanguage(w: string)
    ensures InLanguage([], w) <==> w == ""
  {
    if w == "" { assert Splits([], [], w); }
  }

  lemma {:induction false} ConsLanguage(item: Item, items: seq<Item>, w: string, k: nat)
    requires k <= |w| && ItemTakes(item, w[..k]) && InLanguage(items, w[k..])
    ensures InLanguage([item] + items, w)
  {
    var rest :| Splits(items, rest, w[k..]);
    assert ([w[..k]] + rest)[1..] == rest && w[..k] + w[k..] == w;
    assert Splits([item] + items, [w[..k]] + rest, w);
  }

  lemma {:induction false} UnconsLanguage(item: Item, items: seq<Item>, w: string) returns (k: nat)
    requires InLanguage([item] + items, w)
    ensures k <= |w| && ItemTakes(item, w[..k]) && InLanguage(items, w[k..])
  {
    var all := [item] + items;
    var pieces :| Splits(all, pieces, w);
    k := |pieces[0]|;
    assert w == pieces[0] + Join(pieces[1..]);
    assert w[..k] == pieces[0] && w[k..] == Join(pieces[1..]);
    assert forall m :: 0 <= m < |items| ==> items[m] == all[m + 1] && ItemTakes(all[m + 1], pieces[m + 1]);
    assert Splits(items, pieces[1..], w[k..]);
  }

  /** The match of a pattern that starts with item `item`. */
  lemma {:induction false} ItemHere(re: string, item: Item, rest: string, text: string)
    requires Parse(re).items == [item] + Parse(rest).items && Parse(re).toEnd == Parse(rest).toEnd
    ensures MatchesHere(re, text) <==> exists k :: 0 <= k <= |text| && ItemTakes(item, text[..k]) && MatchesHere(rest, text[k..])
  {
    if MatchesHere(re, text) {
      var j :| 0 <= j <= |text| && PrefixMatches(Parse(re), text, j);
      var k := UnconsLanguage(item, Parse(rest).items, text[..j]);
      assert text[..j][..k] == text[..k] && text[..j][k..] == text[k..][..j - k];
      assert PrefixMatches(Parse(rest), text[k..], j - k);
    }
    if k: nat :| k <= |text| && ItemTakes(item, text[..k]) && MatchesHere(rest, text[k..]) {
      var j :| 0 <= j <= |text[k..]| && PrefixMatches(Parse(rest), text[k..], j);
      assert text[..k + j][..k] == text[..k] && text[..k + j][k..] == text[k..][..j];
      ConsLanguage(item, Parse(rest).items, text[..k + j], k);
      assert PrefixMatches(Parse(re), text, k + j);
    }
  }

  /** The four cases of `matchhere`. */
  lemma {:induction false} EmptyHere(text: string)
    ensures MatchesHere("", text)
  {
    EmptyLanguage("");
    assert text[..0] == "" && PrefixMatches(Parse(""), text, 0);
  }

  lemma {:induction false} StarHere(re: string, text: string)
    requires |re| > 1 && re[1] == '*'
    ensures MatchesHere(re, text) <==> StarReaches(re[0], re[2..], text)
  {
    ItemHere(re, Star(re[0]), re[2..], text);
    if MatchesHere(re, text) {
      var k :| 0 <= k <= |text| && ItemTakes(Star(re[0]), text[..k]) && MatchesHere(re[2..], text[k..]);
      assert AllFit(re[0], text[..k]);
    }
    if StarReaches(re[0], re[2..], text) {
      var k :| 0 <= k <= |text| && AllFit(re[0], text[..k]) && MatchesHere(re[2..], text[k..]);
      assert ItemTakes(Star(re[0]), text[..k]);
    }
  }

  ghost predicate StarReaches(c: char, re: string, text: string) {
    exists k :: 0 <= k <= |text| && AllFit(c, text[..k]) && MatchesHere(re, text[k..])
  }

  lemma {:induction false} EndHere(text: string)
    ensures MatchesHere("$", text) <==> text == ""
  {
    if MatchesHere("$", text) {
      var j :| 0 <= j <= |text| && PrefixMatches(Parse("$"), text, j);
      EmptyLanguage(text[..j]);
    }
    if text == "" {
      EmptyLanguage(text[..0]);
      assert PrefixMatches(Parse("$"), text, 0);
    }
  }

  lemma {:induction false} OneHere(re: string, text: string)
    requires re != "" && re != "$" && !(|re| > 1 && re[1] == '*')
    ensures MatchesHere(re, text) <==> text != "" && Fits(re[0], text[0]) && MatchesHere(re[1..], text[1..])
  {
    ItemHere(re, One(re[0]), re[1..], text);
    if text != "" { assert text[..1] == [text[0]]; }
    if text != "" && Fits(re[0], text[0]) && MatchesHere(re[1..], text[1..]) {
      assert ItemTakes(One(re[0]), text[..1]);
    }
  }

  /** A substring that matches is a prefix of a suffix. */
  lemma {:induction false} MatchesAt(re: string, text: string)
    ensures Matches(re, text) <==>
              if re != "" && re[0] == '^' then MatchesHere(re[1..], text) else exists i :: 0 <= i <= |text| && MatchesHere(re, text[i..])
  {
    var anchored := re != "" && re[0] == '^';
    var tail := if anchored then re[1..] else re;
    var p := Parse(tail);
    if Matches(re, text) {
      var i, j :| 0 <= i <= j <= |text| && (anchored ==> i == 0) && (p.toEnd ==> j == |text|) && InLanguage(p.items, text[i..j]);
      assert text[i..][..j - i] == text[i..j] && PrefixMatches(p, text[i..], j - i);
      assert text[0..] == text;
    }
    if anchored && MatchesHere(tail, text) {
      var j :| 0 <= j <= |text| && PrefixMatches(p, text, j);
      assert text[0..j] == text[..j];
    }
    if i: nat :| !anchored && i <= |text| && MatchesHere(tail, text[i..]) {
      var j :| 0 <= j <= |text[i..]| && PrefixMatches(p, text[i..], j);
      assert text[i..i + j] == text[i..][..j];
    }
  }

  // ---------------------------------------------------------------------------
  // The matcher

  /** `matchhere` */
  method MatchHere(re: string, text: string) returns (r: bool)
    ensures r <==> MatchesHere(re, text)
    decreases |re|
  {
    if re == "" {
      EmptyHere(text);
      return true;
    }
    if |re| > 1 && re[1] == '*' {
      StarHere(re, text);
      r := MatchStar(re[0], re[2..], text);
      return;
    }
    if re == "$" {
      EndHere(text);
      return text == "";
    }
    OneHere(re, text);
    if text != "" && (re[0] == '.' || re[0] == text[0]) {
      r := MatchHere(re[1..], text[1..]);
      return;
    }
    return false;
  }

  /** `matchstar` */
  method MatchStar(c: char, re: string, text: string) returns (r: bool)
    ensures r <==> StarReaches(c, re, text)
    decreases |re| + 1
  {
    var i := 0;
    while true
      invariant i <= |text| && AllFit(c, text[..i])
      invariant forall k :: 0 <= k < i ==> !MatchesHere(re, text[k..])
      decreases |text| - i
    {
      r := MatchHere(re, text[i..]);
      if r {
        return;
      }
      if i == |text| || !(text[i] == c || c == '.') {
        forall k | i < k <= |text| ensures !AllFit(c, text[..k]) { assert text[..k][i] == text[i]; }
        return false;
      }
      assert text[..i + 1] == text[..i] + [text[i]];
      i := i + 1;
    }
  }

  /** `match` */
  method Match(re: string, text: string) returns (r: bool)
    ensures r <==> Matches(re, text)
  {
    MatchesAt(re, text);
    if re != "" && re[0] == '^' {
      r := MatchHere(re[1..], text);
      return;
    }
    var i := 0;
    while true
      invariant i <= |text| && forall k :: 0 <= k < i ==> !MatchesHere(re, text[k..])
      decreases |text| - i
    {
      r := MatchHere(re, text[i..]);
      if r {
        return;
      }
      if i == |text| {
        return false;
      }
      i := i + 1;
    }
  }

  // ---------------------------------------------------------------------------
  // What the line loop prints

  predicate NulFree(w: string) { NUL !in w }

  /** The index of the first newline, or the length. */
  function NewlineAt(w: string): (k: nat)
    ensures k <= |w| && '\n' !in w[..k] && (k < |w| ==> w[k] == '\n')
  {
    if w == "" || w[0] == '\n' then 0 else
      var k := 1 + NewlineAt(w[1..]);
      assert w[..k] == [w[0]] + w[1..][..k - 1];
      k
  }

  /** The first line of `w`, with its newline, fits in the buffer beside a NUL. */
  predicate LineFits(w: string) {
    NewlineAt(w) < |w| && NewlineAt(w) + 1 < BUFSIZE
  }

  /** The lines that match, up to the first one that does not fit in the buffer. */
  ghost function Printed(re: string, w: string): string
    decreases |w|
  {
    if !LineFits(w) then ""
    else
      var k := NewlineAt(w);
      (if Matches(re, w[..k]) then w[..k + 1] else "") + Printed(re, w[k + 1..])
  }

  /** The terminated lines of `w`, without their newlines. */
  function Lines(w: string): seq<string>
    decreases |w|
  {
    var k := NewlineAt(w);
    if k == |w| then [] else [w[..k]] + Lines(w[k + 1..])
  }

  /** The matching ones among `lines`, each with a newline. */
  ghost function Kept(re: string, lines: seq<string>): string {
    if lines == [] then "" else (if Matches(re, lines[0]) then lines[0] + "\n" else "") + Kept(re, lines[1..])
  }

  /** What follows the last newline. */
  function Unterminated(w: string): (end: string)
    ensures '\n' !in end
    decreases |w|
  {
    var k := NewlineAt(w);
    if k == |w| then assert w == w[..k]; w else Unterminated(w[k + 1..])
  }

  /** Lines are cut at the newlines and nowhere else, and nothing but an unterminated end is lost. */
  lemma {:induction false} LinesInverse(w: string)
    ensures Unlines(Lines(w)) + Unterminated(w) == w
    decreases |w|
  {
    var k := NewlineAt(w);
    if k < |w| {
      var rest := w[k + 1..];
      LinesInverse(rest);
      UnlinesCons(w[..k], Lines(rest));
      JoinLine(w[..k] + "\n", Unlines(Lines(rest)), Unterminated(rest));
      CutLine(w, k);
    }
  }

  lemma {:induction false} UnlinesCons(line: string, lines: seq<string>)
    ensures Unlines([line] + lines) == line + "\n" + Unlines(lines)
  {
    assert ([line] + lines)[1..] == lines;
  }

  lemma {:induction false} CutLine(w: string, k: nat)
    requires k < |w| && w[k] == '\n'
    ensures w == w[..k] + "\n" + w[k + 1..]
  {
  }

  lemma {:induction false} JoinLine(a: string, b: string, c: string)
    ensures a + b + c == a + (b + c)
  {
  }

  function Unlines(lines: seq<string>): string {
    if lines == [] then "" else lines[0] + "\n" + Unlines(lines[1..])
  }

  /** If every terminated line fits, what is printed is the matching lines in order. */
  lemma {:induction false} PrintedIsKept(re: string, w: string)
    requires forall k :: 0 <= k < |Lines(w)| ==> |Lines(w)[k]| + 1 < BUFSIZE
    ensures Printed(re, w) == Kept(re, Lines(w))
    decreases |w|
  {
    var k := NewlineAt(w);
    if k < |w| {
      var rest := w[k + 1..];
      assert Lines(w)[0] == w[..k] && Lines(w)[1..] == Lines(rest);
      forall j | 0 <= j < |Lines(rest)| ensures |Lines(rest)[j]| + 1 < BUFSIZE { assert Lines(rest)[j] == Lines(w)[j + 1]; }
      PrintedIsKept(re, rest);
      assert w[..k + 1] == w[..k] + "\n";
    }
  }

  ghost predicate MatchesAll(re: string) { forall text :: Matches(re, text) }

  lemma {:induction false} EmptyMatches()
    ensures MatchesAll("")
  {
    forall text: string ensures Matches("", text) {
      EmptyLanguage(text[0..0]);
      assert InLanguage(Parse("").items, text[0..0]);
    }
  }

  lemma {:induction false} PrintedNext(re: string, w: string)
    requires LineFits(w) && Matches(re, w[..NewlineAt(w)])
    ensures |Printed(re, w)| == NewlineAt(w) + 1 + |Printed(re, w[NewlineAt(w) + 1..])|
  {
    var k := NewlineAt(w);
    assert Printed(re, w) == w[..k + 1] + Printed(re, w[k + 1..]);
  }

  lemma {:induction false} KeptNext(re: string, line: string, lines: seq<string>)
    requires MatchesAll(re)
    ensures |Kept(re, [line] + lines)| == |line| + 1 + |Kept(re, lines)|
  {
    assert ([line] + lines)[1..] == lines && Matches(re, line);
  }

  lemma {:induction false} PrintedShorter(re: string, w: string, j: nat)
    requires j < |Lines(w)| && |Lines(w)[j]| + 1 >= BUFSIZE && MatchesAll(re)
    ensures |Printed(re, w)| < |Kept(re, Lines(w))|
    decreases |w|
  {
    var k := NewlineAt(w);
    var rest := w[k + 1..];
    KeptNext(re, w[..k], Lines(rest));
    if k + 1 < BUFSIZE {
      PrintedNext(re, w);
      PrintedShorter(re, rest, j - 1);
    }
  }

  /** What is printed is the matching lines in order, for every pattern, exactly if every terminated line fits. */
  lemma {:induction false} PrintedExactly(w: string)
    ensures (forall re {:trigger Printed(re, w)} :: Printed(re, w) == Kept(re, Lines(w)))
            <==> (forall k :: 0 <= k < |Lines(w)| ==> |Lines(w)[k]| + 1 < BUFSIZE)
  {
    if j: nat :| j < |Lines(w)| && |Lines(w)[j]| + 1 >= BUFSIZE {
      EmptyMatches();
      PrintedShorter("", w, j);
      assert Printed("", w) != Kept("", Lines(w));
    } else {
      forall re ensures Printed(re, w) == Kept(re, Lines(w)) { PrintedIsKept(re, w); }
    }
  }

  /** A line that does not fit ends the output, whatever follows it. */
  lemma {:induction false} LongLineEndsOutput(re: string, lines: seq<string>, long: string, after: string)
    requires forall k :: 0 <= k < |lines| ==> '\n' !in lines[k] && |lines[k]| + 1 < BUFSIZE
    requires '\n' !in long && |long| + 1 >= BUFSIZE
    ensures Printed(re, Unlines(lines) + long + after) == Kept(re, lines)
    decreases |lines|
  {
    var w := Unlines(lines) + long + after;
    if lines == [] {
      assert w == long + after;
      assert forall k :: 0 <= k < |long| ==> w[k] == long[k];
      assert NewlineAt(w) + 1 >= BUFSIZE || NewlineAt(w) == |w|;
    } else {
      NewlineAfter(lines[0], Unlines(lines[1..]) + long + after);
      assert w == lines[0] + "\n" + (Unlines(lines[1..]) + long + after);
      assert w[..|lines[0]|] == lines[0] && w[..|lines[0]| + 1] == lines[0] + "\n";
      assert w[|lines[0]| + 1..] == Unlines(lines[1..]) + long + after;
      LongLineEndsOutput(re, lines[1..], long, after);
    }
  }

  lemma {:induction false} NewlineIs(w: string, j: nat)
    requires j < |w| && w[j] == '\n' && '\n' !in w[..j]
    ensures NewlineAt(w) == j
  {
    if j > 0 {
      assert w[..j][0] == w[0] && w[1..][..j - 1] == w[..j][1..];
      NewlineIs(w[1..], j - 1);
    }
  }

  lemma {:induction false} NewlineAfter(line: string, rest: string)
    requires '\n' !in line
    ensures NewlineAt(line + "\n" + rest) == |line|
  {
    assert (line + "\n" + rest)[..|line|] == line;
    NewlineIs(line + "\n" + rest, |line|);
  }

  lemma {:induction false} PrintedLine(re: string, line: string, tail: string)
    requires '\n' !in line && |line| + 1 < BUFSIZE
    ensures Printed(re, line + "\n" + tail) == (if Matches(re, line) then line + "\n" else "") + Printed(re, tail)
  {
    var w := line + "\n" + tail;
    NewlineAfter(line, tail);
    assert w[..|line|] == line && w[..|line| + 1] == line + "\n" && w[|line| + 1..] == tail;
  }

  /** Nothing more is printed if the buffer is full without a newline, or the input is over. */
  lemma {:induction false} PrintedNoMore(re: string, w: string, rest: string)
    requires '\n' !in w && (rest == "" || |w| == BUFSIZE - 1)
    ensures Printed(re, w + rest) == ""
  {
    assert forall j :: 0 <= j < |w| ==> (w + rest)[j] == w[j];
  }

  // ---------------------------------------------------------------------------
  // Input with NUL characters

  /** What precedes the first NUL, which is all that `strchr` ever sees. */
  function BeforeNul(w: string): string {
    if w == "" || w[0] == NUL then "" else [w[0]] + BeforeNul(w[1..])
  }

  lemma {:induction false} BeforeNulAll(w: string)
    requires NulFree(w)
    ensures BeforeNul(w) == w
  {
    BeforeNulAfter(w, "");
    assert w + "" == w;
  }

  lemma {:induction false} BeforeNulAfter(a: string, b: string)
    requires NulFree(a)
    ensures BeforeNul(a + b) == a + BeforeNul(b)
  {
    if a == "" {
      assert a + b == b;
    } else {
      assert (a + b)[1..] == a[1..] + b;
      BeforeNulAfter(a[1..], b);
    }
  }

  lemma {:induction false} BeforeNulStops(a: string, b: string)
    requires NulFree(a)
    ensures BeforeNul(a + [NUL] + b) == a
  {
    BeforeNulAfter(a, [NUL] + b);
    assert a + [NUL] + b == a + ([NUL] + b);
  }

  lemma {:induction false} SplitAtNul(w: string) returns (a: string, b: string)
    requires NUL in w
    ensures w == a + [NUL] + b && NulFree(a)
  {
    if w[0] == NUL {
      a, b := "", w[1..];
    } else {
      assert w == [w[0]] + w[1..];
      var a1, b1 := SplitAtNul(w[1..]);
      a, b := [w[0]] + a1, b1;
    }
  }

  // ---------------------------------------------------------------------------
  // The line loop

  /** With `out` printed and `w` left of the input, the output is on course. */
  ghost predicate OnCourse(re: string, input: string, out: string, w: string) {
    forall k {:trigger Unfolded(k, out, w)} :: Unfolded(k, out, w) ==> Printed(re, input) == out + Printed(re, w)
  }

  /** Keeps the definition of `OnCourse` closed; an assertion of `Unfolded` opens it. */
  ghost predicate Unfolded(k: int, out: string, w: string) { true }

  lemma {:induction false} Start(re: string, input: string, b: string)
    ensures Pending(b[..0]) && OnCourse(re, BeforeNul(input), "", BeforeNul(b[..0] + input[0..]))
  {
    assert b[..0] + input[0..] == input;
  }

  lemma {:induction false} LineDone(re: string, input: string, out: string, line: string, tail: string)
    requires '\n' !in line && |line| + 1 < BUFSIZE && OnCourse(re, input, out, line + "\n" + tail)
    ensures Matches(re, line) ==> OnCourse(re, input, out + (line + "\n"), tail)
    ensures !Matches(re, line) ==> OnCourse(re, input, out, tail)
  {
    assert Unfolded(0, out, line + "\n" + tail);
    PrintedLine(re, line, tail);
    JoinLine(out, line + "\n", Printed(re, tail));
    NothingBefore(Printed(re, tail));
  }

  lemma {:induction false} NothingBefore(w: string)
    ensures "" + w == w
  {
  }

  /** The line from `p` to the newline at `q`, in what precedes the first NUL. */
  lemma {:induction false} FirstLine(b: string, p: nat, q: nat, m: nat, rest: string)
    requires p <= q < m <= |b| && NulFree(b[p..q]) && b[q] == '\n'
    ensures BeforeNul(b[p..m] + rest) == b[p..q] + "\n" + BeforeNul(b[q + 1..m] + rest)
    ensures b[p..q + 1] == b[p..q] + "\n"
  {
    var tail := b[q + 1..m] + rest;
    assert b[p..m] + rest == b[p..q] + ("\n" + tail);
    BeforeNulAfter(b[p..q], "\n" + tail);
    BeforeNulAfter("\n", tail);
  }

  /** `strchr` found a NUL before a newline. */
  lemma {:induction false} NoLine(b: string, p: nat, q: nat, m: nat)
    requires p <= q <= m <= |b| && NulFree(b[p..q]) && '\n' !in b[p..q] && (q < m ==> b[q] == NUL)
    ensures Pending(b[p..m])
  {
    if q < m {
      assert b[p..m] == b[p..q] + [NUL] + b[q + 1..m];
      BeforeNulStops(b[p..q], b[q + 1..m]);
    } else {
      BeforeNulAll(b[p..m]);
    }
  }

  lemma {:induction false} Done(re: string, input: string, out: string, w: string, rest: string)
    requires Pending(w) && (rest == "" || |w| == BUFSIZE - 1) && OnCourse(re, input, out, BeforeNul(w + rest))
    ensures OnCourse(re, input, out, "")
  {
    assert Unfolded(0, out, BeforeNul(w + rest));
    if NUL in w {
      var a, b := SplitAtNul(w);
      assert w + rest == a + [NUL] + (b + rest);
      BeforeNulStops(a, b);
      BeforeNulStops(a, b + rest);
      assert a + "" == a;
      PrintedNoMore(re, a, "");
    } else {
      BeforeNulAll(w);
      BeforeNulAfter(w, rest);
      PrintedNoMore(re, w, BeforeNul(rest));
    }
  }

  lemma {:induction false} End(re: string, input: string, out: string)
    requires OnCourse(re, input, out, "")
    ensures out == Printed(re, input)
  {
    assert Unfolded(0, out, "");
  }

  lemma {:induction false} OneMore(b: string, input: string, at: nat, k: nat)
    requires at + k < |input|
    ensures b + input[at..at + k] + [input[at + k]] == b + input[at..at + k + 1]
  {
  }

  lemma {:induction false} Rejoin(pending: string, input: string, at: nat, n: nat)
    requires at + n <= |input|
    ensures pending + input[at..] == pending + input[at..at + n] + input[at + n..]
  {
    assert input[at..] == input[at..at + n] + input[at + n..];
  }

  /** What the buffer holds between two reads: no newline that `strchr` could find. */
  ghost predicate Pending(w: string) { '\n' !in BeforeNul(w) }

  class Buffer {
    const buf: array<char>

    constructor ()
      ensures buf.Length == BUFSIZE && fresh(buf)
    {
      buf := new char[BUFSIZE];
    }

    /** `read(fd, buf + m, BUFSIZE - m - 1)`: the next `want` bytes of the input, or as many as there are and fit,
        but at least one unless there are none or none fits. */
    method Read(m: nat, input: string, at: nat, want: nat) returns (n: nat)
      requires buf.Length == BUFSIZE && m < BUFSIZE && at <= |input|
      modifies buf
      ensures at + n <= |input| && m + n < BUFSIZE && (n == 0 <==> at == |input| || m == BUFSIZE - 1)
      ensures buf[..m + n] == old(buf[..m]) + input[at..at + n]
    {
      n := if want == 0 then 1 else want;
      if n > |input| - at { n := |input| - at; }
      if n > BUFSIZE - 1 - m { n := BUFSIZE - 1 - m; }
      var k := 0;
      while k < n
        invariant k <= n && buf[..m + k] == old(buf[..m]) + input[at..at + k]
      {
        ghost var done := buf[..m + k];
        buf[m + k] := input[at + k];
        assert buf[..m + k + 1] == done + [input[at + k]];
        OneMore(old(buf[..m]), input, at, k);
        k := k + 1;
      }
    }

    /** `strchr(buf + p, '\n')`; there is a NUL at `m`, and `buf[q] == NUL` stands for a null result. */
    method Strchr(p: nat, m: nat) returns (q: nat)
      requires buf.Length == BUFSIZE && p <= m < BUFSIZE && buf[m] == NUL
      ensures p <= q <= m && '\n' !in buf[p..q] && NulFree(buf[p..q]) && (buf[q] == '\n' || buf[q] == NUL)
    {
      q := p;
      while buf[q] != NUL && buf[q] != '\n'
        invariant p <= q <= m && '\n' !in buf[p..q] && NulFree(buf[p..q])
        decreases m - q
      {
        assert buf[p..q + 1] == buf[p..q] + [buf[q]];
        q := q + 1;
      }
    }

    /** One turn of the inner loop: the line from `p` to the newline at `q`. */
    method Line(pattern: string, p: nat, q: nat, m: nat, sofar: string, ghost input: string, ghost rest: string) returns (out: string)
      requires buf.Length == BUFSIZE && p <= q < m < BUFSIZE && buf[q] == '\n' && '\n' !in buf[p..q] && NulFree(buf[p..q])
      requires OnCourse(pattern, input, sofar, BeforeNul(buf[p..m] + rest))
      modifies buf
      ensures buf[q + 1..] == old(buf[q + 1..]) && OnCourse(pattern, input, out, BeforeNul(buf[q + 1..m] + rest))
    {
      ghost var b := buf[..];
      assert buf[p..m] == b[p..m] && buf[p..q] == b[p..q];
      FirstLine(b, p, q, m, rest);
      LineDone(pattern, input, sofar, b[p..q], BeforeNul(b[q + 1..m] + rest));
      buf[q] := NUL;
      assert buf[..] == b[q := NUL] && buf[p..q] == b[p..q];
      var matched := Match(pattern, buf[p..q]);
      out := sofar;
      if matched {
        buf[q] := '\n';
        assert buf[..] == b && buf[p..q + 1] == b[p..q + 1];
        out := sofar + buf[p..q + 1];
      }
      assert buf[q + 1..] == b[q + 1..] && buf[q + 1..m] == b[q + 1..m];
    }

    /** The inner loop: all lines that end in the first `m` characters, and before a NUL.  `rest` is input not read yet. */
    method ScanLines(pattern: string, m: nat, sofar: string, ghost input: string, ghost rest: string) returns (p: nat, out: string)
      requires buf.Length == BUFSIZE && m < BUFSIZE && buf[m] == NUL
      requires OnCourse(pattern, input, sofar, BeforeNul(buf[0..m] + rest))
      modifies buf
      ensures p <= m && Pending(buf[p..m]) && OnCourse(pattern, input, out, BeforeNul(buf[p..m] + rest))
    {
      p, out := 0, sofar;
      while true
        invariant p <= m && buf[m] == NUL && OnCourse(pattern, input, out, BeforeNul(buf[p..m] + rest))
        decreases m - p
      {
        var q := Strchr(p, m);
        if buf[q] == NUL {
          ghost var b := buf[..];
          assert buf[p..q] == b[p..q] && buf[p..m] == b[p..m];
          NoLine(b, p, q, m);
          return;
        }
        ghost var tail := buf[q + 1..];
        out := Line(pattern, p, q, m, out, input, rest);
        assert buf[m] == tail[m - q - 1];
        p := q + 1;
      }
    }

    /** `memmove(buf, p, m)` */
    method Shift(p: nat, n: nat)
      requires buf.Length == BUFSIZE && p + n <= BUFSIZE
      modifies buf
      ensures buf[..n] == old(buf[p..p + n])
    {
      var k := 0;
      while k < n
        invariant k <= n && forall j :: 0 <= j < k ==> buf[j] == old(buf[p + j])
        invariant forall j :: k <= j < BUFSIZE ==> buf[j] == old(buf[j])
      {
        buf[k] := buf[p + k];
        k := k + 1;
      }
    }

    /** One turn of the outer loop: `n` characters were read behind the `m` that were pending. */
    method Turn(pattern: string, m: nat, n: nat, sofar: string, ghost input: string, ghost rest: string) returns (m': nat, out: string)
      requires buf.Length == BUFSIZE && m + n < BUFSIZE && OnCourse(pattern, input, sofar, BeforeNul(buf[..m + n] + rest))
      modifies buf
      ensures m' < BUFSIZE && Pending(buf[..m']) && OnCourse(pattern, input, out, BeforeNul(buf[..m'] + rest))
    {
      ghost var full := buf[..m + n];
      buf[m + n] := NUL;
      assert buf[0..m + n] == full;
      var p;
      p, out := ScanLines(pattern, m + n, sofar, input, rest);
      ghost var left := buf[p..m + n];
      m' := m + n - p;
      assert buf[p..p + m'] == left;
      Shift(p, m');
    }

    /** A `read` and the lines that it completes. */
    method ReadLines(pattern: string, input: string, at: nat, m: nat, want: nat, sofar: string) returns (n: nat, m': nat, out: string)
      requires buf.Length == BUFSIZE && m < BUFSIZE && at <= |input|
      requires Pending(buf[..m]) && OnCourse(pattern, BeforeNul(input), sofar, BeforeNul(buf[..m] + input[at..]))
      modifies buf
      ensures n == 0 ==> OnCourse(pattern, BeforeNul(input), out, "")
      ensures at + n <= |input| && m' < BUFSIZE && Pending(buf[..m'])
      ensures n > 0 ==> OnCourse(pattern, BeforeNul(input), out, BeforeNul(buf[..m'] + input[at + n..]))
    {
      ghost var pending := buf[..m];
      n := Read(m, input, at, want);
      m', out := 0, sofar;
      if n == 0 {
        Done(pattern, BeforeNul(input), out, pending, input[at..]);
      } else {
        Rejoin(pending, input, at, n);
        m', out := Turn(pattern, m, n, out, BeforeNul(input), input[at + n..]);
      }
    }

    /** The outer loop. */
    method Loop(pattern: string, input: string, sizes: nat -> nat) returns (out: string)
      requires buf.Length == BUFSIZE
      modifies buf
      ensures OnCourse(pattern, BeforeNul(input), out, "")
    {
      var m: nat, at: nat, n: nat, turn: nat := 0, 0, 0, 0;
      out := "";
      Start(pattern, input, buf[..]);
      while true
        invariant m < BUFSIZE && at <= |input| && Pending(buf[..m]) && OnCourse(pattern, BeforeNul(input), out, BeforeNul(buf[..m] + input[at..]))
        decreases |input| - at
      {
        n, m, out := ReadLines(pattern, input, at, m, sizes(turn), out);
        if n == 0 {
          return;
        }
        at, turn := at + n, turn + 1;
      }
    }

    /** `grep`: whatever sizes `read` chooses, the output depends on the input alone, up to its first NUL. */
    method Run(pattern: string, input: string, sizes: nat -> nat) returns (out: string)
      requires buf.Length == BUFSIZE
      modifies buf
      ensures out == Printed(pattern, BeforeNul(input))
    {
      out := Loop(pattern, input, sizes);
      End(pattern, BeforeNul(input), out);
    }
  }
}
