/** The guard's command splitter (internal/agent/guard.go:217-472), a
    hand-written lexer, as the function it computes: over the rest of the line
    it has not read, since it never looks back. */
module Splitter {

  datatype Shell = Bash | PowerShell | Cmd

  datatype Quoting = Unquoted | Single | Double

  /** One command as its words, or a bash subshell with its own segments. */
  datatype Segment = Command(words: seq<string>) | Subshell(inner: seq<Segment>)

  /** What the lexer holds between two characters. */
  datatype Lexer = Lexer(cmds: seq<Segment>, words: seq<string>, word: string, open: bool, quote: Quoting)

  /** The shell, and whether bash continues a line at a backslash before CR LF. */
  datatype Mode = Mode(shell: Shell, crlf: bool)

  const MAX_DEPTH := 8
  const TOO_DEEP: string := [0 as char] + "too-deep"
  const START := Lexer([], [], "", false, Unquoted)

  function EscapeChar(shell: Shell): char {
    if shell.PowerShell? then '`' else '\\'
  }

  function Escaped(shell: Shell): string {
    if shell.Bash? then "\"' \\`$();&|<>!#" else "\"' \\`$"
  }

  const ESCAPED_IN_DOUBLE := "\"\\`$"

  /** Where the quoted text that starts rs ends: the closing q, or past it all. */
  function QuotedLength(rs: string, q: char, escape: char): (n: nat)
    ensures n <= |rs| + 1
  {
    if rs == [] then 0
    else if rs[0] == q then 0
    else if q == '"' && rs[0] == escape then (if |rs| == 1 then 2 else 2 + QuotedLength(rs[2..], q, escape))
    else 1 + QuotedLength(rs[1..], q, escape)
  }

  /** How much of rs is inside the parentheses its text is nested in, depth of
      them open: up to the one that closes them, or all of it. */
  function InParens(rs: string, depth: nat, escape: char): (n: nat)
    requires depth > 0
    ensures n <= |rs|
    ensures n < |rs| ==> rs[n] == ')'
    decreases |rs|
  {
    if rs == [] then 0
    else if rs[0] == escape then (if |rs| == 1 then 1 else 2 + InParens(rs[2..], depth, escape))
    else if rs[0] == '\'' || rs[0] == '"' then
      var n := 2 + QuotedLength(rs[1..], rs[0], escape);
      if n >= |rs| then |rs| else n + InParens(rs[n..], depth, escape)
    else if rs[0] == '(' then 1 + InParens(rs[1..], depth + 1, escape)
    else if rs[0] == ')' && depth == 1 then 0
    else if rs[0] == ')' then 1 + InParens(rs[1..], depth - 1, escape)
    else 1 + InParens(rs[1..], depth, escape)
  }

  /** How much of rs is inside a backquote pair. */
  function InTicks(rs: string): (n: nat)
    ensures n <= |rs|
    ensures n < |rs| ==> rs[n] == '`'
  {
    if rs == [] then 0
    else if rs[0] == '\\' then (if |rs| == 1 then 1 else 2 + InTicks(rs[2..]))
    else if rs[0] == '`' then 0
    else 1 + InTicks(rs[1..])
  }

  /** What follows a comment: its newline, or nothing. */
  function AfterComment(rs: string): (rest: string)
    ensures |rest| <= |rs|
    ensures rest != [] ==> rest[0] == '\n'
  {
    if rs == [] || rs[0] == '\n' then rs else AfterComment(rs[1..])
  }

  predicate IsBrace(w: string) {
    w == "{" || w == "}"
  }

  /** A command's words cut at standalone braces, kept being the words since the last. */
  function Pieces(words: seq<string>, kept: seq<string>): (cs: seq<seq<string>>)
    decreases |words|
  {
    if words == [] then (if kept == [] then [] else [kept])
    else if IsBrace(words[0]) then (if kept == [] then [] else [kept]) + Pieces(words[1..], [])
    else Pieces(words[1..], kept + [words[0]])
  }

  function Commands(cs: seq<seq<string>>): (segs: seq<Segment>)
    ensures |segs| == |cs|
  {
    seq(|cs|, i requires 0 <= i < |cs| => Command(cs[i]))
  }

  function EndWord(x: Lexer): Lexer {
    x.(words := if x.open then x.words + [x.word] else x.words, word := "", open := false)
  }

  function EndCommand(x: Lexer): Lexer {
    var y := EndWord(x);
    y.(cmds := y.cmds + Commands(Pieces(y.words, [])), words := [])
  }

  function Write(x: Lexer, c: char): Lexer {
    x.(word := x.word + [c], open := true)
  }

  /** How one kind of text after the lexer's place reads. */
  datatype Reading =
    | Skip(n: nat)                                // n characters, nothing written
    | Take(n: nat, c: char)                       // n characters, one written
    | Quote(q: Quoting)                           // a quote opens or closes
    | Nest(text: string, n: nat, mark: string)    // a substitution in a word
    | Group(text: string, n: nat)                 // a bash group that starts a command
    | CommandEnd | WordEnd

  /** The lexer's decision at the first character of rs, in the lexer's order. */
  function Read(m: Mode, rs: string, x: Lexer): (r: Reading)
    requires rs != []
    ensures r.Skip? || r.Take? || r.Nest? || r.Group? ==> r.n > 0
    ensures r.Skip? || r.Take? ==> r.n <= |rs|
    ensures r.Nest? || r.Group? ==> |r.text| < |rs|
  {
    var c := rs[0];
    var escape := EscapeChar(m.shell);
    if x.quote.Single? then
      if c == '\'' then Quote(Unquoted) else Take(1, c)
    else if m.shell.Bash? && c == '\\' && |rs| > 1 && rs[1] == '\n' then Skip(2)
    else if m.shell.Bash? && c == '\\' && |rs| > 2 && rs[1] == '\r' && rs[2] == '\n' && m.crlf then Skip(3)
    else if x.quote.Double? && c == escape && |rs| > 1 && rs[1] in ESCAPED_IN_DOUBLE then Take(2, rs[1])
    else if x.quote.Unquoted? && c == escape && |rs| > 1 && rs[1] in Escaped(m.shell) then Take(2, rs[1])
    else if c == '$' && |rs| > 1 && rs[1] == '(' then
      var n := InParens(rs[2..], 1, escape);
      Nest(rs[2..2 + n], n + 3, "$(")
    else if c == '`' && m.shell.Bash? then
      var n := InTicks(rs[1..]);
      Nest(rs[1..1 + n], n + 2, "`")
    else if x.quote.Double? then
      if c == '"' then Quote(Unquoted) else Take(1, c)
    else if c == '\'' then Quote(Single)
    else if c == '"' then Quote(Double)
    else if c == '(' && m.shell.PowerShell? then
      var n := InParens(rs[1..], 1, escape);
      Nest(rs[1..1 + n], n + 2, "$(")
    else if c == '(' && m.shell.Bash? then
      var n := InParens(rs[1..], 1, escape);
      if x.open || x.words != [] then Nest(rs[1..1 + n], n + 2, "$(") else Group(rs[1..1 + n], n + 2)
    else if c == ';' || c == '&' || c == '|' || c == '\n' || c == '\r' || c == '(' || c == ')' then CommandEnd
    else if c == ' ' || c == '\t' then WordEnd
    else if c == '#' && !x.open && m.shell.Bash? then Skip(|rs| - |AfterComment(rs[1..])|)
    else Take(1, c)
  }

  function Drop(rs: string, n: nat): (rest: string)
    ensures n > 0 && rs != [] ==> |rest| < |rs|
  {
    if n <= |rs| then rs[n..] else []
  }

  /** A nested text's segments: a subshell in bash, the same scope elsewhere. */
  function Nested(m: Mode, segs: seq<Segment>): seq<Segment> {
    if m.shell.Bash? then [Subshell(segs)] else segs
  }

  /** The segments of a line. */
  function Split(m: Mode, line: string, depth: nat): seq<Segment>
    decreases |line|, 1
  {
    if depth > MAX_DEPTH then [Command([TOO_DEEP])] else Scan(m, line, START, depth)
  }

  /** The segments once the lexer x has read rs, the rest of the line. */
  function Scan(m: Mode, rs: string, x: Lexer, depth: nat): seq<Segment>
    decreases |rs|, 0
  {
    if rs == [] then EndCommand(x).cmds
    else
      match Read(m, rs, x)
      case Skip(n) => Scan(m, Drop(rs, n), x, depth)
      case Take(n, c) => Scan(m, Drop(rs, n), Write(x, c), depth)
      case Quote(q) => Scan(m, Drop(rs, 1), x.(quote := q, open := true), depth)
      case Nest(text, n, mark) =>
        Scan(m, Drop(rs, n), x.(cmds := x.cmds + Nested(m, Split(m, text, depth + 1)), word := x.word + mark, open := true), depth)
      case Group(text, n) => Scan(m, Drop(rs, n), x.(cmds := x.cmds + Nested(m, Split(m, text, depth + 1))), depth)
      case CommandEnd => Scan(m, Drop(rs, 1), EndCommand(x), depth)
      case WordEnd => Scan(m, Drop(rs, 1), EndWord(x), depth)
  }

  /** splitCommands: the commands in the order the shell runs them. */
  function Flat(segs: seq<Segment>): seq<seq<string>> {
    if segs == [] then []
    else (match segs[0] case Command(words) => [words] case Subshell(inner) => Flat(inner)) + Flat(segs[1..])
  }

  // The lexer as the loops that compute it.

  /** The index of the quote that ends the text from i, or one past the line. */
  method SkipQuoted(rs: string, from: nat, escape: char) returns (i: nat)
    requires 0 < from <= |rs|
    ensures i == from + QuotedLength(rs[from..], rs[from - 1], escape)
  {
    var q := rs[from - 1];
    i := from;
    while i < |rs| && rs[i] != q
      invariant from <= i
      invariant QuotedLength(rs[from..], q, escape) == i - from + (if i <= |rs| then QuotedLength(rs[i..], q, escape) else 0)
      decreases |rs| - i
    {
      ghost var rest := rs[i..];
      if q == '"' && rs[i] == escape {
        assert |rest| > 1 ==> rest[2..] == rs[i + 2..];
        i := i + 2;
      } else {
        assert rest[1..] == rs[i + 1..];
        i := i + 1;
      }
    }
  }

  /** InParens counted from the line's start. */
  function ParenEnd(rs: string, i: nat, depth: nat, escape: char): nat
    requires depth > 0
  {
    if i <= |rs| then i + InParens(rs[i..], depth, escape) else |rs|
  }

  lemma ParenStep(rs: string, i: nat, depth: nat, escape: char)
    requires i < |rs| && depth > 0
    ensures ParenEnd(rs, i, depth, escape) ==
            if rs[i] == escape then ParenEnd(rs, i + 2, depth, escape)
            else if rs[i] == '\'' || rs[i] == '"' then
              ParenEnd(rs, i + 2 + QuotedLength(rs[i + 1..], rs[i], escape), depth, escape)
            else if rs[i] == '(' then ParenEnd(rs, i + 1, depth + 1, escape)
            else if rs[i] == ')' && depth == 1 then i
            else ParenEnd(rs, i + 1, if rs[i] == ')' then depth - 1 else depth, escape)
  {
    var tail := rs[i..];
    assert tail[1..] == rs[i + 1..];
    if rs[i] == escape {
      assert |tail| > 1 ==> tail[2..] == rs[i + 2..];
    } else if rs[i] == '\'' || rs[i] == '"' {
      var n := 2 + QuotedLength(tail[1..], tail[0], escape);
      assert n < |tail| ==> tail[n..] == rs[i + n..];
      assert n == |tail| ==> rs[i + n..] == [];
    }
  }

  /** closingParen: the index of the ")" that closes, or the line's length. */
  method ClosingParen(rs: string, from: nat, escape: char) returns (end: nat)
    requires from <= |rs|
    ensures end == ParenEnd(rs, from, 1, escape)
  {
    hide InParens, QuotedLength;
    var depth, i := 1, from;
    while i < |rs|
      invariant from <= i && depth > 0
      invariant ParenEnd(rs, from, 1, escape) == ParenEnd(rs, i, depth, escape)
      decreases |rs| - i
    {
      ParenStep(rs, i, depth, escape);
      if rs[i] == escape {
        i := i + 1;
      } else if rs[i] == '\'' || rs[i] == '"' {
        i := SkipQuoted(rs, i + 1, escape);
      } else if rs[i] == '(' {
        depth := depth + 1;
      } else if rs[i] == ')' {
        depth := depth - 1;
        if depth == 0 {
          return i;
        }
      }
      i := i + 1;
    }
    ParenEndPast(rs, i, depth, escape);
    return |rs|;
  }

  lemma ParenEndPast(rs: string, i: nat, depth: nat, escape: char)
    requires i >= |rs| && depth > 0
    ensures ParenEnd(rs, i, depth, escape) == |rs|
  {
  }

  /** closingTick: the index of the backquote that closes, or the line's length. */
  method ClosingTick(rs: string, from: nat) returns (end: nat)
    requires from <= |rs|
    ensures end == from + InTicks(rs[from..])
  {
    var i := from;
    while i < |rs|
      invariant from <= i
      invariant from + InTicks(rs[from..]) == (if i <= |rs| then i + InTicks(rs[i..]) else |rs|)
      decreases |rs| - i
    {
      ghost var tail := rs[i..];
      if rs[i] == '\\' {
        assert |tail| > 1 ==> tail[2..] == rs[i + 2..];
        i := i + 2;
      } else if rs[i] == '`' {
        return i;
      } else {
        assert tail[1..] == rs[i + 1..];
        i := i + 1;
      }
    }
    return |rs|;
  }

  /** endCmd's loop: the words cut into commands at standalone braces. */
  method CutAtBraces(words: seq<string>) returns (segs: seq<Segment>)
    ensures segs == Commands(Pieces(words, []))
  {
    segs := [];
    var kept: seq<string> := [];
    var i := 0;
    while i < |words|
      invariant 0 <= i <= |words|
      invariant Commands(Pieces(words, [])) == segs + Commands(Pieces(words[i..], kept))
    {
      assert words[i..][1..] == words[i + 1..];
      if IsBrace(words[i]) {
        if |kept| > 0 {
          assert Commands([kept] + Pieces(words[i + 1..], [])) == [Command(kept)] + Commands(Pieces(words[i + 1..], []));
          segs := segs + [Command(kept)];
        }
        kept := [];
      } else {
        kept := kept + [words[i]];
      }
      i := i + 1;
    }
    if |kept| > 0 {
      segs := segs + [Command(kept)];
    }
  }

  /** The segments after the lexer x, at rs[i], took the reading r. */
  function Onward(m: Mode, rs: string, i: nat, r: Reading, x: Lexer, depth: nat): seq<Segment> {
    match r
    case Skip(n) => Scan(m, Drop(rs, i + n), x, depth)
    case Take(n, c) => Scan(m, Drop(rs, i + n), Write(x, c), depth)
    case Quote(q) => Scan(m, Drop(rs, i + 1), x.(quote := q, open := true), depth)
    case Nest(text, n, mark) =>
      Scan(m, Drop(rs, i + n), x.(cmds := x.cmds + Nested(m, Split(m, text, depth + 1)), word := x.word + mark, open := true), depth)
    case Group(text, n) => Scan(m, Drop(rs, i + n), x.(cmds := x.cmds + Nested(m, Split(m, text, depth + 1))), depth)
    case CommandEnd => Scan(m, Drop(rs, i + 1), EndCommand(x), depth)
    case WordEnd => Scan(m, Drop(rs, i + 1), EndWord(x), depth)
  }

  lemma Advance(m: Mode, rs: string, i: nat, x: Lexer, depth: nat)
    requires i < |rs|
    ensures Scan(m, Drop(rs, i), x, depth) == Onward(m, rs, i, Read(m, rs[i..], x), x, depth)
  {
  }

  /** One reading of Scan. */
  lemma Unfold(m: Mode, rs: string, x: Lexer, depth: nat)
    requires rs != []
    ensures Scan(m, rs, x, depth) == Onward(m, rs, 0, Read(m, rs, x), x, depth)
  {
  }

  predicate EndsCommand(r: char) {
    r == ';' || r == '&' || r == '|' || r == '\n' || r == '\r' || r == '(' || r == ')'
  }

  /** The reading outside quotes, escapes and substitutions. */
  lemma PlainReading(m: Mode, rs: string, i: nat, x: Lexer)
    requires i < |rs| && !Substitutes(m, rs, i, x) && x.quote.Unquoted?
    requires rs[i] != '\'' && rs[i] != '"' && rs[i] != EscapeChar(m.shell)
    ensures rs[i..][1..] == rs[i + 1..]
    ensures Read(m, rs[i..], x) ==
            if EndsCommand(rs[i]) then CommandEnd
            else if rs[i] == ' ' || rs[i] == '\t' then WordEnd
            else if rs[i] == '#' && !x.open && m.shell.Bash? then Skip(|rs| - i - |AfterComment(rs[i + 1..])|)
            else Take(1, rs[i])
  {
  }

  /** The reading of a substitution or a group. */
  lemma NestedReading(m: Mode, rs: string, i: nat, x: Lexer)
    requires i < |rs| && Substitutes(m, rs, i, x)
    ensures Read(m, rs[i..], x) ==
            var end := SubstitutionEnd(m, rs, i);
            if rs[i] == '$' then Nest(rs[i + 2..end], end + 1 - i, "$(")
            else if rs[i] == '`' then Nest(rs[i + 1..end], end + 1 - i, "`")
            else if m.shell.PowerShell? || x.open || x.words != [] then Nest(rs[i + 1..end], end + 1 - i, "$(")
            else Group(rs[i + 1..end], end + 1 - i)
  {
    var rest, end := rs[i..], SubstitutionEnd(m, rs, i);
    if rs[i] == '$' {
      assert rest[2..] == rs[i + 2..] && rs[i + 2..end] == rest[2..end - i];
    } else {
      assert rest[1..] == rs[i + 1..] && rs[i + 1..end] == rest[1..end - i];
    }
  }

  /** Where the substitution at rs[i] ends. */
  function SubstitutionEnd(m: Mode, rs: string, i: nat): (end: nat)
    requires i < |rs| && ((rs[i] == '$' && i + 1 < |rs|) || rs[i] == '`' || rs[i] == '(')
    ensures i < end <= |rs|
    ensures rs[i] == '$' ==> i + 2 <= end
  {
    if rs[i] == '$' then ParenEnd(rs, i + 2, 1, EscapeChar(m.shell))
    else if rs[i] == '`' then i + 1 + InTicks(rs[i + 1..])
    else ParenEnd(rs, i + 1, 1, EscapeChar(m.shell))
  }

  lemma ScanEnds(m: Mode, rs: string, i: nat, x: Lexer, depth: nat)
    ensures i >= |rs| ==> Scan(m, Drop(rs, i), x, depth) == EndCommand(x).cmds
    ensures depth <= MAX_DEPTH ==> Split(m, rs, depth) == Scan(m, Drop(rs, 0), START, depth)
  {
  }

  /** splitSegments: one pass over the line, a call for each nested text, which
      is always shorter than the line. */
  method SplitSegments(m: Mode, line: string, depth: nat) returns (segs: seq<Segment>)
    ensures segs == Split(m, line, depth)
    decreases |line|, 2
  {
    if depth > MAX_DEPTH {
      return [Command([TOO_DEEP])];
    }
    hide Scan, Split, InParens, InTicks, EndCommand, AfterComment, Read, Drop, Onward;
    var rs, i, x := line, 0, START;
    ScanEnds(m, rs, i, x, depth);
    while i < |rs|
      invariant x.quote != Unquoted ==> x.open
      invariant Split(m, line, depth) == Scan(m, Drop(rs, i), x, depth)
      decreases |rs| - i
    {
      i, x := Character(m, rs, i, x, depth);
      i := i + 1;
    }
    ScanEnds(m, rs, i, x, depth);
    x := EndCmd(x);
    segs := x.cmds;
  }

  /** The text at rs[i], by what it is; i is left at the last character read. */
  method Character(m: Mode, rs: string, i: nat, x: Lexer, depth: nat) returns (end: nat, y: Lexer)
    requires i < |rs| && (x.quote != Unquoted ==> x.open)
    ensures i <= end && (y.quote != Unquoted ==> y.open)
    ensures Scan(m, Drop(rs, i), x, depth) == Scan(m, Drop(rs, end + 1), y, depth)
    decreases |rs|, 1
  {
    hide Scan, Split, InParens, InTicks, EndCommand, AfterComment, Read, Drop, Onward, Substitutes;
    Advance(m, rs, i, x, depth);
    var r := rs[i];
    if Substitutes(m, rs, i, x) {
      end, y := Substitute(m, rs, i, x, depth);
    } else if x.quote != Unquoted || r == '\'' || r == '"' || r == EscapeChar(m.shell) {
      end, y := QuoteOrEscape(m, rs, i, x, depth);
    } else {
      end, y := Plain(m, rs, i, x, depth);
    }
  }

  /** A character outside quotes, escapes and substitutions; i is left at the
      last one read. */
  method Plain(m: Mode, rs: string, i: nat, x: Lexer, depth: nat) returns (end: nat, y: Lexer)
    requires i < |rs| && !Substitutes(m, rs, i, x) && x.quote.Unquoted?
    requires rs[i] != '\'' && rs[i] != '"' && rs[i] != EscapeChar(m.shell)
    ensures i <= end && y.quote.Unquoted?
    ensures Onward(m, rs, i, Read(m, rs[i..], x), x, depth) == Scan(m, Drop(rs, end + 1), y, depth)
  {
    hide Scan, Split, Read, EndCommand, AfterComment;
    PlainReading(m, rs, i, x);
    var r := rs[i];
    end, y := i, x;
    if EndsCommand(r) {
      y := EndCmd(x);
    } else if r == ' ' || r == '\t' {
      y := EndWord(x);
    } else if r == '#' && !x.open && m.shell == Bash {
      end := SkipComment(rs, i);
    } else {
      y := Write(x, r);
    }
  }

  /** endCmd. */
  method EndCmd(x: Lexer) returns (y: Lexer)
    ensures y == EndCommand(x) && y.quote == x.quote
  {
    y := EndWord(x);
    var cut := CutAtBraces(y.words);
    y := y.(cmds := y.cmds + cut, words := []);
  }

  /** Whether a substitution or a group starts at rs[i]. */
  predicate Substitutes(m: Mode, rs: string, i: nat, x: Lexer)
    requires i < |rs|
  {
    && !x.quote.Single?
    && ((rs[i] == '$' && i + 1 < |rs| && rs[i + 1] == '(')
        || (rs[i] == '`' && m.shell.Bash?)
        || (rs[i] == '(' && x.quote.Unquoted? && !m.shell.Cmd?))
  }

  method FindEnd(m: Mode, rs: string, i: nat) returns (end: nat)
    requires i < |rs| && ((rs[i] == '$' && i + 1 < |rs|) || rs[i] == '`' || rs[i] == '(')
    ensures end == SubstitutionEnd(m, rs, i)
  {
    hide InParens, InTicks, ParenEnd;
    if rs[i] == '$' {
      end := ClosingParen(rs, i + 2, EscapeChar(m.shell));
    } else if rs[i] == '`' {
      end := ClosingTick(rs, i + 1);
    } else {
      end := ClosingParen(rs, i + 1, EscapeChar(m.shell));
    }
  }

  /** A substitution's or a group's text, split on its own; i is left at its end. */
  method Substitute(m: Mode, rs: string, i: nat, x: Lexer, depth: nat) returns (end: nat, y: Lexer)
    requires i < |rs| && Substitutes(m, rs, i, x)
    ensures i <= end && y.quote == x.quote && (x.open ==> y.open)
    ensures Onward(m, rs, i, Read(m, rs[i..], x), x, depth) == Scan(m, Drop(rs, end + 1), y, depth)
    decreases |rs|, 0
  {
    hide Scan, Split, Read, SubstitutionEnd, Drop;
    NestedReading(m, rs, i, x);
    var r := rs[i];
    end := FindEnd(m, rs, i);
    y := x;
    var from := if r == '$' then i + 2 else i + 1;
    var inner := SplitSegments(m, rs[from..end], depth + 1);
    y := y.(cmds := y.cmds + Nested(m, inner));
    if r == '$' || (r == '(' && (m.shell == PowerShell || x.open || |x.words| > 0)) {
      y := y.(word := y.word + "$(", open := true);
    } else if r == '`' {
      y := y.(word := y.word + "`", open := true);
    }
  }

  /** A character in quotes, a quote, or an escape; i is left at the last one read. */
  method QuoteOrEscape(m: Mode, rs: string, i: nat, x: Lexer, depth: nat) returns (end: nat, y: Lexer)
    requires i < |rs| && !Substitutes(m, rs, i, x) && (x.quote != Unquoted ==> x.open)
    requires x.quote != Unquoted || rs[i] == '\'' || rs[i] == '"' || rs[i] == EscapeChar(m.shell)
    ensures i <= end && (y.quote != Unquoted ==> y.open)
    ensures Onward(m, rs, i, Read(m, rs[i..], x), x, depth) == Scan(m, Drop(rs, end + 1), y, depth)
  {
    hide Scan, Split;
    var r, escape := rs[i], EscapeChar(m.shell);
    end, y := i, x;
    if x.quote == Single {
      if r == '\'' {
        y := y.(quote := Unquoted);
      } else {
        y := y.(word := y.word + [r]);
      }
    } else if m.shell == Bash && r == '\\' && i + 1 < |rs| && rs[i + 1] == '\n' {
      end := i + 1;
    } else if m.shell == Bash && r == '\\' && i + 2 < |rs| && rs[i + 1] == '\r' && rs[i + 2] == '\n' && m.crlf {
      end := i + 2;
    } else if (x.quote == Double && r == escape && i + 1 < |rs| && rs[i + 1] in ESCAPED_IN_DOUBLE)
              || (x.quote == Unquoted && r == escape && i + 1 < |rs| && rs[i + 1] in Escaped(m.shell)) {
      end := i + 1;
      y := y.(word := y.word + [rs[i + 1]], open := true);
    } else if x.quote == Double {
      if r == '"' {
        y := y.(quote := Unquoted);
      } else {
        y := y.(word := y.word + [r]);
      }
    } else if r == '\'' || r == '"' {
      y := y.(quote := if r == '"' then Double else Single, open := true);
    } else {
      y := y.(word := y.word + [r], open := true);
    }
  }

  method SkipComment(rs: string, from: nat) returns (i: nat)
    requires from < |rs|
    ensures from <= i < |rs|
    ensures AfterComment(rs[from + 1..]) == rs[i + 1..]
  {
    i := from;
    while i + 1 < |rs| && rs[i + 1] != '\n'
      invariant from <= i < |rs|
      invariant AfterComment(rs[from + 1..]) == AfterComment(rs[i + 1..])
    {
      assert rs[i + 1..][1..] == rs[i + 2..];
      i := i + 1;
    }
  }
}
