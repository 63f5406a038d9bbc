/** The printer of shell words (shellQuote, internal/agent/clone.go:192-193)
    and the splitter undo each other. */
module ShellRoundTrip {
  import opened Splitter

  /** Every single quote of s replaced by '\'' . */
  function Escape(s: string): string {
    if s == [] then [] else (if s[0] == '\'' then "'\\''" else [s[0]]) + Escape(s[1..])
  }

  /** s in single quotes (section 2.2.2 of the POSIX.1-2017 Shell Command Language). */
  function ShellQuote(s: string): string {
    "'" + Escape(s) + "'"
  }

  /** A command's words, each quoted, with a space between two. */
  function PrintCommand(words: seq<string>): string {
    if words == [] then [] else if |words| == 1 then ShellQuote(words[0])
    else ShellQuote(words[0]) + " " + PrintCommand(words[1..])
  }

  /** Commands with a semicolon between two. */
  function Print(cmds: seq<seq<string>>): string {
    if cmds == [] then [] else if |cmds| == 1 then PrintCommand(cmds[0])
    else PrintCommand(cmds[0]) + ";" + Print(cmds[1..])
  }

  /** What a shell user means by the commands: the guard cuts them at
      standalone braces, which it takes for grouping even when quoted. */
  function Meant(cmds: seq<seq<string>>): seq<seq<string>> {
    if cmds == [] then [] else Pieces(cmds[0], []) + Meant(cmds[1..])
  }

  lemma {:induction false} QuotedReads(m: Mode, w: string, rest: string, x: Lexer, depth: nat)
    requires x.quote.Single? && x.open && m.shell.Bash?
    ensures Scan(m, Escape(w) + "'" + rest, x, depth) == Scan(m, rest, x.(word := x.word + w, quote := Unquoted), depth)
    decreases |w|
  {
    hide Scan, InParens, InTicks, AfterComment, Pieces, Commands;
    var text := Escape(w) + "'" + rest;
    if w == [] {
      assert text == "'" + rest && text[1..] == rest && x.word + w == x.word;
      Unfold(m, text, x, depth);
    } else {
      var after := Escape(w[1..]) + "'" + rest;
      assert x.word + w == (x.word + [w[0]]) + w[1..];
      if w[0] == '\'' {
        assert text == "'" + ("\\'" + ("'" + after));
        QuoteInQuotes(m, after, x, depth);
      } else {
        assert text == [w[0]] + after && text[1..] == after;
        Unfold(m, text, x, depth);
      }
      QuotedReads(m, w[1..], rest, x.(word := x.word + [w[0]]), depth);
    }
  }

  /** A quoted quote: out of the quotes, the quote escaped, and in again. */
  lemma QuoteInQuotes(m: Mode, after: string, x: Lexer, depth: nat)
    requires x.quote.Single? && x.open && m.shell.Bash?
    ensures Scan(m, "'" + ("\\'" + ("'" + after)), x, depth) == Scan(m, after, x.(word := x.word + "'"), depth)
  {
    hide Scan, InParens, InTicks, AfterComment, Pieces, Commands;
    var opens := "'" + after;
    var escaped := "\\'" + opens;
    var closes := "'" + escaped;
    assert closes[1..] == escaped && escaped[2..] == opens && opens[1..] == after;
    var outside := x.(quote := Unquoted);
    Unfold(m, closes, x, depth);
    EscapedQuote(m, escaped, outside);
    Unfold(m, escaped, outside, depth);
    Unfold(m, opens, Write(outside, '\''), depth);
  }

  lemma WordReads(m: Mode, w: string, rest: string, x: Lexer, depth: nat)
    requires x.quote.Unquoted? && !x.open && x.word == [] && m.shell.Bash?
    ensures Scan(m, ShellQuote(w) + rest, x, depth) == Scan(m, rest, x.(word := w, open := true), depth)
  {
    hide Scan, InParens, InTicks, AfterComment, Pieces, Commands;
    var inside := Escape(w) + "'" + rest;
    var text := ShellQuote(w) + rest;
    assert text == "'" + inside && text[1..] == inside;
    Unfold(m, text, x, depth);
    QuotedReads(m, w, rest, x.(quote := Single, open := true), depth);
    assert [] + w == w;
  }

  /** Ready is the lexer between two commands. */
  predicate Ready(x: Lexer) {
    x.quote.Unquoted? && !x.open && x.word == []
  }

  lemma {:induction false} CommandReads(m: Mode, words: seq<string>, rest: string, x: Lexer, depth: nat)
    requires Ready(x) && m.shell.Bash?
    requires rest == [] || rest[0] == ';'
    ensures var cmds := x.cmds + Commands(Pieces(x.words + words, []));
            Scan(m, PrintCommand(words) + rest, x, depth) ==
            if rest == [] then cmds else Scan(m, rest[1..], x.(cmds := cmds, words := []), depth)
    decreases |words|
  {
    hide Scan, Read, PrintCommand, ShellQuote, Pieces, Commands;
    PrintedCommand(words, rest);
    if words == [] {
      assert x.words + words == x.words;
      EndReads(m, rest, x, depth);
    } else if |words| == 1 {
      WordReads(m, words[0], rest, x, depth);
      EndReads(m, rest, x.(word := words[0], open := true), depth);
      assert x.words + [words[0]] == x.words + words;
    } else {
      var more := PrintCommand(words[1..]) + rest;
      WordReads(m, words[0], " " + more, x, depth);
      SpaceReads(m, more, x.(word := words[0], open := true), depth);
      var y := x.(words := x.words + [words[0]]);
      assert x.words + words == y.words + words[1..];
      CommandReads(m, words[1..], rest, y, depth);
    }
  }

  lemma PrintedCommand(words: seq<string>, rest: string)
    ensures PrintCommand(words) + rest ==
            if words == [] then rest
            else if |words| == 1 then ShellQuote(words[0]) + rest
            else ShellQuote(words[0]) + (" " + (PrintCommand(words[1..]) + rest))
  {
    hide ShellQuote;
  }

  lemma SpaceReads(m: Mode, more: string, x: Lexer, depth: nat)
    requires x.quote.Unquoted? && x.open && m.shell.Bash?
    ensures Scan(m, " " + more, x, depth) == Scan(m, more, x.(words := x.words + [x.word], word := "", open := false), depth)
  {
    hide Scan, InParens, InTicks, AfterComment, Pieces, Commands;
    assert (" " + more)[1..] == more;
    Unfold(m, " " + more, x, depth);
  }

  lemma EndReads(m: Mode, rest: string, x: Lexer, depth: nat)
    requires x.quote.Unquoted? && m.shell.Bash? && (rest == [] || rest[0] == ';')
    ensures Scan(m, rest, x, depth) == if rest == [] then EndCommand(x).cmds else Scan(m, rest[1..], EndCommand(x), depth)
  {
  }

  lemma EscapedQuote(m: Mode, rs: string, x: Lexer)
    requires |rs| > 1 && rs[0] == '\\' && rs[1] == '\'' && x.quote.Unquoted? && m.shell.Bash?
    ensures Read(m, rs, x) == Take(2, '\'')
  {
  }

  lemma NothingReads(m: Mode, x: Lexer, depth: nat)
    requires Ready(x) && x.words == []
    ensures Scan(m, [], x, depth) == x.cmds && Commands(Meant([])) == []
  {
  }

  lemma CommandsOfBoth(a: seq<seq<string>>, b: seq<seq<string>>)
    ensures Commands(a + b) == Commands(a) + Commands(b)
  {
  }

  lemma {:induction false} PrintedReads(m: Mode, cmds: seq<seq<string>>, x: Lexer, depth: nat)
    requires Ready(x) && x.words == [] && m.shell.Bash?
    ensures Scan(m, Print(cmds), x, depth) == x.cmds + Commands(Meant(cmds))
    decreases |cmds|
  {
    hide Scan, InParens, InTicks, AfterComment, Pieces;
    if cmds == [] {
      NothingReads(m, x, depth);
    } else {
      assert x.words + cmds[0] == cmds[0];
      if |cmds| == 1 {
        CommandReads(m, cmds[0], [], x, depth);
        assert PrintCommand(cmds[0]) + [] == Print(cmds);
        assert Meant(cmds[1..]) == [] && Meant(cmds) == Pieces(cmds[0], []);
      } else {
        var rest := ";" + Print(cmds[1..]);
        assert PrintCommand(cmds[0]) + rest == Print(cmds) && rest[1..] == Print(cmds[1..]);
        CommandReads(m, cmds[0], rest, x, depth);
        var y := x.(cmds := x.cmds + Commands(Pieces(cmds[0], [])), words := []);
        PrintedReads(m, cmds[1..], y, depth);
        CommandsOfBoth(Pieces(cmds[0], []), Meant(cmds[1..]));
        assert y.cmds + Commands(Meant(cmds[1..])) == x.cmds + (Commands(Pieces(cmds[0], [])) + Commands(Meant(cmds[1..])));
      }
    }
  }

  lemma {:induction false} FlatCommands(cs: seq<seq<string>>)
    ensures Flat(Commands(cs)) == cs
  {
    if cs != [] {
      assert Commands(cs)[1..] == Commands(cs[1..]);
      FlatCommands(cs[1..]);
      assert cs == [cs[0]] + cs[1..];
    }
  }

  /** Printing commands and splitting the line as bash does gives the commands
      back, cut only at words that are a lone brace. */
  lemma PrintThenSplit(crlf: bool, cmds: seq<seq<string>>)
    ensures Flat(Split(Mode(Bash, crlf), Print(cmds), 0)) == Meant(cmds)
  {
    PrintedReads(Mode(Bash, crlf), cmds, START, 0);
    FlatCommands(Meant(cmds));
    assert [] + Commands(Meant(cmds)) == Commands(Meant(cmds));
  }

  lemma {:induction false} PiecesOfPlain(words: seq<string>, kept: seq<string>)
    requires forall w :: w in words ==> !IsBrace(w)
    ensures Pieces(words, kept) == if kept + words == [] then [] else [kept + words]
    decreases |words|
  {
    if words != [] {
      PiecesOfPlain(words[1..], kept + [words[0]]);
      assert kept + [words[0]] + words[1..] == kept + words;
    } else {
      assert kept + words == kept;
    }
  }

  lemma {:induction false} PiecesNeverBrace(words: seq<string>, kept: seq<string>)
    requires forall w :: w in kept ==> !IsBrace(w)
    ensures forall c, w :: c in Pieces(words, kept) && w in c ==> !IsBrace(w)
    ensures forall c :: c in Pieces(words, kept) ==> c != []
    decreases |words|
  {
    if words != [] {
      if IsBrace(words[0]) {
        PiecesNeverBrace(words[1..], []);
      } else {
        PiecesNeverBrace(words[1..], kept + [words[0]]);
      }
    }
  }

  /** A command that comes back whole. */
  predicate Plain(cmd: seq<string>) {
    cmd != [] && "{" !in cmd && "}" !in cmd
  }

  lemma {:induction false} MeantIsPlain(cmds: seq<seq<string>>)
    ensures forall c :: c in Meant(cmds) ==> Plain(c)
  {
    if cmds != [] {
      PiecesNeverBrace(cmds[0], []);
      MeantIsPlain(cmds[1..]);
    }
  }

  lemma {:induction false} PlainMeansItself(cmds: seq<seq<string>>)
    requires forall c :: c in cmds ==> Plain(c)
    ensures Meant(cmds) == cmds
  {
    if cmds != [] {
      assert Plain(cmds[0]);
      PiecesOfPlain(cmds[0], []);
      assert [] + cmds[0] == cmds[0];
      PlainMeansItself(cmds[1..]);
      assert cmds == [cmds[0]] + cmds[1..];
    }
  }

  /** The printer and the splitter undo each other exactly on commands of at
      least one word, none of them a lone brace. */
  lemma PrintedCommandsComeBack(crlf: bool, cmds: seq<seq<string>>)
    ensures Flat(Split(Mode(Bash, crlf), Print(cmds), 0)) == cmds <==> forall c :: c in cmds ==> Plain(c)
  {
    PrintThenSplit(crlf, cmds);
    MeantIsPlain(cmds);
    if forall c :: c in cmds ==> Plain(c) {
      PlainMeansItself(cmds);
    }
  }

  /** Two lists of such commands print to different lines. */
  lemma PrintIsInjective(a: seq<seq<string>>, b: seq<seq<string>>)
    requires forall c :: c in a + b ==> Plain(c)
    requires Print(a) == Print(b)
    ensures a == b
  {
    assert forall c :: c in a ==> c in a + b;
    assert forall c :: c in b ==> c in a + b;
    PrintedCommandsComeBack(false, a);
    PrintedCommandsComeBack(false, b);
  }
}
