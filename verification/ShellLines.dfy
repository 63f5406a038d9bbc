/** What the guard's splitter makes of a command line however it is written
    (internal/agent/guard.go:285-431). */
module ShellLines {
  import opened Splitter
  import opened ShellRoundTrip
  import opened ShellText
  import opened ShellEnds

  /** The lexer once it read a part. */
  function Past(x: Lexer, before: seq<Segment>, text: string): Lexer {
    x.(cmds := x.cmds + before, word := x.word + text, open := true)
  }

  lemma PastBoth(x: Lexer, a: seq<Segment>, s: string, b: seq<Segment>, t: string)
    ensures Past(Past(x, a, s), b, t) == Past(x, a + b, s + t)
  {
    assert x.cmds + a + b == x.cmds + (a + b) && x.word + s + t == x.word + (s + t);
  }

  lemma {:induction false} SinglesRead(m: Mode, s: string, rest: string, x: Lexer, depth: nat)
    requires '\'' !in s && x.quote.Single? && x.open
    ensures Scan(m, s + ("'" + rest), x, depth) == Scan(m, rest, Past(x, [], s).(quote := Unquoted), depth)
    decreases |s|
  {
    hide Scan, InParens, InTicks, AfterComment, Pieces, Commands;
    var text := s + ("'" + rest);
    Unfold(m, text, x, depth);
    if s == "" {
      assert text[1..] == rest && x.word + s == x.word && x.cmds + [] == x.cmds;
    } else {
      assert text[1..] == s[1..] + ("'" + rest);
      SinglesRead(m, s[1..], rest, x.(word := x.word + [s[0]]), depth);
      assert x.word + [s[0]] + s[1..] == x.word + s;
    }
  }

  /** A substitution in a word, quoted or not. */
  lemma NestReads(m: Mode, rs: string, text: string, n: nat, mark: string, rest: string, x: Lexer, depth: nat)
    requires rs != [] && n <= |rs| && rs[n..] == rest && Read(m, rs, x) == Nest(text, n, mark)
    ensures Scan(m, rs, x, depth) == Scan(m, rest, Past(x, Scoped(m, Split(m, text, depth + 1)), mark), depth)
  {
    hide Scan, Split, Read, Pieces, Commands;
    Unfold(m, rs, x, depth);
  }

  /** A part in parentheses ends where they close. */
  lemma ParensEnd(m: Mode, body: seq<Item>, rest: string)
    requires Ok(m, body)
    ensures InParens(Text(m, body) + (")" + rest), 1, Esc(m)) == |Text(m, body)|
  {
    hide InParens, Text, Ok;
    TextNeutral(m, body);
    ParenOpens(m, rest, 1);
  }

  lemma SubstRead(m: Mode, body: seq<Item>, rest: string, x: Lexer)
    requires Ok(m, body) && !x.quote.Single?
    ensures Read(m, "$(" + Text(m, body) + ")" + rest, x) == Nest(Text(m, body), |Text(m, body)| + 3, "$(")
  {
    hide InParens, Text, Ok;
    var t := Text(m, body);
    var rs := "$(" + t + ")" + rest;
    ParensEnd(m, body, rest);
    assert rs[2..] == t + (")" + rest) && rs[0] == '$' && rs[1] == '(';
    assert rs[2..2 + |t|] == t;
  }

  lemma ParensRead(m: Mode, body: seq<Item>, rest: string, x: Lexer)
    requires Ok(m, body) && x.quote.Unquoted? && !m.shell.Cmd?
    ensures var t := Text(m, body);
            Read(m, "(" + t + ")" + rest, x) ==
            if m.shell == PowerShell || x.open || x.words != [] then Nest(t, |t| + 2, "$(") else Group(t, |t| + 2)
  {
    hide InParens, Text, Ok;
    var t := Text(m, body);
    var rs := "(" + t + ")" + rest;
    ParensEnd(m, body, rest);
    assert rs[1..] == t + (")" + rest) && rs[0] == '(';
    assert rs[1..1 + |t|] == t;
  }

  lemma TicksRead(m: Mode, body: seq<Item>, rest: string, x: Lexer)
    requires Ok(m, body) && '`' !in Text(m, body) && !x.quote.Single? && m.shell == Bash
    ensures Read(m, "`" + Text(m, body) + "`" + rest, x) == Nest(Text(m, body), |Text(m, body)| + 2, "`")
  {
    hide InTicks, Text, Ok;
    var t := Text(m, body);
    var rs := "`" + t + "`" + rest;
    TextSkips(m, '`', body);
    assert InTicks("`" + rest) == 0 by { TickCloses(rest); }
    assert rs[1..] == t + ("`" + rest) && rs[0] == '`';
    assert rs[1..1 + |t|] == t;
  }

  lemma TickCloses(rest: string)
    ensures InTicks("`" + rest) == 0
  {
  }

  /** What the escape character does before c. */
  lemma EscapeRead(m: Mode, c: char, rest: string, x: Lexer)
    requires !x.quote.Single? && c != '\n' && c != '\r'
    ensures x.quote.Double? ==>
              Read(m, [Esc(m), c] + rest, x) == if DoubleEscapable(c) then Take(2, c) else Read(m, [Esc(m), c] + rest, x)
    ensures x.quote.Unquoted? && Escapable(m, c) ==> Read(m, [Esc(m), c] + rest, x) == Take(2, c)
    ensures (x.quote.Double? && !DoubleEscapable(c)) || (x.quote.Unquoted? && !Escapable(m, c)) ==> Read(m, [Esc(m), c] + rest, x) == Take(1, Esc(m))
  {
    hide InParens, InTicks, AfterComment;
    var rs := [Esc(m), c] + rest;
    assert rs[0] == Esc(m) && rs[1] == c && EscapeChar(m.shell) == Esc(m);
    assert c in ESCAPED_IN_DOUBLE <==> DoubleEscapable(c) by { DoubleSet(c); }
    assert c in Escaped(m.shell) <==> Escapable(m, c) by { EscapeSet(m, c); }
  }

  lemma DoubleSet(c: char)
    ensures c in ESCAPED_IN_DOUBLE <==> DoubleEscapable(c)
  {
    var e := ESCAPED_IN_DOUBLE;
    assert e[0] == '"' && e[1] == '\\' && e[2] == '`' && e[3] == '$';
  }

  lemma EscapeSet(m: Mode, c: char)
    ensures c in Escaped(m.shell) <==> Escapable(m, c)
  {
    var e := Escaped(m.shell);
    assert e[0] == '"' && e[1] == '\'' && e[2] == ' ' && e[3] == '\\' && e[4] == '`' && e[5] == '$';
    if m.shell == Bash {
      assert e[6] == '(' && e[7] == ')' && e[8] == ';' && e[9] == '&' && e[10] == '|' && e[11] == '<' && e[12] == '>' && e[13] == '!' && e[14] == '#';
    }
  }

  /** A character of a word, read as itself. */
  lemma BareReads(m: Mode, c: char, rest: string, x: Lexer, depth: nat)
    requires x.quote.Unquoted? && Bare(m, c) && (m.shell == Bash && c == '#' ==> x.open)
    ensures Scan(m, [c] + rest, x, depth) == Scan(m, rest, Past(x, [], [c]), depth)
  {
    hide Scan, InParens, InTicks, AfterComment, Pieces, Commands;
    assert ([c] + rest)[1..] == rest && x.cmds + [] == x.cmds;
    Unfold(m, [c] + rest, x, depth);
  }

  lemma {:induction false} RawReads(m: Mode, s: string, rest: string, x: Lexer, depth: nat)
    requires x.quote.Unquoted? && s != "" && (forall i :: 0 <= i < |s| ==> Bare(m, s[i])) && (m.shell == Bash && s[0] == '#' ==> x.open)
    ensures Scan(m, s + rest, x, depth) == Scan(m, rest, Past(x, [], s), depth)
    decreases |s|
  {
    hide Scan, Bare;
    assert s + rest == [s[0]] + (s[1..] + rest);
    BareReads(m, s[0], s[1..] + rest, x, depth);
    if |s| == 1 {
      assert s[1..] + rest == rest && [s[0]] == s;
    } else {
      RawReads(m, s[1..], rest, Past(x, [], [s[0]]), depth);
      PastBoth(x, [], [s[0]], [], s[1..]);
      var none: seq<Segment> := [];
      assert [s[0]] + s[1..] == s && none + none == none;
    }
  }

  lemma EscapedReads(m: Mode, c: char, rest: string, x: Lexer, depth: nat)
    requires (x.quote.Double? && x.open && DoubleEscapable(c)) || (x.quote.Unquoted? && Escapable(m, c))
    ensures Scan(m, [Esc(m), c] + rest, x, depth) == Scan(m, rest, Past(x, [], [c]), depth)
  {
    hide Scan, Read, Pieces, Commands;
    var rs := [Esc(m), c] + rest;
    assert rs[2..] == rest && x.cmds + [] == x.cmds;
    EscapeRead(m, c, rest, x);
    Unfold(m, rs, x, depth);
  }

  lemma {:induction false} EscapesRead(m: Mode, s: string, rest: string, x: Lexer, depth: nat)
    requires x.quote.Unquoted? && s != "" && forall i :: 0 <= i < |s| ==> Escapable(m, s[i])
    ensures Scan(m, TextEscapes(m, s) + rest, x, depth) == Scan(m, rest, Past(x, [], s), depth)
    decreases |s|
  {
    hide Scan, Escapable;
    var more := TextEscapes(m, s[1..]) + rest;
    assert TextEscapes(m, s) + rest == [Esc(m), s[0]] + more;
    EscapedReads(m, s[0], more, x, depth);
    if |s| == 1 {
      assert more == rest && [s[0]] == s;
    } else {
      EscapesRead(m, s[1..], rest, Past(x, [], [s[0]]), depth);
      PastBoth(x, [], [s[0]], [], s[1..]);
      var none: seq<Segment> := [];
      assert [s[0]] + s[1..] == s && none + none == none;
    }
  }

  /** An escape character that escapes nothing stays. */
  lemma KeptReads(m: Mode, c: char, rest: string, x: Lexer, depth: nat)
    requires (x.quote.Double? && x.open && !DoubleEscapable(c) && c != '\n' && c != '\r') || (x.quote.Unquoted? && Bare(m, c) && !Escapable(m, c))
    ensures Scan(m, [Esc(m), c] + rest, x, depth) == Scan(m, rest, Past(x, [], [Esc(m), c]), depth)
  {
    hide Scan, Read, Pieces, Commands;
    var rs := [Esc(m), c] + rest;
    assert rs[1..] == [c] + rest;
    EscapeRead(m, c, rest, x);
    Unfold(m, rs, x, depth);
    var y := Write(x, Esc(m));
    assert x.word + [Esc(m)] + [c] == x.word + [Esc(m), c] && y.cmds + [] == x.cmds + [];
    if x.quote.Double? {
      InDoubleReads(m, c, rest, y, depth);
    } else {
      BareReads(m, c, rest, y, depth);
    }
  }

  /** A character in double quotes, read as itself. */
  lemma InDoubleReads(m: Mode, c: char, rest: string, x: Lexer, depth: nat)
    requires x.quote.Double? && x.open && !DoubleEscapable(c)
    ensures Scan(m, [c] + rest, x, depth) == Scan(m, rest, Past(x, [], [c]), depth)
  {
    hide Scan, InParens, InTicks, AfterComment, Pieces, Commands;
    assert ([c] + rest)[1..] == rest && x.cmds + [] == x.cmds;
    Unfold(m, [c] + rest, x, depth);
  }

  lemma DoublesClose(m: Mode, rest: string, x: Lexer, depth: nat)
    requires x.quote.Double? && x.open
    ensures Scan(m, "\"" + rest, x, depth) == Scan(m, rest, x.(quote := Unquoted), depth)
  {
    hide Scan, InParens, InTicks, AfterComment, Pieces, Commands;
    assert ("\"" + rest)[1..] == rest;
    Unfold(m, "\"" + rest, x, depth);
  }

  /** A quote that opens. */
  lemma QuoteOpens(m: Mode, q: char, rest: string, x: Lexer, depth: nat)
    requires x.quote.Unquoted? && (q == '"' || q == '\'')
    ensures Scan(m, [q] + rest, x, depth) == Scan(m, rest, x.(quote := if q == '"' then Double else Single, open := true), depth)
  {
    hide Scan, InParens, InTicks, AfterComment, Pieces, Commands;
    assert ([q] + rest)[1..] == rest;
    Unfold(m, [q] + rest, x, depth);
  }

  /** A line continued, in double quotes too. */
  lemma ContinuesReads(m: Mode, rest: string, x: Lexer, depth: nat)
    requires !x.quote.Single? && m.shell == Bash
    ensures Scan(m, "\\\n" + rest, x, depth) == Scan(m, rest, x, depth)
  {
    hide Scan, InParens, InTicks, AfterComment, Pieces, Commands;
    assert ("\\\n" + rest)[2..] == rest;
    Unfold(m, "\\\n" + rest, x, depth);
  }

  lemma {:induction false} InnersRead(m: Mode, inners: seq<Inner>, rest: string, x: Lexer, depth: nat)
    requires InnersOk(m, inners) && x.quote.Double? && x.open
    ensures Scan(m, TextInners(m, inners) + rest, x, depth) == Scan(m, rest, Past(x, InnersBefore(m, inners, depth), Value(m, inners)), depth)
    decreases inners
  {
    hide Scan, DoubleEscapable, Text, Ok, Means;
    if inners == [] {
      assert TextInners(m, inners) + rest == rest && x.cmds + [] == x.cmds && x.word + "" == x.word;
    } else {
      var more := TextInners(m, inners[1..]) + rest;
      assert TextInners(m, inners) + rest == TextInner(m, inners[0]) + more;
      var before := if inners[0].InnerSubst? then Scoped(m, Means(m, inners[0].body, depth + 1)) else [];
      var text := match inners[0] case Char(c) => [c] case Slashed(c) => [Esc(m), c] case InnerSubst(_) => "$(";
      match inners[0] {
        case Char(c) =>
          if DoubleEscapable(c) {
            EscapedReads(m, c, more, x, depth);
          } else {
            InDoubleReads(m, c, more, x, depth);
          }
        case Slashed(c) => KeptReads(m, c, more, x, depth);
        case InnerSubst(body) => SubstReads(m, body, more, x, depth);
      }
      assert Scan(m, TextInner(m, inners[0]) + more, x, depth) == Scan(m, more, Past(x, before, text), depth);
      InnersRead(m, inners[1..], rest, Past(x, before, text), depth);
      PastBoth(x, before, text, InnersBefore(m, inners[1..], depth), Value(m, inners[1..]));
    }
  }

  lemma {:induction false} SubstReads(m: Mode, body: seq<Item>, rest: string, x: Lexer, depth: nat)
    requires Ok(m, body) && !x.quote.Single?
    ensures Scan(m, "$(" + Text(m, body) + ")" + rest, x, depth) == Scan(m, rest, Past(x, Scoped(m, Means(m, body, depth + 1)), "$("), depth)
    decreases body, 2
  {
    hide Scan, Read, Text, Ok, Split, Means;
    SubstRead(m, body, rest, x);
    NestReads(m, "$(" + Text(m, body) + ")" + rest, Text(m, body), |Text(m, body)| + 3, "$(", rest, x, depth);
    LineMeans(m, body, depth + 1);
  }

  lemma {:induction false} ParensReads(m: Mode, body: seq<Item>, rest: string, x: Lexer, depth: nat)
    requires Ok(m, body) && x.quote.Unquoted? && m.shell == PowerShell
    ensures Scan(m, "(" + Text(m, body) + ")" + rest, x, depth) == Scan(m, rest, Past(x, Scoped(m, Means(m, body, depth + 1)), "$("), depth)
    decreases body, 2
  {
    hide Scan, Read, Text, Ok, Split, Means;
    ParensRead(m, body, rest, x);
    NestReads(m, "(" + Text(m, body) + ")" + rest, Text(m, body), |Text(m, body)| + 2, "$(", rest, x, depth);
    LineMeans(m, body, depth + 1);
  }

  lemma {:induction false} TicksReads(m: Mode, body: seq<Item>, rest: string, x: Lexer, depth: nat)
    requires Ok(m, body) && '`' !in Text(m, body) && x.quote.Unquoted? && m.shell == Bash
    ensures Scan(m, "`" + Text(m, body) + "`" + rest, x, depth) == Scan(m, rest, Past(x, Scoped(m, Means(m, body, depth + 1)), "`"), depth)
    decreases body, 2
  {
    hide Scan, Read, Text, Ok, Split, Means;
    TicksRead(m, body, rest, x);
    NestReads(m, "`" + Text(m, body) + "`" + rest, Text(m, body), |Text(m, body)| + 2, "`", rest, x, depth);
    LineMeans(m, body, depth + 1);
  }

  lemma {:induction false} PartReads(m: Mode, p: Part, rest: string, x: Lexer, depth: nat)
    requires PartOk(m, p, x.open) && x.quote.Unquoted?
    ensures Scan(m, TextPart(m, p) + rest, x, depth) ==
            Scan(m, rest, if p.Continues? then x else Past(x, PartBefore(m, p, depth), ValueOf(m, p)), depth)
    decreases p
  {
    hide Scan, Bare, Escapable, Text, Ok, Means, TextInners, InnersBefore, Value, TextEscapes, InnersOk;
    match p {
      case Singles(s) =>
        assert TextPart(m, p) + rest == "'" + (s + ("'" + rest));
        QuoteOpens(m, '\'', s + ("'" + rest), x, depth);
        SinglesRead(m, s, rest, x.(quote := Single, open := true), depth);
      case Doubles(inners) =>
        var t := TextInners(m, inners);
        assert TextPart(m, p) + rest == "\"" + (t + ("\"" + rest));
        var y := x.(quote := Double, open := true);
        QuoteOpens(m, '"', t + ("\"" + rest), x, depth);
        InnersRead(m, inners, "\"" + rest, y, depth);
        DoublesClose(m, rest, Past(y, InnersBefore(m, inners, depth), Value(m, inners)), depth);
      case Escapes(s) => EscapesRead(m, s, rest, x, depth);
      case Raw(s) => RawReads(m, s, rest, x, depth);
      case Keeps(c) => KeptReads(m, c, rest, x, depth);
      case Continues => ContinuesReads(m, rest, x, depth);
      case Subst(body) => SubstReads(m, body, rest, x, depth);
      case Expression(body) => ParensReads(m, body, rest, x, depth);
      case Ticks(body) => TicksReads(m, body, rest, x, depth);
    }
  }

  predicate Opens(parts: seq<Part>) {
    exists p :: p in parts && !p.Continues?
  }

  lemma {:induction false} PartsRead(m: Mode, parts: seq<Part>, rest: string, x: Lexer, depth: nat)
    requires PartsOk(m, parts, x.open) && x.quote.Unquoted?
    ensures Scan(m, TextParts(m, parts) + rest, x, depth) ==
            Scan(m, rest, x.(cmds := x.cmds + PartsBefore(m, parts, depth), word := x.word + WordOf(m, parts), open := x.open || Opens(parts)), depth)
    decreases parts
  {
    hide Scan, PartOk, TextPart, PartBefore, ValueOf;
    if parts == [] {
      assert TextParts(m, parts) + rest == rest && x.cmds + [] == x.cmds && x.word + "" == x.word;
    } else {
      var p, more := parts[0], TextParts(m, parts[1..]) + rest;
      assert TextParts(m, parts) + rest == TextPart(m, p) + more;
      assert p.Continues? ==> PartBefore(m, p, depth) == [] && ValueOf(m, p) == "" by { ContinuesIs(m, depth); }
      PartReads(m, p, more, x, depth);
      var y := x.(cmds := x.cmds + PartBefore(m, p, depth), word := x.word + ValueOf(m, p), open := x.open || !p.Continues?);
      assert p.Continues? ==> x.cmds + [] == x.cmds && x.word + "" == x.word;
      PartsRead(m, parts[1..], rest, y, depth);
      assert Opens(parts) <==> !p.Continues? || Opens(parts[1..]);
      PastBoth(x, PartBefore(m, p, depth), ValueOf(m, p), PartsBefore(m, parts[1..], depth), WordOf(m, parts[1..]));
    }
  }

  lemma ContinuesIs(m: Mode, depth: nat)
    ensures PartBefore(m, Continues, depth) == [] && ValueOf(m, Continues) == ""
  {
  }

  lemma {:induction false} BlanksRead(m: Mode, gap: string, rest: string, x: Lexer, depth: nat)
    requires Blanks(gap) && x.quote.Unquoted?
    ensures Scan(m, gap + rest, x, depth) == Scan(m, rest, if gap == "" then x else EndWord(x), depth)
    decreases |gap|
  {
    hide Scan, InParens, InTicks, AfterComment, Pieces, Commands;
    if gap == "" {
      assert gap + rest == rest;
    } else {
      assert (gap + rest)[1..] == gap[1..] + rest;
      Unfold(m, gap + rest, x, depth);
      BlanksRead(m, gap[1..], rest, EndWord(x), depth);
      assert EndWord(EndWord(x)) == EndWord(x);
    }
  }

  /** The lexer once it read words; the last may be open still. */
  function AfterWords(m: Mode, words: seq<Word>, x: Lexer, depth: nat): Lexer
    decreases words
  {
    if words == [] then x
    else
      var y := Past(x, PartsBefore(m, words[0].parts, depth), WordOf(m, words[0].parts));
      AfterWords(m, words[1..], if words[0].gap == "" then y else EndWord(y), depth)
  }

  /** One word and the blanks after it. */
  lemma {:induction false} WordReadsOn(m: Mode, v: Word, more: string, x: Lexer, depth: nat)
    requires PartsOk(m, v.parts, false) && v.parts != [] && !v.parts[0].Continues? && Blanks(v.gap) && Ready(x)
    ensures var y := Past(x, PartsBefore(m, v.parts, depth), WordOf(m, v.parts));
            Scan(m, TextParts(m, v.parts) + v.gap + more, x, depth) == Scan(m, more, if v.gap == "" then y else EndWord(y), depth)
    decreases v
  {
    hide Scan, PartsOk, TextParts, PartsBefore, WordOf, Blanks;
    assert TextParts(m, v.parts) + v.gap + more == TextParts(m, v.parts) + (v.gap + more);
    PartsRead(m, v.parts, v.gap + more, x, depth);
    assert Opens(v.parts) by { assert v.parts[0] in v.parts; }
    assert "" + WordOf(m, v.parts) == WordOf(m, v.parts);
    BlanksRead(m, v.gap, more, Past(x, PartsBefore(m, v.parts, depth), WordOf(m, v.parts)), depth);
  }

  lemma {:induction false} WordsRead(m: Mode, words: seq<Word>, rest: string, x: Lexer, depth: nat)
    requires WordsOk(m, words) && Ready(x)
    ensures Scan(m, TextWords(m, words) + rest, x, depth) == Scan(m, rest, AfterWords(m, words, x, depth), depth)
    decreases words
  {
    hide Scan, PartsOk, TextParts, PartsBefore, WordOf, Blanks;
    if words == [] {
      assert TextWords(m, words) + rest == rest;
    } else {
      var v, more := words[0], TextWords(m, words[1..]) + rest;
      assert TextWords(m, words) + rest == TextParts(m, v.parts) + v.gap + more;
      assert v in words;
      WordReadsOn(m, v, more, x, depth);
      if v.gap == "" {
        assert more == rest && words[1..] == [];
      } else {
        WordsRead(m, words[1..], rest, EndWord(Past(x, PartsBefore(m, v.parts, depth), WordOf(m, v.parts))), depth);
      }
    }
  }

  lemma {:induction false} WordsTaken(m: Mode, words: seq<Word>, x: Lexer, depth: nat)
    requires WordsOk(m, words) && Ready(x)
    ensures var y := AfterWords(m, words, x, depth);
            y.quote.Unquoted? && EndWord(y) == x.(cmds := x.cmds + WordsBefore(m, words, depth), words := x.words + WordsOf(m, words))
    decreases words
  {
    hide PartsOk, PartsBefore, WordOf, Blanks;
    if words == [] {
      assert x.cmds + [] == x.cmds && x.words + [] == x.words;
    } else {
      var v := words[0];
      var before, word := PartsBefore(m, v.parts, depth), WordOf(m, v.parts);
      assert "" + word == word;
      if v.gap == "" {
        assert words[1..] == [] && WordsOf(m, words) == [word] + [] && WordsBefore(m, words, depth) == before + [];
      } else {
        WordsTaken(m, words[1..], EndWord(Past(x, before, word)), depth);
        assert x.words + [word] + WordsOf(m, words[1..]) == x.words + WordsOf(m, words);
        assert x.cmds + before + WordsBefore(m, words[1..], depth) == x.cmds + WordsBefore(m, words, depth);
      }
    }
  }

  lemma EndReads(m: Mode, c: char, rest: string, x: Lexer, depth: nat)
    requires x.quote.Unquoted? && (IsSeparator(c) || c == ')' || (m.shell == Cmd && c == '('))
    ensures Scan(m, [c] + rest, x, depth) == Scan(m, rest, EndCommand(x), depth)
  {
    hide Scan, InParens, InTicks, AfterComment, Pieces, Commands;
    assert ([c] + rest)[1..] == rest;
    Unfold(m, [c] + rest, x, depth);
  }

  lemma {:induction false} CommentEnds(s: string, rest: string)
    requires '\n' !in s
    ensures AfterComment(s + ("\n" + rest)) == "\n" + rest
  {
    var all := s + ("\n" + rest);
    if s != "" {
      assert all[1..] == s[1..] + ("\n" + rest);
      CommentEnds(s[1..], rest);
    }
  }

  /** A comment where a word could start is nothing, whatever is in it, and its
      newline ends the command. */
  lemma CommentReads(m: Mode, s: string, rest: string, x: Lexer, depth: nat)
    requires '\n' !in s && x.quote.Unquoted? && !x.open && m.shell == Bash
    ensures Scan(m, "#" + s + "\n" + rest, x, depth) == Scan(m, rest, EndCommand(x), depth)
  {
    hide Scan, InParens, InTicks, AfterComment, Pieces, Commands, EndCommand;
    var rs := "#" + s + "\n" + rest;
    CommentEnds(s, rest);
    assert rs[1..] == s + ("\n" + rest) && rs[|s| + 1..] == "\n" + rest;
    Unfold(m, rs, x, depth);
    EndReads(m, '\n', rest, x, depth);
  }

  lemma NothingEnds(x: Lexer)
    requires Ready(x) && x.words == []
    ensures EndCommand(x) == x && EndWord(x) == x
  {
    assert Pieces([], []) == [] && x.cmds + [] == x.cmds;
  }

  /** Between commands separators, blanks and comments are nothing. */
  lemma {:induction false} SepsRead(m: Mode, seps: seq<Sep>, rest: string, x: Lexer, depth: nat)
    requires (forall i :: 0 <= i < |seps| ==> SepOk(m, seps[i])) && Ready(x) && x.words == []
    ensures Scan(m, TextSeps(seps) + rest, x, depth) == Scan(m, rest, x, depth)
    decreases seps
  {
    hide Scan, EndCommand, Pieces, Commands;
    if seps == [] {
      assert TextSeps(seps) + rest == rest;
    } else {
      var more := TextSeps(seps[1..]) + rest;
      assert TextSeps(seps) + rest == TextSep(seps[0]) + more;
      assert SepOk(m, seps[0]);
      NothingEnds(x);
      match seps[0] {
        case Ends(c) => EndReads(m, c, more, x, depth);
        case Blank(c) =>
          assert Blanks([c]);
          BlanksRead(m, [c], more, x, depth);
        case Comment(s) =>
          assert "#" + s + "\n" + more == TextSep(seps[0]) + more;
          CommentReads(m, s, more, x, depth);
      }
      SepsRead(m, seps[1..], rest, x, depth);
    }
  }

  /** What separates a command from the next ends it. */
  lemma SeparatorsRead(m: Mode, seps: seq<Sep>, rest: string, x: Lexer, depth: nat)
    requires SepsOk(m, seps) && seps != [] && x.quote.Unquoted?
    ensures Scan(m, TextSeps(seps) + rest, x, depth) == Scan(m, rest, EndCommand(x), depth)
  {
    hide Scan, Pieces, Commands;
    var more := TextSeps(seps[1..]) + rest;
    assert SepOk(m, seps[0]);
    assert TextSeps(seps) + rest == [seps[0].c] + more;
    EndReads(m, seps[0].c, more, x, depth);
    SepsRead(m, seps[1..], rest, EndCommand(x), depth);
  }

  /** One command, and what separates it from the rest of the line. */
  lemma {:induction false} ItemReads(m: Mode, item: Item, rest: string, x: Lexer, depth: nat)
    requires ItemOk(m, item) && Ready(x) && x.words == [] && (item.seps == [] ==> rest == "")
    ensures Scan(m, TextItem(m, item) + rest, x, depth) == Scan(m, rest, x.(cmds := x.cmds + MeansItem(m, item, depth)), depth)
    decreases item
  {
    hide Scan, WordsOk, TextWords, TextSeps, SepsOk, WordsBefore, WordsOf, Pieces, Commands, Text, Ok, Means, Split, AfterWords;
    var seps := TextSeps(item.seps) + rest;
    match item {
      case Simple(words, _) =>
        assert TextItem(m, item) + rest == TextWords(m, words) + seps;
        WordsRead(m, words, seps, x, depth);
        WordsTaken(m, words, x, depth);
        var y := AfterWords(m, words, x, depth);
        assert [] + WordsOf(m, words) == WordsOf(m, words);
        assert EndCommand(y) == x.(cmds := x.cmds + MeansItem(m, item, depth));
        LastOf(m, item, rest, y, depth);
      case Parens(body, _) =>
        assert TextItem(m, item) + rest == "(" + Text(m, body) + ")" + seps;
        GroupReads(m, body, seps, x, depth);
        var y := x.(cmds := x.cmds + MeansItem(m, item, depth));
        NothingEnds(y);
        LastOf(m, item, rest, y, depth);
    }
  }

  /** A command ends at its separators, or with the line. */
  lemma LastOf(m: Mode, item: Item, rest: string, y: Lexer, depth: nat)
    requires ItemOk(m, item) && y.quote.Unquoted? && (item.seps == [] ==> rest == "")
    ensures Scan(m, TextSeps(item.seps) + rest, y, depth) == Scan(m, rest, EndCommand(y), depth)
  {
    hide WordsOk, SepsOk, Pieces, Commands, Text, Ok, Split, Read;
    if item.seps == [] {
      assert TextSeps(item.seps) + rest == "";
      EndedTwice(y);
    } else {
      SeparatorsRead(m, item.seps, rest, y, depth);
    }
  }

  lemma EndedTwice(y: Lexer)
    ensures EndCommand(EndCommand(y)).cmds == EndCommand(y).cmds
  {
    assert Pieces([], []) == [];
  }

  lemma {:induction false} GroupReads(m: Mode, body: seq<Item>, rest: string, x: Lexer, depth: nat)
    requires Ok(m, body) && Ready(x) && x.words == [] && m.shell == Bash
    ensures Scan(m, "(" + Text(m, body) + ")" + rest, x, depth) == Scan(m, rest, x.(cmds := x.cmds + Scoped(m, Means(m, body, depth + 1))), depth)
    decreases body, 2
  {
    hide Scan, Read, Text, Ok, Split, Means, Pieces, Commands;
    var rs := "(" + Text(m, body) + ")" + rest;
    ParensRead(m, body, rest, x);
    Unfold(m, rs, x, depth);
    assert rs[|Text(m, body)| + 2..] == rest;
    LineMeans(m, body, depth + 1);
  }

  lemma {:induction false} ItemsRead(m: Mode, items: seq<Item>, x: Lexer, depth: nat)
    requires Ok(m, items) && Ready(x) && x.words == []
    ensures Scan(m, Text(m, items), x, depth) == x.cmds + MeansItems(m, items, depth)
    decreases items, 0
  {
    hide Scan, ItemOk, TextItem, MeansItem, Pieces, Commands;
    if items == [] {
      NothingReads(m, x, depth);
    } else {
      ItemReads(m, items[0], Text(m, items[1..]), x, depth);
      ItemsRead(m, items[1..], x.(cmds := x.cmds + MeansItem(m, items[0], depth)), depth);
    }
  }

  /** Splitting a line, however it is written, gives what it means: in each shell its
      commands in order, cut at every separator and nowhere else, their words as the
      quotes and escapes have them, what is substituted before the command it is
      in, and each nested text on its own. */
  lemma {:induction false} LineMeans(m: Mode, items: seq<Item>, depth: nat)
    requires Ok(m, items)
    ensures Split(m, Text(m, items), depth) == Means(m, items, depth)
    decreases items, 1
  {
    hide Scan, Text, Ok, MeansItems;
    if depth <= 8 {
      ItemsRead(m, items, START, depth);
    }
  }

  // What is not in a line's grammar.

  /** Before a carriage return and a newline a backslash continues the line where the
      shell says so; elsewhere it stays, and the command ends. */
  lemma CarriageReads(m: Mode, rest: string, x: Lexer, depth: nat)
    requires x.quote.Unquoted? && m.shell == Bash
    ensures Scan(m, "\\\r\n" + rest, x, depth) == Scan(m, rest, if m.crlf then x else EndCommand(Write(x, '\\')), depth)
  {
    hide Scan, InParens, InTicks, AfterComment, Pieces, Commands;
    var rs := "\\\r\n" + rest;
    assert rs[3..] == rest && rs[1..] == "\r" + ("\n" + rest);
    Unfold(m, rs, x, depth);
    if !m.crlf {
      assert '\r' !in Escaped(m.shell) by { EscapeSet(m, '\r'); }
      var y := Write(x, '\\');
      EndReads(m, '\r', "\n" + rest, y, depth);
      EndReads(m, '\n', rest, EndCommand(y), depth);
      NothingEnds(EndCommand(y));
    }
  }

  /** A substitution, a group or an expression that is never closed goes to the line's
      end, and a quote that is never closed does. */
  lemma {:induction false} UnclosedReads(m: Mode, body: seq<Item>, s: string, x: Lexer, depth: nat)
    requires x.quote.Unquoted? && Ok(m, body) && '\'' !in s
    ensures Scan(m, "$(" + Text(m, body), x, depth) == EndCommand(Past(x, Scoped(m, Means(m, body, depth + 1)), "$(")).cmds
    ensures Scan(m, "'" + s, x, depth) == EndCommand(Past(x, [], s)).cmds
  {
    hide Scan, InTicks, AfterComment, Pieces, Commands, Text, Ok, Means, Split, InParens;
    var t := Text(m, body);
    var rs := "$(" + t;
    assert rs[2..] == t && t + "" == t && rs[2..2 + |t|] == t;
    assert InParens(t, 1, Esc(m)) == |t| by {
      TextNeutral(m, body);
      assert InParens("", 1, Esc(m)) == 0 by { NothingInParens(m); }
    }
    LineMeans(m, body, depth + 1);
    Unfold(m, rs, x, depth);
    Finishes(m, Past(x, Scoped(m, Means(m, body, depth + 1)), "$("), depth);
    QuoteOpens(m, '\'', s, x, depth);
    UnclosedSingles(m, s, x.(quote := Single, open := true), depth);
  }

  lemma NothingInParens(m: Mode)
    ensures InParens("", 1, Esc(m)) == 0
  {
  }

  lemma Finishes(m: Mode, x: Lexer, depth: nat)
    ensures Scan(m, "", x, depth) == EndCommand(x).cmds
  {
  }

  lemma {:induction false} UnclosedSingles(m: Mode, s: string, x: Lexer, depth: nat)
    requires '\'' !in s && x.quote.Single? && x.open
    ensures Scan(m, s, x, depth) == EndCommand(Past(x, [], s)).cmds
    decreases |s|
  {
    hide Scan, InParens, InTicks, AfterComment, Pieces, Commands;
    assert x.cmds + [] == x.cmds;
    if s == "" {
      Finishes(m, x, depth);
      assert x.word + s == x.word;
    } else {
      Unfold(m, s, x, depth);
      UnclosedSingles(m, s[1..], x.(word := x.word + [s[0]]), depth);
      assert x.word + [s[0]] + s[1..] == x.word + s;
    }
  }

  // Commands without nested ones.

  /** A lone brace ends a command and begins another. */
  lemma {:induction false} BracesCut(a: seq<string>, brace: string, b: seq<string>, kept: seq<string>)
    requires brace == "{" || brace == "}"
    ensures Pieces(a + [brace] + b, kept) == Pieces(a, kept) + Pieces(b, [])
    decreases |a|
  {
    var all := a + [brace] + b;
    if a == [] {
      assert all[1..] == b;
    } else {
      assert all[1..] == a[1..] + [brace] + b;
      if a[0] == "{" || a[0] == "}" {
        BracesCut(a[1..], brace, b, []);
      } else {
        BracesCut(a[1..], brace, b, kept + [a[0]]);
      }
    }
  }

  predicate Nests(p: Part) {
    p.Subst? || p.Expression? || p.Ticks? || (p.Doubles? && exists i :: i in p.inners && i.InnerSubst?)
  }

  predicate Flatly(item: Item) {
    item.Simple? && forall v, p :: v in item.words && p in v.parts ==> !Nests(p)
  }

  function Written(m: Mode, items: seq<Item>): (cmds: seq<seq<string>>)
    ensures |cmds| == |items|
  {
    if items == [] then [] else [if items[0].Simple? then WordsOf(m, items[0].words) else []] + Written(m, items[1..])
  }

  lemma {:induction false} NoneInDoubles(m: Mode, inners: seq<Inner>, depth: nat)
    requires forall i :: i in inners ==> !i.InnerSubst?
    ensures InnersBefore(m, inners, depth) == []
  {
    if inners != [] {
      NoneInDoubles(m, inners[1..], depth);
    }
  }

  lemma {:induction false} NoneBefore(m: Mode, parts: seq<Part>, depth: nat)
    requires forall p :: p in parts ==> !Nests(p)
    ensures PartsBefore(m, parts, depth) == []
  {
    if parts != [] {
      assert !Nests(parts[0]);
      if parts[0].Doubles? {
        NoneInDoubles(m, parts[0].inners, depth);
      }
      NoneBefore(m, parts[1..], depth);
    }
  }

  lemma {:induction false} NoneBeforeWords(m: Mode, words: seq<Word>, depth: nat)
    requires forall v, p :: v in words && p in v.parts ==> !Nests(p)
    ensures WordsBefore(m, words, depth) == []
  {
    hide Nests;
    if words != [] {
      assert words[0] in words;
      NoneBefore(m, words[0].parts, depth);
      NoneBeforeWords(m, words[1..], depth);
    }
  }

  lemma {:induction false} FlatlyMeans(m: Mode, items: seq<Item>)
    requires forall item :: item in items ==> Flatly(item)
    ensures MeansItems(m, items, 0) == Commands(Meant(Written(m, items)))
  {
    hide Nests, Pieces;
    if items != [] {
      assert Flatly(items[0]);
      var cmd := WordsOf(m, items[0].words);
      assert Written(m, items)[1..] == Written(m, items[1..]);
      NoneBeforeWords(m, items[0].words, 0);
      FlatlyMeans(m, items[1..]);
      CommandsOfBoth(Pieces(cmd, []), Meant(Written(m, items[1..])));
      assert [] + Commands(Pieces(cmd, [])) == Commands(Pieces(cmd, []));
    }
  }

  /** So in every shell, whatever separators are between them, commands of words in
      quotes, escaped or bare come back as they are exactly when each has a word and
      none is a lone brace. */
  lemma WrittenCommandsComeBack(m: Mode, items: seq<Item>)
    requires Ok(m, items) && forall item :: item in items ==> Flatly(item)
    ensures Flat(Split(m, Text(m, items), 0)) == Written(m, items) <==> forall c :: c in Written(m, items) ==> ShellRoundTrip.Plain(c)
  {
    hide Split, Text, Ok, Nests, Pieces;
    LineMeans(m, items, 0);
    FlatlyMeans(m, items);
    FlatCommands(Meant(Written(m, items)));
    MeantIsPlain(Written(m, items));
    if forall c :: c in Written(m, items) ==> ShellRoundTrip.Plain(c) {
      PlainMeansItself(Written(m, items));
    }
  }
}
