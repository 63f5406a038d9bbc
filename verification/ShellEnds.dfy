/** Where nested text ends: the closing parenthesis, quote or backquote that the guard's
    lexer finds (internal/agent/guard.go:433-472) is the one written for it, however
    deep the lines in it are nested and whatever their quotes hold. */
module ShellEnds {
  import opened Splitter
  import opened ShellText

  /** An enclosing parenthesis looks past t as a whole. */
  ghost predicate Neutral(m: Mode, t: string) {
    forall rest: string, depth: nat {:trigger InParens(t + rest, depth, Esc(m))} :: depth > 0 ==>
      InParens(t + rest, depth, Esc(m)) == |t| + InParens(rest, depth, Esc(m))
  }

  lemma NeutralBoth(m: Mode, a: string, b: string)
    requires Neutral(m, a) && Neutral(m, b)
    ensures Neutral(m, a + b)
  {
    hide InParens;
    forall rest: string, depth: nat {:trigger InParens(a + b + rest, depth, Esc(m))} | depth > 0
      ensures InParens(a + b + rest, depth, Esc(m)) == |a + b| + InParens(rest, depth, Esc(m))
    {
      assert a + b + rest == a + (b + rest);
    }
  }

  lemma NeutralNone(m: Mode)
    ensures Neutral(m, "")
  {
    hide InParens;
    assert forall rest: string :: "" + rest == rest;
  }

  lemma NeutralChar(m: Mode, c: char)
    requires c != Esc(m) && c != '\'' && c != '"' && c != '(' && c != ')'
    ensures Neutral(m, [c])
  {
    forall rest: string, depth: nat {:trigger InParens([c] + rest, depth, Esc(m))} | depth > 0
      ensures InParens([c] + rest, depth, Esc(m)) == 1 + InParens(rest, depth, Esc(m))
    {
      assert ([c] + rest)[1..] == rest;
    }
  }

  lemma {:induction false} NeutralChars(m: Mode, s: string)
    requires forall i :: 0 <= i < |s| ==> s[i] != Esc(m) && s[i] != '\'' && s[i] != '"' && s[i] != '(' && s[i] != ')'
    ensures Neutral(m, s)
  {
    hide Neutral;
    if s == "" {
      NeutralNone(m);
    } else {
      NeutralChar(m, s[0]);
      NeutralChars(m, s[1..]);
      NeutralBoth(m, [s[0]], s[1..]);
      assert [s[0]] + s[1..] == s;
    }
  }

  lemma NeutralPair(m: Mode, c: char)
    ensures Neutral(m, [Esc(m), c])
  {
    forall rest: string, depth: nat {:trigger InParens([Esc(m), c] + rest, depth, Esc(m))} | depth > 0
      ensures InParens([Esc(m), c] + rest, depth, Esc(m)) == 2 + InParens(rest, depth, Esc(m))
    {
      assert ([Esc(m), c] + rest)[2..] == rest;
    }
  }

  lemma ParenOpens(m: Mode, s: string, depth: nat)
    requires depth > 0
    ensures InParens("(" + s, depth, Esc(m)) == 1 + InParens(s, depth + 1, Esc(m))
    ensures InParens(")" + s, depth + 1, Esc(m)) == 1 + InParens(s, depth, Esc(m))
    ensures InParens(")" + s, 1, Esc(m)) == 0
  {
    assert ("(" + s)[1..] == s && (")" + s)[1..] == s;
  }

  lemma NeutralParens(m: Mode, t: string)
    requires Neutral(m, t)
    ensures Neutral(m, "(" + t + ")")
  {
    hide InParens;
    forall rest: string, depth: nat {:trigger InParens("(" + t + ")" + rest, depth, Esc(m))} | depth > 0
      ensures InParens("(" + t + ")" + rest, depth, Esc(m)) == |t| + 2 + InParens(rest, depth, Esc(m))
    {
      var inside := t + (")" + rest);
      assert "(" + t + ")" + rest == "(" + inside;
      ParenOpens(m, inside, depth);
      ParenOpens(m, rest, depth);
    }
  }

  /** A quoted text ends at its quote. */
  lemma NeutralQuoted(m: Mode, q: char, t: string)
    requires q == '\'' || q == '"'
    requires forall rest: string {:trigger t + ([q] + rest)} :: QuotedLength(t + ([q] + rest), q, Esc(m)) == |t|
    ensures Neutral(m, [q] + t + [q])
  {
    hide QuotedLength;
    forall rest: string, depth: nat {:trigger InParens([q] + t + [q] + rest, depth, Esc(m))} | depth > 0
      ensures InParens([q] + t + [q] + rest, depth, Esc(m)) == |t| + 2 + InParens(rest, depth, Esc(m))
    {
      var all, inside := [q] + t + [q] + rest, t + ([q] + rest);
      assert all == [q] + inside && all[1..] == inside;
      assert all[2 + |t|..] == rest;
    }
  }

  lemma {:induction false} SinglesEnd(t: string, rest: string, escape: char)
    requires '\'' !in t
    ensures QuotedLength(t + ("'" + rest), '\'', escape) == |t|
  {
    var all := t + ("'" + rest);
    if t != "" {
      assert all[1..] == t[1..] + ("'" + rest);
      SinglesEnd(t[1..], rest, escape);
    }
  }

  /** The end of a double-quoted text, or of one in backquotes, is looked for past t
      as a whole. */
  ghost predicate Skips(m: Mode, q: char, t: string) {
    if q == '"' then forall rest: string {:trigger t + rest} :: QuotedLength(t + rest, q, Esc(m)) == |t| + QuotedLength(rest, q, Esc(m))
    else forall rest: string {:trigger t + rest} :: InTicks(t + rest) == |t| + InTicks(rest)
  }

  /** A quote that is looked for by pairs: the double quote, or bash's backquote. */
  predicate Pairs(m: Mode, q: char) {
    q == '"' || (q == '`' && m.shell == Bash)
  }

  lemma SkipsBoth(m: Mode, q: char, a: string, b: string)
    requires Skips(m, q, a) && Skips(m, q, b)
    ensures Skips(m, q, a + b)
  {
    hide QuotedLength, InTicks;
    assert forall rest: string {:trigger a + b + rest} :: a + b + rest == a + (b + rest);
  }

  lemma SkipsNone(m: Mode, q: char)
    ensures Skips(m, q, "")
  {
    hide QuotedLength, InTicks;
    assert forall rest: string :: "" + rest == rest;
  }

  lemma SkipsChar(m: Mode, q: char, c: char)
    requires Pairs(m, q) && c != q && c != Esc(m)
    ensures Skips(m, q, [c])
  {
    assert forall rest: string {:trigger [c] + rest} :: ([c] + rest)[1..] == rest;
  }

  lemma SkipsPair(m: Mode, q: char, c: char)
    requires Pairs(m, q)
    ensures Skips(m, q, [Esc(m), c])
  {
    assert forall rest: string {:trigger [Esc(m), c] + rest} :: ([Esc(m), c] + rest)[2..] == rest;
    assert Esc(m) != '"' && (q == '`' ==> Esc(m) == '\\');
  }

  lemma {:induction false} SkipsChars(m: Mode, q: char, s: string)
    requires Pairs(m, q) && forall i :: 0 <= i < |s| ==> s[i] != q && s[i] != Esc(m)
    ensures Skips(m, q, s)
  {
    hide Skips;
    if s == "" {
      SkipsNone(m, q);
    } else {
      SkipsChar(m, q, s[0]);
      SkipsChars(m, q, s[1..]);
      SkipsBoth(m, q, [s[0]], s[1..]);
      assert [s[0]] + s[1..] == s;
    }
  }

  /** Whatever its escape characters, a text ends with its last character, which is
      not one. */
  lemma {:induction false} SkipsText(m: Mode, q: char, s: string, last: char)
    requires Pairs(m, q) && q !in s && last != q && last != Esc(m)
    ensures Skips(m, q, s + [last])
    decreases |s|
  {
    hide Skips;
    if s == "" {
      SkipsChar(m, q, last);
      assert s + [last] == [last];
    } else if s[0] == Esc(m) {
      if |s| == 1 {
        SkipsPair(m, q, last);
        assert s + [last] == [Esc(m), last];
      } else {
        SkipsPair(m, q, s[1]);
        SkipsText(m, q, s[2..], last);
        SkipsBoth(m, q, [Esc(m), s[1]], s[2..] + [last]);
        assert [Esc(m), s[1]] + (s[2..] + [last]) == s + [last];
      }
    } else {
      SkipsChar(m, q, s[0]);
      SkipsText(m, q, s[1..], last);
      SkipsBoth(m, q, [s[0]], s[1..] + [last]);
      assert [s[0]] + (s[1..] + [last]) == s + [last];
    }
  }

  lemma {:induction false} EscapesWhole(m: Mode, s: string)
    ensures Neutral(m, TextEscapes(m, s))
    ensures forall q :: Pairs(m, q) ==> Skips(m, q, TextEscapes(m, s))
  {
    hide Neutral, Skips;
    if s == "" {
      NeutralNone(m);
      forall q | Pairs(m, q) ensures Skips(m, q, TextEscapes(m, s)) {
        SkipsNone(m, q);
      }
    } else {
      EscapesWhole(m, s[1..]);
      NeutralPair(m, s[0]);
      NeutralBoth(m, [Esc(m), s[0]], TextEscapes(m, s[1..]));
      forall q | Pairs(m, q) ensures Skips(m, q, TextEscapes(m, s)) {
        SkipsPair(m, q, s[0]);
        SkipsBoth(m, q, [Esc(m), s[0]], TextEscapes(m, s[1..]));
      }
    }
  }

  lemma SkipsWrapped(m: Mode, q: char, opens: string, t: string)
    requires Pairs(m, q) && Skips(m, q, t) && forall i :: 0 <= i < |opens| ==> opens[i] != q && opens[i] != Esc(m)
    ensures Skips(m, q, opens + t + ")") && (q != '`' ==> Skips(m, q, opens + t + "`") || Esc(m) == '`')
    ensures q != '"' ==> Skips(m, q, opens + t + "\"")
  {
    hide Skips;
    SkipsChars(m, q, opens);
    SkipsChar(m, q, ')');
    SkipsBoth(m, q, opens, t);
    SkipsBoth(m, q, opens + t, ")");
    if q != '`' && Esc(m) != '`' {
      SkipsChar(m, q, '`');
      SkipsBoth(m, q, opens + t, "`");
    }
    if q != '"' {
      SkipsChar(m, q, '"');
      SkipsBoth(m, q, opens + t, "\"");
    }
  }

  lemma {:induction false} InnersSkip(m: Mode, q: char, inners: seq<Inner>)
    requires Pairs(m, q) && InnersOk(m, inners) && (q == '`' ==> q !in TextInners(m, inners))
    ensures Skips(m, q, TextInners(m, inners))
    decreases inners
  {
    hide Skips;
    if inners == [] {
      SkipsNone(m, q);
    } else {
      var first := TextInner(m, inners[0]);
      match inners[0] {
        case Char(c) =>
          if DoubleEscapable(c) {
            SkipsPair(m, q, c);
            assert first == [Esc(m), c];
          } else {
            SkipsChar(m, q, c);
            assert first == [c];
          }
        case Slashed(c) =>
          SkipsPair(m, q, c);
          assert first == [Esc(m), c];
        case InnerSubst(body) =>
          assert q !in Text(m, body) by { assert forall c :: c in Text(m, body) ==> c in first && c in TextInners(m, inners); }
          TextSkips(m, q, body);
          SkipsWrapped(m, q, "$(", Text(m, body));
      }
      InnersSkip(m, q, inners[1..]);
      SkipsBoth(m, q, first, TextInners(m, inners[1..]));
    }
  }

  lemma {:induction false} PartSkips(m: Mode, q: char, p: Part, open: bool)
    requires Pairs(m, q) && PartOk(m, p, open) && q !in TextPart(m, p)
    ensures Skips(m, q, TextPart(m, p))
    decreases p
  {
    hide Skips;
    match p {
      case Singles(s) =>
        SkipsChar(m, q, '\'');
        SkipsText(m, q, s, '\'');
        SkipsBoth(m, q, "'", s + "'");
        assert "'" + (s + "'") == TextPart(m, p);
      case Doubles(inners) =>
        assert q == '`';
        InnersSkip(m, q, inners);
        SkipsWrapped(m, q, "\"", TextInners(m, inners));
      case Escapes(s) => EscapesWhole(m, s);
      case Raw(s) => SkipsChars(m, q, s);
      case Keeps(c) => SkipsPair(m, q, c);
      case Continues => SkipsPair(m, q, '\n');
      case Subst(body) =>
        TextSkips(m, q, body);
        SkipsWrapped(m, q, "$(", Text(m, body));
      case Expression(body) =>
        TextSkips(m, q, body);
        SkipsWrapped(m, q, "(", Text(m, body));
      case Ticks(body) =>
        TextSkips(m, q, body);
        SkipsWrapped(m, q, "`", Text(m, body));
    }
  }

  lemma {:induction false} PartsSkip(m: Mode, q: char, parts: seq<Part>, open: bool)
    requires Pairs(m, q) && PartsOk(m, parts, open) && q !in TextParts(m, parts)
    ensures Skips(m, q, TextParts(m, parts))
    decreases parts
  {
    hide Skips;
    if parts == [] {
      SkipsNone(m, q);
    } else {
      PartSkips(m, q, parts[0], open);
      PartsSkip(m, q, parts[1..], open || !parts[0].Continues?);
      SkipsBoth(m, q, TextPart(m, parts[0]), TextParts(m, parts[1..]));
    }
  }

  lemma {:induction false} WordsSkip(m: Mode, q: char, words: seq<Word>)
    requires Pairs(m, q) && WordsOk(m, words) && q !in TextWords(m, words)
    ensures Skips(m, q, TextWords(m, words))
    decreases words
  {
    hide Skips;
    if words == [] {
      SkipsNone(m, q);
    } else {
      PartsSkip(m, q, words[0].parts, false);
      SkipsChars(m, q, words[0].gap);
      WordsSkip(m, q, words[1..]);
      SkipsBoth(m, q, TextParts(m, words[0].parts), words[0].gap);
      SkipsBoth(m, q, TextParts(m, words[0].parts) + words[0].gap, TextWords(m, words[1..]));
    }
  }

  /** Separators and comments are plain characters. */
  lemma {:induction false} SepsPlain(m: Mode, seps: seq<Sep>)
    requires forall i :: 0 <= i < |seps| ==> SepOk(m, seps[i])
    ensures forall i :: 0 <= i < |TextSeps(seps)| ==>
              var c := TextSeps(seps)[i]; c != Esc(m) && c != '\'' && c != '"' && c != '(' && c != ')' && (m.shell == Bash ==> c != '`')
  {
    if seps != [] {
      SepsPlain(m, seps[1..]);
      assert SepOk(m, seps[0]);
    }
  }

  lemma {:induction false} TextSkips(m: Mode, q: char, items: seq<Item>)
    requires Pairs(m, q) && Ok(m, items) && q !in Text(m, items)
    ensures Skips(m, q, Text(m, items))
    decreases items
  {
    hide Skips;
    if items == [] {
      SkipsNone(m, q);
    } else {
      ItemSkips(m, q, items[0]);
      TextSkips(m, q, items[1..]);
      SkipsBoth(m, q, TextItem(m, items[0]), Text(m, items[1..]));
    }
  }

  lemma {:induction false} ItemSkips(m: Mode, q: char, item: Item)
    requires Pairs(m, q) && ItemOk(m, item) && q !in TextItem(m, item)
    ensures Skips(m, q, TextItem(m, item))
    decreases item
  {
    hide Skips;
    SepsPlain(m, item.seps);
    SkipsChars(m, q, TextSeps(item.seps));
    match item {
      case Simple(words, seps) =>
        WordsSkip(m, q, words);
        SkipsBoth(m, q, TextWords(m, words), TextSeps(seps));
      case Parens(body, seps) =>
        TextSkips(m, q, body);
        SkipsWrapped(m, q, "(", Text(m, body));
        SkipsBoth(m, q, "(" + Text(m, body) + ")", TextSeps(seps));
    }
  }

  lemma DoublesWhole(m: Mode, inners: seq<Inner>)
    requires InnersOk(m, inners)
    ensures Neutral(m, "\"" + TextInners(m, inners) + "\"")
    ensures forall rest: string {:trigger TextInners(m, inners) + ("\"" + rest)} ::
              QuotedLength(TextInners(m, inners) + ("\"" + rest), '"', Esc(m)) == |TextInners(m, inners)|
  {
    hide InnersOk, TextInners, Neutral;
    InnersSkip(m, '"', inners);
    assert forall rest: string :: QuotedLength("\"" + rest, '"', Esc(m)) == 0;
    NeutralQuoted(m, '"', TextInners(m, inners));
  }

  lemma {:induction false} PartNeutral(m: Mode, p: Part, open: bool)
    requires PartOk(m, p, open)
    ensures Neutral(m, TextPart(m, p))
    decreases p
  {
    hide Neutral;
    match p {
      case Singles(s) =>
        forall rest: string {:trigger s + ("'" + rest)} ensures QuotedLength(s + ("'" + rest), '\'', Esc(m)) == |s| {
          SinglesEnd(s, rest, Esc(m));
        }
        NeutralQuoted(m, '\'', s);
      case Doubles(inners) => DoublesWhole(m, inners);
      case Escapes(s) => EscapesWhole(m, s);
      case Raw(s) => NeutralChars(m, s);
      case Keeps(c) => NeutralPair(m, c);
      case Continues => NeutralPair(m, '\n');
      case Subst(body) =>
        TextNeutral(m, body);
        NeutralParens(m, Text(m, body));
        NeutralChar(m, '$');
        NeutralBoth(m, "$", "(" + Text(m, body) + ")");
        assert "$" + ("(" + Text(m, body) + ")") == TextPart(m, p);
      case Expression(body) =>
        TextNeutral(m, body);
        NeutralParens(m, Text(m, body));
      case Ticks(body) =>
        TextNeutral(m, body);
        NeutralChar(m, '`');
        NeutralBoth(m, "`", Text(m, body));
        NeutralBoth(m, "`" + Text(m, body), "`");
    }
  }

  lemma {:induction false} PartsNeutral(m: Mode, parts: seq<Part>, open: bool)
    requires PartsOk(m, parts, open)
    ensures Neutral(m, TextParts(m, parts))
    decreases parts
  {
    hide Neutral;
    if parts == [] {
      NeutralNone(m);
    } else {
      PartNeutral(m, parts[0], open);
      PartsNeutral(m, parts[1..], open || !parts[0].Continues?);
      NeutralBoth(m, TextPart(m, parts[0]), TextParts(m, parts[1..]));
    }
  }

  lemma {:induction false} WordsNeutral(m: Mode, words: seq<Word>)
    requires WordsOk(m, words)
    ensures Neutral(m, TextWords(m, words))
    decreases words
  {
    hide Neutral;
    if words == [] {
      NeutralNone(m);
    } else {
      PartsNeutral(m, words[0].parts, false);
      NeutralChars(m, words[0].gap);
      WordsNeutral(m, words[1..]);
      NeutralBoth(m, TextParts(m, words[0].parts), words[0].gap);
      NeutralBoth(m, TextParts(m, words[0].parts) + words[0].gap, TextWords(m, words[1..]));
    }
  }

  /** However deep it is nested, a line's text is looked past as a whole. */
  lemma {:induction false} TextNeutral(m: Mode, items: seq<Item>)
    requires Ok(m, items)
    ensures Neutral(m, Text(m, items))
    decreases items
  {
    hide Neutral;
    if items == [] {
      NeutralNone(m);
    } else {
      ItemNeutral(m, items[0]);
      TextNeutral(m, items[1..]);
      NeutralBoth(m, TextItem(m, items[0]), Text(m, items[1..]));
    }
  }

  lemma {:induction false} ItemNeutral(m: Mode, item: Item)
    requires ItemOk(m, item)
    ensures Neutral(m, TextItem(m, item))
    decreases item
  {
    hide Neutral;
    SepsPlain(m, item.seps);
    NeutralChars(m, TextSeps(item.seps));
    match item {
      case Simple(words, seps) =>
        WordsNeutral(m, words);
        NeutralBoth(m, TextWords(m, words), TextSeps(seps));
      case Parens(body, seps) =>
        TextNeutral(m, body);
        NeutralParens(m, Text(m, body));
        NeutralBoth(m, "(" + Text(m, body) + ")", TextSeps(seps));
    }
  }
}
