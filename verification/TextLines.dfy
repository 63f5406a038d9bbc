/** The string operations the session doc is read and written with: trimming
    newlines, splitting into lines and at a mark, as Go's strings package has
    them. Nothing here depends on how a text is encoded. */
module TextLines {
  import opened Common

  lemma PrefixAt(s: string, p: string, k: nat)
    requires k < |p|
    ensures HasPrefix(s, p) ==> k < |s| && s[k] == p[k]
  {
  }

  lemma PrefixOfPrefix(s: string, t: string, p: string)
    requires t <= s
    ensures HasPrefix(t, p) ==> HasPrefix(s, p)
    ensures |p| <= |t| && HasPrefix(s, p) ==> HasPrefix(t, p)
  {
  }

  // Trimming newlines.

  function TrimRight(s: string): (t: string)
    ensures t <= s
    ensures t == "" || t[|t| - 1] != '\n'
  {
    if s != "" && s[|s| - 1] == '\n' then TrimRight(s[..|s| - 1]) else s
  }

  function TrimLeft(s: string): (t: string)
    ensures t == "" || t[0] != '\n'
    ensures |t| <= |s| && t == s[|s| - |t|..]
  {
    if s != "" && s[0] == '\n' then TrimLeft(s[1..]) else s
  }

  function Trim(s: string): string {
    TrimRight(TrimLeft(s))
  }

  /** No newline at either end. */
  predicate Trimmed(s: string) {
    s == "" || (s[0] != '\n' && s[|s| - 1] != '\n')
  }

  lemma TrimIsTrimmed(s: string)
    ensures Trimmed(Trim(s))
    ensures Trimmed(s) ==> Trim(s) == s
  {
  }

  lemma TrimRightNewline(t: string)
    ensures TrimRight(t + "\n") == TrimRight(t)
  {
  }

  lemma TrimNewlines(t: string)
    ensures Trim(t + "\n") == Trim(t) && Trim("\n" + t) == Trim(t)
  {
    hide TrimLeft;
    TrimLeftNewline(t);
    TrimLeftEnd(t);
    TrimRightNewline(TrimLeft(t));
  }

  lemma {:induction false} TrimLeftEnd(t: string)
    ensures TrimLeft(t + "\n") == if TrimLeft(t) == "" then "" else TrimLeft(t) + "\n"
  {
    if t == "" {
      assert t + "\n" == "\n" && "\n"[1..] == "";
    } else {
      assert (t + "\n")[1..] == t[1..] + "\n";
      TrimLeftEnd(t[1..]);
    }
  }

  lemma TrimLeftNewline(t: string)
    ensures TrimLeft("\n" + t) == TrimLeft(t)
  {
  }

  // Lines.

  /** The lines of s, each with its newline; the last has none. */
  function Lines(s: string): (ls: seq<string>)
    ensures |ls| > 0
  {
    if s == "" then [""]
    else if s[0] == '\n' then ["\n"] + Lines(s[1..])
    else var rest := Lines(s[1..]); [[s[0]] + rest[0]] + rest[1..]
  }

  function Concat(lines: seq<string>): string {
    if lines == [] then "" else lines[0] + Concat(lines[1..])
  }

  /** Empty, or ending with a newline. */
  predicate Whole(s: string) {
    s == "" || s[|s| - 1] == '\n'
  }

  lemma LinesStep(c: char, t: string)
    ensures Lines([c] + t) == if c == '\n' then ["\n"] + Lines(t) else [[c] + Lines(t)[0]] + Lines(t)[1..]
  {
  }

  lemma {:induction false} LinesBoth(a: string, b: string)
    requires Whole(a)
    ensures Lines(a)[|Lines(a)| - 1] == "" && (a != "" ==> |Lines(a)| > 1)
    ensures Lines(a + b) == Lines(a)[..|Lines(a)| - 1] + Lines(b)
    decreases |a|
  {
    if a == "" {
      assert a + b == b;
    } else {
      hide Lines;
      var rest := a[1..];
      assert a == [a[0]] + rest && a + b == [a[0]] + (rest + b);
      LinesStep(a[0], rest);
      LinesStep(a[0], rest + b);
      LinesBoth(rest, b);
      LastsFront("\n", Lines(rest), Lines(b));
      if a[0] != '\n' {
        LastsHead([a[0]] + Lines(rest)[0], Lines(rest), Lines(b));
      }
    }
  }

  lemma LastsFront(l: string, a: seq<string>, b: seq<string>)
    requires a != []
    ensures ([l] + a)[..|a|] + b == [l] + (a[..|a| - 1] + b)
  {
  }

  lemma LastsHead(l: string, a: seq<string>, b: seq<string>)
    requires |a| > 1
    ensures ([l] + a[1..])[..|a| - 1] + b == [l] + (a[..|a| - 1] + b)[1..] && (a[..|a| - 1] + b)[0] == a[0]
  {
  }

  lemma {:induction false} FirstLine(t: string)
    ensures Lines(t)[0] <= t
  {
    if t != "" && t[0] != '\n' {
      FirstLine(t[1..]);
    } else if t != "" {
      assert Lines(t)[0] == "\n";
    }
  }

  lemma {:induction false} LinesFront(p: string, t: string)
    requires '\n' !in p
    ensures Lines(p + t) == [p + Lines(t)[0]] + Lines(t)[1..]
  {
    if p == "" {
      assert p + t == t && p + Lines(t)[0] == Lines(t)[0];
    } else {
      assert (p + t)[1..] == p[1..] + t;
      LinesFront(p[1..], t);
      assert [p[0]] + (p[1..] + Lines(t)[0]) == p + Lines(t)[0];
      assert p[0] in p;
    }
  }

  lemma {:induction false} LastLine(t: string)
    ensures var ls := Lines(t); Lines(t + "\n") == ls[..|ls| - 1] + [ls[|ls| - 1] + "\n", ""]
  {
    if t == "" {
      assert "" + "\n" == "\n" && "\n"[1..] == "";
      assert Lines("\n") == ["\n"] + [""];
    } else {
      assert (t + "\n")[1..] == t[1..] + "\n";
      LastLine(t[1..]);
      var rest := Lines(t[1..]);
      if t[0] != '\n' && |rest| == 1 {
        assert [t[0]] + (rest[0] + "\n") == ([t[0]] + rest[0]) + "\n";
      }
    }
  }

  lemma LineOnly(l: string)
    requires '\n' !in l
    ensures Lines(l + "\n") == [l + "\n", ""] && Lines(l) == [l]
  {
    assert l + "" == l;
    assert Lines("") == [""] && Lines("")[1..] == [];
    LinesFront(l, "");
    LastLine(l);
  }

  lemma {:induction false} ConcatLines(t: string)
    ensures Concat(Lines(t)) == t
  {
    if t == "" {
      assert [""][1..] == [];
    } else {
      hide Lines;
      assert t == [t[0]] + t[1..];
      LinesStep(t[0], t[1..]);
      ConcatLines(t[1..]);
      var rest := Lines(t[1..]);
      assert Concat(rest) == rest[0] + Concat(rest[1..]);
    }
  }

  ghost predicate OneLine(l: string) {
    exists own :: '\n' !in own && (l == own || l == own + "\n")
  }

  /** Every line is one line, and only the last may lack its newline. */
  ghost predicate Ruled(lines: seq<string>) {
    lines == [] || (OneLine(lines[0]) && (|lines| > 1 ==> Whole(lines[0])) && Ruled(lines[1..]))
  }

  lemma EmptyLines()
    ensures OneLine("") && OneLine("\n")
  {
    assert '\n' !in "" && "\n" == "" + "\n";
  }

  lemma OneLineFront(c: char, l: string)
    requires c != '\n' && OneLine(l)
    ensures OneLine([c] + l)
  {
    var own :| '\n' !in own && (l == own || l == own + "\n");
    var mine := [c] + own;
    assert '\n' !in mine && ([c] + l == mine || [c] + l == mine + "\n");
  }

  lemma {:induction false} LinesRuled(t: string)
    ensures Ruled(Lines(t)) && (|Lines(t)| > 1 ==> Lines(t)[0] != "")
  {
    hide OneLine;
    EmptyLines();
    if t == "" {
      assert [""][1..] == [];
    } else {
      LinesRuled(t[1..]);
      var rest := Lines(t[1..]);
      if t[0] == '\n' {
        assert Lines(t)[1..] == rest;
      } else {
        OneLineFront(t[0], rest[0]);
        assert Lines(t)[1..] == rest[1..];
      }
    }
  }

  // Splitting at a mark.

  /** The pieces of s between the marks m. */
  function Pieces(s: string, m: string): (ps: seq<string>)
    requires m != ""
    ensures |ps| > 0
    decreases |s|
  {
    if HasPrefix(s, m) then [""] + Pieces(s[|m|..], m)
    else if s == "" then [""]
    else var rest := Pieces(s[1..], m); [[s[0]] + rest[0]] + rest[1..]
  }

  /** No mark in s. */
  predicate Clear(s: string, m: string) {
    forall i :: 0 <= i < |s| ==> !HasPrefix(s[i..], m)
  }

  /** A mark that starts a line and stays on it, so that none overlaps another. */
  predicate StartsLine(m: string) {
    m != "" && m[0] == '\n' && forall i :: 1 <= i < |m| ==> m[i] != '\n'
  }

  lemma {:induction false} PiecesClear(s: string, m: string)
    requires m != ""
    ensures forall k :: 0 <= k < |Pieces(s, m)| ==> Clear(Pieces(s, m)[k], m)
    ensures Pieces(s, m)[0] <= s
    decreases |s|
  {
    if HasPrefix(s, m) {
      PiecesClear(s[|m|..], m);
    } else if s != "" {
      PiecesClear(s[1..], m);
      var rest := Pieces(s[1..], m);
      var first := [s[0]] + rest[0];
      forall i | 0 <= i < |first| ensures !HasPrefix(first[i..], m) {
        if i == 0 {
          assert first[0..] == first;
          PrefixOfPrefix(s, first, m);
        } else {
          assert first[i..] == rest[0][i - 1..];
        }
      }
    }
  }

  lemma {:induction false} PiecesOf(a: string, b: string, m: string)
    requires StartsLine(m) && Clear(a, m)
    ensures Pieces(a + m + b, m) == [a] + Pieces(b, m)
    decreases |a|
  {
    var all := a + m + b;
    if a == "" {
      assert all[..|m|] == m && all[|m|..] == b;
    } else {
      assert a[0..] == a;
      NoneAcross(a, b, m);
      assert all[1..] == a[1..] + m + b;
      ClearTail(a, 1, m);
      PiecesOf(a[1..], b, m);
      assert [a[0]] + a[1..] == a;
    }
  }

  /** A mark does not start in front of another and end in it. */
  lemma NoneAcross(a: string, b: string, m: string)
    requires StartsLine(m) && a != "" && !HasPrefix(a, m)
    ensures !HasPrefix(a + m + b, m)
  {
    var all := a + m + b;
    if |a| >= |m| {
      assert a <= all;
      PrefixOfPrefix(all, a, m);
    } else {
      assert all[|a|] == '\n';
      PrefixAt(all, m, |a|);
    }
  }

  lemma {:induction false} PiecesWhole(a: string, m: string)
    requires m != "" && Clear(a, m)
    ensures Pieces(a, m) == [a]
  {
    if a != "" {
      assert a[0..] == a;
      ClearTail(a, 1, m);
      PiecesWhole(a[1..], m);
      assert [a[0]] + a[1..] == a;
    }
  }

  lemma ClearTail(a: string, n: nat, m: string)
    requires Clear(a, m) && n <= |a|
    ensures Clear(a[n..], m)
  {
  }

  lemma ClearHead(a: string, t: string, m: string)
    requires Clear(a, m) && t <= a
    ensures Clear(t, m)
  {
    forall i | 0 <= i < |t| ensures !HasPrefix(t[i..], m) {
      assert t[i..] <= a[i..];
      PrefixOfPrefix(a[i..], t[i..], m);
    }
  }

  lemma ClearTrim(a: string, m: string)
    requires Clear(a, m)
    ensures Clear(Trim(a), m)
  {
    var b := TrimLeft(a);
    ClearTail(a, |a| - |b|, m);
    ClearHead(b, TrimRight(b), m);
  }

  /** A character that ends no mark and is none's start adds none. */
  lemma ClearLast(a: string, c: char, m: string)
    requires Clear(a, m) && |m| > 1 && m[|m| - 1] != c
    ensures Clear(a + [c], m)
  {
    var b := a + [c];
    forall i | 0 <= i < |b| ensures !HasPrefix(b[i..], m) {
      if i + |m| == |b| {
        assert b[i..][|m| - 1] == c;
        PrefixAt(b[i..], m, |m| - 1);
      } else if i < |a| {
        assert a[i..] <= b[i..];
        PrefixOfPrefix(b[i..], a[i..], m);
      }
    }
  }

  lemma ClearWithout(a: string, k: nat, m: string)
    requires k < |m| && m[k] !in a
    ensures Clear(a, m)
  {
  }
}
