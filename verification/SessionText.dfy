/** The session doc (internal/agent/handoff.go:72-146): how a text is split at
    the launcher's two headings, how a doc is written, and that the one undoes
    the other. */
module SessionText {
  import opened Common
  import opened TextLines

  const SECTION := "## CURRENT ATTEMPT"
  const ARCHIVE := "## Archive"
  const ENTRY := "### Attempt "
  const MARK := "\n" + ENTRY
  const NOTE := "Closed attempts, newest first: " + "the launcher keeps the last 10, " + "at most 16 KiB.\n"

  datatype Part = InHeader | InSection | InArchive

  datatype Doc = Doc(header: string, section: string, archive: seq<string>, hasSection: bool, hasArchive: bool)

  predicate Blank(c: char) {
    c == ' ' || c == '\t' || c == '\r' || c == '\n'
  }

  function TrimBlanks(s: string): (t: string)
    ensures t <= s
  {
    if s != "" && Blank(s[|s| - 1]) then TrimBlanks(s[..|s| - 1]) else s
  }

  predicate IsHeading(line: string) {
    TrimBlanks(line) == SECTION || TrimBlanks(line) == ARCHIVE
  }

  function Next(line: string, at: Part): Part {
    if TrimBlanks(line) == SECTION then InSection
    else if TrimBlanks(line) == ARCHIVE then InArchive
    else at
  }

  /** The lines of one part, in order: those whose latest heading opens it. */
  function Under(lines: seq<string>, at: Part, want: Part): string {
    if lines == [] then ""
    else if IsHeading(lines[0]) then Under(lines[1..], Next(lines[0], at), want)
    else (if at == want then lines[0] else "") + Under(lines[1..], at, want)
  }

  function Ends(lines: seq<string>, at: Part): Part {
    if lines == [] then at else Ends(lines[1..], Next(lines[0], at))
  }

  predicate Opens(lines: seq<string>, part: Part) {
    exists l :: l in lines && IsHeading(l) && Next(l, InHeader) == part
  }

  function Entries(pieces: seq<string>): (es: seq<string>)
    ensures |es| == |pieces|
  {
    seq(|pieces|, i requires 0 <= i < |pieces| => ENTRY + Trim(pieces[i]))
  }

  function SplitArchive(s: string): seq<string> {
    Entries(Pieces("\n" + s, MARK)[1..])
  }

  /** What parseHandoff reads. */
  function Parse(s: string): Doc {
    var lines := Lines(s);
    Doc(TrimRight(Under(lines, InHeader, InHeader)) + "\n", Trim(Under(lines, InHeader, InSection)),
        SplitArchive(Under(lines, InHeader, InArchive)), Opens(lines, InSection), Opens(lines, InArchive))
  }

  function Rendered(entries: seq<string>): string {
    if entries == [] then "" else "\n" + entries[0] + "\n" + Rendered(entries[1..])
  }

  function SectionText(d: Doc): string {
    if d.hasSection then "\n" + (SECTION + "\n") + ("\n" + d.section + "\n") else ""
  }

  function ArchiveText(d: Doc): string {
    if d.archive == [] then "" else "\n" + (ARCHIVE + "\n") + ("\n" + NOTE + Rendered(d.archive))
  }

  /** What render writes. */
  function Render(d: Doc): string {
    TrimRight(d.header) + "\n" + SectionText(d) + ArchiveText(d)
  }

  /** parseHandoff: each line goes to the part the last heading opened. */
  method ParseHandoff(s: string) returns (d: Doc)
    ensures d == Parse(s)
  {
    hide Lines, SplitArchive, TrimBlanks;
    var lines := Lines(s);
    var header, section, archive := "", "", "";
    var hasSection, hasArchive, part := false, false, InHeader;
    var i := 0;
    assert lines[0..] == lines;
    while i < |lines|
      invariant 0 <= i <= |lines|
      invariant header + Under(lines[i..], part, InHeader) == Under(lines, InHeader, InHeader)
      invariant section + Under(lines[i..], part, InSection) == Under(lines, InHeader, InSection)
      invariant archive + Under(lines[i..], part, InArchive) == Under(lines, InHeader, InArchive)
      invariant hasSection <==> Opens(lines[..i], InSection)
      invariant hasArchive <==> Opens(lines[..i], InArchive)
    {
      var ln := lines[i];
      UnderOn(lines, i, part, header, InHeader);
      UnderOn(lines, i, part, section, InSection);
      UnderOn(lines, i, part, archive, InArchive);
      i := i + 1;
      if TrimBlanks(ln) == SECTION {
        hasSection, part := true, InSection;
      } else if TrimBlanks(ln) == ARCHIVE {
        hasArchive, part := true, InArchive;
      } else {
        match part {
          case InHeader => header := header + ln;
          case InSection => section := section + ln;
          case InArchive => archive := archive + ln;
        }
      }
    }
    assert lines[..i] == lines && lines[i..] == [];
    assert header + "" == header && section + "" == section && archive + "" == archive;
    var entries := SplitEntries(archive);
    return Doc(TrimRight(header) + "\n", Trim(section), entries, hasSection, hasArchive);
  }

  lemma UnderOn(lines: seq<string>, i: nat, part: Part, held: string, want: Part)
    requires i < |lines|
    ensures held + Under(lines[i..], part, want)
         == (if part == want && !IsHeading(lines[i]) then held + lines[i] else held)
            + Under(lines[i + 1..], Next(lines[i], part), want)
    ensures Opens(lines[..i + 1], want) <==> Opens(lines[..i], want) || (IsHeading(lines[i]) && Next(lines[i], InHeader) == want)
  {
    hide TrimBlanks, SECTION, ARCHIVE;
    assert lines[i..][0] == lines[i] && lines[i..][1..] == lines[i + 1..];
    assert lines[..i + 1] == lines[..i] + [lines[i]];
  }

  /** splitArchive. */
  method SplitEntries(s: string) returns (out: seq<string>)
    ensures out == SplitArchive(s)
  {
    hide Pieces, ENTRY, MARK;
    Marks();
    var pieces := Pieces("\n" + s, MARK);
    out := [];
    for i := 0 to |pieces|
      invariant |out| == if i == 0 then 0 else i - 1
      invariant forall j :: 0 <= j < |out| ==> out[j] == ENTRY + Trim(pieces[j + 1])
    {
      if i == 0 {
        continue;
      }
      out := out + [ENTRY + Trim(pieces[i])];
    }
    assert out == Entries(pieces[1..]);
  }

  // The launcher's words.

  /** A heading starts with two number signs and a space. */
  lemma HeadingShape(l: string)
    requires IsHeading(l)
    ensures |l| >= 3 && l[0] == '#' && l[1] == '#' && l[2] == ' '
  {
  }

  lemma HeadingLine(l: string)
    ensures IsHeading(l + "\n") <==> IsHeading(l)
    ensures forall at :: Next(l + "\n", at) == Next(l, at)
  {
  }

  lemma Headings()
    ensures '\n' !in SECTION && '\n' !in ARCHIVE
    ensures IsHeading(SECTION) && IsHeading(ARCHIVE) && !IsHeading("")
    ensures forall at :: Next(SECTION, at) == InSection && Next(ARCHIVE, at) == InArchive
  {
  }

  lemma Marks()
    ensures |ENTRY| == 12 && '\n' !in ENTRY && ENTRY[0] == '#' && ENTRY[2] == '#' && ENTRY[11] == ' '
    ensures StartsLine(MARK) && MARK == "\n" + ENTRY && |MARK| == 13 && MARK[12] == ' ' && MARK[1] == '#'
  {
  }

  // What a doc in the launcher's form is.

  /** No line of s is a heading. */
  predicate Plain(s: string) {
    forall l :: l in Lines(s) ==> !IsHeading(l)
  }

  predicate IsEntry(e: string) {
    HasPrefix(e, ENTRY) && Plain(e) && Trimmed(e[|ENTRY|..]) && Clear(e[|ENTRY|..], MARK)
  }

  predicate Normal(d: Doc) {
    && d.header == TrimRight(d.header) + "\n" && Plain(d.header)
    && Trimmed(d.section) && Plain(d.section) && (!d.hasSection ==> d.section == "")
    && (forall e :: e in d.archive ==> IsEntry(e))
    && (d.archive != [] ==> d.hasArchive)
  }

  lemma PlainBoth(a: string, b: string)
    requires Whole(a)
    ensures Plain(a + b) <==> Plain(a) && Plain(b)
  {
    hide IsHeading, Lines;
    LinesBoth(a, b);
    NoneEmpty();
    var la, lb := Lines(a), Lines(b);
    var init := la[..|la| - 1];
    assert la == init + [""];
    assert forall l :: l in la <==> l in init || l == "";
    assert forall l :: l in Lines(a + b) <==> l in init || l in lb;
  }

  lemma NoneEmpty()
    ensures !IsHeading("") && Plain("") && Plain("\n") && Whole("\n")
  {
  }

  lemma PlainNewline(t: string)
    ensures Plain(t + "\n") <==> Plain(t)
  {
    hide IsHeading, Lines;
    var ls := Lines(t);
    var init, last := ls[..|ls| - 1], ls[|ls| - 1];
    LastLine(t);
    HeadingLine(last);
    NoneEmpty();
    assert ls == init + [last];
    assert forall l :: l in ls <==> l in init || l == last;
    assert forall l :: l in Lines(t + "\n") <==> l in init || l == last + "\n" || l == "";
  }

  /** A front without a newline that leaves the first line no heading. */
  lemma PlainFront(p: string, t: string)
    requires '\n' !in p && Plain(t)
    requires |p| >= 1 && |p + t| > 2 && ((p + t)[2] != ' ' || (p + t)[0] != '#')
    ensures Plain(p + t)
  {
    hide IsHeading, Lines;
    LinesFront(p, t);
    FirstLine(t);
    var first := p + Lines(t)[0];
    assert first <= p + t;
    if IsHeading(first) {
      HeadingShape(first);
      assert false;
    }
    assert forall l :: l in Lines(p + t) ==> l == first || l in Lines(t);
  }

  lemma {:induction false} PlainTrimRight(t: string)
    requires Plain(t)
    ensures Plain(TrimRight(t))
  {
    hide Plain;
    if t != "" && t[|t| - 1] == '\n' {
      assert t == t[..|t| - 1] + "\n";
      PlainNewline(t[..|t| - 1]);
      PlainTrimRight(t[..|t| - 1]);
    }
  }

  lemma {:induction false} PlainTrimLeft(t: string)
    requires Plain(t)
    ensures Plain(TrimLeft(t))
  {
    hide Plain;
    if t != "" && t[0] == '\n' {
      assert t == "\n" + t[1..];
      PlainBoth("\n", t[1..]);
      PlainTrimLeft(t[1..]);
    }
  }

  /** One line, without a number sign. */
  lemma PlainLine(l: string)
    requires '\n' !in l && '#' !in l
    ensures Plain(l + "\n")
  {
    hide IsHeading, Lines;
    LineOnly(l);
    NoneEmpty();
    HeadingLine(l);
    if IsHeading(l) {
      HeadingShape(l);
      assert false;
    }
  }

  lemma NoteIsPlain()
    ensures Plain(NOTE) && Whole(NOTE) && '#' !in NOTE
  {
    hide Plain;
    NoteLine();
    PlainLine(NOTE[..|NOTE| - 1]);
    assert NOTE == NOTE[..|NOTE| - 1] + "\n";
  }

  lemma NoteLine()
    ensures NOTE != "" && NOTE[|NOTE| - 1] == '\n' && '#' !in NOTE && '\n' !in NOTE[..|NOTE| - 1]
  {
    NoteSigns();
    NoteEnd();
  }

  lemma NoteSigns()
    ensures '#' !in NOTE
  {
    assert '#' !in "Closed attempts, newest first: ";
    assert '#' !in "the launcher keeps the last 10, ";
    assert '#' !in "at most 16 KiB.\n";
  }

  lemma NoteEnd()
    ensures NOTE != "" && NOTE[|NOTE| - 1] == '\n' && '\n' !in NOTE[..|NOTE| - 1]
  {
    var p, q, r := "Closed attempts, newest first: ", "the launcher keeps the last 10, ", "at most 16 KiB.";
    assert '\n' !in p;
    assert '\n' !in q;
    assert '\n' !in r;
    assert NOTE[..|NOTE| - 1] == p + q + r;
  }

  // The parts of a text.

  /** What one part holds of a text read from a part. */
  function TextUnder(t: string, at: Part, want: Part): string {
    Under(Lines(t), at, want)
  }

  function TextEnds(t: string, at: Part): Part {
    Ends(Lines(t), at)
  }

  lemma {:induction false} UnderBoth(a: seq<string>, b: seq<string>, at: Part, want: Part)
    ensures Under(a + b, at, want) == Under(a, at, want) + Under(b, Ends(a, at), want)
    ensures Ends(a + b, at) == Ends(b, Ends(a, at))
  {
    hide TrimBlanks, SECTION, ARCHIVE;
    if a == [] {
      assert a + b == b;
    } else {
      assert (a + b)[1..] == a[1..] + b;
      UnderBoth(a[1..], b, Next(a[0], at), want);
    }
  }

  lemma TextBoth(a: string, b: string, at: Part, want: Part)
    requires Whole(a)
    ensures TextUnder(a + b, at, want) == TextUnder(a, at, want) + TextUnder(b, TextEnds(a, at), want)
    ensures TextEnds(a + b, at) == TextEnds(b, TextEnds(a, at))
  {
    hide Lines, IsHeading, Next, Under, Ends;
    LinesBoth(a, b);
    var la := Lines(a);
    var init := la[..|la| - 1];
    assert la == init + [""];
    UnderBoth(init, [""], at, want);
    UnderBoth(init, Lines(b), at, want);
    OnlyEmpty(Ends(init, at), want);
  }

  lemma OnlyEmpty(at: Part, want: Part)
    ensures Under([""], at, want) == "" && Ends([""], at) == at
  {
  }

  lemma {:induction false} PlainUnder(lines: seq<string>, at: Part, want: Part)
    requires forall l :: l in lines ==> !IsHeading(l)
    ensures Under(lines, at, want) == if at == want then Concat(lines) else ""
    ensures Ends(lines, at) == at
  {
    hide TrimBlanks, SECTION, ARCHIVE;
    if lines != [] {
      assert !IsHeading(lines[0]);
      PlainUnder(lines[1..], at, want);
    }
  }

  lemma PlainText(t: string, at: Part, want: Part)
    requires Plain(t)
    ensures TextUnder(t, at, want) == if at == want then t else ""
    ensures TextEnds(t, at) == at
  {
    hide Lines, Under, Ends, IsHeading;
    PlainUnder(Lines(t), at, want);
    ConcatLines(t);
  }

  /** The part a heading opens. */
  function HeadingOf(part: Part): string {
    if part == InSection then SECTION else ARCHIVE
  }

  lemma HeadingText(own: Part, at: Part, want: Part)
    requires own != InHeader
    ensures TextUnder(HeadingOf(own) + "\n", at, want) == "" && TextEnds(HeadingOf(own) + "\n", at) == own
    ensures forall p :: Opens(Lines(HeadingOf(own) + "\n"), p) <==> p == own
  {
    hide Lines, IsHeading, Next, SECTION, ARCHIVE;
    Headings();
    var h := HeadingOf(own);
    LineOnly(h);
    HeadingLine(h);
    OnlyEmpty(own, want);
    assert [h + "\n", ""][1..] == [""] && [""][1..] == [];
    assert h + "\n" in [h + "\n", ""];
    assert forall l :: l in [h + "\n", ""] <==> l == h + "\n" || l == "";
  }

  /** The lines under a part are plain, joined. */
  lemma {:induction false} UnderPlain(lines: seq<string>, at: Part, want: Part)
    requires Ruled(lines)
    ensures Plain(Under(lines, at, want))
  {
    hide Plain, IsHeading, Next, OneLine;
    NoneEmpty();
    if lines != [] {
      var l, rest := lines[0], lines[1..];
      UnderPlain(rest, Next(l, at), want);
      UnderPlain(rest, at, want);
      var below := Under(rest, at, want);
      if !IsHeading(l) && at == want {
        RuledPlain(l);
        if |lines| > 1 {
          PlainBoth(l, below);
        } else {
          assert below == "" && l + below == l;
        }
      } else if !IsHeading(l) {
        assert "" + below == below;
      }
    }
  }

  lemma RuledPlain(l: string)
    requires OneLine(l) && !IsHeading(l)
    ensures Plain(l)
  {
    hide IsHeading, Lines;
    var own :| '\n' !in own && (l == own || l == own + "\n");
    LineOnly(own);
    NoneEmpty();
  }

  lemma {:induction false} NoneUnder(lines: seq<string>, at: Part, want: Part)
    requires at != want && !Opens(lines, want) && want != InHeader
    ensures Under(lines, at, want) == ""
  {
    hide TrimBlanks, SECTION, ARCHIVE;
    if lines != [] {
      assert lines[0] in lines;
      assert forall l :: l in lines[1..] ==> l in lines;
      NoneUnder(lines[1..], Next(lines[0], at), want);
    }
  }

  // The archive's entries.

  /** Each piece is plain again under its entry's own heading. */
  lemma {:induction false} PiecesPlain(lead: string, s: string)
    requires Plain(lead + s)
    ensures Plain(lead + Pieces(s, MARK)[0])
    ensures forall k :: 1 <= k < |Pieces(s, MARK)| ==> Plain(ENTRY + Pieces(s, MARK)[k])
    decreases |s|
  {
    assert HasPrefix(s, MARK) ==> |MARK| <= |s|;
    Marks();
    hide Plain, ENTRY, MARK, HasPrefix;
    if HasPrefix(s, MARK) {
      var rest := s[|MARK|..];
      AfterMark(lead, s);
      PiecesPlain(ENTRY, rest);
      assert Pieces(s, MARK) == [""] + Pieces(rest, MARK) && lead + "" == lead;
    } else if s != "" {
      var next := lead + [s[0]];
      assert lead + s == next + s[1..];
      PiecesPlain(next, s[1..]);
      assert lead + Pieces(s, MARK)[0] == next + Pieces(s[1..], MARK)[0];
    }
  }

  lemma AfterMark(lead: string, s: string)
    requires Plain(lead + s) && HasPrefix(s, MARK)
    ensures Plain(lead) && Plain(ENTRY + s[|MARK|..])
  {
    hide Plain, ENTRY, MARK;
    Marks();
    var rest := s[|MARK|..];
    assert lead + s == (lead + "\n") + (ENTRY + rest);
    PlainBoth(lead + "\n", ENTRY + rest);
    PlainNewline(lead);
  }

  lemma PieceIsEntry(p: string)
    requires Clear(p, MARK) && Plain(ENTRY + p)
    ensures IsEntry(ENTRY + Trim(p))
  {
    hide Plain, ENTRY, MARK, Clear, Trim, Trimmed;
    TrimIsTrimmed(p);
    ClearTrim(p, MARK);
    PieceIsPlain(p);
    assert (ENTRY + Trim(p))[|ENTRY|..] == Trim(p) && (ENTRY + Trim(p))[..|ENTRY|] == ENTRY;
  }

  lemma PieceIsPlain(p: string)
    requires Plain(ENTRY + p)
    ensures Plain(ENTRY + Trim(p))
  {
    Marks();
    hide Plain, ENTRY, TrimLeft, TrimRight;
    LeadPlain(ENTRY, p);
    RightOf(ENTRY, TrimLeft(p));
    PlainTrimRight(ENTRY + TrimLeft(p));
  }

  lemma {:induction false} RightOf(h: string, q: string)
    requires h != "" && h[|h| - 1] != '\n'
    ensures TrimRight(h + q) == h + TrimRight(q)
  {
    if q == "" {
      assert h + q == h;
    } else if q[|q| - 1] == '\n' {
      assert (h + q)[..|h + q| - 1] == h + q[..|q| - 1];
      RightOf(h, q[..|q| - 1]);
    }
  }

  lemma {:induction false} LeadPlain(h: string, p: string)
    requires '\n' !in h && |h| > 2 && h[2] != ' ' && Plain(h + p)
    ensures Plain(h + TrimLeft(p))
  {
    hide Plain;
    if p != "" && p[0] == '\n' {
      assert h + p == (h + "\n") + p[1..];
      PlainBoth(h + "\n", p[1..]);
      PlainFront(h, p[1..]);
      LeadPlain(h, p[1..]);
    }
  }

  lemma SplitIsEntries(archive: string)
    requires Plain(archive)
    ensures forall e :: e in SplitArchive(archive) ==> IsEntry(e)
  {
    hide Plain, ENTRY, MARK, Clear, Pieces, IsEntry;
    Marks();
    var pieces := Pieces("\n" + archive, MARK);
    NoneEmpty();
    PlainBoth("\n", archive);
    assert "" + ("\n" + archive) == "\n" + archive;
    PiecesPlain("", "\n" + archive);
    PiecesClear("\n" + archive, MARK);
    forall k | 1 <= k < |pieces| ensures IsEntry(ENTRY + Trim(pieces[k])) {
      PieceIsEntry(pieces[k]);
    }
  }

  lemma SplitNothing()
    ensures SplitArchive("") == []
  {
    hide ENTRY, MARK, Pieces;
    Marks();
    ClearWithout("\n", 1, MARK);
    PiecesWhole("\n", MARK);
    assert "\n" + "" == "\n";
  }

  /** What the parser reads is in the launcher's form. */
  lemma ParseIsNormal(s: string)
    ensures Normal(Parse(s))
  {
    hide Plain, Lines, Under, Opens, SplitArchive, IsEntry, Ruled, TrimRight, TrimLeft, Trim, Trimmed;
    var lines := Lines(s);
    LinesRuled(s);
    UnderPlain(lines, InHeader, InHeader);
    UnderPlain(lines, InHeader, InSection);
    UnderPlain(lines, InHeader, InArchive);
    HeaderNormal(Under(lines, InHeader, InHeader));
    SectionNormal(Under(lines, InHeader, InSection));
    SplitIsEntries(Under(lines, InHeader, InArchive));
    if !Opens(lines, InSection) {
      NoneUnder(lines, InHeader, InSection);
      TrimIsTrimmed("");
      assert Trim("") == "" by { EmptyTrim(); }
    }
    if !Opens(lines, InArchive) {
      NoneUnder(lines, InHeader, InArchive);
      SplitNothing();
    }
  }

  lemma EmptyTrim()
    ensures Trim("") == ""
  {
  }

  lemma HeaderNormal(t: string)
    requires Plain(t)
    ensures var h := TrimRight(t) + "\n"; h == TrimRight(h) + "\n" && Plain(h)
  {
    hide Plain;
    PlainTrimRight(t);
    PlainNewline(TrimRight(t));
    TrimRightNewline(TrimRight(t));
  }

  lemma SectionNormal(t: string)
    requires Plain(t)
    ensures Trimmed(Trim(t)) && Plain(Trim(t))
  {
    hide Plain, Trimmed;
    TrimIsTrimmed(t);
    PlainTrimLeft(t);
    PlainTrimRight(TrimLeft(t));
  }

  // Reading what was written.

  /** Equal but for whether an empty archive had a heading. */
  predicate Same(a: Doc, b: Doc) {
    a.(hasArchive := b.hasArchive) == b
  }

  function Newline(c: bool): string {
    if c then "\n" else ""
  }

  /** What a written doc holds in each part. */
  function Held(d: Doc, want: Part): string {
    match want
    case InHeader => d.header + Newline(d.hasSection || d.archive != [])
    case InSection => if d.hasSection then "\n" + d.section + "\n" + Newline(d.archive != []) else ""
    case InArchive => if d.archive == [] then "" else "\n" + NOTE + Rendered(d.archive)
  }

  /** A blank line, a heading and plain text under it. */
  lemma UnderHeading(own: Part, body: string, at: Part, want: Part)
    requires Plain(body) && own != InHeader && at != own
    ensures var t := "\n" + (HeadingOf(own) + "\n") + body;
            && TextUnder(t, at, want) == (if want == at then "\n" else if want == own then body else "")
            && TextEnds(t, at) == own
  {
    hide Plain, TextUnder, TextEnds, HeadingOf;
    NoneEmpty();
    var h := HeadingOf(own) + "\n";
    assert "\n" + h + body == "\n" + (h + body);
    TextBoth("\n", h + body, at, want);
    PlainText("\n", at, want);
    TextBoth(h, body, at, want);
    HeadingText(own, at, want);
    PlainText(body, own, want);
  }

  lemma SectionUnder(d: Doc, want: Part)
    requires Plain(d.section)
    ensures TextUnder(SectionText(d), InHeader, want) ==
            if !d.hasSection || want.InArchive? then "" else if want.InHeader? then "\n" else "\n" + d.section + "\n"
    ensures TextEnds(SectionText(d), InHeader) == (if d.hasSection then InSection else InHeader)
    ensures Whole(SectionText(d))
  {
    hide Plain, TextUnder, TextEnds, SECTION;
    NoneEmpty();
    if d.hasSection {
      PlainBoth("\n", d.section);
      PlainNewline("\n" + d.section);
      UnderHeading(InSection, "\n" + d.section + "\n", InHeader, want);
    } else {
      PlainText("", InHeader, want);
    }
  }

  lemma ArchiveUnder(d: Doc, at: Part, want: Part)
    requires forall e :: e in d.archive ==> IsEntry(e)
    requires !at.InArchive?
    ensures TextUnder(ArchiveText(d), at, want) ==
            if d.archive == [] then "" else if want == at then "\n" else if want.InArchive? then "\n" + NOTE + Rendered(d.archive) else ""
  {
    hide Plain, TextUnder, TextEnds, ARCHIVE, NOTE, Rendered, IsEntry;
    NoneEmpty();
    if d.archive == [] {
      PlainText("", at, want);
    } else {
      ListPlain(d.archive);
      UnderHeading(InArchive, "\n" + NOTE + Rendered(d.archive), at, want);
    }
  }

  lemma ListPlain(es: seq<string>)
    requires forall e :: e in es ==> IsEntry(e)
    ensures Plain("\n" + NOTE + Rendered(es))
  {
    hide Plain, NOTE, IsEntry;
    NoneEmpty();
    NoteIsPlain();
    RenderedPlain(es);
    PlainBoth("\n", NOTE);
    PlainBoth("\n" + NOTE, Rendered(es));
  }

  lemma {:induction false} RenderedPlain(es: seq<string>)
    requires forall e :: e in es ==> IsEntry(e)
    ensures Plain(Rendered(es))
  {
    hide Plain, ENTRY, MARK, Clear, Trimmed;
    NoneEmpty();
    if es != [] {
      var e := es[0];
      assert IsEntry(e);
      RenderedPlain(es[1..]);
      PlainNewline(e);
      PlainBoth("\n", e + "\n");
      assert "\n" + (e + "\n") == "\n" + e + "\n";
      PlainBoth("\n" + e + "\n", Rendered(es[1..]));
    }
  }

  lemma PartOf(d: Doc, want: Part)
    requires Normal(d)
    ensures TextUnder(Render(d), InHeader, want) == Held(d, want)
  {
    hide Plain, TextUnder, TextEnds, SectionText, ArchiveText, IsEntry, Trimmed, TrimRight, Rendered, NOTE;
    var sect, arch := SectionText(d), ArchiveText(d);
    assert Render(d) == d.header + (sect + arch);
    PlainText(d.header, InHeader, want);
    SectionUnder(d, want);
    ArchiveUnder(d, if d.hasSection then InSection else InHeader, want);
    TextBoth(d.header, sect + arch, InHeader, want);
    TextBoth(sect, arch, InHeader, want);
  }

  lemma HeaderBack(d: Doc)
    requires d.header == TrimRight(d.header) + "\n"
    ensures TrimRight(Held(d, InHeader)) + "\n" == d.header
  {
  }

  lemma SectionBack(d: Doc)
    requires Trimmed(d.section) && (!d.hasSection ==> d.section == "")
    ensures Trim(Held(d, InSection)) == d.section
  {
    hide Trim, Trimmed;
    var t := d.section;
    TrimIsTrimmed(t);
    TrimNewlines(t);
    TrimNewlines("\n" + t);
    TrimNewlines("\n" + t + "\n");
    assert "\n" + t + "\n" + "" == "\n" + t + "\n";
  }

  lemma {:induction false} RenderedPieces(a: string, es: seq<string>)
    requires Clear(a, MARK) && forall e :: e in es ==> IsEntry(e)
    ensures Pieces(a + Rendered(es), MARK) == [a] + seq(|es|, k requires 0 <= k < |es| => Below(es[k]) + "\n")
    decreases |es|
  {
    hide ENTRY, MARK, Clear, Plain, Trimmed;
    Marks();
    if es == [] {
      assert a + "" == a;
      PiecesWhole(a, MARK);
    } else {
      assert IsEntry(es[0]);
      var x, rest := Below(es[0]) + "\n", es[1..];
      ClearLast(Below(es[0]), '\n', MARK);
      assert a + Rendered(es) == a + MARK + (x + Rendered(rest)) by {
        assert es[0] == ENTRY + Below(es[0]);
      }
      PiecesOf(a, x + Rendered(rest), MARK);
      RenderedPieces(x, rest);
    }
  }

  /** An entry's text after its heading's words. */
  function Below(e: string): string {
    if HasPrefix(e, ENTRY) then e[|ENTRY|..] else e
  }

  lemma ArchiveBack(es: seq<string>)
    requires forall e :: e in es ==> IsEntry(e)
    ensures SplitArchive(if es == [] then "" else "\n" + NOTE + Rendered(es)) == es
  {
    hide ENTRY, MARK, NOTE, Clear, Plain, Trimmed, Pieces, Rendered, Trim;
    Marks();
    if es == [] {
      SplitNothing();
    } else {
      var lead := "\n" + ("\n" + NOTE);
      NoteIsPlain();
      ClearWithout(lead, 1, MARK);
      RenderedPieces(lead, es);
      assert "\n" + ("\n" + NOTE + Rendered(es)) == lead + Rendered(es);
      forall k | 0 <= k < |es| ensures ENTRY + Trim(Below(es[k]) + "\n") == es[k] {
        assert IsEntry(es[k]);
        TrimIsTrimmed(Below(es[k]));
        TrimNewlines(Below(es[k]));
      }
    }
  }

  lemma OpensBoth(a: string, b: string, part: Part)
    requires Whole(a)
    ensures Opens(Lines(a + b), part) <==> Opens(Lines(a), part) || Opens(Lines(b), part)
  {
    hide Lines, IsHeading, Next;
    LinesBoth(a, b);
    NoneEmpty();
    var la, lb := Lines(a), Lines(b);
    var init := la[..|la| - 1];
    assert la == init + [""];
    assert forall l :: l in la <==> l in init || l == "";
    assert forall l :: l in Lines(a + b) <==> l in init || l in lb;
  }

  lemma OpensUnder(own: Part, body: string, part: Part)
    requires Plain(body) && own != InHeader
    ensures Opens(Lines("\n" + (HeadingOf(own) + "\n") + body), part) <==> part == own
  {
    hide Lines, IsHeading, HeadingOf, Next;
    var h := HeadingOf(own) + "\n";
    assert "\n" + h + body == "\n" + (h + body);
    NoneEmpty();
    OpensBoth("\n", h + body, part);
    OpensBoth(h, body, part);
    HeadingText(own, InHeader, InHeader);
  }

  lemma OpensBack(d: Doc)
    requires Normal(d)
    ensures Opens(Lines(Render(d)), InSection) <==> d.hasSection
  {
    hide Lines, IsHeading, IsEntry, Trimmed, TrimRight, NOTE, Rendered, SECTION, ARCHIVE;
    var sect, arch := SectionText(d), ArchiveText(d);
    assert Render(d) == d.header + (sect + arch);
    SectionUnder(d, InHeader);
    OpensBoth(d.header, sect + arch, InSection);
    OpensBoth(sect, arch, InSection);
    NoneEmpty();
    if d.hasSection {
      PlainBoth("\n", d.section);
      PlainNewline("\n" + d.section);
      OpensUnder(InSection, "\n" + d.section + "\n", InSection);
    }
    if d.archive != [] {
      ListPlain(d.archive);
      OpensUnder(InArchive, "\n" + NOTE + Rendered(d.archive), InSection);
    }
  }

  /** Reading a written doc gives it back, entry by entry. */
  lemma RenderThenParse(d: Doc)
    requires Normal(d)
    ensures Same(Parse(Render(d)), d)
  {
    hide Lines, Under, Plain, IsEntry, TrimRight, Trim, Trimmed, Render, Opens, SplitArchive, Held;
    PartOf(d, InHeader);
    PartOf(d, InSection);
    PartOf(d, InArchive);
    HeaderBack(d);
    SectionBack(d);
    assert Held(d, InArchive) == if d.archive == [] then "" else "\n" + NOTE + Rendered(d.archive) by {
      HeldArchive(d);
    }
    ArchiveBack(d.archive);
    OpensBack(d);
  }

  lemma HeldArchive(d: Doc)
    ensures Held(d, InArchive) == if d.archive == [] then "" else "\n" + NOTE + Rendered(d.archive)
  {
  }

  /** The doc's normal form: reading and writing it again changes nothing, for
      every text. */
  lemma RenderParseIdempotent(s: string)
    ensures var once := Render(Parse(s)); Render(Parse(once)) == once
  {
    hide Parse, Normal;
    ParseIsNormal(s);
    RenderThenParse(Parse(s));
  }
}
