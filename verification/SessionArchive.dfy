/** The session doc's archive (internal/agent/handoff.go:148-206) and the cut of
    a text to a bound (internal/agent/brief.go:539-548). A text is a sequence of
    characters, measured in bytes of UTF-8. */
module SessionArchive {
  import opened Common
  import opened TextLines
  import opened SessionText

  const MAX_ATTEMPTS: nat := 10
  const MAX_BYTES: nat := 16 * 1024

  function Width(c: char): (n: nat)
    ensures 1 <= n <= 4
  {
    if c as int < 0x80 then 1 else if c as int < 0x800 then 2 else if c as int < 0x10000 then 3 else 4
  }

  /** The bytes of a character in UTF-8 (section 3 of RFC 3629). */
  function Utf8(c: char): seq<nat> {
    var n := c as int;
    if n <= 0x7F then [n]
    else if n <= 0x7FF then [0xC0 + n / 0x40, 0x80 + n % 0x40]
    else if n <= 0xFFFF then [0xE0 + n / 0x1000, 0x80 + n / 0x40 % 0x40, 0x80 + n % 0x40]
    else [0xF0 + n / 0x40000, 0x80 + n / 0x1000 % 0x40, 0x80 + n / 0x40 % 0x40, 0x80 + n % 0x40]
  }

  /** The width counted is that of the encoding, whose bytes are bytes. */
  lemma WidthIs(c: char)
    ensures |Utf8(c)| == Width(c) && forall i :: 0 <= i < |Utf8(c)| ==> Utf8(c)[i] < 0x100
  {
  }

  function Bytes(s: string): (n: nat)
    ensures |s| <= n <= 4 * |s|
  {
    if s == "" then 0 else Width(s[0]) + Bytes(s[1..])
  }

  lemma {:induction false} BytesBoth(a: string, b: string)
    ensures Bytes(a + b) == Bytes(a) + Bytes(b)
  {
    if a == "" {
      assert a + b == b;
    } else {
      assert (a + b)[1..] == a[1..] + b;
      BytesBoth(a[1..], b);
    }
  }

  // Cutting a text.

  const ELLIPSIS: char := '\U{2026}'

  /** s without the spaces, tabs and newlines that end it. */
  function TrimEnd(s: string): (t: string)
    ensures t <= s
    ensures forall i :: |t| <= i < |s| ==> s[i] == ' ' || s[i] == '\t' || s[i] == '\n'
  {
    if s != "" && (s[|s| - 1] == ' ' || s[|s| - 1] == '\t' || s[|s| - 1] == '\n') then TrimEnd(s[..|s| - 1]) else s
  }

  /** The most whole characters of s that n bytes hold. */
  function TakeBytes(s: string, n: nat): (t: string)
    ensures t <= s && Bytes(t) <= n
    ensures t != s ==> n < Bytes(t) + 4
  {
    if s == "" || Width(s[0]) > n then "" else [s[0]] + TakeBytes(s[1..], n - Width(s[0]))
  }

  /** A text that fits is taken whole; of another the next character would not fit. */
  lemma {:induction false} WholeTaken(s: string, n: nat)
    ensures Bytes(s) <= n ==> TakeBytes(s, n) == s
    ensures var t := TakeBytes(s, n); |t| < |s| ==> Bytes(t) + Width(s[|t|]) > n
    decreases |s|
  {
    if s != "" && Width(s[0]) <= n {
      WholeTaken(s[1..], n - Width(s[0]));
      var t := TakeBytes(s, n);
      assert t[1..] == TakeBytes(s[1..], n - Width(s[0]));
    }
  }

  /** cutText. */
  function CutText(s: string, n: nat): string {
    if Bytes(s) <= n then s
    else if n < 3 then ""
    else TrimEnd(TakeBytes(s, n - 3)) + [ELLIPSIS]
  }

  lemma CutTextFits(s: string, n: nat)
    ensures Bytes(CutText(s, n)) <= n
  {
    if Bytes(s) > n >= 3 {
      var whole := TakeBytes(s, n - 3);
      var t := TrimEnd(whole);
      BytesBoth(t, whole[|t|..]);
      assert t + whole[|t|..] == whole;
      BytesBoth(t, [ELLIPSIS]);
      assert Bytes([ELLIPSIS]) == 3 by {
        assert [ELLIPSIS][1..] == "";
      }
    }
  }

  predicate EndsBlank(s: string) {
    s != "" && (s[|s| - 1] == ' ' || s[|s| - 1] == '\t' || s[|s| - 1] == '\n')
  }

  /** A text that fits is not cut. One that does not is cut to a beginning and an ellipsis:
      as many characters as fit beside it, without the blanks they end with. */
  lemma {:induction false} CutTextIs(s: string, n: nat)
    ensures Bytes(s) <= n ==> CutText(s, n) == s
    ensures Bytes(s) > n && n < 3 ==> CutText(s, n) == ""
    ensures Bytes(s) > n && n >= 3 ==>
              var t, taken := CutText(s, n), TakeBytes(s, n - 3);
              && t != "" && t[|t| - 1] == '\U{2026}' && t[..|t| - 1] <= taken && !EndsBlank(t[..|t| - 1])
              && (forall i :: |t| - 1 <= i < |taken| ==> taken[i] == ' ' || taken[i] == '\t' || taken[i] == '\n')
              && Bytes(taken) <= n - 3 && |taken| < |s| && Bytes(taken) + Width(s[|taken|]) > n - 3
  {
    if Bytes(s) > n && n >= 3 {
      WholeTaken(s, n - 3);
      TrimmedEnd(TakeBytes(s, n - 3));
    }
  }

  lemma {:induction false} TrimmedEnd(s: string)
    ensures !EndsBlank(TrimEnd(s))
    decreases |s|
  {
    if EndsBlank(s) {
      TrimmedEnd(s[..|s| - 1]);
    }
  }

  // The section's own line.

  const OPENING := "Attempt `"

  /** The first c at or after i, or the end. */
  function Find(s: string, i: nat, c: char): (k: nat)
    requires i <= |s|
    ensures i <= k <= |s| && (k < |s| ==> s[k] == c) && c !in s[i..k]
    decreases |s| - i
  {
    if i == |s| || s[i] == c then i
    else
      var k := Find(s, i + 1, c);
      assert s[i..k] == [s[i]] + s[i + 1..k];
      k
  }

  /** Where a launcher's line that starts at i ends: through the newline after
      the quoted attempt. The quoted part may itself span lines. */
  function MarkEnd(s: string, i: nat): (end: Option<nat>)
    requires i <= |s|
    ensures end.Some? ==> i < end.value <= |s| && (end.value < |s| ==> s[end.value - 1] == '\n')
  {
    if !HasPrefix(s[i..], OPENING) then None
    else
      var from := i + |OPENING|;
      var quote := Find(s, from, '`');
      if quote == from || quote == |s| then None
      else
        var end := Find(s, quote + 1, '\n');
        Some(if end < |s| then end + 1 else end)
  }

  /** The first launcher's line of s at or after i. */
  function FindMark(s: string, i: nat): (at: Option<(nat, nat)>)
    requires i <= |s|
    ensures at.Some? ==>
              var (a, b) := at.value;
              a < b <= |s| && (a == 0 || s[a - 1] == '\n') && (b < |s| ==> s[b - 1] == '\n')
    decreases |s| - i
  {
    if (i == 0 || s[i - 1] == '\n') && MarkEnd(s, i).Some? then Some((i, MarkEnd(s, i).value))
    else if i == |s| then None
    else FindMark(s, i + 1)
  }

  /** sectionMark's match taken out. */
  function WithoutMark(s: string): string {
    match FindMark(s, 0)
    case None => s
    case Some((a, b)) => s[..a] + s[b..]
  }

  /** The launcher's line that names a section's attempt: from the start a of a line, the
      attempt between backquotes, the second at q, through that line's end b. */
  predicate MarkAt(s: string, a: nat, q: nat, b: nat) {
    && a + 9 < q < b <= |s| && (a == 0 || s[a - 1] == '\n')
    && s[a..a + 9] == "Attempt `" && s[q] == '`' && '`' !in s[a + 9..q]
    && (if '\n' in s[q + 1..b] then s[b - 1] == '\n' && '\n' !in s[q + 1..b - 1] else b == |s|)
  }

  lemma OpensMark(s: string, a: nat)
    requires a <= |s|
    ensures HasPrefix(s[a..], OPENING) <==> a + 9 <= |s| && s[a..a + 9] == "Attempt `"
  {
    if a + 9 <= |s| {
      assert s[a..][..9] == s[a..a + 9];
    }
  }

  lemma MarkEndFinds(s: string, a: nat)
    requires a <= |s| && (a == 0 || s[a - 1] == '\n') && MarkEnd(s, a).Some?
    ensures exists q: nat :: MarkAt(s, a, q, MarkEnd(s, a).value)
  {
    OpensMark(s, a);
    var q := Find(s, a + 9, '`');
    var n := Find(s, q + 1, '\n');
    hide OPENING, HasPrefix;
    assert MarkAt(s, a, q, if n < |s| then n + 1 else n);
  }

  lemma MarkEndIs(s: string, a: nat, q: nat, b: nat)
    requires MarkAt(s, a, q, b)
    ensures MarkEnd(s, a) == Some(b)
  {
    OpensMark(s, a);
    FindIs(s, a + 9, '`', q);
    if '\n' in s[q + 1..b] {
      FindIs(s, q + 1, '\n', b - 1);
    } else {
      NotFound(s, q + 1, '\n');
    }
  }

  lemma NotFound(s: string, i: nat, c: char)
    requires i <= |s| && c !in s[i..]
    ensures Find(s, i, c) == |s|
  {
  }

  lemma FindIs(s: string, i: nat, c: char, k: nat)
    requires i <= k < |s| && s[k] == c && c !in s[i..k]
    ensures Find(s, i, c) == k
  {
  }

  /** The launcher's line at a is the first. */
  ghost predicate FirstMark(s: string, a: nat, b: nat) {
    (exists q: nat :: MarkAt(s, a, q, b)) && forall c: nat, q: nat, d: nat :: c < a ==> !MarkAt(s, c, q, d)
  }

  /** The first such line is taken out of the section, and nothing else; without one the
      section stays as it is. */
  lemma MarkIsTakenOut(s: string)
    ensures (exists a: nat, b: nat :: FirstMark(s, a, b) && WithoutMark(s) == s[..a] + s[b..])
            || ((forall a: nat, q: nat, b: nat :: !MarkAt(s, a, q, b)) && WithoutMark(s) == s)
  {
    hide MarkAt, MarkEnd;
    MarkFound(s, 0);
    if FindMark(s, 0).Some? {
      var (a, b) := FindMark(s, 0).value;
      assert FirstMark(s, a, b) && WithoutMark(s) == s[..a] + s[b..];
    }
  }

  lemma {:induction false} MarkFound(s: string, i: nat)
    requires i <= |s|
    ensures FindMark(s, i).None? ==> forall a: nat, q: nat, b: nat :: a >= i ==> !MarkAt(s, a, q, b)
    ensures FindMark(s, i).Some? ==> var (x, y) := FindMark(s, i).value;
              (exists q: nat :: MarkAt(s, x, q, y)) && forall a: nat, q: nat, b: nat :: i <= a < x ==> !MarkAt(s, a, q, b)
    decreases |s| - i
  {
    hide MarkEnd, MarkAt;
    var starts := i == 0 || s[i - 1] == '\n';
    if starts && MarkEnd(s, i).Some? {
      MarkEndFinds(s, i);
    }
    forall q: nat, b: nat | MarkAt(s, i, q, b) ensures MarkEnd(s, i) == Some(b) {
      MarkEndIs(s, i, q, b);
    }
    forall a: nat, q: nat, b: nat | MarkAt(s, a, q, b) ensures a < |s| && (a == i ==> starts) {
      StartsItsLine(s, a, q, b);
    }
    if starts && MarkEnd(s, i).Some? {
      assert FindMark(s, i) == Some((i, MarkEnd(s, i).value));
      var q: nat :| MarkAt(s, i, q, MarkEnd(s, i).value);
    } else if i < |s| {
      MarkFound(s, i + 1);
      assert FindMark(s, i) == FindMark(s, i + 1);
      assert forall q: nat, b: nat :: !MarkAt(s, i, q, b);
    }
  }

  lemma StartsItsLine(s: string, a: nat, q: nat, b: nat)
    requires MarkAt(s, a, q, b)
    ensures a < |s| && (a == 0 || s[a - 1] == '\n')
  {
  }

  const THREE := "\n### "
  const FOUR := "\n#### "

  /** Headings of the third level moved one down. */
  function Demote(s: string): string
    decreases |s|
  {
    if s == "" then ""
    else if HasPrefix(s, THREE) then FOUR + Demote(s[|THREE|..])
    else [s[0]] + Demote(s[1..])
  }

  function JoinedBy(ps: seq<string>, m: string): string
    requires ps != []
  {
    if |ps| == 1 then ps[0] else ps[0] + m + JoinedBy(ps[1..], m)
  }

  /** Every heading of the third level goes one level down, and nothing else changes: the
      text between them is as it was. */
  lemma {:induction false} DemoteReplaces(s: string)
    ensures Demote(s) == JoinedBy(Pieces(s, "\n### "), "\n#### ")
    decreases |s|
  {
    var ps := Pieces(s, THREE);
    if s == "" {
    } else if HasPrefix(s, THREE) {
      DemoteReplaces(s[|THREE|..]);
      var more := Pieces(s[|THREE|..], THREE);
      assert ps == [""] + more && ps[1..] == more;
      assert "" + FOUR == FOUR;
    } else {
      DemoteReplaces(s[1..]);
      var rest := Pieces(s[1..], THREE);
      assert ps == [[s[0]] + rest[0]] + rest[1..] && ps[1..] == rest[1..];
      if |rest| > 1 {
        assert [s[0]] + (rest[0] + FOUR + JoinedBy(rest[1..], FOUR)) == ([s[0]] + rest[0]) + FOUR + JoinedBy(rest[1..], FOUR);
      }
    }
  }

  predicate Space(c: char) {
    || c == ' ' || 0x09 <= c as int <= 0x0d || c as int == 0x85 || c as int == 0xa0 || c as int == 0x1680
    || 0x2000 <= c as int <= 0x200a || c as int == 0x2028 || c as int == 0x2029 || c as int == 0x202f
    || c as int == 0x205f || c as int == 0x3000
  }

  /** Whether the section holds anything to keep. */
  predicate HasText(d: Doc) {
    d.hasSection && exists i :: 0 <= i < |d.section| && !Space(d.section[i])
  }

  /** What Unicode has as white space (PropList.txt of Unicode 15). */
  lemma SpaceIs(c: char)
    ensures Space(c) <==> c as int in {0x09, 0x0A, 0x0B, 0x0C, 0x0D, 0x20, 0x85, 0xA0, 0x1680, 0x2000, 0x2001, 0x2002, 0x2003, 0x2004, 0x2005,
                                       0x2006, 0x2007, 0x2008, 0x2009, 0x200A, 0x2028, 0x2029, 0x202F, 0x205F, 0x3000}
  {
  }

  /** A doc whose section has nothing but white space has nothing to archive. */
  lemma NothingToArchive(d: Doc)
    ensures !HasText(d) <==> !d.hasSection || forall i :: 0 <= i < |d.section| ==> Space(d.section[i])
  {
  }

  /** The entry a section becomes, archived at the time stamp. */
  function NewEntry(section: string, id: string, stamp: string): string {
    TrimRight(ENTRY + Title(id, stamp) + "\n" + Demote("\n" + Trim(WithoutMark(section))))
  }

  function Title(id: string, stamp: string): string {
    (if id == "" then "(unnamed)" else id) + " (archived " + stamp + ")"
  }

  function Size(es: seq<string>): nat {
    if es == [] then 0 else Bytes(es[0]) + 2 + Size(es[1..])
  }

  /** The newest entries that fit, and never none of some. */
  function Newest(es: seq<string>): seq<string> {
    if |es| > 1 && Size(es) > MAX_BYTES then Newest(es[..|es| - 1]) else es
  }

  function TrimmedArchive(es: seq<string>): seq<string> {
    var few := Newest(if |es| > MAX_ATTEMPTS then es[..MAX_ATTEMPTS] else es);
    if |few| == 1 && Size(few) > MAX_BYTES then [CutText(few[0], MAX_BYTES - 2)] else few
  }

  /** The doc after archive. */
  function Archived(d: Doc, id: string, stamp: string): Doc {
    var entries := if HasText(d) then [NewEntry(d.section, id, stamp)] + d.archive else d.archive;
    d.(section := "", hasSection := false, archive := TrimmedArchive(entries))
  }

  class HandoffDoc {
    var header: string
    var section: string
    var archive: seq<string>
    var hasSection: bool
    var hasArchive: bool

    constructor (d: Doc)
      ensures Value() == d
    {
      header, section, archive := d.header, d.section, d.archive;
      hasSection, hasArchive := d.hasSection, d.hasArchive;
    }

    function Value(): Doc
      reads this
    {
      Doc(header, section, archive, hasSection, hasArchive)
    }

    /** archive: the section becomes the newest entry. */
    method Archive(id: string, stamp: string)
      modifies this
      ensures Value() == Archived(old(Value()), id, stamp)
    {
      hide NewEntry, TrimmedArchive, Title, Demote, WithoutMark, ENTRY, FindMark, TrimRight;
      var blank := true;
      for i := 0 to |section|
        invariant blank <==> forall j :: 0 <= j < i ==> Space(section[j])
      {
        blank := blank && Space(section[i]);
      }
      if hasSection && !blank {
        var name := if id == "" then "(unnamed)" else id;
        var body := section;
        var loc := FindMark(body, 0);
        if loc.Some? {
          body := body[..loc.value.0] + body[loc.value.1..];
        }
        TakenOut(section);
        body := Demote("\n" + Trim(body));
        var entry := ENTRY + (name + " (archived " + stamp + ")") + "\n" + body;
        EntryOf(section, id, stamp);
        archive := [TrimRight(entry)] + archive;
      }
      section, hasSection := "", false;
      TrimArchive();
    }

    /** trimArchive. */
    method TrimArchive()
      modifies `archive
      ensures archive == TrimmedArchive(old(archive))
    {
      hide Bytes, CutText;
      if |archive| > MAX_ATTEMPTS {
        archive := archive[..MAX_ATTEMPTS];
      }
      ghost var few := archive;
      while |archive| > 1 && Size(archive) > MAX_BYTES
        invariant Newest(archive) == Newest(few)
        decreases |archive|
      {
        archive := archive[..|archive| - 1];
      }
      if |archive| == 1 && Size(archive) > MAX_BYTES {
        archive := [CutText(archive[0], MAX_BYTES - 2)];
      }
    }
  }

  lemma TakenOut(s: string)
    ensures WithoutMark(s) == match FindMark(s, 0) case None => s case Some(loc) => s[..loc.0] + s[loc.1..]
  {
  }

  lemma EntryOf(section: string, id: string, stamp: string)
    ensures NewEntry(section, id, stamp)
         == TrimRight(ENTRY + ((if id == "" then "(unnamed)" else id) + " (archived " + stamp + ")") + "\n"
                      + Demote("\n" + Trim(WithoutMark(section))))
  {
  }

  // The bounds.

  /** An archive keeps its newest entries, as many as its bounds allow; only an
      entry that is over the bound alone is cut. */
  lemma ArchiveBounds(es: seq<string>)
    ensures var kept := TrimmedArchive(es);
            && |kept| <= 10 && Size(kept) <= 16 * 1024 && (es != [] ==> kept != [])
            && (kept <= es || (|kept| == 1 && Size(es[..1]) > 16 * 1024 && kept[0] == CutText(es[0], 16 * 1024 - 2)))
            && (|kept| < |es| && |kept| < 10 ==> Size(es[..|kept| + 1]) > 16 * 1024)
  {
    hide Bytes, CutText;
    var few := if |es| > MAX_ATTEMPTS then es[..MAX_ATTEMPTS] else es;
    NewestBounds(few);
    var newest := Newest(few);
    assert newest <= es;
    if |newest| < |few| {
      assert few[..|newest| + 1] == es[..|newest| + 1];
    }
    if |newest| == 1 && Size(newest) > MAX_BYTES {
      assert newest == es[..1];
      CutTextFits(newest[0], MAX_BYTES - 2);
      var cut := [CutText(newest[0], MAX_BYTES - 2)];
      assert Size(cut) == Bytes(cut[0]) + 2 by {
        assert cut[1..] == [];
      }
    }
  }

  lemma {:induction false} NewestBounds(es: seq<string>)
    ensures var newest := Newest(es);
            && newest <= es && (es != [] ==> newest != []) && (|newest| <= 1 || Size(newest) <= MAX_BYTES)
            && (|newest| < |es| ==> Size(es[..|newest| + 1]) > MAX_BYTES)
  {
    if |es| > 1 && Size(es) > MAX_BYTES {
      var less := es[..|es| - 1];
      NewestBounds(less);
      var n := |Newest(es)|;
      if n < |less| {
        assert less[..n + 1] == es[..n + 1];
      } else {
        assert es[..n + 1] == es;
      }
    }
  }

  // The new entry comes back.

  lemma PlainWithoutMark(s: string)
    requires Plain(s)
    ensures Plain(WithoutMark(s))
  {
    hide Plain, FindMark;
    if FindMark(s, 0).Some? {
      var (a, b) := FindMark(s, 0).value;
      PlainTakenOut(s, a, b);
    }
  }

  lemma PlainTakenOut(s: string, a: nat, b: nat)
    requires Plain(s) && a <= b <= |s| && (a == 0 || s[a - 1] == '\n') && (b == 0 || b == |s| || s[b - 1] == '\n')
    ensures Plain(s[..a] + s[b..])
  {
    hide Plain;
    var head, tail := s[..a], s[b..];
    assert s == head + s[a..];
    PlainBoth(head, s[a..]);
    NoneEmpty();
    if b < |s| {
      assert s == s[..b] + tail;
      PlainBoth(s[..b], tail);
    } else {
      assert tail == "";
    }
    PlainBoth(head, tail);
  }

  lemma Levels()
    ensures |THREE| == 5 && |FOUR| == 6 && THREE[0] == '\n' && forall i :: 1 <= i < 5 ==> THREE[i] != '\n'
    ensures FOUR == "\n" + ("#" + THREE[1..]) && THREE == "\n" + THREE[1..] && FOUR[4] == '#' && THREE[4] == ' '
    ensures THREE <= MARK && '\n' !in FOUR[1..] && |THREE[1..]| == 4
  {
  }

  lemma DemoteStep(s: string)
    requires s != ""
    ensures Demote(s) == if HasPrefix(s, THREE) then FOUR + Demote(s[5..]) else [s[0]] + Demote(s[1..])
  {
  }

  /** Moving headings down makes no line a heading of the launcher's. */
  lemma {:induction false} DemotePlain(lead: string, s: string)
    requires Plain(lead + s)
    ensures Plain(lead + Demote(s))
    decreases |s|
  {
    if s == "" {
      assert Demote(s) == s;
    } else {
      hide Plain, THREE, FOUR, Demote;
      Levels();
      DemoteStep(s);
      if HasPrefix(s, THREE) {
        LineDown(lead, s);
        DemotePlain(THREE[1..], s[5..]);
        LineUp(lead, Demote(s[5..]));
      } else {
        var next := lead + [s[0]];
        assert lead + s == next + s[1..];
        DemotePlain(next, s[1..]);
        assert lead + ([s[0]] + Demote(s[1..])) == next + Demote(s[1..]);
      }
    }
  }

  lemma LineDown(lead: string, s: string)
    requires Plain(lead + s) && HasPrefix(s, THREE)
    ensures Plain(lead) && Plain(THREE[1..] + s[|THREE|..])
  {
    Levels();
    hide Plain, THREE, FOUR;
    assert lead + s == (lead + "\n") + (THREE[1..] + s[|THREE|..]);
    PlainBoth(lead + "\n", THREE[1..] + s[|THREE|..]);
    PlainNewline(lead);
  }

  lemma LineUp(lead: string, rest: string)
    requires Plain(lead) && Plain(THREE[1..] + rest)
    ensures Plain(lead + (FOUR + rest))
  {
    Levels();
    PlainFront("#", THREE[1..] + rest);
    hide Plain, THREE, FOUR;
    PlainNewline(lead);
    PlainBoth(lead + "\n", "#" + (THREE[1..] + rest));
    assert lead + (FOUR + rest) == (lead + "\n") + ("#" + (THREE[1..] + rest));
  }

  /** No text starts with less newlines after it. */
  lemma {:induction false} DemoteStart(s: string, p: string)
    requires '\n' !in p
    ensures HasPrefix(Demote(s), p) ==> HasPrefix(s, p)
    decreases |p|
  {
    if p != "" && HasPrefix(Demote(s), p) && s != "" {
      PrefixAt(Demote(s), p, 0);
      assert p[0] in p;
      if !HasPrefix(s, THREE) {
        assert Demote(s)[1..] == Demote(s[1..]);
        assert Demote(s)[..|p|][1..] == Demote(s[1..])[..|p| - 1];
        DemoteStart(s[1..], p[1..]);
        assert s[..|p|] == p;
      }
    }
  }

  /** No heading of the third level is left. */
  lemma {:induction false} DemoteClear(s: string)
    ensures Clear(Demote(s), THREE)
    ensures s != "" && s[0] == '\n' ==> Demote(s) != "" && Demote(s)[0] == '\n'
    decreases |s|
  {
    assert HasPrefix(s, THREE) ==> |THREE| <= |s|;
    Levels();
    hide THREE, FOUR, HasPrefix;
    if s == "" {
    } else if HasPrefix(s, THREE) {
      DemoteClear(s[|THREE|..]);
      FourClear(Demote(s[|THREE|..]));
    } else {
      DemoteClear(s[1..]);
      DemoteStart(s[1..], THREE[1..]);
      CharClear(s[0], s[1..], Demote(s[1..]));
    }
  }

  lemma FourClear(t: string)
    requires Clear(t, THREE)
    ensures Clear(FOUR + t, THREE) && (FOUR + t)[0] == '\n'
  {
    Levels();
    hide THREE, FOUR;
    var d := FOUR + t;
    forall i | 0 <= i < |d| ensures !HasPrefix(d[i..], THREE) {
      if i == 0 {
        assert d[0..] == d;
        PrefixAt(d, THREE, 4);
      } else if i < 6 {
        assert d[i] == FOUR[1..][i - 1];
        PrefixAt(d[i..], THREE, 0);
      } else {
        assert d[i..] == t[i - 6..];
      }
    }
  }

  lemma CharClear(c: char, s: string, t: string)
    requires Clear(t, THREE) && !HasPrefix([c] + s, THREE)
    requires HasPrefix(t, THREE[1..]) ==> HasPrefix(s, THREE[1..])
    ensures Clear([c] + t, THREE)
  {
    Levels();
    hide THREE;
    var d := [c] + t;
    forall i | 0 <= i < |d| ensures !HasPrefix(d[i..], THREE) {
      if i == 0 {
        assert d[0..] == d;
        FrontOf(c, t, THREE);
        FrontOf(c, s, THREE);
      } else {
        assert d[i..] == t[i - 1..];
      }
    }
  }

  lemma FrontOf(c: char, t: string, p: string)
    requires p != ""
    ensures HasPrefix([c] + t, p) <==> c == p[0] && HasPrefix(t, p[1..])
  {
  }

  /** One line over demoted text holds no mark. */
  lemma TitleClear(title: string, below: string)
    requires '\n' !in title && Clear(below, THREE) && below != "" && below[0] == '\n'
    ensures Clear(title + "\n" + below, MARK)
  {
    Levels();
    Marks();
    hide THREE, MARK;
    var x := title + "\n" + below;
    forall i | 0 <= i < |x| ensures !HasPrefix(x[i..], MARK) {
      if i < |title| {
        assert x[i..][0] == title[i] && title[i] in title;
        PrefixAt(x[i..], MARK, 0);
      } else if i == |title| {
        assert x[i..][1] == below[0];
        PrefixAt(x[i..], MARK, 1);
      } else {
        assert x[i..] == below[i - |title| - 1..];
        PrefixTrans(x[i..], THREE, MARK);
      }
    }
  }

  lemma PrefixTrans(s: string, p: string, q: string)
    requires p <= q
    ensures HasPrefix(s, q) ==> HasPrefix(s, p)
  {
  }

  lemma TitleShape(id: string, stamp: string)
    requires '\n' !in id && '\n' !in stamp
    ensures '\n' !in Title(id, stamp) && Title(id, stamp) != ""
    ensures Title(id, stamp)[0] == (if id == "" then '(' else id[0])
  {
  }

  /** A section archived under a one-line id is one entry. */
  lemma NewIsEntry(section: string, id: string, stamp: string)
    requires Plain(section) && '\n' !in id && '\n' !in stamp
    ensures IsEntry(NewEntry(section, id, stamp))
    ensures Title(id, stamp) <= Below(NewEntry(section, id, stamp))
  {
    hide Plain, ENTRY, MARK, THREE, Clear, Title, Demote, Trim;
    var title, body := Title(id, stamp), Trim(WithoutMark(section));
    var below := Demote("\n" + body);
    Marks();
    TitleShape(id, stamp);
    NoneEmpty();
    PlainWithoutMark(section);
    SectionNormal(WithoutMark(section));
    PlainBoth("\n", body);
    assert "" + ("\n" + body) == "\n" + body && "" + below == below;
    DemotePlain("", "\n" + body);
    DemoteClear("\n" + body);
    var x := title + "\n" + below;
    assert ENTRY + title + "\n" == (ENTRY + title) + "\n" && (ENTRY + title + "\n")[2] == ENTRY[2];
    PlainFront(ENTRY + title, "\n");
    PlainBoth(ENTRY + title + "\n", below);
    TitleClear(title, below);
    assert ENTRY + title + "\n" + below == ENTRY + x;
    RightOf(ENTRY, x);
    PlainTrimRight(ENTRY + x);
    ClearHead(x, TrimRight(x), MARK);
    TitleStays(title, below);
    assert (ENTRY + TrimRight(x))[|ENTRY|..] == TrimRight(x);
  }

  lemma TitleStays(title: string, below: string)
    requires '\n' !in title && title != ""
    ensures title <= TrimRight(title + "\n" + below) && Trimmed(TrimRight(title + "\n" + below))
  {
    RightKeeps(title, "\n" + below);
    assert title + ("\n" + below) == title + "\n" + below;
    assert title[|title| - 1] in title && title[0] in title;
  }

  lemma {:induction false} RightKeeps(a: string, b: string)
    requires a != "" && a[|a| - 1] != '\n'
    ensures a <= TrimRight(a + b)
  {
    if b == "" {
      assert a + b == a;
    } else if b[|b| - 1] == '\n' {
      assert (a + b)[..|a + b| - 1] == a + b[..|b| - 1];
      RightKeeps(a, b[..|b| - 1]);
    }
  }

  // Cutting an entry leaves an entry.

  lemma {:induction false} CutLines(p: string, e: string)
    requires p <= e
    ensures var cut, own := Lines(p + [ELLIPSIS]), Lines(e);
            && |cut| <= |own| && (forall k :: 0 <= k < |cut| - 1 ==> cut[k] == own[k])
            && cut[|cut| - 1] != "" && cut[|cut| - 1][|cut[|cut| - 1]| - 1] == ELLIPSIS
  {
    if p == "" {
      assert p + [ELLIPSIS] == [ELLIPSIS] && [ELLIPSIS][1..] == "";
    } else {
      assert (p + [ELLIPSIS])[1..] == p[1..] + [ELLIPSIS];
      CutLines(p[1..], e[1..]);
    }
  }

  lemma PlainCut(p: string, e: string)
    requires p <= e && Plain(e)
    ensures Plain(p + [ELLIPSIS])
  {
    CutLines(p, e);
    hide Lines;
    var cut := Lines(p + [ELLIPSIS]);
    var last := cut[|cut| - 1];
    assert !IsHeading(last) by {
      assert TrimBlanks(last) == last;
    }
    forall i | 0 <= i < |cut| ensures !IsHeading(cut[i]) {
      if i < |cut| - 1 {
        assert cut[i] == Lines(e)[i];
      }
    }
  }

  predicate Blank3(c: char) {
    c == ' ' || c == '\t' || c == '\n'
  }

  /** More than blanks among the first n bytes. */
  predicate Shows(s: string, n: nat) {
    exists i :: 0 <= i < |TakeBytes(s, n)| && !Blank3(TakeBytes(s, n)[i])
  }

  lemma TakeStep(p: string, s: string, n: nat)
    requires p != ""
    ensures TakeBytes(p + s, n) == if Width(p[0]) > n then "" else [p[0]] + TakeBytes(p[1..] + s, n - Width(p[0]))
    ensures Bytes(p) == Width(p[0]) + Bytes(p[1..])
  {
    assert (p + s)[1..] == p[1..] + s;
  }

  lemma {:induction false} TakeFront(p: string, s: string, m: nat)
    ensures TakeBytes(p + s, Bytes(p) + m) == p + TakeBytes(s, m)
  {
    if p == "" {
      assert p + s == s && p + TakeBytes(s, m) == TakeBytes(s, m);
    } else {
      TakeFront(p[1..], s, m);
      TakeStep(p, s, Bytes(p) + m);
      FrontBack(p, TakeBytes(s, m));
    }
  }

  lemma FrontBack(p: string, t: string)
    requires p != ""
    ensures [p[0]] + (p[1..] + t) == p + t
  {
  }

  lemma TakeOne(p: string, n: nat)
    requires p != ""
    ensures TakeBytes(p, n) == if Width(p[0]) > n then "" else [p[0]] + TakeBytes(p[1..], n - Width(p[0]))
  {
  }

  lemma {:induction false} TakePrefix(a: string, b: string, n: nat)
    requires a <= b
    ensures TakeBytes(a, n) <= TakeBytes(b, n) && (TakeBytes(a, n) != a ==> TakeBytes(a, n) == TakeBytes(b, n))
  {
    if a == "" {
      assert TakeBytes(a, n) == "";
    } else {
      hide TakeBytes, Bytes, Width;
      TakeOne(a, n);
      TakeOne(b, n);
      if Width(a[0]) <= n {
        TakePrefix(a[1..], b[1..], n - Width(a[0]));
        FrontPrefix(a, TakeBytes(a[1..], n - Width(a[0])), TakeBytes(b[1..], n - Width(a[0])));
      }
    }
  }

  lemma FrontPrefix(a: string, t: string, u: string)
    requires a != "" && t <= u
    ensures [a[0]] + t <= [a[0]] + u && ([a[0]] + t != a ==> t != a[1..])
  {
    assert a == [a[0]] + a[1..];
  }

  lemma EntryBytes()
    ensures Bytes(ENTRY) == 12
  {
    var a, b := "### At", "tempt ";
    assert Bytes(a) == 6 && Bytes(b) == 6;
    BytesBoth(a, b);
    assert a + b == ENTRY;
  }

  /** What a cut leaves of an entry: its heading's words and what shows of its text. */
  lemma CutEntry(e: string, n: nat)
    requires IsEntry(e) && n >= 100 && Bytes(e) > n
    ensures var t := TakeBytes(Below(e), n - 15);
            CutText(e, n) == (if Shows(Below(e), n - 15) then ENTRY + TrimEnd(t) else ENTRY[..11]) + [ELLIPSIS]
    ensures Shows(Below(e), n - 15) ==> TrimEnd(TakeBytes(Below(e), n - 15)) != ""
  {
    hide Plain, ENTRY, MARK, Clear, Bytes, TakeBytes, TrimEnd;
    Marks();
    EntryBytes();
    var x := Below(e);
    assert e == ENTRY + x;
    TakeFront(ENTRY, x, n - 15);
    var t := TakeBytes(x, n - 15);
    EndOfFront(t);
  }

  lemma {:induction false} EndOfFront(t: string)
    ensures TrimEnd(ENTRY + t) == if exists i :: 0 <= i < |t| && !Blank3(t[i]) then ENTRY + TrimEnd(t) else ENTRY[..11]
    ensures (exists i :: 0 <= i < |t| && !Blank3(t[i])) <==> TrimEnd(t) != ""
    decreases |t|
  {
    hide ENTRY;
    EntryEnd();
    if t == "" {
      assert ENTRY + t == ENTRY;
    } else {
      var init, last := t[..|t| - 1], t[|t| - 1];
      assert (ENTRY + t)[..|ENTRY + t| - 1] == ENTRY + init;
      if Blank3(last) {
        EndOfFront(init);
        assert (exists i :: 0 <= i < |t| && !Blank3(t[i])) <==> exists i :: 0 <= i < |init| && !Blank3(init[i]) by {
          assert t == init + [last];
        }
      }
    }
  }

  lemma EntryEnd()
    ensures |ENTRY| == 12 && TrimEnd(ENTRY) == ENTRY[..11]
  {
    assert ENTRY[11] == ' ' && ENTRY[..11][10] == 't';
  }

  /** An entry that shows some of its text, cut to n bytes, is an entry. */
  lemma CutIsEntry(e: string, n: nat)
    requires IsEntry(e) && n >= 100 && Bytes(e) > n && Shows(Below(e), n - 15)
    ensures IsEntry(CutText(e, n))
  {
    hide Plain, ENTRY, MARK, Clear, Bytes, TakeBytes, CutText, Shows;
    Marks();
    CutEntry(e, n);
    var y := TrimEnd(TakeBytes(Below(e), n - 15));
    assert y <= TakeBytes(Below(e), n - 15) <= Below(e);
    assert y <= Below(e) && ENTRY + y <= e;
    PlainCut(ENTRY + y, e);
    ClearHead(Below(e), y, MARK);
    ClearLast(y, ELLIPSIS, MARK);
    assert ENTRY + y + [ELLIPSIS] == ENTRY + (y + [ELLIPSIS]);
    assert (ENTRY + (y + [ELLIPSIS]))[12..] == y + [ELLIPSIS] && (ENTRY + (y + [ELLIPSIS]))[..12] == ENTRY;
  }

  /** An entry cut within its own heading: no entry any more. */
  function Stub(): string {
    ENTRY[..11] + [ELLIPSIS]
  }

  lemma StubShape()
    ensures |Stub()| == 12 && Stub()[11] == ELLIPSIS && Stub()[2] == '#' && forall i :: 3 <= i < 12 ==> Stub()[i] != '#'
  {
  }

  lemma StubPlain()
    ensures Plain(Stub() + "\n")
  {
    StubShape();
    LineOnly(Stub());
    PlainNewline(Stub());
    if IsHeading(Stub()) {
      HeadingShape(Stub());
      assert false;
    }
  }

  /** No mark around a stub. */
  lemma StubClear(a: string)
    requires '#' !in a
    ensures Clear(a + "\n" + Stub() + "\n", MARK)
  {
    hide MARK, Stub;
    Marks();
    StubShape();
    var s := a + "\n" + Stub() + "\n";
    forall i | 0 <= i < |s| ensures !HasPrefix(s[i..], MARK) {
      PrefixAt(s[i..], MARK, 0);
      PrefixAt(s[i..], MARK, 1);
      PrefixAt(s[i..], MARK, 12);
      assert i + 1 < |a| ==> s[i + 1] == a[i + 1];
      assert |a| < i + 1 < |s| - 1 ==> s[i + 1] == Stub()[i + 1 - |a| - 1];
      StubLine(i, |a|, s);
    }
  }

  lemma StubLine(i: nat, n: nat, s: string)
    requires n < |s| && |s| == n + 14 && s[n] == '\n' && s[n + 12] == ELLIPSIS && s[n + 13] == '\n'
    requires s[n + 1..n + 13] == Stub()
    ensures n < i < n + 13 ==> s[i] != '\n'
  {
    assert '\n' !in Stub();
    assert n < i < n + 13 ==> s[i] == s[n + 1..n + 13][i - n - 1];
  }

  lemma ParsedArchive(s: string)
    ensures Parse(s).archive == SplitArchive(TextUnder(s, InHeader, InArchive))
  {
    hide SplitArchive, Under, Opens;
  }

  function StubText(): string {
    "\n" + NOTE + ("\n" + Stub() + "\n")
  }

  lemma StubSplits()
    ensures SplitArchive(StubText()) == []
  {
    hide NOTE, MARK, Stub, Clear, Pieces;
    Marks();
    NoteIsPlain();
    var lead := "\n" + ("\n" + NOTE);
    StubClear(lead);
    assert "\n" + StubText() == lead + "\n" + Stub() + "\n";
    PiecesWhole("\n" + StubText(), MARK);
  }

  lemma StubUnder(d: Doc)
    requires d.header == TrimRight(d.header) + "\n" && Plain(d.header) && !d.hasSection && d.archive == [Stub()]
    ensures TextUnder(Render(d), InHeader, InArchive) == StubText()
  {
    hide Plain, TextUnder, TextEnds, StubText, Render, TrimRight, HeadingOf, Stub;
    var arch := "\n" + (HeadingOf(InArchive) + "\n") + StubText();
    StubTextPlain();
    UnderHeading(InArchive, StubText(), InHeader, InArchive);
    PlainText(d.header, InHeader, InArchive);
    TextBoth(d.header, arch, InHeader, InArchive);
    StubRender(d);
    assert "" + StubText() == StubText();
  }

  lemma StubRender(d: Doc)
    requires d.header == TrimRight(d.header) + "\n" && !d.hasSection && d.archive == [Stub()]
    ensures Render(d) == d.header + ("\n" + (HeadingOf(InArchive) + "\n") + StubText())
  {
    hide NOTE, ARCHIVE, SECTION, Stub, TrimRight;
    assert Rendered(d.archive) == "\n" + Stub() + "\n" by {
      assert d.archive[1..] == [];
    }
    assert d.header + "" == d.header;
  }

  lemma StubTextPlain()
    ensures Plain(StubText())
  {
    hide Plain, NOTE, Stub;
    NoteIsPlain();
    StubPlain();
    NoneEmpty();
    PlainBoth("\n", NOTE);
    PlainBoth("\n", Stub() + "\n");
    assert "\n" + Stub() + "\n" == "\n" + (Stub() + "\n");
    PlainBoth("\n" + NOTE, "\n" + Stub() + "\n");
  }

  /** Archiving a section under a one-line id puts exactly one new entry first and
      the older ones after it. The doc as written and read again is that doc, entry
      for entry, exactly when the new entry is within the bound or its title shows
      before the cut: an id of blanks alone up to there does not. */
  lemma ArchivedComesBack(d: Doc, id: string, stamp: string)
    requires Normal(d) && HasText(d)
    requires '\n' !in id && '\n' !in stamp
    ensures var after, entry := Archived(d, id, stamp), NewEntry(d.section, id, stamp);
            && after.archive != [] && after.archive[1..] <= d.archive && !after.hasSection
            && after.archive[0] == CutText(entry, MAX_BYTES - 2)
            && (after.archive[1..] != [] ==> after.archive[0] == entry)
            && (Same(Parse(Render(after)), after) <==> Bytes(entry) + 2 <= MAX_BYTES || Shows(Title(id, stamp), MAX_BYTES - 17))
  {
    hide Plain, IsEntry, NewEntry, Parse, Render, CutText, Trimmed, TrimRight, Shows, Stub, ENTRY, MARK, Title, Bytes, Below, TrimmedArchive, TakeBytes, SplitArchive, TextUnder, StubText;
    var after, entry := Archived(d, id, stamp), NewEntry(d.section, id, stamp);
    NewIsEntry(d.section, id, stamp);
    NewAlone(entry, d.archive);
    ShowsTitle(id, stamp, Below(entry));
    NoneEmpty();
    assert Trimmed("") by { EmptyTrimmed(); }
    if Bytes(entry) + 2 <= MAX_BYTES || Shows(Title(id, stamp), MAX_BYTES - 17) {
      if Bytes(entry) + 2 > MAX_BYTES {
        CutIsEntry(entry, MAX_BYTES - 2);
      }
      RenderThenParse(after.(hasArchive := true));
      RenderIsSame(after);
    } else {
      CutEntry(entry, MAX_BYTES - 2);
      StubIs(entry);
      StubUnder(after);
      StubSplits();
      ParsedArchive(Render(after));
    }
  }

  lemma StubIs(e: string)
    requires CutText(e, MAX_BYTES - 2) == ENTRY[..11] + [ELLIPSIS]
    ensures CutText(e, MAX_BYTES - 2) == Stub()
  {
    hide CutText;
  }

  lemma ShowsTitle(id: string, stamp: string, x: string)
    requires Title(id, stamp) <= x
    ensures Shows(x, MAX_BYTES - 17) <==> Shows(Title(id, stamp), MAX_BYTES - 17)
  {
    hide Bytes, TakeBytes;
    var title, n := Title(id, stamp), MAX_BYTES - 17;
    TakePrefix(title, x, n);
    var t, u := TakeBytes(title, n), TakeBytes(x, n);
    assert title[|title| - 1] == ')';
    if t == title {
      assert !Blank3(t[|title| - 1]);
    }
    assert forall i :: 0 <= i < |t| ==> t[i] == u[i];
  }

  lemma RenderIsSame(d: Doc)
    ensures Render(d.(hasArchive := true)) == Render(d)
  {
  }

  lemma EmptyTrimmed()
    ensures Trimmed("")
  {
  }

  /** A new entry over old ones: kept first, and cut only when it is over the
      bound by itself. */
  lemma NewAlone(entry: string, old_: seq<string>)
    ensures var kept := TrimmedArchive([entry] + old_);
            kept != [] && kept[1..] <= old_ && kept[0] == CutText(entry, MAX_BYTES - 2)
            && (kept[1..] != [] ==> kept[0] == entry)
            && (Bytes(entry) + 2 <= MAX_BYTES ==> kept[0] == entry)
            && (Bytes(entry) + 2 > MAX_BYTES ==> |kept| == 1)
  {
    hide Bytes;
    var es := [entry] + old_;
    var kept := TrimmedArchive(es);
    ArchiveBounds(es);
    assert es[..1] == [entry] && Size([entry]) == Bytes(entry) + 2 by {
      assert [entry][1..] == [];
    }
    if kept <= es {
      assert kept[0] == es[0] && kept[1..] <= es[1..] && es[1..] == old_;
      assert Size(kept) == Bytes(entry) + 2 + Size(kept[1..]);
    }
  }
}
