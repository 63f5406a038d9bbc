/** The turn brief's bounds (internal/agent/brief.go:165-203, 260-300 and 450-502):
    what gives way, and that what is left fits. */
module Brief {
  import opened SessionArchive

  const MAX_BRIEF: nat := 24 * 1024
  const MAX_TASK: nat := 8 * 1024
  const MAX_SECTION: nat := 8 * 1024

  function Max0(n: int): nat {
    if n > 0 then n else 0
  }

  function Total(texts: seq<string>): nat {
    if texts == [] then 0 else Bytes(texts[0]) + Total(texts[1..])
  }

  /** Texts under a shared bound: each whole while there is room for it, and the
      later ones given what the earlier ones leave. */
  function Shared(texts: seq<string>, room: nat): (kept: seq<string>)
    ensures |kept| == |texts|
  {
    if texts == [] then []
    else
      var first := CutText(texts[0], room);
      CutTextFits(texts[0], room);
      [first] + Shared(texts[1..], room - Bytes(first))
  }

  /** They fit together, and are whole exactly when they all fit. */
  lemma {:induction false} SharedFits(texts: seq<string>, room: nat)
    ensures Total(Shared(texts, room)) <= room
    ensures Shared(texts, room) == texts <==> Total(texts) <= room
  {
    if texts != [] {
      hide CutText, Bytes;
      var more := texts[1..];
      var first := CutText(texts[0], room);
      CutTextFits(texts[0], room);
      CutWhole(texts[0], room);
      SharedFits(more, room - Bytes(first));
      assert texts == [texts[0]] + more;
    }
  }

  /** frozenTask's texts: the title, and the texts that share what it leaves. */
  method FrozenTexts(title: string, texts: seq<string>) returns (kept: seq<string>, cut: bool)
    requires Bytes(title) <= MAX_TASK
    ensures kept == Shared(texts, MAX_TASK - Bytes(title)) && Bytes(title) + Total(kept) <= 8 * 1024
    ensures cut <==> Bytes(title) + Total(texts) > 8 * 1024
  {
    hide CutText, Bytes, Shared, Total;
    var room: nat := MAX_TASK - Bytes(title);
    SharedFits(texts, room);
    ghost var all := Shared(texts, room);
    kept, cut := [], false;
    assert texts[0..] == texts && [] + all == all;
    for i := 0 to |texts|
      invariant |kept| == i && kept + Shared(texts[i..], room) == all
      invariant cut <==> kept != texts[..i]
    {
      ghost var p0 := texts[i];
      assert texts[i..] == [p0] + texts[i + 1..];
      var p := texts[i];
      CutTextFits(p, room);
      CutWhole(p, room);
      if Bytes(p) > room {
        p, cut := CutText(p, room), true;
      }
      SharedStep(p0, texts[i + 1..], room);
      OneMore(kept, texts, i, p);
      kept, room := kept + [p], room - Bytes(p);
    }
    SharedNone(room);
    assert texts[|texts|..] == [] && texts[..|texts|] == texts && kept + [] == kept;
  }

  lemma SharedNone(room: nat)
    ensures Shared([], room) == []
  {
  }

  lemma SharedStep(p: string, texts: seq<string>, room: nat)
    ensures Bytes(CutText(p, room)) <= room
    ensures Shared([p] + texts, room) == [CutText(p, room)] + Shared(texts, room - Bytes(CutText(p, room)))
  {
    CutTextFits(p, room);
    assert ([p] + texts)[1..] == texts;
  }

  lemma OneMore(kept: seq<string>, texts: seq<string>, i: nat, p: string)
    requires i < |texts| && |kept| == i
    ensures kept + [p] == texts[..i + 1] <==> kept == texts[..i] && p == texts[i]
  {
  }

  lemma CutWhole(s: string, n: nat)
    ensures Bytes(s) <= n <==> CutText(s, n) == s
  {
    CutTextFits(s, n);
  }

  function Joined(lines: seq<string>): string {
    if lines == [] then "" else lines[0] + Joined(lines[1..])
  }

  /** What the memory part always carries: its two headings and its note. */
  datatype Frame = Frame(sectionHead: string, ledgerHead: string, cutNote: string)

  const NONE_YET := "None yet.\n"

  function FrameSize(f: Frame): nat {
    Bytes(f.sectionHead) + Bytes(f.ledgerHead) + Bytes(f.cutNote)
  }

  function MemorySize(f: Frame, section: string, lines: seq<string>): nat {
    FrameSize(f) + Bytes(section) + Bytes(Joined(lines))
  }

  /** The ledger's lines left: the newest that fit with the section whole. */
  ghost predicate NewestLines(f: Frame, section: string, lines: seq<string>, dropped: nat, room: int)
    requires dropped <= |lines|
  {
    && (dropped < |lines| ==> MemorySize(f, section, lines[dropped..]) <= room)
    && forall d :: 0 <= d < dropped ==> MemorySize(f, section, lines[d..]) > room
  }

  /** briefMemory: the oldest lines go first, then the section is cut; it fits when
      its frame does. */
  method BriefMemory(f: Frame, whole: string, lines: seq<string>, room: int) returns (r: string, dropped: nat, section: string)
    requires Bytes(f.cutNote) >= Bytes(NONE_YET)
    ensures dropped <= |lines| && NewestLines(f, CutText(whole, 8 * 1024), lines, dropped, room)
    ensures dropped < |lines| ==> section == CutText(whole, 8 * 1024)
    ensures r == f.sectionHead + section + f.ledgerHead
                 + (if dropped > 0 then f.cutNote else if lines == [] then NONE_YET else "") + Joined(lines[dropped..])
    ensures FrameSize(f) <= room ==> Bytes(r) <= room
  {
    hide CutText, Bytes, NONE_YET;
    section := whole;
    CutWhole(whole, MAX_SECTION);
    if Bytes(section) > MAX_SECTION {
      section := CutText(section, MAX_SECTION);
    }
    var left := lines;
    dropped := 0;
    while |left| > 0 && MemorySize(f, section, left) > room
      invariant dropped <= |lines| && left == lines[dropped..]
      invariant forall d :: 0 <= d < dropped ==> MemorySize(f, section, lines[d..]) > room
      decreases |left|
    {
      left, dropped := left[1..], dropped + 1;
    }
    var over := MemorySize(f, section, left) - room;
    if over > 0 {
      var n := Max0(Bytes(section) - over);
      CutTextFits(section, n);
      section := CutText(section, n);
    }
    assert FrameSize(f) <= room ==> MemorySize(f, section, left) <= room by {
      NothingJoined();
    }
    var note := if dropped > 0 then f.cutNote else if |left| == 0 then NONE_YET else "";
    r := f.sectionHead + section + f.ledgerHead + note + Joined(left);
    BytesBoth(f.sectionHead, section);
    BytesBoth(f.sectionHead + section, f.ledgerHead);
    BytesBoth(f.sectionHead + section + f.ledgerHead, note);
    BytesBoth(f.sectionHead + section + f.ledgerHead + note, Joined(left));
    NothingJoined();
  }

  lemma NothingJoined()
    ensures Bytes("") == 0 && Joined([]) == ""
  {
  }

  /** brief's last resort: the body is cut, never the part that names where to
      fetch more. It fits exactly when it did uncut, or that part and the notice
      do. */
  method BoundBrief(body: string, fetch: string, note: string) returns (r: string)
    ensures Bytes(r) <= 24 * 1024 <==> Bytes(body) + Bytes(fetch) <= 24 * 1024 || Bytes(fetch) + Bytes(note) <= 24 * 1024
    ensures |fetch| <= |r| && r[|r| - |fetch|..] == fetch
    ensures Bytes(body) + Bytes(fetch) <= MAX_BRIEF ==> r == body + fetch
  {
    hide CutText, Bytes;
    var kept := body;
    if Bytes(body) + Bytes(fetch) > MAX_BRIEF {
      var n := Max0(MAX_BRIEF - Bytes(fetch) - Bytes(note));
      CutTextFits(body, n);
      var cut := CutText(body, n);
      BytesBoth(cut, note);
      kept := cut + note;
    }
    BytesBoth(kept, fetch);
    r := kept + fetch;
  }
}
