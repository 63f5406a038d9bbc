/** Lexical containment (internal/agent/guard.go:850-919): the guard's test on
    path strings, and what it means on the segments the paths resolve to. On
    POSIX; the Windows branches are left out. */
module Containment {
  import opened Common

  datatype GuardEnv = GuardEnv(root: string, dir: string)

  predicate IsLetter(c: char) {
    'a' <= c <= 'z' || 'A' <= c <= 'Z'
  }

  /** slashPath: p with forward slashes. */
  function SlashPath(p: string): (q: string)
    ensures |q| == |p| && '\\' !in q
    ensures '\\' !in p ==> q == p
  {
    seq(|p|, i requires 0 <= i < |p| => if p[i] == '\\' then '/' else p[i])
  }

  /** The segments between the slashes of s; one more than it has slashes. */
  function Segments(s: string): (ss: seq<string>)
    ensures |ss| > 0
    ensures forall t :: t in ss ==> '/' !in t
    ensures '\\' !in s ==> forall t :: t in ss ==> '\\' !in t
  {
    if s == [] then [""]
    else if s[0] == '/' then [""] + Segments(s[1..])
    else var rest := Segments(s[1..]); [[s[0]] + rest[0]] + rest[1..]
  }

  function Joined(ss: seq<string>): string {
    if ss == [] then [] else if |ss| == 1 then ss[0] else ss[0] + "/" + Joined(ss[1..])
  }

  /** Segments resolved from a directory, the stack: an empty one and a dot
      stay, two dots go up and never above the root. */
  function Resolve(ss: seq<string>, stack: seq<string>): seq<string>
    decreases |ss|
  {
    if ss == [] then stack
    else if ss[0] == "" || ss[0] == "." then Resolve(ss[1..], stack)
    else if ss[0] == ".." then Resolve(ss[1..], if stack == [] then [] else stack[..|stack| - 1])
    else Resolve(ss[1..], stack + [ss[0]])
  }

  /** path.Clean of a path that starts with a slash. */
  function Clean(p: string): string
    requires HasPrefix(p, "/")
  {
    "/" + Joined(Resolve(Segments(p), []))
  }

  predicate HasDrive(p: string) {
    |p| >= 2 && p[1] == ':' && IsLetter(p[0])
  }

  /** absPath: p cleaned, when it is absolute. */
  function AbsPath(path: string): Option<string> {
    var p := SlashPath(path);
    if HasDrive(p) then Some(p[..2] + Clean("/" + p[2..]))
    else if HasPrefix(p, "//") then Some("/" + Clean(p))
    else if HasPrefix(p, "/") then Some(Clean(p))
    else None
  }

  function TrimSlash(s: string): string {
    if s != [] && s[|s| - 1] == '/' then s[..|s| - 1] else s
  }

  predicate HasGlob(s: string) {
    '*' in s || '?' in s || '[' in s
  }

  function Lower(c: char): char {
    if 'A' <= c <= 'Z' then (c as int - 'A' as int + 'a' as int) as char else c
  }

  predicate IsGit(s: string) {
    |s| == 4 && s[0] == '.' && Lower(s[1]) == 'g' && Lower(s[2]) == 'i' && Lower(s[3]) == 't'
  }

  /** inside, on the strings. */
  method Inside(e: GuardEnv, target: string, sameOK: bool) returns (in_: bool)
    ensures in_ == InsideOf(e, target, sameOK)
  {
    hide AbsPath, SlashPath, Segments, TrimSlash, HasGlob, IsGit;
    var root := AbsPath(e.root);
    if root.None? {
      return false;
    }
    var abs := AbsPath(target);
    if abs.None? {
      var dir := AbsPath(e.dir);
      if dir.None? {
        return false;
      }
      abs := AbsPath(dir.value + "/" + SlashPath(target));
      if abs.None? {
        return false;
      }
    }
    var a, r := abs.value, TrimSlash(root.value);
    if a == r {
      return sameOK;
    }
    if !HasPrefix(a, r + "/") {
      return false;
    }
    var parts := Segments(a[|r| + 1..]);
    if HasGlob(parts[0]) {
      return false;
    }
    for i := 0 to |parts|
      invariant forall j :: 0 <= j < i ==> !IsGit(parts[j])
    {
      if IsGit(parts[i]) {
        return false;
      }
    }
    return true;
  }

  /** The path the target names, as a string. */
  function Named(e: GuardEnv, target: string): Option<string> {
    if AbsPath(target).Some? then AbsPath(target)
    else if AbsPath(e.dir).None? then None
    else AbsPath(AbsPath(e.dir).value + "/" + SlashPath(target))
  }

  predicate Allows(parts: seq<string>)
    requires parts != []
  {
    !HasGlob(parts[0]) && forall i :: 0 <= i < |parts| ==> !IsGit(parts[i])
  }

  predicate InsideOf(e: GuardEnv, target: string, sameOK: bool) {
    && AbsPath(e.root).Some? && Named(e, target).Some?
    && var r, a := TrimSlash(AbsPath(e.root).value), Named(e, target).value;
       if a == r then sameOK
       else HasPrefix(a, r + "/") && Allows(Segments(a[|r| + 1..]))
  }

  // What the strings stand for.

  /** A volume ("" for /x, "/" for //host/x, "C:" for C:/x) and the segments
      below it. */
  datatype Place = Place(volume: string, segs: seq<string>)

  predicate Seg(s: string) {
    s != "" && s != "." && s != ".." && '/' !in s && '\\' !in s
  }

  predicate Proper(p: Place) {
    && (p.volume == "" || p.volume == "/" || (HasDrive(p.volume) && |p.volume| == 2))
    && forall s :: s in p.segs ==> Seg(s)
  }

  function Text(p: Place): string {
    p.volume + "/" + Joined(p.segs)
  }

  /** Where an absolute path is. */
  function PlaceOf(path: string): Option<Place> {
    var p := SlashPath(path);
    if HasDrive(p) then Some(Place(p[..2], Resolve(Segments(p[2..]), [])))
    else if HasPrefix(p, "//") then Some(Place("/", Resolve(Segments(p), [])))
    else if HasPrefix(p, "/") then Some(Place("", Resolve(Segments(p), [])))
    else None
  }

  /** Where a target is: absolute, or resolved from the current directory. */
  function TargetPlace(e: GuardEnv, target: string): Option<Place> {
    if PlaceOf(target).Some? then PlaceOf(target)
    else if PlaceOf(e.dir).None? then None
    else
      var d := PlaceOf(e.dir).value;
      Some(d.(segs := Resolve(Segments(SlashPath(target)), d.segs)))
  }

  /** Containment as it is meant: the root's segments are a strict prefix of the
      target's (or all of them, with sameOK), no .git is among the rest, and the
      first of the rest is no glob. */
  predicate Contained(root: Place, a: Place, sameOK: bool) {
    && root.volume == a.volume
    && (if a.segs == root.segs then sameOK
        else root.segs <= a.segs && Allows(a.segs[|root.segs|..]))
  }

  // Segments and their texts.

  lemma {:induction false} ResolveProper(ss: seq<string>, stack: seq<string>)
    requires forall s :: s in ss ==> '/' !in s && '\\' !in s
    requires forall s :: s in stack ==> Seg(s)
    ensures forall s :: s in Resolve(ss, stack) ==> Seg(s)
    decreases |ss|
  {
    if ss != [] {
      if ss[0] == "" || ss[0] == "." {
        ResolveProper(ss[1..], stack);
      } else if ss[0] == ".." {
        ResolveProper(ss[1..], if stack == [] then [] else stack[..|stack| - 1]);
      } else {
        assert Seg(ss[0]);
        ResolveProper(ss[1..], stack + [ss[0]]);
      }
    }
  }

  lemma {:induction false} ResolveBoth(a: seq<string>, b: seq<string>, stack: seq<string>)
    ensures Resolve(a + b, stack) == Resolve(b, Resolve(a, stack))
    decreases |a|
  {
    if a == [] {
      assert a + b == b;
    } else {
      assert (a + b)[1..] == a[1..] + b;
      ResolveBoth(a[1..], b, if a[0] == "" || a[0] == "." then stack
                             else if a[0] == ".." then (if stack == [] then [] else stack[..|stack| - 1])
                             else stack + [a[0]]);
    }
  }

  lemma {:induction false} ResolveOwn(segs: seq<string>, stack: seq<string>)
    requires forall s :: s in segs ==> Seg(s)
    ensures Resolve(segs, stack) == stack + segs
    decreases |segs|
  {
    if segs != [] {
      assert Seg(segs[0]);
      ResolveOwn(segs[1..], stack + [segs[0]]);
      assert stack + [segs[0]] + segs[1..] == stack + segs;
    } else {
      assert stack + segs == stack;
    }
  }

  /** A slash in a text ends a segment. */
  lemma {:induction false} SegmentsBoth(s: string, t: string)
    ensures Segments(s + "/" + t) == Segments(s) + Segments(t)
    decreases |s|
  {
    var all := s + "/" + t;
    if s == [] {
      assert all[1..] == t;
    } else {
      assert all[1..] == s[1..] + "/" + t;
      SegmentsBoth(s[1..], t);
    }
  }

  lemma {:induction false} SegmentsOne(s: string)
    requires '/' !in s
    ensures Segments(s) == [s]
  {
    if s != [] {
      SegmentsOne(s[1..]);
      assert [s[0]] + s[1..] == s;
    }
  }

  lemma {:induction false} SegmentsOfJoined(ss: seq<string>)
    requires forall s :: s in ss ==> Seg(s)
    ensures Segments(Joined(ss)) == if ss == [] then [""] else ss
  {
    if ss != [] {
      assert Seg(ss[0]);
      SegmentsOne(ss[0]);
    }
    if |ss| > 1 {
      SegmentsBoth(ss[0], Joined(ss[1..]));
      SegmentsOfJoined(ss[1..]);
      assert ss == [ss[0]] + ss[1..];
    }
  }

  /** A text is its segments, joined. */
  lemma {:induction false} JoinedSegments(s: string)
    ensures Joined(Segments(s)) == s
  {
    if s != [] {
      JoinedSegments(s[1..]);
      var rest := Segments(s[1..]);
      if s[0] == '/' {
        assert Segments(s)[1..] == rest;
      } else {
        assert Segments(s)[1..] == rest[1..];
      }
    }
  }

  lemma PrefixGivesSegments(x: string, a: string)
    requires HasPrefix(a, x + "/")
    ensures Segments(a) == Segments(x) + Segments(a[|x| + 1..])
  {
    assert a == x + "/" + a[|x| + 1..];
    SegmentsBoth(x, a[|x| + 1..]);
  }

  lemma SegmentsGivePrefix(x: string, a: string, rest: seq<string>)
    requires rest != [] && Segments(a) == Segments(x) + rest
    ensures HasPrefix(a, x + "/") && Segments(a[|x| + 1..]) == rest
  {
    JoinBoth(Segments(x), rest);
    JoinedSegments(x);
    JoinedSegments(a);
    assert a == x + "/" + Joined(rest) && a[..|x| + 1] == x + "/";
    PrefixGivesSegments(x, a);
    assert Segments(a)[|Segments(x)|..] == rest && Segments(a)[|Segments(x)|..] == Segments(a[|x| + 1..]);
  }

  lemma {:induction false} JoinBoth(a: seq<string>, b: seq<string>)
    requires a != [] && b != []
    ensures Joined(a + b) == Joined(a) + "/" + Joined(b)
  {
    if |a| == 1 {
      assert (a + b)[1..] == b;
    } else {
      assert (a + b)[1..] == a[1..] + b;
      JoinBoth(a[1..], b);
    }
  }

  /** The segments of a place's text: its volume's, then its own. */
  function Tokens(p: Place): seq<string> {
    (if p.volume == "/" then ["", ""] else [p.volume]) + p.segs
  }

  lemma SegmentsOfText(p: Place)
    requires Proper(p) && p.segs != []
    ensures Segments(Text(p)) == Tokens(p) && TrimSlash(Text(p)) == Text(p)
  {
    SegmentsBoth(p.volume, Joined(p.segs));
    SegmentsOfJoined(p.segs);
    if p.volume == "/" {
      assert Segments("/") == ["", ""];
    } else {
      SegmentsOne(p.volume);
    }
    LastIsNoSlash(p.segs);
  }

  lemma {:induction false} LastIsNoSlash(ss: seq<string>)
    requires ss != [] && forall s :: s in ss ==> Seg(s)
    ensures Joined(ss) != [] && Joined(ss)[|Joined(ss)| - 1] != '/'
  {
    if |ss| == 1 {
      assert Joined(ss) == ss[0] && Seg(ss[0]);
    } else {
      assert forall s :: s in ss[1..] ==> s in ss;
      LastIsNoSlash(ss[1..]);
    }
  }

  // Paths and their places.

  /** AbsPath is the text of the place. */
  lemma AbsIsText(path: string)
    ensures AbsPath(path).Some? <==> PlaceOf(path).Some?
    ensures PlaceOf(path).Some? ==> Proper(PlaceOf(path).value) && AbsPath(path).value == Text(PlaceOf(path).value)
  {
    var p := SlashPath(path);
    if HasDrive(p) {
      var rest := "/" + p[2..];
      SegmentsBoth("", p[2..]);
      assert [] + "/" + p[2..] == rest && Segments(rest) == [""] + Segments(p[2..]);
      assert Resolve(Segments(rest), []) == Resolve(Segments(p[2..]), []) by {
        assert Segments(rest)[1..] == Segments(p[2..]);
      }
      ResolveProper(Segments(p[2..]), []);
    } else {
      ResolveProper(Segments(p), []);
      if HasPrefix(p, "//") {
        assert "/" + ("/" + Joined(Resolve(Segments(p), []))) == "/" + "/" + Joined(Resolve(Segments(p), []));
      }
    }
  }

  /** Where the guard takes a target to be: its place, but below "/" itself a
      relative target reads as a //host path. */
  function TakenPlace(e: GuardEnv, target: string): Option<Place> {
    if PlaceOf(target).None? && PlaceOf(e.dir) == Some(Place("", [])) then Some(Place("/", TargetPlace(e, target).value.segs))
    else TargetPlace(e, target)
  }

  lemma {:induction false} JoinedIsSlashed(ss: seq<string>)
    requires forall s :: s in ss ==> Seg(s)
    ensures '\\' !in Joined(ss)
    ensures ss != [] ==> Joined(ss) != [] && Joined(ss)[0] != '/'
  {
    if ss != [] {
      assert Seg(ss[0]);
    }
    if |ss| > 1 {
      assert forall s :: s in ss[1..] ==> s in ss;
      JoinedIsSlashed(ss[1..]);
    }
  }

  /** The segments of a text below a place's. */
  lemma ResolveBelow(segs: seq<string>, t: string, lead: string)
    requires forall s :: s in segs ==> Seg(s)
    requires lead == "" || lead == "/"
    ensures Resolve(Segments(lead + "/" + Joined(segs) + "/" + t), []) == Resolve(Segments(t), segs)
  {
    var below := Joined(segs) + "/" + t;
    assert lead + "/" + Joined(segs) + "/" + t == lead + "/" + below;
    SegmentsBoth(lead, below);
    SegmentsBoth(Joined(segs), t);
    SegmentsOfJoined(segs);
    assert Segments("") == [""] && Segments("/") == ["", ""] by {
      assert "/"[1..] == "";
    }
    var own := if segs == [] then [""] else segs;
    ResolveBoth(Segments(lead), own + Segments(t), []);
    ResolveBoth(own, Segments(t), []);
    assert Resolve(Segments(lead), []) == [] by {
      assert Resolve([""], []) == [];
      assert ["", ""][1..] == [""];
    }
    assert Resolve(own, []) == segs by {
      if segs != [] {
        ResolveOwn(segs, []);
      }
    }
  }

  lemma RelativePlace(d: Place, t: string)
    requires Proper(d) && '\\' !in t
    ensures PlaceOf(Text(d) + "/" + t) ==
            Some(Place(if d.volume == "" && d.segs == [] then "/" else d.volume, Resolve(Segments(t), d.segs)))
  {
    hide Resolve, Segments, Joined, HasPrefix, HasDrive, SlashPath, Text;
    var s := Text(d) + "/" + t;
    TextIsSlashed(d);
    SlashFree(s);
    if d.volume != "" && d.volume != "/" {
      DriveStarts(d, t);
      ResolveBelow(d.segs, t, "");
    } else {
      Starts(d, t);
      ResolveBelow(d.segs, t, d.volume);
    }
  }

  lemma TextIsSlashed(d: Place)
    requires Proper(d)
    ensures '\\' !in Text(d)
  {
    JoinedIsSlashed(d.segs);
  }

  lemma SlashFree(s: string)
    requires '\\' !in s
    ensures SlashPath(s) == s
  {
  }

  lemma DriveStarts(d: Place, t: string)
    requires HasDrive(d.volume) && |d.volume| == 2
    ensures var s := Text(d) + "/" + t;
            HasDrive(s) && s[..2] == d.volume && s[2..] == "" + "/" + Joined(d.segs) + "/" + t
  {
  }

  lemma Starts(d: Place, t: string)
    requires Proper(d) && (d.volume == "" || d.volume == "/")
    ensures var s := Text(d) + "/" + t;
            s == d.volume + "/" + Joined(d.segs) + "/" + t && !HasDrive(s) && HasPrefix(s, "/") && (HasPrefix(s, "//") <==> d.volume == "/" || d.segs == [])
  {
    JoinedIsSlashed(d.segs);
    assert d.segs == [] ==> Joined(d.segs) == "";
  }

  /** The path named is the text of the place the guard takes. */
  lemma NamedIsTaken(e: GuardEnv, target: string)
    ensures Named(e, target).Some? <==> TakenPlace(e, target).Some?
    ensures TakenPlace(e, target).Some? ==>
              Proper(TakenPlace(e, target).value) && Named(e, target).value == Text(TakenPlace(e, target).value)
  {
    AbsIsText(target);
    AbsIsText(e.dir);
    if PlaceOf(target).None? && PlaceOf(e.dir).Some? {
      var named := AbsPath(e.dir).value + "/" + SlashPath(target);
      RelativePlace(PlaceOf(e.dir).value, SlashPath(target));
      AbsIsText(named);
    }
  }

  /** The text of a place below a root is the root's text, a slash and more,
      exactly when its segments go on from the root's. */
  lemma TextBelow(root: Place, a: Place)
    requires Proper(root) && Proper(a) && root.segs != []
    ensures Text(a) == Text(root) <==> a == root
    ensures HasPrefix(Text(a), Text(root) + "/") <==>
            root.volume == a.volume && root.segs <= a.segs && |root.segs| < |a.segs|
    ensures HasPrefix(Text(a), Text(root) + "/") ==> Segments(Text(a)[|Text(root)| + 1..]) == a.segs[|root.segs|..]
  {
    hide Text, Segments, HasPrefix, Proper;
    if a.segs == [] {
      EmptyBelow(root, a);
    } else {
      TextSame(root, a);
      if HasPrefix(Text(a), Text(root) + "/") {
        BelowInText(root, a);
      }
      if root.volume == a.volume && root.segs <= a.segs && |root.segs| < |a.segs| {
        BelowInSegs(root, a);
      }
    }
  }

  lemma TextSame(root: Place, a: Place)
    requires Proper(root) && Proper(a) && root.segs != [] && a.segs != []
    ensures Text(a) == Text(root) <==> a == root
  {
    SegmentsOfText(root);
    SegmentsOfText(a);
    SameTokens(root, a);
  }

  lemma BelowInText(root: Place, a: Place)
    requires Proper(root) && Proper(a) && root.segs != [] && a.segs != []
    requires HasPrefix(Text(a), Text(root) + "/")
    ensures root.volume == a.volume && root.segs <= a.segs && |root.segs| < |a.segs|
    ensures Segments(Text(a)[|Text(root)| + 1..]) == a.segs[|root.segs|..]
  {
    hide Text;
    SegmentsOfText(root);
    SegmentsOfText(a);
    PrefixGivesSegments(Text(root), Text(a));
    TokensBelow(root, a, Segments(Text(a)[|Text(root)| + 1..]));
  }

  lemma BelowInSegs(root: Place, a: Place)
    requires Proper(root) && Proper(a) && root.segs != [] && a.segs != []
    requires root.volume == a.volume && root.segs <= a.segs && |root.segs| < |a.segs|
    ensures HasPrefix(Text(a), Text(root) + "/")
  {
    hide Text;
    SegmentsOfText(root);
    SegmentsOfText(a);
    var rest := a.segs[|root.segs|..];
    assert a.segs == root.segs + rest;
    assert Tokens(a) == Tokens(root) + rest;
    SegmentsGivePrefix(Text(root), Text(a), rest);
  }

  lemma SameStart(s: string, p: string)
    requires p != []
    ensures HasPrefix(s, p) ==> s != [] && s[0] == p[0]
  {
  }

  lemma EmptyBelow(root: Place, a: Place)
    requires Proper(root) && Proper(a) && root.segs != [] && a.segs == []
    ensures Text(a) != Text(root) && !HasPrefix(Text(a), Text(root) + "/")
  {
    JoinedIsSlashed(root.segs);
    assert Text(a) == a.volume + "/";
    assert |Text(root)| >= 2 && Text(root) == root.volume + "/" + Joined(root.segs);
    LastIsNoSlash(root.segs);
    assert Text(a)[|Text(a)| - 1] == '/' && Text(root)[|Text(root)| - 1] != '/';
    SameStart(Text(a), Text(root) + "/");
  }

  lemma SameTokens(root: Place, a: Place)
    requires Proper(root) && Proper(a) && root.segs != [] && a.segs != []
    ensures Tokens(root) == Tokens(a) ==> root == a
  {
    if Tokens(root) == Tokens(a) {
      TokensBelow(root, a, []);
    }
  }

  lemma TokensBelow(root: Place, a: Place, rest: seq<string>)
    requires Proper(root) && Proper(a) && root.segs != [] && a.segs != []
    requires Tokens(a) == Tokens(root) + rest
    ensures root.volume == a.volume && a.segs == root.segs + rest
  {
    assert Tokens(a)[0] == Tokens(root)[0] && Tokens(a)[1] == Tokens(root)[1];
    assert Seg(root.segs[0]) && Seg(a.segs[0]);
    if root.volume == "/" {
      assert a.volume == "/";
      assert Tokens(a)[2..] == Tokens(root)[2..] + rest;
    } else {
      assert a.volume != "/";
      assert Tokens(a)[1..] == Tokens(root)[1..] + rest;
    }
  }

  /** The guard's test on the strings is containment of the place it takes, for
      every root of at least one component. */
  lemma InsideMeansTaken(e: GuardEnv, target: string, sameOK: bool)
    requires PlaceOf(e.root).Some? && PlaceOf(e.root).value.segs != []
    ensures InsideOf(e, target, sameOK) <==>
            TakenPlace(e, target).Some? && Contained(PlaceOf(e.root).value, TakenPlace(e, target).value, sameOK)
  {
    AbsIsText(e.root);
    NamedIsTaken(e, target);
    var root := PlaceOf(e.root).value;
    SegmentsOfText(root);
    if TakenPlace(e, target).Some? {
      TextBelow(root, TakenPlace(e, target).value);
    }
  }

  /** Lexical containment: for a root of at least one component, and a target
      that is absolute or starts from a directory other than "/", inside holds
      exactly when the target resolves into the root. */
  lemma InsideIsContained(e: GuardEnv, target: string, sameOK: bool)
    requires PlaceOf(e.root).Some? && PlaceOf(e.root).value.segs != []
    requires PlaceOf(target).Some? || PlaceOf(e.dir) != Some(Place("", []))
    ensures InsideOf(e, target, sameOK) <==>
            TargetPlace(e, target).Some? && Contained(PlaceOf(e.root).value, TargetPlace(e, target).value, sameOK)
  {
    InsideMeansTaken(e, target, sameOK);
  }

  /** From "/" itself a relative target is never inside a /root, whatever it
      resolves to: the condition above is needed. */
  lemma NothingRelativeIsInsideFromTop(e: GuardEnv, target: string, sameOK: bool)
    requires PlaceOf(e.root).Some? && PlaceOf(e.root).value.segs != [] && PlaceOf(e.root).value.volume == ""
    requires PlaceOf(e.dir) == Some(Place("", [])) && PlaceOf(target).None?
    ensures !InsideOf(e, target, sameOK)
  {
    InsideMeansTaken(e, target, sameOK);
  }

  /** A root without a component would hold itself strictly. */
  lemma TopIsInsideItself()
    ensures InsideOf(GuardEnv("/", "/"), "/", false)
    ensures !Contained(PlaceOf("/").value, PlaceOf("/").value, false)
  {
  }

  // The letters of the test.

  /** A drive is one letter of either case. */
  lemma DriveIs(p: string)
    ensures HasDrive(p) <==> |p| >= 2 && p[1] == ':' && (p[0] in "abcdefghijklmnopqrstuvwxyz" || p[0] in "ABCDEFGHIJKLMNOPQRSTUVWXYZ")
  {
    var low, high := "abcdefghijklmnopqrstuvwxyz", "ABCDEFGHIJKLMNOPQRSTUVWXYZ";
    assert forall i :: 0 <= i < 26 ==> low[i] as int == 'a' as int + i && high[i] as int == 'A' as int + i;
    if |p| >= 2 && 'a' <= p[0] <= 'z' {
      assert low[p[0] as int - 'a' as int] == p[0];
    }
    if |p| >= 2 && 'A' <= p[0] <= 'Z' {
      assert high[p[0] as int - 'A' as int] == p[0];
    }
  }

  /** .git in any case, and nothing else. */
  lemma GitIs(s: string)
    ensures IsGit(s) <==> |s| == 4 && s[0] == '.' && (s[1] == 'g' || s[1] == 'G') && (s[2] == 'i' || s[2] == 'I') && (s[3] == 't' || s[3] == 'T')
  {
  }

  /** A glob is any of three characters. */
  lemma GlobIs(s: string)
    ensures HasGlob(s) <==> exists i :: 0 <= i < |s| && (s[i] == '*' || s[i] == '?' || s[i] == '[')
  {
  }
}
