/** How the guard judges a split command line (internal/agent/guard.go:232-258): its
    commands in order, following the cd among them, each subshell with its own copy
    of the working directory. What a command's own rules say, and what a branch
    switch leaves for later ones, are given. */
module Judging {
  import opened Common
  import opened Splitter

  /** Which commands change the directory and to what, and the judgement of any
      other command in a directory: a refusal or none, and what it leaves noted. */
  datatype Rules<!S> = Rules(moves: seq<string> -> bool, target: (string, seq<string>) -> string,
                             judge: (S, string, seq<string>) -> (S, Option<string>))

  /** The directory after the segments; a subshell leaves it as it was. */
  function DirAfter<S>(rules: Rules<S>, segs: seq<Segment>, dir: string): string {
    if segs == [] then dir
    else if segs[0].Command? && rules.moves(segs[0].words) then DirAfter(rules, segs[1..], rules.target(dir, segs[0].words))
    else DirAfter(rules, segs[1..], dir)
  }

  /** The commands that are judged, each with its directory. */
  function Commands<S>(rules: Rules<S>, segs: seq<Segment>, dir: string): seq<(string, seq<string>)> {
    if segs == [] then []
    else
      match segs[0]
      case Subshell(inner) => Commands(rules, inner, dir) + Commands(rules, segs[1..], dir)
      case Command(words) =>
        if rules.moves(words) then Commands(rules, segs[1..], rules.target(dir, words))
        else [(dir, words)] + Commands(rules, segs[1..], dir)
  }

  /** Judged in order, up to the first refusal. */
  function Judged<S>(rules: Rules<S>, cmds: seq<(string, seq<string>)>, s: S): (S, Option<string>) {
    if cmds == [] then (s, None)
    else
      var (next, refusal) := rules.judge(s, cmds[0].0, cmds[0].1);
      if refusal.Some? then (next, refusal) else Judged(rules, cmds[1..], next)
  }

  /** judgeSegments. */
  method JudgeSegments<S>(rules: Rules<S>, segs: seq<Segment>, from: string, noted: S) returns (s: S, r: Option<string>)
    ensures (s, r) == Judged(rules, Commands(rules, segs, from), noted)
    decreases segs
  {
    var dir := from;
    s := noted;
    for i := 0 to |segs|
      invariant Judged(rules, Commands(rules, segs, from), noted) == Judged(rules, Commands(rules, segs[i..], dir), s)
    {
      assert segs[i..][0] == segs[i] && segs[i..][1..] == segs[i + 1..];
      match segs[i] {
        case Subshell(inner) =>
          JudgedBoth(rules, Commands(rules, inner, dir), Commands(rules, segs[i + 1..], dir), s);
          s, r := JudgeSegments(rules, inner, dir, s);
          if r.Some? {
            return;
          }
        case Command(words) =>
          if rules.moves(words) {
            dir := rules.target(dir, words);
          } else {
            var rest := Commands(rules, segs[i + 1..], dir);
            assert ([(dir, words)] + rest)[1..] == rest;
            var judged := rules.judge(s, dir, words);
            s, r := judged.0, judged.1;
            if r.Some? {
              return;
            }
          }
      }
    }
    r := None;
  }

  lemma {:induction false} JudgedBoth<S>(rules: Rules<S>, a: seq<(string, seq<string>)>, b: seq<(string, seq<string>)>, s: S)
    ensures Judged(rules, a + b, s) ==
            if Judged(rules, a, s).1.Some? then Judged(rules, a, s) else Judged(rules, b, Judged(rules, a, s).0)
    decreases |a|
  {
    if a == [] {
      assert a + b == b;
    } else {
      assert (a + b)[1..] == a[1..] + b;
      JudgedBoth(rules, a[1..], b, rules.judge(s, a[0].0, a[0].1).0);
    }
  }

  lemma {:induction false} CommandsBoth<S>(rules: Rules<S>, a: seq<Segment>, b: seq<Segment>, dir: string)
    ensures Commands(rules, a + b, dir) == Commands(rules, a, dir) + Commands(rules, b, DirAfter(rules, a, dir))
    ensures DirAfter(rules, a + b, dir) == DirAfter(rules, b, DirAfter(rules, a, dir))
    decreases |a|
  {
    if a == [] {
      assert a + b == b;
    } else {
      assert (a + b)[1..] == a[1..] + b;
      CommandsBoth(rules, a[1..], b, if a[0].Command? && rules.moves(a[0].words) then rules.target(dir, a[0].words) else dir);
    }
  }

  /** A subshell's cd stays inside it: its commands start from the directory around
      it, and the commands after it are judged as if it were not there. */
  lemma SubshellKeepsDirectory<S>(rules: Rules<S>, a: seq<Segment>, inner: seq<Segment>, b: seq<Segment>, dir: string)
    ensures Commands(rules, a + [Subshell(inner)] + b, dir)
         == Commands(rules, a, dir) + Commands(rules, inner, DirAfter(rules, a, dir)) + Commands(rules, b, DirAfter(rules, a, dir))
  {
    var own := [Subshell(inner)];
    CommandsBoth(rules, a + own, b, dir);
    CommandsBoth(rules, a, own, dir);
    assert own[1..] == [];
  }

  function Others<S>(rules: Rules<S>, cmds: seq<seq<string>>): seq<seq<string>> {
    if cmds == [] then []
    else (if rules.moves(cmds[0]) then [] else [cmds[0]]) + Others(rules, cmds[1..])
  }

  function Words(cmds: seq<(string, seq<string>)>): (ws: seq<seq<string>>)
    ensures |ws| == |cmds|
  {
    seq(|cmds|, i requires 0 <= i < |cmds| => cmds[i].1)
  }

  lemma {:induction false} OthersBoth<S>(rules: Rules<S>, a: seq<seq<string>>, b: seq<seq<string>>)
    ensures Others(rules, a + b) == Others(rules, a) + Others(rules, b)
  {
    if a == [] {
      assert a + b == b;
    } else {
      assert (a + b)[1..] == a[1..] + b;
      OthersBoth(rules, a[1..], b);
    }
  }

  lemma WordsBoth(a: seq<(string, seq<string>)>, b: seq<(string, seq<string>)>)
    ensures Words(a + b) == Words(a) + Words(b)
  {
  }

  lemma OneWords(dir: string, words: seq<string>)
    ensures Words([(dir, words)]) == [words]
  {
  }

  lemma OneOther<S>(rules: Rules<S>, words: seq<string>)
    ensures Others(rules, [words]) == if rules.moves(words) then [] else [words]
  {
    assert [words][1..] == [];
  }

  /** Every command of the line that changes no directory is judged, nested ones
      included, once and in order. */
  lemma {:induction false} NothingIsPassedOver<S>(rules: Rules<S>, segs: seq<Segment>, dir: string)
    ensures Words(Commands(rules, segs, dir)) == Others(rules, Flat(segs))
    decreases segs
  {
    if segs != [] {
      hide Words, Others;
      var rest := segs[1..];
      match segs[0] {
        case Subshell(inner) =>
          NothingIsPassedOver(rules, inner, dir);
          NothingIsPassedOver(rules, rest, dir);
          OthersBoth(rules, Flat(inner), Flat(rest));
          WordsBoth(Commands(rules, inner, dir), Commands(rules, rest, dir));
        case Command(words) =>
          var next := if rules.moves(words) then rules.target(dir, words) else dir;
          NothingIsPassedOver(rules, rest, next);
          OthersBoth(rules, [words], Flat(rest));
          OneOther(rules, words);
          OneWords(dir, words);
          WordsBoth([(dir, words)], Commands(rules, rest, dir));
      }
    }
  }

  /** What the commands before the i-th left noted. */
  function NotedBefore<S>(rules: Rules<S>, cmds: seq<(string, seq<string>)>, s: S, i: nat): S
    requires i <= |cmds|
  {
    if i == 0 then s else NotedBefore(rules, cmds[1..], rules.judge(s, cmds[0].0, cmds[0].1).0, i - 1)
  }

  predicate RefusedAt<S>(rules: Rules<S>, cmds: seq<(string, seq<string>)>, s: S, i: nat)
    requires i < |cmds|
  {
    rules.judge(NotedBefore(rules, cmds, s, i), cmds[i].0, cmds[i].1).1.Some?
  }

  /** A line is let through exactly when each of its commands is, in the directory
      it runs in and with what the ones before it left noted. */
  lemma {:induction false} AllowedExactlyWhenEachIs<S>(rules: Rules<S>, cmds: seq<(string, seq<string>)>, s: S)
    ensures Judged(rules, cmds, s).1.None? <==> forall i :: 0 <= i < |cmds| ==> !RefusedAt(rules, cmds, s, i)
  {
    if cmds != [] {
      var next := rules.judge(s, cmds[0].0, cmds[0].1).0;
      AllowedExactlyWhenEachIs(rules, cmds[1..], next);
      assert RefusedAt(rules, cmds, s, 0) <==> rules.judge(s, cmds[0].0, cmds[0].1).1.Some?;
      assert forall i :: 0 < i < |cmds| ==> (RefusedAt(rules, cmds, s, i) <==> RefusedAt(rules, cmds[1..], next, i - 1));
      assert forall i :: 0 <= i < |cmds[1..]| ==> (RefusedAt(rules, cmds[1..], next, i) <==> RefusedAt(rules, cmds, s, i + 1));
    }
  }
}
