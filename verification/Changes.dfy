/** What a pull request's observation changes against the ones before it
    (internal/agent/dispatch.go:259-374), and what those changes add up to. */
module Changes {
  import opened Common
  import SessionArchive

  const MAX_COMMENTS: nat := 10
  const MAX_BODY: nat := 4096
  const MAX_FAILURES: nat := 32
  const LABEL_FAILED := "hands-review-failed"
  const NOTICE_FAILED := "review-failed"

  /** A comment at its time; notice is "" for a plain one. */
  datatype Comment = Comment(at: nat, author: string, kind: string, body: string, notice: string)

  datatype ChangedComment = ChangedComment(author: string, kind: string, body: string, notice: string)

  datatype Review = Review(head: string, verdict: string, blocker: bool)

  datatype Observation = Observation(host: string, repository: string, number: int, url: string, state: string, head: string,
                                     labels: seq<string>, checks: string, comments: int)

  /** What is known beside the observation: the base branch, the reviews and
      the comments a content read saw, and whether a check was running. */
  datatype Facts = Facts(base: string, reviews: Option<map<string, Review>>, content: Option<seq<Comment>>,
                         running: Option<bool>, replay: bool)

  datatype ForgeChange = ForgeChange(headMoved: bool, state: string, checks: string, added: seq<string>, removed: seq<string>,
                                     comments: seq<ChangedComment>, failures: nat, settled: bool)

  /** What is kept of a pull request to tell the next change. */
  datatype Kept = Kept(observed: bool, head: string, state: string, labels: seq<string>, checks: string, comments: int,
                       contentRead: bool, lastComment: nat, running: bool, failures: seq<string>)

  const NEW_PULL := Kept(false, "", "", [], "", 0, false, 0, false, [])

  // The label sets.

  /** missingIn: the names of a that b lacks, each once, in a's order. */
  method MissingIn(a: seq<string>, b: seq<string>) returns (out: seq<string>)
    ensures out == Missing(a, b)
  {
    out := [];
    for i := 0 to |a|
      invariant out == Missing(a[..i], b)
    {
      assert a[..i + 1][..i] == a[..i];
      if a[i] !in b && a[i] !in out {
        out := out + [a[i]];
      }
    }
    assert a[..|a|] == a;
  }

  function Missing(a: seq<string>, b: seq<string>): seq<string> {
    if a == [] then []
    else
      var rest, last := Missing(a[..|a| - 1], b), a[|a| - 1];
      if last !in b && last !in rest then rest + [last] else rest
  }

  function Names(labels: seq<string>): set<string> {
    set l | l in labels
  }

  lemma {:induction false} MissingIsDifference(a: seq<string>, b: seq<string>)
    ensures Names(Missing(a, b)) == Names(a) - Names(b)
    ensures forall i, j :: 0 <= i < j < |Missing(a, b)| ==> Missing(a, b)[i] != Missing(a, b)[j]
  {
    if a != [] {
      var init, last := a[..|a| - 1], a[|a| - 1];
      MissingIsDifference(init, b);
      assert a == init + [last];
      NamesOn(init, last);
      NamesOn(Missing(init, b), last);
      assert last in Missing(init, b) <==> last in Names(Missing(init, b));
    }
  }

  lemma NamesOn(s: seq<string>, x: string)
    ensures Names(s + [x]) == Names(s) + {x}
  {
  }

  // The bounded comments.

  predicate Plain(cm: Comment) {
    cm.notice == ""
  }

  /** How many of cms have a notice, or have none. */
  function Count(cms: seq<Comment>, plain: bool): (n: nat)
    ensures n <= |cms|
  {
    if cms == [] then 0
    else Count(cms[..|cms| - 1], plain) + if Plain(cms[|cms| - 1]) == plain then 1 else 0
  }

  function Min(a: int, b: int): int {
    if a < b then a else b
  }

  /** The room left for the comments of one kind: notices go first. */
  function Room(cms: seq<Comment>, plain: bool): nat {
    if plain then MAX_COMMENTS - Min(MAX_COMMENTS, Count(cms, false)) else MAX_COMMENTS
  }

  /** Whether the bound keeps the i-th comment. */
  predicate Keeps(cms: seq<Comment>, i: nat)
    requires i < |cms|
  {
    Count(cms[..i], Plain(cms[i])) < Room(cms, Plain(cms[i]))
  }

  function Carried(cm: Comment): ChangedComment {
    ChangedComment(cm.author, cm.kind, SessionArchive.TakeBytes(cm.body, MAX_BODY), cm.notice)
  }

  /** The first n comments' kept ones, as the change carries them. */
  function BoundedTo(cms: seq<Comment>, n: nat): (out: seq<ChangedComment>)
    requires n <= |cms|
    ensures |out| <= n
  {
    if n == 0 then []
    else if Keeps(cms, n - 1) then BoundedTo(cms, n - 1) + [Carried(cms[n - 1])]
    else BoundedTo(cms, n - 1)
  }

  function Bounded(cms: seq<Comment>): seq<ChangedComment> {
    BoundedTo(cms, |cms|)
  }

  /** boundComments: a pass over the notices, one over the rest, and a copy of
      what they keep. */
  method BoundComments(cms: seq<Comment>) returns (out: seq<ChangedComment>)
    ensures out == Bounded(cms)
  {
    hide Count, Plain, Carried;
    var keep, n := seq(|cms|, _ => false), MAX_COMMENTS;
    keep, n := KeepPass(cms, false, keep, n);
    keep, n := KeepPass(cms, true, keep, n);
    out := [];
    for i := 0 to |cms|
      invariant out == BoundedTo(cms, i)
    {
      if keep[i] {
        out := out + [Carried(cms[i])];
      }
    }
  }

  method KeepPass(cms: seq<Comment>, plain: bool, kept: seq<bool>, room: nat) returns (keep: seq<bool>, n: nat)
    requires |kept| == |cms|
    ensures |keep| == |cms| && n == room - Min(room, Count(cms, plain))
    ensures forall j :: 0 <= j < |cms| ==> (keep[j] <==> kept[j] || (Plain(cms[j]) == plain && Count(cms[..j], plain) < room))
  {
    keep, n := kept, room;
    for i := 0 to |cms|
      invariant |keep| == |cms| && n == room - Min(room, Count(cms[..i], plain))
      invariant forall j :: i <= j < |cms| ==> keep[j] == kept[j]
      invariant forall j :: 0 <= j < i ==> (keep[j] <==> kept[j] || (Plain(cms[j]) == plain && Count(cms[..j], plain) < room))
    {
      assert cms[..i + 1][..i] == cms[..i];
      if n > 0 && Plain(cms[i]) == plain {
        keep, n := keep[i := true], n - 1;
      }
    }
    assert cms[..|cms|] == cms;
  }

  // One observation.

  function Fresh(k: Kept, f: Facts): seq<Comment> {
    if f.content.None? || !k.contentRead then [] else After(f.content.value, k.lastComment)
  }

  /** The comments later than a mark, in their order. */
  function After(cms: seq<Comment>, mark: nat): seq<Comment> {
    if cms == [] then []
    else After(cms[..|cms| - 1], mark) + if cms[|cms| - 1].at > mark then [cms[|cms| - 1]] else []
  }

  function Latest(cms: seq<Comment>, mark: nat): nat {
    if cms == [] then mark
    else
      var rest := Latest(cms[..|cms| - 1], mark);
      if cms[|cms| - 1].at > rest then cms[|cms| - 1].at else rest
  }

  predicate HeadMoves(k: Kept, o: Observation) {
    k.head != "" && o.head != "" && o.head != k.head
  }

  function KeepLast(failures: seq<string>): seq<string> {
    if |failures| > MAX_FAILURES then failures[|failures| - MAX_FAILURES..] else failures
  }

  /** Whether the observation carries the external reviewer's failure. */
  predicate Failure(k: Kept, o: Observation, f: Facts) {
    LABEL_FAILED in Missing(o.labels, k.labels) || exists c :: c in Bounded(Fresh(k, f)) && c.notice == NOTICE_FAILED
  }

  function Occurs(s: seq<string>, x: string): nat {
    if s == [] then 0 else Occurs(s[..|s| - 1], x) + if s[|s| - 1] == x then 1 else 0
  }

  /** What an observation leaves kept, but for the reviewer's failures. */
  function Compared(k: Kept, o: Observation, f: Facts): Kept {
    Kept(true, k.head, k.state, o.labels, o.checks, o.comments,
         k.contentRead || f.content.Some? || o.comments == 0,
         if f.content.Some? then Latest(f.content.value, k.lastComment) else k.lastComment,
         if f.running.Some? then f.running.value else k.running && !HeadMoves(k, o),
         k.failures)
  }

  /** What differs, but for the reviewer's failures. */
  function Found(k: Kept, o: Observation, f: Facts): ForgeChange {
    ForgeChange(HeadMoves(k, o), if o.state != k.state then o.state else "", if o.checks != k.checks then o.checks else "",
                Missing(o.labels, k.labels), Missing(k.labels, o.labels), Bounded(Fresh(k, f)), 0,
                f.running.Some? && k.running && !f.running.value && !HeadMoves(k, o))
  }

  /** What an observation leaves kept; a replay changes nothing. */
  function KeptAfter(k: Kept, o: Observation, f: Facts): Kept {
    if f.replay then k
    else if k.observed && Failure(k, o, f) then Compared(k, o, f).(failures := KeepLast(k.failures + [o.head]))
    else Compared(k, o, f)
  }

  /** The change it reports: none at a replay, at the first observation, and
      when nothing changed. */
  function Reported(k: Kept, o: Observation, f: Facts): Option<ForgeChange> {
    var c := Found(k, o, f).(failures := if Failure(k, o, f) then Occurs(KeepLast(k.failures + [o.head]), o.head) else 0);
    if f.replay || !k.observed then None
    else if !c.headMoved && c.state == "" && c.checks == "" && !c.settled && o.comments <= k.comments
            && |c.added| + |c.removed| + |c.comments| == 0 then None
    else Some(c)
  }

  /** The part of a pull request's record that change reads and updates. */
  class PullRecord {
    var kept: Kept

    /** change. */
    method Change(o: Observation, f: Facts) returns (c: Option<ForgeChange>)
      modifies this
      ensures kept == KeptAfter(old(kept), o, f)
      ensures c == Reported(old(kept), o, f)
    {
      hide Occurs, KeepLast, Failure, KeptAfter, Reported, Compared, Found, LABEL_FAILED, NOTICE_FAILED;
      ghost var before := kept;
      if f.replay {
        ReplayKeeps(before, o, f);
        return None;
      }
      var first, more := !kept.observed, o.comments > kept.comments;
      var found := Compare(o, f);
      KeptOf(before, o, f);
      if first {
        return None;
      }
      FailureOf(before, o, f);
      var count := TakeFailure(o, found.added, found.comments);
      found := found.(failures := count);
      if !found.headMoved && found.state == "" && found.checks == "" && !found.settled && !more
         && |found.added| + |found.removed| + |found.comments| == 0 {
        return None;
      }
      return Some(found);
    }

    /** What differs, but for the reviewer's failures, and the new state kept. */
    method Compare(o: Observation, f: Facts) returns (found: ForgeChange)
      requires !f.replay
      modifies this
      ensures kept == Compared(old(kept), o, f)
      ensures found == Found(old(kept), o, f)
    {
      hide Bounded, Missing, Fresh, Latest, After;
      FreshOf(kept, f);
      kept := kept.(observed := true);
      var moved := kept.head != "" && o.head != "" && o.head != kept.head;
      var added := MissingIn(o.labels, kept.labels);
      var removed := MissingIn(kept.labels, o.labels);
      var settled := TakeRunning(f, moved);
      var newState := if o.state != kept.state then o.state else "";
      var newChecks := if o.checks != kept.checks then o.checks else "";
      kept := kept.(labels := o.labels, checks := o.checks, comments := o.comments);
      var named := TakeComments(o, f);
      return ForgeChange(moved, newState, newChecks, added, removed, named, 0, settled);
    }

    /** The last running check concluding at the same head. */
    method TakeRunning(f: Facts, moved: bool) returns (settled: bool)
      modifies this
      ensures kept == old(kept).(running := if f.running.Some? then f.running.value else old(kept).running && !moved)
      ensures settled <==> f.running.Some? && old(kept).running && !f.running.value && !moved
    {
      settled := false;
      if f.running.Some? {
        settled := kept.running && !f.running.value && !moved;
        kept := kept.(running := f.running.value);
      } else if moved {
        kept := kept.(running := false);
      }
    }

    /** The comment loop: the mark moves on, and what is later than the mark it
        had is new once the comments are known. */
    method TakeComments(o: Observation, f: Facts) returns (named: seq<ChangedComment>)
      modifies this
      ensures kept == old(kept).(lastComment := if f.content.Some? then Latest(f.content.value, old(kept).lastComment) else old(kept).lastComment,
                                 contentRead := old(kept).contentRead || f.content.Some? || o.comments == 0)
      ensures named == Bounded(if f.content.Some? && old(kept).contentRead then After(f.content.value, old(kept).lastComment) else [])
    {
      hide Bounded;
      NoneBounded();
      named := [];
      if f.content.Some? {
        var cms := f.content.value;
        var newer: seq<Comment> := [];
        var mark := kept.lastComment;
        for i := 0 to |cms|
          invariant kept == old(kept).(lastComment := Latest(cms[..i], mark))
          invariant newer == if kept.contentRead then After(cms[..i], mark) else []
        {
          assert cms[..i + 1][..i] == cms[..i];
          if cms[i].at > kept.lastComment {
            kept := kept.(lastComment := cms[i].at);
          }
          if kept.contentRead && cms[i].at > mark {
            newer := newer + [cms[i]];
          }
        }
        assert cms[..|cms|] == cms;
        named := BoundComments(newer);
        kept := kept.(contentRead := true);
      } else if o.comments == 0 {
        kept := kept.(contentRead := true);
      }
    }

    /** The reviewer's failures kept, and how many of them are at the head. */
    method TakeFailure(o: Observation, added: seq<string>, named: seq<ChangedComment>) returns (count: nat)
      modifies this
      ensures var failed := LABEL_FAILED in added || exists c :: c in named && c.notice == NOTICE_FAILED;
              var all := KeepLast(old(kept).failures + [o.head]);
              && kept == (if failed then old(kept).(failures := all) else old(kept))
              && count == if failed then Occurs(all, o.head) else 0
    {
      count := 0;
      if LABEL_FAILED in added || exists c :: c in named && c.notice == NOTICE_FAILED {
        var all := kept.failures + [o.head];
        if |all| > MAX_FAILURES {
          all := all[|all| - MAX_FAILURES..];
        }
        kept := kept.(failures := all);
        for i := 0 to |all|
          invariant count == Occurs(all[..i], o.head)
        {
          assert all[..i + 1][..i] == all[..i];
          if all[i] == o.head {
            count := count + 1;
          }
        }
        assert all[..|all|] == all;
      }
    }
  }

  lemma ReplayKeeps(k: Kept, o: Observation, f: Facts)
    requires f.replay
    ensures KeptAfter(k, o, f) == k && Reported(k, o, f).None?
  {
  }

  /** KeptAfter and Reported in Compared's and Found's terms. */
  lemma KeptOf(k: Kept, o: Observation, f: Facts)
    requires !f.replay
    ensures KeptAfter(k, o, f) == Compared(k, o, f).(failures := if k.observed && Failure(k, o, f) then KeepLast(k.failures + [o.head]) else k.failures)
    ensures Compared(k, o, f).failures == k.failures
    ensures var c := Found(k, o, f).(failures := if Failure(k, o, f) then Occurs(KeepLast(k.failures + [o.head]), o.head) else 0);
            Reported(k, o, f) ==
            if !k.observed then None
            else if !c.headMoved && c.state == "" && c.checks == "" && !c.settled && o.comments <= k.comments
               && |c.added| + |c.removed| + |c.comments| == 0 then None
            else Some(c)
  {
  }

  lemma FreshOf(k: Kept, f: Facts)
    ensures Fresh(k, f) == if f.content.Some? && k.contentRead then After(f.content.value, k.lastComment) else []
  {
  }

  lemma FailureOf(k: Kept, o: Observation, f: Facts)
    ensures Failure(k, o, f) <==>
            LABEL_FAILED in Found(k, o, f).added || exists c :: c in Found(k, o, f).comments && c.notice == NOTICE_FAILED
  {
  }

  lemma NoneBounded()
    ensures Bounded([]) == []
  {
  }

  // What the bound keeps.

  lemma {:induction false} CountsAll(cms: seq<Comment>)
    ensures Count(cms, true) + Count(cms, false) == |cms|
  {
    if cms != [] {
      CountsAll(cms[..|cms| - 1]);
    }
  }

  lemma CountOn(cms: seq<Comment>, i: nat, plain: bool)
    requires i < |cms|
    ensures Count(cms[..i + 1], plain) == Count(cms[..i], plain) + if Plain(cms[i]) == plain then 1 else 0
  {
    assert cms[..i + 1][..i] == cms[..i];
  }

  /** How many of the first n the bound keeps. */
  lemma {:induction false} BoundedSize(cms: seq<Comment>, n: nat)
    requires n <= |cms|
    ensures |BoundedTo(cms, n)| == Min(Room(cms, false), Count(cms[..n], false)) + Min(Room(cms, true), Count(cms[..n], true))
  {
    hide Plain, Carried, Room;
    if n > 0 {
      BoundedSize(cms, n - 1);
      CountOn(cms, n - 1, false);
      CountOn(cms, n - 1, true);
      hide Count;
    }
  }

  /** The places of the kept comments, in order. */
  function Places(cms: seq<Comment>, n: nat): (at: seq<nat>)
    requires n <= |cms|
    ensures forall i :: 0 <= i < |at| ==> at[i] < n
  {
    if n == 0 then [] else if Keeps(cms, n - 1) then Places(cms, n - 1) + [n - 1] else Places(cms, n - 1)
  }

  lemma {:induction false} BoundedPlaces(cms: seq<Comment>, n: nat)
    requires n <= |cms|
    ensures var at, out := Places(cms, n), BoundedTo(cms, n);
            && |at| == |out| && (forall i, j :: 0 <= i < j < |at| ==> at[i] < at[j])
            && (forall i :: 0 <= i < |at| ==> Keeps(cms, at[i]) && out[i] == Carried(cms[at[i]]))
    ensures forall m: nat :: m < n && Keeps(cms, m) ==> m in Places(cms, n)
  {
    hide Keeps, Carried;
    if n > 0 {
      BoundedPlaces(cms, n - 1);
    }
  }

  lemma {:induction false} CountPrefix(cms: seq<Comment>, i: nat, plain: bool)
    requires i < |cms|
    ensures Count(cms[..i], plain) + (if Plain(cms[i]) == plain then 1 else 0) <= Count(cms, plain)
    decreases |cms|
  {
    var less := cms[..|cms| - 1];
    if i < |less| {
      CountPrefix(less, i, plain);
      assert less[..i] == cms[..i];
    }
  }

  /** The bounded comments are a selection in order of as many as the bound
      allows, and drop a notice only when they keep no plain comment. */
  lemma BoundedIsSelection(cms: seq<Comment>)
    ensures var at, out := Places(cms, |cms|), Bounded(cms);
            && |out| == |at| == Min(10, |cms|)
            && (forall i, j :: 0 <= i < j < |at| ==> at[i] < at[j])
            && (forall i :: 0 <= i < |at| ==> at[i] < |cms| && out[i] == Carried(cms[at[i]]))
    ensures forall m: nat, i :: m < |cms| && !Plain(cms[m]) && m !in Places(cms, |cms|) && 0 <= i < |Bounded(cms)| ==>
              Bounded(cms)[i].notice != ""
  {
    hide Carried, Room;
    var at, out := Places(cms, |cms|), Bounded(cms);
    BoundedPlaces(cms, |cms|);
    BoundedSize(cms, |cms|);
    CountsAll(cms);
    RoomFor(cms);
    assert cms[..|cms|] == cms;
    forall m: nat, i | m < |cms| && !Plain(cms[m]) && m !in at && 0 <= i < |out| ensures out[i].notice != "" {
      CountPrefix(cms, m, false);
      assert !Keeps(cms, m);
      assert out[i].notice == cms[at[i]].notice by {
        CarriesNotice(cms[at[i]]);
      }
      assert Keeps(cms, at[i]);
    }
  }

  lemma RoomFor(cms: seq<Comment>)
    ensures Room(cms, false) == MAX_COMMENTS && Room(cms, true) == MAX_COMMENTS - Min(MAX_COMMENTS, Count(cms, false))
  {
  }

  lemma CarriesNotice(cm: Comment)
    ensures Carried(cm).notice == cm.notice
  {
  }

  // One observation after another.

  /** One observation as noticePull takes it: the change first, then edges takes
      the head and the state. */
  function Step(k: Kept, o: Observation, f: Facts): Kept {
    var next := KeptAfter(k, o, f);
    next.(head := if o.head != "" then o.head else k.head, state := if o.state != "" then o.state else k.state)
  }

  /** A label set with a reported change made to it. */
  function Applied(labels: set<string>, c: Option<ForgeChange>): set<string> {
    if c.None? then labels else labels + Names(c.value.added) - Names(c.value.removed)
  }

  lemma OneApplied(k: Kept, o: Observation, f: Facts)
    requires k.observed
    ensures Applied(Names(k.labels), Reported(k, o, f)) == Names(Step(k, o, f).labels)
  {
    hide Missing, Bounded, Failure;
    if !f.replay {
      MissingIsDifference(o.labels, k.labels);
      MissingIsDifference(k.labels, o.labels);
      assert forall s: seq<string> :: |s| == 0 ==> Names(s) == {};
    }
  }

  lemma {:induction false} LatestIsMost(cms: seq<Comment>, mark: nat)
    ensures Latest(cms, mark) >= mark && forall c :: c in cms ==> c.at <= Latest(cms, mark)
    ensures Latest(cms, mark) == mark || exists c :: c in cms && c.at == Latest(cms, mark)
  {
    if cms != [] {
      LatestIsMost(cms[..|cms| - 1], mark);
      assert cms == cms[..|cms| - 1] + [cms[|cms| - 1]];
    }
  }

  lemma {:induction false} AfterIsLater(cms: seq<Comment>, mark: nat)
    ensures forall c :: c in After(cms, mark) <==> c in cms && c.at > mark
  {
    if cms != [] {
      AfterIsLater(cms[..|cms| - 1], mark);
      assert cms == cms[..|cms| - 1] + [cms[|cms| - 1]];
    }
  }

  /** The first observation and a replay report nothing, and neither does the
      same observation again. */
  lemma SeenOnce(k: Kept, o: Observation, f: Facts)
    ensures !k.observed || f.replay ==> Reported(k, o, f).None?
    ensures f.replay ==> KeptAfter(k, o, f) == k
    ensures Reported(Step(k, o, f), o, f).None? || f.replay
    ensures Step(Step(k, o, f), o, f) == Step(k, o, f)
  {
    hide Bounded, Failure, Missing, Latest, After;
    var next := Step(k, o, f);
    if !f.replay {
      NoneMissing(o.labels, o.labels);
      if f.content.Some? {
        NoneAfter(f.content.value, k.lastComment);
      }
      NoneBounded();
      assert Fresh(next, f) == [];
      FailureOf(next, o, f);
    }
  }

  lemma {:induction false} NoneMissing(a: seq<string>, b: seq<string>)
    requires forall x :: x in a ==> x in b
    ensures Missing(a, b) == []
  {
    if a != [] {
      assert a == a[..|a| - 1] + [a[|a| - 1]];
      NoneMissing(a[..|a| - 1], b);
    }
  }

  lemma {:induction false} NoneLater(cms: seq<Comment>, mark: nat)
    requires forall c :: c in cms ==> c.at <= mark
    ensures After(cms, mark) == []
  {
    if cms != [] {
      assert cms == cms[..|cms| - 1] + [cms[|cms| - 1]];
      NoneLater(cms[..|cms| - 1], mark);
    }
  }

  /** A read read again holds nothing later than its own mark. */
  lemma NoneAfter(cms: seq<Comment>, mark: nat)
    ensures var next := Latest(cms, mark); After(cms, next) == [] && Latest(cms, next) == next
  {
    LatestIsMost(cms, mark);
    LatestIsMost(cms, Latest(cms, mark));
    NoneLater(cms, Latest(cms, mark));
  }

  // What a change is, in the terms of the observation and what was kept.

  /** The last running check is known to have ended, at the same head. */
  predicate Settles(k: Kept, o: Observation, f: Facts) {
    f.running == Some(false) && k.running && (k.head == "" || o.head == "" || o.head == k.head)
  }

  /** A change is reported exactly when the pull request was observed before, this is
      no replay, and its head moved, its state, checks or labels differ, it has more
      comments or names a new one, or its checks settled. */
  lemma ReportedExactlyWhen(k: Kept, o: Observation, f: Facts)
    ensures Reported(k, o, f).Some? <==>
              && k.observed && !f.replay
              && ((k.head != "" && o.head != "" && o.head != k.head)
                  || (o.state != "" && o.state != k.state) || (o.checks != "" && o.checks != k.checks)
                  || (exists l :: (l in o.labels <==> l !in k.labels))
                  || o.comments > k.comments || Bounded(Fresh(k, f)) != [] || Settles(k, o, f))
  {
    hide Bounded, Fresh, Failure, Occurs, KeepLast, Missing;
    MissingIsDifference(o.labels, k.labels);
    MissingIsDifference(k.labels, o.labels);
    NoNames(Missing(o.labels, k.labels));
    NoNames(Missing(k.labels, o.labels));
    assert forall l :: l in o.labels <==> l in Names(o.labels);
    assert forall l :: l in k.labels <==> l in Names(k.labels);
    var added, removed := Names(o.labels) - Names(k.labels), Names(k.labels) - Names(o.labels);
    assert (exists l :: (l in o.labels <==> l !in k.labels)) <==> added != {} || removed != {};
  }

  lemma NoNames(s: seq<string>)
    ensures |s| == 0 <==> Names(s) == {}
  {
    if s != [] {
      assert s[0] in Names(s);
    }
  }

  /** And what it says. */
  lemma ReportedSays(k: Kept, o: Observation, f: Facts)
    requires Reported(k, o, f).Some?
    ensures var c := Reported(k, o, f).value;
            && (c.headMoved <==> k.head != "" && o.head != "" && o.head != k.head)
            && c.state == (if o.state == k.state then "" else o.state) && c.checks == (if o.checks == k.checks then "" else o.checks)
            && Names(c.added) == Names(o.labels) - Names(k.labels) && Names(c.removed) == Names(k.labels) - Names(o.labels)
            && c.comments == Bounded(Fresh(k, f)) && (c.settled <==> Settles(k, o, f))
  {
    hide Bounded, Fresh, Failure, Occurs, KeepLast, Missing;
    MissingIsDifference(o.labels, k.labels);
    MissingIsDifference(k.labels, o.labels);
  }

  /** What is kept: the observation's labels, checks and count of comments, its head and
      state when it has them, the latest comment read, and whether a check runs, which
      a new head forgets. */
  lemma KeptSays(k: Kept, o: Observation, f: Facts)
    requires !f.replay
    ensures var n := Step(k, o, f);
            && n.observed && n.labels == o.labels && n.checks == o.checks && n.comments == o.comments
            && n.head == (if o.head == "" then k.head else o.head) && n.state == (if o.state == "" then k.state else o.state)
            && (n.contentRead <==> k.contentRead || f.content.Some? || o.comments == 0)
            && n.lastComment == (if f.content.Some? then Latest(f.content.value, k.lastComment) else k.lastComment)
            && (n.running <==> (f.running == Some(true)) || (f.running.None? && k.running && !(k.head != "" && o.head != "" && o.head != k.head)))
  {
    hide Failure, KeepLast, Latest;
  }

  // The reviewer's failures.

  lemma {:induction false} OccursIs(s: seq<string>, x: string)
    ensures Occurs(s, x) == multiset(s)[x]
  {
    if s != [] {
      OccursIs(s[..|s| - 1], x);
      assert s == s[..|s| - 1] + [s[|s| - 1]];
    }
  }

  /** The observation carries the external reviewer's failure: its label is new, or a
      comment the change carries says so. */
  predicate FailedReview(k: Kept, o: Observation, f: Facts) {
    ("hands-review-failed" in o.labels && "hands-review-failed" !in k.labels)
    || exists c :: c in Bounded(Fresh(k, f)) && c.notice == "review-failed"
  }

  /** The last thirty-two of the reviewer's failures are kept by their heads, and a
      change that carries one says how often its head failed. */
  lemma FailuresSay(k: Kept, o: Observation, f: Facts)
    ensures var fails, all := k.observed && !f.replay && FailedReview(k, o, f), k.failures + [o.head];
            && Step(k, o, f).failures == (if !fails then k.failures else if |all| <= 32 then all else all[|all| - 32..])
            && (Reported(k, o, f).Some? ==>
                  Reported(k, o, f).value.failures == if fails then multiset(Step(k, o, f).failures)[o.head] else 0)
  {
    hide Bounded, Fresh, Missing, Occurs;
    MissingIsDifference(o.labels, k.labels);
    assert LABEL_FAILED in Missing(o.labels, k.labels) <==> LABEL_FAILED in Names(Missing(o.labels, k.labels));
    OccursIs(KeepLast(k.failures + [o.head]), o.head);
  }

  /** A comment is carried with its text within its bound, whole when it fits. */
  lemma CarriedIs(cm: Comment)
    ensures var c := Carried(cm);
            && c.author == cm.author && c.kind == cm.kind && c.notice == cm.notice
            && c.body <= cm.body && SessionArchive.Bytes(c.body) <= 4096 && (SessionArchive.Bytes(cm.body) <= 4096 ==> c.body == cm.body)
  {
    SessionArchive.WholeTaken(cm.body, 4096);
  }
}
