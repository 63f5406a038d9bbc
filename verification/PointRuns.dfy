/** The runs of the points that break a promise, from a launcher with nothing: each
    world that a failing run of PointTheorems or ChangeTheorems goes on from is
    reached by one that did nothing unusual. */
module PointRuns {
  import opened Common
  import C = Changes
  import opened Points
  import opened PointTheorems
  import opened ChangeTheorems

  /** One run after another. */
  lemma Joined(ws: seq<World>, es: seq<Event>, vs: seq<World>, fs: seq<Event>)
    requires IsRun(ws, es) && IsRun(vs, fs) && vs[0] == ws[|es|]
    ensures IsRun(ws[..|es|] + vs, es + fs)
  {
    hide After, Allowed;
    var us, gs := ws[..|es|] + vs, es + fs;
    forall i {:trigger gs[i]} | 0 <= i < |gs| ensures Allowed(us[i], gs[i]) && us[i + 1] == After(us[i], gs[i]) {
      if i < |es| {
        assert gs[i] == es[i] && us[i] == ws[i] && us[i + 1] == ws[i + 1];
      } else {
        assert gs[i] == fs[i - |es|] && us[i] == vs[i - |es|] && us[i + 1] == vs[i - |es| + 1];
      }
    }
  }

  /** An open pull request with a head, whose checks did not conclude. */
  predicate Opening(p: Pull, o: C.Observation) {
    p == Pull(o.host, o.repository, o.number) && o.state == OPEN && o.head != "" && o.checks == ""
  }

  function Seen(o: C.Observation, attempt: string, f: C.Facts, now: nat): Entry {
    Took(NewEntry(attempt, 0, ""), o, f, now)
  }

  function OpenedWorld(p: Pull, o: C.Observation, attempt: string, f: C.Facts, now: nat): World {
    var e := Seen(o, attempt, f, now);
    World(map[KeyOf(o) := e], [p], {(KeyOf(o), AfterPush)}, [Job(KeyOf(o), AfterPush, e, o)])
  }

  function OpenedBy(p: Pull, o: C.Observation, attempt: string, f: C.Facts, now: nat): seq<Event> {
    [Watch(p, true, true), Notice(o, attempt, f, now, true)]
  }

  /** A pull request watched and observed for the first time: its after-push runs. */
  lemma Opens(p: Pull, o: C.Observation, attempt: string, f: C.Facts, now: nat) returns (ws: seq<World>)
    requires Opening(p, o) && !f.replay
    ensures IsRun(ws, OpenedBy(p, o, attempt, f, now)) && ws[0] == START && ws[2] == OpenedWorld(p, o, attempt, f, now)
    ensures var e := Seen(o, attempt, f, now); e.attempt == attempt && e.fired == map[] && !Pending(e) && e.kept.observed
  {
    var es := OpenedBy(p, o, attempt, f, now);
    var w1 := World(map[], [p], {}, []);
    assert Removed([], p) + [p] == [p];
    assert After(START, es[0]) == w1;
    FirstSight([p], o, attempt, f, now);
    SeenIs(o, attempt, f, now);
    ws := [START, w1, OpenedWorld(p, o, attempt, f, now)];
    hide After, KeyOf, Took;
    forall i {:trigger es[i]} | 0 <= i < 2 ensures Allowed(ws[i], es[i]) && ws[i + 1] == After(ws[i], es[i]) {
    }
  }

  /** What fires at a first sight: after-push of an open one, after-merge of a merged. */
  lemma FiresFirst(e: Entry, o: C.Observation, key: string)
    requires e.fired == map[] && e.kept.head != "" && o.checks == "" && (o.state == OPEN || o.state == MERGED)
    ensures ToFire(e, o, {}, key, 5) == [if o.state == OPEN then AfterPush else AfterMerge]
  {
    hide EdgeOf, Ready;
    assert ToFire(e, o, {}, key, 1) == if o.state == OPEN then [AfterPush] else [];
    assert ToFire(e, o, {}, key, 2) == ToFire(e, o, {}, key, 1);
    assert ToFire(e, o, {}, key, 3) == ToFire(e, o, {}, key, 2);
    assert ToFire(e, o, {}, key, 4) == ToFire(e, o, {}, key, 3);
  }

  lemma SeenIs(o: C.Observation, attempt: string, f: C.Facts, now: nat)
    requires o.head != "" && o.state != "" && !f.replay
    ensures var e := Seen(o, attempt, f, now);
            && e.attempt == attempt && e.fired == map[] && e.kept.head == o.head && e.kept.state == o.state && e.kept.observed
            && (f.content == Some([]) ==> e.kept.contentRead && e.kept.lastComment == 0)
  {
    hide C.Failure, C.Missing;
  }

  /** The first sight of a pull request. */
  lemma FirstSight(watched: seq<Pull>, o: C.Observation, attempt: string, f: C.Facts, now: nat)
    requires o.head != "" && o.checks == "" && (o.state == OPEN || o.state == MERGED) && !f.replay
    ensures var e, p := Seen(o, attempt, f, now), if o.state == OPEN then AfterPush else AfterMerge;
            After(World(map[], watched, {}, []), Notice(o, attempt, f, now, true))
            == World(map[KeyOf(o) := e], watched, {(KeyOf(o), p)}, [Job(KeyOf(o), p, e, o)])
  {
    SeenIs(o, attempt, f, now);
    hide KeyOf, Took, ToFire, Pending, Watches;
    var w, ev, key, e := World(map[], watched, {}, []), Notice(o, attempt, f, now, true), KeyOf(o), Seen(o, attempt, f, now);
    FiresFirst(e, o, key);
    assert Started(w, ev) == [Job(key, if o.state == OPEN then AfterPush else AfterMerge, e, o)];
    assert Stays(watched, key, key, e);
    assert Written(map[key := e], watched, key) == map[key := e];
  }

  const DONE := Complete(0, Ran(None, map[], true))

  lemma RanMerged(o: C.Observation, e: Entry)
    requires e.fired == map[]
    ensures var key := KeyOf(o);
            var w := World(map[key := e], [], {(key, AfterMerge)}, [Job(key, AfterMerge, e, o)]);
            var v := After(w, DONE);
            && v.watched == [] && v.inflight == {} && key in v.file && v.file[key].attempt == e.attempt
            && MERGED in Fired(v.file[key], AfterMerge)
  {
    hide KeyOf;
    var key := KeyOf(o);
    assert Stays([], key, key, RanEntry(e, Job(key, AfterMerge, e, o), DONE.result));
  }

  /** A merged pull request that is not watched runs after-merge, and once the next
      write for another dropped its entry runs it again. */
  lemma MergedRunsTwice(o: C.Observation, attempt: string, f: C.Facts, now: nat, other: Event, again: Event)
    returns (ws: seq<World>, es: seq<Event>)
    requires o.head != "" && o.checks == "" && o.state == MERGED && !f.replay
    requires other.Notice? && other.written && KeyOf(other.o) != KeyOf(o)
    requires again.Notice? && KeyOf(again.o) == KeyOf(o) && again.o.state == MERGED && again.attempt == attempt
    ensures IsRun(ws, es) && ws[0] == START && es == [Notice(o, attempt, f, now, true), DONE, other, again]
    ensures Starts(ws[0], es[0], KeyOf(o), AfterMerge, MERGED) && Starts(ws[3], es[3], KeyOf(o), AfterMerge, MERGED)
  {
    var w1, w2 := RanOnce(o, attempt, f, now);
    MergedStarts(o, attempt, f, now);
    hide After, KeyOf, Took, Starts, Fired, Watches, Seen, Started, MERGED;
    var first := Notice(o, attempt, f, now, true);
    MergedMayRunTwice(w2, KeyOf(o), other, again);
    var w3 := After(w2, other);
    Joined([START, w1, w2], [first, DONE], [w2, w3, After(w3, again)], [other, again]);
    ws, es := [START, w1, w2][..2] + [w2, w3, After(w3, again)], [first, DONE] + [other, again];
  }

  lemma RanOnce(o: C.Observation, attempt: string, f: C.Facts, now: nat) returns (w1: World, w2: World)
    requires o.head != "" && o.checks == "" && o.state == MERGED && !f.replay
    ensures IsRun([START, w1, w2], [Notice(o, attempt, f, now, true), DONE])
    ensures w2.watched == [] && w2.inflight == {} && KeyOf(o) in w2.file && w2.file[KeyOf(o)].attempt == attempt
    ensures MERGED in Fired(w2.file[KeyOf(o)], AfterMerge)
  {
    FirstSight([], o, attempt, f, now);
    SeenIs(o, attempt, f, now);
    RanMerged(o, Seen(o, attempt, f, now));
    w1 := After(START, Notice(o, attempt, f, now, true));
    w2 := After(w1, DONE);
    hide After, KeyOf, Took;
    IsRunOfTwo(START, Notice(o, attempt, f, now, true), DONE);
  }

  lemma MergedStarts(o: C.Observation, attempt: string, f: C.Facts, now: nat)
    requires o.head != "" && o.checks == "" && o.state == MERGED && !f.replay
    ensures Starts(START, Notice(o, attempt, f, now, true), KeyOf(o), AfterMerge, MERGED)
  {
    SeenIs(o, attempt, f, now);
    StartsWhatFires(START, Notice(o, attempt, f, now, true), AfterMerge);
  }

  /** After-merge is lost between the two writes of an observation. */
  lemma UnwatchedRun(p: Pull, o: C.Observation, attempt: string, f: C.Facts, now: nat, ev: Event) returns (ws: seq<World>, es: seq<Event>)
    requires Opening(p, o) && !f.replay && ev.Notice? && ev.written && KeyOf(ev.o) != KeyOf(o)
    ensures IsRun(ws, es) && ws[0] == START && es == OpenedBy(p, o, attempt, f, now) + [Watch(p, false, true), Restart, ev]
    ensures KeyOf(o) in ws[3].file && KeyOf(o) !in ws[5].file && forall j :: j in ws[5].jobs ==> j.key != KeyOf(o)
  {
    var vs := Opens(p, o, attempt, f, now);
    hide After, KeyOf, Took, PullKey;
    var off := Watch(p, false, true);
    assert KeyOf(o) == PullKey(p.host, p.repository, p.number) by { KeyIs(p, o); }
    UnwatchedBeforeNoticed(vs[2], KeyOf(o), p, ev);
    var w1 := After(vs[2], off);
    var w2 := After(w1, Restart);
    WatchIs(vs[2], off);
    Joined(vs, OpenedBy(p, o, attempt, f, now), [vs[2], w1, w2, After(w2, ev)], [off, Restart, ev]);
    ws, es := vs[..2] + [vs[2], w1, w2, After(w2, ev)], OpenedBy(p, o, attempt, f, now) + [off, Restart, ev];
  }

  lemma KeyIs(p: Pull, o: C.Observation)
    requires p == Pull(o.host, o.repository, o.number)
    ensures KeyOf(o) == PullKey(p.host, p.repository, p.number)
  {
  }

  lemma Retargeted(w: World, ev: Event, key: string)
    requires ev.Notice? && ev.written && KeyOf(ev.o) == key && key in w.file
    ensures key in After(w, ev).file && After(w, ev).file[key].attempt == ev.attempt
  {
    hide ToFire, Took, KeyOf;
    TookKeeps(EntryFor(w.file, key, ev.attempt), ev.o, ev.f, ev.now);
    StepFacts(w, ev);
  }

  /** A run dispatched for one attempt is recorded for another. */
  lemma RecordedForAnotherRun(p: Pull, o: C.Observation, attempt: string, f: C.Facts, now: nat, other: Event, ev: Event)
    returns (ws: seq<World>, es: seq<Event>)
    requires Opening(p, o) && !f.replay && other.Notice? && other.written && KeyOf(other.o) == KeyOf(o) && other.attempt != attempt
    requires ev.Notice? && KeyOf(ev.o) == KeyOf(o) && ev.attempt == other.attempt
    ensures IsRun(ws, es) && ws[0] == START && es == OpenedBy(p, o, attempt, f, now) + [other, DONE, ev]
    ensures KeyOf(o) in ws[4].file && ws[4].file[KeyOf(o)].attempt == other.attempt
    ensures o.head in Fired(ws[4].file[KeyOf(o)], AfterPush) && !Starts(ws[4], ev, KeyOf(o), AfterPush, o.head)
  {
    var vs := Opens(p, o, attempt, f, now);
    SeenIs(o, attempt, f, now);
    var w2 := vs[2];
    JobStays(w2, other, 0);
    Retargeted(w2, other, KeyOf(o));
    var w3 := After(w2, other);
    assert Edge(w3.jobs[0]) == o.head;
    hide After, KeyOf, Took, Edge, Starts, Fired;
    RecordedForAnother(w3, 0, map[], ev);
    assert Allowed(w3, DONE);
    var w4 := After(w3, DONE);
    IsRunOfTwo(w2, other, DONE);
    Joined(vs, OpenedBy(p, o, attempt, f, now), [w2, w3, w4], [other, DONE]);
    ws, es := Extend(vs[..2] + [w2, w3, w4], OpenedBy(p, o, attempt, f, now) + [other, DONE], ev, After(w4, ev));
  }

  /** With every write done a comment is named twice. */
  lemma RestoredRun(p: Pull, o: C.Observation, attempt: string, f: C.Facts, now: nat, a: Event, other: Event, again: Event, c: C.Comment)
    returns (ws: seq<World>, es: seq<Event>)
    requires Opening(p, o) && !f.replay && f.content == Some([]) && c.at > 0
    requires Of(a, KeyOf(o)) && a.attempt == attempt && a.written && a.o.state == CLOSED && !a.f.replay
    requires a.f.content.Some? && c in a.f.content.value
    requires other.Notice? && other.written && KeyOf(other.o) != KeyOf(o)
    requires Of(again, KeyOf(o)) && again.attempt == attempt && !again.f.replay && again.f.content.Some? && c in again.f.content.value
    ensures IsRun(ws, es) && ws[0] == START && es == OpenedBy(p, o, attempt, f, now) + [a, Watch(p, false, true), other, DONE, again]
    ensures c in Named(ws[2], a) && c in Named(ws[6], again)
  {
    var vs := Opens(p, o, attempt, f, now);
    RestoredFrom(vs[2], p, o, attempt, f, now, a, other, again, c);
    var w2, off := vs[2], Watch(p, false, true);
    hide After, KeyOf, Took, PullKey, Named, Seen, OpenedWorld, Pending;
    var v1 := After(w2, a);
    var v2 := After(v1, off);
    var v3 := After(v2, other);
    var v4 := After(v3, DONE);
    var us, fs := [w2, v1, v2, v3, v4, After(v4, again)], [a, off, other, DONE, again];
    Joined(vs, OpenedBy(p, o, attempt, f, now), us, fs);
    ws, es := vs[..2] + us, OpenedBy(p, o, attempt, f, now) + fs;
  }

  lemma RestoredFrom(w: World, p: Pull, o: C.Observation, attempt: string, f: C.Facts, now: nat, a: Event, other: Event, again: Event, c: C.Comment)
    requires Opening(p, o) && !f.replay && f.content == Some([]) && c.at > 0 && w == OpenedWorld(p, o, attempt, f, now)
    requires Of(a, KeyOf(o)) && a.attempt == attempt && a.written && a.o.state == CLOSED && !a.f.replay
    requires a.f.content.Some? && c in a.f.content.value
    requires other.Notice? && other.written && KeyOf(other.o) != KeyOf(o)
    requires Of(again, KeyOf(o)) && again.attempt == attempt && !again.f.replay && again.f.content.Some? && c in again.f.content.value
    ensures var off := Watch(p, false, true);
            var v1 := After(w, a);
            var v2 := After(v1, off);
            var v3 := After(v2, other);
            && Allowed(v3, DONE)
            && var v4 := After(v3, DONE);
               && IsRun([w, v1, v2, v3, v4, After(v4, again)], [a, off, other, DONE, again])
               && c in Named(w, a) && c in Named(v4, again)
  {
    SeenIs(o, attempt, f, now);
    KeyIs(p, o);
    hide After, KeyOf, Took, PullKey, Named, Pending, IsRun;
    NamedIsLater(w, a, c);
    RestoredEntryNamesAgain(w, 0, p, a, other, again, KeyOf(o), c);
  }
}
