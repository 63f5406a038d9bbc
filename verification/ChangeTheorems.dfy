/** What the reported changes of a pull request add up to, over every run of the
    points: its observations, the points' runs, scripts' writes, failed writes and
    restarts. */
module ChangeTheorems {
  import opened Common
  import C = Changes
  import opened Points
  import opened PointTheorems

  predicate Of(ev: Event, key: string) {
    ev.Notice? && KeyOf(ev.o) == key
  }

  /** The state the change of an observation is computed against. */
  function Against(w: World, ev: Event): C.Kept
    requires ev.Notice?
  {
    EntryFor(w.file, KeyOf(ev.o), ev.attempt).kept
  }

  /** The change an observation reports, written or not. */
  function Change(w: World, ev: Event): Option<C.ForgeChange>
    requires ev.Notice?
  {
    C.Reported(Against(w, ev), ev.o, ev.f)
  }

  /** The comments that change names, before the bound. */
  function Named(w: World, ev: Event): seq<C.Comment>
    requires ev.Notice?
  {
    if Change(w, ev).None? then [] else C.Fresh(Against(w, ev), ev.f)
  }

  /** The entry is kept, and every observation of it between is for its attempt and
      written. */
  ghost predicate Steady(ws: seq<World>, es: seq<Event>, key: string, i: nat, j: nat)
    requires IsRun(ws, es) && i <= j <= |es|
  {
    && (forall m :: i <= m <= j ==> key in ws[m].file)
    && (forall m :: i <= m < j && Of(es[m], key) ==> es[m].written && es[m].attempt == ws[i].file[key].attempt)
  }

  /** What one step leaves of the state kept. */
  lemma StepKept(w: World, ev: Event, key: string)
    requires Allowed(w, ev) && key in w.file && key in After(w, ev).file && SameAttempt(ev, key, w.file[key].attempt)
    ensures After(w, ev).file[key].attempt == w.file[key].attempt
    ensures After(w, ev).file[key].kept ==
            if Of(ev, key) && ev.written then C.Step(w.file[key].kept, ev.o, ev.f) else w.file[key].kept
  {
    hide Took, RanEntry, Amended, FileAfter, After, KeyOf, Amends, C.Step;
    StepFacts(w, ev);
    var e := w.file[key];
    match ev {
      case Notice(o, attempt, f, now, _) => TookKept(e, o, f, now);
      case Complete(i, result) =>
        if result.Ran? && key == w.jobs[i].key {
          RanKeeps(e, w.jobs[i], result);
        }
      case Amend(_, _, _, _, a, _) => AmendedKeeps(e, a);
      case _ =>
    }
  }

  lemma TookKept(e: Entry, o: C.Observation, f: C.Facts, now: nat)
    ensures Took(e, o, f, now).kept == C.Step(e.kept, o, f) && Took(e, o, f, now).attempt == e.attempt
  {
  }

  lemma {:induction false} AttemptStays(ws: seq<World>, es: seq<Event>, key: string, i: nat, j: nat)
    requires IsRun(ws, es) && i <= j <= |es| && Steady(ws, es, key, i, j)
    ensures ws[j].file[key].attempt == ws[i].file[key].attempt
    decreases j
  {
    hide After, Allowed, Of;
    if i < j {
      assert Steady(ws, es, key, i, j - 1);
      AttemptStays(ws, es, key, i, j - 1);
      SteadyStep(ws, es, key, i, j - 1, j);
    }
  }

  lemma SteadyStep(ws: seq<World>, es: seq<Event>, key: string, i: nat, m: nat, j: nat)
    requires IsRun(ws, es) && i <= m < j <= |es| && Steady(ws, es, key, i, j)
    requires ws[m].file[key].attempt == ws[i].file[key].attempt
    ensures ws[m + 1].file[key].attempt == ws[i].file[key].attempt
    ensures ws[m + 1].file[key].kept == if Of(es[m], key) then C.Step(ws[m].file[key].kept, es[m].o, es[m].f) else ws[m].file[key].kept
    ensures Of(es[m], key) ==> Against(ws[m], es[m]) == ws[m].file[key].kept
  {
    hide After, Allowed, KeyOf, C.Step;
    assert Allowed(ws[m], es[m]) && ws[m + 1] == After(ws[m], es[m]);
    StepKept(ws[m], es[m], key);
  }

  // Labels.

  /** A label set with the changes reported of the pull request made to it. */
  ghost function Folded(labels: set<string>, ws: seq<World>, es: seq<Event>, key: string, i: nat, j: nat): set<string>
    requires |ws| == |es| + 1 && i <= j <= |es|
    decreases j
  {
    if i == j then labels
    else
      var before := Folded(labels, ws, es, key, i, j - 1);
      if Of(es[j - 1], key) then C.Applied(before, Change(ws[j - 1], es[j - 1])) else before
  }

  /** From any moment on, the reported additions and removals add up to the label
      set kept, while the entry is kept and its observations are written. */
  lemma {:induction false} LabelsAddUp(ws: seq<World>, es: seq<Event>, key: string, i: nat, j: nat)
    requires IsRun(ws, es) && i <= j <= |es| && Steady(ws, es, key, i, j) && ws[i].file[key].kept.observed
    ensures ws[j].file[key].kept.observed
    ensures Folded(C.Names(ws[i].file[key].kept.labels), ws, es, key, i, j) == C.Names(ws[j].file[key].kept.labels)
    decreases j
  {
    hide After, Allowed, C.Step, C.Reported, C.Names, C.Applied, KeyOf;
    if i < j {
      assert Steady(ws, es, key, i, j - 1);
      LabelsAddUp(ws, es, key, i, j - 1);
      AttemptStays(ws, es, key, i, j - 1);
      SteadyStep(ws, es, key, i, j - 1, j);
      var k := ws[j - 1].file[key].kept;
      if Of(es[j - 1], key) {
        C.OneApplied(k, es[j - 1].o, es[j - 1].f);
        StepObserves(k, es[j - 1].o, es[j - 1].f);
      }
    }
  }

  lemma StepObserves(k: C.Kept, o: C.Observation, f: C.Facts)
    ensures k.observed ==> C.Step(k, o, f).observed
  {
    hide C.Failure, C.Missing;
  }

  /** An observation whose write fails is reported and not kept: what was reported
      is what is kept exactly when the labels did not change. */
  lemma LostWriteAddsUpExactlyWhen(w: World, ev: Event, key: string)
    requires Of(ev, key) && !ev.written && key in w.file && w.file[key].attempt == ev.attempt
    requires w.file[key].kept.observed && !ev.f.replay
    ensures After(w, ev).file == w.file
    ensures C.Applied(C.Names(w.file[key].kept.labels), Change(w, ev)) == C.Names(After(w, ev).file[key].kept.labels)
            <==> C.Names(ev.o.labels) == C.Names(w.file[key].kept.labels)
  {
    hide C.Reported, C.Names, C.Applied, KeyOf;
    C.OneApplied(w.file[key].kept, ev.o, ev.f);
    StepLabels(w.file[key].kept, ev.o, ev.f);
  }

  lemma StepLabels(k: C.Kept, o: C.Observation, f: C.Facts)
    ensures !f.replay ==> C.Step(k, o, f).labels == o.labels
  {
    hide C.Failure, C.Missing;
  }

  // Comments.

  lemma {:induction false} MarkGrows(ws: seq<World>, es: seq<Event>, key: string, i: nat, j: nat)
    requires IsRun(ws, es) && i <= j <= |es| && Steady(ws, es, key, i, j)
    ensures ws[i].file[key].kept.lastComment <= ws[j].file[key].kept.lastComment
    decreases j
  {
    hide After, Allowed, KeyOf, C.Step;
    if i < j {
      assert Steady(ws, es, key, i, j - 1);
      MarkGrows(ws, es, key, i, j - 1);
      AttemptStays(ws, es, key, i, j - 1);
      SteadyStep(ws, es, key, i, j - 1, j);
      if Of(es[j - 1], key) {
        StepMark(ws[j - 1].file[key].kept, es[j - 1].o, es[j - 1].f);
      }
    }
  }

  /** The mark after an observation: the newest comment it read, or the mark before. */
  lemma StepMark(k: C.Kept, o: C.Observation, f: C.Facts)
    ensures C.Step(k, o, f).lastComment >= k.lastComment
    ensures f.content.Some? && !f.replay ==> forall c :: c in f.content.value ==> c.at <= C.Step(k, o, f).lastComment
    ensures C.Step(k, o, f).lastComment == k.lastComment
            || (f.content.Some? && !f.replay && exists c :: c in f.content.value && c.at == C.Step(k, o, f).lastComment)
  {
    hide C.Failure, C.Missing;
    if f.content.Some? {
      C.LatestIsMost(f.content.value, k.lastComment);
    }
  }

  /** What an observation names was read with it, later than its mark. */
  lemma NamedIsLater(w: World, ev: Event, c: C.Comment)
    requires ev.Notice?
    ensures c in Named(w, ev) <==>
            var k := Against(w, ev);
            k.observed && k.contentRead && !ev.f.replay && ev.f.content.Some? && c in ev.f.content.value && c.at > k.lastComment
  {
    hide C.Failure, C.Missing, C.After, EntryFor;
    var k := Against(w, ev);
    if ev.f.content.Some? {
      C.AfterIsLater(ev.f.content.value, k.lastComment);
    }
    if c in C.Fresh(k, ev.f) {
      C.BoundedIsSelection(C.Fresh(k, ev.f));
    }
  }

  /** Comments named by two observations are different, each later than all that
      was read before, while the entry is kept and its observations are written
      from the first of the two to the second. */
  lemma NoCommentTwice(ws: seq<World>, es: seq<Event>, key: string, i: nat, j: nat)
    requires IsRun(ws, es) && i < j < |es| && Of(es[i], key) && Of(es[j], key) && Steady(ws, es, key, i, j)
    ensures forall c, d :: c in Named(ws[i], es[i]) && d in Named(ws[j], es[j]) ==> c.at < d.at
  {
    hide After, Allowed, Named, C.Step;
    AttemptStays(ws, es, key, i, j);
    SteadyStep(ws, es, key, i, i, j);
    StepMark(ws[i].file[key].kept, es[i].o, es[i].f);
    SteadyOn(ws, es, key, i, j);
    MarkGrows(ws, es, key, i + 1, j);
    forall c, d | c in Named(ws[i], es[i]) && d in Named(ws[j], es[j]) ensures c.at < d.at {
      NamedIsLater(ws[i], es[i], c);
      NamedIsLater(ws[j], es[j], d);
    }
  }

  lemma SteadyOn(ws: seq<World>, es: seq<Event>, key: string, i: nat, j: nat)
    requires IsRun(ws, es) && i < j <= |es| && Steady(ws, es, key, i, j)
    ensures Steady(ws, es, key, i + 1, j)
  {
    hide After, Allowed, Of;
    SteadyStep(ws, es, key, i, i, j);
  }

  lemma {:induction false} MarkBelow(ws: seq<World>, es: seq<Event>, key: string, i: nat, j: nat, at: nat)
    requires IsRun(ws, es) && i <= j <= |es| && Steady(ws, es, key, i, j) && ws[i].file[key].kept.lastComment < at
    requires forall m, d :: i <= m < j && Of(es[m], key) && !es[m].f.replay && es[m].f.content.Some? && d in es[m].f.content.value ==> d.at < at
    ensures ws[j].file[key].kept.lastComment < at
    decreases j
  {
    hide After, Allowed, KeyOf, C.Step;
    if i < j {
      assert Steady(ws, es, key, i, j - 1);
      MarkBelow(ws, es, key, i, j - 1, at);
      AttemptStays(ws, es, key, i, j - 1);
      SteadyStep(ws, es, key, i, j - 1, j);
      if Of(es[j - 1], key) {
        StepMark(ws[j - 1].file[key].kept, es[j - 1].o, es[j - 1].f);
      }
    }
  }

  /** And none is passed over: once the comments are known, a content read names
      every comment later than all that were read before, written or not itself. */
  lemma EveryLaterCommentIsNamed(ws: seq<World>, es: seq<Event>, key: string, i: nat, j: nat, c: C.Comment)
    requires IsRun(ws, es) && i <= j < |es| && Steady(ws, es, key, i, j)
    requires Of(es[j], key) && es[j].attempt == ws[i].file[key].attempt && !es[j].f.replay
    requires ws[j].file[key].kept.observed && ws[j].file[key].kept.contentRead
    requires es[j].f.content.Some? && c in es[j].f.content.value && c.at > ws[i].file[key].kept.lastComment
    requires forall m, d :: i <= m < j && Of(es[m], key) && !es[m].f.replay && es[m].f.content.Some? && d in es[m].f.content.value ==> d.at < c.at
    ensures c in Named(ws[j], es[j])
  {
    hide After, Allowed, Named;
    MarkBelow(ws, es, key, i, j, c.at);
    AttemptStays(ws, es, key, i, j);
    NamedIsLater(ws[j], es[j], c);
  }

  /** Whose write fails, an observation's comments are named again by the next
      content read that holds them. */
  lemma LostWriteNamesAgain(w: World, a: Event, b: Event, key: string, c: C.Comment)
    requires Of(a, key) && Of(b, key) && !a.written && key in w.file && a.attempt == b.attempt == w.file[key].attempt
    requires c in Named(w, a) && !b.f.replay && b.f.content.Some? && c in b.f.content.value
    ensures IsRun([w, After(w, a), After(After(w, a), b)], [a, b])
    ensures c in Named(After(w, a), b)
  {
    hide Named, KeyOf;
    NamedIsLater(w, a, c);
    NamedIsLater(After(w, a), b, c);
    IsRunOfTwo(w, a, b);
  }

  lemma IsRunOfTwo(w: World, a: Event, b: Event)
    requires Allowed(w, a) && Allowed(After(w, a), b)
    ensures IsRun([w, After(w, a), After(After(w, a), b)], [a, b])
  {
    hide After, Allowed;
    var ws, es := [w, After(w, a), After(After(w, a), b)], [a, b];
    forall i {:trigger es[i]} | 0 <= i < 2 ensures Allowed(ws[i], es[i]) && ws[i + 1] == After(ws[i], es[i]) {
    }
  }

  const CLOSED := "closed"

  /** A run in flight keeps the entry it was started with. When the entry is dropped
      meanwhile, the run's end puts that one back, older than what was reported
      since: every write happened, and a comment is named twice. */
  lemma RestoredEntryNamesAgain(w: World, i: nat, p: Pull, a: Event, other: Event, again: Event, key: string, c: C.Comment)
    requires i < |w.jobs| && w.jobs[i].key == key && key in w.file && Of(a, key) && Of(again, key)
    requires w.jobs[i].snapshot.attempt == w.file[key].attempt == a.attempt == again.attempt
    requires a.written && a.o.state == CLOSED && c in Named(w, a)
    requires var k := w.jobs[i].snapshot.kept; k.observed && k.contentRead && k.lastComment < c.at
    requires PullKey(p.host, p.repository, p.number) == key && forall q :: q in w.watched && q != p ==> PullKey(q.host, q.repository, q.number) != key
    requires other.Notice? && other.written && KeyOf(other.o) != key
    requires !again.f.replay && again.f.content.Some? && c in again.f.content.value
    ensures var w1 := After(w, a);
            var w2 := After(w1, Watch(p, false, true));
            var w3 := After(w2, other);
            var run := Complete(i, Ran(None, map[], true));
            && Allowed(w3, run)
            && var w4 := After(w3, run);
               && IsRun([w, w1, w2, w3, w4, After(w4, again)], [a, Watch(p, false, true), other, run, again])
               && key in w4.file && c in Named(w4, again)
  {
    hide After, Named, KeyOf, PullKey;
    var off, run := Watch(p, false, true), Complete(i, Ran(None, map[], true));
    var w1 := After(w, a);
    var w2 := After(w1, off);
    var w3 := After(w2, other);
    ClosedEntry(w, a, key);
    JobStays(w, a, i);
    WatchIs(w1, off);
    RemovedIs(w.watched, p);
    assert !Watches(w2.watched, key);
    DropsUnwatched(w2, other, key);
    JobStays(w2, other, i);
    var w4 := After(w3, run);
    PutBack(w3, i, key);
    NamedIsLater(w, a, c);
    NamedIsLater(w4, again, c);
    var ws, es := [w, w1, w2, w3, w4, After(w4, again)], [a, off, other, run, again];
    forall n {:trigger es[n]} | 0 <= n < 5 ensures Allowed(ws[n], es[n]) && ws[n + 1] == After(ws[n], es[n]) {
    }
  }

  lemma ClosedEntry(w: World, a: Event, key: string)
    requires Of(a, key) && a.written && a.o.state == CLOSED && key in w.file && w.file[key].attempt == a.attempt
    ensures var v := After(w, a); v.watched == w.watched && key in v.file && !Pending(v.file[key])
  {
    hide KeyOf, C.KeptAfter, ToFire;
    TookState(w.file[key], a.o, a.f, a.now);
  }

  lemma JobStays(w: World, ev: Event, i: nat)
    requires ev.Notice? && i < |w.jobs|
    ensures i < |After(w, ev).jobs| && After(w, ev).jobs[i] == w.jobs[i]
  {
    hide Started, FileAfter;
  }

  lemma PutBack(w: World, i: nat, key: string)
    requires i < |w.jobs| && w.jobs[i].key == key && key !in w.file
    ensures var v := After(w, Complete(i, Ran(None, map[], true)));
            && key in v.file && v.file[key].kept == w.jobs[i].snapshot.kept && v.file[key].attempt == w.jobs[i].snapshot.attempt
  {
    hide RanEntry;
    RanKeeps(w.jobs[i].snapshot, w.jobs[i], Ran(None, map[], true));
  }
}
