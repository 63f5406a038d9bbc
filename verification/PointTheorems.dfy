/** What the extension points keep over every run: observations, completions,
    failed preparations, scripts' changes and restarts in any order. */
module PointTheorems {
  import opened Common
  import C = Changes
  import opened Points

  const START := World(map[], [], {}, [])

  function Slot(j: Job): (string, Point) {
    (j.key, j.point)
  }

  function Edge(j: Job): string {
    EdgeOf(j.point, j.o, j.snapshot.kept.head)
  }

  // Single flight.

  /** The edges in flight are the jobs', and no two jobs are of one point of one
      pull request. */
  ghost predicate Flights(w: World) {
    && w.inflight == (set j | j in w.jobs :: Slot(j))
    && forall i, j :: 0 <= i < j < |w.jobs| ==> Slot(w.jobs[i]) != Slot(w.jobs[j])
  }

  ghost predicate Distinct<T>(s: seq<T>) {
    forall i, j :: 0 <= i < j < |s| ==> s[i] != s[j]
  }

  lemma DistinctOn<T>(s: seq<T>, x: T)
    requires Distinct(s) && x !in s
    ensures Distinct(s + [x]) && Distinct([x] + s)
  {
  }

  lemma {:induction false} ToFireOnce(e: Entry, o: C.Observation, inflight: set<(string, Point)>, key: string, n: nat)
    requires n <= 5
    ensures Distinct(ToFire(e, o, inflight, key, n))
  {
    if n > 0 {
      ToFireOnce(e, o, inflight, key, n - 1);
      var less := ToFire(e, o, inflight, key, n - 1);
      assert forall a, b :: 0 <= a < b < 5 ==> ORDER[a] != ORDER[b];
      assert ORDER[n - 1] !in ORDER[..n - 1];
      DistinctAfter(less, ORDER[n - 1]);
    }
  }

  lemma DistinctAfter(s: seq<Point>, p: Point)
    requires Distinct(s)
    ensures p !in s ==> Distinct(s + [p])
  {
  }

  /** A job an observation starts is of a point that fires. */
  lemma NoticeStarts(w: World, ev: Event, i: nat)
    requires ev.Notice? && i < |Started(w, ev)|
    ensures var key, job := KeyOf(ev.o), Started(w, ev)[i];
            var e := Took(EntryFor(w.file, key, ev.attempt), ev.o, ev.f, ev.now);
            job == Job(key, job.point, e, ev.o) && Fires(e, ev.o, w.inflight, key, job.point)
  {
  }

  lemma StartedSlots(w: World, ev: Event)
    ensures var js := Started(w, ev);
            && (forall i, j :: 0 <= i < j < |js| ==> Slot(js[i]) != Slot(js[j]))
            && (forall i :: 0 <= i < |js| ==> Slot(js[i]) !in w.inflight)
  {
    hide Took, EntryFor, KeyOf, Due;
    if ev.Notice? {
      var key := KeyOf(ev.o);
      var e := Took(EntryFor(w.file, key, ev.attempt), ev.o, ev.f, ev.now);
      ToFireOnce(e, ev.o, w.inflight, key, 5);
      assert forall i :: 0 <= i < |Started(w, ev)| ==> Started(w, ev)[i].point == ToFire(e, ev.o, w.inflight, key, 5)[i];
      forall i | 0 <= i < |Started(w, ev)| ensures Slot(Started(w, ev)[i]) !in w.inflight {
        NoticeStarts(w, ev, i);
      }
    }
  }

  lemma FlightsKept(w: World, ev: Event)
    requires Allowed(w, ev) && Flights(w)
    ensures Flights(After(w, ev))
  {
    hide FileAfter, Started;
    if ev.Complete? {
      FlightEnds(w, ev);
    } else {
      StartedSlots(w, ev);
      StartsNothing(w, ev);
      var next, js := After(w, ev), Started(w, ev);
      assert ev.Notice? || ev.Submit? ==> next.jobs == w.jobs + js;
    }
  }

  lemma FlightEnds(w: World, ev: Event)
    requires Allowed(w, ev) && Flights(w) && ev.Complete?
    ensures Flights(After(w, ev))
  {
    hide FileAfter;
    var i, next := ev.job, After(w, ev);
    assert forall k :: 0 <= k < |next.jobs| ==> next.jobs[k] == w.jobs[if k < i then k else k + 1];
    forall x | x in w.inflight && x != Slot(w.jobs[i]) ensures exists k :: 0 <= k < |next.jobs| && Slot(next.jobs[k]) == x {
      var k :| 0 <= k < |w.jobs| && Slot(w.jobs[k]) == x;
      assert Slot(next.jobs[if k < i then k else k - 1]) == x;
    }
  }

  lemma StartsNothing(w: World, ev: Event)
    ensures !ev.Notice? && !ev.Submit? ==> Started(w, ev) == []
  {
  }

  /** Two runs of one point of a pull request are never in flight together. */
  lemma {:induction false} SingleFlight(ws: seq<World>, es: seq<Event>, n: nat)
    requires IsRun(ws, es) && Flights(ws[0]) && n <= |es|
    ensures Flights(ws[n])
  {
    hide Flights, After, Allowed;
    if n > 0 {
      SingleFlight(ws, es, n - 1);
      assert ws[n] == After(ws[n - 1], es[n - 1]);
      FlightsKept(ws[n - 1], es[n - 1]);
    }
  }

  // One entry over one step.

  /** The event is no observation of the pull request for another attempt. */
  predicate SameAttempt(ev: Event, key: string, attempt: string) {
    ev.Notice? && KeyOf(ev.o) == key ==> ev.attempt == attempt
  }

  /** The event records an edge of a point of the pull request. */
  predicate Records(w: World, ev: Event, key: string, p: Point, edge: string) {
    && ev.Complete? && ev.job < |w.jobs| && ev.result.Ran? && ev.result.written
    && w.jobs[ev.job].key == key && w.jobs[ev.job].point == p && Edge(w.jobs[ev.job]) == edge
  }

  /** What one step leaves of an entry it keeps: the attempt, and each point's
      edges but for the one recorded, in their order. */
  lemma StepEntry(w: World, ev: Event, key: string)
    requires Allowed(w, ev) && key in w.file && key in After(w, ev).file && SameAttempt(ev, key, w.file[key].attempt)
    ensures var e, next := w.file[key], After(w, ev).file[key];
            && next.attempt == e.attempt
            && (forall p :: Fired(next, p) == Fired(e, p) || (exists edge :: Records(w, ev, key, p, edge) && Fired(next, p) == Fired(e, p) + [edge]))
            && (!ev.Amend? || ev.key != key ==> next.update == e.update && next.reruns == e.reruns)
  {
    hide Took, RanEntry, Amended, FileAfter, After, KeyOf, Amends, Edge, Fired;
    StepFacts(w, ev);
    var e := w.file[key];
    match ev {
      case Notice(o, attempt, f, now, _) =>
        TookKeeps(e, o, f, now);
        SameFired(e, Took(e, o, f, now));
      case Complete(i, result) =>
        if result.Ran? && key == w.jobs[i].key {
          RanKeeps(e, w.jobs[i], result);
          if result.written {
            assert Records(w, ev, key, w.jobs[i].point, Edge(w.jobs[i]));
          }
        }
      case Amend(_, attempt, number, url, a, _) =>
        AmendedKeeps(e, a);
        SameFired(e, Amended(e, a));
      case _ =>
    }
  }

  lemma SameFired(a: Entry, b: Entry)
    ensures a.fired == b.fired ==> forall p :: Fired(a, p) == Fired(b, p)
  {
  }

  /** The entry is kept throughout, and observed for one attempt only. */
  ghost predicate Undisturbed(ws: seq<World>, es: seq<Event>, key: string, attempt: string, i: nat, j: nat)
    requires IsRun(ws, es) && j <= |es|
  {
    && (forall m :: i <= m <= j ==> key in ws[m].file)
    && (forall m :: i <= m < j ==> SameAttempt(es[m], key, attempt))
  }

  /** The pull request a write is for. */
  function WrittenFor(w: World, ev: Event): Option<string>
    requires Allowed(w, ev)
  {
    match ev
    case Notice(o, _, _, _, true) => Some(KeyOf(o))
    case Complete(i, Ran(_, _, true)) => Some(w.jobs[i].key)
    case Amend(key, _, _, _, a, true) => if Amends(w.file, key, a) then Some(key) else None
    case _ => None
  }

  /** An entry leaves the file exactly at a write for another pull request, when it
      is neither watched nor owed after-merge. */
  lemma DroppedExactlyWhen(w: World, ev: Event, key: string)
    requires Allowed(w, ev) && key in w.file
    ensures key !in After(w, ev).file <==>
            && WrittenFor(w, ev).Some? && WrittenFor(w, ev).value != key
            && !Watches(w.watched, key) && !Pending(w.file[key])
  {
    hide Took, Amended, RanEntry, KeyOf, Amends, Watches, EntryFor, EntryOr, Pending, Started;
  }

  /** So watched, or owed after-merge, at every moment is enough to be kept. */
  lemma {:induction false} KeptWhileWatched(ws: seq<World>, es: seq<Event>, key: string, i: nat, j: nat)
    requires IsRun(ws, es) && i <= j <= |es| && key in ws[i].file
    requires forall m :: i <= m < j ==> Watches(ws[m].watched, key) || (key in ws[m].file && Pending(ws[m].file[key]))
    ensures key in ws[j].file
    decreases j - i
  {
    hide After, Allowed, Watches, Pending, WrittenFor;
    if i < j {
      KeptWhileWatched(ws, es, key, i, j - 1);
      assert Allowed(ws[j - 1], es[j - 1]) && ws[j] == After(ws[j - 1], es[j - 1]);
      DroppedExactlyWhen(ws[j - 1], es[j - 1], key);
    }
  }

  lemma {:induction false} StaysRecorded(ws: seq<World>, es: seq<Event>, key: string, i: nat, j: nat, p: Point)
    requires IsRun(ws, es) && i <= j <= |es| && key in ws[i].file
    requires Undisturbed(ws, es, key, ws[i].file[key].attempt, i, j)
    ensures key in ws[j].file && ws[j].file[key].attempt == ws[i].file[key].attempt
    ensures Fired(ws[i].file[key], p) <= Fired(ws[j].file[key], p)
    decreases j - i
  {
    hide After, Allowed, Fired, Records, SameAttempt;
    if i < j {
      StaysRecorded(ws, es, key, i, j - 1, p);
      assert ws[j] == After(ws[j - 1], es[j - 1]);
      StepEntry(ws[j - 1], es[j - 1], key);
    }
  }

  predicate Starts(w: World, ev: Event, key: string, p: Point, edge: string) {
    exists i :: 0 <= i < |Started(w, ev)| && Slot(Started(w, ev)[i]) == (key, p) && Edge(Started(w, ev)[i]) == edge
  }

  /** A step starts no run of an edge its entry has recorded. */
  lemma StartsUnrecorded(w: World, ev: Event, key: string, p: Point, edge: string)
    requires Allowed(w, ev) && key in w.file && SameAttempt(ev, key, w.file[key].attempt) && edge in Fired(w.file[key], p)
    ensures !Starts(w, ev, key, p, edge)
  {
    hide C.Step, Due;
    if ev.Notice? {
      forall i | 0 <= i < |Started(w, ev)|
        ensures !(Slot(Started(w, ev)[i]) == (key, p) && Edge(Started(w, ev)[i]) == edge)
      {
        NoticeStarts(w, ev, i);
      }
    }
  }

  /** Once per edge: while its entry is kept and its attempt is unchanged, an edge
      recorded as fired never runs again. */
  lemma RecordedNeverRunsAgain(ws: seq<World>, es: seq<Event>, key: string, p: Point, edge: string, i: nat, j: nat)
    requires IsRun(ws, es) && i <= j < |es| && key in ws[i].file && edge in Fired(ws[i].file[key], p)
    requires Undisturbed(ws, es, key, ws[i].file[key].attempt, i, j) && SameAttempt(es[j], key, ws[i].file[key].attempt)
    ensures !Starts(ws[j], es[j], key, p, edge)
  {
    hide After, Starts, Fired;
    StaysRecorded(ws, es, key, i, j, p);
    assert Allowed(ws[j], es[j]);
    StartsUnrecorded(ws[j], es[j], key, p, edge);
  }

  /** An observation starts a run of exactly the points that are due, unrecorded
      and not in flight. */
  lemma StartsWhatFires(w: World, ev: Event, p: Point)
    requires ev.Notice?
    ensures var key := KeyOf(ev.o);
            var e := Took(EntryFor(w.file, key, ev.attempt), ev.o, ev.f, ev.now);
            Starts(w, ev, key, p, EdgeOf(p, ev.o, e.kept.head)) <==> Fires(e, ev.o, w.inflight, key, p)
  {
    hide Took;
    var key := KeyOf(ev.o);
    var e := Took(EntryFor(w.file, key, ev.attempt), ev.o, ev.f, ev.now);
    var points := ToFire(e, ev.o, w.inflight, key, 5);
    assert ORDER[..5] == ORDER;
    assert p in ORDER || p == BeforeSubmit by {
      assert ORDER[0] == AfterPush && ORDER[1] == AfterCI && ORDER[2] == CIFailed && ORDER[3] == GatesGreen && ORDER[4] == AfterMerge;
    }
    if Fires(e, ev.o, w.inflight, key, p) {
      var i :| 0 <= i < |points| && points[i] == p;
      assert Slot(Started(w, ev)[i]) == (key, p);
    }
  }

  // Point by point, in the terms of the observation and the entry.

  /** The entry as the observation finds it, its head, and its reviews after it. */
  function Had(w: World, ev: Event): Entry
    requires ev.Notice?
  {
    var key := PullKey(ev.o.host, ev.o.repository, ev.o.number);
    if key in w.file && w.file[key].attempt == ev.attempt then w.file[key] else NewEntry(ev.attempt, 0, "")
  }

  function HeadOf(w: World, ev: Event): string
    requires ev.Notice?
  {
    if ev.o.head != "" then ev.o.head else Had(w, ev).kept.head
  }

  predicate Unfired(w: World, ev: Event, p: Point, edge: string)
    requires ev.Notice?
  {
    (p in Had(w, ev).fired ==> edge !in Had(w, ev).fired[p]) && (KeyOf(ev.o), p) !in w.inflight
  }

  /** A reviewer found the head ready, without a blocker; heads may be cut short. */
  predicate ReadyBy(w: World, ev: Event, who: string)
    requires ev.Notice?
  {
    var reviews := if ev.f.reviews.Some? then ev.f.reviews.value else Had(w, ev).reviews;
    && who in reviews && reviews[who].verdict == "READY_FOR_HUMAN_MERGE" && !reviews[who].blocker
    && reviews[who].head != "" && (reviews[who].head <= HeadOf(w, ev) || HeadOf(w, ev) <= reviews[who].head)
  }

  lemma TookIs(w: World, ev: Event)
    requires ev.Notice?
    ensures var e := Took(EntryFor(w.file, KeyOf(ev.o), ev.attempt), ev.o, ev.f, ev.now);
            && e.kept.head == HeadOf(w, ev) && (forall p :: Fired(e, p) == Fired(Had(w, ev), p))
            && e.reviews == if ev.f.reviews.Some? then ev.f.reviews.value else Had(w, ev).reviews
  {
    hide C.KeptAfter;
  }

  /** After-push starts at an open pull request's head that it did not run for. */
  lemma AfterPushStarts(w: World, ev: Event)
    requires ev.Notice?
    ensures var head := HeadOf(w, ev);
            Starts(w, ev, KeyOf(ev.o), AfterPush, head) <==> ev.o.state == "open" && head != "" && Unfired(w, ev, AfterPush, head)
  {
    hide Took, KeyOf, Starts, EntryFor, Had, HeadOf;
    TookIs(w, ev);
    StartsWhatFires(w, ev, AfterPush);
  }

  /** After-ci starts once the checks of an open pull request's head concluded, for
      each way they did. */
  lemma AfterCIStarts(w: World, ev: Event)
    requires ev.Notice?
    ensures var head, edge := HeadOf(w, ev), HeadOf(w, ev) + " " + ev.o.checks;
            Starts(w, ev, KeyOf(ev.o), AfterCI, edge) <==>
              ev.o.state == "open" && head != "" && (ev.o.checks == "success" || ev.o.checks == "failure") && Unfired(w, ev, AfterCI, edge)
  {
    hide Took, KeyOf, Starts, EntryFor, Had, HeadOf;
    TookIs(w, ev);
    StartsWhatFires(w, ev, AfterCI);
  }

  /** Ci-failed starts when they failed. */
  lemma CIFailedStarts(w: World, ev: Event)
    requires ev.Notice?
    ensures var head, edge := HeadOf(w, ev), HeadOf(w, ev) + " " + ev.o.checks;
            Starts(w, ev, KeyOf(ev.o), CIFailed, edge) <==>
              ev.o.state == "open" && head != "" && ev.o.checks == "failure" && Unfired(w, ev, CIFailed, edge)
  {
    hide Took, KeyOf, Starts, EntryFor, Had, HeadOf;
    TookIs(w, ev);
    StartsWhatFires(w, ev, CIFailed);
  }

  /** Gates-green starts when they succeeded, no review is under way, and both
      reviewers found the head ready. */
  lemma GatesGreenStarts(w: World, ev: Event)
    requires ev.Notice?
    ensures var head := HeadOf(w, ev);
            Starts(w, ev, KeyOf(ev.o), GatesGreen, head) <==>
              && ev.o.state == "open" && head != "" && ev.o.checks == "success" && "hands-reviewing" !in ev.o.labels
              && ReadyBy(w, ev, "local") && ReadyBy(w, ev, "external") && Unfired(w, ev, GatesGreen, head)
  {
    TookIs(w, ev);
    StartsWhatFires(w, ev, GatesGreen);
    hide Took, KeyOf, Starts, EntryFor, Had, HeadOf;
  }

  /** After-merge starts at a merged pull request, whatever its head. */
  lemma AfterMergeStarts(w: World, ev: Event)
    requires ev.Notice?
    ensures Starts(w, ev, KeyOf(ev.o), AfterMerge, "merged") <==> ev.o.state == "merged" && Unfired(w, ev, AfterMerge, "merged")
  {
    hide Took, KeyOf, Starts, EntryFor, Had, HeadOf;
    TookIs(w, ev);
    StartsWhatFires(w, ev, AfterMerge);
  }

  /** Only these edges are started, and before-submit by no observation. */
  lemma StartedEdges(w: World, ev: Event, key: string, p: Point, edge: string)
    requires ev.Notice? && Starts(w, ev, key, p, edge)
    ensures key == KeyOf(ev.o) && p != BeforeSubmit
    ensures edge == match p case AfterCI => HeadOf(w, ev) + " " + ev.o.checks case CIFailed => HeadOf(w, ev) + " " + ev.o.checks
                            case AfterMerge => "merged" case _ => HeadOf(w, ev)
  {
    hide Took, KeyOf, EntryFor, Had, HeadOf;
    TookIs(w, ev);
    var i :| 0 <= i < |Started(w, ev)| && Slot(Started(w, ev)[i]) == (key, p) && Edge(Started(w, ev)[i]) == edge;
    NoticeStarts(w, ev, i);
  }

  /** No observation of any run starts both ci-failed and gates-green. */
  lemma NeverBothGates(ws: seq<World>, es: seq<Event>, n: nat, red: string, green: string)
    requires IsRun(ws, es) && n < |es| && es[n].Notice?
    ensures !(Starts(ws[n], es[n], KeyOf(es[n].o), CIFailed, red) && Starts(ws[n], es[n], KeyOf(es[n].o), GatesGreen, green))
  {
    hide After, Allowed, Starts, KeyOf, HeadOf, Unfired, ReadyBy;
    if Starts(ws[n], es[n], KeyOf(es[n].o), CIFailed, red) && Starts(ws[n], es[n], KeyOf(es[n].o), GatesGreen, green) {
      StartedEdges(ws[n], es[n], KeyOf(es[n].o), CIFailed, red);
      StartedEdges(ws[n], es[n], KeyOf(es[n].o), GatesGreen, green);
      CIFailedStarts(ws[n], es[n]);
      GatesGreenStarts(ws[n], es[n]);
    }
  }

  /** Before-submit starts for the attempt's pull request observed last, at a head it
      did not run for. */
  lemma BeforeSubmitStarts(w: World, ev: Event)
    requires ev.Submit? && Allowed(w, ev)
    ensures var e := w.file[ev.key];
            && e.attempt == ev.attempt && (forall k :: k in w.file && w.file[k].attempt == ev.attempt ==> w.file[k].seen <= e.seen)
            && (Starts(w, ev, ev.key, BeforeSubmit, e.kept.head) <==>
                  e.kept.head != "" && (BeforeSubmit in e.fired ==> e.kept.head !in e.fired[BeforeSubmit]) && (ev.key, BeforeSubmit) !in w.inflight)
            && forall i :: 0 <= i < |Started(w, ev)| ==> Started(w, ev)[i].key == ev.key && Started(w, ev)[i].point == BeforeSubmit
  {
    if Submits(w, ev.key) {
      assert Started(w, ev)[0].point == BeforeSubmit;
    }
  }

  /** What an observation leaves of the entry beside its edges. */
  lemma TakesIn(w: World, ev: Event)
    requires ev.Notice?
    ensures var e, had := Took(EntryFor(w.file, KeyOf(ev.o), ev.attempt), ev.o, ev.f, ev.now), Had(w, ev);
            && e.attempt == ev.attempt && e.number == ev.o.number && e.url == ev.o.url && e.seen == ev.now
            && e.base == (if ev.f.base == "" then had.base else ev.f.base)
            && e.previous == (if ev.o.head == "" || ev.o.head == had.kept.head then had.previous else had.kept.head)
            && e.kept == C.Step(had.kept, ev.o, ev.f)
            && e.identity == had.identity && e.prePush == had.prePush && e.update == had.update && e.reruns == had.reruns
  {
    hide C.Step;
  }

  /** A pull request is owed after-merge while it is known merged and no run of it was
      recorded. */
  lemma OwedIs(e: Entry)
    ensures Pending(e) <==> e.kept.state == "merged" && (AfterMerge in e.fired ==> "merged" !in e.fired[AfterMerge])
  {
  }

  /** What a recorded run leaves: its edge, once, and after-push also the identities it
      found and the check it failed, or none. */
  lemma RunLeaves(e: Entry, job: Job, r: Ending)
    requires r.Ran?
    ensures var next, edge := RanEntry(e, job, r), Edge(job);
            && Fired(next, job.point) == (if edge in Fired(e, job.point) then Fired(e, job.point) else Fired(e, job.point) + [edge])
            && (forall p :: p != job.point ==> Fired(next, p) == Fired(e, p))
            && (job.point.AfterPush? ==> next.identity == r.identity && (next.prePush.Some? <==> r.failed.Some?)
                                         && (r.failed.Some? ==> next.prePush == Some(PrePush(job.snapshot.kept.head, r.failed.value))))
            && (!job.point.AfterPush? ==> next.identity == e.identity && next.prePush == e.prePush)
            && next == e.(fired := next.fired, identity := next.identity, prePush := next.prePush)
  {
  }

  // What is recorded did run.

  ghost predicate Dispatched(ws: seq<World>, es: seq<Event>, n: nat, key: string, p: Point, edge: string)
    requires IsRun(ws, es) && n <= |es|
  {
    exists m {:trigger es[m]} :: 0 <= m < n && Starts(ws[m], es[m], key, p, edge)
  }

  ghost predicate AllDispatched(ws: seq<World>, es: seq<Event>, n: nat, key: string, e: Entry)
    requires IsRun(ws, es) && n <= |es|
  {
    forall p, edge :: edge in Fired(e, p) ==> Dispatched(ws, es, n, key, p, edge)
  }

  ghost predicate Sourced(ws: seq<World>, es: seq<Event>, n: nat)
    requires IsRun(ws, es) && n <= |es|
  {
    && (forall key :: key in ws[n].file ==> AllDispatched(ws, es, n, key, ws[n].file[key]))
    && (forall j :: j in ws[n].jobs ==> AllDispatched(ws, es, n, j.key, j.snapshot) && Dispatched(ws, es, n, j.key, j.point, Edge(j)))
  }

  lemma TookKeeps(e: Entry, o: C.Observation, f: C.Facts, now: nat)
    ensures var t := Took(e, o, f, now); t.fired == e.fired && t.attempt == e.attempt && t.update == e.update && t.reruns == e.reruns
  {
  }

  lemma RanKeeps(e: Entry, job: Job, r: Ending)
    requires r.Ran?
    ensures var t := RanEntry(e, job, r);
            && t.attempt == e.attempt && t.update == e.update && t.reruns == e.reruns && t.kept == e.kept
            && Fired(t, job.point) == (if Edge(job) in Fired(e, job.point) then Fired(e, job.point) else Fired(e, job.point) + [Edge(job)])
            && (forall p :: p != job.point ==> Fired(t, p) == Fired(e, p))
  {
  }

  lemma AmendedKeeps(e: Entry, a: Amendment)
    ensures var t := Amended(e, a); t.fired == e.fired && t.attempt == e.attempt && t.kept == e.kept
  {
  }

  /** The entry a step puts in the file under the key it is for. */
  lemma StepFacts(w: World, ev: Event)
    requires Allowed(w, ev)
    ensures ev.Notice? ==>
              forall key :: key in FileAfter(w, ev) ==>
                FileAfter(w, ev)[key] == if ev.written && key == KeyOf(ev.o) then Took(EntryFor(w.file, key, ev.attempt), ev.o, ev.f, ev.now)
                                         else Old(w, key)
    ensures ev.Complete? ==>
              forall key :: key in FileAfter(w, ev) ==>
                FileAfter(w, ev)[key] == if ev.result.Ran? && ev.result.written && key == w.jobs[ev.job].key
                                         then RanEntry(EntryOr(w.file, key, w.jobs[ev.job].snapshot), w.jobs[ev.job], ev.result)
                                         else Old(w, key)
    ensures ev.Amend? ==>
              forall key :: key in FileAfter(w, ev) ==>
                FileAfter(w, ev)[key] == if ev.written && key == ev.key && Amends(w.file, key, ev.amendment)
                                         then Amended(EntryOr(w.file, key, NewEntry(ev.attempt, ev.number, ev.url)), ev.amendment)
                                         else Old(w, key)
    ensures forall key :: key in FileAfter(w, ev) ==> key in w.file || (ev.Notice? && ev.written && key == KeyOf(ev.o))
                                                      || (ev.Complete? && key == w.jobs[ev.job].key) || (ev.Amend? && key == ev.key && Amends(w.file, key, ev.amendment))
    ensures !Writes(ev) ==> FileAfter(w, ev) == w.file
    ensures ev.Submit? || ev.Watch? || ev.Restart? ==> FileAfter(w, ev) == w.file
    ensures After(w, ev).file == FileAfter(w, ev)
  {
    hide Took, RanEntry, Amended, KeyOf, Stays, Amends, Started, NewEntry, EntryFor;
  }

  /** The event carries a write of the file that happens. */
  predicate Writes(ev: Event) {
    match ev
    case Notice(_, _, _, _, written) => written
    case Complete(_, result) => result.Ran? && result.written
    case Amend(_, _, _, _, _, written) => written
    case _ => false
  }

  function Old(w: World, key: string): Entry {
    if key in w.file then w.file[key] else NewEntry("", 0, "")
  }

  /** Where an entry's recorded edges come from in one step. */
  lemma StepSource(w: World, ev: Event, key: string, p: Point, edge: string)
    requires Allowed(w, ev) && key in After(w, ev).file && edge in Fired(After(w, ev).file[key], p)
    ensures || (key in w.file && edge in Fired(w.file[key], p))
            || (exists j :: j in w.jobs && j.key == key && edge in Fired(j.snapshot, p))
            || Records(w, ev, key, p, edge)
  {
    hide Took, RanEntry, Amended, FileAfter, After, KeyOf, Amends, Edge;
    StepFacts(w, ev);
    match ev {
      case Notice(o, attempt, f, now, _) => TookKeeps(EntryFor(w.file, key, attempt), o, f, now);
      case Complete(i, result) =>
        assert w.jobs[i] in w.jobs;
        if result.Ran? && key == w.jobs[i].key {
          RanKeeps(EntryOr(w.file, key, w.jobs[i].snapshot), w.jobs[i], result);
        }
      case Amend(_, attempt, number, url, a, _) => AmendedKeeps(EntryOr(w.file, key, NewEntry(attempt, number, url)), a);
      case _ =>
    }
  }

  lemma StepJob(w: World, ev: Event, j: Job)
    requires Allowed(w, ev) && j in After(w, ev).jobs
    ensures j in w.jobs || (Starts(w, ev, j.key, j.point, Edge(j)) && forall p :: Fired(j.snapshot, p) == [] || (j.key in w.file && Fired(j.snapshot, p) == Fired(w.file[j.key], p)))
  {
    hide C.Step, FileAfter;
    if j !in w.jobs {
      var js := Started(w, ev);
      assert j in js;
      var i :| 0 <= i < |js| && js[i] == j;
      assert Slot(Started(w, ev)[i]) == (j.key, j.point);
    }
  }

  lemma {:induction false} AllSourced(ws: seq<World>, es: seq<Event>, n: nat)
    requires IsRun(ws, es) && ws[0] == START && n <= |es|
    ensures Sourced(ws, es, n)
  {
    hide After, Allowed, Fired, Starts, Edge, Dispatched;
    if n > 0 {
      AllSourced(ws, es, n - 1);
      var w, ev := ws[n - 1], es[n - 1];
      assert Allowed(w, ev) && ws[n] == After(w, ev);
      forall key, p, edge | Dispatched(ws, es, n - 1, key, p, edge) ensures Dispatched(ws, es, n, key, p, edge) {
        DispatchedOn(ws, es, n, key, p, edge);
      }
      forall key, p, edge | key in ws[n].file && edge in Fired(ws[n].file[key], p) ensures Dispatched(ws, es, n, key, p, edge) {
        StepSource(w, ev, key, p, edge);
      }
      forall j | j in ws[n].jobs
        ensures Dispatched(ws, es, n, j.key, j.point, Edge(j)) && AllDispatched(ws, es, n, j.key, j.snapshot)
      {
        StepJob(w, ev, j);
        if j !in w.jobs {
          DispatchedNow(ws, es, n, j.key, j.point, Edge(j));
        }
      }
    }
  }

  lemma DispatchedOn(ws: seq<World>, es: seq<Event>, n: nat, key: string, p: Point, edge: string)
    requires IsRun(ws, es) && 0 < n <= |es| && Dispatched(ws, es, n - 1, key, p, edge)
    ensures Dispatched(ws, es, n, key, p, edge)
  {
  }

  lemma DispatchedNow(ws: seq<World>, es: seq<Event>, n: nat, key: string, p: Point, edge: string)
    requires IsRun(ws, es) && 0 < n <= |es| && Starts(ws[n - 1], es[n - 1], key, p, edge)
    ensures Dispatched(ws, es, n, key, p, edge)
  {
  }

  ghost predicate Recorded(ws: seq<World>, es: seq<Event>, n: nat, key: string, p: Point, edge: string)
    requires IsRun(ws, es) && n <= |es|
  {
    exists m {:trigger es[m]} :: 0 <= m < n && Records(ws[m], es[m], key, p, edge)
  }

  /** Every edge in the file, or in what a run in flight was started with, has been
      recorded. */
  ghost predicate AllRecorded(ws: seq<World>, es: seq<Event>, n: nat)
    requires IsRun(ws, es) && n <= |es|
  {
    && (forall key, p, edge :: key in ws[n].file && edge in Fired(ws[n].file[key], p) ==> Recorded(ws, es, n, key, p, edge))
    && (forall j, p, edge :: j in ws[n].jobs && edge in Fired(j.snapshot, p) ==> Recorded(ws, es, n, j.key, p, edge))
  }

  lemma RecordedOn(ws: seq<World>, es: seq<Event>, n: nat, key: string, p: Point, edge: string)
    requires IsRun(ws, es) && 0 < n <= |es|
    requires Recorded(ws, es, n - 1, key, p, edge) || Records(ws[n - 1], es[n - 1], key, p, edge)
    ensures Recorded(ws, es, n, key, p, edge)
  {
    hide Records;
  }

  lemma {:induction false} RunsRecord(ws: seq<World>, es: seq<Event>, n: nat)
    requires IsRun(ws, es) && ws[0] == START && n <= |es|
    ensures AllRecorded(ws, es, n)
  {
    hide After, Allowed, Fired, Starts, Records, Recorded;
    if n > 0 {
      RunsRecord(ws, es, n - 1);
      var w, ev := ws[n - 1], es[n - 1];
      assert Allowed(w, ev) && ws[n] == After(w, ev);
      forall key, p, edge | key in ws[n].file && edge in Fired(ws[n].file[key], p) ensures Recorded(ws, es, n, key, p, edge) {
        StepSource(w, ev, key, p, edge);
        RecordedOn(ws, es, n, key, p, edge);
      }
      forall j, p, edge | j in ws[n].jobs && edge in Fired(j.snapshot, p) ensures Recorded(ws, es, n, j.key, p, edge) {
        StepJob(w, ev, j);
        RecordedOn(ws, es, n, j.key, p, edge);
      }
    }
  }

  /** An edge the points file records is one that a run of that point of that pull
      request was started for, and that the run's own end recorded: one cut short, or
      not prepared, or whose write failed, never does. */
  lemma RecordedByItsRun(ws: seq<World>, es: seq<Event>, n: nat, key: string, p: Point, edge: string)
    requires IsRun(ws, es) && ws[0] == START && n <= |es| && key in ws[n].file && edge in Fired(ws[n].file[key], p)
    ensures exists m {:trigger es[m]} :: 0 <= m < n && Records(ws[m], es[m], key, p, edge) && Dispatched(ws, es, m, key, p, edge)
  {
    hide Fired, Dispatched;
    RunsRecord(ws, es, n);
    assert Recorded(ws, es, n, key, p, edge);
    var m {:trigger es[m]} :| 0 <= m < n && Records(ws[m], es[m], key, p, edge);
    AllSourced(ws, es, m);
    assert ws[m].jobs[es[m].job] in ws[m].jobs;
  }

  // After-merge stays owed.

  /** Nothing observed of the pull request denies that it is merged, or gives it
      to another attempt. */
  predicate StillMerged(ev: Event, key: string, attempt: string) {
    ev.Notice? && KeyOf(ev.o) == key ==> ev.attempt == attempt && (ev.o.state == MERGED || ev.o.state == "")
  }

  lemma StepOwed(w: World, ev: Event, key: string)
    requires Allowed(w, ev) && key in w.file && Pending(w.file[key]) && StillMerged(ev, key, w.file[key].attempt)
    ensures || Records(w, ev, key, AfterMerge, MERGED)
            || (key in After(w, ev).file && Pending(After(w, ev).file[key]) && After(w, ev).file[key].attempt == w.file[key].attempt)
  {
    hide After, FileAfter, Fired, Records, KeyOf, Took, Amended, RanEntry;
    StepFacts(w, ev);
    StepOwes(w, ev, key);
    StepState(w, ev, key);
    if key in FileAfter(w, ev) {
      StepEntry(w, ev, key);
      RecordsMerged(w, ev, key);
    }
  }

  lemma RecordsMerged(w: World, ev: Event, key: string)
    ensures forall edge :: Records(w, ev, key, AfterMerge, edge) ==> edge == MERGED
  {
  }

  lemma StepState(w: World, ev: Event, key: string)
    requires Allowed(w, ev) && key in w.file && StillMerged(ev, key, w.file[key].attempt) && w.file[key].kept.state == MERGED
    ensures key in FileAfter(w, ev) ==> FileAfter(w, ev)[key].kept.state == MERGED
  {
    hide FileAfter, After, KeyOf, Took, Amended, RanEntry, Amends;
    StepFacts(w, ev);
    var e := w.file[key];
    match ev {
      case Notice(o, attempt, f, now, _) => TookState(e, o, f, now);
      case Complete(i, result) =>
        if result.Ran? {
          RanKeeps(e, w.jobs[i], result);
        }
      case Amend(_, attempt, number, url, a, _) => AmendedKeeps(e, a);
      case _ =>
    }
  }

  lemma TookState(e: Entry, o: C.Observation, f: C.Facts, now: nat)
    ensures Took(e, o, f, now).kept.state == if o.state != "" then o.state else e.kept.state
  {
  }

  /** An entry is written unless it is neither watched nor owed anything. */
  lemma StepOwes(w: World, ev: Event, key: string)
    requires Allowed(w, ev) && key in w.file && Pending(w.file[key])
    ensures key in FileAfter(w, ev)
  {
  }

  /** Once the points file records a pull request as merged, its entry stays,
      watched or not, until the merged edge is recorded. */
  lemma {:induction false} AfterMergeStaysOwed(ws: seq<World>, es: seq<Event>, key: string, i: nat, j: nat)
    requires IsRun(ws, es) && i <= j <= |es| && key in ws[i].file && Pending(ws[i].file[key])
    requires forall m :: i <= m < j ==> StillMerged(es[m], key, ws[i].file[key].attempt)
    ensures || (exists m :: i <= m < j && Records(ws[m], es[m], key, AfterMerge, MERGED))
            || (key in ws[j].file && Pending(ws[j].file[key]) && ws[j].file[key].attempt == ws[i].file[key].attempt)
    decreases j - i
  {
    hide After, Allowed, Records, Pending, StillMerged;
    if i < j {
      AfterMergeStaysOwed(ws, es, key, i, j - 1);
      if key in ws[j - 1].file && Pending(ws[j - 1].file[key]) && ws[j - 1].file[key].attempt == ws[i].file[key].attempt {
        assert ws[j] == After(ws[j - 1], es[j - 1]) && Allowed(ws[j - 1], es[j - 1]);
        StepOwed(ws[j - 1], es[j - 1], key);
      }
    }
  }

  function Replay(key: string, e: Entry, now: nat, written: bool): Event {
    Notice(ObservationOf(key, e), e.attempt, C.Facts("", None, None, None, true), now, written)
  }

  /** After a restart, the replay of a pull request after-merge is owed to starts
      its run, for its own attempt, and it stays owed. */
  lemma OwedAfterRestart(w: World, key: string, now: nat, written: bool)
    requires key in w.file && Pending(w.file[key]) && Names(key, w.file[key])
    ensures var ev := Replay(key, w.file[key], now, written);
            var next := After(After(w, Restart), ev);
            && Starts(After(w, Restart), ev, key, AfterMerge, MERGED)
            && (forall j :: j in Started(After(w, Restart), ev) ==> j.key == key && j.snapshot.attempt == w.file[key].attempt && j.point == AfterMerge)
            && key in next.file && Pending(next.file[key])
  {
    hide After, Starts, Started, Took;
    var e, r := w.file[key], After(w, Restart);
    RestartIs(w);
    var ev := Replay(key, e, now, written);
    Noticed(r, ev, key);
    StartsWhatFires(r, ev, AfterMerge);
    Retaken(e, ev);
    forall j | j in Started(r, ev) ensures j.key == key && j.snapshot.attempt == e.attempt && j.point == AfterMerge {
      var i :| 0 <= i < |Started(r, ev)| && Started(r, ev)[i] == j;
      NoticeStarts(r, ev, i);
    }
  }

  lemma RestartIs(w: World)
    ensures After(w, Restart) == World(w.file, w.watched, {}, [])
  {
  }

  lemma Retaken(e: Entry, ev: Event)
    requires ev.Notice? && ev.o.state == MERGED && e.kept.state == MERGED
    ensures var t := Took(e, ev.o, ev.f, ev.now); t.attempt == e.attempt && t.fired == e.fired && t.kept.state == MERGED
  {
  }

  lemma {:induction false} BeforeCut(a: string, c: char, b: string)
    requires c !in a
    ensures Before(a + [c] + b, c) == a && Behind(a + [c] + b, c) == b
  {
    var s := a + [c] + b;
    if a != "" {
      assert s[1..] == a[1..] + [c] + b;
      BeforeCut(a[1..], c, b);
    } else {
      assert s[1..] == b;
    }
  }

  lemma {:induction false} BeforeHasNone(s: string, c: char)
    ensures c !in Before(s, c)
  {
    if s != "" && s[0] != c {
      BeforeHasNone(s[1..], c);
    }
  }

  /** A key gives back the host and the repository it was made of exactly when
      the host has no slash and the repository no number sign. */
  lemma KeyComesBack(host: string, repository: string, number: int)
    ensures var key := PullKey(host, repository, number);
            (Before(key, '/') == host && Before(Behind(key, '/'), '#') == repository) <==> ('/' !in host && '#' !in repository)
  {
    hide Decimal;
    var key := PullKey(host, repository, number);
    var rest := repository + "#" + Decimal(number);
    assert key == host + ['/'] + rest && rest == repository + ['#'] + Decimal(number);
    BeforeHasNone(key, '/');
    BeforeHasNone(Behind(key, '/'), '#');
    if '/' !in host {
      BeforeCut(host, '/', rest);
      if '#' !in repository {
        BeforeCut(repository, '#', Decimal(number));
      }
    }
  }

  /** A key that is made of the names it gives back, and the number. */
  predicate SaneKey(key: string, number: int) {
    PullKey(Before(key, '/'), Before(Behind(key, '/'), '#'), number) == key
  }

  /** The event names its pull request as forges do. */
  predicate Sane(ev: Event) {
    match ev
    case Notice(o, _, _, _, _) => '/' !in o.host && '#' !in o.repository
    case Amend(key, _, number, _, _, _) => SaneKey(key, number)
    case _ => true
  }

  ghost predicate AllNamed(w: World) {
    (forall key :: key in w.file ==> SaneKey(key, w.file[key].number)) && (forall j :: j in w.jobs ==> SaneKey(j.key, j.snapshot.number))
  }

  lemma {:induction false} KeysStayNamed(ws: seq<World>, es: seq<Event>, n: nat)
    requires IsRun(ws, es) && AllNamed(ws[0]) && n <= |es| && forall m :: 0 <= m < n ==> Sane(es[m])
    ensures AllNamed(ws[n])
  {
    hide After, Allowed, AllNamed, Sane;
    if n > 0 {
      KeysStayNamed(ws, es, n - 1);
      assert Allowed(ws[n - 1], es[n - 1]) && ws[n] == After(ws[n - 1], es[n - 1]);
      StepNamed(ws[n - 1], es[n - 1]);
    }
  }

  lemma StepNamed(w: World, ev: Event)
    requires Allowed(w, ev) && AllNamed(w) && Sane(ev)
    ensures AllNamed(After(w, ev))
  {
    hide Took, RanEntry, Amended, FileAfter, After, Amends, SaneKey, PullKey;
    StepFacts(w, ev);
    var next := After(w, ev);
    forall key | key in next.file ensures SaneKey(key, next.file[key].number) {
      FileNamed(w, ev, key);
    }
    forall j | j in next.jobs ensures SaneKey(j.key, j.snapshot.number) {
      JobNamed(w, ev, j);
    }
  }

  lemma FileNamed(w: World, ev: Event, key: string)
    requires Allowed(w, ev) && AllNamed(w) && Sane(ev) && key in After(w, ev).file
    ensures SaneKey(key, After(w, ev).file[key].number)
  {
    hide Took, RanEntry, Amended, FileAfter, After, Amends, SaneKey, PullKey, KeyOf;
    StepFacts(w, ev);
    match ev {
      case Notice(o, attempt, f, now, _) =>
        Numbered(o, EntryFor(w.file, key, attempt), f, now);
      case Complete(i, result) =>
        assert w.jobs[i] in w.jobs;
        if result.Ran? && key == w.jobs[i].key {
          RanNumber(EntryOr(w.file, key, w.jobs[i].snapshot), w.jobs[i], result);
        }
      case Amend(_, attempt, number, url, a, _) =>
        AmendedNumber(EntryOr(w.file, key, NewEntry(attempt, number, url)), a);
      case _ =>
    }
  }

  lemma Numbered(o: C.Observation, e: Entry, f: C.Facts, now: nat)
    ensures Took(e, o, f, now).number == o.number
    ensures '/' !in o.host && '#' !in o.repository ==> SaneKey(KeyOf(o), o.number)
  {
    hide C.Step, Decimal;
    KeyComesBack(o.host, o.repository, o.number);
  }

  lemma RanNumber(e: Entry, job: Job, r: Ending)
    requires r.Ran?
    ensures RanEntry(e, job, r).number == e.number
  {
  }

  lemma AmendedNumber(e: Entry, a: Amendment)
    ensures Amended(e, a).number == e.number
  {
  }

  lemma JobNamed(w: World, ev: Event, j: Job)
    requires Allowed(w, ev) && AllNamed(w) && Sane(ev) && j in After(w, ev).jobs
    ensures SaneKey(j.key, j.snapshot.number)
  {
    hide Took, FileAfter, SaneKey, Fires;
    if j !in w.jobs {
      assert j in Started(w, ev);
      var i :| 0 <= i < |Started(w, ev)| && Started(w, ev)[i] == j;
      if ev.Notice? {
        NoticeStarts(w, ev, i);
        Numbered(ev.o, EntryFor(w.file, j.key, ev.attempt), ev.f, ev.now);
      }
    }
  }

  /** So in a run of sane names every entry's own observation names its key, and
      the replay reaches each pull request after-merge is owed to. */
  lemma ReplayReachesItsPull(ws: seq<World>, es: seq<Event>, n: nat, key: string)
    requires IsRun(ws, es) && ws[0] == START && n <= |es| && (forall m :: 0 <= m < n ==> Sane(es[m])) && key in ws[n].file
    ensures Names(key, ws[n].file[key])
  {
    KeysStayNamed(ws, es, n);
  }

  // What can be lost, and what is kept.

  /** The watch list forgets a merged pull request before its entry says it is
      merged: when the launcher stops between the two, the next write drops the
      entry, after-merge never ran, and nothing is owed. */
  lemma UnwatchedBeforeNoticed(w: World, key: string, p: Pull, ev: Event)
    requires key in w.file && !Pending(w.file[key]) && ev.Notice? && ev.written && KeyOf(ev.o) != key
    requires PullKey(p.host, p.repository, p.number) == key && forall q :: q in w.watched && q != p ==> PullKey(q.host, q.repository, q.number) != key
    ensures var w1 := After(w, Watch(p, false, true));
            var w2 := After(w1, Restart);
            && IsRun([w, w1, w2, After(w2, ev)], [Watch(p, false, true), Restart, ev])
            && key !in After(w2, ev).file && forall j :: j in After(w2, ev).jobs ==> j.key != key
    ensures forall m :: 0 <= m < 3 ==> StillMerged([Watch(p, false, true), Restart, ev][m], key, w.file[key].attempt)
  {
    hide After, Pending, KeyOf, PullKey;
    var off := Watch(p, false, true);
    var w1 := After(w, off);
    var w2 := After(w1, Restart);
    RemovedIs(w.watched, p);
    assert w1.file == w.file && w1.watched == Removed(w.watched, p) by { WatchIs(w, off); }
    RestartIs(w1);
    assert !Watches(w2.watched, key);
    DropsUnwatched(w2, ev, key);
    var ws, es := [w, w1, w2, After(w2, ev)], [off, Restart, ev];
    forall i {:trigger es[i]} | 0 <= i < 3 ensures Allowed(ws[i], es[i]) && ws[i + 1] == After(ws[i], es[i]) {
    }
  }

  /** Once the merged edge is recorded nothing keeps the entry of a pull request
      that is not watched: the next write for another drops it with its edges, and
      the merge observed again runs after-merge a second time. */
  lemma MergedMayRunTwice(w: World, key: string, other: Event, again: Event)
    requires key in w.file && MERGED in Fired(w.file[key], AfterMerge) && !Watches(w.watched, key) && (key, AfterMerge) !in w.inflight
    requires other.Notice? && other.written && KeyOf(other.o) != key
    requires again.Notice? && KeyOf(again.o) == key && again.o.state == MERGED && again.attempt == w.file[key].attempt
    ensures IsRun([w, After(w, other), After(After(w, other), again)], [other, again])
    ensures !Starts(w, again, key, AfterMerge, MERGED) && Starts(After(w, other), again, key, AfterMerge, MERGED)
  {
    hide After, KeyOf, Starts, Took;
    var w1 := After(w, other);
    DropsUnwatched(w, other, key);
    var ws, es := [w, w1, After(w1, again)], [other, again];
    forall i {:trigger es[i]} | 0 <= i < 2 ensures Allowed(ws[i], es[i]) && ws[i + 1] == After(ws[i], es[i]) {
    }
    StartsUnrecorded(w, again, key, AfterMerge, MERGED);
    TookKeeps(NewEntry(again.attempt, 0, ""), again.o, again.f, again.now);
    StartsWhatFires(w1, again, AfterMerge);
  }

  lemma WatchIs(w: World, ev: Event)
    requires ev.Watch? && ev.written
    ensures After(w, ev) == w.(watched := Listed(w.watched, ev.pull, ev.on))
  {
  }

  lemma DropsUnwatched(w: World, ev: Event, key: string)
    requires ev.Notice? && ev.written && KeyOf(ev.o) != key && !Watches(w.watched, key)
    requires key in w.file ==> !Pending(w.file[key])
    ensures key !in After(w, ev).file
    ensures forall j :: j in After(w, ev).jobs && j.key == key ==> j in w.jobs
    ensures forall p :: (key, p) in After(w, ev).inflight ==> (key, p) in w.inflight
  {
  }

  lemma {:induction false} RemovedIs(watched: seq<Pull>, p: Pull)
    ensures forall q :: q in Removed(watched, p) <==> q in watched && q != p
    ensures |Removed(watched, p)| <= |watched|
    ensures Distinct(watched) ==> Distinct(Removed(watched, p))
  {
    if watched != [] {
      RemovedIs(watched[1..], p);
      assert forall q :: q in watched <==> q == watched[0] || q in watched[1..];
      if Distinct(watched) {
        assert forall j :: 1 <= j < |watched| ==> watched[1..][j - 1] == watched[j];
        assert Distinct(watched[1..]) && watched[0] !in watched[1..];
        if watched[0] != p {
          DistinctOn(Removed(watched[1..], p), watched[0]);
        }
      }
    }
  }

  /** A run dispatched for one attempt and recorded after the pull request went to
      another records its edge there: the point does not run for the new attempt
      at that head. */
  lemma RecordedForAnother(w: World, i: nat, identity: map<string, string>, ev: Event)
    requires i < |w.jobs| && w.jobs[i].point == AfterPush && w.jobs[i].key in w.file
    requires w.file[w.jobs[i].key].attempt != w.jobs[i].snapshot.attempt
    requires ev.Notice? && KeyOf(ev.o) == w.jobs[i].key && ev.attempt == w.file[w.jobs[i].key].attempt
    ensures var job, next := w.jobs[i], After(w, Complete(i, Ran(None, identity, true)));
            && job.key in next.file && next.file[job.key].attempt == w.file[job.key].attempt
            && Edge(job) in Fired(next.file[job.key], AfterPush)
            && !Starts(next, ev, job.key, AfterPush, Edge(job))
  {
    hide Took, KeyOf, Edge;
    var job, done := w.jobs[i], Complete(i, Ran(None, identity, true));
    var next := After(w, done);
    StepFacts(w, done);
    RanKeeps(w.file[job.key], job, done.result);
    StartsUnrecorded(next, ev, job.key, AfterPush, Edge(job));
  }

  /** A script's base update and re-run heads are changed by its own amendments
      only. */
  lemma {:induction false} ScriptRecordsStay(ws: seq<World>, es: seq<Event>, key: string, i: nat, j: nat)
    requires IsRun(ws, es) && i <= j <= |es| && key in ws[i].file
    requires Undisturbed(ws, es, key, ws[i].file[key].attempt, i, j)
    requires forall m :: i <= m < j ==> !(es[m].Amend? && es[m].key == key)
    ensures key in ws[j].file && ws[j].file[key].attempt == ws[i].file[key].attempt
    ensures ws[j].file[key].update == ws[i].file[key].update && ws[j].file[key].reruns == ws[i].file[key].reruns
    decreases j - i
  {
    hide After, Allowed, SameAttempt, Records, Fired;
    if i < j {
      ScriptRecordsStay(ws, es, key, i, j - 1);
      assert ws[j] == After(ws[j - 1], es[j - 1]);
      StepEntry(ws[j - 1], es[j - 1], key);
    }
  }

  /** A pull request watched comes last, the others in their order, and only the oldest
      go; one no longer watched is taken out of the list. */
  lemma ListedInOrder(watched: seq<Pull>, p: Pull)
    ensures Listed(watched, p, false) == Removed(watched, p)
    ensures var more, listed := Removed(watched, p) + [p], Listed(watched, p, true);
            |listed| == (if |more| > 20 then 20 else |more|) && listed == more[|more| - |listed|..]
  {
  }

  /** The watch list over every run: each pull request once, at most the bound;
      the last one watched is in it. */
  lemma {:induction false} WatchListBounded(ws: seq<World>, es: seq<Event>, n: nat)
    requires IsRun(ws, es) && n <= |es| && Distinct(ws[0].watched) && |ws[0].watched| <= MAX_WATCHED
    ensures Distinct(ws[n].watched) && |ws[n].watched| <= MAX_WATCHED
    ensures n > 0 && es[n - 1].Watch? && es[n - 1].written ==>
              (es[n - 1].pull in ws[n].watched <==> es[n - 1].on)
              && forall q :: q in ws[n].watched ==> q in ws[n - 1].watched || q == es[n - 1].pull
  {
    if n > 0 {
      WatchListBounded(ws, es, n - 1);
      var w, ev := ws[n - 1], es[n - 1];
      StepWatch(w, ev, ws[n]);
    }
  }

  lemma StepWatch(w: World, ev: Event, next: World)
    requires Allowed(w, ev) && next == After(w, ev) && Distinct(w.watched) && |w.watched| <= MAX_WATCHED
    ensures Distinct(next.watched) && |next.watched| <= MAX_WATCHED
    ensures ev.Watch? && ev.written ==> (ev.pull in next.watched <==> ev.on) && forall q :: q in next.watched ==> q in w.watched || q == ev.pull
  {
    hide FileAfter, Started;
    if ev.Watch? && ev.written {
      RemovedIs(w.watched, ev.pull);
      var less := Removed(w.watched, ev.pull);
      if ev.on {
        var more := less + [ev.pull];
        DistinctOn(less, ev.pull);
        assert ev.pull == next.watched[|next.watched| - 1];
        assert forall q :: q in next.watched ==> q in more;
      }
    }
  }
}
