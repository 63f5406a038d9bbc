/** The extension points of the watched pull requests (internal/agent/dispatch.go,
    internal/agent/forgewatch.go:395-415): the points file, the edges in flight and
    the watch list, as they change step by step. */
module Points {
  import opened Common
  import C = Changes
  import B = BaseUpdate

  const OPEN := "open"
  const MERGED := "merged"
  const SUCCESS := "success"
  const FAILURE := "failure"
  const READY := "READY_FOR_HUMAN_MERGE"
  const LABEL_REVIEWING := "hands-reviewing"
  const LOCAL := "local"
  const EXTERNAL := "external"
  const MAX_WATCHED: nat := 20

  datatype Point = AfterPush | AfterCI | CIFailed | GatesGreen | AfterMerge | BeforeSubmit

  datatype Pull = Pull(host: string, repository: string, number: int)

  datatype PrePush = PrePush(head: string, failure: string)

  /** What the points file holds of a pull request. */
  datatype Entry = Entry(attempt: string, number: int, url: string, base: string, previous: string, identity: map<string, string>,
                         reviews: map<string, C.Review>, fired: map<Point, seq<string>>, prePush: Option<PrePush>,
                         reruns: seq<string>, update: Option<B.Update>, seen: nat, kept: C.Kept)

  /** A run of one point in flight, with the entry and the observation it was
      dispatched with. */
  datatype Job = Job(key: string, point: Point, snapshot: Entry, o: C.Observation)

  /** The points file, the watch list, and the launcher's own memory. */
  datatype World = World(file: map<string, Entry>, watched: seq<Pull>, inflight: set<(string, Point)>, jobs: seq<Job>)

  /** How a run of a point ended: cut by the launcher's exit, not prepared, or
      run, with what it leaves and whether the file could be written. */
  datatype Ending = Cut | Unprepared | Ran(failed: Option<string>, identity: map<string, string>, written: bool)

  /** A script's own change to an entry. */
  datatype Amendment = SetUpdate(record: Option<B.Update>) | Claim(head: string) | Release(head: string)

  datatype Event =
    | Notice(o: C.Observation, attempt: string, f: C.Facts, now: nat, written: bool)
    | Complete(job: nat, result: Ending)
    | Submit(attempt: string, key: string)
    | Amend(key: string, attempt: string, number: int, url: string, amendment: Amendment, written: bool)
    | Watch(pull: Pull, on: bool, written: bool)
    | Restart

  // Keys.

  function Decimal(n: int): string
    decreases if n < 0 then 1 - n else n
  {
    if n < 0 then "-" + Decimal(-n)
    else if n < 10 then [('0' as int + n) as char]
    else Decimal(n / 10) + [('0' as int + n % 10) as char]
  }

  function PullKey(host: string, repository: string, number: int): string {
    host + "/" + repository + "#" + Decimal(number)
  }

  function KeyOf(o: C.Observation): string {
    PullKey(o.host, o.repository, o.number)
  }

  /** strings.Cut: what is before the first c, and what is behind it. */
  function Before(s: string, c: char): string {
    if s == "" || s[0] == c then "" else [s[0]] + Before(s[1..], c)
  }

  function Behind(s: string, c: char): string {
    if s == "" then "" else if s[0] == c then s[1..] else Behind(s[1..], c)
  }

  /** observation: an entry as an observation of the pull request its key names. */
  function ObservationOf(key: string, e: Entry): C.Observation {
    C.Observation(Before(key, '/'), Before(Behind(key, '/'), '#'), e.number, e.url,
                  if e.kept.state == "" then OPEN else e.kept.state, e.kept.head, [], "", 0)
  }

  // Edges.

  function Fired(e: Entry, p: Point): seq<string> {
    if p in e.fired then e.fired[p] else []
  }

  function EdgeOf(p: Point, o: C.Observation, head: string): string {
    match p
    case AfterCI => head + " " + o.checks
    case CIFailed => head + " " + o.checks
    case AfterMerge => MERGED
    case _ => head
  }

  predicate Ready(reviews: map<string, C.Review>, who: string, head: string) {
    && who in reviews
    && var r := reviews[who];
       r.verdict == READY && !r.blocker && r.head != "" && head != "" && (HasPrefix(head, r.head) || HasPrefix(r.head, head))
  }

  /** Whether what is observed calls for a point, at an entry that took it. */
  predicate Due(e: Entry, o: C.Observation, p: Point) {
    match p
    case AfterPush => o.state == OPEN && e.kept.head != ""
    case AfterCI => o.state == OPEN && e.kept.head != "" && (o.checks == SUCCESS || o.checks == FAILURE)
    case CIFailed => o.state == OPEN && e.kept.head != "" && o.checks == FAILURE
    case GatesGreen =>
      && o.state == OPEN && e.kept.head != "" && o.checks == SUCCESS && LABEL_REVIEWING !in o.labels
      && Ready(e.reviews, LOCAL, e.kept.head) && Ready(e.reviews, EXTERNAL, e.kept.head)
    case AfterMerge => o.state == MERGED
    case BeforeSubmit => false
  }

  /** A point fires when it is due, its edge has not fired and no run of it is
      in flight. */
  predicate Fires(e: Entry, o: C.Observation, inflight: set<(string, Point)>, key: string, p: Point) {
    Due(e, o, p) && EdgeOf(p, o, e.kept.head) !in Fired(e, p) && (key, p) !in inflight
  }

  const ORDER := [AfterPush, AfterCI, CIFailed, GatesGreen, AfterMerge]

  function ToFire(e: Entry, o: C.Observation, inflight: set<(string, Point)>, key: string, n: nat): (out: seq<Point>)
    requires n <= 5
    ensures forall p :: p in out <==> p in ORDER[..n] && Fires(e, o, inflight, key, p)
  {
    if n == 0 then []
    else
      assert ORDER[..n] == ORDER[..n - 1] + [ORDER[n - 1]];
      ToFire(e, o, inflight, key, n - 1) + if Fires(e, o, inflight, key, ORDER[n - 1]) then [ORDER[n - 1]] else []
  }

  /** The entry after an observation: the change's state, and what edges takes. */
  function Took(e: Entry, o: C.Observation, f: C.Facts, now: nat): Entry {
    e.(kept := C.Step(e.kept, o, f),
       previous := if o.head != "" && o.head != e.kept.head then e.kept.head else e.previous,
       base := if f.base != "" then f.base else e.base,
       reviews := if f.reviews.Some? then f.reviews.value else e.reviews,
       number := o.number, url := o.url, seen := now)
  }

  function NewEntry(attempt: string, number: int, url: string): Entry {
    Entry(attempt, number, url, "", "", map[], map[], map[], None, [], None, 0, C.NEW_PULL)
  }

  /** The entry an observation for an attempt finds: another attempt's is reset. */
  function EntryFor(file: map<string, Entry>, key: string, attempt: string): Entry {
    if key in file && file[key].attempt == attempt then file[key] else NewEntry(attempt, 0, "")
  }

  // The file.

  predicate Pending(e: Entry) {
    e.kept.state == MERGED && MERGED !in Fired(e, AfterMerge)
  }

  predicate Watches(watched: seq<Pull>, key: string) {
    exists w :: w in watched && PullKey(w.host, w.repository, w.number) == key
  }

  predicate Stays(watched: seq<Pull>, keep: string, key: string, e: Entry) {
    key == keep || Watches(watched, key) || Pending(e)
  }

  /** What writePoints writes: the watched pull requests, the one it is for, and
      the merged ones that after-merge is owed to. */
  function Written(file: map<string, Entry>, watched: seq<Pull>, keep: string): map<string, Entry> {
    map k | k in file && Stays(watched, keep, k, file[k]) :: file[k]
  }

  function Removed(watched: seq<Pull>, p: Pull): seq<Pull> {
    if watched == [] then [] else if watched[0] == p then Removed(watched[1..], p) else [watched[0]] + Removed(watched[1..], p)
  }

  /** The watch list after setWatched. */
  function Listed(watched: seq<Pull>, p: Pull, on: bool): seq<Pull> {
    var less := Removed(watched, p);
    if !on then less
    else
      var more := less + [p];
      if |more| > MAX_WATCHED then more[|more| - MAX_WATCHED..] else more
  }

  /** The entry after a run that was recorded. */
  function RanEntry(e: Entry, job: Job, r: Ending): Entry
    requires r.Ran?
  {
    var edge := EdgeOf(job.point, job.o, job.snapshot.kept.head);
    var had := Fired(e, job.point);
    var recorded := e.(fired := e.fired[job.point := if edge in had then had else had + [edge]]);
    if job.point != AfterPush then recorded
    else recorded.(identity := r.identity,
                   prePush := if r.failed.None? then None else Some(PrePush(job.snapshot.kept.head, r.failed.value)))
  }

  function Without(s: seq<string>, x: string): seq<string> {
    if s == [] then [] else if s[0] == x then s[1..] else [s[0]] + Without(s[1..], x)
  }

  function Amended(e: Entry, a: Amendment): Entry {
    match a
    case SetUpdate(record) => e.(update := record)
    case Claim(head) => if head in e.reruns then e else e.(reruns := e.reruns + [head])
    case Release(head) => e.(reruns := Without(e.reruns, head))
  }

  /** Whether an amendment writes at all: clearing a record, or giving back a
      head, that an absent entry does not hold does not. */
  predicate Amends(file: map<string, Entry>, key: string, a: Amendment) {
    match a
    case SetUpdate(record) => record.Some? || key in file
    case Claim(head) => key !in file || head !in file[key].reruns
    case Release(head) => key in file && head in file[key].reruns
  }

  // Steps.

  function JobsOf(key: string, e: Entry, o: C.Observation, points: seq<Point>): (jobs: seq<Job>)
    ensures |jobs| == |points|
    ensures forall i :: 0 <= i < |points| ==> jobs[i] == Job(key, points[i], e, o)
  {
    seq(|points|, i requires 0 <= i < |points| => Job(key, points[i], e, o))
  }

  /** The jobs an event starts. */
  function Started(w: World, ev: Event): seq<Job> {
    match ev
    case Notice(o, attempt, f, now, _) =>
      var key := KeyOf(o);
      var e := Took(EntryFor(w.file, key, attempt), o, f, now);
      JobsOf(key, e, o, ToFire(e, o, w.inflight, key, 5))
    case Submit(_, key) =>
      if key in w.file && Submits(w, key) then [Job(key, BeforeSubmit, w.file[key], ObservationOf(key, w.file[key]).(state := OPEN))] else []
    case _ => []
  }

  predicate Submits(w: World, key: string)
    requires key in w.file
  {
    var e := w.file[key];
    e.kept.head != "" && e.kept.head !in Fired(e, BeforeSubmit) && (key, BeforeSubmit) !in w.inflight
  }

  /** The newest observed pull request of an attempt. */
  predicate Newest(file: map<string, Entry>, attempt: string, key: string) {
    && key in file && file[key].attempt == attempt
    && forall k :: k in file && file[k].attempt == attempt ==> file[k].seen <= file[key].seen
  }

  predicate Allowed(w: World, ev: Event) {
    match ev
    case Complete(job, _) => job < |w.jobs|
    case Submit(attempt, key) => Newest(w.file, attempt, key)
    case _ => true
  }

  /** The entry a completed run, or an amendment, changes. */
  function EntryOr(file: map<string, Entry>, key: string, other: Entry): Entry {
    if key in file then file[key] else other
  }

  function FileAfter(w: World, ev: Event): map<string, Entry>
    requires Allowed(w, ev)
  {
    match ev
    case Notice(o, attempt, f, now, true) =>
      var key := KeyOf(o);
      Written(w.file[key := Took(EntryFor(w.file, key, attempt), o, f, now)], w.watched, key)
    case Complete(i, Ran(failed, identity, true)) =>
      var job := w.jobs[i];
      Written(w.file[job.key := RanEntry(EntryOr(w.file, job.key, job.snapshot), job, ev.result)], w.watched, job.key)
    case Amend(key, attempt, number, url, a, true) =>
      if Amends(w.file, key, a)
      then Written(w.file[key := Amended(EntryOr(w.file, key, NewEntry(attempt, number, url)), a)], w.watched, key)
      else w.file
    case _ => w.file
  }

  function After(w: World, ev: Event): World
    requires Allowed(w, ev)
  {
    var file := FileAfter(w, ev);
    match ev
    case Complete(i, _) =>
      World(file, w.watched, w.inflight - {(w.jobs[i].key, w.jobs[i].point)}, w.jobs[..i] + w.jobs[i + 1..])
    case Watch(p, on, written) => w.(watched := if written then Listed(w.watched, p, on) else w.watched)
    case Restart => World(file, w.watched, {}, [])
    case _ =>
      var jobs := Started(w, ev);
      World(file, w.watched, w.inflight + (set j | j in jobs :: (j.key, j.point)), w.jobs + jobs)
  }

  /** aicrewd's answer to an observation. */
  datatype Reply = NoAttempt | NotTaken | Taken(attempt: string)

  /** An observation's two steps: the watch list, then the points file. */
  function Observed(w: World, o: C.Observation, reply: Reply, f: C.Facts, now: nat, listed: bool, written: bool): World {
    var p := Pull(o.host, o.repository, o.number);
    if o.number < 1 || o.host == "" || o.repository == "" || reply.NotTaken? then w
    else if reply.NoAttempt? then After(w, Watch(p, false, listed))
    else
      var next := After(w, Watch(p, o.state == OPEN, listed));
      if reply.attempt == "" then next else After(next, Notice(o, reply.attempt, f, now, written))
  }

  // Runs.

  ghost predicate IsRun(ws: seq<World>, es: seq<Event>) {
    && |ws| == |es| + 1
    && forall i {:trigger es[i]} :: 0 <= i < |es| ==> Allowed(ws[i], es[i]) && ws[i + 1] == After(ws[i], es[i])
  }

  lemma Alone(w: World) returns (ws: seq<World>, es: seq<Event>)
    ensures IsRun(ws, es) && ws == [w] && es == []
  {
    ws, es := [w], [];
  }

  lemma Extend(ws: seq<World>, es: seq<Event>, ev: Event, w: World) returns (vs: seq<World>, fs: seq<Event>)
    requires IsRun(ws, es) && |ws| == |es| + 1 && Allowed(ws[|es|], ev) && w == After(ws[|es|], ev)
    ensures IsRun(vs, fs) && vs == ws + [w] && fs == es + [ev]
  {
    hide After, Allowed;
    vs, fs := ws + [w], es + [ev];
    forall i {:trigger fs[i]} | 0 <= i < |fs| ensures Allowed(vs[i], fs[i]) && vs[i + 1] == After(vs[i], fs[i]) {
      if i < |es| {
        assert fs[i] == es[i];
      }
    }
  }

  /** The entry's key is the one its observation names. */
  predicate Names(key: string, e: Entry) {
    KeyOf(ObservationOf(key, e)) == key
  }

  /** A merged pull request noticed from what is kept of it: its after-merge run
      is in flight, nothing is reported as a change, and what after-merge is owed
      to others stays. */
  lemma Noticed(w: World, ev: Event, key: string)
    requires key in w.file && Pending(w.file[key])
    requires ev.Notice? && ev.f.replay && ev.attempt == w.file[key].attempt
    requires KeyOf(ev.o) == key && ev.o.state == MERGED
    ensures var next := After(w, ev);
            && (key, AfterMerge) in next.inflight && w.inflight <= next.inflight
            && (forall k :: k in w.file && Pending(w.file[k]) ==>
                  k in next.file && Pending(next.file[k]) && next.file[k].attempt == w.file[k].attempt)
            && C.Reported(w.file[key].kept, ev.o, ev.f).None?
  {
    var e := Took(EntryFor(w.file, key, ev.attempt), ev.o, ev.f, ev.now);
    assert e.kept.state == MERGED && Pending(e);
    var points := ToFire(e, ev.o, w.inflight, key, 5);
    assert AfterMerge in ORDER[..5] by { assert ORDER[..5][4] == AfterMerge; }
    if (key, AfterMerge) !in w.inflight {
      assert Fires(e, ev.o, w.inflight, key, AfterMerge);
      var i :| 0 <= i < |points| && points[i] == AfterMerge;
      assert Started(w, ev)[i].point == AfterMerge;
    }
  }

  /** The launcher's points, as its calls change them. */
  class StepServer {
    var file: map<string, Entry>
    var watched: seq<Pull>
    var inflight: set<(string, Point)>
    var jobs: seq<Job>

    function State(): World
      reads this
    {
      World(file, watched, inflight, jobs)
    }

    /** writePoints: the document without the pull requests no longer watched. */
    method WritePoints(doc: map<string, Entry>, keep: string, written: bool)
      modifies `file
      ensures file == if written then Written(doc, watched, keep) else old(file)
    {
      var d, left := doc, doc.Keys;
      while left != {}
        invariant left <= doc.Keys
        invariant forall k :: k in d <==> k in doc && (k in left || Stays(watched, keep, k, doc[k]))
        invariant forall k :: k in d ==> d[k] == doc[k]
        decreases |left|
      {
        var k :| k in left;
        left := left - {k};
        if !(k == keep || Watches(watched, k)) && !Pending(doc[k]) {
          d := map j | j in d && j != k :: d[j];
        }
      }
      if written {
        file := d;
        assert d == Written(doc, watched, keep);
      }
    }

    /** edges: the entry takes the observation, and the points that fire for it. */
    method Edges(had: Entry, o: C.Observation, f: C.Facts, now: nat, key: string) returns (e: Entry, out: seq<Point>)
      ensures e == Took(had, o, f, now) && out == ToFire(e, o, inflight, key, 5)
    {
      e := had.(kept := C.Step(had.kept, o, f));
      if o.head != "" && o.head != had.kept.head {
        e := e.(previous := had.kept.head);
      }
      if f.base != "" {
        e := e.(base := f.base);
      }
      if f.reviews.Some? {
        e := e.(reviews := f.reviews.value);
      }
      e := e.(number := o.number, url := o.url, seen := now);
      out := [];
      for i := 0 to |ORDER|
        invariant out == ToFire(e, o, inflight, key, i)
      {
        var p := ORDER[i];
        if Due(e, o, p) && EdgeOf(p, o, e.kept.head) !in Fired(e, p) && (key, p) !in inflight {
          out := out + [p];
        }
      }
    }

    /** noticePull. */
    method NoticePull(o: C.Observation, attempt: string, f: C.Facts, now: nat, written: bool)
      modifies this
      ensures State() == After(old(State()), Notice(o, attempt, f, now, written))
    {
      ghost var before := State();
      var key := KeyOf(o);
      var had := if key in file && file[key].attempt == attempt then file[key] else NewEntry(attempt, 0, "");
      var e, points := Edges(had, o, f, now, key);
      WritePoints(file[key := e], key, written);
      var more := JobsOf(key, e, o, points);
      assert more == Started(before, Notice(o, attempt, f, now, written));
      inflight := inflight + set j | j in more :: (j.key, j.point);
      jobs := jobs + more;
    }

    /** firePoint, from the end of its run on. */
    method FinishPoint(i: nat, r: Ending)
      requires i < |jobs|
      modifies this
      ensures State() == After(old(State()), Complete(i, r))
    {
      var job := jobs[i];
      jobs := jobs[..i] + jobs[i + 1..];
      inflight := inflight - {(job.key, job.point)};
      if r.Cut? || r.Unprepared? {
        return;
      }
      var edge := EdgeOf(job.point, job.o, job.snapshot.kept.head);
      var cur := if job.key in file then file[job.key] else job.snapshot;
      if edge !in Fired(cur, job.point) {
        cur := cur.(fired := cur.fired[job.point := Fired(cur, job.point) + [edge]]);
      } else {
        assert cur.fired[job.point := Fired(cur, job.point)] == cur.fired;
      }
      if job.point == AfterPush {
        cur := cur.(identity := r.identity, prePush := None);
        if r.failed.Some? {
          cur := cur.(prePush := Some(PrePush(job.snapshot.kept.head, r.failed.value)));
        }
      }
      WritePoints(file[job.key := cur], job.key, r.written);
    }

    /** The entry of an attempt observed last. */
    method NewestOf(attempt: string) returns (key: Option<string>)
      ensures key.None? ==> forall k :: k in file ==> file[k].attempt != attempt
      ensures key.Some? ==> Newest(file, attempt, key.value)
    {
      key := None;
      var left := file.Keys;
      while left != {}
        invariant left <= file.Keys
        invariant key.None? ==> forall k :: k in file && file[k].attempt == attempt ==> k in left
        invariant key.Some? ==> key.value in file && file[key.value].attempt == attempt
        invariant key.Some? ==> forall k :: k in file && k !in left && file[k].attempt == attempt ==> file[k].seen <= file[key.value].seen
        decreases |left|
      {
        var k :| k in left;
        left := left - {k};
        if file[k].attempt == attempt && (key.None? || file[k].seen > file[key.value].seen) {
          key := Some(k);
        }
      }
    }

    /** fireBeforeSubmit: the point of the attempt's newest pull request. */
    method FireBeforeSubmit(attempt: string) returns (key: Option<string>)
      modifies `jobs, `inflight
      ensures key.None? ==> State() == old(State()) && forall k :: k in file ==> file[k].attempt != attempt
      ensures key.Some? ==> Newest(file, attempt, key.value) && State() == After(old(State()), Submit(attempt, key.value))
    {
      key := NewestOf(attempt);
      if key.None? {
        return;
      }
      var k, e := key.value, file[key.value];
      if e.kept.head == "" || e.kept.head in Fired(e, BeforeSubmit) || (k, BeforeSubmit) in inflight {
        return;
      }
      var job := Job(k, BeforeSubmit, e, ObservationOf(k, e).(state := OPEN));
      assert Started(old(State()), Submit(attempt, k)) == [job];
      inflight := inflight + {(k, BeforeSubmit)};
      jobs := jobs + [job];
    }

    /** replayPoints: every pull request that after-merge is owed to is noticed
        again from what the file holds, and its run is then in flight. */
    method ReplayPoints(now: nat) returns (ghost ws: seq<World>, ghost es: seq<Event>)
      requires forall k :: k in file ==> Names(k, file[k])
      modifies this
      ensures IsRun(ws, es) && ws[0] == old(State()) && ws[|es|] == State()
      ensures forall i :: 0 <= i < |es| ==> es[i].Notice? && es[i].f.replay
      ensures forall k :: k in old(file) && Pending(old(file)[k]) ==> (k, AfterMerge) in inflight
    {
      hide IsRun, After, Names, Pending;
      var doc, left := file, file.Keys;
      ws, es := Alone(State());
      while left != {}
        invariant left <= doc.Keys
        invariant IsRun(ws, es) && |ws| == |es| + 1 && ws[0] == old(State()) && ws[|es|] == State()
        invariant forall i :: 0 <= i < |es| ==> es[i].Notice? && es[i].f.replay
        invariant forall k :: k in left && Pending(doc[k]) ==> k in file && Pending(file[k]) && file[k].attempt == doc[k].attempt
        invariant forall k :: k in doc && k !in left && Pending(doc[k]) ==> (k, AfterMerge) in inflight
        decreases |left|
      {
        var key :| key in left;
        left := left - {key};
        if Pending(doc[key]) {
          ghost var ev := ReplayOne(key, doc[key], now);
          ws, es := Extend(ws, es, ev, State());
        }
      }
    }

    method ReplayOne(key: string, e: Entry, now: nat) returns (ghost ev: Event)
      requires Names(key, e) && Pending(e) && key in file && Pending(file[key]) && file[key].attempt == e.attempt
      modifies this
      ensures ev.Notice? && ev.f.replay && Allowed(old(State()), ev) && State() == After(old(State()), ev)
      ensures (key, AfterMerge) in inflight && old(inflight) <= inflight
      ensures forall k :: k in old(file) && Pending(old(file)[k]) ==>
                k in file && Pending(file[k]) && file[k].attempt == old(file)[k].attempt
    {
      hide After;
      var written: bool := *;
      var o, f := ObservationOf(key, e), C.Facts("", None, None, None, true);
      NoticePull(o, e.attempt, f, now, written);
      ev := Notice(o, e.attempt, f, now, written);
      Noticed(old(State()), ev, key);
    }

    /** setWatched: the list without p, then p last, the oldest going first. */
    method SetWatched(p: Pull, on: bool, written: bool)
      modifies `watched
      ensures State() == After(old(State()), Watch(p, on, written))
    {
      var cur: seq<Pull> := [];
      for i := 0 to |watched|
        invariant cur + Removed(watched[i..], p) == Removed(watched, p)
      {
        assert watched[i..][0] == watched[i] && watched[i..][1..] == watched[i + 1..];
        if watched[i] != p {
          cur := cur + [watched[i]];
        }
      }
      assert cur == Removed(watched, p);
      if on {
        cur := cur + [p];
        if |cur| > MAX_WATCHED {
          cur := cur[|cur| - MAX_WATCHED..];
        }
      }
      if written {
        watched := cur;
      }
    }

    /** observePull, from aicrewd's answer on. The watch list is written first. */
    method ObservePull(o: C.Observation, reply: Reply, f: C.Facts, now: nat, listed: bool, written: bool)
      modifies this
      ensures State() == Observed(old(State()), o, reply, f, now, listed, written)
    {
      hide After;
      if o.number < 1 || o.host == "" || o.repository == "" {
        return;
      }
      var p := Pull(o.host, o.repository, o.number);
      match reply {
        case NoAttempt => SetWatched(p, false, listed);
        case NotTaken =>
        case Taken(attempt) =>
          SetWatched(p, o.state == OPEN, listed);
          if attempt != "" {
            NoticePull(o, attempt, f, now, written);
          }
      }
    }

    /** writeBaseUpdate and hostRerun's mark. */
    method AmendEntry(key: string, attempt: string, number: int, url: string, a: Amendment, written: bool) returns (changed: bool)
      modifies `file
      ensures State() == After(old(State()), Amend(key, attempt, number, url, a, written))
      ensures changed <==> Amends(old(file), key, a)
    {
      changed := Amends(file, key, a);
      if !changed {
        return;
      }
      var cur := if key in file then file[key] else NewEntry(attempt, number, url);
      match a {
        case SetUpdate(record) => cur := cur.(update := record);
        case Claim(head) => cur := cur.(reruns := cur.reruns + [head]);
        case Release(head) => cur := cur.(reruns := Without(cur.reruns, head));
      }
      WritePoints(file[key := cur], key, written);
    }
  }
}
