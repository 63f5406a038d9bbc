/** update_base (internal/agent/automation.go:933-1101): a merge, a push and a note
    with a record written ahead, against an origin and a forge that others use
    too. */
module BaseUpdate {
  import opened Common

  /** A commit with its history. */
  datatype Commit = Commit(id: string, parents: seq<Commit>)

  predicate Ancestor(a: Commit, b: Commit) {
    a == b || exists i :: 0 <= i < |b.parents| && Ancestor(a, b.parents[i])
  }

  /** A path of commits, each a parent of the next. */
  ghost predicate Path(cs: seq<Commit>) {
    cs != [] && forall i :: 0 <= i < |cs| - 1 ==> cs[i] in cs[i + 1].parents
  }

  lemma PathOn(cs: seq<Commit>, b: Commit)
    requires Path(cs) && cs[|cs| - 1] in b.parents
    ensures Path(cs + [b])
  {
  }

  /** An ancestor is what a path of parents leads to, the commit itself included. */
  lemma {:induction false} AncestorIsPath(a: Commit, b: Commit)
    ensures Ancestor(a, b) <==> exists cs :: Path(cs) && cs[0] == a && cs[|cs| - 1] == b
    decreases b
  {
    if Ancestor(a, b) {
      if a == b {
        assert Path([a]);
      } else {
        var i :| 0 <= i < |b.parents| && Ancestor(a, b.parents[i]);
        AncestorIsPath(a, b.parents[i]);
        var cs :| Path(cs) && cs[0] == a && cs[|cs| - 1] == b.parents[i];
        PathOn(cs, b);
        assert (cs + [b])[0] == a && (cs + [b])[|cs|] == b;
      }
    }
    if cs :| Path(cs) && cs[0] == a && cs[|cs| - 1] == b {
      if |cs| > 1 {
        var less := cs[..|cs| - 1];
        var i :| 0 <= i < |b.parents| && b.parents[i] == less[|less| - 1];
        assert Path(less);
        AncestorIsPath(a, b.parents[i]);
      }
    }
  }

  /** A base update in progress, as the points file records it. */
  datatype Update = Update(oldHead: Commit, newHead: Commit, identity: string, pushed: bool, commented: bool)

  /** Where the one call in progress is: its memory, gone when it stops. */
  datatype Call =
    | Idle
    | Fetched(head: Commit, onto: Commit)
    | Ready(head: Commit, onto: Commit)
    | Recorded(u: Update, onto: Commit)
    | Pushed(u: Update)
    | Noted(u: Update)

  /** The recorded update, the origin's branch and base, the patch identities of
      heads against bases, the notes on the pull request, the updates pushed, and
      the call. */
  datatype World = World(record: Option<Update>, origin: Commit, base: Commit, ids: map<(Commit, Commit), string>,
                         notes: seq<(Commit, Commit)>, pushes: seq<Update>, call: Call)

  /** A step of the call, or of someone else: another push to the branch, a new
      commit on the base, the entry that holds the record dropped. */
  datatype Event =
    | Fetch
    | SeeNone
    | Resume
    | ClearStale(written: bool)
    | Record(u: Update, written: bool)
    | Push(applied: bool, replied: bool)
    | Rewrite(written: bool)
    | Comment(posted: bool, replied: bool)
    | Skip
    | Clear(written: bool)
    | Stop
    | OtherPush(head: Commit)
    | BaseMoves(head: Commit)
    | Dropped

  function Identity(w: World, onto: Commit, head: Commit): string {
    if (onto, head) in w.ids then w.ids[(onto, head)] else ""
  }

  /** What is recorded before a push: a head that has the old head and the base in
      its history, with the identity both heads have. */
  predicate BaseOnly(w: World, head: Commit, onto: Commit, u: Update) {
    && u.oldHead == head && Ancestor(head, u.newHead) && Ancestor(onto, u.newHead)
    && u.identity != "" && Identity(w, onto, head) == u.identity == Identity(w, onto, u.newHead)
    && !u.pushed && !u.commented
  }

  predicate Allowed(w: World, ev: Event) {
    match ev
    case Fetch => w.call.Idle?
    case SeeNone => w.call.Fetched? && w.record.None?
    case Resume => w.call.Fetched? && w.record.Some? && w.record.value.newHead == w.call.head
    case ClearStale(_) => w.call.Fetched? && w.record.Some? && w.record.value.newHead != w.call.head
    case Record(u, _) => w.call.Ready? && !Ancestor(w.call.onto, w.call.head) && BaseOnly(w, w.call.head, w.call.onto, u)
    case Push(applied, replied) => w.call.Recorded? && (applied ==> Ancestor(w.origin, w.call.u.newHead)) && (replied ==> applied)
    case Rewrite(_) => w.call.Pushed? || w.call.Noted?
    case Comment(posted, replied) => w.call.Pushed? && !w.call.u.commented && (replied ==> posted)
    case Skip => w.call.Pushed? && w.call.u.commented
    case Clear(_) => w.call.Noted?
    case _ => true
  }

  function After(w: World, ev: Event): World
    requires Allowed(w, ev)
  {
    match ev
    case Fetch => w.(call := Fetched(w.origin, w.base))
    case SeeNone => w.(call := Ready(w.call.head, w.call.onto))
    case Resume => w.(call := Pushed(w.record.value))
    case ClearStale(written) => if written then w.(record := None, call := Ready(w.call.head, w.call.onto)) else w.(call := Idle)
    case Record(u, written) => if written then w.(record := Some(u), call := Recorded(u, w.call.onto)) else w.(call := Idle)
    case Push(applied, replied) =>
      var pushed := if applied then w.(origin := w.call.u.newHead, pushes := w.pushes + [w.call.u]) else w;
      pushed.(call := if replied then Pushed(w.call.u.(pushed := true)) else Idle)
    case Rewrite(written) => if written then w.(record := Some(w.call.u)) else w
    case Comment(posted, replied) =>
      w.(notes := if posted then w.notes + [(w.call.u.oldHead, w.call.u.newHead)] else w.notes,
         call := if replied then Noted(w.call.u.(commented := true)) else Idle)
    case Skip => w.(call := Noted(w.call.u))
    case Clear(written) => w.(record := if written then None else w.record, call := Idle)
    case Stop => w.(call := Idle)
    case OtherPush(head) => w.(origin := head)
    case BaseMoves(head) => w.(base := head)
    case Dropped => w.(record := None)
  }

  ghost predicate IsRun(ws: seq<World>, es: seq<Event>) {
    && |ws| == |es| + 1
    && forall i {:trigger es[i]} :: 0 <= i < |es| ==> Allowed(ws[i], es[i]) && ws[i + 1] == After(ws[i], es[i])
  }

  predicate HasNote(w: World, u: Update) {
    (u.oldHead, u.newHead) in w.notes
  }

  /** No call, no record, nothing pushed yet. */
  predicate Fresh(w: World) {
    w.record.None? && w.notes == [] && w.pushes == [] && w.call.Idle?
  }

  /** What every run keeps: an update marked as noted has its note, and the call
      finishes the recorded update, never another. */
  predicate Inv(w: World) {
    && (w.record.Some? && w.record.value.commented ==> HasNote(w, w.record.value))
    && (w.call.Pushed? || w.call.Noted? || w.call.Recorded? ==> (w.call.u.commented ==> HasNote(w, w.call.u)))
    && (w.call.Noted? ==> HasNote(w, w.call.u))
    && ((w.call.Pushed? || w.call.Noted? || w.call.Recorded?) && w.record.Some? ==> SameHeads(w.record.value, w.call.u))
    && (w.call.Ready? ==> w.record.None?)
    && (w.call.Recorded? ==> BaseOnly(w, w.call.u.oldHead, w.call.onto, w.call.u) && !Ancestor(w.call.onto, w.call.u.oldHead))
  }

  predicate SameHeads(a: Update, b: Update) {
    a.oldHead == b.oldHead && a.newHead == b.newHead
  }

  lemma InvKept(w: World, ev: Event)
    requires Allowed(w, ev) && Inv(w)
    ensures Inv(After(w, ev))
  {
  }

  lemma {:induction false} RunsKeepInv(ws: seq<World>, es: seq<Event>, n: nat)
    requires IsRun(ws, es) && Fresh(ws[0]) && n <= |es|
    ensures Inv(ws[n])
  {
    hide After, Allowed;
    if n > 0 {
      RunsKeepInv(ws, es, n - 1);
      assert Allowed(ws[n - 1], es[n - 1]) && ws[n] == After(ws[n - 1], es[n - 1]);
      InvKept(ws[n - 1], es[n - 1]);
    } else {
      FreshInv(ws[0]);
    }
  }

  lemma FreshInv(w: World)
    requires Fresh(w)
    ensures Inv(w)
  {
  }

  /** The record goes only after its note was posted, unless it is stale, the
      origin being at another head, or its entry was dropped. */
  lemma ClearedOnlyAfterNote(ws: seq<World>, es: seq<Event>, n: nat)
    requires IsRun(ws, es) && Fresh(ws[0]) && n < |es| && ws[n].record.Some? && ws[n + 1].record.None?
    ensures || es[n].Dropped?
            || (es[n].ClearStale? && ws[n].call.head != ws[n].record.value.newHead)
            || (es[n].Clear? && HasNote(ws[n], ws[n].record.value))
  {
    RunsKeepInv(ws, es, n);
    assert Allowed(ws[n], es[n]) && ws[n + 1] == After(ws[n], es[n]);
  }

  /** Every push, whoever moved the branch meanwhile: its head has the fetched head
      and the fetched base in its history, which the fetched head had not, and keeps
      that head's patch identity; the origin goes forward to it. */
  lemma PushFastForwards(ws: seq<World>, es: seq<Event>, n: nat)
    requires IsRun(ws, es) && Fresh(ws[0]) && n < |es| && es[n].Push? && es[n].applied
    ensures var u, onto := ws[n].call.u, ws[n].call.onto;
            && BaseOnly(ws[n], u.oldHead, onto, u) && !Ancestor(onto, u.oldHead)
            && ws[n + 1].origin == u.newHead && Ancestor(ws[n].origin, u.newHead) && ws[n + 1].pushes == ws[n].pushes + [u]
  {
    RunsKeepInv(ws, es, n);
    assert Allowed(ws[n], es[n]) && ws[n + 1] == After(ws[n], es[n]);
  }

  // While nobody else moves the branch.

  predicate Alone(ev: Event) {
    !ev.OtherPush? && !ev.Dropped?
  }

  /** What holds while nobody else moves the branch and the entry is kept. */
  predicate AloneInv(w: World) {
    && (w.call.Fetched? || w.call.Ready? ==> w.call.head == w.origin)
    && (w.call.Recorded? ==>
          w.record == Some(w.call.u) && w.call.u.newHead != w.origin && !Ancestor(w.call.onto, w.origin) && BaseOnly(w, w.origin, w.call.onto, w.call.u))
    && (w.call.Pushed? || w.call.Noted? ==> w.record.Some? && w.call.u.newHead == w.origin)
    && (forall u :: u in w.pushes ==> HasNote(w, u) || (w.record.Some? && SameHeads(w.record.value, u) && u.newHead == w.origin))
  }

  lemma AloneKept(w: World, ev: Event)
    requires Allowed(w, ev) && Inv(w) && AloneInv(w) && Alone(ev)
    ensures AloneInv(After(w, ev))
  {
    hide Ancestor;
    assert forall u :: HasNote(w, u) ==> HasNote(After(w, ev), u);
    if ev.Record? {
      NewHead(w, ev);
    }
  }

  lemma NewHead(w: World, ev: Event)
    requires Allowed(w, ev) && ev.Record?
    ensures ev.u.newHead != w.call.head
  {
  }

  lemma {:induction false} AloneRuns(ws: seq<World>, es: seq<Event>, n: nat)
    requires IsRun(ws, es) && Fresh(ws[0]) && n <= |es| && forall m :: 0 <= m < n ==> Alone(es[m])
    ensures Inv(ws[n]) && AloneInv(ws[n])
  {
    hide After, Allowed, Alone;
    if n > 0 {
      AloneRuns(ws, es, n - 1);
      assert Allowed(ws[n - 1], es[n - 1]) && ws[n] == After(ws[n - 1], es[n - 1]);
      InvKept(ws[n - 1], es[n - 1]);
      AloneKept(ws[n - 1], es[n - 1]);
    } else {
      FreshInv(ws[0]);
    }
  }

  /** Nothing pushed is forgotten: every update pushed has its note, or is the
      recorded one, whose new head the origin still has. */
  lemma PushedIsNotedOrOwed(ws: seq<World>, es: seq<Event>, n: nat, u: Update)
    requires IsRun(ws, es) && Fresh(ws[0]) && n <= |es| && (forall m :: 0 <= m < n ==> Alone(es[m])) && u in ws[n].pushes
    ensures HasNote(ws[n], u) || (ws[n].record.Some? && SameHeads(ws[n].record.value, u) && u.newHead == ws[n].origin)
  {
    AloneRuns(ws, es, n);
  }

  /** A push replaces the head that was fetched, and keeps its patch identity. */
  lemma PushKeepsIdentity(ws: seq<World>, es: seq<Event>, n: nat)
    requires IsRun(ws, es) && Fresh(ws[0]) && n < |es| && (forall m :: 0 <= m < n ==> Alone(es[m]))
    requires es[n].Push? && es[n].applied
    ensures Ancestor(ws[n].origin, ws[n + 1].origin) && ws[n + 1].origin != ws[n].origin
    ensures var onto := ws[n].call.onto;
            && Ancestor(onto, ws[n + 1].origin) && !Ancestor(onto, ws[n].origin)
            && Identity(ws[n], onto, ws[n].origin) == Identity(ws[n], onto, ws[n + 1].origin) != ""
  {
    AloneRuns(ws, es, n);
    assert Allowed(ws[n], es[n]) && ws[n + 1] == After(ws[n], es[n]);
  }

  // Once the push is through.

  /** The origin has the recorded new head, and no call is past its fetch with
      another update. */
  predicate Held(w: World, head: Commit) {
    && w.origin == head && w.record.Some? && w.record.value.newHead == head
    && match w.call
       case Idle => true
       case Fetched(h, _) => h == head
       case Pushed(u) => u.newHead == head
       case Noted(u) => u.newHead == head
       case _ => false
  }

  predicate Merges(ev: Event) {
    ev.Record? || ev.Push?
  }

  lemma HeldStep(w: World, ev: Event, head: Commit)
    requires Allowed(w, ev) && Held(w, head) && Alone(ev)
    ensures !Merges(ev) && (Held(After(w, ev), head) || (ev.Clear? && ev.written))
  {
  }

  /** While the record is kept no later call merges or pushes again, whatever the
      base does, whatever stops and however often it is called. */
  lemma {:induction false} NoSecondPush(ws: seq<World>, es: seq<Event>, i: nat, j: nat, head: Commit)
    requires IsRun(ws, es) && i <= j < |es| && Held(ws[i], head)
    requires forall m :: i <= m <= j ==> Alone(es[m])
    requires forall m :: i <= m < j ==> !(es[m].Clear? && es[m].written)
    ensures Held(ws[j], head) && !Merges(es[j])
    decreases j
  {
    hide After, Held, Alone, Merges;
    if i < j {
      NoSecondPush(ws, es, i, j - 1, head);
      assert Allowed(ws[j - 1], es[j - 1]) && ws[j] == After(ws[j - 1], es[j - 1]);
      HeldStep(ws[j - 1], es[j - 1], head);
    }
    assert Allowed(ws[j], es[j]);
    HeldStep(ws[j], es[j], head);
  }

  /** The origin has the base, and no call is about to push another update. */
  predicate UpToDate(w: World, head: Commit) {
    && w.origin == head && Ancestor(w.base, head) && (w.record.Some? ==> w.record.value.newHead == head)
    && match w.call
       case Idle => true
       case Fetched(h, onto) => h == head && onto == w.base
       case Ready(h, onto) => h == head && onto == w.base
       case Pushed(u) => u.newHead == head
       case Noted(u) => u.newHead == head
       case Recorded(_, _) => false
  }

  lemma UpToDateStep(w: World, ev: Event, head: Commit)
    requires Allowed(w, ev) && UpToDate(w, head) && !ev.OtherPush? && !ev.BaseMoves?
    ensures !Merges(ev) && UpToDate(After(w, ev), head)
  {
  }

  /** Once the origin has the new head and the base has not moved on, no later call
      merges or pushes again, the record cleared or lost or not. */
  lemma {:induction false} NoPushUntilBaseMoves(ws: seq<World>, es: seq<Event>, i: nat, j: nat, head: Commit)
    requires IsRun(ws, es) && i <= j < |es| && UpToDate(ws[i], head)
    requires forall m :: i <= m <= j ==> !es[m].OtherPush? && !es[m].BaseMoves?
    ensures ws[j].origin == head && UpToDate(ws[j], head) && !Merges(es[j])
    decreases j
  {
    hide After, Ancestor, Merges;
    if i < j {
      NoPushUntilBaseMoves(ws, es, i, j - 1, head);
      assert Allowed(ws[j - 1], es[j - 1]) && ws[j] == After(ws[j - 1], es[j - 1]);
      UpToDateStep(ws[j - 1], es[j - 1], head);
    }
    assert Allowed(ws[j], es[j]);
    UpToDateStep(ws[j], es[j], head);
  }

  /** From the first call on, in a run nobody else disturbs: once a push has arrived,
      another merge or push comes only after its record was cleared, and only if the
      base has moved on since its fetch. */
  lemma PushedOnce(ws: seq<World>, es: seq<Event>, i: nat, j: nat)
    requires IsRun(ws, es) && Fresh(ws[0]) && i < j < |es| && forall m :: 0 <= m <= j ==> Alone(es[m])
    requires es[i].Push? && es[i].applied && Merges(es[j])
    ensures exists m :: i < m < j && es[m].Clear? && es[m].written
    ensures ws[i].base != ws[i].call.onto || exists m :: i < m < j && es[m].BaseMoves?
  {
    PushArrives(ws, es, i);
    hide After, Allowed, Held, UpToDate;
    if forall m :: i < m < j ==> !(es[m].Clear? && es[m].written) {
      NoSecondPush(ws, es, i + 1, j, ws[i].call.u.newHead);
    }
    if ws[i].base == ws[i].call.onto && forall m :: i < m < j ==> !es[m].BaseMoves? {
      NoPushUntilBaseMoves(ws, es, i + 1, j, ws[i].call.u.newHead);
    }
  }

  lemma PushArrives(ws: seq<World>, es: seq<Event>, i: nat)
    requires IsRun(ws, es) && Fresh(ws[0]) && i < |es| && (forall m :: 0 <= m < i ==> Alone(es[m])) && es[i].Push? && es[i].applied
    ensures Held(ws[i + 1], ws[i].call.u.newHead)
    ensures ws[i].base == ws[i].call.onto ==> UpToDate(ws[i + 1], ws[i].call.u.newHead)
  {
    AloneRuns(ws, es, i);
    assert Allowed(ws[i], es[i]) && ws[i + 1] == After(ws[i], es[i]);
  }

  // Notes.

  /** The points file says that the note was posted. */
  predicate NoteKnown(w: World, head: Commit) {
    && Held(w, head) && w.record.value.commented
    && (w.call.Pushed? || w.call.Noted? ==> w.call.u.commented)
  }

  lemma NoteKnownStep(w: World, ev: Event, head: Commit)
    requires Allowed(w, ev) && NoteKnown(w, head) && Alone(ev)
    ensures !ev.Comment? && (NoteKnown(After(w, ev), head) || (ev.Clear? && ev.written))
  {
  }

  /** A note that the record says was posted is not posted again. */
  lemma {:induction false} KnownNoteIsNotRepeated(ws: seq<World>, es: seq<Event>, i: nat, j: nat, head: Commit)
    requires IsRun(ws, es) && i <= j < |es| && NoteKnown(ws[i], head)
    requires forall m :: i <= m <= j ==> Alone(es[m])
    requires forall m :: i <= m < j ==> !(es[m].Clear? && es[m].written)
    ensures NoteKnown(ws[j], head) && !es[j].Comment?
    decreases j
  {
    hide After, NoteKnown, Alone;
    if i < j {
      KnownNoteIsNotRepeated(ws, es, i, j - 1, head);
      assert Allowed(ws[j - 1], es[j - 1]) && ws[j] == After(ws[j - 1], es[j - 1]);
      NoteKnownStep(ws[j - 1], es[j - 1], head);
    }
    assert Allowed(ws[j], es[j]);
    NoteKnownStep(ws[j], es[j], head);
  }

  /** One that was posted before the record could say so is: the note is posted at
      least once, not at most once. */
  lemma NoteMayBeRepeated(w: World)
    requires w.call.Idle? && w.record.Some? && w.origin == w.record.value.newHead && !w.record.value.commented
    ensures exists ws: seq<World>, es: seq<Event> ::
              && IsRun(ws, es) && ws[0] == w && |es| == 6 && (forall m :: 0 <= m < 6 ==> Alone(es[m]))
              && ws[6].notes == w.notes + [(w.record.value.oldHead, w.record.value.newHead), (w.record.value.oldHead, w.record.value.newHead)]
  {
    var es := [Fetch, Resume, Comment(true, false), Fetch, Resume, Comment(true, true)];
    var w1 := After(w, es[0]);
    var w2 := After(w1, es[1]);
    var w3 := After(w2, es[2]);
    var w4 := After(w3, es[3]);
    var w5 := After(w4, es[4]);
    var ws := [w, w1, w2, w3, w4, w5, After(w5, es[5])];
    assert IsRun(ws, es);
  }

  // What one call leaves, wherever it stops.

  ghost predicate DroppedIn(es: seq<Event>, i: nat, j: nat)
    requires j <= |es|
  {
    exists m :: i <= m < j && es[m].Dropped?
  }

  /** An update has its note or its record, or its entry was dropped. */
  predicate Covered(w: World, u: Update, gone: bool) {
    HasNote(w, u) || RecordIs(w, u) || gone
  }

  predicate RecordIs(w: World, u: Update) {
    w.record.Some? && SameHeads(w.record.value, u)
  }

  function LastPush(w: World): Update
    requires w.pushes != []
  {
    w.pushes[|w.pushes| - 1]
  }

  /** Since its fetch a call pushed nothing, or one update, which is covered; and
      what it is about to finish is what it pushed. */
  predicate InCall(from: World, w: World, gone: bool) {
    && (w.pushes == from.pushes || (w.pushes != [] && w.pushes == from.pushes + [LastPush(w)] && Covered(w, LastPush(w), gone)))
    && match w.call
       case Idle => true
       case Fetched(_, _) => w.pushes == from.pushes
       case Ready(_, _) => w.pushes == from.pushes
       case Recorded(u, _) => w.pushes == from.pushes && (RecordIs(w, u) || gone)
       case Pushed(u) => (RecordIs(w, u) || gone) && (w.pushes != from.pushes ==> SameHeads(LastPush(w), u))
       case Noted(u) => HasNote(w, u) && (RecordIs(w, u) || gone) && (w.pushes != from.pushes ==> SameHeads(LastPush(w), u))
  }

  lemma InCallStep(from: World, w: World, ev: Event, gone: bool)
    requires Allowed(w, ev) && Inv(w) && InCall(from, w, gone) && !ev.Fetch?
    ensures InCall(from, After(w, ev), gone || ev.Dropped?)
  {
    hide Ancestor, BaseOnly, Identity;
  }

  /** Whatever its outcome, and whoever else steps between, a call pushes at most one
      update; the update has its note or its record when the call ends, or its entry
      was dropped meanwhile. */
  lemma {:induction false} CallLeaves(ws: seq<World>, es: seq<Event>, i: nat, j: nat)
    requires IsRun(ws, es) && Fresh(ws[0]) && i <= j <= |es| && ws[i].call.Fetched? && forall m :: i <= m < j ==> !es[m].Fetch?
    ensures InCall(ws[i], ws[j], DroppedIn(es, i, j))
    decreases j
  {
    hide After, Allowed, InCall, Inv, Fresh;
    if i == j {
      InCallStarts(ws[i]);
    } else {
      CallLeaves(ws, es, i, j - 1);
      RunsKeepInv(ws, es, j - 1);
      assert Allowed(ws[j - 1], es[j - 1]) && ws[j] == After(ws[j - 1], es[j - 1]);
      InCallStep(ws[i], ws[j - 1], es[j - 1], DroppedIn(es, i, j - 1));
      assert DroppedIn(es, i, j) <==> DroppedIn(es, i, j - 1) || es[j - 1].Dropped?;
    }
  }

  lemma InCallStarts(w: World)
    requires w.call.Fetched?
    ensures InCall(w, w, false)
  {
  }

  // The calls.

  datatype Outcome =
    | Updated(oldHead: Commit, newHead: Commit, noted: bool)
    | NothingToMerge(head: Commit, onto: Commit)
    | IdentityChanged(head: Commit, newHead: Commit, onto: Commit)
    | Conflict
    | PushRefused
    | Failed(why: Why)
    | Died

  /** Why a call gave up: the origin was not read, an identity could not be computed, the
      merge is none, a write failed, or the step was not recorded. */
  datatype Why = Unread | NoIdentity(head: Commit, onto: Commit) | NoMerge(head: Commit, newHead: Commit, onto: Commit) | Unwritten | Unstepped

  predicate LostWrite(ev: Event) {
    (ev.Record? || ev.ClearStale? || ev.Clear?) && !ev.written
  }

  /** update_base(), as the launcher runs it between others' steps. */
  class Updater {
    var w: World
    ghost var worlds: seq<World>
    ghost var events: seq<Event>

    constructor (at: World)
      requires Fresh(at)
      ensures Valid() && w == at
    {
      w := at;
      worlds, events := [at], [];
    }

    ghost predicate Valid()
      reads this
    {
      IsRun(worlds, events) && worlds[|events|] == w && Fresh(worlds[0])
    }

    /** The run goes on from where it was. */
    twostate predicate Goes()
      reads this
    {
      Valid() && old(worlds) <= worlds && old(events) <= events
    }

    /** And no call began. */
    twostate predicate GoesOn()
      reads this
    {
      Goes() && forall m :: |old(events)| <= m < |events| ==> !events[m].Fetch?
    }

    /** An outcome says what was found: a head that merges both and changes the identity,
        or the reason it gave up; and a note that is not said to be posted was refused,
        or its reply was lost, or the call stopped. */
    ghost predicate Told(res: Outcome)
      reads this
    {
      match res
      case IdentityChanged(head, newHead, onto) =>
        Ancestor(head, newHead) && Ancestor(onto, newHead) && Identity(w, onto, newHead) != Identity(w, onto, head) && Identity(w, onto, head) != ""
      case Failed(NoIdentity(head, onto)) => Identity(w, onto, head) == ""
      case Failed(NoMerge(head, newHead, onto)) => !Ancestor(head, newHead) || !Ancestor(onto, newHead)
      case Failed(Unwritten) => events != [] && LostWrite(events[|events| - 1])
      case Updated(_, _, false) => events != [] && var last := events[|events| - 1]; last == Stop || (last.Comment? && !last.replied)
      case _ => true
    }

    method Happen(ev: Event)
      requires Valid() && Allowed(w, ev)
      modifies this
      ensures Goes() && w == After(old(w), ev) && events == old(events) + [ev]
      ensures |worlds| == |events| + 1 && worlds[|events| - 1] == old(w)
    {
      hide After, Allowed;
      ghost var ws, es := worlds + [After(w, ev)], events + [ev];
      forall i {:trigger es[i]} | 0 <= i < |es| ensures Allowed(ws[i], es[i]) && ws[i + 1] == After(ws[i], es[i]) {
        if i < |events| {
          assert es[i] == events[i];
        }
      }
      w := After(w, ev);
      worlds, events := ws, es;
    }

    /** Others' steps between two of the call's; and the launcher may stop. */
    method Meanwhile() returns (died: bool)
      requires Valid()
      modifies this
      ensures GoesOn() && w.ids == old(w).ids && w.notes == old(w).notes && w.pushes == old(w).pushes
      ensures if died then w.call.Idle? && events != [] && events[|events| - 1] == Stop else w.call == old(w).call
    {
      hide IsRun;
      var n: nat := *;
      while n > 0
        invariant GoesOn() && w.ids == old(w).ids && w.notes == old(w).notes && w.pushes == old(w).pushes && w.call == old(w).call
      {
        var what: nat, head: Commit := *, *;
        if what == 0 {
          Happen(OtherPush(head));
        } else if what == 1 {
          Happen(BaseMoves(head));
        } else {
          Happen(Dropped);
        }
        n := n - 1;
      }
      died := *;
      if died {
        Happen(Stop);
      }
    }

    /** hostUpdateBase. */
    method HostUpdateBase() returns (res: Outcome)
      requires Valid() && w.call.Idle?
      modifies this
      ensures Goes() && w.call.Idle?
      ensures res.Updated? && res.noted ==> (res.oldHead, res.newHead) in w.notes && w.record.None?
      ensures res.NothingToMerge? ==> Ancestor(res.onto, res.head)
      ensures res.NothingToMerge? || res.IdentityChanged? || res.Conflict? ==> w.pushes == old(w).pushes && w.notes == old(w).notes
      ensures w.pushes == old(w).pushes
              || (w.pushes != [] && w.pushes == old(w).pushes + [LastPush(w)] && Covered(w, LastPush(w), DroppedIn(events, |old(events)|, |events|)))
      ensures res.PushRefused? ==> RefusedLast()
      ensures res.Died? ==> events != [] && events[|events| - 1] == Stop
      ensures Told(res)
    {
      hide IsRun, Ancestor, Fresh;
      var readable: bool := *;
      if !readable {
        return Failed(Unread);
      }
      var died := Meanwhile();
      if died {
        return Died;
      }
      Happen(Fetch);
      ghost var from := |events|;
      assert |worlds| == from + 1 && worlds[from] == w;
      res := Fetched();
      CallLeaves(worlds, events, from, |events|);
      WiderDrop(events, |old(events)|, from);
    }

    /** The push was the call's last act, its reply lost or a refusal: the record is
        as it was, and the origin is at the new head when the push arrived. */
    ghost predicate RefusedLast()
      requires Valid()
      reads this
    {
      && events != [] && events[|events| - 1].Push? && !events[|events| - 1].replied
      && var before := worlds[|events| - 1];
         && before.call.Recorded? && w.record == before.record
         && w.origin == if events[|events| - 1].applied then before.call.u.newHead else before.origin
    }

    lemma WiderDrop(es: seq<Event>, i: nat, j: nat)
      requires i <= j <= |es|
      ensures DroppedIn(es, j, |es|) ==> DroppedIn(es, i, |es|)
    {
    }

    /** hostUpdateBase after its fetch: the update in progress is finished, or a stale
        record cleared and the merge made anew. */
    method Fetched() returns (res: Outcome)
      requires Valid() && w.call.Fetched?
      modifies this
      ensures GoesOn() && w.call.Idle?
      ensures res.Updated? && res.noted ==> (res.oldHead, res.newHead) in w.notes && w.record.None?
      ensures res.NothingToMerge? ==> Ancestor(res.onto, res.head)
      ensures res.NothingToMerge? || res.IdentityChanged? || res.Conflict? ==> w.pushes == old(w).pushes && w.notes == old(w).notes
      ensures res.PushRefused? ==> RefusedLast()
      ensures res.Died? ==> events != [] && events[|events| - 1] == Stop
      ensures Told(res)
    {
      hide IsRun, Ancestor, Fresh;
      var head, onto := w.call.head, w.call.onto;
      var died := Meanwhile();
      if died {
        return Died;
      }
      if w.record.Some? {
        if w.record.value.newHead == head {
          Happen(Resume);
          res := Finish();
          return;
        }
        var written: bool := *;
        Happen(ClearStale(written));
        if !written {
          return Failed(Unwritten);
        }
      } else {
        Happen(SeeNone);
      }
      if Ancestor(onto, head) {
        Happen(Stop);
        return NothingToMerge(head, onto);
      }
      res := MergeAndPush(head, onto);
    }

    /** The merge in a worktree of its own, the record, and the push. */
    method MergeAndPush(head: Commit, onto: Commit) returns (res: Outcome)
      requires Valid() && w.call == Ready(head, onto) && !Ancestor(onto, head)
      modifies this
      ensures GoesOn() && w.call.Idle? && !res.NothingToMerge?
      ensures res.IdentityChanged? || res.Conflict? ==> w.pushes == old(w).pushes && w.notes == old(w).notes
      ensures res.PushRefused? ==> RefusedLast()
      ensures res.Died? ==> events != [] && events[|events| - 1] == Stop
      ensures Told(res)
      ensures res.Updated? && res.noted ==> (res.oldHead, res.newHead) in w.notes && w.record.None?
    {
      hide IsRun, Ancestor, Fresh;
      var before := Identity(w, onto, head);
      var merges: bool, newHead: Commit := *, *;
      if before == "" || !merges {
        Happen(Stop);
        return if before == "" then Failed(NoIdentity(head, onto)) else Conflict;
      }
      if !Ancestor(head, newHead) || !Ancestor(onto, newHead) {
        Happen(Stop);
        return Failed(NoMerge(head, newHead, onto));
      }
      if Identity(w, onto, newHead) != before {
        Happen(Stop);
        return IdentityChanged(head, newHead, onto);
      }
      var died := Meanwhile();
      if died {
        return Died;
      }
      var written: bool := *;
      Happen(Record(Update(head, newHead, before, false, false), written));
      if !written {
        return Failed(Unwritten);
      }
      res := PushRecorded();
    }

    /** The push of the recorded head, without force: an origin that is not behind it
        refuses, and a reply may be lost. */
    method PushRecorded() returns (res: Outcome)
      requires Valid() && w.call.Recorded?
      modifies this
      ensures GoesOn() && w.call.Idle? && !res.NothingToMerge? && !res.IdentityChanged? && !res.Conflict?
      ensures res.PushRefused? ==> RefusedLast()
      ensures res.Died? ==> events != [] && events[|events| - 1] == Stop
      ensures Told(res)
      ensures res.Updated? && res.noted ==> (res.oldHead, res.newHead) in w.notes && w.record.None?
    {
      hide IsRun, Ancestor, Fresh;
      var died := Meanwhile();
      if died {
        return Died;
      }
      var reached, replied: bool := *, *;
      var applied := reached && Ancestor(w.origin, w.call.u.newHead);
      Happen(Push(applied, applied && replied));
      if !applied || !replied {
        return PushRefused;
      }
      res := AfterPush();
    }

    method AfterPush() returns (res: Outcome)
      requires Valid() && w.call.Pushed?
      modifies this
      ensures GoesOn() && w.call.Idle? && !res.NothingToMerge? && !res.IdentityChanged? && !res.Conflict? && !res.PushRefused?
      ensures w.pushes == old(w).pushes && (res.Died? ==> events != [] && events[|events| - 1] == Stop) && Told(res)
      ensures res.Updated? && res.noted ==> (res.oldHead, res.newHead) in w.notes && w.record.None?
    {
      hide IsRun, Ancestor, Fresh;
      var died := Meanwhile();
      if died {
        return Died;
      }
      var written: bool := *;
      Happen(Rewrite(written));
      res := Finish();
    }

    /** finishBaseUpdate: the note, the step recorded, and the record cleared. */
    method Finish() returns (res: Outcome)
      requires Valid() && w.call.Pushed?
      modifies this
      ensures GoesOn() && w.call.Idle? && !res.NothingToMerge? && !res.IdentityChanged? && !res.Conflict? && !res.PushRefused?
      ensures w.pushes == old(w).pushes && (res.Died? ==> events != [] && events[|events| - 1] == Stop) && Told(res)
      ensures res.Updated? && res.noted ==> (res.oldHead, res.newHead) in w.notes && w.record.None?
    {
      hide IsRun, Ancestor, Fresh, After, Allowed;
      var u := w.call.u;
      var died := Meanwhile();
      if died {
        return Died;
      }
      if !u.commented {
        var posted := PostNote();
        if !posted {
          return Updated(u.oldHead, u.newHead, false);
        }
      } else {
        SkipNote();
      }
      res := Conclude(u);
    }

    method SkipNote()
      requires Valid() && w.call.Pushed? && w.call.u.commented
      modifies this
      ensures GoesOn() && w.call.Noted? && SameHeads(w.call.u, old(w).call.u) && w.pushes == old(w).pushes
    {
      hide IsRun, Fresh;
      Happen(Skip);
    }

    /** The delta note; when it is posted, the record says so, if it can. */
    method PostNote() returns (posted: bool)
      requires Valid() && w.call.Pushed? && !w.call.u.commented
      modifies this
      ensures GoesOn() && w.pushes == old(w).pushes && if posted then w.call.Noted? && SameHeads(w.call.u, old(w).call.u) else w.call.Idle?
      ensures !posted ==> events != [] && var last := events[|events| - 1]; last == Stop || (last.Comment? && !last.replied)
    {
      hide IsRun, Fresh;
      var arrived, replied: bool := *, *;
      Happen(Comment(arrived, arrived && replied));
      posted := arrived && replied;
      if posted {
        var died := Meanwhile();
        if died {
          return false;
        }
        var written: bool := *;
        Happen(Rewrite(written));
      }
    }

    method Conclude(u: Update) returns (res: Outcome)
      requires Valid() && w.call.Noted? && SameHeads(w.call.u, u)
      modifies this
      ensures GoesOn() && w.call.Idle? && !res.NothingToMerge? && !res.IdentityChanged? && !res.Conflict? && !res.PushRefused?
      ensures w.pushes == old(w).pushes && (res.Died? ==> events != [] && events[|events| - 1] == Stop) && Told(res)
      ensures res.Updated? && res.noted ==> (res.oldHead, res.newHead) in w.notes && w.record.None?
    {
      hide IsRun, Fresh;
      var died := Meanwhile();
      if died {
        return Died;
      }
      NotedHasNote();
      var stepped, cleared: bool := *, *;
      if !stepped {
        Happen(Stop);
        return Failed(Unstepped);
      }
      Happen(Clear(cleared));
      return if cleared then Updated(u.oldHead, u.newHead, true) else Failed(Unwritten);
    }

    lemma NotedHasNote()
      requires Valid() && w.call.Noted?
      ensures HasNote(w, w.call.u)
    {
      RunsKeepInv(worlds, events, |events|);
    }
  }
}
