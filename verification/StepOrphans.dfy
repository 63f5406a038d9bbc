/** When a step is orphaned by a recovery beside a Run of the same record
    (internal/agent/steps.go:307-418): exactly when the recovery read the record
    before aicrewd made the Run's step. */
module StepOrphans {
  import opened Common
  import opened StepContent
  import opened StepProtocol
  import opened StepTheorems
  import opened StepOverlap

  /** No recovery reads the record of a Run that still has it before aicrewd made
      its step. */
  predicate Timely(h: Home, m: Move) {
    m.Reads? && m.k !in h.w.crew ==> forall d :: d in h.copies && h.copies[d].isFirst ==> h.copies[d].k != m.k
  }

  /** Some step aicrewd holds is unsettled, and has no record. */
  predicate Orphaned(w: World, k: nat) {
    k in w.crew && !w.crew[k].settled && k !in w.disk
  }

  // In time, no step is orphaned.

  /** Each begin sent under k is on its way, refused, or made the one step; and
      unless the step is settled the record is there. */
  predicate KeyOk(w: World, k: nat) {
    && (k in w.disk || k in w.crew || w.sent[k] > 0 ==> k in w.drawn)
    && !Orphaned(w, k) && (w.loose[k] > 0 && k !in w.crew ==> k in w.disk)
    && w.loose[k] + w.declined[k] + (if k in w.crew then 1 else 0) <= w.sent[k]
  }

  /** A Run's copy: its begin is the only one until aicrewd made the step. */
  predicate FirstOk(w: World, alone: set<nat>, c: Copy) {
    if c.k in w.crew then !c.stage.Ready? && (c.stage.Waiting? ==> c.k in alone)
    else
      && c.k in w.disk && w.disk[c.k] == c.p && Unsent(c.p) && c.p.step.None?
      && match c.stage
         case Ready => w.sent[c.k] == 0
         case Waiting => w.sent[c.k] == 1
         case Declined => w.sent[c.k] == w.declined[c.k] == 1
         case _ => false
  }

  predicate CopyOk(w: World, alone: set<nat>, c: Copy) {
    && c.k in w.drawn && (c.k in w.disk || c.k in w.crew)
    && (c.stage.Declined? ==> c.isFirst && c.k !in w.crew)
    && (c.stage.Closing? ==> c.k in w.crew && w.crew[c.k].settled)
    && (c.isFirst ==> FirstOk(w, alone, c))
  }

  predicate PairOk(w: World, a: Copy, b: Copy) {
    a.isFirst && a.k == b.k ==> a.k in w.crew
  }

  ghost predicate Kept(h: Home) {
    && (forall k :: KeyOk(h.w, k))
    && (forall d :: d in h.copies ==> CopyOk(h.w, h.alone, h.copies[d]))
    && (forall d, e :: d in h.copies && e in h.copies && d != e ==> PairOk(h.w, h.copies[d], h.copies[e]))
  }

  /** What the moves do: a record is dropped, or a begin sent, with its key in
      order; the services do what they may. */
  predicate InOrder(w: World, e: Event) {
    match e
    case Drop(k) => if k in w.crew then w.crew[k].settled else w.loose[k] == 0
    case PostBegin(k) => k in w.drawn && (k in w.disk || k in w.crew)
    case CrewTakes(k, _, _) => w.loose[k] > 0 && k !in w.crew
    case CrewDeclines(k) => w.loose[k] > 0
    case _ => true
  }

  lemma MovesInOrder(h: Home, m: Move)
    requires Kept(h) && Can(h, m)
    ensures Effect(h, m).Some? ==> InOrder(h.w, Effect(h, m).value)
  {
    hide Faithful, ReadAt, AtRevision, PairOk;
    if m.Does? {
      assert CopyOk(h.w, h.alone, h.copies[m.d]) && KeyOk(h.w, h.copies[m.d].k);
    }
  }

  lemma KeyOn(w: World, e: Event, k: nat)
    requires KeyOk(w, k) && InOrder(w, e)
    ensures KeyOk(After(w, e), k)
  {
    hide AtRevision, Applied, Append;
  }

  function AloneAfter(w: World, e: Event, alone: set<nat>): set<nat> {
    if e.CrewTakes? && w.sent[e.k] == 1 then alone + {e.k} else alone
  }

  /** A copy stays in order while others have no hand in its record, or once
      aicrewd made its step; a recovery's unless it is dropped. */
  lemma CopyOn(w: World, e: Event, alone: set<nat>, c: Copy)
    requires KeyOk(w, c.k) && CopyOk(w, alone, c) && InOrder(w, e) && (About(e, c.k) ==> c.k in w.crew || (!c.isFirst && !e.Drop?))
    ensures CopyOk(After(w, e), AloneAfter(w, e, alone), c)
  {
    assert c.stage.Declined? ==> w.loose[c.k] == 0;
    hide AtRevision, Applied, Append, FirstOk;
    if c.isFirst {
      FirstOn(w, e, alone, c);
    }
  }

  lemma FirstOn(w: World, e: Event, alone: set<nat>, c: Copy)
    requires KeyOk(w, c.k) && FirstOk(w, alone, c) && InOrder(w, e) && (About(e, c.k) ==> c.k in w.crew)
    ensures FirstOk(After(w, e), AloneAfter(w, e, alone), c)
  {
    assert c.k !in w.crew ==> w.loose[c.k] + w.declined[c.k] <= w.sent[c.k];
    hide AtRevision, Applied, Append, KeyOk;
  }

  lemma KeyKept(h: Home, m: Move, k: nat)
    requires Kept(h) && Can(h, m)
    ensures KeyOk(Next(h, m).w, k)
  {
    hide InOrder, Can, Effect, After, KeyOk;
    MovesInOrder(h, m);
    assert KeyOk(h.w, k);
    if Effect(h, m).Some? {
      KeyOn(h.w, Effect(h, m).value, k);
    }
  }

  /** A drive's own act leaves its copy in order. */
  lemma ActKept(h: Home, m: Move)
    requires Kept(h) && Can(h, m) && m.Does? && m.d in Next(h, m).copies
    ensures CopyOk(Next(h, m).w, Next(h, m).alone, Next(h, m).copies[m.d])
  {
    hide Faithful, ReadAt, AtRevision, Applied, Append, Foreign, Sound;
    assert KeyOk(h.w, h.copies[m.d].k) && CopyOk(h.w, h.alone, h.copies[m.d]);
  }

  /** A new copy is in order. */
  lemma EntersKept(h: Home, m: Move)
    requires Kept(h) && Can(h, m) && (m.Opens? || m.Reads?)
    ensures CopyOk(Next(h, m).w, Next(h, m).alone, Next(h, m).copies[m.d])
  {
    assert KeyOk(h.w, m.k);
  }

  /** What another drive does to the record of a copy. */
  lemma NoHandIn(h: Home, m: Move, d: nat)
    requires Kept(h) && Can(h, m) && d in h.copies && !(m.Does? && m.d == d) && Effect(h, m).Some?
    ensures var e, c := Effect(h, m).value, h.copies[d];
            About(e, c.k) ==> c.k in h.w.crew || (!c.isFirst && !e.Drop?)
  {
    hide Faithful, ReadAt, KeyOk, Allowed;
    assert CopyOk(h.w, h.alone, h.copies[d]);
    if m.Does? {
      assert CopyOk(h.w, h.alone, h.copies[m.d]) && PairOk(h.w, h.copies[d], h.copies[m.d]) && PairOk(h.w, h.copies[m.d], h.copies[d]);
    }
  }

  /** Another copy. */
  lemma OtherKept(h: Home, m: Move, d: nat)
    requires Kept(h) && Can(h, m) && d in h.copies && !(m.Does? && m.d == d)
    ensures CopyOk(Next(h, m).w, Next(h, m).alone, h.copies[d])
  {
    hide InOrder, Can, After, KeyOk, CopyOk, About;
    MovesInOrder(h, m);
    if Effect(h, m).Some? {
      NoHandIn(h, m, d);
      CopyOn(h.w, Effect(h, m).value, h.alone, h.copies[d]);
    }
  }

  lemma PairKept(h: Home, m: Move, d: nat, e: nat)
    requires Kept(h) && Can(h, m) && Timely(h, m) && d != e && d in Next(h, m).copies && e in Next(h, m).copies
    ensures PairOk(Next(h, m).w, Next(h, m).copies[d], Next(h, m).copies[e])
  {
    hide Faithful, ReadAt, AtRevision, Applied, Append;
    if d in h.copies && e in h.copies {
      assert PairOk(h.w, h.copies[d], h.copies[e]);
    }
    if d in h.copies {
      assert CopyOk(h.w, h.alone, h.copies[d]);
    }
    if e in h.copies {
      assert CopyOk(h.w, h.alone, h.copies[e]);
    }
  }

  lemma MoveKeeps(h: Home, m: Move)
    requires Kept(h) && Can(h, m) && Timely(h, m)
    ensures Kept(Next(h, m))
  {
    hide Can, KeyOk, CopyOk, PairOk, After, Did;
    var g := Next(h, m);
    forall k ensures KeyOk(g.w, k) {
      KeyKept(h, m, k);
    }
    forall d | d in g.copies ensures CopyOk(g.w, g.alone, g.copies[d]) {
      if (m.Does? || m.Opens? || m.Reads?) && m.d == d {
        if m.Does? {
          ActKept(h, m);
        } else {
          EntersKept(h, m);
        }
      } else {
        OtherKept(h, m, d);
      }
    }
    forall d, e | d in g.copies && e in g.copies && d != e ensures PairOk(g.w, g.copies[d], g.copies[e]) {
      PairKept(h, m, d, e);
    }
  }

  lemma {:induction false} TimelyKept(hs: seq<Home>, ms: seq<Move>, i: nat)
    requires Runs(hs, ms) && i <= |ms| && forall j :: 0 <= j < i ==> Timely(hs[j], ms[j])
    ensures Kept(hs[i])
  {
    hide Kept, Can, Next, Timely, Start;
    if i == 0 {
      StartKept(hs[0]);
    } else {
      TimelyKept(hs, ms, i - 1);
      assert Can(hs[i - 1], ms[i - 1]) && hs[i] == Next(hs[i - 1], ms[i - 1]);
      MoveKeeps(hs[i - 1], ms[i - 1]);
    }
  }

  lemma StartKept(h: Home)
    requires Start(h.w) && h.copies == map[]
    ensures Kept(h)
  {
  }

  /** No orphaned step, whatever drives overlap, as long as no recovery reads the
      record of a Run before aicrewd made its step. */
  lemma TimelyNoOrphanedStep(hs: seq<Home>, ms: seq<Move>, i: nat, k: nat)
    requires Runs(hs, ms) && i <= |ms| && forall j :: 0 <= j < i ==> Timely(hs[j], ms[j])
    ensures k in hs[i].w.crew && !hs[i].w.crew[k].settled ==> k in hs[i].w.disk
    ensures hs[i].w.loose[k] > 0 && k !in hs[i].w.crew ==> k in hs[i].w.disk
  {
    hide Can, Next, Start, Timely;
    TimelyKept(hs, ms, i);
    assert KeyOk(hs[i].w, k);
  }

  // Too early, one can be.

  /** A path at whose end k's step is orphaned. */
  ghost predicate Orphans(hs: seq<Home>, ms: seq<Move>, k: nat) {
    IsPath(hs, ms) && Orphaned(hs[|ms|].w, k)
  }

  lemma Preceded(h: Home, m: Move, hs: seq<Home>, ms: seq<Move>, k: nat) returns (gs: seq<Home>, ns: seq<Move>)
    requires Can(h, m) && Orphans(hs, ms, k) && hs[0] == Next(h, m)
    ensures Orphans(gs, ns, k) && gs[0] == h && ns == [m] + ms
  {
    hide Can, Next;
    gs, ns := [h] + hs, [m] + ms;
    forall i {:trigger ns[i]} | 0 <= i < |ns| ensures Can(gs[i], ns[i]) && gs[i + 1] == Next(gs[i], ns[i]) {
      if i > 0 {
        assert ns[i] == ms[i - 1];
      }
    }
  }

  /** The Run drops the record of a step that is not settled. */
  lemma DropOrphans(h: Home, run: nat, k: nat) returns (hs: seq<Home>, ms: seq<Move>)
    requires At(h, run, Declined) && h.copies[run].k == k && k in h.w.crew && !h.w.crew[k].settled
    ensures Orphans(hs, ms, k) && hs[0] == h
  {
    var m := Does(run, Drops);
    hs, ms := [h, Next(h, m)], [m];
  }

  /** The Run's begin is refused as a replay, or was refused before. */
  lemma RefusedOrphans(h: Home, run: nat, k: nat) returns (hs: seq<Home>, ms: seq<Move>)
    requires run in h.copies && h.copies[run].k == k && h.copies[run].isFirst && k in h.w.crew && !h.w.crew[k].settled
    requires h.copies[run].stage.Declined? || (h.copies[run].stage.Waiting? && h.w.sent[k] > 1 && k !in h.alone)
    ensures Orphans(hs, ms, k) && hs[0] == h
  {
    if h.copies[run].stage.Declined? {
      hs, ms := DropOrphans(h, run, k);
    } else {
      var m := Does(run, HearsNo);
      hs, ms := DropOrphans(Next(h, m), run, k);
      hs, ms := Preceded(h, m, hs, ms, k);
    }
  }

  /** A begin of the recovery's makes the step. */
  lemma TakenOrphans(h: Home, run: nat, rec: nat, k: nat) returns (hs: seq<Home>, ms: seq<Move>)
    requires run in h.copies && h.copies[run].k == k && h.copies[run].isFirst && k !in h.w.crew && k !in h.alone
    requires h.copies[run].stage.Declined? || h.copies[run].stage.Waiting?
    requires At(h, rec, Ready) && rec != run && h.copies[rec].k == k && h.w.sent[k] > 0
    ensures Orphans(hs, ms, k) && hs[0] == h
  {
    hide Faithful, ReadAt, AtRevision, Applied, Append, Orphans;
    var asks := Does(rec, Asks);
    var h1 := Next(h, asks);
    var key := NewKey(h1.w);
    var takes := Others(CrewTakes(k, ANY_STEP.(requestKey := key), ""));
    hs, ms := RefusedOrphans(Next(h1, takes), run, k);
    hs, ms := Preceded(h1, takes, hs, ms, k);
    hs, ms := Preceded(h, asks, hs, ms, k);
  }

  /** Wherever a recovery reads the record of a Run before aicrewd made its step,
      things can go on so that the step is orphaned. */
  lemma ReadTooEarly(h: Home, run: nat, rec: nat, k: nat) returns (hs: seq<Home>, ms: seq<Move>)
    requires Kept(h) && h.alone <= h.w.crew.Keys && run in h.copies && h.copies[run].isFirst && h.copies[run].k == k
    requires rec !in h.copies && k !in h.w.crew
    ensures Orphans(hs, ms, k) && hs[0] == h && ms != [] && ms[0] == Reads(rec, k)
  {
    hide Faithful, ReadAt, AtRevision, Applied, Append, Orphans;
    assert CopyOk(h.w, h.alone, h.copies[run]);
    var early, asks := Reads(rec, k), Does(run, Asks);
    var g := Next(h, early);
    if h.copies[run].stage.Ready? {
      hs, ms := TakenOrphans(Next(g, asks), run, rec, k);
      hs, ms := Preceded(g, asks, hs, ms, k);
    } else {
      hs, ms := TakenOrphans(g, run, rec, k);
    }
    hs, ms := Preceded(h, early, hs, ms, k);
  }

  lemma {:induction false} AloneKept(hs: seq<Home>, ms: seq<Move>, i: nat)
    requires Runs(hs, ms) && i <= |ms|
    ensures hs[i].alone <= hs[i].w.crew.Keys
  {
    hide Can, Next;
    if i > 0 {
      AloneKept(hs, ms, i - 1);
      assert Can(hs[i - 1], ms[i - 1]) && hs[i] == Next(hs[i - 1], ms[i - 1]);
      AloneHasStep(hs[i - 1], ms[i - 1]);
    }
  }

  /** So every run that was in time so far, and in which a recovery now can read
      the record of a Run too early, can go on to an orphaned step. */
  lemma TooEarlyOrphans(hs: seq<Home>, ms: seq<Move>, run: nat, rec: nat, k: nat) returns (gs: seq<Home>, ns: seq<Move>)
    requires Runs(hs, ms) && forall j :: 0 <= j < |ms| ==> Timely(hs[j], ms[j])
    requires var h := hs[|ms|];
             run in h.copies && h.copies[run].isFirst && h.copies[run].k == k && k !in h.w.crew && rec !in h.copies
    ensures Runs(gs, ns) && Orphans(gs, ns, k) && hs <= gs && ms + [Reads(rec, k)] <= ns
  {
    hide Kept, Can, Next, Timely, Orphaned;
    TimelyKept(hs, ms, |ms|);
    AloneKept(hs, ms, |ms|);
    var more, moves := ReadTooEarly(hs[|ms|], run, rec, k);
    gs, ns := hs[..|ms|] + more, ms + moves;
    assert hs[..|ms|] + [hs[|ms|]] == hs;
    PathBoth(hs, ms, more, moves);
    assert gs[|ns|] == more[|moves|];
  }
}
