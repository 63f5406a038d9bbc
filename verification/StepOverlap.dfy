/** Two drives of one record (internal/agent/steps.go:279-418): a script's submit
    runs the driver outside the step server's lock (internal/agent/automation.go:805-816),
    so that a recovery (internal/agent/stepserver.go:293-296) may read a record whose
    Run is still going on. Each drive has its own copy of the record, which it saves
    and drops without a look at the file. */
module StepOverlap {
  import opened Common
  import opened StepContent
  import opened StepProtocol
  import opened StepTheorems
  import StepDriver

  /** Where a drive is with its copy. */
  datatype Stage =
    | Ready      // read, or just saved by its Run: no begin sent for it
    | Waiting    // a begin is out
    | Holding    // the step is answered, and not recorded
    | Declined   // the step's first begin is refused for good
    | Sending    // the step is recorded
    | Reporting  // aimem's answer is known, and not recorded
    | Settling   // the report is to be settled
    | Closing    // it is settled: the record is to go

  /** A drive's own copy of the record under k; isFirst for its Run. */
  datatype Copy = Copy(k: nat, p: Record, isFirst: bool, stage: Stage)

  /** The protocol's world, the copies in memory, the reports told, and the keys
      whose step was made of the only begin sent. */
  datatype Home = Home(w: World, copies: map<nat, Copy>, told: set<(nat, Report)>, alone: set<nat>)

  /** A drive's next line. */
  datatype Act =
    | Asks
    | Hears
    | HearsSettled
    | HearsNo
    | Saves
    | Sends(send: Send)
    | Learns(report: Report)
    | Tells
    | HearsEnd
    | Drops
    | Leaves

  datatype Move =
    | Opens(d: nat, k: nat, request: Request) // Run: a new record, saved
    | Reads(d: nat, k: nat)                   // Recover: a recorded step, read
    | Does(d: nat, act: Act)
    | Restarts
    | Others(e: Event)

  predicate At(h: Home, d: nat, stage: Stage) {
    d in h.copies && h.copies[d].stage == stage
  }

  predicate Unsent(p: Record) {
    !p.phase.Sent?
  }

  /** What a drive may do next with its copy, whatever the file holds. */
  ghost predicate MayDo(w: World, c: Copy, act: Act) {
    match act
    case Asks => c.stage.Ready?
    // the step the key has, the same as any recorded
    case Hears =>
      && c.stage.Waiting? && c.k in w.crew
      && (c.p.step.Some? ==> c.p.step.value.requestKey == w.crew[c.k].step.requestKey)
    case HearsSettled => c.stage.Waiting? && c.p.step.Some?
    // the only begin is refused with nothing begun; a replay may be refused anyway
    case HearsNo => c.stage.Waiting? && c.isFirst && (w.declined[c.k] > 0 || (c.k in w.crew && w.sent[c.k] > 1))
    case Saves => c.stage.Holding? || c.stage.Reporting?
    case Sends(s) =>
      && c.stage.Sending? && s.begin == c.k && c.p.step == Some(s.step) && s.task == c.p.request.task
      && s.key == s.step.requestKey && Faithful(s.step, s.note, s.body, ReadAt(w, s.task, s.step))
    case Learns(report) =>
      c.stage.Sending? && c.p.step.Some? && (report.Committed? ==> c.p.step.value.requestKey in w.commits)
    case Tells => c.stage.Settling? && c.p.step.Some? && c.p.report.Some?
    case HearsEnd => c.stage.Settling? && c.k in w.crew && w.crew[c.k].settled
    case Drops => c.stage.Declined? || c.stage.Closing?
    case Leaves => true
  }

  ghost predicate Can(h: Home, m: Move) {
    match m
    case Opens(d, k, _) => d !in h.copies && k !in h.w.drawn
    case Reads(d, k) => d !in h.copies && k in h.w.disk
    // the begin the step was made of is not refused
    case Does(d, act) => d in h.copies && MayDo(h.w, h.copies[d], act) && (act.HearsNo? ==> h.copies[d].k !in h.alone)
    case Restarts => true
    case Others(e) => Foreign(e) && Allowed(h.w, e)
  }

  /** The services' events, and other writers'. */
  predicate Foreign(e: Event) {
    e.CrewTakes? || e.CrewDeclines? || e.CrewSettles? || e.AimemApplies? || e.Edit?
  }

  function NewRecord(request: Request): Record {
    Record(request, Begin, "", None, None)
  }

  /** The copy after its drive did something. */
  function Did(w: World, c: Copy, act: Act): Copy {
    match act
    case Asks => c.(stage := Waiting)
    case Hears =>
      if c.k in w.crew then
        c.(p := c.p.(phase := Begun, attempt := w.crew[c.k].attempt, step := Some(w.crew[c.k].step), report := None), stage := Holding)
      else c
    case HearsSettled => c.(p := c.p.(phase := Sent, report := Some(Unknown)), stage := Settling)
    case HearsNo => c.(stage := Declined)
    case Saves => c.(stage := if c.stage.Holding? then Sending else Settling)
    case Learns(report) => c.(p := c.p.(phase := Sent, report := Some(report)), stage := Reporting)
    case HearsEnd => c.(stage := Closing)
    case _ => c
  }

  /** What it is to the protocol's world; a drop of no file is nothing. */
  function Acted(w: World, c: Copy, act: Act): Option<Event> {
    match act
    case Asks => Some(PostBegin(c.k))
    case Saves => Some(Save(c.k, c.p))
    case Sends(s) => Some(PostSend(s))
    case Drops => if c.k in w.disk then Some(Drop(c.k)) else None
    case _ => None
  }

  function Effect(h: Home, m: Move): Option<Event> {
    match m
    case Opens(_, k, request) => Some(Save(k, NewRecord(request)))
    case Does(d, act) => if d in h.copies then Acted(h.w, h.copies[d], act) else None
    case Others(e) => Some(e)
    case _ => None
  }

  function Copies(h: Home, m: Move): map<nat, Copy> {
    match m
    case Opens(d, k, request) => h.copies[d := Copy(k, NewRecord(request), true, Ready)]
    case Reads(d, k) =>
      if k in h.w.disk then h.copies[d := Copy(k, h.w.disk[k], false, if Unsent(h.w.disk[k]) then Ready else Settling)] else h.copies
    case Does(d, act) =>
      if d !in h.copies then h.copies
      else if act.Drops? || act.Leaves? then h.copies - {d}
      else h.copies[d := Did(h.w, h.copies[d], act)]
    case Restarts => map[]
    case Others(_) => h.copies
  }

  function Heard(h: Home, m: Move): set<(nat, Report)> {
    if m.Does? && m.act.Tells? && m.d in h.copies && h.copies[m.d].p.step.Some? && h.copies[m.d].p.report.Some?
    then h.told + {(h.copies[m.d].p.step.value.requestKey, h.copies[m.d].p.report.value)}
    else h.told
  }

  function Alone(h: Home, m: Move): set<nat> {
    if m.Others? && m.e.CrewTakes? && h.w.sent[m.e.k] == 1 then h.alone + {m.e.k} else h.alone
  }

  function Next(h: Home, m: Move): Home {
    Home(if Effect(h, m).Some? then After(h.w, Effect(h, m).value) else h.w, Copies(h, m), Heard(h, m), Alone(h, m))
  }

  ghost predicate IsPath(hs: seq<Home>, ms: seq<Move>) {
    && |hs| == |ms| + 1
    && forall i {:trigger ms[i]} :: 0 <= i < |ms| ==> Can(hs[i], ms[i]) && hs[i + 1] == Next(hs[i], ms[i])
  }

  ghost predicate Runs(hs: seq<Home>, ms: seq<Move>) {
    IsPath(hs, ms) && Start(hs[0].w) && hs[0].copies == map[] && hs[0].told == {} && hs[0].alone == {}
  }

  /** No recovery reads an unsent record that another drive has a copy of. */
  predicate Apart(h: Home, m: Move) {
    m.Reads? && m.k in h.w.disk && Unsent(h.w.disk[m.k]) ==> forall d :: d in h.copies ==> h.copies[d].k != m.k
  }

  // Apart, the drives keep the protocol.

  /** What a copy is against the record on disk. */
  ghost predicate Agrees(w: World, c: Copy) {
    match c.stage
    case Ready => c.k in w.disk && w.disk[c.k] == c.p && Unsent(c.p) && (c.isFirst ==> c.p.phase.Begin? && w.sent[c.k] == 0)
    case Waiting =>
      && c.k in w.disk && w.disk[c.k] == c.p && Unsent(c.p) && (c.isFirst ==> c.p.phase.Begin? && w.sent[c.k] == 1)
      && (c.k in w.crew || w.loose[c.k] > 0 || w.declined[c.k] > 0)
    case Holding =>
      c.k in w.disk && w.disk[c.k].request == c.p.request && Unsent(w.disk[c.k]) && c.p.phase.Begun? && Sound(w, c.k, c.p)
    case Declined => c.k in w.disk && Unsent(w.disk[c.k]) && w.sent[c.k] == w.declined[c.k] == 1
    case Sending => c.k in w.disk && w.disk[c.k] == c.p && c.p.phase.Begun? && Sound(w, c.k, c.p)
    case Reporting =>
      c.k in w.disk && w.disk[c.k].request == c.p.request && w.disk[c.k].phase.Begun? && c.p.phase.Sent? && Sound(w, c.k, c.p)
    case Settling => c.p.phase.Sent? && Sound(w, c.k, c.p)
    case Closing => c.k in w.crew && w.crew[c.k].settled
  }

  /** A drive that may still save the record. */
  predicate Writes(c: Copy) {
    !c.stage.Settling? && !c.stage.Closing?
  }

  ghost predicate Agreed(h: Home) {
    && h.alone <= h.w.crew.Keys
    && (forall d :: d in h.copies ==> Agrees(h.w, h.copies[d]))
    && (forall d, e :: d in h.copies && e in h.copies && d != e ==> Beside(h.w, h.copies[d], h.copies[e]))
  }

  /** Two copies of one record are both past its last save. */
  predicate Beside(w: World, a: Copy, b: Copy) {
    a.k == b.k ==> !Writes(a) && (a.k in w.disk ==> !Unsent(w.disk[a.k]))
  }

  /** Then each move is a step of the protocol, or none. */
  lemma MoveIsStep(h: Home, m: Move)
    requires Inv(h.w) && Agreed(h) && Can(h, m) && Apart(h, m)
    ensures Effect(h, m).Some? ==> Allowed(h.w, Effect(h, m).value)
    ensures Next(h, m).w == if Effect(h, m).Some? then After(h.w, Effect(h, m).value) else h.w
  {
    hide Faithful, ReadAt, Mail, Receipts, Begins, Told;
    if m.Does? {
      assert Agrees(h.w, h.copies[m.d]);
    }
  }

  predicate About(e: Event, k: nat) {
    (e.Save? || e.Drop? || e.PostBegin?) && e.k == k
  }

  /** What a step leaves of a key it is not about. */
  lemma Untouched(w: World, e: Event, k: nat)
    requires Counted(w, k) && Allowed(w, e) && !About(e, k)
    ensures var v := After(w, e);
            && (k in v.disk <==> k in w.disk) && (k in w.disk ==> v.disk[k] == w.disk[k]) && v.sent[k] == w.sent[k]
            && (w.sent[k] == w.declined[k] == 1 ==> v.declined[k] == 1)
            && (k in w.crew || w.loose[k] > 0 || w.declined[k] > 0 ==> k in v.crew || v.loose[k] > 0 || v.declined[k] > 0)
  {
    hide Faithful, ReadAt, Sound, AtRevision, Applied, Append;
  }

  lemma StaysSound(w: World, e: Event, k: nat, p: Record)
    requires Allowed(w, e) && Sound(w, k, p)
    ensures Sound(After(w, e), k, p)
    ensures k in w.crew && w.crew[k].settled ==> k in After(w, e).crew && After(w, e).crew[k].settled
  {
    hide Allowed, After;
    StepGrows(w, e);
  }

  lemma StaysSettled(w: World, e: Event, k: nat)
    requires Allowed(w, e) && k in w.crew && w.crew[k].settled
    ensures k in After(w, e).crew && After(w, e).crew[k].settled
  {
    hide Allowed, After;
    StepGrows(w, e);
  }

  /** A copy no move is about stays in agreement. */
  lemma AgreesOn(w: World, e: Event, c: Copy)
    requires Inv(w) && Allowed(w, e) && Agrees(w, c)
    requires About(e, c.k) ==> !Writes(c)
    ensures Agrees(After(w, e), c)
  {
    assert Counted(w, c.k);
    hide Allowed, After, Sound, Inv, Counted;
    if c.stage.Closing? {
      StaysSettled(w, e, c.k);
    } else if c.stage.Settling? {
      StaysSound(w, e, c.k, c.p);
    } else {
      Untouched(w, e, c.k);
      if c.stage.Holding? || c.stage.Sending? || c.stage.Reporting? {
        StaysSound(w, e, c.k, c.p);
      }
    }
  }

  /** What a drive's own act leaves of its copy. */
  lemma ActsInAgreement(w: World, c: Copy, act: Act)
    requires Inv(w) && Agrees(w, c) && MayDo(w, c, act) && !act.Drops? && !act.Leaves?
    requires Acted(w, c, act).Some? ==> Allowed(w, Acted(w, c, act).value)
    ensures var v := if Acted(w, c, act).Some? then After(w, Acted(w, c, act).value) else w;
            Agrees(v, Did(w, c, act))
  {
    assert Counted(w, c.k);
    assert c.k in w.disk ==> Sound(w, c.k, w.disk[c.k]);
    hide Faithful, ReadAt, Mail, Receipts, Told, Records, Orphanless, Inv, Begins;
    if act.Saves? {
      StaysSound(w, Save(c.k, c.p), c.k, c.p);
    }
    if act.Sends? {
      StaysSound(w, PostSend(act.send), c.k, c.p);
    }
  }

  /** Apart, every move keeps the invariant and the agreement. */
  lemma KeepsAgreed(h: Home, m: Move)
    requires Inv(h.w) && Agreed(h) && Can(h, m) && Apart(h, m)
    ensures Inv(Next(h, m).w) && Agreed(Next(h, m))
  {
    hide Inv, Agrees, Allowed, After, MayDo, Did;
    MoveIsStep(h, m);
    if Effect(h, m).Some? {
      KeepsInv(h.w, Effect(h, m).value);
    }
    var g := Next(h, m);
    forall d | d in g.copies ensures Agrees(g.w, g.copies[d]) {
      CopyAgrees(h, m, d);
    }
    PairsAgree(h, m);
    AloneHasStep(h, m);
  }

  lemma AloneHasStep(h: Home, m: Move)
    requires h.alone <= h.w.crew.Keys && Can(h, m)
    ensures Next(h, m).alone <= Next(h, m).w.crew.Keys
  {
    hide Faithful, ReadAt, AtRevision, Applied, Append;
  }

  lemma CopyAgrees(h: Home, m: Move, d: nat)
    requires Inv(h.w) && Agreed(h) && Can(h, m) && Apart(h, m) && d in Next(h, m).copies
    ensures Agrees(Next(h, m).w, Next(h, m).copies[d])
  {
    MoveIsStep(h, m);
    hide Inv, Agrees, Allowed, After, MayDo, Did;
    if d in h.copies && Next(h, m).copies[d] == h.copies[d] && !(m.Does? && m.d == d) {
      if Effect(h, m).Some? {
        NotAbout(h, m, d);
        AgreesOn(h.w, Effect(h, m).value, h.copies[d]);
      }
    } else if m.Does? {
      assert m.d == d;
      ActsInAgreement(h.w, h.copies[d], m.act);
    } else {
      EntersInAgreement(h, m);
    }
  }

  lemma NotAbout(h: Home, m: Move, d: nat)
    requires Inv(h.w) && Agreed(h) && Can(h, m) && d in h.copies && !(m.Does? && m.d == d) && Effect(h, m).Some?
    ensures About(Effect(h, m).value, h.copies[d].k) ==> !Writes(h.copies[d])
  {
    hide Inv, Allowed, After, Did, Agrees;
    if m.Opens? {
      KeysDrawn(h, d);
    }
  }

  lemma KeysDrawn(h: Home, d: nat)
    requires Inv(h.w) && Agreed(h) && d in h.copies
    ensures h.copies[d].k in h.w.drawn
  {
    assert Agrees(h.w, h.copies[d]);
    assert Counted(h.w, h.copies[d].k);
  }

  lemma EntersInAgreement(h: Home, m: Move)
    requires Inv(h.w) && Agreed(h) && Can(h, m) && (m.Opens? || m.Reads?)
    ensures Agrees(Next(h, m).w, Next(h, m).copies[m.d])
  {
    assert Counted(h.w, m.k);
    hide Faithful, ReadAt, Mail, Receipts, Told, Orphanless, Begins;
    if m.Reads? {
      assert Sound(h.w, m.k, h.w.disk[m.k]);
    }
  }

  lemma PairsAgree(h: Home, m: Move)
    requires Inv(h.w) && Agreed(h) && Can(h, m) && Apart(h, m)
    ensures var g := Next(h, m);
            forall d, e :: d in g.copies && e in g.copies && d != e ==> Beside(g.w, g.copies[d], g.copies[e])
  {
    hide Inv, Allowed, After, MayDo, Did, Agrees, Beside, Agreed;
    var g := Next(h, m);
    forall d, e | d in g.copies && e in g.copies && d != e ensures Beside(g.w, g.copies[d], g.copies[e]) {
      if (m.Opens? || m.Reads?) && (m.d == d || m.d == e) {
        NewBeside(h, m, if m.d == d then e else d);
      } else {
        OldBeside(h, m, d, e);
      }
    }
  }

  /** A new copy, and one that was there. */
  lemma NewBeside(h: Home, m: Move, e: nat)
    requires Inv(h.w) && Agreed(h) && Can(h, m) && Apart(h, m) && (m.Opens? || m.Reads?) && e in h.copies
    ensures var g := Next(h, m);
            e in g.copies && m.d in g.copies && Beside(g.w, g.copies[m.d], g.copies[e]) && Beside(g.w, g.copies[e], g.copies[m.d])
  {
    hide Inv, Allowed;
    KeysDrawn(h, e);
    assert Agrees(h.w, h.copies[e]);
  }

  /** Two that were there: neither of them saves a record they share. */
  lemma OldBeside(h: Home, m: Move, d: nat, e: nat)
    requires Inv(h.w) && Agreed(h) && Can(h, m) && d in h.copies && e in h.copies && d != e
    requires d in Next(h, m).copies && e in Next(h, m).copies && (m.Opens? || m.Reads? ==> m.d != d && m.d != e)
    ensures Beside(Next(h, m).w, Next(h, m).copies[d], Next(h, m).copies[e])
  {
    hide Inv, Allowed, Agrees, MayDo, Sound, Faithful, ReadAt;
    KeysDrawn(h, d);
    assert Beside(h.w, h.copies[d], h.copies[e]) && Beside(h.w, h.copies[e], h.copies[d]);
    if m.Does? {
      DidWrites(h.w, h.copies[m.d], m.act);
    }
    if m.Does? && m.d != d && m.d != e {
      assert Beside(h.w, h.copies[m.d], h.copies[d]);
    }
  }

  /** A drive past its last save saves no more. */
  lemma DidWrites(w: World, c: Copy, act: Act)
    requires MayDo(w, c, act)
    ensures Did(w, c, act).k == c.k && (!Writes(c) ==> !Writes(Did(w, c, act)) && !act.Saves? && !act.Asks? && !act.Sends?)
    ensures act.Saves? ==> Writes(c)
  {
    hide Faithful, ReadAt;
  }

  lemma {:induction false} ApartKeepsInv(hs: seq<Home>, ms: seq<Move>, i: nat)
    requires Runs(hs, ms) && i <= |ms| && forall j :: 0 <= j < i ==> Apart(hs[j], ms[j])
    ensures Inv(hs[i].w) && Agreed(hs[i])
  {
    hide Inv, Agreed, Can, Next, Apart;
    if i == 0 {
      EmptyAgrees(hs[0]);
    } else {
      ApartKeepsInv(hs, ms, i - 1);
      assert Can(hs[i - 1], ms[i - 1]) && hs[i] == Next(hs[i - 1], ms[i - 1]);
      KeepsAgreed(hs[i - 1], ms[i - 1]);
    }
  }

  lemma EmptyAgrees(h: Home)
    requires Start(h.w) && h.copies == map[] && h.alone == {}
    ensures Inv(h.w) && Agreed(h)
  {
    RunsKeepInv([h.w], [], 0);
  }

  /** Apart, no record goes back, and none comes back. */
  lemma {:induction false} ApartNeverGoBack(hs: seq<Home>, ms: seq<Move>, i: nat, j: nat, k: nat)
    requires Runs(hs, ms) && i <= j <= |ms| && forall n :: 0 <= n < j ==> Apart(hs[n], ms[n])
    ensures NotBack(hs[i].w, hs[j].w, k)
    decreases j
  {
    hide Inv, Agreed, Can, Next, Apart, NotBack;
    ApartKeepsInv(hs, ms, i);
    if i == j {
      NotBackSame(hs[i].w, k);
    } else {
      ApartNeverGoBack(hs, ms, i, j - 1, k);
      ApartKeepsInv(hs, ms, j - 1);
      assert Can(hs[j - 1], ms[j - 1]) && hs[j] == Next(hs[j - 1], ms[j - 1]);
      MoveNotBack(hs[j - 1], ms[j - 1], k);
      NotBackOn(hs[i].w, hs[j - 1].w, hs[j].w, k);
    }
  }

  lemma MoveNotBack(h: Home, m: Move, k: nat)
    requires Inv(h.w) && Agreed(h) && Can(h, m) && Apart(h, m)
    ensures NotBack(h.w, Next(h, m).w, k)
  {
    hide Inv, Agreed, Can, Allowed, After;
    MoveIsStep(h, m);
    if Effect(h, m).Some? {
      StepNotBack(h.w, Effect(h, m).value, k);
    }
  }

  lemma NotBackSame(w: World, k: nat)
    requires Inv(w)
    ensures NotBack(w, w, k)
  {
  }

  lemma NotBackOn(a: World, b: World, c: World, k: nat)
    requires NotBack(a, b, k) && NotBack(b, c, k) && Inv(a)
    ensures NotBack(a, c, k)
  {
  }

  // Not apart, they need not.

  /** A path on which the record of k goes back, or comes back. */
  ghost predicate GoesBack(hs: seq<Home>, ms: seq<Move>, k: nat) {
    IsPath(hs, ms) && exists i, j :: 0 <= i < j < |hs| && !NotBack(hs[i].w, hs[j].w, k)
  }

  lemma Before(h: Home, m: Move, hs: seq<Home>, ms: seq<Move>, k: nat) returns (gs: seq<Home>, ns: seq<Move>)
    requires Can(h, m) && GoesBack(hs, ms, k) && hs[0] == Next(h, m)
    ensures GoesBack(gs, ns, k) && gs[0] == h && ns[0] == m
  {
    hide Can, Next, NotBack;
    gs, ns := [h] + hs, [m] + ms;
    forall i {:trigger ns[i]} | 0 <= i < |ns| ensures Can(gs[i], ns[i]) && gs[i + 1] == Next(gs[i], ns[i]) {
      if i > 0 {
        assert ns[i] == ms[i - 1];
      }
    }
    var i, j :| 0 <= i < j < |hs| && !NotBack(hs[i].w, hs[j].w, k);
    assert gs[i + 1] == hs[i] && gs[j + 1] == hs[j];
  }

  /** One more move that takes the record back. */
  lemma LastBack(h: Home, m: Move, k: nat) returns (gs: seq<Home>, ns: seq<Move>)
    requires Can(h, m) && !NotBack(h.w, Next(h, m).w, k)
    ensures GoesBack(gs, ns, k) && gs[0] == h && ns[0] == m
  {
    gs, ns := [h, Next(h, m)], [m];
    assert !NotBack(gs[0].w, gs[1].w, k);
  }

  /** A Run and a recovery with a copy of one record each, neither settling. */
  ghost predicate Two(h: Home, run: nat, rec: nat, k: nat) {
    && run in h.copies && rec in h.copies && run != rec && h.copies[run].k == h.copies[rec].k == k
    && h.copies[run].isFirst && k in h.w.drawn
  }

  /** The recovery's copy has no step, or the key's. */
  predicate Fits(w: World, c: Copy) {
    Unsent(c.p) && (c.p.step.Some? && c.k in w.crew ==> c.p.step == Some(w.crew[c.k].step))
  }

  /** The Run saves its report; then the recovery saves the step it heard. */
  lemma LateSave(h: Home, run: nat, rec: nat, k: nat) returns (hs: seq<Home>, ms: seq<Move>)
    requires Two(h, run, rec, k) && At(h, run, Reporting) && At(h, rec, Holding)
    requires h.copies[run].p.phase.Sent? && h.copies[rec].p.phase.Begun?
    ensures GoesBack(hs, ms, k) && hs[0] == h
  {
    var h1 := Next(h, Does(run, Saves));
    hs, ms := LastBack(h1, Does(rec, Saves), k);
    hs, ms := Before(h, Does(run, Saves), hs, ms, k);
  }

  lemma FromReporting(h: Home, run: nat, rec: nat, k: nat) returns (hs: seq<Home>, ms: seq<Move>)
    requires Two(h, run, rec, k) && At(h, run, Reporting) && At(h, rec, Ready) && k in h.w.crew
    requires h.copies[run].p.phase.Sent? && Fits(h.w, h.copies[rec])
    ensures GoesBack(hs, ms, k) && hs[0] == h
  {
    var h1 := Next(h, Does(rec, Asks));
    var h2 := Next(h1, Does(rec, Hears));
    hs, ms := LateSave(h2, run, rec, k);
    hs, ms := Before(h1, Does(rec, Hears), hs, ms, k);
    hs, ms := Before(h, Does(rec, Asks), hs, ms, k);
  }

  lemma FromSending(h: Home, run: nat, rec: nat, k: nat) returns (hs: seq<Home>, ms: seq<Move>)
    requires Two(h, run, rec, k) && At(h, run, Sending) && At(h, rec, Ready) && k in h.w.crew
    requires h.copies[run].p.step.Some? && Fits(h.w, h.copies[rec])
    ensures GoesBack(hs, ms, k) && hs[0] == h
  {
    var m := Does(run, Learns(Unknown));
    hs, ms := FromReporting(Next(h, m), run, rec, k);
    hs, ms := Before(h, m, hs, ms, k);
  }

  lemma FromHolding(h: Home, run: nat, rec: nat, k: nat) returns (hs: seq<Home>, ms: seq<Move>)
    requires Two(h, run, rec, k) && At(h, run, Holding) && At(h, rec, Ready) && k in h.w.crew
    requires h.copies[run].p.step.Some? && Fits(h.w, h.copies[rec])
    ensures GoesBack(hs, ms, k) && hs[0] == h
  {
    var m := Does(run, Saves);
    hs, ms := FromSending(Next(h, m), run, rec, k);
    hs, ms := Before(h, m, hs, ms, k);
  }

  /** A request key no step has, for aicrewd to make one with. */
  lemma NewKey(w: World) returns (key: nat)
    ensures key !in w.commits && forall j :: j in w.crew ==> w.crew[j].step.requestKey != key
  {
    var used := w.commits.Keys + set j | j in w.crew :: w.crew[j].step.requestKey;
    key := StepDriver.KeyAbove(used);
    assert forall j :: j in w.crew ==> w.crew[j].step.requestKey in used;
  }

  lemma FromWaiting(h: Home, run: nat, rec: nat, k: nat) returns (hs: seq<Home>, ms: seq<Move>)
    requires Two(h, run, rec, k) && At(h, run, Waiting) && At(h, rec, Ready) && h.copies[run].p.step.None?
    requires (k in h.w.crew || h.w.loose[k] > 0 || h.w.declined[k] > 0) && h.alone <= h.w.crew.Keys
    requires Fits(h.w, h.copies[rec]) && (k !in h.w.crew ==> h.copies[rec].p.step.None?)
    ensures GoesBack(hs, ms, k) && hs[0] == h
    decreases k !in h.w.crew
  {
    if k in h.w.crew {
      var m := Does(run, Hears);
      hs, ms := FromHolding(Next(h, m), run, rec, k);
      hs, ms := Before(h, m, hs, ms, k);
    } else if h.w.loose[k] > 0 {
      var key := NewKey(h.w);
      var st := ANY_STEP.(requestKey := key);
      var m := Others(CrewTakes(k, st, ""));
      hs, ms := FromWaiting(Next(h, m), run, rec, k);
      hs, ms := Before(h, m, hs, ms, k);
    } else {
      var m := Does(run, HearsNo);
      hs, ms := FromDeclined(Next(h, m), run, rec, k);
      hs, ms := Before(h, m, hs, ms, k);
    }
  }

  /** The Run drops its record; then the recovery's begin makes the step, and its
      copy is saved under the dropped key. */
  lemma FromDeclined(h: Home, run: nat, rec: nat, k: nat) returns (hs: seq<Home>, ms: seq<Move>)
    requires Two(h, run, rec, k) && At(h, run, Declined) && At(h, rec, Ready)
    requires Fits(h.w, h.copies[rec]) && (k !in h.w.crew ==> h.copies[rec].p.step.None?)
    ensures GoesBack(hs, ms, k) && hs[0] == h
  {
    hide Faithful, ReadAt, NotBack, AtRevision, Applied, Append, GoesBack;
    var h1 := Next(h, Does(run, Drops));
    var h2 := Next(h1, Does(rec, Asks));
    if k in h.w.crew {
      hs, ms := Reborn(h2, rec, k);
    } else {
      var key := NewKey(h2.w);
      var st := ANY_STEP.(requestKey := key);
      var m := Others(CrewTakes(k, st, ""));
      hs, ms := Reborn(Next(h2, m), rec, k);
      hs, ms := Before(h2, m, hs, ms, k);
    }
    hs, ms := Before(h1, Does(rec, Asks), hs, ms, k);
    hs, ms := Before(h, Does(run, Drops), hs, ms, k);
  }

  lemma Reborn(h: Home, rec: nat, k: nat) returns (hs: seq<Home>, ms: seq<Move>)
    requires At(h, rec, Waiting) && h.copies[rec].k == k && k in h.w.crew && k !in h.w.disk && k in h.w.drawn
    requires Fits(h.w, h.copies[rec])
    ensures GoesBack(hs, ms, k) && hs[0] == h
  {
    var h1 := Next(h, Does(rec, Hears));
    hs, ms := LastBack(h1, Does(rec, Saves), k);
    hs, ms := Before(h, Does(rec, Hears), hs, ms, k);
  }

  /** The condition is needed: wherever a recovery reads an unsent record whose Run
      goes on, things can go on so that the record goes back, or comes back. */
  lemma ReadBesideItsRun(h: Home, run: nat, rec: nat, k: nat) returns (hs: seq<Home>, ms: seq<Move>)
    requires Inv(h.w) && Agreed(h) && run in h.copies && h.copies[run].isFirst && h.copies[run].k == k
    requires rec !in h.copies && k in h.w.disk && Unsent(h.w.disk[k]) && Writes(h.copies[run])
    ensures GoesBack(hs, ms, k) && hs[0] == h && ms[0] == Reads(rec, k)
  {
    var m := Reads(rec, k);
    var g := Next(h, m);
    var c := h.copies[run];
    assert Agrees(h.w, c) && Sound(h.w, k, h.w.disk[k]);
    assert Two(g, run, rec, k) && At(g, rec, Ready) && Fits(g.w, g.copies[rec]);
    match c.stage {
      case Ready =>
        var a := Does(run, Asks);
        hs, ms := FromWaiting(Next(g, a), run, rec, k);
        hs, ms := Before(g, a, hs, ms, k);
      case Waiting => hs, ms := FromWaiting(g, run, rec, k);
      case Holding => hs, ms := FromHolding(g, run, rec, k);
      case Declined => hs, ms := FromDeclined(g, run, rec, k);
      case Sending => hs, ms := FromSending(g, run, rec, k);
      case Reporting => hs, ms := FromReporting(g, run, rec, k);
    }
    hs, ms := Before(h, m, hs, ms, k);
  }

  /** So every run in which the drives were apart, and one then is not, can go on
      to a record that goes back. */
  lemma ApartOrGoesBack(hs: seq<Home>, ms: seq<Move>, run: nat, rec: nat, k: nat) returns (gs: seq<Home>, ns: seq<Move>)
    requires Runs(hs, ms) && forall j :: 0 <= j < |ms| ==> Apart(hs[j], ms[j])
    requires var h := hs[|ms|];
             && run in h.copies && h.copies[run].isFirst && h.copies[run].k == k && Writes(h.copies[run])
             && k in h.w.disk && Unsent(h.w.disk[k]) && rec !in h.copies
    ensures Runs(gs, ns) && GoesBack(gs, ns, k) && hs <= gs && ms + [Reads(rec, k)] <= ns
  {
    ApartKeepsInv(hs, ms, |ms|);
    var more, moves := ReadBesideItsRun(hs[|ms|], run, rec, k);
    gs, ns := hs[..|ms|] + more, ms + moves;
    Joined(hs, ms, more, moves, k);
  }

  lemma Joined(hs: seq<Home>, ms: seq<Move>, more: seq<Home>, moves: seq<Move>, k: nat)
    requires IsPath(hs, ms) && GoesBack(more, moves, k) && more[0] == hs[|ms|]
    ensures GoesBack(hs[..|ms|] + more, ms + moves, k) && hs <= hs[..|ms|] + more
  {
    hide Can, Next, NotBack;
    var gs := hs[..|ms|] + more;
    assert hs[..|ms|] + [hs[|ms|]] == hs;
    PathBoth(hs, ms, more, moves);
    var i, j :| 0 <= i < j < |more| && !NotBack(more[i].w, more[j].w, k);
    assert gs[|ms| + i] == more[i] && gs[|ms| + j] == more[j];
  }

  lemma PathBoth(hs: seq<Home>, ms: seq<Move>, gs: seq<Home>, ns: seq<Move>)
    requires IsPath(hs, ms) && IsPath(gs, ns) && gs[0] == hs[|ms|]
    ensures IsPath(hs[..|ms|] + gs, ms + ns)
  {
    hide Can, Next;
    var js, os := hs[..|ms|] + gs, ms + ns;
    forall i {:trigger os[i]} | 0 <= i < |os| ensures Can(js[i], os[i]) && js[i + 1] == Next(js[i], os[i]) {
      if i < |ms| {
        assert os[i] == ms[i] && js[i] == hs[i] && js[i + 1] == hs[i + 1];
      } else {
        assert os[i] == ns[i - |ms|] && js[i] == gs[i - |ms|] && js[i + 1] == gs[i - |ms| + 1];
      }
    }
  }

  // What holds of every run, apart or not.

  /** A record's step is its key's, and a report of a commit is true. */
  predicate True(w: World, k: nat, p: Record) {
    && (p.step.Some? ==> k in w.crew && p.step.value == w.crew[k].step)
    && (p.report == Some(Committed) ==> p.step.Some? && p.step.value.requestKey in w.commits)
  }

  ghost predicate Truth(h: Home) {
    && (forall d :: d in h.copies ==> True(h.w, h.copies[d].k, h.copies[d].p))
    && (forall k :: k in h.w.disk ==> True(h.w, k, h.w.disk[k]))
    && (forall key :: (key, Committed) in h.told ==> key in h.w.commits)
    && Mail(h.w) && Receipts(h.w)
  }

  lemma MoveGrows(h: Home, m: Move)
    requires Can(h, m)
    ensures Grows(h.w, Next(h, m).w)
  {
    hide Faithful, ReadAt, AtRevision, Applied;
    if m.Others? {
      hide After, Allowed;
      StepGrows(h.w, m.e);
    }
  }

  lemma StaysTrue(w: World, v: World, k: nat, p: Record)
    requires Grows(w, v) && True(w, k, p)
    ensures True(v, k, p)
  {
  }

  /** What a move leaves on disk, in memory and told. */
  lemma KeepsTrue(h: Home, m: Move)
    requires Truth(h) && Can(h, m)
    ensures var g := Next(h, m);
            && (forall d :: d in g.copies ==> True(h.w, g.copies[d].k, g.copies[d].p))
            && (forall k :: k in g.w.disk ==> True(h.w, k, g.w.disk[k]))
            && (forall key :: (key, Committed) in g.told ==> key in h.w.commits)
  {
    hide Mail, Receipts, MayDo, Did, True, Acted, After;
    if m.Does? {
      DidTrue(h.w, h.copies[m.d], m.act);
    }
    if m.Opens? {
      NewIsTrue(h.w, m.k, m.request);
    }
    forall k | k in Next(h, m).w.disk ensures True(h.w, k, Next(h, m).w.disk[k]) {
      DiskTrue(h, m, k);
    }
  }

  lemma NewIsTrue(w: World, k: nat, request: Request)
    ensures True(w, k, NewRecord(request))
  {
  }

  lemma DidTrue(w: World, c: Copy, act: Act)
    requires True(w, c.k, c.p) && MayDo(w, c, act)
    ensures Did(w, c, act).k == c.k && True(w, c.k, Did(w, c, act).p)
    ensures act.Tells? && c.p.report == Some(Committed) ==> c.p.step.value.requestKey in w.commits
  {
    hide Faithful, ReadAt;
  }

  /** A record on disk after a move was there, or is a copy's, or is new. */
  lemma DiskTrue(h: Home, m: Move, k: nat)
    requires Truth(h) && Can(h, m) && k in Next(h, m).w.disk
    ensures True(h.w, k, Next(h, m).w.disk[k])
  {
    hide Mail, Receipts, MayDo, Did, True, Faithful, ReadAt, Allowed;
    if m.Opens? && k == m.k {
      NewIsTrue(h.w, k, m.request);
    }
  }

  lemma KeepsMailed(h: Home, m: Move)
    requires Truth(h) && Can(h, m)
    ensures Mail(Next(h, m).w)
  {
    MoveGrows(h, m);
    var v := Next(h, m).w;
    forall s | s in v.mail ensures Carried(v, s) {
      MailOf(h, m, s);
      ReadStays(h.w, v, s);
    }
  }

  lemma MailOf(h: Home, m: Move, s: Send)
    requires Truth(h) && Can(h, m) && s in Next(h, m).w.mail
    ensures Carried(h.w, s)
  {
    hide Receipts, Faithful, ReadAt;
    if m.Does? && m.act.Sends? && s == m.act.send {
      assert True(h.w, h.copies[m.d].k, h.copies[m.d].p);
    } else {
      assert s in h.w.mail;
    }
  }

  lemma KeepsReceived(h: Home, m: Move)
    requires Truth(h) && Can(h, m)
    ensures Receipts(Next(h, m).w)
  {
    MoveGrows(h, m);
    var v := Next(h, m).w;
    hide Faithful, ReadAt, Grows;
    forall key | key in v.commits ensures Received(v, key, v.commits[key]) {
      if key in h.w.commits {
        assert Received(h.w, key, h.w.commits[key]);
        ReceiptStays(h.w, v, key);
      } else {
        ApplyIsReceived(h.w, m.e.send);
      }
    }
  }

  lemma {:induction false} TruthStays(hs: seq<Home>, ms: seq<Move>, i: nat)
    requires Runs(hs, ms) && i <= |ms|
    ensures Truth(hs[i])
  {
    if i > 0 {
      hide Can, Next, Mail, Receipts, Grows, True;
      TruthStays(hs, ms, i - 1);
      var h, m := hs[i - 1], ms[i - 1];
      assert Can(h, m) && hs[i] == Next(h, m);
      MoveGrows(h, m);
      KeepsTrue(h, m);
      KeepsMailed(h, m);
      KeepsReceived(h, m);
      forall k, p | True(h.w, k, p) ensures True(hs[i].w, k, p) {
        StaysTrue(h.w, hs[i].w, k, p);
      }
      CommitsStay(h.w, hs[i].w);
    }
  }

  lemma CommitsStay(w: World, v: World)
    requires Grows(w, v)
    ensures forall key :: key in w.commits ==> key in v.commits
  {
  }

  /** Beside each other or not, the drives of a begin have one effect at most, an
      owned change of the revision its step expected, and a commit told is one
      aimem made. */
  lemma BesideEachOther(hs: seq<Home>, ms: seq<Move>, i: nat)
    requires Runs(hs, ms) && i <= |ms|
    ensures var v := hs[i].w;
            && (forall key :: (key, Committed) in hs[i].told ==> key in v.commits)
            && (forall s :: s in v.mail ==> s.begin in v.crew && s.key == v.crew[s.begin].step.requestKey)
            && (forall key :: key in v.commits ==> CommitsOwnedChange(v, key))
            && (forall a, b :: a in v.commits && b in v.commits && v.commits[a].send.begin == v.commits[b].send.begin ==> a == b)
  {
    TruthStays(hs, ms, i);
    var v := hs[i].w;
    hide Faithful, ReadAt, OwnedChange;
    forall key | key in v.commits
      ensures CommitsOwnedChange(v, key)
      ensures var s := v.commits[key].send; s.begin in v.crew && key == v.crew[s.begin].step.requestKey
    {
      assert Received(v, key, v.commits[key]) && Carried(v, v.commits[key].send);
      ReceiptIsOwnedChange(v, key);
    }
  }
}
