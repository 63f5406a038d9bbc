/** The step driver's protocol as a state machine over aicrewd, aimem and the
    home's record files (internal/agent/steps.go:18-34 and 300-531). The rules
    of the driver's own events are the ones its code keeps (StepDriver); the
    other events are what the two services, the network and other writers of
    the same tasks may do at any time. A crash is no event: it only ends the
    driver's part, so every state of a run is a state a crash can leave. */
module StepProtocol {
  import opened Common
  import opened StepContent

  datatype Phase = Begin | Begun | Sent

  datatype Report = Committed | Refused(code: string) | Unknown

  datatype Request = Request(path: string, body: string, task: string)

  /** The durable record of a step in flight; it has no place for a proof. */
  datatype Record = Record(request: Request, phase: Phase, attempt: string, step: Option<Step>, report: Option<Report>)

  /** A step aicrewd holds under a begin key. */
  datatype Held = Held(step: Step, attempt: string, settled: bool)

  /** A reservation command on its way to aimem, for the record begin. */
  datatype Send = Send(begin: nat, key: nat, step: Step, note: string, task: string, body: Body)

  /** aimem's receipt: the revision a request key was applied at. */
  datatype Receipt = Receipt(revision: nat, send: Send)

  datatype World = World(
    disk: map<nat, Record>,            // the home's records, by begin key
    drawn: set<nat>,                   // the begin keys ever recorded
    sent: multiset<nat>,               // every begin sent
    loose: multiset<nat>,              // begins aicrewd may still process
    declined: multiset<nat>,           // begins it refused with nothing begun
    crew: map<nat, Held>,              // aicrewd's steps, by begin key
    tasks: map<string, seq<Fields>>,   // a task's content at each revision
    mail: set<Send>,                   // commands that reached the network
    commits: map<nat, Receipt>,        // aimem's receipts, by request key
    told: set<(nat, Report)>)          // the reports settled with

  datatype Event =
    // the driver's
    | Save(k: nat, rec: Record)
    | Drop(k: nat)
    | PostBegin(k: nat)
    | PostSend(send: Send)
    | Tell(k: nat, report: Report)
    // the services', and other writers'
    | CrewTakes(k: nat, step: Step, attempt: string)
    | CrewDeclines(k: nat)
    | CrewSettles(k: nat)
    | AimemApplies(send: Send)
    | Edit(task: string, fields: Fields)

  function Rank(p: Phase): nat {
    match p case Begin => 0 case Begun => 1 case Sent => 2
  }

  /** What a record may say of the world it was written in. */
  ghost predicate Sound(w: World, k: nat, rec: Record) {
    && (rec.phase.Begin? ==> rec.step.None? && rec.report.None?)
    && (!rec.phase.Begin? ==> rec.step.Some? && k in w.crew && rec.step.value == w.crew[k].step)
    && (rec.phase.Sent? <==> rec.report.Some?)
    && (rec.report == Some(Committed) ==> rec.step.value.requestKey in w.commits)
  }

  /** The content at the revision a step expects, for a step that writes it. */
  function ReadAt(w: World, task: string, st: Step): Option<Fields> {
    if CarriesContent(st.op) && task in w.tasks && st.expected < |w.tasks[task]| then Some(w.tasks[task][st.expected]) else None
  }

  predicate AtRevision(w: World, task: string, r: nat) {
    task in w.tasks && |w.tasks[task]| == r + 1
  }

  ghost predicate Allowed(w: World, e: Event) {
    match e
    // a new key, never drawn before, or a record that goes on from its own
    case Save(k, rec) =>
      if k in w.disk then
        && rec.request == w.disk[k].request && Rank(w.disk[k].phase) <= Rank(rec.phase) && Sound(w, k, rec)
      else k !in w.drawn && rec.phase.Begin? && Sound(w, k, rec)
    // a settled answer, or the refusal of the only begin ever sent
    case Drop(k) => k in w.disk && ((k in w.crew && w.crew[k].settled) || w.sent[k] == w.declined[k] == 1)
    case PostBegin(k) => k in w.disk
    case PostSend(s) =>
      && s.begin in w.disk && w.disk[s.begin].step == Some(s.step) && s.task == w.disk[s.begin].request.task
      && s.key == s.step.requestKey && Faithful(s.step, s.note, s.body, ReadAt(w, s.task, s.step))
    case Tell(k, report) =>
      && k in w.disk && w.disk[k].step.Some?
      && (report.Committed? ==> w.disk[k].step.value.requestKey in w.commits)
    // the first begin under a key makes a step with a fresh request key
    case CrewTakes(k, step, attempt) =>
      && w.loose[k] > 0 && k !in w.crew && step.requestKey !in w.commits
      && (forall j :: j in w.crew ==> w.crew[j].step.requestKey != step.requestKey)
    case CrewDeclines(k) => w.loose[k] > 0
    case CrewSettles(k) => k in w.crew
    // a request key at most once, and only at the body's revision
    case AimemApplies(s) => s in w.mail && s.key !in w.commits && AtRevision(w, s.task, s.body.expected)
    case Edit(task, fields) => true
  }

  /** A task's content after a command was applied to it. */
  function Applied(before: Fields, body: Body): Fields {
    if body.content.Some? then Written(before, body.content.value) else before
  }

  function Append(tasks: map<string, seq<Fields>>, task: string, fields: Fields): map<string, seq<Fields>> {
    tasks[task := (if task in tasks then tasks[task] else []) + [fields]]
  }

  function After(w: World, e: Event): World {
    match e
    case Save(k, rec) => w.(disk := w.disk[k := rec], drawn := w.drawn + {k})
    case Drop(k) => w.(disk := w.disk - {k})
    case PostBegin(k) => w.(sent := w.sent + multiset{k}, loose := w.loose + multiset{k})
    case PostSend(s) => w.(mail := w.mail + {s})
    case Tell(k, report) =>
      if k in w.disk && w.disk[k].step.Some? then w.(told := w.told + {(w.disk[k].step.value.requestKey, report)}) else w
    case CrewTakes(k, step, attempt) =>
      w.(loose := w.loose - multiset{k}, crew := w.crew[k := Held(step, attempt, false)])
    case CrewDeclines(k) => w.(loose := w.loose - multiset{k}, declined := w.declined + multiset{k})
    case CrewSettles(k) => if k in w.crew then w.(crew := w.crew[k := w.crew[k].(settled := true)]) else w
    case AimemApplies(s) =>
      if AtRevision(w, s.task, s.body.expected) then
        w.(tasks := Append(w.tasks, s.task, Applied(w.tasks[s.task][s.body.expected], s.body)),
           commits := w.commits[s.key := Receipt(s.body.expected, s)])
      else w
    case Edit(task, fields) => w.(tasks := Append(w.tasks, task, fields))
  }

  /** A home without records; the tasks are anything. */
  predicate Start(w: World) {
    && w.disk == map[] && w.drawn == {} && w.crew == map[] && w.mail == {} && w.commits == map[] && w.told == {}
    && w.sent == w.loose == w.declined == multiset{}
  }

  /** A run: the worlds before and after each of its events. */
  ghost predicate IsRun(ws: seq<World>, es: seq<Event>) {
    && |ws| == |es| + 1 && Start(ws[0])
    && forall i {:trigger es[i]} :: 0 <= i < |es| ==> Allowed(ws[i], es[i]) && ws[i + 1] == After(ws[i], es[i])
  }

  // What every state of a run keeps.

  ghost predicate Orphanless(w: World) {
    forall k :: k in w.crew && !w.crew[k].settled ==> k in w.disk
  }

  ghost predicate Keys(w: World) {
    && w.disk.Keys <= w.drawn && w.crew.Keys <= w.drawn
    && (forall j, k :: j in w.crew && k in w.crew && w.crew[j].step.requestKey == w.crew[k].step.requestKey ==> j == k)
  }

  /** Each begin sent under k is on its way, refused, or made the one step. */
  ghost predicate Counted(w: World, k: nat) {
    && (w.sent[k] > 0 ==> k in w.drawn)
    && (w.loose[k] > 0 ==> k in w.disk || k in w.crew)
    && w.loose[k] + w.declined[k] + (if k in w.crew then 1 else 0) <= w.sent[k]
  }

  ghost predicate Begins(w: World) {
    forall k :: Counted(w, k)
  }

  ghost predicate Records(w: World) {
    forall k :: k in w.disk ==> Sound(w, k, w.disk[k])
  }

  ghost predicate Carried(w: World, s: Send) {
    && s.begin in w.crew && s.step == w.crew[s.begin].step && s.key == s.step.requestKey
    && Faithful(s.step, s.note, s.body, ReadAt(w, s.task, s.step))
  }

  ghost predicate Mail(w: World) {
    forall s :: s in w.mail ==> Carried(w, s)
  }

  ghost predicate Received(w: World, key: nat, r: Receipt) {
    && r.send in w.mail && r.send.key == key && r.revision == r.send.body.expected
    && r.send.task in w.tasks && r.revision + 1 < |w.tasks[r.send.task]|
    && w.tasks[r.send.task][r.revision + 1] == Applied(w.tasks[r.send.task][r.revision], r.send.body)
  }

  ghost predicate Receipts(w: World) {
    forall key :: key in w.commits ==> Received(w, key, w.commits[key])
  }

  ghost predicate Told(w: World) {
    forall key :: (key, Committed) in w.told ==> key in w.commits
  }

  ghost predicate Inv(w: World) {
    Orphanless(w) && Keys(w) && Begins(w) && Records(w) && Mail(w) && Receipts(w) && Told(w)
  }

  lemma KeepsOrphanless(w: World, e: Event)
    requires Inv(w) && Allowed(w, e)
    ensures Orphanless(After(w, e))
  {
    if e.CrewTakes? || e.Drop? {
      assert Counted(w, e.k);
    }
  }

  lemma KeepsTold(w: World, e: Event)
    requires Inv(w) && Allowed(w, e)
    ensures Told(After(w, e))
  {
  }

  lemma KeepsKeys(w: World, e: Event)
    requires Inv(w) && Allowed(w, e)
    ensures Keys(After(w, e))
  {
    if e.CrewTakes? {
      assert Counted(w, e.k);
    }
  }

  lemma KeepsBegins(w: World, e: Event)
    requires Inv(w) && Allowed(w, e)
    ensures Begins(After(w, e))
  {
    forall k
      ensures Counted(After(w, e), k)
    {
      assert Counted(w, k);
    }
  }

  /** What never changes: aicrewd's steps, a task's earlier revisions and
      aimem's receipts only ever gain entries. */
  ghost predicate Grows(w: World, w': World) {
    && (forall k :: k in w.crew ==> k in w'.crew && w'.crew[k].step == w.crew[k].step && (w.crew[k].settled ==> w'.crew[k].settled))
    && (forall t :: t in w.tasks ==> t in w'.tasks && w.tasks[t] <= w'.tasks[t])
    && (forall key :: key in w.commits ==> key in w'.commits && w'.commits[key] == w.commits[key])
    && w.mail <= w'.mail && w.told <= w'.told && w.drawn <= w'.drawn
  }

  lemma StepGrows(w: World, e: Event)
    requires Allowed(w, e)
    ensures Grows(w, After(w, e))
  {
  }

  lemma KeepsRecords(w: World, e: Event)
    requires Inv(w) && Allowed(w, e)
    ensures Records(After(w, e))
  {
    var w' := After(w, e);
    StepGrows(w, e);
    forall k | k in w'.disk
      ensures Sound(w', k, w'.disk[k])
    {
      assert k in w.disk || e.Save?;
      if !(e.Save? && e.k == k) {
        assert Sound(w, k, w.disk[k]);
      }
    }
  }

  lemma ReadStays(w: World, w': World, s: Send)
    requires Grows(w, w') && Carried(w, s)
    ensures Carried(w', s)
  {
    if CarriesContent(s.step.op) {
      assert ReadAt(w, s.task, s.step).Some?;
      assert ReadAt(w', s.task, s.step) == ReadAt(w, s.task, s.step);
    }
  }

  lemma KeepsMail(w: World, e: Event)
    requires Inv(w) && Allowed(w, e)
    ensures Mail(After(w, e))
  {
    var w' := After(w, e);
    StepGrows(w, e);
    forall s | s in w'.mail
      ensures Carried(w', s)
    {
      if s !in w.mail {
        assert Sound(w, s.begin, w.disk[s.begin]);
        assert Carried(w, s);
      }
      ReadStays(w, w', s);
    }
  }

  lemma ReceiptStays(w: World, w': World, key: nat)
    requires Grows(w, w') && key in w.commits && Received(w, key, w.commits[key])
    ensures Received(w', key, w'.commits[key])
  {
  }

  lemma ApplyIsReceived(w: World, s: Send)
    requires Allowed(w, AimemApplies(s))
    ensures Received(After(w, AimemApplies(s)), s.key, Receipt(s.body.expected, s))
  {
  }

  lemma KeepsReceipts(w: World, e: Event)
    requires Inv(w) && Allowed(w, e)
    ensures Receipts(After(w, e))
  {
    var w' := After(w, e);
    StepGrows(w, e);
    forall key | key in w'.commits
      ensures Received(w', key, w'.commits[key])
    {
      if key in w.commits {
        assert Received(w, key, w.commits[key]);
        ReceiptStays(w, w', key);
      } else {
        ApplyIsReceived(w, e.send);
      }
    }
  }

  lemma KeepsInv(w: World, e: Event)
    requires Inv(w) && Allowed(w, e)
    ensures Inv(After(w, e))
  {
    KeepsOrphanless(w, e);
    KeepsKeys(w, e);
    KeepsBegins(w, e);
    KeepsRecords(w, e);
    KeepsMail(w, e);
    KeepsReceipts(w, e);
    KeepsTold(w, e);
  }

  /** Every state of every run keeps the invariant. */
  lemma {:induction false} RunsKeepInv(ws: seq<World>, es: seq<Event>, i: nat)
    requires IsRun(ws, es) && i < |ws|
    ensures Inv(ws[i])
  {
    if i > 0 {
      RunsKeepInv(ws, es, i - 1);
      KeepsInv(ws[i - 1], es[i - 1]);
    }
  }
}
