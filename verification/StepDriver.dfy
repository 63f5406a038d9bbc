/** The step driver itself (internal/agent/steps.go:211-531), statement by
    statement, over the protocol's world. Each call that reaches a service or
    the disk ends in its answer, in an answer lost, or with the process killed
    (Died); between two calls the services and other writers may do anything
    the protocol lets them. The driver has the home's records to itself. */
module StepDriver {
  import opened Common
  import opened StepContent
  import opened StepProtocol
  import opened StepTheorems

  /** aimem's exit codes as the driver tells them apart. */
  datatype Exit = Ok0 | Usage2 | Refused3(code: string) | Retryable4 | Lost5 | OtherExit | NotRun | Killed

  datatype Receipt3 = IsCommitted | NotCommitted | Unresolved | Dead

  /** What the driver saw of aimem for one send, in order: a read and a receipt with
      the moment of the run they were taken at. */
  datatype Answer = Read(moved: bool, at: nat) | Ran(exit: Exit) | Looked(state: Receipt3, at: nat)

  datatype BeginReply = Holds(step: Step, attempt: string) | Refusal(code: string, retryable: bool) | NoReply | DiedHere

  datatype SettleReply = Settled(outcome: string) | Pending | Failed | DiedThere

  datatype Io = Done | NoWrite | Cut

  datatype Outcome =
    | Driven(report: Report, settled: bool)
    | Error(text: string)
    | Crashed

  function OfExit(x: Exit): Report {
    match x
    case Ok0 => Committed
    case Refused3(code) => Refused(code)
    case _ => Unknown
  }

  function OfReceipt(s: Receipt3): Report {
    match s
    case IsCommitted => Committed
    case NotCommitted => Refused("not_committed")
    case _ => Unknown
  }

  /** The report a command's answers lead to: a retryable exit is resent up to
      retries times, and a lost reply is looked up once. */
  predicate Answered(runs: seq<Answer>, retries: nat, report: Report) {
    && |runs| > 0
    && var looked := runs[|runs| - 1].Looked?;
       var n := |runs| - (if looked then 1 else 0);
       && 0 < n <= retries + 1
       && (forall i :: 0 <= i < n - 1 ==> runs[i] == Ran(Retryable4))
       && runs[n - 1].Ran?
       && (if looked then runs[n - 1] == Ran(Lost5) && report == OfReceipt(runs[n].state)
           else !runs[n - 1].exit.Lost5? && !runs[n - 1].exit.NotRun? && !runs[n - 1].exit.Killed? && report == OfExit(runs[n - 1].exit)
                && (runs[n - 1].exit.Retryable4? ==> n == retries + 1))
  }

  /** The report the answers of one send lead to. A step that writes content
      reads the task first, and a moved task sends nothing. */
  predicate Concludes(seen: seq<Answer>, content: bool, retries: nat, report: Report) {
    if !content then Answered(seen, retries, report)
    else
      || (|seen| == 1 && seen[0].Read? && seen[0].moved && report == Refused("stale_revision"))
      || (|seen| > 0 && seen[0].Read? && !seen[0].moved && Answered(seen[1..], retries, report))
  }

  /** A content step's answers are its read, then those of the command. */
  lemma AfterRead(seen: seq<Answer>, at: nat, retries: nat, report: Report)
    ensures Concludes([Read(true, at)], true, retries, Refused("stale_revision"))
    ensures Concludes(seen, false, retries, report) ==> Concludes([Read(false, at)] + seen, true, retries, report)
  {
  }

  /** An answer is true of the moment it was taken at. */
  ghost predicate Saw(ws: seq<World>, a: Answer, st: Step, task: string) {
    match a
    case Read(moved, at) => at < |ws| && (moved <==> !AtRevision(ws[at], task, st.expected))
    case Looked(state, at) =>
      && at < |ws| && (state.IsCommitted? ==> st.requestKey in ws[at].commits)
      && (state.NotCommitted? ==> st.requestKey !in ws[at].commits)
    case Ran(_) => true
  }

  ghost predicate Seen(ws: seq<World>, seen: seq<Answer>, st: Step, task: string) {
    forall i :: 0 <= i < |seen| ==> Saw(ws, seen[i], st, task)
  }

  lemma SeenOn(ws: seq<World>, vs: seq<World>, seen: seq<Answer>, more: seq<Answer>, st: Step, task: string)
    requires ws <= vs && Seen(ws, seen, st, task) && Seen(vs, more, st, task)
    ensures Seen(vs, seen + more, st, task)
  {
    hide AtRevision;
    forall i | 0 <= i < |seen + more| ensures Saw(vs, (seen + more)[i], st, task) {
      assert i < |seen| ==> Saw(ws, seen[i], st, task);
      assert i >= |seen| ==> Saw(vs, more[i - |seen|], st, task);
    }
  }

  /** Why a report of answers seen is right: aimem took the command, or its receipt
      says so; aimem refused it with the code, the task was at another revision, or
      the receipt says that the key was not committed when it was read; or nothing
      is known, the command not answered for sure and no receipt telling. */
  ghost predicate Grounded(ws: seq<World>, seen: seq<Answer>, st: Step, task: string, retries: nat, report: Report) {
    && seen != []
    && var last := seen[|seen| - 1];
       match report
       case Committed => last == Ran(Ok0) || (last.Looked? && last.state.IsCommitted?)
       case Refused(code) =>
         || (code == "stale_revision" && CarriesContent(st.op) && |seen| == 1 && last.Read?
             && last.at < |ws| && !AtRevision(ws[last.at], task, st.expected))
         || last == Ran(Refused3(code))
         || (code == "not_committed" && last.Looked? && last.at < |ws| && st.requestKey !in ws[last.at].commits)
       case Unknown =>
         || last == Ran(Usage2) || last == Ran(OtherExit)
         || (last == Ran(Retryable4) && |seen| > retries && forall i :: |seen| - 1 - retries <= i < |seen| ==> seen[i] == Ran(Retryable4))
         || (last.Looked? && (last.state.Unresolved? || last.state.Dead?) && |seen| > 1 && seen[|seen| - 2] == Ran(Lost5))
  }

  /** What the answers of a send conclude is right. */
  lemma ConcludedIsGrounded(ws: seq<World>, seen: seq<Answer>, st: Step, task: string, retries: nat, report: Report)
    requires Concludes(seen, CarriesContent(st.op), retries, report) && Seen(ws, seen, st, task)
    ensures Grounded(ws, seen, st, task, retries, report)
  {
    hide AtRevision, CarriesContent;
    assert Saw(ws, seen[|seen| - 1], st, task);
    if CarriesContent(st.op) && !seen[0].moved {
      var runs := seen[1..];
      assert forall i :: 0 <= i < |runs| ==> runs[i] == seen[i + 1];
    }
  }

  /** What a send's report rests on: its answers, each true when it was taken. */
  ghost predicate Rests(ws: seq<World>, seen: seq<Answer>, st: Step, task: string, retries: nat, report: Report) {
    && Concludes(seen, CarriesContent(st.op), retries, report) && Seen(ws, seen, st, task)
    && Grounded(ws, seen, st, task, retries, report)
  }

  lemma RestsOn(ws: seq<World>, vs: seq<World>, seen: seq<Answer>, st: Step, task: string, retries: nat, report: Report)
    requires ws <= vs && Concludes(seen, CarriesContent(st.op), retries, report) && Seen(ws, seen, st, task)
    ensures Rests(vs, seen, st, task, retries, report)
  {
    hide Concludes, CarriesContent, Saw, Grounded;
    SeenOn(ws, vs, seen, [], st, task);
    assert seen + [] == seen;
    ConcludedIsGrounded(vs, seen, st, task, retries, report);
  }

  function ResultNote(attempt: string, agent: string): string {
    ATTEMPT_MARK + attempt + " by member " + agent
  }

  /** A key above every key drawn. */
  lemma {:induction false} KeyAbove(s: set<nat>) returns (k: nat)
    ensures forall x :: x in s ==> x < k
  {
    k := 0;
    if s != {} {
      var x :| x in s;
      var above := KeyAbove(s - {x});
      k := if x < above then above else x + 1;
      assert forall y :: y in s ==> y == x || y in s - {x};
    }
  }

  lemma {:induction false} DistinctCount(ks: seq<nat>, s: set<nat>)
    requires forall k :: k in ks <==> k in s
    requires forall i, j :: 0 <= i < j < |ks| ==> ks[i] != ks[j]
    ensures |ks| == |s|
  {
    if ks == [] {
      assert s == {};
    } else {
      var k := ks[|ks| - 1];
      var rest := ks[..|ks| - 1];
      assert ks == rest + [k];
      assert forall x :: x in rest <==> x in s - {k};
      DistinctCount(rest, s - {k});
    }
  }

  /** Every record but k's is as it was. */
  predicate SameBut(a: map<nat, Record>, b: map<nat, Record>, k: nat) {
    && (forall j :: j in a && j != k ==> j in b && b[j] == a[j])
    && (forall j :: j in b && j != k ==> j in a)
  }

  lemma GrowsSame(w: World)
    ensures Grows(w, w)
  {
  }

  lemma StepStays(a: World, b: World, k: nat)
    requires Grows(a, b) && k in a.crew
    ensures k in b.crew && b.crew[k].step == a.crew[k].step
  {
  }

  lemma SettledStays(a: World, b: World)
    requires Grows(a, b)
    ensures forall k :: k in a.crew && a.crew[k].settled ==> k in b.crew && b.crew[k].settled
  {
  }

  lemma RecordSound(w: World, k: nat)
    requires Inv(w) && k in w.disk
    ensures Sound(w, k, w.disk[k]) && k in w.drawn
  {
  }

  lemma BeginsCounted(w: World, k: nat)
    requires Inv(w)
    ensures Counted(w, k) && (k in w.disk ==> k in w.drawn) && (k in w.crew ==> k in w.drawn)
  {
  }

  class Driver {
    const agent: string
    const retries: nat
    ghost var worlds: seq<World>
    ghost var events: seq<Event>
    var w: World
    ghost var answers: seq<Answer>

    /** The world is where the driver's events, among all others, have led. */
    ghost predicate Valid()
      reads this
    {
      IsRun(worlds, events) && worlds[|events|] == w && Inv(w)
    }

    /** The run went on. */
    twostate predicate Goes()
      reads this
    {
      Valid() && old(worlds) <= worlds && old(events) <= events && Grows(old(w), w)
    }

    constructor (agent: string, retries: nat, world: World)
      requires Start(world)
      ensures Valid() && w == world && events == [] && this.agent == agent && this.retries == retries
    {
      this.agent, this.retries := agent, retries;
      worlds, events, w, answers := [world], [], world, [];
    }

    /** The only way the world changes. */
    method Happen(e: Event)
      requires Valid() && Allowed(w, e)
      modifies `w, `worlds, `events
      ensures Goes() && w == After(old(w), e)
    {
      hide Inv, IsRun, Allowed;
      KeepsInv(w, e);
      StepGrows(w, e);
      Extend(worlds, events, e);
      w := After(w, e);
      worlds := worlds + [w];
      events := events + [e];
    }

    /** What may happen beside the driver, any number of times: the services
        process what is on its way, other members settle, other writers edit. */
    twostate predicate Beside()
      reads this
    {
      && w.disk == old(w.disk) && w.drawn == old(w.drawn) && w.sent == old(w.sent) && w.told == old(w.told)
      && w.mail == old(w.mail)
      && Goes()
    }

    method Others()
      requires Valid()
      modifies `w, `worlds, `events
      ensures Beside()
    {
      hide Inv, IsRun, Grows;
      GrowsSame(w);
      var rounds: nat := *;
      var i := 0;
      while i < rounds
        invariant Beside()
      {
        ghost var before := w;
        var choice: nat, k: nat, step: Step, text: string, fields: Fields := *, *, *, *, *;
        if choice == 0 && k in w.crew {
          Happen(CrewSettles(k));
        } else if choice == 1 && w.loose[k] > 0 && k !in w.crew && step.requestKey !in w.commits
                  && forall j | j in w.crew :: w.crew[j].step.requestKey != step.requestKey {
          Happen(CrewTakes(k, step, text));
        } else if choice == 2 && w.loose[k] > 0 {
          Happen(CrewDeclines(k));
        } else if choice == 3 {
          Happen(Edit(text, fields));
        } else if choice == 4 {
          var s: Send := *;
          if s in w.mail && s.key !in w.commits && AtRevision(w, s.task, s.body.expected) {
            Happen(AimemApplies(s));
          }
        }
        GrowsOn(old(w), before, w);
        i := i + 1;
      }
    }

    /** An atomic write: done, failed with no change, or cut on either side. */
    method SaveRecord(k: nat, rec: Record) returns (io: Io)
      requires Valid() && Allowed(w, Save(k, rec))
      modifies `w, `worlds, `events
      ensures Goes()
      ensures io.Done? ==> w == After(old(w), Save(k, rec))
      ensures io.NoWrite? ==> w == old(w)
      ensures w == old(w) || w == After(old(w), Save(k, rec))
    {
      hide Inv, IsRun, Grows;
      GrowsSame(w);
      var fails, dies: bool := *, *;
      if !fails {
        Happen(Save(k, rec));
      }
      io := if dies then Cut else if fails then NoWrite else Done;
    }

    method DropRecord(k: nat) returns (io: Io)
      requires Valid() && Allowed(w, Drop(k))
      modifies `w, `worlds, `events
      ensures Goes()
      ensures io.Done? ==> w == After(old(w), Drop(k))
      ensures io.NoWrite? ==> w == old(w)
      ensures w == old(w) || w == After(old(w), Drop(k))
    {
      hide Inv, IsRun, Grows;
      GrowsSame(w);
      var fails, dies: bool := *, *;
      if !fails {
        Happen(Drop(k));
      }
      io := if dies then Cut else if fails then NoWrite else Done;
    }

    /** aicrewd's answer to one begin. A replay answers the step the key has;
        an answer that refuses the only begin sent means nothing began. */
    method BeginStep(k: nat) returns (r: BeginReply)
      requires Valid() && k in w.disk
      modifies `w, `worlds, `events
      ensures Goes()
      ensures w.disk == old(w.disk) && w.drawn == old(w.drawn) && w.told == old(w.told)
      ensures w.sent == old(w.sent) + multiset{k}
      ensures r.Holds? ==> k in w.crew && w.crew[k].step == r.step
      ensures r.Refusal? && !r.retryable && old(w.sent[k]) == 0 ==> w.declined[k] == 1
    {
      hide Inv, IsRun, Grows;
      BeginsCounted(w, k);
      Happen(PostBegin(k));
      ghost var posted := w;
      Others();
      GrowsOn(old(w), posted, w);
      BeginsCounted(w, k);
      var lost, dies, refuses, retryable: bool := *, *, *, *;
      var code: string := *;
      if dies {
        return DiedHere;
      }
      if lost {
        return NoReply;
      }
      if k in w.crew {
        var held := w.crew[k];
        if w.sent[k] > 1 && held.settled {
          return Refusal(if retryable then "step_settled" else "attempt_state", false);
        }
        if w.sent[k] > 1 && refuses {
          return Refusal(code, retryable);
        }
        return Holds(held.step, held.attempt);
      }
      if w.loose[k] == 0 {
        return Refusal(code, w.declined[k] != 1);
      }
      var step: Step := *;
      if !refuses && step.requestKey !in w.commits && forall j | j in w.crew :: w.crew[j].step.requestKey != step.requestKey {
        ghost var taking := w;
        Happen(CrewTakes(k, step, code));
        GrowsOn(old(w), taking, w);
        return Holds(step, code);
      }
      ghost var declining := w;
      Happen(CrewDeclines(k));
      GrowsOn(old(w), declining, w);
      return Refusal(code, retryable);
    }

    /** A report settled: aicrewd learns the outcome itself. */
    method SettleStep(k: nat, report: Report) returns (r: SettleReply)
      requires Valid() && Allowed(w, Tell(k, report))
      modifies `w, `worlds, `events
      ensures Goes()
      ensures w.disk == old(w.disk) && w.drawn == old(w.drawn) && w.sent == old(w.sent)
      ensures w.told == old(w.told) + {(w.disk[k].step.value.requestKey, report)}
      ensures r.Settled? ==> k in w.crew && w.crew[k].settled
    {
      hide Inv, IsRun, Grows;
      RecordSound(w, k);
      Happen(Tell(k, report));
      ghost var told := w;
      Others();
      GrowsOn(old(w), told, w);
      var choice: nat, outcome: string := *, *;
      if choice == 0 {
        ghost var settling := w;
        Happen(CrewSettles(k));
        GrowsOn(old(w), settling, w);
        return Settled(outcome);
      }
      r := if choice == 1 then Pending else if choice == 2 then Failed else DiedThere;
    }

    /** A task read: the content at the task's current revision, or nothing. */
    method GetTask(task: string) returns (doc: Option<(nat, Fields)>)
      requires Valid()
      modifies `w, `worlds, `events
      ensures Beside()
      ensures doc.Some? ==> AtRevision(w, task, doc.value.0) && w.tasks[task][doc.value.0] == doc.value.1
    {
      hide Inv, IsRun, Grows;
      Others();
      var reached: bool := *;
      if !reached || task !in w.tasks || w.tasks[task] == [] {
        return None;
      }
      var h := w.tasks[task];
      return Some((|h| - 1, h[|h| - 1]));
    }

    /** One reservation command: aimem applies it now, later or never. */
    method Reservation(s: Send) returns (x: Exit)
      requires Valid() && Allowed(w, PostSend(s))
      modifies `w, `worlds, `events, `answers
      ensures Goes()
      ensures w.disk == old(w.disk) && w.drawn == old(w.drawn) && w.sent == old(w.sent) && w.told == old(w.told)
      ensures x.Ok0? ==> s.key in w.commits
      ensures answers == old(answers) + [Ran(x)]
    {
      hide Inv, IsRun, Grows;
      Happen(PostSend(s));
      ghost var posted := w;
      Others();
      GrowsOn(old(w), posted, w);
      var now: bool := *;
      if now && s.key !in w.commits && AtRevision(w, s.task, s.body.expected) {
        ghost var applying := w;
        Happen(AimemApplies(s));
        GrowsOn(old(w), applying, w);
      }
      x := *;
      if x.Ok0? && s.key !in w.commits {
        x := Lost5;
      }
      answers := answers + [Ran(x)];
    }

    /** aimem's receipt for a request key, as it stands when it is read. */
    method LookUp(key: nat) returns (state: Receipt3)
      requires Valid()
      modifies `w, `worlds, `events, `answers
      ensures Beside()
      ensures state.IsCommitted? ==> key in w.commits
      ensures state.NotCommitted? ==> key !in w.commits
      ensures answers == old(answers) + [Looked(state, |events|)] && |worlds| == |events| + 1 && worlds[|events|] == w
    {
      hide Inv, IsRun, Grows;
      Others();
      var choice: nat := *;
      state := if choice == 0 then Dead else if choice == 1 then Unresolved else if key in w.commits then IsCommitted else NotCommitted;
      answers := answers + [Looked(state, |events|)];
      assert |worlds| == |events| + 1 by { WorldsLong(); }
    }

    /** send's read: the task's content at the step's expected revision, for a
        step that writes it; at another revision nothing may be sent. */
    method ReadContent(st: Step, task: string) returns (stop: Option<(Option<Report>, bool)>, content: Option<Fields>)
      requires Valid()
      modifies `w, `worlds, `events, `answers
      ensures Beside() && old(answers) <= answers
      ensures stop.None? ==> content == ReadAt(w, task, st)
      ensures stop.None? ==> (CarriesContent(st.op) ==> content.Some?)
                             && answers == old(answers) + (if CarriesContent(st.op) then [Read(false, |events|)] else [])
      ensures stop.Some? ==> stop.value.0 == None
                             || (stop == Some((Some(Refused("stale_revision")), false)) && CarriesContent(st.op)
                                 && answers == old(answers) + [Read(true, |events|)])
      ensures Seen(worlds, answers[|old(answers)|..], st, task)
      ensures stop.Some? && stop.value.1 ==> stop.value.0 == None
    {
      hide Inv, IsRun, Grows;
      GrowsSame(w);
      if !CarriesContent(st.op) {
        return None, None;
      }
      var doc := GetTask(task);
      assert |worlds| == |events| + 1 by { WorldsLong(); }
      if doc.None? {
        var dies: bool := *;
        return Some((None, dies)), None;
      }
      if doc.value.0 != st.expected {
        answers := answers + [Read(true, |events|)];
        return Some((Some(Refused("stale_revision")), false)), None;
      }
      answers := answers + [Read(false, |events|)];
      return None, Some(doc.value.1);
    }

    /** send: composes the step's body, runs it through aimem and maps aimem's
        answer to a report; None when nothing is known to report. */
    method SendStep(k: nat, p: Record, proof: string) returns (rep: Option<Report>, died: bool)
      requires Valid() && k in w.disk && w.disk[k] == p && p.phase.Begun?
      modifies `w, `worlds, `events, `answers
      ensures Goes()
      ensures w.disk == old(w.disk) && w.drawn == old(w.drawn) && w.sent == old(w.sent) && w.told == old(w.told)
      ensures p.step.Some? && k in w.crew
      ensures rep == Some(Committed) ==> p.step.value.requestKey in w.commits
      ensures old(answers) <= answers
      ensures rep.Some? ==> Concludes(answers[|old(answers)|..], CarriesContent(p.step.value.op), retries, rep.value)
      ensures rep.Some? ==> Seen(worlds, answers[|old(answers)|..], p.step.value, p.request.task)
      ensures died ==> rep.None?
      ensures p.step.value.evidence != [] && Refs(p.step.value.evidence) != p.step.value.terminal ==>
                rep.None? && answers == old(answers) && w == old(w)
    {
      hide Inv, IsRun, Grows, Concludes, Faithful, ReadAt;
      RecordSound(w, k);
      GrowsSame(w);
      var st := p.step.value;
      var matches := CheckEvidence(st);
      if !matches {
        return None, false;
      }
      var stop, task := ReadContent(st, p.request.task);
      RecordSound(w, k);
      if stop.Some? {
        AfterRead([], |events|, retries, Unknown);
        assert stop.value.0.Some? ==> answers[|old(answers)|..] == [Read(true, |events|)];
        return stop.value.0, stop.value.1;
      }
      ghost var composed, seen, before := w, answers, worlds;
      ghost var at := |events|;
      rep, died := ComposeAndRun(k, p, st, proof, task);
      GrowsOn(old(w), composed, w);
      RecordSound(w, k);
      if rep.Some? {
        AfterRead(answers[|seen|..], at, retries, rep.value);
        assert answers[|old(answers)|..] == seen[|old(answers)|..] + answers[|seen|..];
        SeenOn(before, worlds, seen[|old(answers)|..], answers[|seen|..], st, p.request.task);
      }
    }

    method ComposeAndRun(k: nat, p: Record, st: Step, proof: string, task: Option<Fields>) returns (rep: Option<Report>, died: bool)
      requires Valid() && k in w.disk && w.disk[k] == p && p.step == Some(st)
      requires task == ReadAt(w, p.request.task, st)
      modifies `w, `worlds, `events, `answers
      ensures Goes()
      ensures w.disk == old(w.disk) && w.drawn == old(w.drawn) && w.sent == old(w.sent) && w.told == old(w.told)
      ensures rep == Some(Committed) ==> st.requestKey in w.commits
      ensures old(answers) <= answers
      ensures rep.Some? ==> Concludes(answers[|old(answers)|..], false, retries, rep.value)
      ensures rep.Some? ==> Seen(worlds, answers[|old(answers)|..], st, p.request.task)
      ensures died ==> rep.None?
    {
      hide Inv, IsRun, Grows, Concludes, Faithful, ReadAt, Saw;
      GrowsSame(w);
      var note := ResultNote(p.attempt, agent);
      var body := ComposeBody(st, proof, task, note);
      if body.Err? {
        return None, false;
      }
      rep, died := RunSend(k, Send(k, st.requestKey, st, note, p.request.task, body.value));
    }

    /** The send's retry loop: the same command, body and key each time. */
    method RunSend(k: nat, s: Send) returns (rep: Option<Report>, died: bool)
      requires Valid() && Allowed(w, PostSend(s)) && s.begin == k
      modifies `w, `worlds, `events, `answers
      ensures Goes()
      ensures w.disk == old(w.disk) && w.drawn == old(w.drawn) && w.sent == old(w.sent) && w.told == old(w.told)
      ensures rep == Some(Committed) ==> s.key in w.commits
      ensures old(answers) <= answers
      ensures rep.Some? ==> Concludes(answers[|old(answers)|..], false, retries, rep.value)
      ensures rep.Some? ==> Seen(worlds, answers[|old(answers)|..], s.step, s.task)
      ensures died ==> rep.None?
    {
      hide Inv, IsRun, Grows, Faithful, ReadAt, Allowed;
      assert s.key == s.step.requestKey by { SendsItsKey(w, s); }
      GrowsSame(w);
      var attempt := 0;
      while true
        invariant Goes() && Allowed(w, PostSend(s))
        invariant w.disk == old(w.disk) && w.drawn == old(w.drawn) && w.sent == old(w.sent) && w.told == old(w.told)
        invariant 0 <= attempt <= retries
        invariant |answers| == |old(answers)| + attempt && old(answers) <= answers
        invariant forall i :: |old(answers)| <= i < |answers| ==> answers[i] == Ran(Retryable4)
        decreases retries - attempt
      {
        ghost var before := w;
        var x := Reservation(s);
        GrowsOn(old(w), before, w);
        SendStaysAllowed(before, w, s);
        if x.NotRun? || x.Killed? {
          return None, x.Killed?;
        }
        if x.Lost5? {
          ghost var lost := w;
          rep, died := Reconcile(s.key);
          GrowsOn(old(w), lost, w);
          return;
        }
        if x.Retryable4? && attempt < retries {
          var slept, dies: bool := *, *;
          if !slept {
            return None, dies;
          }
          attempt := attempt + 1;
          continue;
        }
        return Some(OfExit(x)), false;
      }
    }

    /** reconcile: the receipt of a step whose reply was lost. */
    method Reconcile(key: nat) returns (rep: Option<Report>, died: bool)
      requires Valid()
      modifies `w, `worlds, `events, `answers
      ensures Beside()
      ensures rep == Some(Committed) ==> key in w.commits
      ensures |answers| == |old(answers)| + 1 && old(answers) <= answers && answers[|old(answers)|].Looked?
      ensures rep.Some? ==> rep.value == OfReceipt(answers[|old(answers)|].state)
      ensures rep.Some? && rep.value.Refused? ==> rep.value.code == "not_committed" && key !in w.commits
      ensures rep.Some? ==> var state := answers[|old(answers)|].state;
              && (rep.value == Unknown <==> state.Unresolved? || state.Dead?) && (rep.value == Committed <==> state.IsCommitted?)
      ensures var a := answers[|old(answers)|];
              a.at < |worlds| && worlds[a.at] == w && (a.state.IsCommitted? ==> key in w.commits) && (a.state.NotCommitted? ==> key !in w.commits)
      ensures died ==> rep.None?
    {
      hide Inv, IsRun, Grows;
      var state := LookUp(key);
      died := *;
      if died {
        return None, true;
      }
      rep := Some(OfReceipt(state));
    }

    lemma SendsItsKey(a: World, s: Send)
      requires Allowed(a, PostSend(s))
      ensures s.key == s.step.requestKey
    {
    }

    lemma WorldsLong()
      requires Valid()
      ensures |worlds| == |events| + 1
    {
    }

    lemma SendStaysAllowed(a: World, b: World, s: Send)
      requires Allowed(a, PostSend(s)) && Grows(a, b) && b.disk == a.disk
      ensures Allowed(b, PostSend(s))
    {
    }

    /** What one drive of the record under k leaves, however it ended. */
    twostate predicate Left(k: nat, isFirst: bool)
      requires k in old(w.disk)
      reads this
    {
      && Goes() && w.drawn == old(w.drawn)
      && SameBut(old(w.disk), w.disk, k) && (k in w.disk ==> w.disk[k].request == old(w.disk)[k].request)
      && (k !in w.disk ==> (k in w.crew && w.crew[k].settled) || (isFirst && w.sent[k] == w.declined[k] == 1))
    }

    /** drive's begin: the step's first, or a replay under its recorded key,
        whose answer is recorded before anything is sent. A settled step goes
        straight to its settle; the refusal of the first begin drops the record. */
    method BeginAgain(k: nat, rec: Record, isFirst: bool) returns (stop: Option<Outcome>, p: Record, proof: string, ghost answer: BeginReply)
      requires Valid() && k in w.disk && w.disk[k] == rec && !rec.phase.Sent?
      requires isFirst ==> rec.phase.Begin? && w.sent[k] == 0
      modifies `w, `worlds, `events
      ensures Left(k, isFirst)
      ensures stop.Some? ==> !stop.value.Driven?
      ensures stop.None? ==> k in w.disk
      ensures match answer
              case DiedHere => stop == Some(Crashed) && w.disk == old(w.disk)
              case NoReply => stop.Some? && w.disk == old(w.disk)
              case Refusal(code, retryable) =>
                if (code == "step_settled" || code == "attempt_state") && rec.step.Some? then stop.None? && p.phase.Sent? && w.disk == old(w.disk)
                else stop.Some? && (if !retryable && isFirst then stop.value.Error? ==> k !in w.disk || w.disk == old(w.disk) else w.disk == old(w.disk))
              case Holds(step, attempt) =>
                if rec.step.Some? && step.requestKey != rec.step.value.requestKey then stop.Some? && w.disk == old(w.disk)
                else stop.None? ==> p == Record(rec.request, Begun, attempt, Some(step), None)
      ensures answer.Refusal? && !answer.retryable && isFirst && stop == Some(Error(answer.code)) ==> k !in w.disk
      ensures stop.None? ==> if p.phase.Begun? then w.disk[k] == p
                             else p.phase.Sent? && rec.phase.Begun? && p.report == Some(Unknown) && w.disk[k] == rec
    {
      hide Inv, IsRun, Grows;
      RecordSound(w, k);
      p := rec;
      proof := "";
      var b := BeginStep(k);
      answer := b;
      match b {
        case DiedHere => stop := Some(Crashed);
        case NoReply => stop := Some(Error("aicrewd was not reached"));
        case Refusal(code, retryable) =>
          if (code == "step_settled" || code == "attempt_state") && p.step.Some? {
            stop, p := None, p.(phase := Sent, report := Some(Unknown));
          } else if !retryable && isFirst {
            ghost var refused := w;
            var io := DropRecord(k);
            GrowsOn(old(w), refused, w);
            stop := Some(if io.Cut? then Crashed else Error(if io.Done? then code else code + ": the record was not dropped"));
          } else {
            stop := Some(Error(code));
          }
        case Holds(step, attempt) =>
          if p.step.Some? && step.requestKey != p.step.value.requestKey {
            stop := Some(Error("the begin answered another request key"));
          } else {
            proof := *;
            p := p.(phase := Begun, attempt := attempt, step := Some(step), report := None);
            ghost var held := w;
            var io := SaveRecord(k, p);
            GrowsOn(old(w), held, w);
            stop := if io.Done? then None else Some(if io.Cut? then Crashed else Error("record the step"));
          }
      }
    }

    /** drive's send: aimem's answer, recorded before it is settled. */
    method SendAndRecord(k: nat, rec: Record, proof: string) returns (stop: Option<Outcome>, p: Record)
      requires Valid() && k in w.disk && w.disk[k] == rec && rec.phase.Begun?
      modifies `w, `worlds, `events, `answers
      ensures Left(k, false) && k in w.disk && old(answers) <= answers
      ensures rec.step.Some? && k in w.crew && w.crew[k].step == rec.step.value
      ensures stop.Some? ==> !stop.value.Driven?
      ensures stop.None? ==> p.phase.Sent? && w.disk[k] == p && p.report.Some?
      ensures stop.None? ==> Rests(worlds, answers[|old(answers)|..], rec.step.value, rec.request.task, retries, p.report.value)
    {
      hide Inv, IsRun, Grows, Concludes, Seen, Grounded, CarriesContent;
      RecordSound(w, k);
      p := rec;
      var rep, died := SendStep(k, p, proof);
      RecordSound(w, k);
      if rep.None? {
        return Some(if died then Crashed else Error("the step was not sent")), p;
      }
      p := p.(phase := Sent, report := rep);
      ghost var answered, before := w, worlds;
      var io := SaveRecord(k, p);
      GrowsOn(old(w), answered, w);
      RestsOn(before, worlds, answers[|old(answers)|..], rec.step.value, rec.request.task, retries, rep.value);
      stop := if io.Done? then None else Some(if io.Cut? then Crashed else Error("record the step"));
    }

    /** drive: a recorded step from its phase to its settle. */
    method Drive(k: nat, rec: Record, isFirst: bool) returns (r: Outcome)
      requires Valid() && k in w.disk && w.disk[k] == rec
      requires isFirst ==> rec.phase.Begin? && w.sent[k] == 0
      modifies `w, `worlds, `events, `answers
      ensures Left(k, isFirst) && old(answers) <= answers
      ensures r.Driven? ==> k in w.crew && (w.crew[k].step.requestKey, r.report) in w.told
      ensures r.Driven? ==> (r.settled <==> k !in w.disk)
      ensures r.Driven? && rec.phase.Sent? ==> rec.report == Some(r.report) && answers == old(answers)
      ensures r.Driven? && !rec.phase.Sent? ==>
                Rests(worlds, answers[|old(answers)|..], w.crew[k].step, rec.request.task, retries, r.report)
                || (rec.phase.Begun? && r.report == Unknown && answers == old(answers))
    {
      hide Inv, IsRun, Grows, Concludes, After, CarriesContent, Seen, Grounded;
      RecordSound(w, k);
      GrowsSame(w);
      var p := rec;
      if !p.phase.Sent? {
        var stop;
        stop, p := BeginAndSend(k, rec, isFirst);
        if stop.Some? {
          return stop.value;
        }
      }
      ghost var settling, before := w, worlds;
      r := Settle(k, p.report.value);
      if Rests(before, answers[|old(answers)|..], settling.crew[k].step, rec.request.task, retries, p.report.value) {
        RestsOn(before, worlds, answers[|old(answers)|..], settling.crew[k].step, rec.request.task, retries, p.report.value);
      }
      StepStays(settling, w, k);
      GrowsOn(old(w), settling, w);
    }

    /** drive's begin and send, up to a report that aimem's answers conclude, or
        that the step was settled already. */
    method BeginAndSend(k: nat, rec: Record, isFirst: bool) returns (stop: Option<Outcome>, p: Record)
      requires Valid() && k in w.disk && w.disk[k] == rec && !rec.phase.Sent?
      requires isFirst ==> rec.phase.Begin? && w.sent[k] == 0
      modifies `w, `worlds, `events, `answers
      ensures Left(k, isFirst) && old(answers) <= answers
      ensures stop.Some? ==> !stop.value.Driven?
      ensures stop.None? ==> k in w.disk && p.phase.Sent? && p.report.Some? && k in w.crew && Allowed(w, Tell(k, p.report.value))
      ensures stop.None? ==>
                Rests(worlds, answers[|old(answers)|..], w.crew[k].step, rec.request.task, retries, p.report.value)
                || (rec.phase.Begun? && p.report == Some(Unknown) && answers == old(answers))
    {
      hide Inv, IsRun, Grows, Concludes, After, CarriesContent, Seen, Grounded, Rests;
      RecordSound(w, k);
      var went, proof;
      ghost var answer;
      stop, went, proof, answer := BeginAgain(k, rec, isFirst);
      p := went;
      if stop.Some? {
        return;
      }
      RecordSound(w, k);
      if p.phase.Begun? {
        ghost var sending := w;
        stop, p := SendAndRecord(k, p, proof);
        StepStays(sending, w, k);
        GrowsOn(old(w), sending, w);
        RecordSound(w, k);
      }
    }

    /** settle: a settled step's record is dropped, a pending one is kept. */
    method Settle(k: nat, report: Report) returns (r: Outcome)
      requires Valid() && Allowed(w, Tell(k, report))
      modifies `w, `worlds, `events
      ensures Goes() && w.drawn == old(w.drawn)
      ensures SameBut(old(w.disk), w.disk, k) && (k in w.disk ==> w.disk[k].request == old(w.disk)[k].request)
      ensures k !in w.disk ==> k in w.crew && w.crew[k].settled
      ensures r.Driven? ==> r.report == report && (r.settled <==> k !in w.disk)
      ensures k in w.crew && (w.crew[k].step.requestKey, report) in w.told
    {
      hide Inv, IsRun, Grows;
      RecordSound(w, k);
      var reply := SettleStep(k, report);
      RecordSound(w, k);
      match reply {
        case Settled(outcome) =>
          ghost var settled := w;
          var io := DropRecord(k);
          GrowsOn(old(w), settled, w);
          return if io.Done? then Driven(report, true) else if io.Cut? then Crashed else Error("drop the settled step's record");
        case Pending => return Driven(report, false);
        case Failed => return Error("settle");
        case DiedThere => return Crashed;
      }
    }

    /** Run: a new step under a new begin key, recorded before it is begun. */
    method Run(req: Request) returns (r: Outcome, k: nat)
      requires Valid()
      modifies `w, `worlds, `events, `answers
      ensures Goes() && old(answers) <= answers
      ensures k !in old(w.drawn) && w.drawn <= old(w.drawn) + {k}
      ensures SameBut(old(w.disk), w.disk, k)
      ensures k in w.disk ==> w.disk[k].request == req
      ensures r.Driven? ==> k in w.crew && (w.crew[k].step.requestKey, r.report) in w.told && (r.settled <==> k !in w.disk)
      ensures r.Driven? ==> Rests(worlds, answers[|old(answers)|..], w.crew[k].step, req.task, retries, r.report)
      ensures k !in w.disk ==> k !in w.drawn || (k in w.crew && w.crew[k].settled) || w.sent[k] == w.declined[k] == 1
    {
      hide Inv, IsRun, Grows;
      ghost var above := KeyAbove(w.drawn);
      assert above !in w.drawn;
      k :| k !in w.drawn;
      BeginsCounted(w, k);
      var p := Record(req, Begin, "", None, None);
      var io := SaveRecord(k, p);
      if !io.Done? {
        return if io.Cut? then Crashed else Error("record the step"), k;
      }
      ghost var saved := w;
      r := Drive(k, p, true);
      GrowsOn(old(w), saved, w);
    }

    /** The begin keys of the recorded steps. */
    method PendingKeys() returns (ks: seq<nat>)
      ensures forall k :: k in ks <==> k in w.disk
      ensures forall i, j :: 0 <= i < j < |ks| ==> ks[i] != ks[j]
    {
      ks := [];
      var left := w.disk.Keys;
      while left != {}
        invariant left <= w.disk.Keys
        invariant forall k :: k in ks <==> k in w.disk.Keys - left
        invariant forall i, j :: 0 <= i < j < |ks| ==> ks[i] != ks[j]
        decreases |left|
      {
        var k :| k in left;
        left := left - {k};
        ks := ks + [k];
      }
    }

    /** Recover: every recorded step with its recorded keys, each on its own;
        a record leaves the home only when its step settled. */
    method Recover() returns (outs: seq<Outcome>, crashed: bool)
      requires Valid()
      modifies `w, `worlds, `events, `answers
      ensures Goes() && w.drawn == old(w.drawn)
      ensures w.disk.Keys <= old(w.disk).Keys
      ensures forall k :: k in old(w.disk) && k !in w.disk ==> k in w.crew && w.crew[k].settled
      ensures !crashed ==> |outs| == |old(w.disk)|
    {
      hide Inv, IsRun, Grows;
      var ks := PendingKeys();
      DistinctCount(ks, w.disk.Keys);
      outs := [];
      GrowsSame(w);
      for i := 0 to |ks|
        invariant Goes() && w.drawn == old(w.drawn)
        invariant w.disk.Keys <= old(w.disk).Keys && |outs| == i
        invariant forall j :: i <= j < |ks| ==> ks[j] in w.disk && w.disk[ks[j]] == old(w.disk)[ks[j]]
        invariant forall k :: k in old(w.disk) && k !in w.disk ==> k in w.crew && w.crew[k].settled
      {
        ghost var was := w;
        var r := Drive(ks[i], w.disk[ks[i]], false);
        GrowsOn(old(w), was, w);
        SettledStays(was, w);
        forall j | i < j < |ks|
          ensures ks[j] in w.disk && w.disk[ks[j]] == old(w.disk)[ks[j]]
        {
          assert ks[j] != ks[i];
        }
        outs := outs + [r];
        if r.Crashed? {
          return outs, true;
        }
      }
      crashed := false;
    }
  }
}
