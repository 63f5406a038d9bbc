/** What the step protocol promises, over every run of its machine. */
module StepTheorems {
  import opened Common
  import opened StepContent
  import opened StepProtocol

  /** No orphaned step: at every moment of every run, a crash at it included,
      a step aicrewd holds unsettled has its record in the home, and so has a
      begin it may still process. */
  lemma NoOrphanedStep(ws: seq<World>, es: seq<Event>, i: nat, k: nat)
    requires IsRun(ws, es) && i < |ws|
    ensures k in ws[i].crew && !ws[i].crew[k].settled ==> k in ws[i].disk
    ensures ws[i].loose[k] > 0 && k !in ws[i].crew ==> k in ws[i].disk
  {
    RunsKeepInv(ws, es, i);
    assert Counted(ws[i], k);
  }

  lemma GrowsOn(a: World, b: World, c: World)
    requires Grows(a, b) && Grows(b, c)
    ensures Grows(a, c)
  {
  }

  /** The record under k in b is the one of a, no less far, or gone for good. */
  ghost predicate NotBack(a: World, b: World, k: nat) {
    && (k in a.disk && k in b.disk ==> Rank(a.disk[k].phase) <= Rank(b.disk[k].phase) && a.disk[k].request == b.disk[k].request)
    && (k in a.drawn && k !in a.disk ==> k !in b.disk)
    && a.drawn <= b.drawn
  }

  lemma StepNotBack(w: World, e: Event, k: nat)
    requires Allowed(w, e)
    ensures NotBack(w, After(w, e), k)
  {
  }

  /** A record's phase never goes back, its request never changes, and a key
      whose record was dropped never gets another. */
  lemma {:induction false} PhasesNeverGoBack(ws: seq<World>, es: seq<Event>, i: nat, j: nat, k: nat)
    requires IsRun(ws, es) && i <= j < |ws|
    ensures NotBack(ws[i], ws[j], k)
    decreases j
  {
    RunsKeepInv(ws, es, i);
    if i < j {
      PhasesNeverGoBack(ws, es, i, j - 1, k);
      StepNotBack(ws[j - 1], es[j - 1], k);
    }
  }

  /** A begun record has its step, the one aicrewd holds under its begin key,
      and a sent record has its report. */
  lemma RecordsAreComplete(ws: seq<World>, es: seq<Event>, i: nat, k: nat)
    requires IsRun(ws, es) && i < |ws| && k in ws[i].disk
    ensures !ws[i].disk[k].phase.Begin? ==> k in ws[i].crew && ws[i].disk[k].step == Some(ws[i].crew[k].step)
    ensures ws[i].disk[k].phase.Sent? <==> ws[i].disk[k].report.Some?
  {
    RunsKeepInv(ws, es, i);
    assert Sound(ws[i], k, ws[i].disk[k]);
  }

  /** A settled report of a commit is true: aimem committed that key, under
      the begin that carries it. */
  lemma CommittedReportsAreTrue(ws: seq<World>, es: seq<Event>, i: nat, key: nat)
    requires IsRun(ws, es) && i < |ws| && (key, Committed) in ws[i].told
    ensures key in ws[i].commits
    ensures ws[i].commits[key].send.begin in ws[i].crew
    ensures ws[i].crew[ws[i].commits[key].send.begin].step.requestKey == key
  {
    RunsKeepInv(ws, es, i);
    ReceiptHolds(ws[i], key);
  }

  lemma ReceiptHolds(v: World, key: nat)
    requires Inv(v) && key in v.commits
    ensures Received(v, key, v.commits[key]) && Carried(v, v.commits[key].send)
  {
  }

  /** A one-to-one map has no more keys than its values have room for. */
  lemma {:induction false} OneToOneBound(f: map<nat, nat>, target: set<nat>)
    requires forall a :: a in f ==> f[a] in target
    requires forall a, b :: a in f && b in f && f[a] == f[b] ==> a == b
    ensures |f| <= |target|
    decreases |target|
  {
    if f != map[] {
      var a :| a in f;
      var rest := f - {a};
      assert |f| == |rest| + 1 by {
        assert f.Keys == rest.Keys + {a};
        assert |f.Keys| == |f| && |rest.Keys| == |rest|;
      }
      OneToOneBound(rest, target - {f[a]});
    }
  }

  /** Every command of one begin carries the one request key aicrewd bound to
      it, at every moment of every run. */
  lemma OneKeyPerBegin(ws: seq<World>, es: seq<Event>, i: nat, s: Send)
    requires IsRun(ws, es) && i < |ws| && s in ws[i].mail
    ensures s.begin in ws[i].crew && s.key == ws[i].crew[s.begin].step.requestKey
  {
    RunsKeepInv(ws, es, i);
    assert Carried(ws[i], s);
  }

  /** One effect per Run: aimem applied at most one mutation for each begin
      key, so in all no more than the keys that were drawn. */
  lemma OneEffectPerBegin(ws: seq<World>, es: seq<Event>, i: nat)
    requires IsRun(ws, es) && i < |ws|
    ensures forall a, b | a in ws[i].commits && b in ws[i].commits ::
              ws[i].commits[a].send.begin == ws[i].commits[b].send.begin ==> a == b
    ensures |ws[i].commits| <= |ws[i].drawn|
  {
    RunsKeepInv(ws, es, i);
    var v := ws[i];
    forall a | a in v.commits
      ensures v.commits[a].send.begin in v.crew && v.crew[v.commits[a].send.begin].step.requestKey == a
    {
      ReceiptHolds(v, a);
    }
    var begins := map a | a in v.commits :: v.commits[a].send.begin;
    assert begins.Keys == v.commits.Keys;
    assert |begins| == |begins.Keys| == |v.commits.Keys| == |v.commits|;
    OneToOneBound(begins, v.drawn);
  }

  /** The revision key committed is the one after the revision its step
      expected, and differs from it only in what aicrew owns of the step. */
  ghost predicate CommitsOwnedChange(v: World, key: nat)
    requires key in v.commits
  {
    var s := v.commits[key].send;
    var r := s.step.expected;
    && s.task in v.tasks && r + 1 < |v.tasks[s.task]|
    && (if CarriesContent(s.step.op)
        then OwnedChange(s.step, s.note, v.tasks[s.task][r], v.tasks[s.task][r + 1])
        else v.tasks[s.task][r + 1] == v.tasks[s.task][r])
  }

  lemma ReceiptIsOwnedChange(v: World, key: nat)
    requires key in v.commits && Received(v, key, v.commits[key]) && Carried(v, v.commits[key].send)
    ensures CommitsOwnedChange(v, key)
  {
  }

  /** No lost update: whatever other writers did between the read and the
      commit, a commit is an owned change of the revision its step expected. */
  lemma NoLostUpdate(ws: seq<World>, es: seq<Event>, i: nat, key: nat)
    requires IsRun(ws, es) && i < |ws| && key in ws[i].commits
    ensures CommitsOwnedChange(ws[i], key)
  {
    RunsKeepInv(ws, es, i);
    ReceiptHolds(ws[i], key);
    ReceiptIsOwnedChange(ws[i], key);
  }

  // Two results about what the protocol does not give.

  const FIRST := Record(Request("/v1/crew/attempts/a/work", "{}", "t"), Begin, "", None, None)
  const ANY_STEP := Step(Update, 1, 0, "res", "1", None, "REVIEW", "", "", [], [], "submit", "")
  const WRITE := Body(0, Some(("res", "1")), None, None, Some("submit"), None, None,
                      Some(map[State := JText("REVIEW"), Blocker := JText("")]))
  const SENT_ONCE := Send(0, 1, ANY_STEP, "", "t", WRITE)
  const BEGUN := FIRST.(phase := Begun, attempt := "a", step := Some(ANY_STEP))
  const REFUSED := BEGUN.(phase := Sent, report := Some(Refused("stale_revision")))

  function Empty(): World {
    World(map[], {}, multiset{}, multiset{}, multiset{}, map[], map["t" := [map[]]], {}, map[], {})
  }

  /** A run extended by one event. */
  lemma Extend(ws: seq<World>, es: seq<Event>, e: Event)
    requires IsRun(ws, es) && Allowed(ws[|es|], e)
    ensures IsRun(ws + [After(ws[|es|], e)], es + [e])
  {
  }

  lemma FirstSteps() returns (ws: seq<World>, es: seq<Event>)
    ensures IsRun(ws, es)
    ensures ws[|es|] ==
            Empty().(disk := map[0 := FIRST], drawn := {0}, sent := multiset{0}, loose := multiset{},
                     crew := map[0 := Held(ANY_STEP, "a", false)])
  {
    ws, es := Then([Empty()], [], Save(0, FIRST));
    ws, es := Then(ws, es, PostBegin(0));
    ws, es := Then(ws, es, CrewTakes(0, ANY_STEP, "a"));
    assert multiset{0} - multiset{0} == multiset{};
  }

  lemma Then(ws: seq<World>, es: seq<Event>, e: Event) returns (ws': seq<World>, es': seq<Event>)
    requires IsRun(ws, es) && Allowed(ws[|es|], e)
    ensures IsRun(ws', es') && ws'[|es'|] == After(ws[|es|], e)
  {
    Extend(ws, es, e);
    ws', es' := ws + [After(ws[|es|], e)], es + [e];
  }

  lemma WriteIsFaithful()
    ensures Faithful(ANY_STEP, "", WRITE, Some(map[]))
  {
  }

  lemma CommittedThenCut() returns (ws: seq<World>, es: seq<Event>)
    ensures IsRun(ws, es)
    ensures var v := ws[|es|];
            && v.disk == map[0 := BEGUN] && v.crew == map[0 := Held(ANY_STEP, "a", false)]
            && v.drawn == {0} && 1 in v.commits && v.told == {}
  {
    ws, es := FirstSteps();
    ws, es := Then(ws, es, Save(0, BEGUN));
    WriteIsFaithful();
    assert ReadAt(ws[|es|], "t", ANY_STEP) == Some(map[]);
    ws, es := Then(ws, es, PostSend(SENT_ONCE));
    ws, es := Then(ws, es, AimemApplies(SENT_ONCE));
  }

  /** A refused report may be false: when the driver is cut after aimem
      committed and before it recorded the answer, its next read sees the task
      moved by its own commit, and it reports stale_revision. */
  lemma StaleReportMayBeFalse() returns (ws: seq<World>, es: seq<Event>)
    ensures IsRun(ws, es)
    ensures (1, Refused("stale_revision")) in ws[|es|].told && 1 in ws[|es|].commits
  {
    ws, es := CommittedThenCut();
    ws, es := Then(ws, es, Save(0, REFUSED));
    ws, es := Then(ws, es, Tell(0, Refused("stale_revision")));
  }

  /** Why only the refusal of the one begin ever sent may drop a record: when a
      second begin went out under the key (a lost first one, or a recovery
      beside the run), its refusal says nothing of the first, and a drop on it
      would orphan the step. */
  lemma SecondRefusalMustNotDrop() returns (ws: seq<World>, es: seq<Event>)
    ensures IsRun(ws, es)
    ensures ws[|es|].sent[0] == 2 && ws[|es|].declined[0] == 1 && !Allowed(ws[|es|], Drop(0))
    ensures !Orphanless(After(ws[|es|], Drop(0)))
  {
    ws, es := FirstSteps();
    ws, es := Then(ws, es, PostBegin(0));
    ws, es := Then(ws, es, CrewDeclines(0));
    var v := After(ws[|es|], Drop(0));
    assert 0 in v.crew && !v.crew[0].settled && 0 !in v.disk;
  }
}
