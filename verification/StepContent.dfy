/** The reservation body the step driver composes (internal/agent/steps.go:83-98
    and 505-669): a task's content as read, with only the fields aicrew owns
    changed. */
module StepContent {
  import opened Common

  /** A JSON value, as far as the driver looks into one. */
  datatype Json =
    | JNull
    | JText(text: string)
    | JList(items: seq<Json>)
    | JObject(members: map<string, Json>)
    | JOther(raw: string)

  /** The fields of aimem's task content; any other field is not content. */
  datatype Field =
    | Title | Objective | AcceptanceCriteria | NonGoals | State | Assignee | Blocker | Dependencies
    | CandidateRefs | EvidenceRefs | NextAction | Archived | Epic
    | NotContent(name: string)

  type Fields = map<Field, Json>

  const CONTENT_FIELDS: seq<Field> :=
    [Title, Objective, AcceptanceCriteria, NonGoals, State, Assignee, Blocker, Dependencies, CandidateRefs,
     EvidenceRefs, NextAction, Archived, Epic]

  datatype Operation = Claim | Transfer | Update | Release | Finalize | Unheard(name: string)

  datatype Evidence = Evidence(kind: string, ref: string)

  /** A begin response: the values the member sends aimem. */
  datatype Step = Step(
    op: Operation, requestKey: nat, expected: nat, reservation: string, fence: string, holder: Option<Json>,
    target: string, reason: string, blocker: string, terminal: seq<string>, evidence: seq<Evidence>,
    intent: string, resultRef: string)

  /** The body of one reservation command; an absent part is not sent. */
  datatype Body = Body(
    expected: nat, hold: Option<(string, string)>, holder: Option<Json>, proof: Option<string>,
    intent: Option<string>, reason: Option<string>, terminal: Option<seq<string>>, content: Option<Fields>)

  predicate CarriesContent(op: Operation) {
    op.Update? || op.Release? || op.Finalize?
  }

  function Refs(es: seq<Evidence>): (rs: seq<string>)
    ensures |rs| == |es|
  {
    seq(|es|, i requires 0 <= i < |es| => es[i].ref)
  }

  /** checkEvidence: typed evidence must be the terminal evidence, in its order. */
  method CheckEvidence(st: Step) returns (ok: bool)
    ensures ok <==> st.evidence == [] || Refs(st.evidence) == st.terminal
  {
    if |st.evidence| == 0 {
      return true;
    }
    ok := |st.evidence| == |st.terminal|;
    var i := 0;
    while ok && i < |st.evidence|
      invariant 0 <= i <= |st.evidence|
      invariant ok ==> |st.evidence| == |st.terminal| && forall j :: 0 <= j < i ==> st.evidence[j].ref == st.terminal[j]
      invariant !ok ==> Refs(st.evidence) != st.terminal
    {
      ok := st.evidence[i].ref == st.terminal[i];
      assert !ok ==> Refs(st.evidence)[i] != st.terminal[i];
      i := i + 1;
    }
    assert ok ==> forall j :: 0 <= j < |st.evidence| ==> Refs(st.evidence)[j] == st.terminal[j];
  }

  function RefKind(ref: string): string {
    if HasPrefix(ref, "https://") || HasPrefix(ref, "http://") then "url" else "text"
  }

  /** aimem's reference kinds for verify-delivery's evidence kinds. */
  function DeliveryKind(kind: string): Option<string> {
    if kind == "reviewed_head" then Some("commit")
    else if kind == "human_merge" then Some("pr")
    else if kind == "post_merge_ci" then Some("ci")
    else None
  }

  function RefObject(kind: string, ref: string, note: string): Json {
    JObject(map["kind" := JText(kind), "ref" := JText(ref), "note" := JText(note)])
  }

  /** The reference a delivery's evidence becomes. */
  function DeliveredRef(e: Evidence, note: string): Json {
    var plain := "delivery evidence of " + note;
    if e.kind == "" then RefObject(RefKind(e.ref), e.ref, plain)
    else
      var kind := if DeliveryKind(e.kind).Some? && RefKind(e.ref) == "url" then DeliveryKind(e.kind).value else RefKind(e.ref);
      RefObject(kind, e.ref, e.kind + ": " + plain)
  }

  /** The references a task's list names; None when the value is not a list of
      objects and nulls, which the driver cannot extend. */
  function RefList(raw: Option<Json>): Option<seq<Json>> {
    if raw.None? || raw.value.JNull? then Some([])
    else if raw.value.JList? && (forall r :: r in raw.value.items ==> r.JObject? || r.JNull?) then Some(raw.value.items)
    else None
  }

  /** Whether r is the reference ref with that note. */
  predicate Names(r: Json, ref: string, note: string) {
    r.JObject? && "ref" in r.members && r.members["ref"] == JText(ref) && "note" in r.members && r.members["note"] == JText(note)
  }

  predicate NamesNone(raw: Option<Json>) {
    raw.None? || raw.value.JNull? || raw.value == JList([])
  }

  /** withRef: a result reference appended once, the earlier ones a prefix. */
  method WithRef(raw: Option<Json>, ref: string, note: string) returns (r: Result<Json>)
    ensures r.Ok? <==> RefList(raw).Some?
    ensures r.Ok? ==> r.value.JList? && RefList(raw).value <= r.value.items
    ensures r.Ok? ==> exists x :: x in r.value.items && Names(x, ref, note)
    ensures r.Ok? && (exists x :: x in RefList(raw).value && Names(x, ref, note)) ==> r.value.items == RefList(raw).value
    ensures r.Ok? && r.value.items != RefList(raw).value ==> r.value.items == RefList(raw).value + [RefObject(RefKind(ref), ref, note)]
  {
    if RefList(raw).None? {
      return Err("the task's candidate_refs");
    }
    var refs := RefList(raw).value;
    for i := 0 to |refs|
      invariant forall j :: 0 <= j < i ==> !Names(refs[j], ref, note)
    {
      if Names(refs[i], ref, note) {
        return Ok(JList(refs));
      }
    }
    var added := RefObject(RefKind(ref), ref, note);
    assert Names(added, ref, note);
    assert (refs + [added])[|refs|] == added;
    return Ok(JList(refs + [added]));
  }

  const ATTEMPT_MARK := "aicrew attempt "

  /** The delivery entries of a finalize: typed when the response types them,
      without the attempt's own reference that ends them. */
  function Delivered(st: Step): (es: seq<Evidence>) {
    var es := if st.evidence != [] then st.evidence else seq(|st.terminal|, i requires 0 <= i < |st.terminal| => Evidence("", st.terminal[i]));
    if es != [] && HasPrefix(es[|es| - 1].ref, ATTEMPT_MARK) then es[..|es| - 1] else es
  }

  /** deliveryRefs: a finalize's terminal evidence as the task's references. */
  method DeliveryRefs(st: Step, note: string) returns (r: Option<Json>)
    ensures r.None? <==> Delivered(st) == []
    ensures r.Some? ==> r.value.JList? && |r.value.items| == |Delivered(st)|
    ensures r.Some? ==> forall i :: 0 <= i < |Delivered(st)| ==> r.value.items[i] == DeliveredRef(Delivered(st)[i], note)
  {
    var evidence := st.evidence;
    if |evidence| == 0 {
      for i := 0 to |st.terminal|
        invariant |evidence| == i
        invariant forall j :: 0 <= j < i ==> evidence[j] == Evidence("", st.terminal[j])
      {
        evidence := evidence + [Evidence("", st.terminal[i])];
      }
      assert evidence == seq(|st.terminal|, i requires 0 <= i < |st.terminal| => Evidence("", st.terminal[i]));
    }
    var n := |evidence|;
    if n > 0 && HasPrefix(evidence[n - 1].ref, ATTEMPT_MARK) {
      evidence := evidence[..n - 1];
    }
    assert evidence == Delivered(st);
    if |evidence| == 0 {
      return None;
    }
    var refs: seq<Json> := [];
    for i := 0 to |evidence|
      invariant |refs| == i
      invariant forall j :: 0 <= j < i ==> refs[j] == DeliveredRef(evidence[j], note)
    {
      var e := evidence[i];
      var kind, why := RefKind(e.ref), "delivery evidence of " + note;
      if e.kind != "" {
        why := e.kind + ": " + why;
        if DeliveryKind(e.kind).Some? && kind == "url" {
          kind := DeliveryKind(e.kind).value;
        }
      }
      refs := refs + [RefObject(kind, e.ref, why)];
    }
    return Some(JList(refs));
  }

  function Get(m: Fields, f: Field): Option<Json> {
    if f in m then Some(m[f]) else None
  }

  /** The state a step writes: an offer never accepted returns the task. */
  function TargetOf(st: Step): string {
    if st.target == "" && st.op.Release? then "READY" else st.target
  }

  /** The fields a step may change. */
  predicate Owned(st: Step, f: Field) {
    f.State? || f.Blocker? || (f.CandidateRefs? && st.resultRef != "") || (f.EvidenceRefs? && st.op.Finalize?)
  }

  /** after is before with only what aicrew owns changed by the step st. */
  ghost predicate OwnedChange(st: Step, note: string, before: Fields, after: Fields) {
    && (forall f :: !Owned(st, f) ==> Get(after, f) == Get(before, f))
    && Get(after, State) == Some(JText(TargetOf(st)))
    && Get(after, Blocker) == Some(JText(st.blocker))
    && (st.resultRef != "" ==> ResultAdded(st, note, Get(before, CandidateRefs), Get(after, CandidateRefs)))
    && (st.op.Finalize? ==> EvidenceKept(st, note, Get(before, EvidenceRefs), Get(after, EvidenceRefs)))
  }

  /** The earlier candidate references stay, as a prefix, and the result's is
      among them, appended only when it was not. */
  ghost predicate ResultAdded(st: Step, note: string, before: Option<Json>, after: Option<Json>) {
    && RefList(before).Some? && after.Some? && after.value.JList?
    && RefList(before).value <= after.value.items
    && (exists x :: x in after.value.items && Names(x, st.resultRef, note))
    && (after.value.items == RefList(before).value
        || after.value.items == RefList(before).value + [RefObject(RefKind(st.resultRef), st.resultRef, note)])
  }

  /** Evidence the task names is never replaced; a task that names none takes
      the delivery's, entry by entry. */
  ghost predicate EvidenceKept(st: Step, note: string, before: Option<Json>, after: Option<Json>) {
    if NamesNone(before) && Delivered(st) != [] then
      && after.Some? && after.value.JList? && |after.value.items| == |Delivered(st)|
      && forall i :: 0 <= i < |Delivered(st)| ==> after.value.items[i] == DeliveredRef(Delivered(st)[i], note)
    else after == before
  }

  /** What a content write leaves of a task: every content field replaced by
      the body's, anything else kept. */
  function Written(before: Fields, content: Fields): (after: Fields)
    ensures forall f: Field :: Get(after, f) == Get(if f.NotContent? then before else content, f)
  {
    (map f | f in before.Keys && f.NotContent? :: before[f]) + (map f | f in content.Keys && !f.NotContent? :: content[f])
  }

  lemma ContentFieldsAreAll(f: Field)
    ensures f in CONTENT_FIELDS <==> !f.NotContent?
  {
  }

  /** A task's content fields as read, copied one by one. */
  method CopyContent(before: Fields) returns (content: Fields)
    ensures forall f: Field :: Get(content, f) == (if f.NotContent? then None else Get(before, f))
  {
    content := map[];
    for i := 0 to |CONTENT_FIELDS|
      invariant forall f :: f in CONTENT_FIELDS[..i] ==> Get(content, f) == Get(before, f)
      invariant forall f :: f !in CONTENT_FIELDS[..i] ==> f !in content
    {
      var f := CONTENT_FIELDS[i];
      if f in before {
        content := content[f := before[f]];
      }
      assert CONTENT_FIELDS[..i + 1] == CONTENT_FIELDS[..i] + [f];
    }
    assert CONTENT_FIELDS[..|CONTENT_FIELDS|] == CONTENT_FIELDS;
    forall f: Field ensures Get(content, f) == (if f.NotContent? then None else Get(before, f)) {
      ContentFieldsAreAll(f);
    }
  }

  /** The content a step writes over the content read. */
  method OwnContent(st: Step, read: Fields, note: string) returns (r: Result<Fields>)
    ensures r.Err? <==> st.resultRef != "" && RefList(Get(read, CandidateRefs)).None?
    ensures r.Ok? ==> OwnedChange(st, note, read, Written(read, r.value))
  {
    hide RefList, ResultAdded, EvidenceKept, OwnedChange, NamesNone, Written, TargetOf, RefObject, DeliveredRef, Delivered;
    var content := CopyContent(read);
    content := content[State := JText(TargetOf(st))][Blocker := JText(st.blocker)];
    if st.resultRef != "" {
      var refs := WithRef(Get(read, CandidateRefs), st.resultRef, note);
      if refs.Err? {
        return Err(refs.error);
      }
      AddsResult(st, note, Get(read, CandidateRefs), refs.value);
      content := content[CandidateRefs := refs.value];
    }
    if st.op.Finalize? && NamesNone(Get(read, EvidenceRefs)) {
      var refs := DeliveryRefs(st, note);
      KeepsEvidence(st, note, Get(read, EvidenceRefs), refs);
      if refs.Some? {
        content := content[EvidenceRefs := refs.value];
      }
    } else if st.op.Finalize? {
      KeepsEvidence(st, note, Get(read, EvidenceRefs), None);
    }
    ContentOwned(st, note, read, content);
    return Ok(content);
  }

  lemma AddsResult(st: Step, note: string, before: Option<Json>, after: Json)
    requires RefList(before).Some? && after.JList? && RefList(before).value <= after.items
    requires exists x :: x in after.items && Names(x, st.resultRef, note)
    requires after.items != RefList(before).value ==>
               after.items == RefList(before).value + [RefObject(RefKind(st.resultRef), st.resultRef, note)]
    ensures ResultAdded(st, note, before, Some(after))
  {
  }

  lemma KeepsEvidence(st: Step, note: string, before: Option<Json>, refs: Option<Json>)
    requires NamesNone(before) ==> (refs.None? <==> Delivered(st) == [])
    requires refs.Some? ==> NamesNone(before) && refs.value.JList? && |refs.value.items| == |Delivered(st)|
    requires refs.Some? ==> forall i :: 0 <= i < |Delivered(st)| ==> refs.value.items[i] == DeliveredRef(Delivered(st)[i], note)
    ensures EvidenceKept(st, note, before, if refs.Some? then refs else before)
  {
  }

  lemma ContentOwned(st: Step, note: string, read: Fields, content: Fields)
    requires forall f: Field :: !Owned(st, f) ==> Get(content, f) == (if f.NotContent? then None else Get(read, f))
    requires Get(content, State) == Some(JText(TargetOf(st))) && Get(content, Blocker) == Some(JText(st.blocker))
    requires st.resultRef != "" ==> ResultAdded(st, note, Get(read, CandidateRefs), Get(content, CandidateRefs))
    requires st.op.Finalize? ==> EvidenceKept(st, note, Get(read, EvidenceRefs), Get(content, EvidenceRefs))
    ensures OwnedChange(st, note, read, Written(read, content))
  {
  }

  /** A body that writes only what aicrew owns of the task content it was
      composed from, at that content's revision. */
  ghost predicate Faithful(st: Step, note: string, body: Body, read: Option<Fields>) {
    && body.expected == st.expected
    && (CarriesContent(st.op) ==> read.Some? && body.content.Some?
                                  && OwnedChange(st, note, read.value, Written(read.value, body.content.value)))
    && (!CarriesContent(st.op) ==> body.content.None?)
  }

  /** composeBody: the begin response's values, the proof, and for an update, a
      release or a finalize the task's complete content. */
  method ComposeBody(st: Step, proof: string, task: Option<Fields>, note: string) returns (r: Result<Body>)
    ensures r.Ok? ==> Faithful(st, note, r.value, task)
    ensures r.Ok? ==> r.value.hold == (if st.reservation == "" then None else Some((st.reservation, st.fence)))
    ensures r.Ok? ==> r.value.holder == st.holder && r.value.proof == (if proof == "" then None else Some(proof))
    ensures r.Ok? ==> r.value.intent == (if st.op.Update? then Some(st.intent) else None)
    ensures r.Ok? ==> (r.value.reason.Some? <==> st.op.Release? || st.op.Finalize?)
    ensures r.Ok? && r.value.reason.Some? ==>
      r.value.reason.value == (if st.op.Release? && st.reason == "" then "offer released" else st.reason)
    ensures r.Ok? ==> r.value.expected == st.expected && (r.value.content.Some? <==> st.op.Update? || st.op.Release? || st.op.Finalize?)
    ensures r.Ok? ==> r.value.terminal == (if st.op.Finalize? then Some(st.terminal) else None)
    ensures r.Err? <==> (st.op.Unheard? || (CarriesContent(st.op) && task.None?)
                         || (CarriesContent(st.op) && st.resultRef != "" && RefList(Get(task.value, CandidateRefs)).None?))
  {
    var body := Body(st.expected, None, st.holder, None, None, None, None, None);
    if st.reservation != "" {
      body := body.(hold := Some((st.reservation, st.fence)));
    }
    if proof != "" {
      body := body.(proof := Some(proof));
    }
    match st.op {
      case Claim => return Ok(body);
      case Transfer => return Ok(body);
      case Update => body := body.(intent := Some(st.intent));
      case Release => body := body.(reason := Some(if st.reason == "" then "offer released" else st.reason));
      case Finalize => body := body.(reason := Some(st.reason), terminal := Some(st.terminal));
      case Unheard(_) => return Err("unknown step operation");
    }
    if task.None? {
      return Err("the step carries the task's content");
    }
    var content := OwnContent(st, task.value, note);
    if content.Err? {
      return Err(content.error);
    }
    return Ok(body.(content := Some(content.value)));
  }

  // What the references and the state say.

  predicate IsUrl(ref: string) {
    (|ref| >= 8 && ref[..8] == "https://") || (|ref| >= 7 && ref[..7] == "http://")
  }

  /** A result's reference is a url exactly when it starts as one. */
  lemma ResultIsTyped(ref: string, note: string)
    ensures RefObject(RefKind(ref), ref, note) ==
            JObject(map["kind" := JText(if IsUrl(ref) then "url" else "text"), "ref" := JText(ref), "note" := JText(note)])
  {
  }

  /** A delivery's reference keeps its text; one the response types is typed so only
      when it is a url, and says its type in its note. */
  lemma DeliveryIsTyped(e: Evidence, note: string)
    ensures var typed := IsUrl(e.ref) && (e.kind == "reviewed_head" || e.kind == "human_merge" || e.kind == "post_merge_ci");
            DeliveredRef(e, note) ==
            JObject(map["kind" := JText(if !typed then (if IsUrl(e.ref) then "url" else "text")
                                        else if e.kind == "reviewed_head" then "commit" else if e.kind == "human_merge" then "pr" else "ci"),
                        "ref" := JText(e.ref),
                        "note" := JText((if e.kind == "" then "" else e.kind + ": ") + ("delivery evidence of " + note))])
  {
    ResultIsTyped(e.ref, note);
    assert "" + ("delivery evidence of " + note) == "delivery evidence of " + note;
  }

  /** The entries of a delivery are the typed evidence, or else the terminal one,
      without an attempt's own mark at the end. */
  lemma DeliveredEntries(st: Step)
    ensures var all := if st.evidence != [] then Refs(st.evidence) else st.terminal;
            var own := all != [] && "aicrew attempt " <= all[|all| - 1];
            Refs(Delivered(st)) == if own then all[..|all| - 1] else all
    ensures forall i :: 0 <= i < |Delivered(st)| ==> Delivered(st)[i].kind == if st.evidence != [] then st.evidence[i].kind else ""
  {
  }

  /** An owned change writes the step's state, and a release's offer that was never
      accepted returns the task; nothing outside the step's own fields differs. */
  lemma OwnedStateIs(st: Step, note: string, before: Fields, after: Fields)
    requires OwnedChange(st, note, before, after)
    ensures Get(after, State) == Some(JText(if st.target == "" && st.op.Release? then "READY" else st.target))
    ensures Get(after, Blocker) == Some(JText(st.blocker))
    ensures forall f: Field :: f.Title? || f.Objective? || f.AcceptanceCriteria? || f.NonGoals? || f.Assignee? || f.Dependencies? || f.NextAction?
                        || f.Archived? || f.Epic? || f.NotContent? || (f.CandidateRefs? && st.resultRef == "") || (f.EvidenceRefs? && !st.op.Finalize?)
                        ==> Get(after, f) == Get(before, f)
  {
  }

  /** A reference is there already when one has its text and its note, whatever else
      it has. */
  lemma NamesIs(members: map<string, Json>, ref: string, note: string)
    ensures Names(JObject(members), ref, note) <==>
            (if "ref" in members then Some(members["ref"]) else None) == Some(JText(ref))
            && (if "note" in members then Some(members["note"]) else None) == Some(JText(note))
    ensures forall kind, r, n :: Names(RefObject(kind, r, n), ref, note) <==> r == ref && n == note
  {
  }

  /** References can be appended to none, to null, and to a list of objects and nulls. */
  lemma ListsAre(raw: Option<Json>)
    ensures raw.None? || raw.value == JNull ==> RefList(raw) == Some([])
    ensures raw.Some? && raw.value.JList? && (forall r :: r in raw.value.items ==> r.JObject? || r == JNull) ==> RefList(raw) == Some(raw.value.items)
    ensures raw.Some? && raw.value.JList? && (exists r :: r in raw.value.items && !r.JObject? && r != JNull) ==> RefList(raw).None?
    ensures raw.Some? && !raw.value.JNull? && !raw.value.JList? ==> RefList(raw).None?
  {
  }

  /** An owned change names the step's result among the candidates: the earlier ones
      first and as they were, one that is there already not again. */
  lemma OwnedResultIs(st: Step, note: string, before: Fields, after: Fields, had: seq<Json>)
    requires OwnedChange(st, note, before, after) && st.resultRef != "" && RefList(Get(before, CandidateRefs)) == Some(had)
    ensures Get(after, CandidateRefs).Some? && Get(after, CandidateRefs).value.JList?
    ensures var items := Get(after, CandidateRefs).value.items;
            && |had| <= |items| <= |had| + 1 && items[..|had|] == had
            && (exists r :: r in items && r.JObject? && "ref" in r.members && "note" in r.members
                            && r.members["ref"] == JText(st.resultRef) && r.members["note"] == JText(note))
            && (|items| > |had| ==> items[|had|] == JObject(map["kind" := JText(if IsUrl(st.resultRef) then "url" else "text"),
                                                                "ref" := JText(st.resultRef), "note" := JText(note)]))
  {
    ResultIsTyped(st.resultRef, note);
  }

  /** Of a finalize it gives the task the delivery's references exactly when the task
      names none and the delivery has some; no evidence the task names changes. */
  lemma OwnedEvidenceIs(st: Step, note: string, before: Fields, after: Fields)
    requires OwnedChange(st, note, before, after) && st.op.Finalize?
    ensures var had, next := Get(before, EvidenceRefs), Get(after, EvidenceRefs);
            if (had.None? || had.value == JNull || had.value == JList([])) && Delivered(st) != [] then
              && next.Some? && next.value.JList? && |next.value.items| == |Delivered(st)|
              && forall i :: 0 <= i < |Delivered(st)| ==> next.value.items[i] == DeliveredRef(Delivered(st)[i], note)
            else next == had
  {
  }
}
