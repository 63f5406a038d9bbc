/** The session engine (internal/agent/engine.go): entering a team and keeping its
    session by proofs, refreshes and resumes against a clock, and leaving it. Time
    is in nanoseconds. aicrewd, aimem, the clock and the end of the caller's context
    answer as they like. */
module SessionEngine {
  import opened Common

  const SECOND: int := 1_000_000_000
  const REFRESH_FLOOR: int := 90 * SECOND
  const RESUME_LEAD: int := 600 * SECOND
  const RETRY_BASE: int := 10 * SECOND
  const RETRY_CAP: int := 60 * SECOND
  const ENTRY_ROUNDS: nat := 5
  const PROOF_RENEWALS: nat := 3
  const LEAVE_ATTEMPTS: nat := 6

  /** How a call failed: aicrewd's refusal, an unknown outcome, anything else. */
  datatype Failure =
    | Refused(code: string, retryable: bool, after: int)
    | Unreached
    | Other

  datatype Reply<T> = Yes(value: T) | No(failure: Failure)

  predicate Retryable(f: Failure) {
    f.Unreached? || (f.Refused? && f.retryable)
  }

  function CodeOf(f: Failure): string {
    if f.Refused? then f.code else ""
  }

  function RetryAfter(f: Failure): int {
    if f.Refused? then f.after else 0
  }

  /** What aicrewd answers for a session that is over. */
  predicate Over(f: Failure) {
    CodeOf(f) == "context_stale" || CodeOf(f) == "role_forbidden"
  }

  /** A session is over for two codes only. */
  lemma OverIs(f: Failure)
    ensures Over(f) <==> f.Refused? && (f.code == "context_stale" || f.code == "role_forbidden")
  {
  }

  lemma NotOver()
    ensures forall f: Failure :: !f.Refused? ==> !Over(f)
  {
  }

  datatype Challenge = Challenge(id: nat, expires: int)
  datatype Entry = Entry(session: nat, token: nat, tokenEnds: int, handle: nat, handleEnds: int)
  datatype EnterRequest = EnterRequest(key: nat, receipt: nat, challenge: nat, session: Option<nat>)

  /** A handle aicrewd gave, by an entry or a refresh. */
  datatype Grant = Grant(session: nat, handle: nat, ends: int)

  /** What holds when Run goes to sleep: the handle aimem has for the session, the
      latest grant, answered or not, the engine's own times, and the wake-up. */
  datatype Nap = Nap(session: nat, bound: Option<nat>, latest: Option<Grant>, handleEnd: int, tokenEnds: int, wake: int)

  function Max(a: int, b: int): int {
    if a > b then a else b
  }

  function Backoff(attempt: nat, hint: int): (d: int)
    ensures d >= RETRY_BASE && d >= hint && (hint <= RETRY_CAP ==> d <= RETRY_CAP)
  {
    var doubled := RETRY_BASE * (if attempt == 0 then 1 else if attempt == 1 then 2 else if attempt == 2 then 4 else 8);
    Max(if doubled > RETRY_CAP then RETRY_CAP else doubled, hint)
  }

  lemma BackoffGrows(attempt: nat, hint: int)
    ensures Backoff(attempt, hint) >= Backoff(0, hint)
    ensures Backoff(attempt, hint) == Max(hint, SECOND * (match attempt case 0 => 10 case 1 => 20 case 2 => 40 case _ => 60))
  {
  }

  /** Division as Go has it, toward zero. */
  function Third(d: int): int {
    if d >= 0 then d / 3 else -(-d / 3)
  }

  /** next: when the engine acts again, and whether by a resume. */
  function Next(handleAt: int, handleEnd: int, tokenEnds: int): (int, bool) {
    var lead := Max(Third(handleEnd - handleAt), REFRESH_FLOOR);
    var refreshAt, resumeAt := handleEnd - lead, tokenEnds - RESUME_LEAD;
    if resumeAt <= refreshAt then (resumeAt, true) else (refreshAt, false)
  }

  /** The wake-up is early enough for the handle and for the token, and no earlier
      than one of them asks for. */
  lemma WakesInTime(handleAt: int, handleEnd: int, tokenEnds: int)
    ensures var at := Next(handleAt, handleEnd, tokenEnds).0;
            && at <= handleEnd - 90 * SECOND && at <= tokenEnds - 600 * SECOND
            && (handleEnd >= handleAt ==> at <= handleEnd - (handleEnd - handleAt) / 3)
            && (at == tokenEnds - 600 * SECOND || at == handleEnd - 90 * SECOND
                || (handleEnd >= handleAt && at == handleEnd - (handleEnd - handleAt) / 3))
  {
  }

  /** after goes on from before, and what it adds is about the resumed session. */
  ghost predicate OnlyOf(before: seq<nat>, after: seq<nat>, resumed: Option<nat>) {
    before <= after && forall i :: |before| <= i < |after| ==> resumed == Some(after[i])
  }

  /** s is among what after adds to before. */
  ghost predicate Since(before: seq<nat>, after: seq<nat>, s: nat) {
    exists i :: |before| <= i < |after| && after[i] == s
  }

  lemma NowSince(before: seq<nat>, after: seq<nat>, s: nat)
    requires |before| < |after| && after[|after| - 1] == s
    ensures Since(before, after, s)
  {
  }

  /** A round of Run: where it slept, the refreshes and the proofs asked after it, how
      it ended, the entry it was answered, if any, and the token's end then. */
  datatype Round = Round(nap: Nap, refreshes: nat, proofs: nat, done: bool, entry: Option<Entry>, tokenEnds: int)

  /** At the token's lead a round enters again under a new proof, and refreshes
      nothing; before it the round refreshes first. A round that is done has the
      token's end of a new entry, or refreshed and left it. */
  predicate Acted(r: Round) {
    && r.nap.wake <= r.nap.tokenEnds - 600 * SECOND
    && (r.refreshes > 0 <==> r.nap.wake < r.nap.tokenEnds - 600 * SECOND)
    && (r.done ==> if r.entry.Some? then r.proofs > 0 && r.tokenEnds == r.entry.value.tokenEnds && r.entry.value.session == r.nap.session
                   else r.refreshes > 0 && r.tokenEnds == r.nap.tokenEnds)
  }

  predicate Safe(n: Nap) {
    && n.latest.Some? && n.latest.value.session == n.session
    && n.bound == Some(n.latest.value.handle) && n.handleEnd == n.latest.value.ends
    && n.wake <= n.handleEnd - 90 * SECOND && n.wake <= n.tokenEnds - 600 * SECOND
  }

  /** Requests that share a key are one request. */
  predicate KeyedOnce(sent: seq<EnterRequest>) {
    forall i, j :: 0 <= i < j < |sent| && sent[i].key == sent[j].key ==> sent[i] == sent[j]
  }

  /** What a refused entry calls for: a new challenge, a new proof of the same one,
      the same request again, or nothing. */
  datatype Verdict = NewChallenge | NewProof | Again | GiveUp

  function Judge(f: Failure, late: bool, renewals: nat): (v: Verdict)
    ensures v.NewProof? ==> renewals < PROOF_RENEWALS
    ensures Judged(f, late, renewals, v)
  {
    if CodeOf(f) == "challenge_invalid" || late then NewChallenge
    else if CodeOf(f) == "proof_invalid" && renewals < PROOF_RENEWALS then NewProof
    else if Retryable(f) then Again
    else GiveUp
  }

  /** An entry request with its answer, and when each came. */
  datatype Try = Try(req: EnterRequest, reply: Reply<Entry>, sent: int, answered: int)

  predicate Says(f: Failure, code: string) {
    f.Refused? && f.code == code
  }

  /** Why req may follow a try under one challenge, at the time now: the same request
      after an unknown outcome or a refusal to be retried, and after the wait it
      asks for; another, under a new key, after a refused proof. */
  predicate Follows(t: Try, req: EnterRequest, now: int, expires: int) {
    && t.reply.No? && t.answered < expires && !Says(t.reply.failure, "challenge_invalid")
    && if req == t.req then
         && (t.reply.failure.Unreached? || (t.reply.failure.Refused? && t.reply.failure.retryable))
         && now >= t.answered + RETRY_BASE && (t.reply.failure.Refused? ==> now >= t.answered + t.reply.failure.after)
       else Says(t.reply.failure, "proof_invalid") && req.key > t.req.key && req.challenge == t.req.challenge && req.session == t.req.session
  }

  /** How the requests under a challenge end: with an entry, with a new challenge
      called for, or with a failure that is the last answer's when it is a refusal. */
  predicate Ended(t: Try, stop: Option<Outcome>, ch: Challenge, e: Entry, renewals: nat) {
    match stop
    case None => t.reply.No? && (Says(t.reply.failure, "challenge_invalid") || t.answered >= ch.expires)
    case Some(Done) => t.reply == Yes(e)
    case Some(Fails(f)) =>
      f.Refused? ==> t.reply == No(f) && !f.retryable && !Says(f, "challenge_invalid") && (Says(f, "proof_invalid") ==> renewals == PROOF_RENEWALS)
    case Some(o) => o.Cancelled?
  }

  /** req may be sent after ts, of which those from the n-th on are under one
      challenge; a refused proof is repeated only once its renewals are used up. */
  predicate May(ts: seq<Try>, n: nat, req: EnterRequest, now: int, expires: int, renewals: nat) {
    |ts| > n ==>
      var t := ts[|ts| - 1];
      Follows(t, req, now, expires) && (req == t.req && Says(t.reply.failure, "proof_invalid") ==> renewals >= PROOF_RENEWALS)
  }

  /** The tries from the n-th on are for one challenge, each following the one before. */
  ghost predicate Row(ts: seq<Try>, n: nat, ch: Challenge, renewals: nat) {
    && n <= |ts|
    && forall i :: n <= i < |ts| ==> ts[i].req.challenge == ch.id && May(ts[..i], n, ts[i].req, ts[i].sent, ch.expires, renewals)
  }

  lemma RowOn(ts: seq<Try>, n: nat, ch: Challenge, renewals: nat, t: Try)
    requires Row(ts, n, ch, renewals) && t.req.challenge == ch.id && May(ts, n, t.req, t.sent, ch.expires, renewals)
    ensures Row(ts + [t], n, ch, renewals)
  {
    hide May;
    var more := ts + [t];
    forall i | n <= i < |more| ensures more[i].req.challenge == ch.id && May(more[..i], n, more[i].req, more[i].sent, ch.expires, renewals) {
      assert more[..i] == ts[..i];
      assert i < |ts| ==> more[i] == ts[i];
      assert i == |ts| ==> ts[..i] == ts;
    }
  }

  lemma RowRenewed(ts: seq<Try>, n: nat, ch: Challenge, renewals: nat, more: nat)
    requires Row(ts, n, ch, renewals) && renewals <= more
    ensures Row(ts, n, ch, more)
  {
    hide Follows, Says;
  }

  lemma RowStarts(ts: seq<Try>, ch: Challenge, req: EnterRequest, now: int)
    ensures Row(ts, |ts|, ch, 0) && May(ts, |ts|, req, now, ch.expires, 0)
  {
  }

  /** After a verdict the next request may follow. */
  lemma JudgedMay(ts: seq<Try>, n: nat, req: EnterRequest, now: int, expires: int, renewals: nat)
    requires ts != [] && ts[|ts| - 1].reply.No? && ts[|ts| - 1].answered < expires
    requires var t := ts[|ts| - 1];
             var v := Judge(t.reply.failure, t.answered >= expires, renewals);
             || (v.Again? && req == t.req && now >= t.answered + Backoff(0, RetryAfter(t.reply.failure)))
             || (v.NewProof? && req.key > t.req.key && req.challenge == t.req.challenge && req.session == t.req.session)
    ensures May(ts, n, req, now, expires, renewals)
  {
  }

  /** A refused proof is followed by a new one. */
  lemma MayRenew(ts: seq<Try>, n: nat, ch: Challenge, req: EnterRequest, now: int, renewals: nat)
    requires Row(ts, n, ch, renewals) && ts != [] && ts[|ts| - 1].reply.No? && ts[|ts| - 1].answered < ch.expires
    requires var t := ts[|ts| - 1];
             Judge(t.reply.failure, false, renewals).NewProof? && req.key > t.req.key && req.challenge == t.req.challenge && req.session == t.req.session
    ensures Row(ts, n, ch, renewals + 1) && May(ts, n, req, now, ch.expires, renewals + 1)
  {
    hide Row;
    RowRenewed(ts, n, ch, renewals, renewals + 1);
    JudgedMay(ts, n, req, now, ch.expires, renewals);
    MayRenewed(ts, n, req, now, ch.expires, renewals, renewals + 1);
  }

  lemma MayRenewed(ts: seq<Try>, n: nat, req: EnterRequest, now: int, expires: int, renewals: nat, more: nat)
    requires May(ts, n, req, now, expires, renewals) && renewals <= more
    ensures May(ts, n, req, now, expires, more)
  {
  }

  /** What Judge answers, in aicrewd's terms. */
  lemma JudgedRight(f: Failure, late: bool, renewals: nat)
    ensures Judged(f, late, renewals, Judge(f, late, renewals))
    ensures var v := Judge(f, late, renewals);
            && (v.NewChallenge? ==> late || Says(f, "challenge_invalid")) && (v.NewProof? ==> renewals < PROOF_RENEWALS) && (late ==> v.NewChallenge?)
  {
  }

  /** A verdict is right, whatever answered. */
  predicate Judged(f: Failure, late: bool, renewals: nat, v: Verdict) {
    && (v.NewChallenge? <==> late || Says(f, "challenge_invalid"))
    && (v.NewProof? ==> Says(f, "proof_invalid"))
    && (v.Again? ==> f.Unreached? || (f.Refused? && f.retryable))
    && ((v.Again? || v.GiveUp?) && Says(f, "proof_invalid") ==> renewals >= PROOF_RENEWALS)
    && (v.GiveUp? ==> f.Other? || (f.Refused? && !f.retryable) || Says(f, "proof_invalid"))
    && (v.GiveUp? ==> !f.Unreached? && (f.Refused? ==> !f.retryable))
  }

  /** Every request sent under req's key is req. */
  ghost predicate Names(sent: seq<EnterRequest>, req: EnterRequest) {
    forall i :: 0 <= i < |sent| && sent[i].key == req.key ==> sent[i] == req
  }

  lemma NewNames(sent: seq<EnterRequest>, key: nat, req: EnterRequest)
    requires req.key == key && forall i :: 0 <= i < |sent| ==> sent[i].key < key
    ensures Names(sent, req)
  {
  }

  lemma SameReports(before: seq<nat>, resumed: Option<nat>)
    ensures OnlyOf(before, before, resumed)
  {
  }

  lemma StillSince(a: seq<nat>, b: seq<nat>, c: seq<nat>, s: nat)
    requires a <= b <= c && Since(b, c, s)
    ensures Since(a, c, s)
  {
  }

  lemma MoreReports(a: seq<nat>, b: seq<nat>, c: seq<nat>, resumed: Option<nat>)
    requires OnlyOf(a, b, resumed) && OnlyOf(b, c, resumed)
    ensures OnlyOf(a, c, resumed)
    ensures forall s :: Since(b, c, s) ==> Since(a, c, s)
  {
  }

  lemma MoreReported(a: seq<nat>, b: seq<nat>, c: seq<nat>, resumed: Option<nat>, f: Failure)
    requires OnlyOf(a, b, resumed) && OnlyOf(b, c, resumed) && (Over(f) && resumed.Some? ==> Since(b, c, resumed.value))
    ensures OnlyOf(a, c, resumed) && (Over(f) && resumed.Some? ==> Since(a, c, resumed.value))
  {
    MoreReports(a, b, c, resumed);
  }

  datatype Outcome =
    | Done
    | Fails(failure: Failure)
    | SessionEnded
    | WorkOutstanding
    | NothingRecorded
    | Cancelled

  class Engine {
    // The engine's memory.
    var session: nat
    var token: nat
    var tokenEnds: int
    var handleAt: int
    var handleEnd: int
    var pendingHandle: Option<nat>
    var lastKey: nat
    // The clock, and the home's session record.
    var now: int
    var recorded: Option<nat>
    // What aimem holds and what was asked of aicrewd.
    ghost var bound: map<nat, nat>
    ghost var latest: Option<Grant>
    ghost var mine: Option<Grant>
    ghost var entersSent: seq<EnterRequest>
    ghost var challenges: nat
    ghost var proofs: nat
    ghost var leavesSent: nat
    ghost var refreshKey: nat
    ghost var resumes: nat
    ghost var over: seq<nat>
    ghost var closed: seq<nat>
    ghost var naps: seq<Nap>
    ghost var tries: seq<Try>
    ghost var refreshes: nat
    ghost var sought: nat
    ghost var denied: Option<Failure>
    ghost var acted: seq<Round>

    /** Every key used was drawn before, and names one request. */
    ghost predicate Valid()
      reads this
    {
      refreshKey <= lastKey && KeyedOnce(entersSent) && forall i :: 0 <= i < |entersSent| ==> entersSent[i].key <= lastKey
    }

    /** The engine's times are those of the latest grant it was answered. */
    ghost predicate Holds()
      reads this
    {
      mine.Some? && mine.value.session == session && handleEnd == mine.value.ends && token > 0
    }

    ghost predicate Bound()
      reads this
    {
      Holds() && session in bound && bound[session] == mine.value.handle
    }

    /** And no later one was granted whose answer was lost. */
    ghost predicate Current()
      reads this
    {
      Holds() && latest == mine
    }

    // The world's answers.

    method NewKey() returns (key: nat)
      modifies `lastKey
      ensures key == lastKey == old(lastKey) + 1
    {
      lastKey := lastKey + 1;
      key := lastKey;
    }

    method Passes()
      modifies `now
      ensures now >= old(now)
    {
      var d: int := *;
      now := now + Max(d, 0);
    }

    /** Sleep: the whole time passes unless the context ends. */
    method Sleep(d: int) returns (ok: bool)
      modifies `now
      ensures now >= old(now) && (ok ==> now >= old(now) + d)
    {
      ok := *;
      if ok {
        now := now + Max(d, 0);
      }
      Passes();
    }

    /** aicrewd's report that a session is over, in answer to a request for it. */
    ghost method Report(resumed: Option<nat>, f: Failure)
      modifies `over
      ensures over == if Over(f) && resumed.Some? then old(over) + [resumed.value] else old(over)
    {
      if Over(f) && resumed.Some? {
        over := over + [resumed.value];
      }
    }

    method AskChallenge(key: nat, resumed: Option<nat>) returns (r: Reply<Challenge>)
      modifies `now, `over
      ensures now >= old(now)
      ensures over == if r.No? && Over(r.failure) && resumed.Some? then old(over) + [resumed.value] else old(over)
    {
      Passes();
      r := *;
      if r.No? {
        Report(resumed, r.failure);
      }
    }

    method AskProof(challenge: nat) returns (r: Reply<nat>)
      modifies `now, `proofs
      ensures now >= old(now) && proofs == old(proofs) + 1
      ensures r.No? ==> !r.failure.Refused?
    {
      Passes();
      proofs := proofs + 1;
      var receipt: nat, lost, ok: bool := *, *, *;
      r := if ok then Yes(receipt) else if lost then No(Unreached) else No(Other);
    }

    /** An entry may be granted without its answer being read. */
    method AskEnter(req: EnterRequest) returns (r: Reply<Entry>)
      modifies `now, `entersSent, `latest, `over, `tries
      ensures now >= old(now) && entersSent == old(entersSent) + [req] && tries == old(tries) + [Try(req, r, old(now), now)]
      ensures r.Yes? ==> latest == Some(Grant(r.value.session, r.value.handle, r.value.handleEnds)) && r.value.token > 0
      ensures r.Yes? && req.session.Some? ==> r.value.session == req.session.value
      ensures r.No? && r.failure.Refused? ==> latest == old(latest)
      ensures over == if r.No? && Over(r.failure) && req.session.Some? then old(over) + [req.session.value] else old(over)
    {
      Passes();
      entersSent := entersSent + [req];
      var ok: bool, entry: Entry, failure: Failure := *, *, *;
      if ok {
        var given := Entry(if req.session.Some? then req.session.value else entry.session, entry.token + 1, entry.tokenEnds, entry.handle, entry.handleEnds);
        latest := Some(Grant(given.session, given.handle, given.handleEnds));
        tries := tries + [Try(req, Yes(given), old(now), now)];
        return Yes(given);
      }
      var granted: bool := *;
      if granted && !failure.Refused? {
        latest := Some(Grant(if req.session.Some? then req.session.value else entry.session, entry.handle, entry.handleEnds));
      }
      Report(req.session, failure);
      tries := tries + [Try(req, No(failure), old(now), now)];
      return No(failure);
    }

    /** A refresh goes under a key that no earlier one had. */
    method AskRefresh(key: nat) returns (r: Reply<Grant>)
      requires key > refreshKey
      modifies `now, `latest, `refreshKey, `refreshes, `denied
      ensures refreshKey == key && refreshes == old(refreshes) + 1 && denied == if r.Yes? then None else Some(r.failure)
      ensures now >= old(now) && (r.Yes? ==> latest == Some(r.value)) && (r.No? && r.failure.Refused? ==> latest == old(latest))
      ensures r.Yes? ==> r.value.session == session
    {
      Passes();
      refreshKey, refreshes := key, refreshes + 1;
      var ok: bool, g: Grant, failure: Failure := *, *, *;
      denied := if ok then None else Some(failure);
      if ok {
        latest := Some(g.(session := session));
        return Yes(g.(session := session));
      }
      var granted: bool := *;
      if granted && !failure.Refused? {
        latest := Some(g.(session := session));
      }
      return No(failure);
    }

    method AskLeave(key: nat) returns (r: Reply<()>)
      modifies `now, `leavesSent, `over
      ensures now >= old(now) && leavesSent == old(leavesSent) + 1
      ensures over == if r.Yes? then old(over) + [session] else old(over)
    {
      Passes();
      leavesSent := leavesSent + 1;
      var ok: bool, failure: Failure := *, *;
      if ok {
        over := over + [session];
        return Yes(());
      }
      return No(failure);
    }

    /** aimem's Status, then Open or Refresh. */
    method GiveHandle(handle: nat) returns (ok: bool)
      modifies `now, `bound
      ensures now >= old(now) && bound == if ok then old(bound)[session := handle] else old(bound)
    {
      Passes();
      ok := *;
      if ok {
        bound := bound[session := handle];
      }
    }

    method CloseBinding(s: nat) returns (ok: bool)
      modifies `now, `closed
      ensures now >= old(now) && closed == if ok then old(closed) + [s] else old(closed)
    {
      Passes();
      ok := *;
      if ok {
        closed := closed + [s];
      }
    }

    // The engine.

    /** challenge: asked until it is answered or refused for good, which here takes
        finitely many tries. */
    method GetChallenge(resumed: Option<nat>) returns (r: Reply<Challenge>, cancelled: bool)
      modifies `now, `lastKey, `over
      ensures now >= old(now) && lastKey == old(lastKey) + 1
      ensures Reported(resumed, if r.No? then r.failure else Other)
    {
      var key := NewKey();
      var patience: int, attempt := *, 0;
      while patience > 0
        invariant now >= old(now) && lastKey == old(lastKey) + 1 && attempt >= 0
        invariant OnlyOf(old(over), over, resumed)
      {
        r := AskChallenge(key, resumed);
        if r.Yes? || !Retryable(r.failure) {
          if r.No? && Over(r.failure) && resumed.Some? {
            NowSince(old(over), over, resumed.value);
          }
          return r, false;
        }
        var ok := Sleep(Backoff(attempt, RetryAfter(r.failure)));
        if !ok {
          return No(Other), true;
        }
        attempt := attempt + 1;
        patience := patience - 1;
      }
      return No(Other), true;
    }

    /** Only the resumed session was reported over, and if f says so, it was. */
    twostate predicate Reported(resumed: Option<nat>, f: Failure)
      reads this
    {
      && OnlyOf(old(over), over, resumed)
      && (Over(f) && resumed.Some? ==> Since(old(over), over, resumed.value))
    }

    /** The last try was answered with an entry, and the engine's session and times
        are that entry's. */
    ghost predicate Entered()
      reads this
    {
      tries != [] && tries[|tries| - 1].reply.Yes? && var e := tries[|tries| - 1].reply.value;
      session == e.session && tokenEnds == e.tokenEnds && token == e.token && handleEnd == e.handleEnds
    }

    /** enter: a session entered, or resumed, by a proof of the agent's identity. */
    method Enter(resumed: Option<nat>) returns (r: Outcome)
      requires Valid()
      modifies `now, `lastKey, `entersSent, `tries, `sought, `latest, `mine, `over, `challenges, `proofs, `session, `token, `tokenEnds, `handleAt, `handleEnd, `pendingHandle
      ensures Valid() && now >= old(now) && old(entersSent) <= entersSent
      ensures challenges <= old(challenges) + 5 && proofs <= old(proofs) + 20
      ensures r.Done? ==> Current() && pendingHandle == Some(mine.value.handle) && (resumed.Some? ==> session == resumed.value)
      ensures old(tries) <= tries && proofs >= old(proofs) && sought == old(sought) + 1
      ensures r.Done? ==> proofs > old(proofs) && Entered() && |tries| > |old(tries)|
      ensures !r.Done? ==> mine == old(mine) && session == old(session) && token == old(token) && handleEnd == old(handleEnd) && tokenEnds == old(tokenEnds)
      ensures Reported(resumed, if r.Fails? then r.failure else Other)
      ensures r.Done? || r.Fails? || r.Cancelled?
    {
      NotOver();
      SameReports(over, resumed);
      sought := sought + 1;
      hide KeyedOnce, Over, CodeOf, Since, OnlyOf, Retryable;
      var round := 0;
      while round < ENTRY_ROUNDS
        invariant round <= ENTRY_ROUNDS && Valid() && now >= old(now) && old(entersSent) <= entersSent
        invariant challenges == old(challenges) + round && old(proofs) <= proofs <= old(proofs) + round * (1 + PROOF_RENEWALS)
        invariant mine == old(mine) && session == old(session) && token == old(token) && handleEnd == old(handleEnd) && tokenEnds == old(tokenEnds)
        invariant old(tries) <= tries && sought == old(sought) + 1
        invariant OnlyOf(old(over), over, resumed)
      {
        ghost var before := over;
        var stop := EnterRound(resumed);
        MoreReports(old(over), before, over, resumed);
        if stop.Some? {
          return stop.value;
        }
        round := round + 1;
      }
      return Fails(Other);
    }

    /** One round of enter: a challenge, and the requests under it. */
    method EnterRound(resumed: Option<nat>) returns (stop: Option<Outcome>)
      requires Valid()
      modifies `now, `lastKey, `entersSent, `tries, `latest, `mine, `over, `challenges, `proofs, `session, `token, `tokenEnds, `handleAt, `handleEnd, `pendingHandle
      ensures Valid() && now >= old(now) && old(entersSent) <= entersSent && old(tries) <= tries
      ensures challenges <= old(challenges) + 1 && old(proofs) <= proofs <= old(proofs) + 1 + PROOF_RENEWALS && (stop.None? ==> challenges == old(challenges) + 1)
      ensures stop == Some(Done) ==> Current() && pendingHandle == Some(mine.value.handle) && (resumed.Some? ==> session == resumed.value)
      ensures stop == Some(Done) ==> proofs > old(proofs) && Entered() && |tries| > |old(tries)|
      ensures stop != Some(Done) ==> mine == old(mine) && session == old(session) && token == old(token) && handleEnd == old(handleEnd) && tokenEnds == old(tokenEnds)
      ensures Reported(resumed, if stop.Some? && stop.value.Fails? then stop.value.failure else Other)
      ensures stop.Some? ==> stop.value.Done? || stop.value.Fails? || stop.value.Cancelled?
    {
      SameReports(over, resumed);
      NotOver();
      hide KeyedOnce, Row, Says, Over, CodeOf, Since, OnlyOf, Retryable, May, Follows, Judge;
      var ch, cancelled := GetChallenge(resumed);
      if cancelled || ch.No? {
        return Some(if cancelled then Cancelled else Fails(ch.failure));
      }
      challenges := challenges + 1;
      ghost var before := over;
      var entry;
      stop, entry := EnterUnder(ch.value, resumed);
      MoreReports(old(over), before, over, resumed);
      if stop == Some(Done) {
        Adopt(entry);
      }
    }

    /** An entry request under a key that names it, new or repeated. */
    method SendEnter(req: EnterRequest, ghost n: nat, ghost ch: Challenge, ghost renewals: nat) returns (r: Reply<Entry>)
      requires Valid() && req.key <= lastKey && Names(entersSent, req)
      requires req.challenge == ch.id && Row(tries, n, ch, renewals) && May(tries, n, req, now, ch.expires, renewals)
      modifies `now, `entersSent, `latest, `over, `tries
      ensures Valid() && now >= old(now) && old(entersSent) <= entersSent && Names(entersSent, req)
      ensures tries == old(tries) + [Try(req, r, old(now), now)] && Row(tries, n, ch, renewals)
      ensures r.Yes? ==> latest == Some(Grant(r.value.session, r.value.handle, r.value.handleEnds)) && r.value.token > 0
      ensures r.Yes? && req.session.Some? ==> r.value.session == req.session.value
      ensures Reported(req.session, if r.No? then r.failure else Other)
    {
      hide Row, May;
      ghost var tried := tries;
      r := AskEnter(req);
      RowOn(tried, n, ch, renewals, tries[|tries| - 1]);
      if r.No? && Over(r.failure) && req.session.Some? {
        NowSince(old(over), over, req.session.value);
      }
    }

    /** The requests under one challenge: the same one until it is answered, or a
        new proof under a new key when the proof was refused. */
    method EnterUnder(ch: Challenge, resumed: Option<nat>) returns (stop: Option<Outcome>, e: Entry)
      requires Valid()
      modifies `now, `lastKey, `entersSent, `tries, `latest, `over, `proofs
      ensures Valid() && now >= old(now) && old(entersSent) <= entersSent
      ensures old(proofs) < proofs <= old(proofs) + 1 + PROOF_RENEWALS
      ensures old(tries) <= tries && Row(tries, |old(tries)|, ch, proofs - old(proofs) - 1)
      ensures |tries| > |old(tries)| ==> Ended(tries[|tries| - 1], stop, ch, e, proofs - old(proofs) - 1)
      ensures tries == old(tries) ==> stop.Some? && stop.value.Fails? && !stop.value.failure.Refused?
      ensures stop == Some(Done) ==> latest == Some(Grant(e.session, e.handle, e.handleEnds)) && e.token > 0
      ensures stop == Some(Done) && resumed.Some? ==> e.session == resumed.value
      ensures Reported(resumed, if stop.Some? && stop.value.Fails? then stop.value.failure else Other)
      ensures stop.Some? ==> stop.value.Done? || stop.value.Fails? || stop.value.Cancelled?
    {
      hide KeyedOnce, OnlyOf, Since, Over, Row, May, Follows, Says;
      SameReports(over, resumed);
      NotOver();
      e := Entry(0, 0, 0, 0, 0);
      RowStarts(tries, ch, EnterRequest(0, 0, ch.id, resumed), now);
      var proof, key := Renew(ch.id, 0);
      if proof.No? {
        return Some(Fails(proof.failure)), e;
      }
      NewNames(entersSent, key, EnterRequest(key, proof.value, ch.id, resumed));
      stop, e := Requests(ch, resumed, proof.value, key);
    }

    /** The requests under a challenge from its first proof on. */
    method Requests(ch: Challenge, resumed: Option<nat>, first: nat, under: nat) returns (stop: Option<Outcome>, e: Entry)
      requires Valid() && under <= lastKey && Names(entersSent, EnterRequest(under, first, ch.id, resumed))
      modifies `now, `lastKey, `entersSent, `tries, `latest, `over, `proofs
      ensures Valid() && now >= old(now) && old(entersSent) <= entersSent
      ensures old(proofs) <= proofs <= old(proofs) + PROOF_RENEWALS
      ensures |tries| > |old(tries)| && old(tries) <= tries && Row(tries, |old(tries)|, ch, proofs - old(proofs))
      ensures Ended(tries[|tries| - 1], stop, ch, e, proofs - old(proofs))
      ensures stop == Some(Done) ==> latest == Some(Grant(e.session, e.handle, e.handleEnds)) && e.token > 0
      ensures stop == Some(Done) && resumed.Some? ==> e.session == resumed.value
      ensures Reported(resumed, if stop.Some? && stop.value.Fails? then stop.value.failure else Other)
    {
      var receipt: nat, key: nat := first, under;
      RowStarts(tries, ch, EnterRequest(key, receipt, ch.id, resumed), now);
      SameReports(over, resumed);
      hide KeyedOnce, Names, OnlyOf, Since, Over, Row, May, Ended;
      var renewals, attempt: nat := 0, 0;
      while true
        invariant Valid() && now >= old(now) && old(entersSent) <= entersSent && key <= lastKey
        invariant renewals <= PROOF_RENEWALS && proofs == old(proofs) + renewals
        invariant Names(entersSent, EnterRequest(key, receipt, ch.id, resumed))
        invariant OnlyOf(old(over), over, resumed)
        invariant old(tries) <= tries && Row(tries, |old(tries)|, ch, renewals)
        invariant May(tries, |old(tries)|, EnterRequest(key, receipt, ch.id, resumed), now, ch.expires, renewals)
        decreases PROOF_RENEWALS - renewals, ch.expires - now
      {
        ghost var before := over;
        var ended;
        ended, stop, e, receipt, key, renewals := Request(ch, resumed, receipt, key, attempt, renewals, |old(tries)|);
        MoreReported(old(over), before, over, resumed, if stop.Some? && stop.value.Fails? then stop.value.failure else Other);
        if ended {
          return;
        }
        attempt := attempt + 1;
      }
    }

    /** One request, and what its answer calls for. */
    method Request(ch: Challenge, resumed: Option<nat>, had: nat, under: nat, attempt: nat, used: nat, ghost n: nat)
      returns (ended: bool, stop: Option<Outcome>, e: Entry, receipt: nat, key: nat, renewals: nat)
      requires Valid() && under <= lastKey && Names(entersSent, EnterRequest(under, had, ch.id, resumed)) && used <= PROOF_RENEWALS && n <= |tries|
      requires Row(tries, n, ch, used) && May(tries, n, EnterRequest(under, had, ch.id, resumed), now, ch.expires, used)
      modifies `now, `lastKey, `entersSent, `tries, `latest, `over, `proofs
      ensures Valid() && now >= old(now) && old(entersSent) <= entersSent
      ensures used <= renewals <= PROOF_RENEWALS && proofs == old(proofs) + renewals - used
      ensures |tries| == |old(tries)| + 1 && old(tries) <= tries && Row(tries, n, ch, renewals)
      ensures ended ==> Ended(tries[|tries| - 1], stop, ch, e, renewals)
      ensures stop == Some(Done) ==> latest == Some(Grant(e.session, e.handle, e.handleEnds)) && e.token > 0
      ensures stop == Some(Done) && resumed.Some? ==> e.session == resumed.value
      ensures !ended ==> stop.None? && key <= lastKey && Names(entersSent, EnterRequest(key, receipt, ch.id, resumed))
      ensures !ended ==> May(tries, n, EnterRequest(key, receipt, ch.id, resumed), now, ch.expires, renewals)
      ensures !ended ==> old(now) < ch.expires && (renewals > used || now > old(now))
      ensures Reported(resumed, if stop.Some? && stop.value.Fails? then stop.value.failure else Other)
    {
      NotOver();
      hide KeyedOnce, Names, OnlyOf, Since, Judge, Judged, Retryable, Over, CodeOf, Row, May, Follows, Says, Backoff;
      e, receipt, key, renewals := Entry(0, 0, 0, 0, 0), had, under, used;
      var r := SendEnter(EnterRequest(under, had, ch.id, resumed), n, ch, used);
      if r.Yes? {
        return true, Some(Done), r.value, receipt, key, renewals;
      }
      JudgedRight(r.failure, now >= ch.expires, used);
      if Judge(r.failure, now >= ch.expires, used).NewChallenge? {
        return true, None, e, receipt, key, renewals;
      }
      stop, receipt, key, renewals := Prepare(ch, resumed, had, under, r.failure, attempt, used, n);
      ended := stop.Some?;
    }

    /** What comes after an entry that was refused or not answered under a challenge
        that still stands: a new proof, the same request after a wait, or an end. */
    method Prepare(ch: Challenge, resumed: Option<nat>, had: nat, under: nat, f: Failure, attempt: nat, used: nat, ghost n: nat)
      returns (stop: Option<Outcome>, receipt: nat, key: nat, renewals: nat)
      requires Valid() && tries != [] && under <= lastKey && used <= PROOF_RENEWALS && n < |tries|
      requires var t := tries[|tries| - 1];
               t.req == EnterRequest(under, had, ch.id, resumed) && t.reply == No(f) && t.answered == now < ch.expires
      requires Row(tries, n, ch, used) && Names(entersSent, EnterRequest(under, had, ch.id, resumed)) && !Judge(f, false, used).NewChallenge?
      modifies `now, `proofs, `lastKey
      ensures Valid() && now >= old(now) && used <= renewals <= PROOF_RENEWALS && proofs == old(proofs) + renewals - used
      ensures Row(tries, n, ch, renewals)
      ensures stop.None? ==> key <= lastKey && Names(entersSent, EnterRequest(key, receipt, ch.id, resumed))
      ensures stop.None? ==> May(tries, n, EnterRequest(key, receipt, ch.id, resumed), now, ch.expires, renewals) && (renewals > used || now > old(now))
      ensures stop.Some? ==> stop.value.Cancelled? || (stop.value.Fails? && (!stop.value.failure.Refused? || stop == Some(Fails(f))))
      ensures stop.Some? && stop.value.Fails? && stop.value.failure.Refused? ==>
                !f.retryable && !Says(f, "challenge_invalid") && (Says(f, "proof_invalid") ==> renewals == PROOF_RENEWALS)
    {
      hide KeyedOnce, Judge, Retryable, CodeOf, Row, May, Follows, Says, Backoff;
      JudgedRight(f, false, used);
      receipt, key, renewals := had, under, used;
      match Judge(f, false, used) {
        case NewChallenge => assert false;
        case NewProof =>
          var proof;
          proof, key := Renew(ch.id, under);
          renewals := used + 1;
          if proof.No? {
            RowRenewed(tries, n, ch, used, renewals);
            return Some(Fails(proof.failure)), receipt, key, renewals;
          }
          receipt := proof.value;
          NewNames(entersSent, key, EnterRequest(key, receipt, ch.id, resumed));
          MayRenew(tries, n, ch, EnterRequest(key, receipt, ch.id, resumed), now, used);
        case GiveUp => return Some(Fails(f)), receipt, key, renewals;
        case Again =>
          var ok := Wait(attempt, f, n, EnterRequest(key, receipt, ch.id, resumed), ch.expires, used);
          if !ok {
            return Some(Cancelled), receipt, key, renewals;
          }
      }
      return None, receipt, key, renewals;
    }

    /** The wait before the same request is sent again. */
    method Wait(attempt: nat, f: Failure, ghost n: nat, ghost req: EnterRequest, ghost expires: int, ghost renewals: nat) returns (ok: bool)
      requires tries != [] && var t := tries[|tries| - 1];
               t.req == req && t.reply == No(f) && t.answered == now < expires && Judge(f, false, renewals).Again?
      modifies `now
      ensures now >= old(now) && (ok ==> now > old(now) && May(tries, n, req, now, expires, renewals))
    {
      hide May, Judge;
      BackoffGrows(attempt, RetryAfter(f));
      ok := Sleep(Backoff(attempt, RetryAfter(f)));
      if ok {
        JudgedMay(tries, n, req, now, expires, renewals);
      }
    }

    /** A new proof of the same challenge, and a new key for it. */
    method Renew(challenge: nat, had: nat) returns (proof: Reply<nat>, key: nat)
      requires Valid() && had <= lastKey
      modifies `now, `proofs, `lastKey
      ensures Valid() && now >= old(now) && proofs == old(proofs) + 1 && lastKey >= old(lastKey)
      ensures proof.Yes? ==> key == lastKey > had && forall i :: 0 <= i < |entersSent| ==> entersSent[i].key < key
      ensures proof.No? ==> key == had && !proof.failure.Refused?
    {
      key := had;
      proof := AskProof(challenge);
      if proof.Yes? {
        key := NewKey();
      }
    }

    /** adopt. */
    method Adopt(e: Entry)
      modifies `session, `token, `tokenEnds, `handleAt, `handleEnd, `pendingHandle, `mine
      ensures mine == Some(Grant(e.session, e.handle, e.handleEnds))
      ensures session == e.session && token == e.token && tokenEnds == e.tokenEnds
      ensures handleAt == now && handleEnd == e.handleEnds && pendingHandle == Some(e.handle)
    {
      session, token, tokenEnds := e.session, e.token, e.tokenEnds;
      handleAt, handleEnd, pendingHandle := now, e.handleEnds, Some(e.handle);
      mine := Some(Grant(e.session, e.handle, e.handleEnds));
    }

    /** bind: the session is recorded, and aimem given the entry's handle. */
    method Bind() returns (r: Outcome)
      requires Valid() && Holds() && pendingHandle == Some(mine.value.handle)
      modifies `now, `pendingHandle, `recorded, `bound
      ensures now >= old(now) && Holds() && (r.Done? || r == Fails(Other)) && Valid()
      ensures r.Done? ==> Bound() && recorded == Some(session)
      ensures recorded == Some(session) || recorded == old(recorded)
    {
      var handle := pendingHandle.value;
      pendingHandle := None;
      var written: bool := *;
      if !written {
        return Fails(Other);
      }
      recorded := Some(session);
      var ok := GiveHandle(handle);
      if !ok {
        return Fails(Other);
      }
      var again: bool := *;
      return if again then Done else Fails(Other);
    }

    /** Start: the recorded session resumed, or the team entered anew. */
    method Start(ours: bool) returns (r: Outcome)
      requires Valid()
      modifies this
      ensures Valid() && old(over) <= over
      ensures r.Done? ==> Bound() && Current() && recorded == Some(session)
      ensures r.Done? && ours && old(recorded).Some? && session != old(recorded).value ==> Since(old(over), over, old(recorded).value)
      ensures naps == old(naps) && acted == old(acted)
    {
      if recorded.Some? && ours {
        r := Enter(recorded);
        if r.Done? {
          r := Bind();
          return;
        }
        if !(r.Fails? && Over(r.failure)) {
          return;
        }
        var cleared: bool := *;
        if !cleared {
          return Fails(Other);
        }
        recorded := None;
      }
      r := Enter(None);
      if r.Done? {
        r := Bind();
      }
    }

    /** A round's acts that are done entered anew, under a new proof, or left the
        token's end as it was. */
    twostate predicate Sought(r: Outcome)
      reads this
    {
      && old(tries) <= tries && old(proofs) <= proofs && old(refreshes) <= refreshes
      && (r.Done? && tries != old(tries) ==> proofs > old(proofs) && Entered())
      && (r.Done? && tries == old(tries) ==> tokenEnds == old(tokenEnds))
    }

    /** resume. */
    method Resume() returns (r: Outcome)
      requires Valid()
      modifies this
      ensures refreshes == old(refreshes) && denied == old(denied) && sought == old(sought) + 1 && (r.Done? ==> tries != old(tries))
      ensures Valid() && now >= old(now) && naps == old(naps) && acted == old(acted) && Sought(r)
      ensures r.Done? ==> Bound() && Current() && session == old(session) && recorded == Some(session)
      ensures old(over) <= over && (r.SessionEnded? ==> Since(old(over), over, old(session)))
    {
      r := Enter(Some(session));
      if r.Done? {
        r := Bind();
      } else if r.Fails? && Over(r.failure) {
        var cleared: bool := *;
        if cleared {
          recorded := None;
        }
        r := SessionEnded;
      }
    }

    /** A refreshed handle given to aimem, and its times kept. */
    method TakeHandle(g: Grant) returns (r: Outcome)
      requires Holds() && g.session == session && latest == Some(g)
      modifies `now, `bound, `handleAt, `handleEnd, `mine
      ensures now >= old(now) && (r.Done? || r == Fails(Other))
      ensures r.Done? ==> Bound() && Current() && handleAt == now && handleEnd == g.ends
    {
      var ok := GiveHandle(g.handle);
      if !ok {
        return Fails(Other);
      }
      handleAt, handleEnd := now, g.ends;
      mine := Some(g);
      return Done;
    }

    /** After a refresh that was refused or not answered: a resume, an end, or a wait. */
    method Denied(f: Failure, attempt: nat) returns (stop: Option<Outcome>)
      requires Valid() && Bound() && recorded == Some(session)
      modifies this
      ensures Valid() && now >= old(now) && naps == old(naps) && acted == old(acted) && refreshes == old(refreshes) && denied == old(denied)
      ensures old(over) <= over && (stop == Some(SessionEnded) ==> Since(old(over), over, old(session)))
      ensures stop.None? ==> now > old(now) && Bound() && handleEnd == old(handleEnd) && tries == old(tries) && proofs == old(proofs)
                             && tokenEnds == old(tokenEnds) && over == old(over) && session == old(session) && recorded == Some(session)
                             && sought == old(sought) && old(now) < handleEnd
      ensures stop.Some? ==> Sought(stop.value)
      ensures stop == Some(Done) ==> Bound() && Current() && session == old(session) && recorded == Some(session) && sought > old(sought)
      ensures sought == old(sought) || sought == old(sought) + 1
      ensures sought > old(sought) <==> Says(f, "invalid_token") || Says(f, "context_stale") || ((f.Unreached? || (f.Refused? && f.retryable)) && old(now) >= old(handleEnd))
      ensures stop.Some? && sought == old(sought) && stop != Some(Cancelled) ==>
                (stop == Some(Fails(f)) && (f.Other? || (f.Refused? && !f.retryable && !Says(f, "invalid_token") && !Says(f, "context_stale"))))
    {
      hide KeyedOnce, OnlyOf, Since, Backoff, Over;
      if CodeOf(f) == "invalid_token" || CodeOf(f) == "context_stale" {
        var r := Resume();
        return Some(r);
      }
      if !Retryable(f) {
        return Some(Fails(f));
      }
      if now >= handleEnd {
        var r := Resume();
        return Some(r);
      }
      var ok := Sleep(Backoff(attempt, RetryAfter(f)));
      return if ok then None else Some(Cancelled);
    }

    /** refresh: a new handle under a new key each time, until the old one is over. */
    method Refresh() returns (r: Outcome)
      requires Valid() && Bound() && recorded == Some(session)
      modifies this
      ensures refreshes > old(refreshes) && (sought == old(sought) || sought == old(sought) + 1)
      ensures sought > old(sought) ==> denied.Some? && var f := denied.value;
                Says(f, "invalid_token") || Says(f, "context_stale") || ((f.Unreached? || (f.Refused? && f.retryable)) && now >= old(handleEnd))
      ensures sought == old(sought) && r.Fails? && denied.Some? ==> var f := denied.value;
                r == Fails(f) && (f.Other? || (f.Refused? && !f.retryable && !Says(f, "invalid_token") && !Says(f, "context_stale")))
      ensures sought == old(sought) && r.Fails? && denied.None? ==> r == Fails(Other)
      ensures Valid() && now >= old(now) && naps == old(naps) && acted == old(acted) && Sought(r)
      ensures r.Done? ==> Bound() && Current() && session == old(session) && recorded == Some(session)
      ensures old(over) <= over && (r.SessionEnded? ==> Since(old(over), over, old(session)))
    {
      hide KeyedOnce, OnlyOf, Since, Over, Says, Retryable;
      var attempt := 0;
      while true
        invariant attempt == 0 || refreshes > old(refreshes)
        invariant sought == old(sought) && handleEnd == old(handleEnd)
        invariant refreshes >= old(refreshes) && tries == old(tries) && proofs == old(proofs) && tokenEnds == old(tokenEnds) && acted == old(acted)
        invariant Valid() && Bound() && now >= old(now) && naps == old(naps) && over == old(over) && session == old(session) && recorded == Some(session)
        invariant attempt >= 0
        decreases handleEnd - now
      {
        var key := NewKey();
        var g := AskRefresh(key);
        if g.Yes? {
          r := TakeHandle(g.value);
          return;
        }
        var stop := Denied(g.failure, attempt);
        if stop.Some? {
          return stop.value;
        }
        attempt := attempt + 1;
      }
    }

    /** A round's act, logged with where it slept. */
    method Act(byResume: bool) returns (r: Outcome)
      requires Valid() && Bound() && recorded == Some(session) && naps != []
      requires var nap := naps[|naps| - 1];
               && nap.session == session && nap.tokenEnds == tokenEnds && nap.wake <= tokenEnds - RESUME_LEAD
               && (byResume <==> nap.wake == tokenEnds - RESUME_LEAD)
      modifies this
      ensures Valid() && naps == old(naps) && (r.Done? ==> Bound() && Current() && recorded == Some(session))
      ensures |acted| == |old(acted)| + 1 && old(acted) <= acted && Acted(acted[|old(acted)|])
    {
      hide KeyedOnce, OnlyOf, Since, Over;
      ghost var asked, proved, tried := refreshes, proofs, tries;
      if byResume {
        r := Resume();
      } else {
        r := Refresh();
      }
      acted := acted + [Round(naps[|naps| - 1], refreshes - asked, proofs - proved, r.Done?,
                              if r.Done? && tries != tried then Some(tries[|tries| - 1].reply.value) else None, tokenEnds)];
    }

    /** Run, for as many rounds as it gets: every time it sleeps, aimem holds the
        latest handle, and it wakes in time. */
    method Run(rounds: nat) returns (r: Outcome)
      requires Valid() && Bound() && Current() && recorded == Some(session)
      modifies this
      ensures Valid() && old(naps) <= naps
      ensures forall i :: |old(naps)| <= i < |naps| ==> Safe(naps[i])
      ensures old(acted) <= acted && forall i :: |old(acted)| <= i < |acted| ==> Acted(acted[i])
    {
      hide KeyedOnce, OnlyOf, Since, Over;
      var left := rounds;
      while left > 0
        invariant Valid() && Bound() && Current() && recorded == Some(session) && old(naps) <= naps
        invariant forall i :: |old(naps)| <= i < |naps| ==> Safe(naps[i])
        invariant old(acted) <= acted && forall i :: |old(acted)| <= i < |acted| ==> Acted(acted[i])
      {
        left := left - 1;
        var (at, byResume) := Next(handleAt, handleEnd, tokenEnds);
        WakesInTime(handleAt, handleEnd, tokenEnds);
        naps := naps + [Nap(session, Some(bound[session]), latest, handleEnd, tokenEnds, at)];
        var ok := Sleep(at - now);
        if !ok {
          r := Leave();
          return;
        }
        r := Act(byResume);
        var cancelled: bool := *;
        if cancelled {
          r := Leave();
          return;
        }
        if !r.Done? {
          return;
        }
      }
      return Cancelled;
    }

    /** Leave: aicrewd first, then aimem's binding, then the record. The session was
        reported over and its binding closed by this very call before the record
        goes. */
    method Leave() returns (r: Outcome)
      requires Valid()
      modifies this
      ensures Valid() && naps == old(naps) && acted == old(acted) && old(over) <= over && old(closed) <= closed
      ensures leavesSent <= old(leavesSent) + 7 && resumes <= old(resumes) + 1
      ensures old(recorded).Some? && recorded.None? ==> Since(old(over), over, old(session)) && Since(old(closed), closed, old(session))
      ensures r.Done? ==> recorded.None?
      ensures recorded == old(recorded) || recorded.None? || recorded == Some(old(session))
      ensures r.WorkOutstanding? ==> recorded == old(recorded) || recorded == Some(old(session))
    {
      r := Ask();
      if r.Done? {
        r := CloseAndForget();
      }
    }

    /** The leave requests: repeated under one key, but for one resume. */
    method Ask() returns (r: Outcome)
      requires Valid()
      modifies this
      ensures Valid() && naps == old(naps) && acted == old(acted) && session == old(session) && old(over) <= over && closed == old(closed)
      ensures leavesSent <= old(leavesSent) + LEAVE_ATTEMPTS + 1 && resumes <= old(resumes) + 1
      ensures recorded == old(recorded) || recorded == Some(session)
      ensures r.Done? ==> Since(old(over), over, session)
    {
      var key := NewKey();
      var resumed, attempt := false, 0;
      while true
        invariant Valid() && naps == old(naps) && acted == old(acted) && session == old(session) && old(over) <= over && closed == old(closed)
        invariant 0 <= attempt && leavesSent == old(leavesSent) + attempt
        invariant attempt < LEAVE_ATTEMPTS + if resumed then 1 else 0
        invariant resumes == old(resumes) + if resumed then 1 else 0
        invariant recorded == old(recorded) || recorded == Some(session)
        decreases LEAVE_ATTEMPTS + 1 - attempt
      {
        var left := AskLeave(key);
        attempt := attempt + 1;
        if left.Yes? {
          NowSince(old(over), over, session);
          return Done;
        } else if CodeOf(left.failure) == "work_outstanding" {
          return WorkOutstanding;
        } else if CodeOf(left.failure) == "invalid_token" && !resumed {
          resumed := true;
          ghost var before := over;
          var again: bool;
          r, again := ResumeToLeave();
          if !again {
            if r.Done? {
              StillSince(old(over), before, over, session);
            }
            return;
          }
          key := NewKey();
        } else if !Retryable(left.failure) || attempt >= LEAVE_ATTEMPTS {
          return Fails(left.failure);
        } else {
          var ok := Sleep(Backoff(attempt - 1, RetryAfter(left.failure)));
          if !ok {
            return Cancelled;
          }
        }
      }
    }

    /** The token is over: the session is resumed, to be left again, unless it is
        reported over, which is the leave's end. */
    method ResumeToLeave() returns (r: Outcome, again: bool)
      requires Valid()
      modifies this
      ensures Valid() && naps == old(naps) && acted == old(acted) && session == old(session) && old(over) <= over && closed == old(closed)
      ensures leavesSent == old(leavesSent) && resumes == old(resumes) + 1
      ensures recorded == old(recorded) || recorded == Some(session)
      ensures r.Done? && !again ==> Since(old(over), over, session)
    {
      resumes := resumes + 1;
      again := false;
      r := Enter(Some(session));
      if r.Done? {
        r := Bind();
        again := true;
      } else if r.Fails? && Over(r.failure) {
        r := Done;
      }
    }

    method CloseAndForget() returns (r: Outcome)
      requires Valid()
      modifies `now, `closed, `token, `recorded
      ensures Valid() && (r.Done? || r.Fails?) && old(closed) <= closed
      ensures r.Done? ==> recorded.None? && Since(old(closed), closed, session)
      ensures r.Fails? ==> recorded == old(recorded)
    {
      var ok := CloseBinding(session);
      if !ok {
        return Fails(Other);
      }
      NowSince(old(closed), closed, session);
      token := 0;
      var cleared: bool := *;
      if !cleared {
        return Fails(Other);
      }
      recorded := None;
      return Done;
    }

    /** LeaveRecorded: the recorded session resumed, then left; never another. */
    method LeaveRecorded() returns (r: Outcome)
      requires Valid()
      modifies this
      ensures Valid() && old(over) <= over && old(closed) <= closed
      ensures old(recorded).Some? && recorded.None? ==>
                Since(old(over), over, old(recorded).value) && Since(old(closed), closed, old(recorded).value)
      ensures recorded.Some? ==> recorded == old(recorded)
      ensures r.Done? ==> recorded.None?
      ensures r.WorkOutstanding? ==> recorded.Some? && recorded == old(recorded)
      ensures leavesSent <= old(leavesSent) + LEAVE_ATTEMPTS + 1
    {
      if recorded.None? {
        return NothingRecorded;
      }
      r := Enter(recorded);
      if r.Done? {
        r := Bind();
        if r.Done? {
          r := Leave();
        }
      } else if r.Fails? && Over(r.failure) {
        session := recorded.value;
        r := CloseAndForget();
      }
    }
  }
}
