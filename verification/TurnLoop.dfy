/** The turn loop (internal/agent/serve.go:161-250 and 312-507, with the turn state
    of internal/agent/turns.go:47-155 and internal/agent/handoff.go:307-333): when a
    member is due a turn, and what each turn leaves of an attempt's counters. Times
    are in nanoseconds. */
module TurnLoop {
  import opened Common

  const SECOND: int := 1_000_000_000
  const MINUTE: int := 60 * SECOND
  const HOUR: int := 60 * MINUTE
  const TURN_GAP: int := 5 * SECOND
  const STALL_TURNS: nat := 3
  const HANDOFF_STALL_TURNS: nat := 2

  datatype Counters = Counters(continuations: nat, noProgress: nat, untouched: nat, stalled: bool, head: string)

  const NEW := Counters(0, 0, 0, false, "")

  /** The turn state's file: the attempts, the one due a continuation, and until
      when there is no turn. */
  datatype State = State(attempts: map<string, Counters>, due: Option<string>, holdUntil: int, backoff: int)

  const EMPTY := State(map[], None, 0, 0)

  /** An attempt that is not closed, as a status shows it. */
  datatype Attempt = Attempt(id: string, inWork: bool)

  datatype Outcome = Finished | Failed | NeedsLogin | LimitReached(budget: bool, resetAt: int) | Stopped | ModelUnavailable

  /** What a tick reads: the time, whether messages wait, the status, the limits
      and the costs against the budgets. None when one could not be read, or the
      member is paused. */
  datatype Tick = Tick(now: int, open: bool, pending: bool, attempt: Option<Attempt>, max: nat, gates: bool, totals: bool,
                       dayCost: real, dayBudget: real, attemptCost: real, attemptBudget: real, tomorrow: int)

  /** How a turn went: its outcome, its steps, the worktree's heads, whether the
      session doc was at hand and its section untouched, the status after it, and
      whether the attempt then waits on its pull request's gates. */
  datatype Turn = Turn(outcome: Outcome, steps: nat, headBefore: string, headAfter: string, worker: bool, doc: bool, same: bool,
                       known: bool, after: Option<Attempt>, gates: bool, ended: int)

  /** One tick, with the turn it may run: whether the launcher stopped during it,
      and whether each write happened. */
  datatype Event = Ticked(tick: Tick, turn: Turn, noted: bool, died: bool, written: bool) | Restart

  datatype World = World(file: State, lastStart: int)

  function Of(st: State, id: string): Counters {
    if id in st.attempts then st.attempts[id] else NEW
  }

  // Tick.

  /** What a tick decides: nothing, a hold, or a turn. */
  datatype Decision = Nothing | Hold(until: int) | Start(continuation: bool)

  predicate DueContinuation(st: State, k: Tick) {
    && k.attempt.Some? && k.attempt.value.inWork && st.due == Some(k.attempt.value.id)
    && var a := Of(st, k.attempt.value.id);
       !a.stalled && a.continuations < k.max && !k.gates
  }

  function Decide(st: State, lastStart: int, k: Tick): Decision {
    if k.now < st.holdUntil || !k.open then Nothing
    else if !k.pending && !DueContinuation(st, k) then Nothing
    else if k.now - lastStart < TURN_GAP then Nothing
    else if !k.totals then Hold(k.now + MINUTE)
    else if k.dayCost >= k.dayBudget then Hold(k.tomorrow)
    else if k.attempt.Some? && k.attemptCost >= k.attemptBudget then Hold(k.now + HOUR)
    else Start(!k.pending)
  }

  // The turn.

  /** The attempt a turn counts for: the one before it, or the one it opened. */
  function Subject(k: Tick, t: Turn): Option<string> {
    if k.attempt.Some? then Some(k.attempt.value.id)
    else if t.known && t.after.Some? then Some(t.after.value.id)
    else None
  }

  predicate Progress(t: Turn) {
    t.steps > 0 || (t.headAfter != "" && t.headAfter != t.headBefore)
  }

  /** The counters after a turn, before the check for a stall. */
  function Counted(a: Counters, k: Tick, t: Turn, continuation: bool): Counters {
    var begun := if continuation then a.(continuations := a.continuations + 1) else a.(stalled := false);
    var progressed :=
      if Progress(t) then begun.(noProgress := 0)
      else if t.outcome.Finished? then begun.(noProgress := begun.noProgress + 1)
      else begun;
    var kept := progressed.(untouched := if t.worker then AfterDoc(progressed.untouched, k, t) else progressed.untouched);
    var waited := if t.worker && t.gates then kept.(noProgress := 0, untouched := 0) else kept;
    waited.(head := t.headAfter)
  }

  /** handoffAfterTurn's count: a finished turn without a step that left the
      section untouched. */
  function AfterDoc(untouched: nat, k: Tick, t: Turn): nat {
    var noted := k.attempt.Some? && t.doc;
    if noted && t.outcome.Finished? && t.same && t.steps == 0 then untouched + 1
    else if noted && t.outcome.Finished? then 0
    else untouched
  }

  function NextBackoff(cur: int, base: int, ceiling: int): int {
    if cur < base then base else if cur * 2 < ceiling then cur * 2 else ceiling
  }

  /** afterOutcome. */
  function AfterOutcome(st: State, t: Turn): State {
    match t.outcome
    case Finished => st.(backoff := 0, holdUntil := 0)
    case Stopped => st.(backoff := 0, holdUntil := 0)
    case LimitReached(true, _) => st.(backoff := 0, holdUntil := 0)
    case LimitReached(false, resetAt) =>
      if resetAt > t.ended then st.(backoff := 0, holdUntil := resetAt) else Backed(st, t.ended, HOUR, 8 * HOUR)
    case NeedsLogin => Backed(st, t.ended, HOUR, 8 * HOUR)
    case ModelUnavailable => Backed(st, t.ended, HOUR, 8 * HOUR)
    case Failed => Backed(st, t.ended, MINUTE, 30 * MINUTE)
  }

  function Backed(st: State, now: int, base: int, ceiling: int): State {
    var backoff := NextBackoff(st.backoff, base, ceiling);
    st.(backoff := backoff, holdUntil := now + backoff)
  }

  predicate Stalls(a: Counters) {
    a.noProgress >= STALL_TURNS || a.untouched >= HANDOFF_STALL_TURNS
  }

  predicate Works(t: Turn) {
    t.known && t.after.Some? && t.after.value.inWork
  }

  /** The attempt a turn ends by stalling, which is then blocked. */
  function Stalled(st: State, k: Tick, t: Turn, continuation: bool): Option<string> {
    var id := Subject(k, t);
    if id.None? || !Works(t) || t.after.value.id != id.value then None
    else
      var a := Counted(Of(st, id.value), k, t, continuation);
      if !a.stalled && Stalls(a) then id else None
  }

  /** The state a turn ends with. */
  function TurnEnds(st: State, k: Tick, t: Turn, continuation: bool): State {
    var held := AfterOutcome(st, t);
    var id := Subject(k, t);
    if id.None? then held.(due := None)
    else
      var a := Counted(Of(st, id.value), k, t, continuation);
      var works, stalls := Works(t), Stalled(st, k, t, continuation).Some?;
      held.(attempts := st.attempts[id.value := if stalls then a.(stalled := true) else a],
            due := if works && !stalls then Some(t.after.value.id) else None)
  }

  /** The state written while a turn runs: its attempt is known. */
  function Opened(st: State, k: Tick): State {
    if k.attempt.Some? then st.(attempts := st.attempts[k.attempt.value.id := Of(st, k.attempt.value.id)]) else st
  }

  function Listed(id: Option<string>): seq<string> {
    if id.Some? then [id.value] else []
  }

  /** The attempts that an event's turn asks to be blocked. */
  function Blocks(w: World, ev: Event): seq<string> {
    if ev.Restart? || ev.died then []
    else
      var d := Decide(w.file, w.lastStart, ev.tick);
      if d.Start? then Listed(Stalled(Opened(w.file, ev.tick), ev.tick, ev.turn, d.continuation)) else []
  }

  function After(w: World, ev: Event): World {
    match ev
    case Restart => w.(lastStart := -TURN_GAP)
    case Ticked(k, t, noted, died, written) =>
      match Decide(w.file, w.lastStart, k)
      case Nothing => w
      case Hold(until) => w.(file := if written then w.file.(holdUntil := until) else w.file)
      case Start(continuation) =>
        var mid := Opened(w.file, k);
        World(if !died && written then TurnEnds(mid, k, t, continuation) else if noted then mid else w.file, k.now)
  }

  /** One home's loop. */
  class Loop {
    var file: State
    var lastStart: int
    /** The attempts asked to be blocked, in order. */
    ghost var blocked: seq<string>

    constructor ()
      ensures State() == World(EMPTY, -TURN_GAP) && blocked == []
    {
      file, lastStart, blocked := EMPTY, -TURN_GAP, [];
    }

    function State(): World
      reads this
    {
      World(file, lastStart)
    }

    /** Tick. */
    method DoTick(k: Tick, t: Turn, noted: bool, died: bool, written: bool)
      modifies this
      ensures State() == After(old(State()), Ticked(k, t, noted, died, written))
      ensures blocked == old(blocked) + Blocks(old(State()), Ticked(k, t, noted, died, written))
    {
      hide TurnEnds, Opened, Stalled;
      if k.now < file.holdUntil || !k.open {
        return;
      }
      var continuation := false;
      if !k.pending {
        if k.attempt.None? || !k.attempt.value.inWork || file.due != Some(k.attempt.value.id) {
          return;
        }
        var a := Of(file, k.attempt.value.id);
        if a.stalled || a.continuations >= k.max {
          return;
        }
        if k.gates {
          return;
        }
        continuation := true;
      }
      if k.now - lastStart < TURN_GAP {
        return;
      }
      if !k.totals {
        SetHold(k.now + MINUTE, written);
        return;
      }
      if k.dayCost >= k.dayBudget {
        SetHold(k.tomorrow, written);
        return;
      }
      if k.attempt.Some? && k.attemptCost >= k.attemptBudget {
        SetHold(k.now + HOUR, written);
        return;
      }
      lastStart := k.now;
      RunTurn(k, t, continuation, noted, died, written);
    }

    method SetHold(until: int, written: bool)
      modifies `file
      ensures file == if written then old(file).(holdUntil := until) else old(file)
    {
      if written {
        file := file.(holdUntil := until);
      }
    }

    /** turn. */
    method RunTurn(k: Tick, t: Turn, continuation: bool, noted: bool, died: bool, written: bool)
      modifies `file, `blocked
      ensures file == if !died && written then TurnEnds(Opened(old(file), k), k, t, continuation)
                      else if noted then Opened(old(file), k) else old(file)
      ensures blocked == old(blocked) + if died then [] else Listed(Stalled(Opened(old(file), k), k, t, continuation))
    {
      hide TurnEnds, Stalled;
      var st := file;
      if k.attempt.Some? {
        st := st.(attempts := st.attempts[k.attempt.value.id := Of(st, k.attempt.value.id)]);
      }
      if noted {
        file := st;
      }
      if died {
        return;
      }
      st := EndTurn(st, k, t, continuation);
      if written {
        file := st;
      }
    }

    /** turn, from the turn's end on: the hold, the counters, and the stall. */
    method EndTurn(mid: State, k: Tick, t: Turn, continuation: bool) returns (st: State)
      modifies `blocked
      ensures st == TurnEnds(mid, k, t, continuation)
      ensures blocked == old(blocked) + Listed(Stalled(mid, k, t, continuation))
    {
      hide Counted, AfterOutcome, Of;
      OutcomeKeeps(mid, t);
      st := AfterOutcome(mid, t).(due := None);
      var id := if k.attempt.Some? then Some(k.attempt.value.id)
                else if t.known && t.after.Some? then Some(t.after.value.id) else None;
      if id.None? {
        return;
      }
      var a := Count(Of(mid, id.value), k, t, continuation);
      if t.known && t.after.Some? && t.after.value.inWork {
        st := st.(due := Some(t.after.value.id));
        if id.value == t.after.value.id && !a.stalled {
          if a.noProgress >= STALL_TURNS || a.untouched >= HANDOFF_STALL_TURNS {
            a := a.(stalled := true);
            blocked := blocked + [t.after.value.id];
            st := st.(due := None);
          }
        }
      }
      st := st.(attempts := st.attempts[id.value := a]);
    }

    /** What a turn does to its attempt's counters. */
    method Count(had: Counters, k: Tick, t: Turn, continuation: bool) returns (a: Counters)
      ensures a == Counted(had, k, t, continuation)
    {
      a := had;
      if !continuation {
        a := a.(stalled := false);
      } else {
        a := a.(continuations := a.continuations + 1);
      }
      if t.steps > 0 || (t.headAfter != "" && t.headAfter != t.headBefore) {
        a := a.(noProgress := 0);
      } else if t.outcome.Finished? {
        a := a.(noProgress := a.noProgress + 1);
      }
      if t.worker {
        var noted := k.attempt.Some? && t.doc;
        var same := noted && t.outcome.Finished? && t.same;
        if same && t.steps == 0 {
          a := a.(untouched := a.untouched + 1);
        } else if noted && t.outcome.Finished? {
          a := a.(untouched := 0);
        }
      }
      a := a.(head := t.headAfter);
      if t.worker && t.gates {
        a := a.(noProgress := 0, untouched := 0);
      }
    }
  }

  // Over every run.

  ghost predicate IsRun(ws: seq<World>, es: seq<Event>) {
    |ws| == |es| + 1 && forall i {:trigger es[i]} :: 0 <= i < |es| ==> ws[i + 1] == After(ws[i], es[i])
  }

  /** The turn an event starts. */
  function Started(w: World, ev: Event): Decision {
    if ev.Restart? then Nothing else Decide(w.file, w.lastStart, ev.tick)
  }

  predicate Continues(w: World, ev: Event, id: string) {
    Started(w, ev) == Start(true) && ev.tick.attempt.Some? && ev.tick.attempt.value.id == id
  }

  /** The event's turn leaves the member working on another attempt that the state
      has known before. */
  predicate Reopens(w: World, ev: Event) {
    && ev.Ticked? && ev.tick.attempt.Some? && ev.turn.known && ev.turn.after.Some? && ev.turn.after.value.inWork
    && ev.turn.after.value.id != ev.tick.attempt.value.id && ev.turn.after.value.id in w.file.attempts
  }

  /** The attempt that is due a continuation is not stalled without it being
      known, and its counters are below their limits. */
  predicate Inv(st: State) {
    st.due.Some? ==> (var a := Of(st, st.due.value); !a.stalled ==> !Stalls(a))
  }

  lemma InvKept(w: World, ev: Event)
    requires Inv(w.file) && !Reopens(w, ev)
    ensures Inv(After(w, ev).file)
  {
  }

  lemma OutcomeKeeps(st: State, t: Turn)
    ensures AfterOutcome(st, t).attempts == st.attempts && AfterOutcome(st, t).due == st.due
  {
  }

  lemma {:induction false} RunsKeepInv(ws: seq<World>, es: seq<Event>, n: nat)
    requires IsRun(ws, es) && ws[0].file == EMPTY && n <= |es| && forall m :: 0 <= m < n ==> !Reopens(ws[m], es[m])
    ensures Inv(ws[n].file)
  {
    hide After, Reopens;
    if n > 0 {
      RunsKeepInv(ws, es, n - 1);
      assert ws[n] == After(ws[n - 1], es[n - 1]);
      InvKept(ws[n - 1], es[n - 1]);
    }
  }

  /** Every continuation turn starts with its attempt not stalled, both counts below
      their limits and fewer continuations than the limit; and never while the
      member is held, nor within the gap of the turn before. */
  lemma ContinuationsStartFree(ws: seq<World>, es: seq<Event>, n: nat, id: string)
    requires IsRun(ws, es) && ws[0].file == EMPTY && n < |es| && forall m :: 0 <= m < n ==> !Reopens(ws[m], es[m])
    requires Continues(ws[n], es[n], id)
    ensures var a := Of(ws[n].file, id);
            && !a.stalled && a.noProgress < STALL_TURNS && a.untouched < HANDOFF_STALL_TURNS && a.continuations < es[n].tick.max
    ensures es[n].tick.now >= ws[n].file.holdUntil && es[n].tick.now >= ws[n].lastStart + TURN_GAP
  {
    RunsKeepInv(ws, es, n);
  }

  // The stall guarantee.

  /** The launcher ran the event to its end, and its last write happened. */
  predicate Written(ev: Event) {
    ev.Ticked? && !ev.died && ev.written
  }

  /** A finished turn of the attempt without a step or a new commit, recorded, which
      does not leave it waiting on its gates. */
  predicate Idle(w: World, ev: Event, id: string) {
    Continues(w, ev, id) && Written(ev) && ev.turn.outcome.Finished? && !Progress(ev.turn) && !(ev.turn.worker && ev.turn.gates)
  }

  /** An event within a row without a message: a turn it starts is one of the
      attempt, and one that is recorded neither progresses nor leaves it waiting on
      its gates. The launcher may stop, writes may fail, and it may start again. */
  predicate InRow(w: World, ev: Event, id: string) {
    ev.Ticked? && Started(w, ev).Start? ==>
      && Continues(w, ev, id) && (Written(ev) ==> !Progress(ev.turn) && !(ev.turn.worker && ev.turn.gates))
  }

  ghost function IdleTurns(ws: seq<World>, es: seq<Event>, id: string, i: nat, j: nat): nat
    requires |ws| == |es| + 1 && i <= j <= |es|
    decreases j - i
  {
    if i == j then 0 else IdleTurns(ws, es, id, i, j - 1) + if Idle(ws[j - 1], es[j - 1], id) then 1 else 0
  }

  lemma RowCounts(w: World, ev: Event, id: string)
    requires InRow(w, ev, id)
    ensures var before, after := Of(w.file, id), Of(After(w, ev).file, id);
            after.noProgress == before.noProgress + if Idle(w, ev, id) then 1 else 0
  {
  }

  lemma {:induction false} RowAddsUp(ws: seq<World>, es: seq<Event>, id: string, i: nat, j: nat)
    requires IsRun(ws, es) && i <= j <= |es| && forall m :: i <= m < j ==> InRow(ws[m], es[m], id)
    ensures Of(ws[j].file, id).noProgress == Of(ws[i].file, id).noProgress + IdleTurns(ws, es, id, i, j)
    decreases j
  {
    hide After, InRow, Idle, Of;
    if i < j {
      RowAddsUp(ws, es, id, i, j - 1);
      assert ws[j] == After(ws[j - 1], es[j - 1]);
      RowCounts(ws[j - 1], es[j - 1], id);
    }
  }

  /** Without a message, at most STALL_TURNS finished turns of an attempt are
      recorded in a row without progress, before it gets no more continuations. */
  lemma {:induction false} StallGuarantee(ws: seq<World>, es: seq<Event>, id: string, i: nat, j: nat)
    requires IsRun(ws, es) && ws[0].file == EMPTY && i <= j <= |es|
    requires forall m :: 0 <= m < j ==> !Reopens(ws[m], es[m])
    requires forall m :: i <= m < j ==> InRow(ws[m], es[m], id)
    ensures IdleTurns(ws, es, id, i, j) <= STALL_TURNS
    decreases j
  {
    hide After, InRow, Reopens, Of;
    if i < j {
      StallGuarantee(ws, es, id, i, j - 1);
      if Idle(ws[j - 1], es[j - 1], id) {
        RowAddsUp(ws, es, id, i, j - 1);
        ContinuationsStartFree(ws, es, j - 1, id);
      }
    }
  }

  /** The turn that completes such a row in work blocks the attempt: it is stalled,
      and not due. */
  lemma LastOfRowBlocks(w: World, ev: Event, id: string)
    requires Idle(w, ev, id) && Of(w.file, id).noProgress + 1 >= STALL_TURNS
    requires ev.turn.known && ev.turn.after == Some(Attempt(id, true))
    ensures Of(After(w, ev).file, id).stalled && After(w, ev).file.due.None? && Blocks(w, ev) == [id]
  {
    OutcomeKeeps(Opened(w.file, ev.tick), ev.turn);
  }

  /** A message turn of the attempt. */
  predicate Answers(w: World, ev: Event, id: string) {
    Started(w, ev) == Start(false) && ev.Ticked? && Subject(ev.tick, ev.turn) == Some(id)
  }

  lemma StalledStep(w: World, ev: Event, id: string)
    requires Of(w.file, id).stalled && !Answers(w, ev, id)
    ensures !Continues(w, ev, id) && Of(After(w, ev).file, id).stalled
  {
    if ev.Ticked? && Started(w, ev).Start? {
      OutcomeKeeps(Opened(w.file, ev.tick), ev.turn);
    }
  }

  /** A row of STALL_TURNS idle turns whose last leaves the attempt in work blocks
      it, and it gets no continuation turn until a message. */
  lemma {:induction false} RowBlocksUntilAnswered(ws: seq<World>, es: seq<Event>, id: string, i: nat, j: nat, n: nat)
    requires IsRun(ws, es) && i < j <= n < |es| && IdleTurns(ws, es, id, i, j) >= STALL_TURNS
    requires (forall m :: i <= m < j ==> InRow(ws[m], es[m], id)) && Idle(ws[j - 1], es[j - 1], id)
    requires es[j - 1].turn.known && es[j - 1].turn.after == Some(Attempt(id, true))
    requires forall m :: j <= m < n ==> !Answers(ws[m], es[m], id)
    ensures Blocks(ws[j - 1], es[j - 1]) == [id] && Of(ws[n].file, id).stalled && !Continues(ws[n], es[n], id)
    decreases n
  {
    hide After, InRow, Of, Blocks;
    RowAddsUp(ws, es, id, i, j - 1);
    assert ws[j] == After(ws[j - 1], es[j - 1]);
    LastOfRowBlocks(ws[j - 1], es[j - 1], id);
    if n > j {
      RowBlocksUntilAnswered(ws, es, id, i, j, n - 1);
      assert ws[n] == After(ws[n - 1], es[n - 1]);
      StalledStep(ws[n - 1], es[n - 1], id);
    }
    StalledNow(ws[n], es[n], id);
  }

  lemma StalledNow(w: World, ev: Event, id: string)
    requires Of(w.file, id).stalled
    ensures !Continues(w, ev, id)
  {
  }

  /** A continuation turn of id that finishes without progress: one that leaves it
      waiting on its gates, or one whose last write is lost. */
  function Uncounted(w: World, id: string, max: nat, waits: bool): Event {
    var now := w.lastStart + TURN_GAP;
    Ticked(Tick(now, true, false, Some(Attempt(id, true)), max, false, true, 0.0, 1.0, 0.0, 1.0, 0),
           Turn(Finished, 0, "", "", true, true, true, true, Some(Attempt(id, true)), waits, now), true, false, waits)
  }

  predicate GoesOn(w: World, id: string) {
    w.file.due == Some(id) && !Of(w.file, id).stalled && w.file.holdUntil <= w.lastStart + TURN_GAP
  }

  lemma OneUncounted(w: World, id: string, max: nat, waits: bool)
    requires GoesOn(w, id) && Of(w.file, id).continuations < max && w.lastStart >= -TURN_GAP
    ensures var ev := Uncounted(w, id, max, waits);
            var v := After(w, ev);
            && Continues(w, ev, id) && ev.turn.outcome.Finished? && !Progress(ev.turn)
            && GoesOn(v, id) && v.lastStart >= -TURN_GAP
            && Of(v.file, id).continuations <= Of(w.file, id).continuations + 1
  {
    OutcomeKeeps(Opened(w.file, Uncounted(w, id, max, waits).tick), Uncounted(w, id, max, waits).turn);
  }

  /** The guarantee's condition is needed: of turns that leave the attempt waiting on
      its gates, or whose last write is lost, any number finish without progress in
      a row, up to the limit of continuations. */
  lemma {:induction false} UncountedRow(w: World, id: string, max: nat, waits: bool, n: nat) returns (ws: seq<World>, es: seq<Event>)
    requires GoesOn(w, id) && Of(w.file, id).continuations + n <= max && w.lastStart >= -TURN_GAP
    ensures IsRun(ws, es) && ws[0] == w && |es| == n
    ensures forall i :: 0 <= i < n ==> Continues(ws[i], es[i], id) && es[i].turn.outcome.Finished? && !Progress(es[i].turn)
    decreases n
  {
    if n == 0 {
      ws, es := [w], [];
    } else {
      hide After, Continues, Of, GoesOn;
      OneUncounted(w, id, max, waits);
      var ev := Uncounted(w, id, max, waits);
      var more, rest := UncountedRow(After(w, ev), id, max, waits, n - 1);
      ws, es := [w] + more, [ev] + rest;
      forall i {:trigger es[i]} | 0 <= i < |es| ensures ws[i + 1] == After(ws[i], es[i]) {
        assert i > 0 ==> es[i] == rest[i - 1];
      }
      forall i | 0 <= i < n ensures Continues(ws[i], es[i], id) && es[i].turn.outcome.Finished? && !Progress(es[i].turn) {
        assert i > 0 ==> es[i] == rest[i - 1] && ws[i] == more[i - 1];
      }
    }
  }

  // The other bounds.

  /** The continuation turns that were recorded. */
  ghost function Continuations(ws: seq<World>, es: seq<Event>, id: string, n: nat): nat
    requires |ws| == |es| + 1 && n <= |es|
  {
    if n == 0 then 0
    else Continuations(ws, es, id, n - 1) + if Continues(ws[n - 1], es[n - 1], id) && Written(es[n - 1]) then 1 else 0
  }

  lemma ContinuationCounts(w: World, ev: Event, id: string)
    ensures Of(After(w, ev).file, id).continuations == Of(w.file, id).continuations + if Continues(w, ev, id) && Written(ev) then 1 else 0
  {
    if ev.Ticked? && Started(w, ev).Start? {
      OutcomeKeeps(Opened(w.file, ev.tick), ev.turn);
    }
  }

  lemma {:induction false} ContinuationsAddUp(ws: seq<World>, es: seq<Event>, id: string, n: nat)
    requires IsRun(ws, es) && ws[0].file == EMPTY && n <= |es|
    ensures Of(ws[n].file, id).continuations == Continuations(ws, es, id, n)
  {
    hide After, Continues;
    if n > 0 {
      ContinuationsAddUp(ws, es, id, n - 1);
      assert ws[n] == After(ws[n - 1], es[n - 1]);
      ContinuationCounts(ws[n - 1], es[n - 1], id);
    }
  }

  /** Of one attempt's continuation turns at most the limit are recorded, ever,
      whatever stops and whichever writes fail. */
  lemma {:induction false} ContinuationsBounded(ws: seq<World>, es: seq<Event>, id: string, n: nat, max: nat)
    requires IsRun(ws, es) && ws[0].file == EMPTY && n <= |es|
    requires forall m :: 0 <= m < n && es[m].Ticked? ==> es[m].tick.max <= max
    ensures Continuations(ws, es, id, n) <= max
  {
    if n > 0 {
      ContinuationsBounded(ws, es, id, n - 1, max);
      ContinuationsAddUp(ws, es, id, n - 1);
    }
  }

  function Doubled(n: nat): nat {
    if n == 0 then 1 else 2 * Doubled(n - 1)
  }

  /** The hold after n failures in a row: a minute doubled, up to half an hour. */
  function FailedHold(n: nat): int {
    if n == 0 then 0 else if n <= 5 then Doubled(n - 1) * MINUTE else 30 * MINUTE
  }

  /** A turn that fails, recorded. */
  predicate Fails(w: World, ev: Event) {
    Started(w, ev).Start? && Written(ev) && ev.turn.outcome.Failed?
  }

  /** An event within failures in a row: every turn that is recorded fails. */
  predicate InFailures(w: World, ev: Event) {
    Started(w, ev).Start? && Written(ev) ==> ev.turn.outcome.Failed?
  }

  ghost function Failures(ws: seq<World>, es: seq<Event>, i: nat, j: nat): nat
    requires |ws| == |es| + 1 && i <= j <= |es|
    decreases j - i
  {
    if i == j then 0 else Failures(ws, es, i, j - 1) + if Fails(ws[j - 1], es[j - 1]) then 1 else 0
  }

  lemma NextHold(n: nat)
    ensures NextBackoff(FailedHold(n), MINUTE, 30 * MINUTE) == FailedHold(n + 1)
  {
    assert Doubled(1) == 2 && Doubled(2) == 4 && Doubled(3) == 8 && Doubled(4) == 16;
  }

  lemma BackoffStep(w: World, ev: Event)
    requires InFailures(w, ev)
    ensures var v := After(w, ev).file;
            if Fails(w, ev) then
              v.backoff == NextBackoff(w.file.backoff, MINUTE, 30 * MINUTE) && v.holdUntil == ev.turn.ended + v.backoff
            else v.backoff == w.file.backoff
  {
  }

  /** The n-th failure in a row holds the member for a minute doubled n - 1 times, up
      to half an hour, from its turn's end; stops, lost writes and restarts between
      change nothing of it, and no turn starts before. */
  lemma {:induction false} FailuresDouble(ws: seq<World>, es: seq<Event>, i: nat, j: nat)
    requires IsRun(ws, es) && i <= j <= |es| && ws[i].file.backoff == 0
    requires forall m :: i <= m < j ==> InFailures(ws[m], es[m])
    ensures ws[j].file.backoff == FailedHold(Failures(ws, es, i, j))
    ensures i < j && Fails(ws[j - 1], es[j - 1]) ==>
              && ws[j].file.holdUntil == es[j - 1].turn.ended + FailedHold(Failures(ws, es, i, j))
              && (j < |es| && Started(ws[j], es[j]).Start? ==> es[j].tick.now >= ws[j].file.holdUntil)
    decreases j
  {
    assert FailedHold(0) == 0;
    hide After, Fails, InFailures, FailedHold, NextBackoff;
    if i < j {
      FailuresDouble(ws, es, i, j - 1);
      assert ws[j] == After(ws[j - 1], es[j - 1]);
      BackoffStep(ws[j - 1], es[j - 1]);
      NextHold(Failures(ws, es, i, j - 1));
    }
  }
}
