/** When the turn loop starts a turn, what holds it, and what a turn leaves, over every
    run and in the terms of what a tick reads and how a turn went
    (internal/agent/serve.go:174-250 and 382-487). */
module TurnTheorems {
  import opened Common
  import opened TurnLoop

  // What starts a turn.

  /** A turn is owed: the member is open and not held, a message waits or the attempt
      in work is due a continuation it may have, and the gap has passed. */
  predicate Owed(w: World, k: Tick) {
    && k.open && w.file.holdUntil <= k.now && k.now >= w.lastStart + 5 * SECOND
    && (k.pending
        || (k.attempt.Some? && k.attempt.value.inWork && w.file.due == Some(k.attempt.value.id) && !k.gates
            && !Of(w.file, k.attempt.value.id).stalled && Of(w.file, k.attempt.value.id).continuations < k.max))
  }

  /** The totals were read, and leave room in the day's budget and the attempt's. */
  predicate Affordable(k: Tick) {
    k.totals && k.dayCost < k.dayBudget && (k.attempt.Some? ==> k.attemptCost < k.attemptBudget)
  }

  /** A turn starts exactly when one is owed and the budgets leave room for it; it is
      a continuation exactly when no message waits. */
  lemma TurnStartsExactlyWhen(ws: seq<World>, es: seq<Event>, n: nat)
    requires IsRun(ws, es) && n < |es| && es[n].Ticked?
    ensures var w, k := ws[n], es[n].tick;
            && ws[n + 1].lastStart == (if Owed(w, k) && Affordable(k) then k.now else w.lastStart)
            && (Started(w, es[n]) == Start(true) <==> Owed(w, k) && Affordable(k) && !k.pending)
            && (Started(w, es[n]) == Start(false) <==> Owed(w, k) && Affordable(k) && k.pending)
  {
    assert ws[n + 1] == After(ws[n], es[n]);
  }

  /** A turn that is owed and cannot be afforded holds the member: for a minute when
      the totals were not read, until tomorrow when the day's budget is spent, for an
      hour when the attempt's is. Nothing changes when none is owed. */
  lemma UnaffordableHolds(ws: seq<World>, es: seq<Event>, n: nat)
    requires IsRun(ws, es) && n < |es| && es[n].Ticked? && !(Owed(ws[n], es[n].tick) && Affordable(es[n].tick))
    ensures var w, k := ws[n], es[n].tick;
            ws[n + 1] == if !Owed(w, k) || !es[n].written then w
                         else w.(file := w.file.(holdUntil := if !k.totals then k.now + 60 * SECOND
                                                              else if k.dayCost >= k.dayBudget then k.tomorrow
                                                              else k.now + 3600 * SECOND))
  {
    assert ws[n + 1] == After(ws[n], es[n]);
  }

  /** The ticks from the i-th event on are in time's order. */
  ghost predicate InOrder(es: seq<Event>, i: nat) {
    forall a, b :: i <= a < b < |es| && es[a].Ticked? && es[b].Ticked? ==> es[a].tick.now <= es[b].tick.now
  }

  lemma {:induction false} HoldLasts(ws: seq<World>, es: seq<Event>, i: nat, j: nat)
    requires IsRun(ws, es) && i <= j <= |es|
    ensures ws[j].file.holdUntil == ws[i].file.holdUntil
            || exists m {:trigger es[m]} :: i <= m < j && es[m].Ticked? && es[m].tick.now >= ws[i].file.holdUntil
    decreases j
  {
    hide After;
    if i < j {
      HoldLasts(ws, es, i, j - 1);
      assert ws[j] == After(ws[j - 1], es[j - 1]);
      if ws[j].file.holdUntil != ws[j - 1].file.holdUntil {
        HeldStep(ws[j - 1], es[j - 1]);
      }
    }
  }

  lemma HeldStep(w: World, ev: Event)
    requires After(w, ev).file.holdUntil != w.file.holdUntil || Started(w, ev).Start?
    ensures ev.Ticked? && ev.tick.now >= w.file.holdUntil
  {
  }

  /** Until a hold is over no turn starts, whatever else happens and however often the
      launcher starts again. */
  lemma NoTurnBeforeHold(ws: seq<World>, es: seq<Event>, i: nat, j: nat)
    requires IsRun(ws, es) && i <= j < |es| && InOrder(es, i) && Started(ws[j], es[j]).Start?
    ensures es[j].tick.now >= ws[i].file.holdUntil
  {
    hide After;
    HoldLasts(ws, es, i, j);
    HeldStep(ws[j], es[j]);
  }

  // What a turn leaves.

  /** The turn of the event was made and recorded. */
  predicate Recorded(w: World, ev: Event) {
    Started(w, ev).Start? && !ev.died && ev.written
  }

  /** An outcome that waits for someone outside. */
  predicate Outside(t: Turn) {
    t.outcome.NeedsLogin? || t.outcome.ModelUnavailable? || (t.outcome.LimitReached? && !t.outcome.budget && t.outcome.resetAt <= t.ended)
  }

  /** The hold after a recorded turn: none after one that finished, was stopped or
      spent its own budget; until the provider's reset when that is to come; else a
      backoff, which only the outcomes that wait have. */
  lemma HoldAfter(ws: seq<World>, es: seq<Event>, n: nat)
    requires IsRun(ws, es) && n < |es| && Recorded(ws[n], es[n])
    ensures var t, file := es[n].turn, ws[n + 1].file;
            && (t.outcome.Finished? || t.outcome.Stopped? || (t.outcome.LimitReached? && t.outcome.budget) ==> file.holdUntil == 0 && file.backoff == 0)
            && (t.outcome.LimitReached? && !t.outcome.budget && t.outcome.resetAt > t.ended ==> file.holdUntil == t.outcome.resetAt && file.backoff == 0)
            && (Outside(t) || t.outcome.Failed? ==> file.holdUntil == t.ended + file.backoff)
            && (t.outcome.Failed? ==> file.backoff >= 60 * SECOND) && (Outside(t) ==> file.backoff >= 3600 * SECOND)
  {
    assert ws[n + 1] == After(ws[n], es[n]);
  }

  /** The hold after n waits for someone outside in a row: an hour doubled, up to eight. */
  function OutsideHold(n: nat): int {
    match n
    case 0 => 0
    case 1 => 1 * 3600 * SECOND
    case 2 => 2 * 3600 * SECOND
    case 3 => 4 * 3600 * SECOND
    case _ => 8 * 3600 * SECOND
  }

  ghost function Outsides(ws: seq<World>, es: seq<Event>, i: nat, j: nat): nat
    requires |ws| == |es| + 1 && i <= j <= |es|
    decreases j - i
  {
    if i == j then 0 else Outsides(ws, es, i, j - 1) + if Recorded(ws[j - 1], es[j - 1]) then 1 else 0
  }

  lemma OutsideStep(w: World, ev: Event, n: nat)
    requires Recorded(w, ev) ==> Outside(ev.turn)
    requires w.file.backoff == OutsideHold(n)
    ensures After(w, ev).file.backoff == if Recorded(w, ev) then OutsideHold(n + 1) else OutsideHold(n)
  {
  }

  /** And it doubles with each, stops and lost writes between changing nothing. */
  lemma {:induction false} OutsideDoubles(ws: seq<World>, es: seq<Event>, i: nat, j: nat)
    requires IsRun(ws, es) && i <= j <= |es| && ws[i].file.backoff == 0
    requires forall m :: i <= m < j && Recorded(ws[m], es[m]) ==> Outside(es[m].turn)
    ensures ws[j].file.backoff == OutsideHold(Outsides(ws, es, i, j))
    decreases j
  {
    hide After, Outside, Recorded;
    if i < j {
      OutsideDoubles(ws, es, i, j - 1);
      assert ws[j] == After(ws[j - 1], es[j - 1]);
      OutsideStep(ws[j - 1], es[j - 1], Outsides(ws, es, i, j - 1));
    }
  }

  /** The turn made a step or a new commit. */
  predicate Moved(t: Turn) {
    t.steps > 0 || (t.headAfter != "" && t.headAfter != t.headBefore)
  }

  /** The attempt a recorded turn is counted for: the one before it, or the one it
      opened. */
  predicate CountsFor(ev: Event, id: string) {
    ev.Ticked? && if ev.tick.attempt.Some? then ev.tick.attempt.value.id == id else ev.turn.known && ev.turn.after.Some? && ev.turn.after.value.id == id
  }

  /** A finished turn with the doc at hand that changed nothing of its section and
      made no step. */
  predicate LeftUntouched(ev: Event) {
    ev.Ticked? && ev.turn.worker && ev.turn.outcome.Finished? && ev.tick.attempt.Some? && ev.turn.doc && ev.turn.same && ev.turn.steps == 0
  }

  /** What a recorded turn does to its attempt's counters: a continuation is counted,
      and a message ends a stall; a turn that finished without a move adds one and a
      move starts again, the section's count likewise; waiting on the gates starts
      both again. No other attempt's change. */
  lemma CountersAfter(ws: seq<World>, es: seq<Event>, n: nat, id: string)
    requires IsRun(ws, es) && n < |es| && Recorded(ws[n], es[n])
    ensures var ev, a, b := es[n], Of(ws[n].file, id), Of(ws[n + 1].file, id);
            var t, waits := ev.turn, ev.turn.worker && ev.turn.gates;
            if !CountsFor(ev, id) then a == b
            else
              && b.head == t.headAfter && b.continuations == a.continuations + (if ev.tick.pending then 0 else 1)
              && b.noProgress == (if waits || Moved(t) then 0 else if t.outcome.Finished? then a.noProgress + 1 else a.noProgress)
              && b.untouched == (if waits then 0 else if LeftUntouched(ev) then a.untouched + 1
                                 else if t.worker && t.outcome.Finished? && ev.tick.attempt.Some? && t.doc then 0 else a.untouched)
              && (b.stalled <==> (a.stalled && !ev.tick.pending) || Blocks(ws[n], ev) == [id])
  {
    assert ws[n + 1] == After(ws[n], es[n]);
    OutcomeKeeps(Opened(ws[n].file, es[n].tick), es[n].turn);
  }

  /** A recorded turn blocks its attempt exactly when it leaves it in work, not stalled
      already, with three turns without a move or two that left its section untouched;
      the attempt it leaves in work is due unless it blocked it. */
  lemma BlocksExactlyWhen(ws: seq<World>, es: seq<Event>, n: nat, id: string)
    requires IsRun(ws, es) && n < |es| && Recorded(ws[n], es[n])
    ensures var ev, a, b := es[n], Of(ws[n].file, id), Of(ws[n + 1].file, id);
            Blocks(ws[n], ev) == [id] <==>
              && CountsFor(ev, id) && ev.turn.known && ev.turn.after == Some(Attempt(id, true))
              && !(a.stalled && !ev.tick.pending) && (b.noProgress >= 3 || b.untouched >= 2)
    ensures var t := es[n].turn;
            ws[n + 1].file.due == if t.known && t.after.Some? && t.after.value.inWork && Blocks(ws[n], es[n]) == [] then Some(t.after.value.id) else None
  {
    assert ws[n + 1] == After(ws[n], es[n]);
    OutcomeKeeps(Opened(ws[n].file, es[n].tick), es[n].turn);
  }

  // The section's guarantee.

  /** A recorded continuation turn of the attempt that left its section untouched, and
      does not leave it waiting on its gates. */
  predicate Neglects(w: World, ev: Event, id: string) {
    Recorded(w, ev) && Continues(w, ev, id) && LeftUntouched(ev) && !ev.turn.gates
  }

  /** Within a row every turn that starts is a continuation of the attempt, and a
      recorded one that finished left its section untouched. */
  predicate InNeglect(w: World, ev: Event, id: string) {
    Started(w, ev).Start? ==>
      Continues(w, ev, id) && (Recorded(w, ev) ==> !(ev.turn.worker && ev.turn.gates) && (ev.turn.outcome.Finished? && ev.turn.worker && ev.turn.doc ==> LeftUntouched(ev)))
  }

  ghost function Neglected(ws: seq<World>, es: seq<Event>, id: string, i: nat, j: nat): nat
    requires |ws| == |es| + 1 && i <= j <= |es|
    decreases j - i
  {
    if i == j then 0 else Neglected(ws, es, id, i, j - 1) + if Neglects(ws[j - 1], es[j - 1], id) then 1 else 0
  }

  lemma NeglectCounts(w: World, ev: Event, id: string)
    requires InNeglect(w, ev, id)
    ensures Of(After(w, ev).file, id).untouched == Of(w.file, id).untouched + if Neglects(w, ev, id) then 1 else 0
  {
    if ev.Ticked? && Started(w, ev).Start? {
      OutcomeKeeps(Opened(w.file, ev.tick), ev.turn);
    }
  }

  lemma {:induction false} NeglectAddsUp(ws: seq<World>, es: seq<Event>, id: string, i: nat, j: nat)
    requires IsRun(ws, es) && i <= j <= |es| && forall m :: i <= m < j ==> InNeglect(ws[m], es[m], id)
    ensures Of(ws[j].file, id).untouched == Of(ws[i].file, id).untouched + Neglected(ws, es, id, i, j)
    decreases j
  {
    hide After, InNeglect, Neglects, Of;
    if i < j {
      NeglectAddsUp(ws, es, id, i, j - 1);
      assert ws[j] == After(ws[j - 1], es[j - 1]);
      NeglectCounts(ws[j - 1], es[j - 1], id);
    }
  }

  /** Without a message at most two continuation turns of an attempt are recorded in a
      row that finish without a step and leave its section of the doc untouched. */
  lemma {:induction false} SectionGuarantee(ws: seq<World>, es: seq<Event>, id: string, i: nat, j: nat)
    requires IsRun(ws, es) && ws[0].file == EMPTY && i <= j <= |es|
    requires forall m :: 0 <= m < j ==> !Reopens(ws[m], es[m])
    requires forall m :: i <= m < j ==> InNeglect(ws[m], es[m], id)
    ensures Neglected(ws, es, id, i, j) <= 2
    decreases j
  {
    hide After, InNeglect, Reopens, Of;
    if i < j {
      SectionGuarantee(ws, es, id, i, j - 1);
      if Neglects(ws[j - 1], es[j - 1], id) {
        NeglectAddsUp(ws, es, id, i, j - 1);
        ContinuationsStartFree(ws, es, j - 1, id);
      }
    }
  }
}
