/** rerun() (internal/agent/automation.go:832-901): a head is claimed in the points
    file before the forge is asked to run its failed jobs again. The claims live in
    the pull request's entry, and are forgotten with it. */
module Reruns {
  import opened Points
  import opened PointTheorems

  datatype Answer = Reran | NoRerun | Unknown

  /** The forge asked at a head, after the claim at that step of the points. */
  datatype Ask = Ask(claim: nat, key: string, head: string, answer: Answer)

  /** The event claims the head, and says so to its caller. */
  predicate Grants(w: World, ev: Event, key: string, head: string) {
    ev.Amend? && ev.key == key && ev.amendment == Claim(head) && ev.written && Amends(w.file, key, ev.amendment)
  }

  predicate Gives(ev: Event, key: string, head: string) {
    ev.Amend? && ev.key == key && ev.amendment == Release(head)
  }

  /** The entry is dropped, or begun again for another attempt. */
  predicate Forgets(w: World, ev: Event, key: string)
    requires Allowed(w, ev)
  {
    && key in w.file
    && (key !in After(w, ev).file || (ev.Notice? && ev.written && KeyOf(ev.o) == key && ev.attempt != w.file[key].attempt))
  }

  ghost predicate Quiet(ws: seq<World>, es: seq<Event>, key: string, head: string, i: nat, j: nat)
    requires |ws| == |es| + 1 && j <= |es|
  {
    forall m :: i <= m < j ==> !Grants(ws[m], es[m], key, head)
  }

  /** The head was claimed for the ask. */
  ghost predicate Claimed(ws: seq<World>, es: seq<Event>, a: Ask)
    requires |ws| == |es| + 1
  {
    a.claim < |es| && Grants(ws[a.claim], es[a.claim], a.key, a.head)
  }

  /** The ask found no re-run, and is why the head is given back at r. */
  ghost predicate Frees(ws: seq<World>, es: seq<Event>, a: Ask, r: nat)
    requires |ws| == |es| + 1 && r < |es|
  {
    a.answer.NoRerun? && a.claim < r && Gives(es[r], a.key, a.head) && Quiet(ws, es, a.key, a.head, a.claim + 1, r)
  }

  /** What the calls keep: each ask has its claim, one each, and a head is given
      back only when the ask it was claimed for found no re-run. */
  ghost predicate Asking(ws: seq<World>, es: seq<Event>, asked: seq<Ask>) {
    && IsRun(ws, es)
    && (forall i :: 0 <= i < |asked| ==> Claimed(ws, es, asked[i]))
    && (forall i, j :: 0 <= i < j < |asked| ==> asked[i].claim < asked[j].claim)
    && (forall r {:trigger es[r]} :: 0 <= r < |es| && es[r].Amend? && es[r].amendment.Release? ==>
          exists i :: 0 <= i < |asked| && Frees(ws, es, asked[i], r))
  }

  // A claim stays until it is given back or forgotten.

  lemma {:induction false} WithoutOther(s: seq<string>, x: string, y: string)
    requires y in s && y != x
    ensures y in Without(s, x)
  {
    if s[0] != x && s[0] != y {
      WithoutOther(s[1..], x, y);
    }
  }

  predicate Holds(w: World, key: string, head: string) {
    key in w.file && head in w.file[key].reruns
  }

  lemma AmendedHolds(e: Entry, a: Amendment, head: string)
    requires head in e.reruns && a != Release(head)
    ensures head in Amended(e, a).reruns
  {
    if a.Release? {
      WithoutOther(e.reruns, a.head, head);
    }
  }

  lemma StepHolds(w: World, ev: Event, key: string, head: string)
    requires Allowed(w, ev) && Holds(w, key, head) && !Forgets(w, ev, key) && !Gives(ev, key, head)
    ensures Holds(After(w, ev), key, head)
  {
    hide Took, RanEntry, Amended, FileAfter, After, KeyOf, Amends;
    StepFacts(w, ev);
    var e := w.file[key];
    match ev {
      case Notice(o, attempt, f, now, _) => TookKeeps(e, o, f, now);
      case Complete(i, result) =>
        if result.Ran? {
          RanKeeps(e, w.jobs[i], result);
        }
      case Amend(_, _, _, _, a, _) =>
        if ev.key == key {
          AmendedHolds(e, a, head);
        }
      case _ =>
    }
  }

  /** A claim leaves the head claimed. */
  lemma GrantHolds(w: World, ev: Event, key: string, head: string)
    requires Grants(w, ev, key, head)
    ensures Holds(After(w, ev), key, head)
  {
    hide Watches, Pending, NewEntry;
  }

  lemma {:induction false} StillHolds(ws: seq<World>, es: seq<Event>, key: string, head: string, i: nat, j: nat)
    requires IsRun(ws, es) && i <= j <= |es| && Holds(ws[i], key, head)
    requires forall m :: i <= m < j ==> !Forgets(ws[m], es[m], key) && !Gives(es[m], key, head)
    ensures Holds(ws[j], key, head) && Quiet(ws, es, key, head, i, j)
    decreases j
  {
    hide After, Allowed, Forgets, Gives;
    if i < j {
      StillHolds(ws, es, key, head, i, j - 1);
      assert Allowed(ws[j - 1], es[j - 1]) && ws[j] == After(ws[j - 1], es[j - 1]);
      StepHolds(ws[j - 1], es[j - 1], key, head);
    }
  }

  /** The first time the head is given back. */
  lemma {:induction false} FirstGiven(ws: seq<World>, es: seq<Event>, key: string, head: string, i: nat, j: nat) returns (r: nat)
    requires IsRun(ws, es) && i <= j < |es| && Holds(ws[i], key, head) && Grants(ws[j], es[j], key, head)
    requires forall m :: i <= m < j ==> !Forgets(ws[m], es[m], key)
    ensures i <= r < j && Gives(es[r], key, head) && Quiet(ws, es, key, head, i, r)
    decreases j - i
  {
    hide After, Allowed, Forgets, Gives;
    if exists m :: i <= m < j && Gives(es[m], key, head) {
      r := i;
      while !Gives(es[r], key, head)
        invariant i <= r < j && forall m :: i <= m < r ==> !Gives(es[m], key, head)
        decreases j - r
      {
        r := r + 1;
      }
      StillHolds(ws, es, key, head, i, r);
    } else {
      StillHolds(ws, es, key, head, i, j);
    }
  }

  /** The forge is asked again at a head only when it had no re-run there, or when
      the entry that held the claim was forgotten between the two claims. */
  lemma AskedOnce(ws: seq<World>, es: seq<Event>, asked: seq<Ask>, a: nat, b: nat)
    requires Asking(ws, es, asked) && a < b < |asked| && asked[a].key == asked[b].key && asked[a].head == asked[b].head
    ensures asked[a].answer.NoRerun? || exists m :: asked[a].claim < m < asked[b].claim && Forgets(ws[m], es[m], asked[a].key)
  {
    hide After, Allowed, Forgets, Grants;
    var x, y := asked[a], asked[b];
    assert Claimed(ws, es, x) && Claimed(ws, es, y);
    if forall m :: x.claim < m < y.claim ==> !Forgets(ws[m], es[m], x.key) {
      assert ws[x.claim + 1] == After(ws[x.claim], es[x.claim]);
      GrantHolds(ws[x.claim], es[x.claim], x.key, x.head);
      var r := FirstGiven(ws, es, x.key, x.head, x.claim + 1, y.claim);
      var i :| 0 <= i < |asked| && Frees(ws, es, asked[i], r);
      assert Claimed(ws, es, asked[i]);
      assert asked[i].claim == x.claim;
    }
  }

  /** The condition is needed: the entry of a pull request that is not watched goes
      at the next write for another, one of another attempt begins again, and the
      forge is asked at the head a second time. */
  lemma ForgottenIsAskedAgain(key: string, attempt: string, number: int, url: string, head: string, between: Event)
    requires between.Notice? && between.written && (KeyOf(between.o) != key || between.attempt != attempt)
    ensures var claim := Amend(key, attempt, number, url, Claim(head), true);
            var w1 := After(START, claim);
            var w2 := After(w1, between);
            Asking([START, w1, w2, After(w2, claim)], [claim, between, claim], [Ask(0, key, head, Reran), Ask(2, key, head, Reran)])
  {
    hide Took, KeyOf, ToFire, After;
    var claim := Amend(key, attempt, number, url, Claim(head), true);
    var w1 := After(START, claim);
    var w2 := After(w1, between);
    ClaimsFirst(claim, key, head);
    Forgotten(w1, between, key);
    var ws, es := [START, w1, w2, After(w2, claim)], [claim, between, claim];
    var asked := [Ask(0, key, head, Reran), Ask(2, key, head, Reran)];
    assert Grants(ws[0], es[0], key, head) && Grants(ws[2], es[2], key, head);
    forall i {:trigger es[i]} | 0 <= i < 3 ensures Allowed(ws[i], es[i]) && ws[i + 1] == After(ws[i], es[i]) {
    }
    assert Claimed(ws, es, asked[0]) && Claimed(ws, es, asked[1]);
  }

  lemma ClaimsFirst(claim: Event, key: string, head: string)
    requires claim.Amend? && claim.key == key && claim.amendment == Claim(head) && claim.written
    ensures var v := After(START, claim);
            v.file == map[key := NewEntry(claim.attempt, claim.number, claim.url).(reruns := [head])] && v.watched == []
  {
    var e := NewEntry(claim.attempt, claim.number, claim.url);
    assert Amended(e, Claim(head)) == e.(reruns := [head]);
    assert Stays([], key, key, Amended(e, Claim(head)));
    var v := After(START, claim).file;
    assert key in v && v[key] == e.(reruns := [head]);
    assert v.Keys == {key};
  }

  lemma Forgotten(w: World, ev: Event, key: string)
    requires ev.Notice? && ev.written && key in w.file && w.watched == [] && !Pending(w.file[key])
    requires KeyOf(ev.o) != key || ev.attempt != w.file[key].attempt
    ensures key in After(w, ev).file ==> After(w, ev).file[key].reruns == []
  {
    hide KeyOf, ToFire, C.Step, C.KeptAfter;
    StepFacts(w, ev);
    TookKeeps(NewEntry(ev.attempt, 0, ""), ev.o, ev.f, ev.now);
  }

  // The call.

  /** A release has the ask it is for. */
  ghost predicate Justified(ws: seq<World>, es: seq<Event>, asked: seq<Ask>, ev: Event)
    requires |ws| == |es| + 1
  {
    ev.Amend? && ev.amendment.Release? ==>
      exists i :: 0 <= i < |asked| && asked[i].answer.NoRerun? && Gives(ev, asked[i].key, asked[i].head)
                  && Quiet(ws, es, asked[i].key, asked[i].head, asked[i].claim + 1, |es|)
  }

  lemma ClaimedOn(ws: seq<World>, es: seq<Event>, w: World, ev: Event, a: Ask)
    requires |ws| == |es| + 1 && Claimed(ws, es, a)
    ensures Claimed(ws + [w], es + [ev], a)
  {
    hide Grants;
    assert (ws + [w])[a.claim] == ws[a.claim];
  }

  lemma FreesOn(ws: seq<World>, es: seq<Event>, w: World, ev: Event, a: Ask, r: nat)
    requires |ws| == |es| + 1 && r <= |es| && a.claim < r && a.answer.NoRerun?
    requires Gives((es + [ev])[r], a.key, a.head) && Quiet(ws, es, a.key, a.head, a.claim + 1, r)
    ensures Frees(ws + [w], es + [ev], a, r)
  {
    hide Grants, Gives;
    assert forall m :: 0 <= m < |es| ==> (es + [ev])[m] == es[m] && (ws + [w])[m] == ws[m];
  }

  lemma Longer(ws: seq<World>, es: seq<Event>, asked: seq<Ask>, ev: Event)
    requires |ws| == |es| + 1 && Asking(ws, es, asked) && Allowed(ws[|es|], ev) && Justified(ws, es, asked, ev)
    ensures Asking(ws + [After(ws[|es|], ev)], es + [ev], asked)
  {
    var w := After(ws[|es|], ev);
    var vs, fs := Extend(ws, es, ev, w);
    ClaimsBefore(ws, es, asked);
    hide After, Allowed, Grants, IsRun, Quiet, Claimed;
    forall i | 0 <= i < |asked| ensures Claimed(vs, fs, asked[i]) {
      ClaimedOn(ws, es, w, ev, asked[i]);
    }
    forall r {:trigger fs[r]} | 0 <= r < |fs| && fs[r].Amend? && fs[r].amendment.Release?
      ensures exists i :: 0 <= i < |asked| && Frees(vs, fs, asked[i], r)
    {
      if r < |es| {
        assert fs[r] == es[r];
        var i :| 0 <= i < |asked| && Frees(ws, es, asked[i], r);
        FreesOn(ws, es, w, ev, asked[i], r);
      } else {
        var i :| 0 <= i < |asked| && asked[i].answer.NoRerun? && Gives(ev, asked[i].key, asked[i].head)
                 && Quiet(ws, es, asked[i].key, asked[i].head, asked[i].claim + 1, |es|);
        FreesOn(ws, es, w, ev, asked[i], r);
      }
    }
  }

  /** One more ask, after the last claim. */
  lemma AsksMore(ws: seq<World>, es: seq<Event>, asked: seq<Ask>, a: Ask)
    requires Asking(ws, es, asked) && Claimed(ws, es, a) && forall i :: 0 <= i < |asked| ==> asked[i].claim < a.claim
    ensures Asking(ws, es, asked + [a])
  {
    assert |ws| == |es| + 1;
    hide IsRun, Grants, Gives;
    var more := asked + [a];
    forall i | 0 <= i < |more| ensures Claimed(ws, es, more[i]) {
    }
    forall r {:trigger es[r]} | 0 <= r < |es| && es[r].Amend? && es[r].amendment.Release?
      ensures exists i :: 0 <= i < |more| && Frees(ws, es, more[i], r)
    {
      var i :| 0 <= i < |asked| && Frees(ws, es, asked[i], r);
      assert more[i] == asked[i];
    }
  }

  lemma ClaimsBefore(ws: seq<World>, es: seq<Event>, asked: seq<Ask>)
    requires Asking(ws, es, asked)
    ensures forall i :: 0 <= i < |asked| ==> asked[i].claim < |es|
  {
    forall i | 0 <= i < |asked| ensures asked[i].claim < |es| {
      assert Claimed(ws, es, asked[i]);
    }
  }

  lemma IsGranted(ws: seq<World>, es: seq<Event>, n: nat, key: string, head: string, answer: Answer)
    requires |ws| == |es| + 1 && n < |es| && !Holds(ws[n], key, head)
    requires es[n].Amend? && es[n].key == key && es[n].amendment == Claim(head) && es[n].written
    ensures Claimed(ws, es, Ask(n, key, head, answer))
  {
  }

  lemma NoneYet(ws: seq<World>, es: seq<Event>, key: string, head: string)
    requires |ws| == |es| + 1
    ensures Quiet(ws, es, key, head, |es|, |es|)
  {
  }

  lemma AmendAllowed(w: World, ev: Event)
    requires ev.Amend? || ev.Restart?
    ensures Allowed(w, ev)
  {
  }

  /** The last ask found no re-run, and its head was not claimed again. */
  lemma LastFrees(ws: seq<World>, es: seq<Event>, asked: seq<Ask>, ev: Event)
    requires |ws| == |es| + 1 && asked != []
    requires var a := asked[|asked| - 1]; a.answer.NoRerun? && Gives(ev, a.key, a.head) && Quiet(ws, es, a.key, a.head, a.claim + 1, |es|)
    ensures Justified(ws, es, asked, ev)
  {
  }

  class Rerunner {
    var w: World
    ghost var worlds: seq<World>
    ghost var events: seq<Event>
    ghost var asked: seq<Ask>

    constructor (start: World)
      ensures Valid() && w == start && asked == [] && events == []
    {
      w, worlds, events, asked := start, [start], [], [];
    }

    ghost predicate Valid()
      reads this
    {
      |worlds| == |events| + 1 && worlds[|events|] == w && Asking(worlds, events, asked)
    }

    twostate predicate Goes()
      reads this
    {
      Valid() && old(worlds) <= worlds && old(events) <= events
    }

    /** Any step of the points but a claim or a release, which only this call makes,
        one at a time. */
    predicate Others(ev: Event) {
      ev.Amend? ==> ev.amendment.SetUpdate?
    }

    method Happen(ev: Event)
      requires Valid() && Allowed(w, ev) && Justified(worlds, events, asked, ev)
      modifies `w, `worlds, `events
      ensures Goes() && w == After(old(w), ev) && events == old(events) + [ev] && worlds == old(worlds) + [w]
    {
      hide After, Allowed, Justified;
      ghost var ws, es := worlds + [After(w, ev)], events + [ev];
      Longer(worlds, events, asked, ev);
      w := After(w, ev);
      worlds, events := ws, es;
    }

    method Meanwhile(ghost key: string, ghost head: string, ghost from: nat) returns (died: bool)
      requires Valid() && from <= |events| && Quiet(worlds, events, key, head, from, |events|)
      modifies `w, `worlds, `events
      ensures Goes() && Quiet(worlds, events, key, head, from, |events|)
    {
      hide Asking, Allowed, After;
      var n: nat := *;
      while n > 0
        invariant Goes() && from <= |events| && Quiet(worlds, events, key, head, from, |events|)
      {
        var ev: Event := *;
        if Others(ev) && Allowed(w, ev) {
          assert Justified(worlds, events, asked, ev);
          Happen(ev);
        }
        n := n - 1;
      }
      died := *;
      if died {
        AmendAllowed(w, Restart);
        Happen(Restart);
      }
    }

    /** hostRerun for a run of an attempt, at a head with failed jobs; it may stop at
        any line, a write may fail, and others' steps come between. */
    method HostRerun(key: string, attempt: string, number: int, url: string, head: string, jobs: nat) returns (reran: bool)
      requires Valid()
      modifies this
      ensures Goes() && old(asked) <= asked && |asked| <= |old(asked)| + 1
      ensures jobs == 0 || head == "" || Holds(old(w), key, head) ==> w == old(w) && asked == old(asked) && !reran
      ensures asked != old(asked) ==> var a := asked[|old(asked)|];
                a.key == key && a.head == head && a.claim == |old(events)| && (reran <==> a.answer.Reran?)
      ensures reran ==> asked != old(asked)
    {
      hide Asking, After, Allowed, Quiet, Grants, Claimed;
      if jobs == 0 || head == "" || Holds(w, key, head) {
        return false;
      }
      ghost var claim := |events|;
      ClaimsBefore(worlds, events, asked);
      var written: bool := *;
      AmendAllowed(w, Amend(key, attempt, number, url, Claim(head), written));
      Happen(Amend(key, attempt, number, url, Claim(head), written));
      if !written {
        return false;
      }
      assert Quiet(worlds, events, key, head, claim + 1, |events|) by { NoneYet(worlds, events, key, head); }
      var died := Meanwhile(key, head, claim + 1);
      if died {
        return false;
      }
      var answer: Answer := *;
      assert Claimed(worlds, events, Ask(claim, key, head, answer)) by { IsGranted(worlds, events, claim, key, head, answer); }
      AsksMore(worlds, events, asked, Ask(claim, key, head, answer));
      asked := asked + [Ask(claim, key, head, answer)];
      if answer.NoRerun? {
        died := Meanwhile(key, head, claim + 1);
        if died {
          return false;
        }
        var released: bool := *;
        var gives := Amend(key, attempt, number, url, Release(head), released);
        AmendAllowed(w, gives);
        LastFrees(worlds, events, asked, gives);
        Happen(gives);
      }
      return answer.Reran?;
    }
  }
}
