/** Redeeming an invitation (internal/agent/join.go:504-616 and 776-837): begin,
    proof and complete under keys that are saved before they are sent, over any
    number of runs with one code, each of which may stop at any line. */
module Join {
  import opened Common
  import opened SessionEngine

  const MAX_BEGINS: nat := 3
  const MAX_PROOFS: nat := 3
  const MAX_RETRIES: nat := 5

  /** The recovery record: the invitation it is for, the keys and the challenge. */
  datatype JoinState = JoinState(code: string, url: string, beginKey: Option<nat>, challenge: Option<nat>, completeKey: Option<nat>)

  datatype BeginRequest = BeginRequest(key: nat, code: string)
  datatype CompleteRequest = CompleteRequest(key: nat, code: string, challenge: nat, receipt: nat)

  /** A request with what was on disk when it was sent. */
  datatype Sent<T> = Sent(request: T, disk: Option<JoinState>)

  datatype Ending = Linked | Blocked(failure: Failure) | ProofFailed | StateLost | Died

  /** A record is for one invitation at one server. */
  predicate For(st: JoinState, code: string, url: string) {
    st.code == code && st.url == url && (st.challenge.Some? <==> st.completeKey.Some?)
  }

  function Key(disk: Option<JoinState>): Option<nat> {
    if disk.Some? then disk.value.beginKey else None
  }

  function CompleteKey(disk: Option<JoinState>): Option<nat> {
    if disk.Some? then disk.value.completeKey else None
  }

  /** Every begin's key was on disk, for its code. */
  ghost predicate BeginsAhead(begins: seq<Sent<BeginRequest>>) {
    forall i :: 0 <= i < |begins| ==> Key(begins[i].disk) == Some(begins[i].request.key) && begins[i].disk.value.code == begins[i].request.code
  }

  /** Every completion's key was on disk, with its challenge. */
  ghost predicate CompletesAhead(completes: seq<Sent<CompleteRequest>>) {
    forall i :: 0 <= i < |completes| ==>
      && CompleteKey(completes[i].disk) == Some(completes[i].request.key)
      && completes[i].disk.value.challenge == Some(completes[i].request.challenge)
  }

  /** Completions under one key are of one challenge. */
  ghost predicate OneChallenge(completes: seq<Sent<CompleteRequest>>) {
    forall i, j :: 0 <= i < j < |completes| && completes[i].request.key == completes[j].request.key ==>
      completes[i].request.challenge == completes[j].request.challenge && completes[i].request.code == completes[j].request.code
  }

  /** Every key used is the one on disk, unless its challenge was answered
      invalid: keys are reused until then. */
  ghost predicate Reused(begins: seq<Sent<BeginRequest>>, completes: seq<Sent<CompleteRequest>>, disk: Option<JoinState>, invalid: set<nat>) {
    && (forall i :: 0 <= i < |begins| ==> begins[i].request.key in invalid || Key(disk) == Some(begins[i].request.key))
    && (forall i :: 0 <= i < |completes| ==> completes[i].request.key in invalid || CompleteKey(disk) == Some(completes[i].request.key))
  }

  /** An answer that refuses with the code. */
  predicate Denied<T>(r: Reply<T>, code: string) {
    r.No? && r.failure.Refused? && r.failure.code == code
  }

  /** A failure that may pass: not answered, or refused for now. */
  predicate Passing<T>(r: Reply<T>) {
    r.No? && (r.failure.Unreached? || (r.failure.Refused? && r.failure.retryable))
  }

  class Joiner {
    const code: string
    const url: string
    var disk: Option<JoinState>
    var linked: bool
    var lastKey: nat
    ghost var begins: seq<Sent<BeginRequest>>
    ghost var completes: seq<Sent<CompleteRequest>>
    ghost var invalid: set<nat>
    ghost var accepted: bool
    /** The answers, in order. */
    ghost var begun: seq<Reply<nat>>
    ghost var answered: seq<Reply<()>>

    constructor (code: string, url: string, disk: Option<JoinState>)
      requires disk.Some? ==> !For(disk.value, code, url)
      ensures this.code == code && this.url == url && Valid()
    {
      this.code, this.url, this.disk := code, url, disk;
      linked, lastKey := false, 0;
      begins, completes, invalid, accepted := [], [], {}, false;
      begun, answered := [], [];
    }

    /** What every run keeps. */
    ghost predicate Valid()
      reads this
    {
      && BeginsAhead(begins) && CompletesAhead(completes) && OneChallenge(completes)
      && (linked || Reused(begins, completes, Mine(disk), invalid))
      && Old() && (linked ==> accepted)
    }

    /** Keys used or saved for this invitation were drawn before. */
    ghost predicate Old()
      reads this
    {
      && (forall i :: 0 <= i < |begins| ==> begins[i].request.key <= lastKey)
      && (forall i :: 0 <= i < |completes| ==> completes[i].request.key <= lastKey)
      && (Mine(disk).Some? ==> Drawn(disk.value) && Agrees(disk.value))
    }

    predicate Drawn(st: JoinState)
      reads this
    {
      (st.beginKey.Some? ==> st.beginKey.value <= lastKey) && (st.completeKey.Some? ==> st.completeKey.value <= lastKey)
    }

    /** The completions sent under the record's key are of its challenge. */
    ghost predicate Agrees(st: JoinState)
      reads this
    {
      forall i :: 0 <= i < |completes| && st.completeKey == Some(completes[i].request.key) ==>
        st.challenge == Some(completes[i].request.challenge) && completes[i].request.code == code
    }

    /** The record on disk when it is this invitation's. */
    function Mine(d: Option<JoinState>): Option<JoinState> {
      if d.Some? && For(d.value, code, url) then d else None
    }

    method NewKey() returns (key: nat)
      modifies `lastKey
      ensures key == lastKey == old(lastKey) + 1
    {
      lastKey := lastKey + 1;
      key := lastKey;
    }

    /** saveJoinState: written, or not and the run ends. */
    method Save(st: JoinState) returns (ok: bool)
      modifies `disk
      ensures disk == if ok then Some(st) else old(disk)
    {
      ok := *;
      if ok {
        disk := Some(st);
      }
    }

    method Answer<T>() returns (r: Reply<T>, invalidated: bool)
      ensures invalidated <==> r.No? && CodeOf(r.failure) == "challenge_invalid"
    {
      r := *;
      invalidated := r.No? && CodeOf(r.failure) == "challenge_invalid";
    }

    /** A begin may be sent only with its key on disk. */
    method SendBegin(key: nat) returns (r: Reply<nat>)
      requires Valid() && !linked && Mine(disk).Some? && Key(disk) == Some(key)
      modifies `begins, `invalid, `begun
      ensures begun == old(begun) + [r]
      ensures Valid() && |begins| == |old(begins)| + 1 && old(begins) <= begins && begins[|old(begins)|].request == BeginRequest(key, code)
      ensures r.No? && CodeOf(r.failure) == "challenge_invalid" ==> key in invalid
      ensures old(invalid) <= invalid
    {
      begins := begins + [Sent(BeginRequest(key, code), disk)];
      var invalidated: bool;
      r, invalidated := Answer<nat>();
      begun := begun + [r];
      if invalidated {
        invalid := invalid + {key};
      }
    }

    /** A completion may be sent only with its key and its challenge on disk. An
        answer that the challenge is invalid ends the begin's key too. */
    method SendComplete(key: nat, challenge: nat, receipt: nat) returns (r: Reply<()>)
      requires Valid() && !linked && Mine(disk).Some? && CompleteKey(disk) == Some(key) && disk.value.challenge == Some(challenge)
      modifies `completes, `invalid, `accepted, `answered
      ensures accepted == (old(accepted) || r.Yes?) && answered == old(answered) + [r]
      ensures Valid() && |completes| == |old(completes)| + 1 && old(completes) <= completes
      ensures completes[|old(completes)|].request == CompleteRequest(key, code, challenge, receipt)
      ensures r.No? && CodeOf(r.failure) == "challenge_invalid" ==> key in invalid && (Key(disk).Some? ==> Key(disk).value in invalid)
      ensures old(invalid) <= invalid
    {
      completes := completes + [Sent(CompleteRequest(key, code, challenge, receipt), disk)];
      var invalidated: bool;
      r, invalidated := Answer<()>();
      answered := answered + [r];
      accepted := accepted || r.Yes?;
      if invalidated {
        invalid := invalid + {key} + (if Key(disk).Some? then {Key(disk).value} else {});
      }
    }

    /** loadJoinState: the record of this invitation, or a new one. */
    method Load() returns (st: JoinState)
      requires Valid() && !linked
      ensures Follows(st)
      ensures For(st, code, url) && if Mine(disk).Some? then Some(st) == disk else st == JoinState(code, url, None, None, None)
    {
      if disk.Some? && For(disk.value, code, url) {
        return disk.value;
      }
      return JoinState(code, url, None, None, None);
    }

    /** What the run's memory is against the disk: the same, or without the keys
        that were answered invalid. */
    ghost predicate Follows(st: JoinState)
      reads this
    {
      && For(st, code, url) && Drawn(st)
      && (st.beginKey.Some? ==> Some(st) == disk)
      && (st.beginKey.None? && st.challenge.None? ==> AllInvalid())
      && (st.challenge.Some? ==> Some(st) == disk)
    }

    /** No key used so far is still good. */
    ghost predicate AllInvalid()
      reads this
    {
      && (forall i :: 0 <= i < |begins| ==> begins[i].request.key in invalid)
      && (forall i :: 0 <= i < |completes| ==> completes[i].request.key in invalid)
    }

    /** redeem, for one run. At most MAX_BEGINS different begin keys are sent. */
    method Redeem() returns (r: Ending, ghost keys: seq<nat>)
      requires Valid() && !linked
      modifies `disk, `linked, `lastKey, `begins, `completes, `invalid, `accepted, `begun, `answered
      ensures Valid() && old(begins) <= begins && old(completes) <= completes && old(invalid) <= invalid
      ensures |keys| <= 3 && forall i :: |old(begins)| <= i < |begins| ==> begins[i].request.key in keys
      ensures |completes| <= |old(completes)| + 36 && |begins| <= |old(begins)| + 18
      ensures (linked <==> r.Linked?) && (linked ==> accepted)
    {
      hide Reused, BeginsAhead, CompletesAhead, OneChallenge;
      var st := Load();
      keys := [];
      var count, rounds := 0, 0;
      while true
        invariant Valid() && !linked && Follows(st)
        invariant old(begins) <= begins && old(completes) <= completes && old(invalid) <= invalid
        invariant |keys| == count <= MAX_BEGINS && forall i :: |old(begins)| <= i < |begins| ==> begins[i].request.key in keys
        invariant |begins| <= |old(begins)| + count * (1 + MAX_RETRIES)
        invariant 0 <= rounds <= count + (if st.challenge.Some? then 0 else 1)
        invariant |completes| <= |old(completes)| + rounds * (1 + MAX_PROOFS + MAX_RETRIES)
        decreases MAX_BEGINS - count, st.challenge.Some?
      {
        if st.challenge.None? {
          if count == MAX_BEGINS {
            return Blocked(Refused("challenge_invalid", false, 0)), keys;
          }
          count := count + 1;
          var stop: Option<Ending>, key: nat;
          st, stop, key := Begin(st);
          keys := keys + [key];
          if stop.Some? {
            return stop.value, keys;
          }
        } else {
          rounds := rounds + 1;
          r := Complete(st.challenge.value, st.completeKey.value);
          if r.Linked? {
            linked := true;
          }
          if !(r.Blocked? && CodeOf(r.failure) == "challenge_invalid") {
            return r, keys;
          }
          var ok: bool;
          st, ok := StartAgain();
          if !ok {
            return StateLost, keys;
          }
        }
      }
    }

    /** The record without the keys of a challenge that was answered invalid. */
    method StartAgain() returns (st: JoinState, ok: bool)
      requires Valid() && !linked && Mine(disk).Some? && disk.value.completeKey.Some? && disk.value.completeKey.value in invalid
      requires disk.value.beginKey.Some? ==> disk.value.beginKey.value in invalid
      modifies `disk
      ensures Valid() && (ok ==> Follows(st) && st.challenge.None?)
    {
      st := JoinState(code, url, None, None, None);
      ok := Save(st);
    }

    /** One begin: its key saved, if it is new, then sent until it is answered, and
        the challenge saved with a new completion key. */
    method Begin(had: JoinState) returns (st: JoinState, stop: Option<Ending>, key: nat)
      requires Valid() && !linked && Follows(had) && had.challenge.None?
      modifies `disk, `lastKey, `begins, `invalid, `begun
      ensures old(begun) <= begun && (stop.None? ==> |begun| > |old(begun)|)
      ensures stop.None? ==> if st.challenge.Some? then begun[|begun| - 1] == Yes(st.challenge.value) else Denied(begun[|begun| - 1], "challenge_invalid")
      ensures stop.Some? && stop.value.Blocked? ==> |begun| > |old(begun)| && begun[|begun| - 1] == No(stop.value.failure)
                                                    && !Denied(begun[|begun| - 1], "challenge_invalid")
      ensures !(stop.Some? && stop.value.ProofFailed?)
      ensures Valid() && old(begins) <= begins && old(invalid) <= invalid
      ensures |begins| <= |old(begins)| + 1 + MAX_RETRIES
      ensures forall i :: |old(begins)| <= i < |begins| ==> begins[i].request.key == key
      ensures stop.None? ==> Follows(st) && (st.challenge.Some? || st.beginKey.None?)
      ensures stop.Some? ==> !stop.value.Linked?
    {
      st := had;
      key := 0;
      if st.beginKey.None? {
        key := NewKey();
        st := st.(beginKey := Some(key));
        var ok := Save(st);
        if !ok {
          return st, Some(StateLost), key;
        }
      }
      key := st.beginKey.value;
      var r, died := BeginUntilAnswered(key);
      if died {
        return st, Some(Died), key;
      }
      if r.No? {
        if CodeOf(r.failure) == "challenge_invalid" {
          st := st.(beginKey := None);
          return st, None, key;
        }
        return st, Some(Blocked(r.failure)), key;
      }
      var completeKey := NewKey();
      st := st.(challenge := Some(r.value), completeKey := Some(completeKey));
      var ok := Save(st);
      return st, if ok then None else Some(StateLost), key;
    }

    /** retry, of a begin: the same request while its failure is retryable. */
    method BeginUntilAnswered(key: nat) returns (r: Reply<nat>, died: bool)
      requires Valid() && !linked && Mine(disk).Some? && Key(disk) == Some(key)
      modifies `begins, `invalid, `begun
      ensures |begun| - |old(begun)| == |begins| - |old(begins)| && old(begun) <= begun
      ensures forall i :: |old(begun)| <= i < |begun| - (if died then 0 else 1) ==> Passing(begun[i])
      ensures !died ==> |begun| > |old(begun)| && begun[|begun| - 1] == r && (Passing(r) ==> |begun| == |old(begun)| + 1 + MAX_RETRIES)
      ensures Valid() && old(begins) <= begins && old(invalid) <= invalid
      ensures |begins| <= |old(begins)| + 1 + MAX_RETRIES
      ensures forall i :: |old(begins)| <= i < |begins| ==> begins[i].request.key == key
      ensures !died && r.No? && CodeOf(r.failure) == "challenge_invalid" ==> key in invalid
    {
      var tries := 0;
      while true
        invariant Valid() && !linked && old(begins) <= begins && old(invalid) <= invalid
        invariant 0 <= tries <= MAX_RETRIES && |begins| == |old(begins)| + tries && |begun| == |old(begun)| + tries
        invariant old(begun) <= begun && forall i :: |old(begun)| <= i < |begun| ==> Passing(begun[i])
        invariant forall i :: |old(begins)| <= i < |begins| ==> begins[i].request.key == key
        decreases MAX_RETRIES - tries
      {
        died := *;
        if died {
          return No(Other), true;
        }
        r := SendBegin(key);
        if r.Yes? || !Retryable(r.failure) || tries == MAX_RETRIES {
          return r, false;
        }
        tries := tries + 1;
      }
    }

    /** complete: a new receipt for every try, the key the same. */
    method Complete(challenge: nat, key: nat) returns (r: Ending)
      requires Valid() && !linked && Mine(disk).Some? && CompleteKey(disk) == Some(key) && disk.value.challenge == Some(challenge)
      modifies `completes, `invalid, `accepted, `answered
      ensures |answered| - |old(answered)| == |completes| - |old(completes)| && old(answered) <= answered
      ensures forall i :: |old(answered)| <= i < |answered| - 1 ==> Passing(answered[i]) || Denied(answered[i], "proof_invalid")
      ensures r.Linked? ==> |answered| > |old(answered)| && answered[|answered| - 1].Yes?
      ensures r.Blocked? ==> |answered| > |old(answered)| && answered[|answered| - 1] == No(r.failure)
                             && (Denied(answered[|answered| - 1], "proof_invalid") ==> |answered| > |old(answered)| + MAX_PROOFS)
                             && (Passing(answered[|answered| - 1]) ==> |answered| > |old(answered)| + MAX_RETRIES)
      ensures Valid() && old(completes) <= completes && old(invalid) <= invalid
      ensures accepted == (old(accepted) || r.Linked?)
      ensures |completes| <= |old(completes)| + 1 + MAX_PROOFS + MAX_RETRIES
      ensures r.Blocked? && CodeOf(r.failure) == "challenge_invalid" ==> key in invalid && (Key(disk).Some? ==> Key(disk).value in invalid)
      ensures !r.StateLost?
    {
      var proofs, tries := 0, 0;
      while true
        invariant Valid() && !linked && old(completes) <= completes && old(invalid) <= invalid
        invariant 0 <= proofs <= MAX_PROOFS && 0 <= tries <= MAX_RETRIES
        invariant |completes| == |old(completes)| + proofs + tries && accepted == old(accepted)
        invariant |answered| == |old(answered)| + proofs + tries && old(answered) <= answered
        invariant forall i :: |old(answered)| <= i < |answered| ==> Passing(answered[i]) || Denied(answered[i], "proof_invalid")
        decreases MAX_PROOFS + MAX_RETRIES - proofs - tries
      {
        var died, proved: bool, receipt: nat := *, *, *;
        if died {
          return Died;
        }
        if !proved {
          return ProofFailed;
        }
        var answer := SendComplete(key, challenge, receipt);
        if answer.Yes? {
          return Linked;
        }
        if CodeOf(answer.failure) == "proof_invalid" && proofs < MAX_PROOFS {
          proofs := proofs + 1;
        } else if Retryable(answer.failure) && tries < MAX_RETRIES {
          tries := tries + 1;
        } else {
          return Blocked(answer.failure);
        }
      }
    }

    /** join's end: the record goes once the home is linked. */
    method Forget()
      requires Valid() && linked
      modifies `disk
      ensures Valid() && (disk.None? || disk == old(disk))
    {
      var cleared: bool := *;
      if cleared {
        disk := None;
      }
    }
  }
}
