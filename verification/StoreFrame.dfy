/**
 What one critical section of the channel store leaves as it was, whichever it is.

 The linearizability proof follows a call from its invocation to its return. The proofs about the chat only need to
 know what a single step of a call does to everybody else: names, channel objects and the history only grow, other
 calls are not touched but for a leave that takes effect early, and no membership but that of the call's own user
 changes (`Advanced`).
 */
module StoreFrame {
  import opened Collections
  import opened StoreSpec
  import opened StoreMachine
  import opened StoreProofs

  /** `t` has returned with this answer, having broadcast to `told`. */
  ghost predicate Ended(s: State, t: nat, outcome: Outcome, told: Option<set<nat>>) {
    && t < |s.calls| && s.calls[t].pc.Done? && s.calls[t].pc.at < |s.history|
    && s.history[s.calls[t].pc.at] == Returned(t, s.calls[t].op, outcome, told)
  }

  /** The answer a call took effect with. */
  ghost predicate Effect(s: State, t: nat, outcome: Outcome) {
    && t < |s.calls| && s.calls[t].lin.Some? && s.calls[t].lin.value < |s.history|
    && s.history[s.calls[t].lin.value] == Linearized(t, s.calls[t].op, outcome)
  }

  /** Names, objects, returned calls and history only grow, and `user` is a member of the same channels. */
  ghost predicate Extends(s: State, s': State, user: nat) {
    && Grows(s, s')
    && forall r: nat :: user in Members(s', r) <==> user in Members(s, r)
  }

  ghost predicate Grows(s: State, s': State) {
    && (forall n | n in s.names :: n in s'.names && s'.names[n] == s.names[n])
    && |s.channels| <= |s'.channels|
    && (forall r | 0 <= r < |s.channels| :: s'.channels[r].name == s.channels[r].name)
    && |s.calls| <= |s'.calls|
    && (forall u | 0 <= u < |s.calls| :: s'.calls[u].op == s.calls[u].op
          && (s.calls[u].pc.Done? ==> s'.calls[u].pc == s.calls[u].pc)
          && (s.calls[u].lin.Some? ==> s'.calls[u].lin == s.calls[u].lin))
    && |s.history| <= |s'.history|
    && (forall j | 0 <= j < |s.history| :: s'.history[j] == s.history[j])
  }

  ghost predicate Advanced(s: State, s': State, t: nat)
    requires t < |s.calls|
  {
    var op := s.calls[t].op;
    && Grows(s, s') && |s'.calls| == |s.calls|
    && (forall u | 0 <= u < |s.calls| && u != t :: Untouched(s.calls[u], s'.calls[u]))
    && (forall u: nat | u != op.user :: Extends(s, s', u))
    && (!s.calls[t].pc.Change? ==> Extends(s, s', op.user))
    && match s.calls[t].pc
       case Lookup => AfterLookup(s, s', t)
       case Check(ref) => AfterCheck(s, s', t, ref)
       case Change(ref) => AfterChange(s, s', t, ref)
       case Notify(ref) => Ended(s', t, Ok, Some(Members(s, ref))) && s'.calls[t].lin == s.calls[t].lin
                           && s'.calls[t].pc == Done(|s.history|) && |s'.history| == |s.history| + 1
       case Done(_) => false
  }

  ghost predicate AfterLookup(s: State, s': State, t: nat)
    requires t < |s.calls| <= |s'.calls|
  {
    var op := s.calls[t].op;
    if op.kind != Create && op.name != "" && op.name in s.names then
      s'.calls[t].pc == Check(s.names[op.name]) && |s'.history| == |s.history|
    else
      var outcome := Result(View(s), op);
      Ended(s', t, outcome, None) && Effect(s', t, outcome) && NoBroadcast(s, s')
      && (outcome == Ok ==> op.kind == Create && op.name in s'.names && Members(s', s'.names[op.name]) == {})
  }

  ghost predicate AfterCheck(s: State, s': State, t: nat, ref: nat)
    requires t < |s.calls| <= |s'.calls|
  {
    var op := s.calls[t].op;
    var has := op.user in Members(s, ref);
    if op.kind == Present || has == (op.kind == Join) then
      var outcome := if op.kind == Present && has then Ok
                     else if op.kind == Join then Err(UserAlreadyInChannel) else Err(UserNotInChannel);
      Ended(s', t, outcome, None) && Effect(s', t, outcome) && NoBroadcast(s, s')
    else s'.calls[t].pc == Change(ref) && |s'.history| == |s.history|
  }

  ghost predicate AfterChange(s: State, s': State, t: nat, ref: nat)
    requires t < |s.calls| <= |s'.calls|
  {
    var op := s.calls[t].op;
    && s'.calls[t].pc == Notify(ref) && NoBroadcast(s, s')
    && (forall r: nat | r != ref :: Members(s', r) == Members(s, r))
    && Members(s', ref) == (if op.kind == Join then Members(s, ref) + {op.user} else Members(s, ref) - {op.user})
    && (op.kind == Evict && op.user in Members(s, ref) && NoLeave(s, op.user, ref) ==> Effect(s', t, Ok))
  }

  ghost predicate NoLeave(s: State, user: nat, ref: nat) {
    forall w: nat :: !PendingLeave(s, w, user, ref)
  }

  /** The events of this step record no broadcast. */
  ghost predicate NoBroadcast(s: State, s': State) {
    forall j | |s.history| <= j < |s'.history| :: s'.history[j].Returned? ==> s'.history[j].told == None
  }

  lemma AdvanceFrame(s: State, t: nat)
    requires Inv(s) && Running(s, t)
    ensures Advanced(s, Advance(s, t), t)
  {
    assert CallOk(s, s.calls[t]);
    match s.calls[t].pc
    case Lookup => LookupFrame(s, t);
    case Check(ref) => CheckFrame(s, t);
    case Change(_) => ChangeFrame(s, t);
    case Notify(_) =>
  }

  lemma LookupFrame(s: State, t: nat)
    requires Running(s, t) && s.calls[t].pc.Lookup? && s.calls[t].lin == None
    ensures Advanced(s, AtLookup(s, t), t)
  {
    var op := s.calls[t].op;
    if op.name != "" && op.kind.Create? && op.name !in s.names {
      CreateFrame(s, t);
    }
  }

  lemma CreateFrame(s: State, t: nat)
    requires Running(s, t) && s.calls[t].pc.Lookup? && s.calls[t].lin == None
    requires s.calls[t].op.name != "" && s.calls[t].op.kind.Create? && s.calls[t].op.name !in s.names
    ensures Advanced(s, AtLookup(s, t), t)
  {
  }

  lemma CheckFrame(s: State, t: nat)
    requires Running(s, t) && s.calls[t].pc.Check? && s.calls[t].lin == None && !s.calls[t].op.kind.Create?
    ensures Advanced(s, AtCheck(s, t), t)
  {
  }

  lemma ChangeFrame(s: State, t: nat)
    requires Inv(s) && Running(s, t) && s.calls[t].pc.Change?
    ensures Advanced(s, AtChange(s, t), t)
  {
    var op, ref := s.calls[t].op, s.calls[t].pc.ref;
    assert CallOk(s, s.calls[t]);
    var members := if op.kind == Join then Members(s, ref) + {op.user} else Members(s, ref) - {op.user};
    SetMembersFrame(s, ref, members);
    var s1 := SetMembers(s, ref, members);
    if op.kind == Evict {
      EvictFrame(s, s1, t);
    } else if op.kind == Join || s.calls[t].lin.None? {
      EffectFrame(s, s1, t, Ok);
    }
  }

  lemma EvictFrame(s: State, s1: State, t: nat)
    requires Running(s, t) && s.calls[t].pc.Change? && s.calls[t].op.kind == Evict && s.calls[t].lin == None
    requires s1 == SetMembers(s, s.calls[t].pc.ref, Members(s, s.calls[t].pc.ref) - {s.calls[t].op.user})
    requires Wrote(s, s1, t)
    ensures Advanced(s, AtChange(s, t), t)
  {
    var op, ref := s.calls[t].op, s.calls[t].pc.ref;
    if op.user in Members(s, ref) && exists w :: PendingLeave(s, w, op.user, ref) {
      var w: nat :| PendingLeave(s, w, op.user, ref) &&
        AtChange(s, t) == TakeEffect(Linearize(s1, w, Ok), t, Err(UserNotInChannel), ref);
      HelpFrame(s, s1, t, w);
      EffectFrame(s, Linearize(s1, w, Ok), t, Err(UserNotInChannel));
    } else {
      EffectFrame(s, s1, t, if op.user in Members(s, ref) then Ok else Err(UserNotInChannel));
    }
  }

  lemma HelpFrame(s: State, s1: State, t: nat, w: nat)
    requires Running(s, t) && s.calls[t].pc.Change? && s.calls[t].op.kind == Evict
    requires PendingLeave(s, w, s.calls[t].op.user, s.calls[t].pc.ref)
    requires s1 == SetMembers(s, s.calls[t].pc.ref, Members(s, s.calls[t].pc.ref) - {s.calls[t].op.user})
    requires Wrote(s, s1, t)
    ensures Wrote(s, Linearize(s1, w, Ok), t)
  {
  }

  /** `s1` has the members written, and at most one pending leave recorded, before `t` itself moves on. */
  ghost predicate Wrote(s: State, s1: State, t: nat)
    requires t < |s.calls| && s.calls[t].pc.Change?
  {
    var op, ref := s.calls[t].op, s.calls[t].pc.ref;
    && s1.names == s.names && |s1.channels| == |s.channels| && |s1.calls| == |s.calls|
    && (forall r | 0 <= r < |s.channels| :: s1.channels[r].name == s.channels[r].name)
    && (forall r: nat | r != ref :: Members(s1, r) == Members(s, r))
    && Members(s1, ref) == (if op.kind == Join then Members(s, ref) + {op.user} else Members(s, ref) - {op.user})
    && s1.calls[t] == s.calls[t]
    && (forall u | 0 <= u < |s.calls| && u != t :: Untouched(s.calls[u], s1.calls[u]))
    && |s.history| <= |s1.history| && (forall j | 0 <= j < |s.history| :: s1.history[j] == s.history[j])
    && NoBroadcast(s, s1)
  }

  lemma EffectFrame(s: State, s1: State, t: nat, outcome: Outcome)
    requires Running(s, t) && s.calls[t].pc.Change? && Wrote(s, s1, t) && s.calls[t].lin == None
    requires var op, ref := s.calls[t].op, s.calls[t].pc.ref;
      op.kind == Evict && op.user in Members(s, ref) && NoLeave(s, op.user, ref) ==> outcome == Ok
    ensures Advanced(s, TakeEffect(s1, t, outcome, s.calls[t].pc.ref), t)
  {
    var s2 := Linearize(s1, t, outcome);
    var s3 := Goto(s2, t, Notify(s.calls[t].pc.ref));
    assert s3.history == s1.history + [Linearized(t, s.calls[t].op, outcome)];
    assert Grows(s, s3);
    assert forall u: nat | u != s.calls[t].op.user :: Extends(s, s3, u);
  }

  /** A call takes effect with the answer the atomic store gives at that point of the history. */
  lemma EffectIsLegal(s: State, t: nat, outcome: Outcome)
    requires Legal(s.history) && Effect(s, t, outcome)
    ensures outcome == Result(Replay(s.history[..s.calls[t].lin.value]), s.calls[t].op)
  {
    var j := s.calls[t].lin.value;
    LegalPrefix(s.history, j + 1);
    assert s.history[..j + 1][..j] == s.history[..j];
  }
}
