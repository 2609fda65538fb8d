/**
 What ties the answers of the live chat to the channel store, step by step.

 From the moment an actor takes a request, the request remembers the first store call that was made for it (`Took`).
 What the actor then has in hand is on its way to one answer only: that of this call once it has returned, or, for a
 message, whether it has been indexed (`Asked`, `Fits`). Recorded calls, requests and log entries are never taken back
 (`Extends`), so an answer that fits when it is given fits ever after (`LoggedRight`), and nobody but the actor that
 holds a request can make its answer another. `RunAnswers` says that all of this holds in every run; what it means
 for a user, in terms of actions and channels, is in ChatAnswers.
 */
module ChatAnswering {
  import opened Collections
  import opened StoreSpec
  import opened Protocol
  import opened ChatSystem
  import opened ChatMembership
  import opened ChatHistory
  import Store = StoreMachine
  import StoreFrame
  import StoreProofs
  import ChatProtocol
  import ChatInvariant

  // ---- The invariant ----

  /** The first store call made for request `r` is this one, and it has taken effect with this answer. */
  ghost predicate Took(s: State, r: nat, op: Op<nat>, outcome: Outcome) {
    && r < |s.requests| && s.requests[r].call.Some?
    && var t := s.requests[r].call.value;
       t < |s.store.calls| && s.store.calls[t].op == op && StoreFrame.Effect(s.store, t, outcome)
  }

  predicate IndexedAt(s: State, j: nat, r: nat) {
    j < |s.log| && s.log[j].Indexed? && s.log[j].r == r
  }

  /** The message of request `r` has been indexed. */
  ghost predicate IndexedFor(s: State, r: nat) {
    exists j :: IndexedAt(s, j, r)
  }

  /** `outcome` is the answer to request `r` of handler `h`. */
  ghost predicate Fits(s: State, r: nat, h: nat, outcome: Outcome) {
    match WorkOf(s, r)
    case DoCreate(name) => Took(s, r, Op(Create, name, h), outcome)
    case DoJoin(name) => Took(s, r, Op(Join, name, h), outcome)
    case DoLeave(name) => Took(s, r, Op(Leave, name, h), outcome)
    case DoSend(name, _) =>
      if IndexedFor(s, r) then outcome == Ok && Took(s, r, Op(Present, name, h), Ok)
      else
        || (outcome == Err(MessageNotSent) && Took(s, r, Op(Present, name, h), Ok))
        || (outcome == Err(UserNotInChannel) && Took(s, r, Op(Present, name, h), Err(UserNotInChannel)))
    case _ => false
  }

  /** What an actor has in hand is on its way to the answer that fits. */
  ghost predicate Asked(s: State, h: nat)
    requires h < |s.hs|
  {
    match s.hs[h].actor
    case Making(r, _, t) => r < |s.requests| && !IndexedFor(s, r) && s.requests[r].call == Some(t)
    case Joining(r, _, t) =>
      r < |s.requests| && !IndexedFor(s, r) && (WorkOf(s, r).DoJoin? ==> s.requests[r].call == Some(t))
    case Leaving(r, _, t) => r < |s.requests| && !IndexedFor(s, r) && s.requests[r].call == Some(t)
    case Checking(r, _, _, t) => r < |s.requests| && !IndexedFor(s, r) && s.requests[r].call == Some(t)
    case Finding(r, name, _) => !IndexedFor(s, r) && Took(s, r, Op(Present, name, h), Ok)
    case Indexing(r, name, _, _) => !IndexedFor(s, r) && Took(s, r, Op(Present, name, h), Ok)
    case Replying(r, outcome) => Fits(s, r, h, outcome)
    case _ => true
  }

  /** A logged answer fits; a logged message is the one its request asked for, in the channel it named. */
  ghost predicate LoggedRight(s: State, j: nat)
    requires j < |s.log|
  {
    match s.log[j]
    case Replied(r, _, outcome) => r < |s.requests| && Fits(s, r, s.requests[r].h, outcome)
    case Indexed(r, h, ref, text, _, _) =>
      && r < |s.requests| && s.requests[r].call.Some? && s.requests[r].h == h
      && ref < |s.store.channels| && WorkOf(s, r) == DoSend(s.store.channels[ref].name, text)
    case _ => true
  }

  ghost predicate Answering(s: State) {
    && (forall h | 0 <= h < |s.hs| :: Asked(s, h))
    && (forall j | 0 <= j < |s.log| :: LoggedRight(s, j))
  }

  // ---- Frames ----

  /** Nothing that has been recorded is taken back. */
  ghost predicate Extends(s: State, s': State) {
    && StoreFrame.Grows(s.store, s'.store) && RequestsStay(s, s')
    && |s.log| <= |s'.log| && forall j | 0 <= j < |s.log| :: s'.log[j] == s.log[j]
  }

  /** ... and no message of request `r` has been indexed meanwhile. */
  ghost predicate NotIndexed(s: State, s': State, r: nat) {
    forall j: nat | |s.log| <= j :: !IndexedAt(s', j, r)
  }

  lemma SameIndex(s: State, s': State, r: nat)
    requires Extends(s, s') && NotIndexed(s, s', r)
    ensures IndexedFor(s', r) <==> IndexedFor(s, r)
  {
    if j: nat :| IndexedAt(s, j, r) { assert IndexedAt(s', j, r); }
    if j: nat :| IndexedAt(s', j, r) { assert IndexedAt(s, j, r); }
  }

  lemma TookStays(s: State, s': State, r: nat, op: Op<nat>, outcome: Outcome)
    requires Extends(s, s') && Took(s, r, op, outcome)
    ensures Took(s', r, op, outcome)
  {
  }

  lemma FitStays(s: State, s': State, r: nat, h: nat, outcome: Outcome)
    requires Extends(s, s') && NotIndexed(s, s', r) && r < |s.requests| && Fits(s, r, h, outcome)
    ensures Fits(s', r, h, outcome)
  {
    SameIndex(s, s', r);
    forall op, o | Took(s, r, op, o) ensures Took(s', r, op, o) { TookStays(s, s', r, op, o); }
  }

  lemma AskedStays(s: State, s': State, h: nat)
    requires Extends(s, s') && h < |s.hs| && h < |s'.hs| && s'.hs[h].actor == s.hs[h].actor && Asked(s, h)
    requires RequestOf(s.hs[h].actor).Some? ==> NotIndexed(s, s', RequestOf(s.hs[h].actor).value)
    ensures Asked(s', h)
  {
    if RequestOf(s.hs[h].actor).Some? {
      var r := RequestOf(s.hs[h].actor).value;
      SameIndex(s, s', r);
      if s.hs[h].actor.Replying? && r < |s.requests| { FitStays(s, s', r, h, s.hs[h].actor.outcome); }
      forall op, o | Took(s, r, op, o) ensures Took(s', r, op, o) { TookStays(s, s', r, op, o); }
    }
  }

  lemma LoggedStays(s: State, s': State, j: nat)
    requires Extends(s, s') && j < |s.log| && LoggedRight(s, j)
    requires s.log[j].Replied? ==> NotIndexed(s, s', s.log[j].r)
    ensures LoggedRight(s', j)
  {
    if s.log[j].Replied? { FitStays(s, s', s.log[j].r, s.requests[s.log[j].r].h, s.log[j].outcome); }
  }

  lemma StepExtends(s: State, a: Action)
    requires Inv(s) && Enabled(s, a)
    ensures Extends(s, Apply(s, a))
  {
    StoreGrows(s, a);
    RequestsKept(s, a);
    if !a.DoReply? { LogKept(s, a); }
  }

  /** The actor a step moves, if any. */
  function Mover(s: State, a: Action): Option<nat> {
    match a
    case DoRendezvous(c) => if c < |s.sessions| && s.sessions[c].Sending? then Some(s.sessions[c].h) else None
    case DoActorStep(h, _) => Some(h)
    case DoFind(h) => Some(h)
    case DoIndex(h, _) => Some(h)
    case DoReply(h, _) => Some(h)
    case _ => None
  }

  lemma OthersStay(s: State, a: Action, g: nat)
    requires Inv(s) && Enabled(s, a) && g < |Apply(s, a).hs| && Mover(s, a) != Some(g)
    ensures if g < |s.hs| then Apply(s, a).hs[g].actor == s.hs[g].actor else Apply(s, a).hs[g].actor == Idle
  {
    if a.DoRendezvous? { ChatProtocol.RendezvousEffect(s, a.c); }
    else if a.DoActorStep? { ChatProtocol.ActorStepEffect(s, a.h, a.order); }
    else if a.DoReceive? { ChatInvariant.ReceiveFrame(s, a.c, a.msg, a.valid); }
    else if a.DoShut? { ShutStays(s, a.c, a.names); }
    else { RestStays(s, a, g); }
  }

  lemma ShutStays(s: State, c: nat, names: seq<string>)
    requires CanShut(s, c, names)
    ensures |Shut(s, c, names).hs| == |s.hs|
    ensures forall g | 0 <= g < |s.hs| :: Shut(s, c, names).hs[g].actor == s.hs[g].actor
  {
  }

  lemma RestStays(s: State, a: Action, g: nat)
    requires Enabled(s, a) && !a.DoRendezvous? && !a.DoActorStep? && !a.DoReceive? && !a.DoShut?
             && Mover(s, a) != Some(g)
    ensures |Apply(s, a).hs| == |s.hs| && (g < |s.hs| ==> Apply(s, a).hs[g].actor == s.hs[g].actor)
  {
  }

  // ---- The actor that moves ----

  /** A store call that has returned has taken effect with the answer it returns. */
  lemma AnswerIsEffect(store: Store.State, t: nat)
    requires StoreProofs.Inv(store) && Returned(store, t) && store.calls[t].op.kind != Evict
    ensures StoreFrame.Effect(store, t, Answer(store, t))
  {
    assert StoreProofs.CallOk(store, store.calls[t]) && StoreProofs.Marked(store, t);
  }

  lemma RendezvousAsked(s: State, c: nat)
    requires Inv(s) && Answering(s) && CanRendezvous(s, c)
    ensures Asked(Rendezvous(s, c), s.sessions[c].h)
  {
    var s', r := Rendezvous(s, c), s.sessions[c].r;
    assert ChatProtocol.SessionOk(s, c);
    ChatProtocol.RendezvousEffect(s, c);
    forall j: nat ensures !IndexedAt(s', j, r) { assert j < |s.log| ==> LoggedRight(s, j); }
    FirstAsked(s, c);
  }

  lemma FirstAsked(s: State, c: nat)
    requires ChatProtocol.Inv(s) && CanRendezvous(s, c)
    requires !IndexedFor(Rendezvous(s, c), s.sessions[c].r)
    ensures Asked(Rendezvous(s, c), s.sessions[c].h)
  {
    assert ChatProtocol.SessionOk(s, c);
  }

  /** The call in an actor's hands is the one its request is answered by, and has this operation. */
  lemma OwnCall(s: State, h: nat)
    requires Inv(s) && h < |s.hs| && CallOf(s.hs[h].actor).Some? && Asked(s, h)
    ensures var actor, t := s.hs[h].actor, CallOf(s.hs[h].actor).value;
      && t < |s.store.calls| && s.store.calls[t].op.user == h && s.store.calls[t].op.kind != Evict
      && s.store.calls[t].op.name == actor.name
      && (actor.Making? ==>
            WorkOf(s, actor.r) == DoCreate(actor.name) && s.store.calls[t].op.kind == Create
            && s.requests[actor.r].call == Some(t))
      && (actor.Joining? ==>
            && s.store.calls[t].op.kind == Join
            && (WorkOf(s, actor.r) == DoJoin(actor.name) || WorkOf(s, actor.r) == DoCreate(actor.name))
            && (WorkOf(s, actor.r).DoJoin? ==> s.requests[actor.r].call == Some(t)))
      && (actor.Leaving? ==>
            WorkOf(s, actor.r) == DoLeave(actor.name) && s.store.calls[t].op.kind == Leave
            && s.requests[actor.r].call == Some(t))
      && (actor.Checking? ==>
            WorkOf(s, actor.r) == DoSend(actor.name, actor.text) && s.store.calls[t].op.kind == Present
            && s.requests[actor.r].call == Some(t))
  {
    assert ActorCallOk(s, h);
  }

  /** What the actor goes on with once its call has returned. `s1` is the state the call has left. */
  lemma ResumeAsked(s1: State, h: nat, order: seq<nat>)
    requires h < |s1.hs| && CallOf(s1.hs[h].actor).Some? && Returned(s1.store, CallOf(s1.hs[h].actor).value)
    requires s1.hs[h].actor.r < |s1.requests| && !IndexedFor(s1, s1.hs[h].actor.r)
    requires var actor, answer := s1.hs[h].actor, Answer(s1.store, CallOf(s1.hs[h].actor).value);
      && (actor.Making? ==> WorkOf(s1, actor.r) == DoCreate(actor.name)
                            && Took(s1, actor.r, Op(Create, actor.name, h), answer))
      && (actor.Joining? ==>
            || (WorkOf(s1, actor.r) == DoJoin(actor.name) && Took(s1, actor.r, Op(Join, actor.name, h), answer))
            || (WorkOf(s1, actor.r) == DoCreate(actor.name) && Took(s1, actor.r, Op(Create, actor.name, h), answer)))
      && (actor.Leaving? ==> WorkOf(s1, actor.r) == DoLeave(actor.name)
                             && Took(s1, actor.r, Op(Leave, actor.name, h), answer))
      && (actor.Checking? ==> WorkOf(s1, actor.r) == DoSend(actor.name, actor.text)
                              && answer in {Ok, Err(UserNotInChannel)}
                              && Took(s1, actor.r, Op(Present, actor.name, h), answer))
    ensures Asked(Resume(s1, h, order), h)
  {
    var s', r := Resume(s1, h, order), s1.hs[h].actor.r;
    ChatProtocol.ResumeEffect(s1, h, order);
    forall j: nat ensures IndexedAt(s', j, r) <==> IndexedAt(s1, j, r) { }
    forall op, o | Took(s1, r, op, o) ensures Took(s', r, op, o) {
      ResumeGrows(s1, h, order);
    }
  }

  lemma ResumeGrows(s1: State, h: nat, order: seq<nat>)
    requires h < |s1.hs| && CallOf(s1.hs[h].actor).Some? && Returned(s1.store, CallOf(s1.hs[h].actor).value)
    ensures StoreFrame.Grows(s1.store, Resume(s1, h, order).store)
  {
    ChatProtocol.ResumeEffect(s1, h, order);
    var store := Resume(s1, h, order).store;
    if store != s1.store {
      var name :| store == Store.Start(s1.store, Op(Join, name, h));
      StartGrows(s1.store, Op(Join, name, h));
    }
  }

  /** A returned call of an actor has taken effect with its answer. */
  lemma ReturnedEffect(s: State, s1: State, h: nat)
    requires Inv(s) && h < |s.hs| && CallOf(s.hs[h].actor).Some? && Asked(s, h)
    requires var t := CallOf(s.hs[h].actor).value;
      Store.Running(s.store, t) && s1 == s.(store := Store.Advance(s.store, t)) && Returned(s1.store, t)
    ensures var t, answer := CallOf(s.hs[h].actor).value, Answer(s1.store, CallOf(s.hs[h].actor).value);
      && t < |s.store.calls| && t < |s1.store.calls| && s1.store.calls[t].op == s.store.calls[t].op
      && StoreFrame.Effect(s1.store, t, answer)
      && (s.store.calls[t].op.kind == Present ==> answer in {Ok, Err(UserNotInChannel)})
  {
    var t := CallOf(s.hs[h].actor).value;
    OwnCall(s, h);
    StoreFrame.AdvanceFrame(s.store, t);
    StoreProofs.ApplyKeeps(s.store, Store.AdvanceCall(t));
    AnswerIsEffect(s1.store, t);
    StoreFrame.EffectIsLegal(s1.store, t, Answer(s1.store, t));
  }

  /** The answer that a returned call of an actor gives to its request. */
  lemma ReturnedTook(s: State, s1: State, h: nat)
    requires Inv(s) && h < |s.hs| && CallOf(s.hs[h].actor).Some? && Asked(s, h)
    requires var t := CallOf(s.hs[h].actor).value;
      Store.Running(s.store, t) && s1 == s.(store := Store.Advance(s.store, t)) && Returned(s1.store, t)
    ensures var t, actor, answer := s.hs[h].actor.t, s.hs[h].actor, Answer(s1.store, CallOf(s.hs[h].actor).value);
      && (!actor.Joining? || WorkOf(s, actor.r).DoJoin? ==> Took(s1, actor.r, s.store.calls[t].op, answer))
      && (actor.Joining? && WorkOf(s, actor.r).DoCreate? ==> Took(s1, actor.r, Op(Create, actor.name, h), answer))
      && (actor.Checking? ==> answer in {Ok, Err(UserNotInChannel)})
  {
    var t := CallOf(s.hs[h].actor).value;
    OwnCall(s, h);
    ReturnedEffect(s, s1, h);
    if s.hs[h].actor.Joining? && WorkOf(s, s.hs[h].actor.r).DoCreate? {
      ChatInvariant.OwnAdvance(s, h, t);
      ChatInvariant.JoinAnswer(s, s1, h, t);
    }
  }

  lemma ActorAsked(s: State, h: nat, order: seq<nat>)
    requires Inv(s) && Answering(s) && CanActorStep(s, h, order)
    ensures Asked(ActorStep(s, h, order), h)
  {
    var t := CallOf(s.hs[h].actor).value;
    var s1 := s.(store := Store.Advance(s.store, t));
    OwnCall(s, h);
    assert s1.log == s.log && s1.requests == s.requests && s1.hs == s.hs;
    forall j: nat ensures IndexedAt(s1, j, s.hs[h].actor.r) <==> IndexedAt(s, j, s.hs[h].actor.r) { }
    if Returned(s1.store, t) {
      ReturnedTook(s, s1, h);
      ResumeAsked(s1, h, order);
    }
  }

  lemma FindAsked(s: State, h: nat)
    requires CanFind(s, h) && ActorCallOk(s, h) && Asked(s, h)
    ensures Asked(Find(s, h), h)
  {
    var s', r := Find(s, h), s.hs[h].actor.r;
    forall j: nat ensures IndexedAt(s', j, r) <==> IndexedAt(s, j, r) { }
  }

  lemma IndexAsked(s: State, h: nat, success: bool)
    requires CanIndex(s, h) && ActorCallOk(s, h) && Asked(s, h)
    ensures Asked(Index(s, h, success), h)
  {
    var s', r := Index(s, h, success), s.hs[h].actor.r;
    if success {
      assert IndexedAt(s', |s.log|, r);
    } else {
      forall j: nat ensures IndexedAt(s', j, r) <==> IndexedAt(s, j, r) { }
    }
  }

  lemma IndexLogged(s: State, h: nat)
    requires Inv(s) && Answering(s) && CanIndex(s, h)
    ensures LoggedRight(Index(s, h, true), |s.log|)
  {
    var r := s.hs[h].actor.r;
    assert ActorCallOk(s, h) && Asked(s, h) && ChatProtocol.ActorOk(s, h);
    assert ChatProtocol.SessionOk(s, s.requests[r].owner);
  }

  lemma ReplyRight(s: State, h: nat, c: nat)
    requires Inv(s) && Answering(s) && CanReply(s, h, c)
    ensures LoggedRight(Reply(s, h, c), |s.log|)
  {
    var s', r := Reply(s, h, c), s.hs[h].actor.r;
    assert ChatProtocol.SessionOk(s, c) && ChatProtocol.ActorOk(s, h) && Asked(s, h);
    forall j: nat ensures IndexedAt(s', j, r) <==> IndexedAt(s, j, r) { }
  }

  lemma MoverAsked(s: State, a: Action)
    requires Inv(s) && Answering(s) && Enabled(s, a) && Mover(s, a).Some?
    ensures Mover(s, a).value < |Apply(s, a).hs| && Asked(Apply(s, a), Mover(s, a).value)
  {
    if a.DoRendezvous? {
      ChatProtocol.RendezvousEffect(s, a.c);
      RendezvousAsked(s, a.c);
    } else if a.DoActorStep? {
      ChatProtocol.ActorStepEffect(s, a.h, a.order);
      ActorAsked(s, a.h, a.order);
    } else if a.DoFind? {
      assert ActorCallOk(s, a.h);
      FindAsked(s, a.h);
    } else if a.DoIndex? {
      assert ActorCallOk(s, a.h);
      IndexAsked(s, a.h, a.success);
    }
  }

  // ---- Everybody else ----

  /** Nobody else has the request in hand whose message is indexed now, and it has not been answered. */
  lemma IndexIsOwn(s: State, h: nat)
    requires Inv(s) && CanIndex(s, h)
    ensures forall g | 0 <= g < |s.hs| && g != h && RequestOf(s.hs[g].actor).Some? ::
              RequestOf(s.hs[g].actor).value != s.hs[h].actor.r
    ensures forall j | 0 <= j < |s.log| && s.log[j].Replied? :: s.log[j].r != s.hs[h].actor.r
  {
    var r := s.hs[h].actor.r;
    assert ChatProtocol.ActorOk(s, h) && ChatProtocol.SessionOk(s, s.requests[r].owner);
    forall g | 0 <= g < |s.hs| && g != h && RequestOf(s.hs[g].actor).Some? ensures RequestOf(s.hs[g].actor).value != r {
      assert ChatProtocol.ActorOk(s, g);
    }
    forall j | 0 <= j < |s.log| && s.log[j].Replied? ensures s.log[j].r != r { assert ChatProtocol.ReplyOk(s, j); }
  }

  /** A step indexes at most the message of the request that the moving actor has in hand. */
  lemma IndexesOwn(s: State, a: Action, j: nat)
    requires Inv(s) && Enabled(s, a) && |s.log| <= j < |Apply(s, a).log| && Apply(s, a).log[j].Indexed?
    ensures a.DoIndex? && a.success && j == |s.log| && Apply(s, a).log[j].r == s.hs[a.h].actor.r
  {
    if !a.DoReply? { LogKept(s, a); }
  }

  lemma ApplyKeepsAnswering(s: State, a: Action)
    requires Inv(s) && Answering(s) && Enabled(s, a)
    ensures Answering(Apply(s, a))
  {
    StepExtends(s, a);
    forall g | 0 <= g < |Apply(s, a).hs| ensures Asked(Apply(s, a), g) { StepAsked(s, a, g); }
    forall j | 0 <= j < |Apply(s, a).log| ensures LoggedRight(Apply(s, a), j) { StepLogged(s, a, j); }
  }

  lemma StepAsked(s: State, a: Action, g: nat)
    requires Inv(s) && Answering(s) && Enabled(s, a) && Extends(s, Apply(s, a)) && g < |Apply(s, a).hs|
    ensures Asked(Apply(s, a), g)
  {
    if Mover(s, a) == Some(g) {
      MoverAsked(s, a);
    } else {
      OthersStay(s, a, g);
      if g < |s.hs| {
        if a.DoIndex? { IndexIsOwn(s, a.h); }
        if RequestOf(s.hs[g].actor).Some? {
          var r := RequestOf(s.hs[g].actor).value;
          forall j: nat | |s.log| <= j ensures !IndexedAt(Apply(s, a), j, r) {
            if j < |Apply(s, a).log| && Apply(s, a).log[j].Indexed? { IndexesOwn(s, a, j); }
          }
        }
        AskedStays(s, Apply(s, a), g);
      }
    }
  }

  lemma StepLogged(s: State, a: Action, j: nat)
    requires Inv(s) && Answering(s) && Enabled(s, a) && Extends(s, Apply(s, a)) && j < |Apply(s, a).log|
    ensures LoggedRight(Apply(s, a), j)
  {
    if j < |s.log| {
      if a.DoIndex? { IndexIsOwn(s, a.h); }
      if s.log[j].Replied? {
        forall k: nat | |s.log| <= k ensures !IndexedAt(Apply(s, a), k, s.log[j].r) {
          if k < |Apply(s, a).log| && Apply(s, a).log[k].Indexed? { IndexesOwn(s, a, k); }
        }
      }
      LoggedStays(s, Apply(s, a), j);
    } else if a.DoReply? {
      ReplyRight(s, a.h, a.c);
    } else {
      LogKept(s, a);
      if Apply(s, a).log[j].Indexed? {
        IndexesOwn(s, a, j);
        IndexLogged(s, a.h);
      }
    }
  }

  lemma {:induction false} RunAnswers(trace: seq<State>)
    requires Run(trace)
    ensures Answering(trace[|trace| - 1])
  {
    if |trace| > 1 {
      var a := ChatInvariant.LastStep(trace);
      RunAnswers(trace[..|trace| - 1]);
      ChatInvariant.RunKeeps(trace[..|trace| - 1]);
      ApplyKeepsAnswering(trace[|trace| - 2], a);
    }
  }
}
