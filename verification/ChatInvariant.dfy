/**
 Every step of the chat keeps the invariant, so every reachable state has it.

 The two halves of the invariant lean on each other: that a dropped handler has nothing under way (`LastIsIdle`)
 comes from the requests, and that a dropped handler ends up in no channel comes from the store calls.
 */
module ChatInvariant {
  import opened Collections
  import opened StoreSpec
  import opened Protocol
  import opened ChatSystem
  import opened ChatMembership
  import opened StoreFrame
  import Store = StoreMachine
  import StoreProofs
  import ChatProtocol

  // ---- The actor's steps ----

  lemma ActorStepKeeps(s: State, h: nat, order: seq<nat>)
    requires Inv(s) && CanActorStep(s, h, order)
    ensures Inv(ActorStep(s, h, order))
  {
    var t := CallOf(s.hs[h].actor).value;
    var s1 := s.(store := Store.Advance(s.store, t));
    ActorStepIsQuiet(s, h, order);
    AdvanceOwn(s, s1, h, t);
    OwnAdvance(s, h, t);
    if Returned(s1.store, t) {
      ResumeKeeps(s, s1, h, t, order);
    }
  }

  lemma ActorStepIsQuiet(s: State, h: nat, order: seq<nat>)
    requires ChatProtocol.Inv(s) && CanActorStep(s, h, order)
    ensures ChatProtocol.Inv(ActorStep(s, h, order))
  {
    ChatProtocol.ActorsFine(s);
    ChatProtocol.ActorStepEffect(s, h, order);
    ChatProtocol.QuietKeeps(s, ActorStep(s, h, order));
  }

  lemma OwnAdvance(s: State, h: nat, t: nat)
    requires Inv(s) && h < |s.hs| && CallOf(s.hs[h].actor) == Some(t) && Store.Running(s.store, t)
    ensures var s1 := s.(store := Store.Advance(s.store, t));
      OwnStep(s, s1, h, t) && (s1.store.calls[t].pc.Done? ==> Returned(s1.store, t))
  {
    var s1 := s.(store := Store.Advance(s.store, t));
    assert ActorCallOk(s, h);
    ActiveIsCurrent(s, h);
    AdvanceFrame(s.store, t);
    StoreProofs.ApplyKeeps(s.store, Store.AdvanceCall(t));
    assert StoreProofs.Marked(s1.store, t) && StoreProofs.CallOk(s1.store, s1.store.calls[t]);
  }

  lemma ResumeKeeps(s: State, s1: State, h: nat, t: nat, order: seq<nat>)
    requires OwnStep(s, s1, h, t) && Returned(s1.store, t) && TiedExcept(s1, {h})
    ensures TiedExcept(Resume(s1, h, order), {})
  {
    if s.hs[h].actor.Making? && Answer(s1.store, t) == Ok {
      MadeFits(s, s1, h, t, order);
      StartsJoining(s1, h, order);
    } else {
      if s.hs[h].actor.Making? { MadeFits(s, s1, h, t, order); } else { OtherFits(s, s1, h, t, order); }
      MovesOn(s1, h, order);
    }
  }

  /** A creation that succeeded goes on with the join. */
  lemma StartsJoining(s: State, h: nat, order: seq<nat>)
    requires h < |s.hs| && s.hs[h].actor.Making? && Returned(s.store, s.hs[h].actor.t) && TiedExcept(s, {h})
    requires Answer(s.store, s.hs[h].actor.t) == Ok && ActorCallOk(Resume(s, h, order), h)
    ensures TiedExcept(Resume(s, h, order), {})
  {
    ChatProtocol.ResumeEffect(s, h, order);
    StartCall(s, Resume(s, h, order), {h}, h, Op(Join, s.hs[h].actor.name, h));
  }

  /** An actor whose call has returned goes on without another one. */
  lemma MovesOn(s: State, h: nat, order: seq<nat>)
    requires h < |s.hs| && CallOf(s.hs[h].actor).Some? && Returned(s.store, CallOf(s.hs[h].actor).value)
    requires TiedExcept(s, {h}) && Resume(s, h, order).store == s.store && ActorCallOk(Resume(s, h, order), h)
    ensures TiedExcept(Resume(s, h, order), {})
  {
    ChatProtocol.ResumeEffect(s, h, order);
    SameStore(s, Resume(s, h, order), {h}, h);
  }

  // What an actor goes on with fits what its call has answered.

  lemma MadeFits(s: State, s1: State, h: nat, t: nat, order: seq<nat>)
    requires OwnStep(s, s1, h, t) && Returned(s1.store, t) && s.hs[h].actor.Making?
    ensures ActorCallOk(Resume(s1, h, order), h)
    ensures Answer(s1.store, t) != Ok ==> Resume(s1, h, order).store == s1.store
  {
    MakeAnswer(s, s1, h, t);
    GoesOnMade(s1, h, order);
  }

  lemma GoesOnMade(s: State, h: nat, order: seq<nat>)
    requires h < |s.hs| && s.hs[h].actor.Making? && Returned(s.store, s.hs[h].actor.t)
    requires var Making(r, name, t) := s.hs[h].actor;
      && WorkOf(s, r) == DoCreate(name) && Made(s, r, name, h, Answer(s.store, t))
      && (Answer(s.store, t) == Ok ==> name != "" && name in s.store.names && !InChannel(s, name, h))
    ensures ActorCallOk(Resume(s, h, order), h)
    ensures Answer(s.store, s.hs[h].actor.t) != Ok ==> Resume(s, h, order).store == s.store
  {
  }

  lemma OtherFits(s: State, s1: State, h: nat, t: nat, order: seq<nat>)
    requires OwnStep(s, s1, h, t) && Returned(s1.store, t) && !s.hs[h].actor.Making?
    ensures ActorCallOk(Resume(s1, h, order), h) && Resume(s1, h, order).store == s1.store
  {
    assert ActorCallOk(s, h);
    if s.hs[h].actor.Joining? { JoinAnswer(s, s1, h, t); }
    if s.hs[h].actor.Checking? { CheckAnswer(s, s1, h, t); }
    GoesOn(s1, h, order);
  }

  lemma GoesOn(s: State, h: nat, order: seq<nat>)
    requires h < |s.hs| && CallOf(s.hs[h].actor).Some? && !s.hs[h].actor.Making?
    requires Returned(s.store, CallOf(s.hs[h].actor).value) && s.hs[h].actor.r < |s.requests|
    requires s.hs[h].actor.Joining? ==>
               var Joining(r, name, t) := s.hs[h].actor;
               WorkOf(s, r).DoCreate? ==>
                 WorkOf(s, r).name == name && Answer(s.store, t) == Ok && Made(s, r, name, h, Ok)
                   && InChannel(s, name, h)
    requires s.hs[h].actor.Leaving? ==> WorkOf(s, s.hs[h].actor.r).DoLeave?
    requires s.hs[h].actor.Checking? ==>
               var Checking(r, name, text, t) := s.hs[h].actor;
               WorkOf(s, r) == DoSend(name, text) && (Answer(s.store, t) == Ok ==> name != "" && InChannel(s, name, h))
    ensures ActorCallOk(Resume(s, h, order), h) && Resume(s, h, order).store == s.store
  {
  }

  /** A channel just created has no members. */
  lemma MakeAnswer(s: State, s1: State, h: nat, t: nat)
    requires OwnStep(s, s1, h, t) && Returned(s1.store, t) && s.hs[h].actor.Making?
    ensures var Making(r, name, _) := s.hs[h].actor;
      && WorkOf(s1, r) == DoCreate(name) && Made(s1, r, name, h, Answer(s1.store, t))
      && (Answer(s1.store, t) == Ok ==> name != "" && name in s1.store.names && !InChannel(s1, name, h))
  {
    assert ActorCallOk(s, h) && StoreProofs.CallOk(s.store, s.store.calls[t]);
  }

  /** A join that succeeds leaves its user in the channel, and the join that follows a create succeeds. */
  lemma JoinAnswer(s: State, s1: State, h: nat, t: nat)
    requires OwnStep(s, s1, h, t) && Returned(s1.store, t) && s.hs[h].actor.Joining?
    ensures var Joining(r, name, _) := s.hs[h].actor;
      && r < |s.requests| && (WorkOf(s, r).DoCreate? ==> WorkOf(s, r).name == name)
      && (Answer(s1.store, t) == Ok ==> InChannel(s1, name, h))
      && (WorkOf(s, r).DoCreate? ==> Answer(s1.store, t) == Ok && Made(s1, r, name, h, Ok))
  {
    assert ActorCallOk(s, h) && NotifyOk(s, t) && StoreProofs.CallOk(s.store, s.store.calls[t]);
  }

  /** A check that succeeds has found its user in the channel. */
  lemma CheckAnswer(s: State, s1: State, h: nat, t: nat)
    requires OwnStep(s, s1, h, t) && Returned(s1.store, t) && s.hs[h].actor.Checking?
    ensures var Checking(r, name, text, _) := s.hs[h].actor;
      && WorkOf(s, r) == DoSend(name, text)
      && (Answer(s1.store, t) == Ok ==> name != "" && InChannel(s1, name, h))
  {
    assert ActorCallOk(s, h) && StoreProofs.CallOk(s.store, s.store.calls[t]);
  }

  lemma FindKeeps(s: State, h: nat)
    requires Inv(s) && CanFind(s, h)
    ensures Inv(Find(s, h))
  {
    assert ActorCallOk(s, h);
    ChatProtocol.ActorsFine(s);
    ChatProtocol.QuietKeeps(s, Find(s, h));
    SameStore(s, Find(s, h), {}, h);
  }

  lemma IndexKeeps(s: State, h: nat, success: bool)
    requires Inv(s) && CanIndex(s, h)
    ensures Inv(Index(s, h, success))
  {
    IndexIsQuiet(s, h, success);
    assert ChatProtocol.ActorOk(s, h);
    IndexTied(s, h, success);
  }

  lemma IndexIsQuiet(s: State, h: nat, success: bool)
    requires ChatProtocol.Inv(s) && CanIndex(s, h)
    ensures ChatProtocol.Inv(Index(s, h, success))
  {
    ChatProtocol.ActorsFine(s);
    ChatProtocol.QuietKeeps(s, Index(s, h, success));
  }

  lemma IndexTied(s: State, h: nat, success: bool)
    requires TiedExcept(s, {}) && CanIndex(s, h) && s.hs[h].actor.r < |s.requests|
    ensures TiedExcept(Index(s, h, success), {})
  {
    assert ActorCallOk(s, h);
    SameStore(s, Index(s, h, success), {}, h);
  }

  // ---- Spawned goroutines ----

  lemma EvictStepKeeps(s: State, t: nat, order: seq<nat>)
    requires Inv(s) && CanEvict(s, t, order)
    ensures Inv(EvictStep(s, t, order))
  {
    var s1, s' := s.(store := Store.Advance(s.store, t)), EvictStep(s, t, order);
    EvictKeeps(s, s1, t);
    SameStore(s1, s', {}, |s.hs|);
    ChatProtocol.ActorsFine(s);
    ChatProtocol.QuietKeeps(s, s');
  }

  lemma TaskStepKeeps(s: State, k: nat, order: seq<nat>)
    requires Inv(s) && CanTask(s, k, order)
    ensures Inv(TaskStep(s, k, order))
  {
    SameStore(s, TaskStep(s, k, order), {}, |s.hs|);
    TaskStepIsQuiet(s, k, order);
  }

  lemma TaskStepIsQuiet(s: State, k: nat, order: seq<nat>)
    requires ChatProtocol.Inv(s) && CanTask(s, k, order)
    ensures ChatProtocol.Inv(TaskStep(s, k, order))
  {
    ChatProtocol.ActorsFine(s);
    ChatProtocol.QuietKeeps(s, TaskStep(s, k, order));
  }

  // ---- Sessions ----

  lemma RendezvousKeeps(s: State, c: nat)
    requires Inv(s) && CanRendezvous(s, c)
    ensures Inv(Rendezvous(s, c))
  {
    ChatProtocol.RendezvousKeeps(s, c);
    RendezvousTied(s, c);
  }

  lemma RendezvousTied(s: State, c: nat)
    requires Inv(s) && CanRendezvous(s, c)
    ensures TiedExcept(Rendezvous(s, c), {})
  {
    assert ChatProtocol.SessionOk(s, c);
    ChatProtocol.RendezvousEffect(s, c);
    TakenCall(s, c);
    var h := s.sessions[c].h;
    StartCall(s, Rendezvous(s, c), {}, h, FirstCall(WorkOf(s, s.sessions[c].r), h));
  }

  /** The store call an actor makes first for its work. */
  function FirstCall(work: Work, h: nat): Op<nat> {
    match work
    case DoCreate(name) => Op(Create, name, h)
    case DoJoin(name) => Op(Join, name, h)
    case DoLeave(name) => Op(Leave, name, h)
    case DoSend(name, _) => Op(Present, name, h)
    case _ => Op(Present, "", h)
  }

  lemma TakenCall(s: State, c: nat)
    requires ChatProtocol.Inv(s) && CanRendezvous(s, c)
    ensures var s', h := Rendezvous(s, c), s.sessions[c].h;
      && s'.store == Store.Start(s.store, FirstCall(WorkOf(s, s.sessions[c].r), h))
      && CallOf(s'.hs[h].actor) == Some(|s.store.calls|) && ActorCallOk(s', h) && RequestsExtend(s, s')
  {
    assert ChatProtocol.SessionOk(s, c);
    ChatProtocol.RendezvousEffect(s, c);
  }

  lemma ReplyKeeps(s: State, h: nat, c: nat)
    requires Inv(s) && CanReply(s, h, c)
    ensures Inv(Reply(s, h, c))
  {
    ChatProtocol.ReplyKeeps(s, h, c);
    SameStore(s, Reply(s, h, c), {}, h);
  }

  lemma ShutKeeps(s: State, c: nat, names: seq<string>)
    requires Inv(s) && CanShut(s, c, names)
    ensures Inv(Shut(s, c, names))
  {
    ChatProtocol.ShutKeeps(s, c, names);
    ShutTied(s, c, names);
  }

  lemma ShutTied(s: State, c: nat, names: seq<string>)
    requires Inv(s) && CanShut(s, c, names)
    ensures TiedExcept(Shut(s, c, names), {})
  {
    var s' := Shut(s, c, names);
    if s.sessions[c].login.None? {
      SameStore(s, s', {}, |s.hs|);
    } else {
      ChatProtocol.ShutFinds(s, c);
      ChatProtocol.ShutEffect(s, c, names);
      var h := s.handlers[s.sessions[c].login.value];
      if LastConnection(s, c) {
        LastIsIdle(s, c);
        StartsEvicting(s.store, names, h);
        DropKeeps(s, s', names, h);
      } else {
        SameStore(s, s', {}, |s.hs|);
      }
    }
  }

  /** When the pool is about to drop a handler, no request to it is outstanding. */
  lemma LastIsIdle(s: State, c: nat)
    requires ChatProtocol.Inv(s) && c < |s.sessions| && s.sessions[c].Closing? && s.sessions[c].login.Some?
    requires LastConnection(s, c)
    ensures s.hs[s.handlers[s.sessions[c].login.value]].actor == Idle
    ensures forall d | 0 <= d < |s.sessions| && ChatProtocol.Waiting(s.sessions[d]) ::
              s.sessions[d].h != s.handlers[s.sessions[c].login.value]
  {
    var n := s.sessions[c].login.value;
    var h := s.handlers[n];
    ChatProtocol.ShutFinds(s, c);
    forall d | 0 <= d < |s.sessions| && ChatProtocol.Waiting(s.sessions[d]) ensures s.sessions[d].h != h {
      assert ChatProtocol.SessionOk(s, d);
      assert s.sessions[d].nick == n ==> d in ChatProtocol.Live(s, n);
    }
    assert ChatProtocol.ActorOk(s, h);
  }

  lemma ReceiveKeeps(s: State, c: nat, msg: SocketMessage, valid: bool)
    requires Inv(s) && CanReceive(s, c, msg, valid)
    ensures Inv(Receive(s, c, msg, valid))
  {
    ChatProtocol.ReceiveKeeps(s, c, msg, valid);
    ReceiveFrame(s, c, msg, valid);
    SameStore(s, Receive(s, c, msg, valid), {}, |Receive(s, c, msg, valid).hs|);
  }

  /** Receiving a message adds at most a fresh idle handler, under a nick that had none. */
  lemma ReceiveFrame(s: State, c: nat, msg: SocketMessage, valid: bool)
    requires ChatProtocol.PoolOk(s) && CanReceive(s, c, msg, valid)
    ensures var s' := Receive(s, c, msg, valid);
      && s'.store == s.store && s'.requests == s.requests && |s.hs| <= |s'.hs|
      && (forall g | 0 <= g < |s.hs| ::
            s'.hs[g].nick == s.hs[g].nick && s'.hs[g].actor == s.hs[g].actor && (Current(s', g) <==> Current(s, g)))
      && (forall g | |s.hs| <= g < |s'.hs| :: s'.hs[g].actor == Idle)
  {
    var login := s.sessions[c].login;
    if login.None? && msg.action == LOGIN && msg.asLogin.Some? && valid {
      AttachFrame(s, SetSession(s, c, Reading(Some(msg.asLogin.value.nick))), c, msg.asLogin.value.nick);
    }
  }

  lemma AttachFrame(s: State, s0: State, c: nat, nick: string)
    requires ChatProtocol.PoolOk(s) && s0 == s.(sessions := s0.sessions)
    ensures var s' := Attach(s0, c, nick);
      && s'.store == s.store && s'.requests == s.requests && |s.hs| <= |s'.hs|
      && (forall g | 0 <= g < |s.hs| ::
            s'.hs[g].nick == s.hs[g].nick && s'.hs[g].actor == s.hs[g].actor && (Current(s', g) <==> Current(s, g)))
      && (forall g | |s.hs| <= g < |s'.hs| :: s'.hs[g].actor == Idle)
  {
  }

  lemma ConnectKeeps(s: State)
    requires Inv(s)
    ensures Inv(s.(sessions := s.sessions + [Reading(None)]))
  {
    ChatProtocol.ConnectKeeps(s);
    SameStore(s, s.(sessions := s.sessions + [Reading(None)]), {}, |s.hs|);
  }

  lemma CloseKeeps(s: State, c: nat)
    requires Inv(s) && CanClose(s, c)
    ensures Inv(SetSession(s, c, Closing(s.sessions[c].login)))
  {
    ChatProtocol.SessionMoves(s, c, Closing(s.sessions[c].login));
    SameStore(s, SetSession(s, c, Closing(s.sessions[c].login)), {}, |s.hs|);
  }

  lemma FindHandlerKeeps(s: State, c: nat)
    requires Inv(s) && CanFindHandler(s, c)
    ensures Inv(FindHandler(s, c))
  {
    ChatProtocol.FindHandlerKeeps(s, c);
    SameStore(s, FindHandler(s, c), {}, |s.hs|);
  }

  lemma ApplyKeeps(s: State, a: Action)
    requires Inv(s) && Enabled(s, a)
    ensures Inv(Apply(s, a))
  {
    match a
    case DoConnect => ConnectKeeps(s);
    case DoReceive(c, msg, valid) => ReceiveKeeps(s, c, msg, valid);
    case DoClose(c) => CloseKeeps(s, c);
    case DoFindHandler(c) => FindHandlerKeeps(s, c);
    case DoRendezvous(c) => RendezvousKeeps(s, c);
    case DoActorStep(h, order) => ActorStepKeeps(s, h, order);
    case DoFind(h) => FindKeeps(s, h);
    case DoIndex(h, success) => IndexKeeps(s, h, success);
    case DoReply(h, c) => ReplyKeeps(s, h, c);
    case DoShut(c, names) => ShutKeeps(s, c, names);
    case DoEvict(t, order) => EvictStepKeeps(s, t, order);
    case DoTask(k, order) => TaskStepKeeps(s, k, order);
  }

  /** The step that ends a run. */
  lemma LastStep(trace: seq<State>) returns (a: Action)
    requires Run(trace) && |trace| > 1
    ensures Run(trace[..|trace| - 1])
    ensures Enabled(trace[|trace| - 2], a) && trace[|trace| - 1] == Apply(trace[|trace| - 2], a)
  {
    assert Next(trace[|trace| - 2], trace[|trace| - 2 + 1]);
    a :| Enabled(trace[|trace| - 2], a) && trace[|trace| - 1] == Apply(trace[|trace| - 2], a);
  }

  /** The invariant holds in every reachable state. */
  lemma {:induction false} RunKeeps(trace: seq<State>)
    requires Run(trace)
    ensures Inv(trace[|trace| - 1])
  {
    if |trace| == 1 {
      assert StoreProofs.View(Store.INIT) == map[];
    } else {
      var a := LastStep(trace);
      RunKeeps(trace[..|trace| - 1]);
      ApplyKeeps(trace[|trace| - 2], a);
    }
  }
}
