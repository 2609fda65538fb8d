/** What a run of the chat never takes back: channel objects, requests, and the answers that have been given. */
module ChatHistory {
  import opened StoreSpec
  import opened Protocol
  import opened ChatSystem
  import opened ChatMembership
  import opened ChatLogs
  import Store = StoreMachine
  import StoreFrame
  import StoreProofs
  import ChatProtocol
  import ChatInvariant
  import ChatTheorems

  // ---- One step ----

  lemma StoreGrows(s: State, a: Action)
    requires Inv(s) && Enabled(s, a)
    ensures StoreFrame.Grows(s.store, Apply(s, a).store)
  {
    if a.DoRendezvous? {
      RendezvousGrows(s, a.c);
    } else if a.DoActorStep? {
      ActorGrows(s, a.h, a.order);
    } else if a.DoEvict? {
      StoreFrame.AdvanceFrame(s.store, a.t);
    } else if a.DoShut? {
      ShutGrows(s, a.c, a.names);
    } else {
      ChatProtocol.StoreStays(s, a);
    }
  }

  lemma ActorGrows(s: State, h: nat, order: seq<nat>)
    requires Inv(s) && CanActorStep(s, h, order)
    ensures StoreFrame.Grows(s.store, ActorStep(s, h, order).store)
  {
    ChatProtocol.ActorStepEffect(s, h, order);
    StoreFrame.AdvanceFrame(s.store, CallOf(s.hs[h].actor).value);
  }

  lemma RendezvousGrows(s: State, c: nat)
    requires CanRendezvous(s, c)
    ensures StoreFrame.Grows(s.store, Rendezvous(s, c).store)
  {
    var store := Rendezvous(s, c).store;
    RendezvousStarts(s, c);
    if op :| store == Store.Start(s.store, op) { StartGrows(s.store, op); }
  }

  lemma RendezvousStarts(s: State, c: nat)
    requires CanRendezvous(s, c)
    ensures Rendezvous(s, c).store == s.store || exists op :: Rendezvous(s, c).store == Store.Start(s.store, op)
  {
  }

  lemma StartGrows(store: Store.State, op: Op<nat>)
    ensures StoreFrame.Grows(store, Store.Start(store, op))
  {
  }

  lemma ShutGrows(s: State, c: nat, names: seq<string>)
    requires StoreProofs.Inv(s.store) && CanShut(s, c, names)
    ensures StoreFrame.Grows(s.store, Shut(s, c, names).store)
  {
    if s.sessions[c].login.Some? && LastConnection(s, c) {
      var h := s.handlers[NickOf(s, c)];
      StartsEvicting(s.store, names, h);
      assert Shut(s, c, names).store == Evictions(s.store, names, h);
    } else {
      assert Shut(s, c, names).store == s.store;
    }
  }

  /** Requests stay what they were, and a store call once made for one stays its call. */
  ghost predicate RequestsStay(s: State, s': State) {
    RequestsExtend(s, s') && forall r | 0 <= r < |s.requests| :: s'.requests[r].h == s.requests[r].h
  }

  lemma RequestsKept(s: State, a: Action)
    requires Inv(s) && Enabled(s, a)
    ensures RequestsStay(s, Apply(s, a))
  {
    if a.DoRendezvous? {
      RendezvousRequests(s, a.c);
    } else if a.DoActorStep? {
      ChatProtocol.ActorStepEffect(s, a.h, a.order);
    } else {
      OtherRequests(s, a);
    }
  }

  lemma RendezvousRequests(s: State, c: nat)
    requires Inv(s) && CanRendezvous(s, c)
    ensures RequestsStay(s, Rendezvous(s, c))
  {
    assert ChatProtocol.SessionOk(s, c);
    ChatProtocol.RendezvousEffect(s, c);
  }

  lemma OtherRequests(s: State, a: Action)
    requires Enabled(s, a) && !a.DoRendezvous? && !a.DoActorStep?
    ensures RequestsStay(s, Apply(s, a))
  {
  }

  /** The only answers a step logs are those of DoReply. */
  lemma LogKept(s: State, a: Action)
    requires Inv(s) && Enabled(s, a) && !a.DoReply?
    ensures var s' := Apply(s, a);
      && |s.log| <= |s'.log| && (forall j | 0 <= j < |s.log| :: s'.log[j] == s.log[j])
      && forall j | |s.log| <= j < |s'.log| :: !s'.log[j].Replied? && (s'.log[j].Indexed? ==> a.DoIndex?)
  {
    if a.DoRendezvous? {
      ChatProtocol.RendezvousEffect(s, a.c);
    } else if a.DoActorStep? {
      ChatProtocol.ActorStepEffect(s, a.h, a.order);
    } else if a.DoShut? {
      ShutLog(s, a.c, a.names);
    } else if a.DoReceive? {
      ReceiveLog(s, a.c, a.msg, a.valid);
    } else {
      OtherLog(s, a);
    }
  }

  lemma ShutLog(s: State, c: nat, names: seq<string>)
    requires CanShut(s, c, names)
    ensures var s' := Shut(s, c, names);
      && |s.log| <= |s'.log| && (forall j | 0 <= j < |s.log| :: s'.log[j] == s.log[j])
      && forall j | |s.log| <= j < |s'.log| :: !s'.log[j].Replied? && !s'.log[j].Indexed?
  {
  }

  lemma ReceiveLog(s: State, c: nat, msg: SocketMessage, valid: bool)
    requires CanReceive(s, c, msg, valid)
    ensures var s' := Receive(s, c, msg, valid);
      && |s.log| <= |s'.log| && (forall j | 0 <= j < |s.log| :: s'.log[j] == s.log[j])
      && forall j | |s.log| <= j < |s'.log| :: !s'.log[j].Replied? && !s'.log[j].Indexed?
  {
  }

  lemma OtherLog(s: State, a: Action)
    requires Enabled(s, a) && !a.DoReply? && !a.DoRendezvous? && !a.DoActorStep? && !a.DoShut? && !a.DoReceive?
    ensures var s' := Apply(s, a);
      && |s.log| <= |s'.log| && (forall j | 0 <= j < |s.log| :: s'.log[j] == s.log[j])
      && forall j | |s.log| <= j < |s'.log| :: !s'.log[j].Replied? && (s'.log[j].Indexed? ==> a.DoIndex?)
  {
  }

  // ---- Channel objects ----

  /** In a run of the chat, too, a name leads to the same channel object ever after. */
  lemma {:induction false} ChannelObjectsStay(trace: seq<State>, i: nat, name: string)
    requires Run(trace) && i < |trace| && name in trace[i].store.names
    ensures NameLeads(trace[|trace| - 1], name, trace[i].store.names[name])
    decreases |trace|
  {
    if i < |trace| - 1 {
      ChannelObjectsStay(RunBefore(trace), i, name);
      NameStays(trace, name, trace[i].store.names[name]);
    }
  }

  ghost predicate NameLeads(s: State, name: string, ref: nat) {
    name in s.store.names && s.store.names[name] == ref
  }

  /** The run without its last step. */
  ghost function RunBefore(trace: seq<State>): (before: seq<State>)
    requires Run(trace) && |trace| > 1
    ensures Run(before) && |before| == |trace| - 1 && forall j | 0 <= j < |before| :: before[j] == trace[j]
  {
    trace[..|trace| - 1]
  }

  lemma NameStays(trace: seq<State>, name: string, ref: nat)
    requires Run(trace) && |trace| > 1 && NameLeads(trace[|trace| - 2], name, ref)
    ensures NameLeads(trace[|trace| - 1], name, ref)
  {
    var a := ChatInvariant.LastStep(trace);
    ChatInvariant.RunKeeps(RunBefore(trace));
    StoreGrows(trace[|trace| - 2], a);
  }

  // ---- Answers and deliveries ----

  /** An answer to a create request is the one its creation took effect with. */
  ghost predicate AnswerKept(s: State, j: nat)
    requires j < |s.log|
  {
    s.log[j].Replied? && WorkOf(s, s.log[j].r).DoCreate? ==>
      var r := s.log[j].r;
      r < |s.requests| && Made(s, r, WorkOf(s, r).name, s.requests[r].h, s.log[j].outcome)
  }

  /** A message was indexed for a channel object that is in the map. */
  ghost predicate ChannelKept(s: State, j: nat)
    requires j < |s.log|
  {
    s.log[j].Indexed? ==> s.log[j].ref < |s.store.channels|
  }

  ghost predicate Kept(s: State) {
    forall j | 0 <= j < |s.log| :: AnswerKept(s, j) && ChannelKept(s, j)
  }

  lemma MadeStays(s: State, s': State, r: nat, name: string, h: nat, outcome: Outcome)
    requires Made(s, r, name, h, outcome) && StoreFrame.Grows(s.store, s'.store) && RequestsStay(s, s')
    ensures Made(s', r, name, h, outcome)
  {
  }

  lemma EventStays(s: State, s': State, j: nat)
    requires j < |s.log| && j < |s'.log| && s'.log[j] == s.log[j]
    requires StoreFrame.Grows(s.store, s'.store) && RequestsStay(s, s')
    requires s.log[j].Replied? ==> s.log[j].r < |s.requests|
    requires AnswerKept(s, j) && ChannelKept(s, j)
    ensures AnswerKept(s', j) && ChannelKept(s', j)
  {
    if s.log[j].Replied? && WorkOf(s, s.log[j].r).DoCreate? {
      var r := s.log[j].r;
      MadeStays(s, s', r, WorkOf(s, r).name, s.requests[r].h, s.log[j].outcome);
    }
  }

  lemma ReplyKept(s: State, h: nat, c: nat)
    requires Inv(s) && CanReply(s, h, c)
    ensures AnswerKept(Reply(s, h, c), |s.log|)
  {
    assert ActorCallOk(s, h) && ChatProtocol.SessionOk(s, c) && ChatProtocol.ActorOk(s, h);
  }

  lemma IndexKept(s: State, h: nat)
    requires Inv(s) && CanIndex(s, h)
    ensures ChannelKept(Index(s, h, true), |s.log|)
  {
    assert ActorCallOk(s, h);
  }

  lemma ApplyKeepsKept(s: State, a: Action)
    requires Inv(s) && Kept(s) && Enabled(s, a)
    ensures Kept(Apply(s, a))
  {
    var s' := Apply(s, a);
    StoreGrows(s, a);
    RequestsKept(s, a);
    if !a.DoReply? { LogKept(s, a); }
    assert |s.log| <= |s'.log| && forall j | 0 <= j < |s.log| :: s'.log[j] == s.log[j];
    EventsStay(s, s');
    if a.DoReply? { ReplyKept(s, a.h, a.c); }
    if a.DoIndex? && a.success { IndexKept(s, a.h); }
  }

  lemma EventsStay(s: State, s': State)
    requires ChatProtocol.RequestsOk(s) && Kept(s)
    requires |s.log| <= |s'.log| && forall j | 0 <= j < |s.log| :: s'.log[j] == s.log[j]
    requires StoreFrame.Grows(s.store, s'.store) && RequestsStay(s, s')
    ensures forall j | 0 <= j < |s.log| :: AnswerKept(s', j) && ChannelKept(s', j)
  {
    forall j | 0 <= j < |s.log| ensures AnswerKept(s', j) && ChannelKept(s', j) {
      assert ChatProtocol.ReplyOk(s, j);
      EventStays(s, s', j);
    }
  }

  lemma {:induction false} RunKeepsKept(trace: seq<State>)
    requires Run(trace)
    ensures Kept(trace[|trace| - 1])
  {
    if |trace| > 1 {
      var a := ChatInvariant.LastStep(trace);
      RunKeepsKept(trace[..|trace| - 1]);
      ChatInvariant.RunKeeps(trace[..|trace| - 1]);
      ApplyKeepsKept(trace[|trace| - 2], a);
    }
  }

  /** A create request was answered success exactly if the name was good and new when its creation took effect. */
  lemma CreateReplied(trace: seq<State>, j: nat)
    requires Run(trace)
    requires var s := trace[|trace| - 1]; j < |s.log| && s.log[j].Replied? && WorkOf(s, s.log[j].r).DoCreate?
    ensures var s := trace[|trace| - 1];
      var Replied(r, _, outcome) := s.log[j];
      r < |s.requests| && ChatTheorems.CreatedIfNew(s, r, WorkOf(s, r).name, s.requests[r].h, outcome)
  {
    var s := trace[|trace| - 1];
    RunKeepsKept(trace);
    ChatInvariant.RunKeeps(trace);
    assert AnswerKept(s, j);
    var r := s.log[j].r;
    ChatTheorems.MadeIfNew(s, r, WorkOf(s, r).name, s.requests[r].h, s.log[j].outcome);
  }

  /** A message is broadcast in the channel object its name leads to, however long that goroutine has been waiting. */
  lemma DeliveriesFindChannel(trace: seq<State>, k: nat)
    requires Run(trace)
    requires var s := trace[|trace| - 1]; k < |s.tasks| && s.tasks[k].Deliver?
    ensures var s := trace[|trace| - 1];
      var ref := s.tasks[k].ref;
      && ref < |s.store.channels|
      && var name := s.store.channels[ref].name; name in s.store.names && s.store.names[name] == ref
  {
    var s := trace[|trace| - 1];
    RunKeepsKept(trace);
    ChatInvariant.RunKeeps(trace);
    ChatTheorems.RunLogs(trace);
    assert DeliveryOk(s, k) && IndexedOk(s, s.tasks[k].m) && ChannelKept(s, s.tasks[k].m);
  }
}
