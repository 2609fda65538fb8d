/** Which answer every request of the live chat gets. */
module ChatAnswers {
  import opened StoreSpec
  import opened Protocol
  import opened ChatSystem
  import opened ChatMembership
  import opened ChatAnswering
  import Store = StoreMachine
  import StoreFrame
  import StoreProofs
  import ChatProtocol
  import ChatInvariant

  /**
   `outcome` is what request `r` deserves: the answer of its own store call, decided on the channels as the calls that
   took effect before it left them. A message is a success if it has been indexed, and then it is the text sent, in
   the channel named, by the handler asked.
   */
  ghost predicate Deserved(s: State, r: nat, outcome: Outcome) {
    && r < |s.requests| && s.requests[r].call.Some? && s.requests[r].call.value < |s.store.calls|
    && var q, t := s.requests[r], s.requests[r].call.value;
    && s.store.calls[t].lin.Some? && s.store.calls[t].lin.value < |s.store.history|
    && var e := s.store.history[s.store.calls[t].lin.value];
       var before := StoreProofs.Replay(s.store.history[..s.store.calls[t].lin.value]);
    && e.Linearized? && e.call == t && e.op.user == q.h
    && (if q.action == "send_message" then q.payload.SendMessageRequest?
        else q.action in {"create", "join", "leave"} && q.payload.ChannelRequest?)
    && (q.action == "create" ==>
          var name := q.payload.name;
          && e.op.kind == Create && e.op.name == name
          && (outcome == Ok <==> name != "" && name !in before)
          && (outcome == Err(EmptyChannelName) <==> name == "")
          && (outcome == Err(ChannelAlreadyExists) <==> name in before))
    && (q.action == "join" ==>
          var name := q.payload.name;
          && e.op.kind == Join && e.op.name == name
          && (outcome == Ok <==> name in before && q.h !in before[name])
          && (outcome == Err(EmptyChannelName) <==> name == "")
          && (outcome == Err(ChannelDoesNotExist) <==> name != "" && name !in before)
          && (outcome == Err(UserAlreadyInChannel) <==> name in before && q.h in before[name]))
    && (q.action == "leave" ==>
          var name := q.payload.name;
          && e.op.kind == Leave && e.op.name == name
          && (outcome == Ok <==> name in before && q.h in before[name])
          && (outcome == Err(EmptyChannelName) <==> name == "")
          && (outcome == Err(ChannelDoesNotExist) <==> name != "" && name !in before)
          && (outcome == Err(UserNotInChannel) <==> name in before && q.h !in before[name]))
    && (q.action == "send_message" ==>
          var name := q.payload.channel;
          && e.op.kind == Present && e.op.name == name
          && (outcome == Ok <==> exists j :: 0 <= j < |s.log| && s.log[j].Indexed? && s.log[j].r == r)
          && (outcome == Err(UserNotInChannel) <==> !(name in before && q.h in before[name]))
          && (outcome in {Ok, Err(UserNotInChannel), Err(MessageNotSent)})
          && forall j | 0 <= j < |s.log| && s.log[j].Indexed? && s.log[j].r == r ::
               && s.log[j].h == q.h && s.log[j].text == q.payload.text
               && s.log[j].ref < |s.store.channels| && s.store.channels[s.log[j].ref].name == name)
  }

  /** The store's answer to each operation, in terms of the channels it found. */
  lemma ResultMeaning(before: Relation<nat>, op: Op<nat>, outcome: Outcome)
    requires "" !in before && outcome == Result(before, op)
    ensures op.kind == Create ==>
              && (outcome == Ok <==> op.name != "" && op.name !in before)
              && (outcome == Err(EmptyChannelName) <==> op.name == "")
              && (outcome == Err(ChannelAlreadyExists) <==> op.name in before)
    ensures op.kind == Join ==>
              && (outcome == Ok <==> op.name in before && op.user !in before[op.name])
              && (outcome == Err(EmptyChannelName) <==> op.name == "")
              && (outcome == Err(ChannelDoesNotExist) <==> op.name != "" && op.name !in before)
              && (outcome == Err(UserAlreadyInChannel) <==> op.name in before && op.user in before[op.name])
    ensures op.kind == Leave ==>
              && (outcome == Ok <==> op.name in before && op.user in before[op.name])
              && (outcome == Err(EmptyChannelName) <==> op.name == "")
              && (outcome == Err(ChannelDoesNotExist) <==> op.name != "" && op.name !in before)
              && (outcome == Err(UserNotInChannel) <==> op.name in before && op.user !in before[op.name])
    ensures op.kind == Present ==>
              && (outcome == Ok <==> op.name in before && op.user in before[op.name])
              && outcome in {Ok, Err(UserNotInChannel)}
  {
  }

  lemma TookMeaning(s: State, r: nat, op: Op<nat>, outcome: Outcome)
    requires StoreProofs.Legal(s.store.history) && Took(s, r, op, outcome)
    ensures var t := s.requests[r].call.value;
      && s.store.calls[t].lin.Some? && s.store.calls[t].lin.value < |s.store.history|
      && s.store.history[s.store.calls[t].lin.value] == Store.Linearized(t, op, outcome)
      && var before := StoreProofs.Replay(s.store.history[..s.store.calls[t].lin.value]);
         "" !in before && outcome == Result(before, op)
  {
    var t := s.requests[r].call.value;
    StoreFrame.EffectIsLegal(s.store, t, outcome);
    StoreProofs.NoEmptyName(s.store.history[..s.store.calls[t].lin.value]);
  }

  lemma FitDeserved(s: State, r: nat, outcome: Outcome)
    requires StoreProofs.Legal(s.store.history) && Answering(s)
    requires r < |s.requests| && Fits(s, r, s.requests[r].h, outcome)
    ensures Deserved(s, r, outcome)
  {
    var q := s.requests[r];
    DispatchMeaning(q.action, q.payload);
    match WorkOf(s, r)
    case DoSend(name, _) => SendDeserved(s, r, outcome);
    case DoCreate(name) => ChannelDeserved(s, r, Op(Create, name, q.h), outcome);
    case DoJoin(name) => ChannelDeserved(s, r, Op(Join, name, q.h), outcome);
    case DoLeave(name) => ChannelDeserved(s, r, Op(Leave, name, q.h), outcome);
  }

  lemma ChannelDeserved(s: State, r: nat, op: Op<nat>, outcome: Outcome)
    requires StoreProofs.Legal(s.store.history) && Took(s, r, op, outcome)
    requires var q := s.requests[r];
      && op.user == q.h && q.payload.ChannelRequest? && op.name == q.payload.name
      && q.action in {"create", "join", "leave"}
      && (q.action == "create" <==> op.kind == Create) && (q.action == "join" <==> op.kind == Join)
      && (q.action == "leave" <==> op.kind == Leave)
    ensures Deserved(s, r, outcome)
  {
    TookMeaning(s, r, op, outcome);
    ResultMeaning(StoreProofs.Replay(s.store.history[..s.store.calls[s.requests[r].call.value].lin.value]), op,
      outcome);
  }

  lemma SendDeserved(s: State, r: nat, outcome: Outcome)
    requires StoreProofs.Legal(s.store.history) && Answering(s)
    requires r < |s.requests| && Fits(s, r, s.requests[r].h, outcome)
    requires s.requests[r].action == "send_message" && s.requests[r].payload.SendMessageRequest?
    requires var q := s.requests[r]; WorkOf(s, r) == DoSend(q.payload.channel, q.payload.text)
    ensures Deserved(s, r, outcome)
  {
    var q := s.requests[r];
    var op := Op(Present, q.payload.channel, q.h);
    var checked := if outcome == Err(UserNotInChannel) then outcome else Ok;
    TookMeaning(s, r, op, checked);
    ResultMeaning(StoreProofs.Replay(s.store.history[..s.store.calls[q.call.value].lin.value]), op, checked);
    if j: nat :| IndexedAt(s, j, r) { assert s.log[j].Indexed?; }
    if j :| 0 <= j < |s.log| && s.log[j].Indexed? && s.log[j].r == r { assert IndexedAt(s, j, r); }
    forall j | 0 <= j < |s.log| && s.log[j].Indexed? && s.log[j].r == r
      ensures s.log[j].h == q.h && s.log[j].text == q.payload.text && s.log[j].ref < |s.store.channels|
      ensures s.store.channels[s.log[j].ref].name == q.payload.channel
    {
      assert LoggedRight(s, j);
    }
  }

  /** Every answer ever given in a run of the chat is the one deserved, and went to the session that asked. */
  lemma RepliesAreDeserved(trace: seq<State>, j: nat)
    requires Run(trace)
    requires j < |trace[|trace| - 1].log| && trace[|trace| - 1].log[j].Replied?
    ensures var s := trace[|trace| - 1];
      Deserved(s, s.log[j].r, s.log[j].outcome) && s.log[j].to == s.requests[s.log[j].r].owner
  {
    var s := trace[|trace| - 1];
    RunAnswers(trace);
    ChatInvariant.RunKeeps(trace);
    assert LoggedRight(s, j) && ChatProtocol.ReplyOk(s, j);
    FitDeserved(s, s.log[j].r, s.log[j].outcome);
  }

  /** ... and so is every answer an actor is about to give. */
  lemma AnswersAreDeserved(trace: seq<State>, h: nat)
    requires Run(trace)
    requires h < |trace[|trace| - 1].hs| && trace[|trace| - 1].hs[h].actor.Replying?
    ensures var s := trace[|trace| - 1];
      && Deserved(s, s.hs[h].actor.r, s.hs[h].actor.outcome) && s.requests[s.hs[h].actor.r].h == h
  {
    var s := trace[|trace| - 1];
    RunAnswers(trace);
    ChatInvariant.RunKeeps(trace);
    assert Asked(s, h) && ChatProtocol.ActorOk(s, h);
    assert ChatProtocol.SessionOk(s, s.requests[s.hs[h].actor.r].owner);
    FitDeserved(s, s.hs[h].actor.r, s.hs[h].actor.outcome);
  }
}
