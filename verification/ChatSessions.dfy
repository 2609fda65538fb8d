/** What the messages of a session do in the live chat: who is let in, and which request starts which store call. */
module ChatSessions {
  import opened Collections
  import opened StoreSpec
  import opened Protocol
  import opened ChatSystem
  import opened ChatMembership
  import Store = StoreMachine
  import ChatProtocol
  import ChatInvariant
  import ChatHistory

  /**
   What a message read by a session does. Before its login only an accepted login has an effect; after it only a
   request that parses, and what is asked of the handler is what the message said.
   */
  lemma ReceiveMeaning(s: State, c: nat, msg: SocketMessage, valid: bool)
    requires CanReceive(s, c, msg, valid)
    ensures var s', login := Receive(s, c, msg, valid), s.sessions[c].login;
      && (login.None? ==>
            if msg.action == "login" && msg.asLogin.Some? && valid then
              && s'.sessions == s.sessions[c := Reading(Some(msg.asLogin.value.nick))]
              && s'.log == s.log + [Attached(c, msg.asLogin.value.nick)]
            else s' == s)
      && (login.Some? && msg.action in {"create", "join", "leave"} && msg.asChannel.Some? ==>
            s' == SetSession(s, c, Calling(login.value, msg.action, ChannelRequest(msg.asChannel.value))))
      && (login.Some? && msg.action == "send_message" && msg.asSend.Some? ==>
            s' == SetSession(s, c, Calling(login.value, msg.action,
                                           SendMessageRequest(msg.asSend.value.0, msg.asSend.value.1))))
      && (login.Some?
          && !(msg.action in {"create", "join", "leave"} && msg.asChannel.Some?)
          && !(msg.action == "send_message" && msg.asSend.Some?)
          ==> s' == s)
  {
    GateMatchesActor(msg);
  }

  /** From `s` to `s'` session `c`, a stranger so far, has read a login of `nick` with the right password. */
  ghost predicate LogsIn(s: State, s': State, c: nat, nick: string, msg: SocketMessage) {
    && CanReceive(s, c, msg, true) && s' == Receive(s, c, msg, true) && s.sessions[c] == Reading(None)
    && msg.action == "login" && msg.asLogin.Some? && msg.asLogin.value.nick == nick
  }

  /** A step registers a connection only by an accepted login. */
  lemma AttachIsLogin(s: State, a: Action, j: nat)
    requires Inv(s) && Enabled(s, a) && |s.log| <= j < |Apply(s, a).log| && Apply(s, a).log[j].Attached?
    ensures var Attached(c, nick) := Apply(s, a).log[j];
      a.DoReceive? && LogsIn(s, Apply(s, a), c, nick, a.msg)
  {
    if a.DoReceive? {
      ReceiveMeaning(s, a.c, a.msg, a.valid);
    } else {
      NoAttach(s, a);
    }
  }

  lemma NoAttach(s: State, a: Action)
    requires Inv(s) && Enabled(s, a) && !a.DoReceive?
    ensures forall j | |s.log| <= j < |Apply(s, a).log| :: !Apply(s, a).log[j].Attached?
  {
    if a.DoRendezvous? {
      ChatProtocol.RendezvousEffect(s, a.c);
    } else if a.DoActorStep? {
      ChatProtocol.ActorStepEffect(s, a.h, a.order);
    } else if a.DoShut? {
      ShutNoAttach(s, a.c, a.names);
    } else {
      OthersNoAttach(s, a);
    }
  }

  lemma ShutNoAttach(s: State, c: nat, names: seq<string>)
    requires CanShut(s, c, names)
    ensures forall j | |s.log| <= j < |Shut(s, c, names).log| :: !Shut(s, c, names).log[j].Attached?
  {
  }

  lemma OthersNoAttach(s: State, a: Action)
    requires Enabled(s, a) && !a.DoReceive? && !a.DoRendezvous? && !a.DoActorStep? && !a.DoShut?
    ensures forall j | |s.log| <= j < |Apply(s, a).log| :: !Apply(s, a).log[j].Attached?
  {
  }

  ghost predicate LogsInAt(trace: seq<State>, i: nat, c: nat, nick: string, msg: SocketMessage) {
    i + 1 < |trace| && LogsIn(trace[i], trace[i + 1], c, nick, msg)
  }

  /** Whoever was ever registered in a run of the chat has sent a login that was accepted, under that nick. */
  lemma {:induction false} OnlyLoginsAttach(trace: seq<State>, j: nat)
    requires Run(trace)
    requires j < |trace[|trace| - 1].log| && trace[|trace| - 1].log[j].Attached?
    ensures var Attached(c, nick) := trace[|trace| - 1].log[j];
      exists i: nat, msg :: LogsInAt(trace, i, c, nick, msg)
    decreases |trace|
  {
    var before := ChatHistory.RunBefore(trace);
    var s := before[|before| - 1];
    var a := ChatInvariant.LastStep(trace);
    ChatInvariant.RunKeeps(before);
    if j < |s.log| {
      LogGrows(s, a);
      OnlyLoginsAttach(before, j);
      var Attached(c, nick) := s.log[j];
      var i: nat, msg :| LogsInAt(before, i, c, nick, msg);
      assert LogsInAt(trace, i, c, nick, msg);
    } else {
      AttachIsLogin(s, a, j);
      var Attached(c, nick) := Apply(s, a).log[j];
      assert LogsInAt(trace, |trace| - 2, c, nick, a.msg);
    }
  }

  lemma LogGrows(s: State, a: Action)
    requires Inv(s) && Enabled(s, a)
    ensures |s.log| <= |Apply(s, a).log| && forall j | 0 <= j < |s.log| :: Apply(s, a).log[j] == s.log[j]
  {
    if !a.DoReply? { ChatHistory.LogKept(s, a); }
  }

  /** Which store call an actor begins a request with, in its own name. */
  lemma RendezvousMeaning(s: State, c: nat)
    requires CanRendezvous(s, c)
    ensures var s', h, r := Rendezvous(s, c), s.sessions[c].h, s.sessions[c].r;
      var q, t := s.requests[r], |s.store.calls|;
      && s'.sessions == s.sessions[c := Awaiting(s.sessions[c].nick, h, r)]
      && (q.action == "create" && q.payload.ChannelRequest? ==>
            && s'.store == Store.Start(s.store, Op(Create, q.payload.name, h))
            && s'.requests[r].call == Some(t) && s'.hs[h].actor == Making(r, q.payload.name, t))
      && (q.action == "join" && q.payload.ChannelRequest? ==>
            && s'.store == Store.Start(s.store, Op(Join, q.payload.name, h))
            && s'.requests[r].call == Some(t) && s'.hs[h].actor == Joining(r, q.payload.name, t))
      && (q.action == "leave" && q.payload.ChannelRequest? ==>
            && s'.store == Store.Start(s.store, Op(Leave, q.payload.name, h))
            && s'.requests[r].call == Some(t) && s'.hs[h].actor == Leaving(r, q.payload.name, t))
      && (q.action == "send_message" && q.payload.SendMessageRequest? ==>
            && s'.store == Store.Start(s.store, Op(Present, q.payload.channel, h))
            && s'.requests[r].call == Some(t)
            && s'.hs[h].actor == Checking(r, q.payload.channel, q.payload.text, t))
  {
    DispatchMeaning(s.requests[s.sessions[c].r].action, s.requests[s.sessions[c].r].payload);
  }
}
