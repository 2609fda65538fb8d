/**
 The channel store, the user handlers and the pool of connected users as the objects they are, each call run by
 itself; StoreMachine and ChatSystem are about their calls running together. A `go` statement is recorded in the
 out-parameter `spawned`.
 */
module Sockchat {
  import opened Collections
  import opened StoreSpec
  import opened Protocol
  import opened RequestSpec

  datatype MessageEvent = MessageEvent(text: string, channel: string, author: string, timestamp: int)

  datatype Reason = InvalidRequest | LoginFirst | InvalidCredentials | StoreError(error: Error)

  /** What is written to a socket. */
  datatype Message =
    | UserJoined(channel: string, nick: string)
    | UserLeft(channel: string, nick: string)
    | YouLeft(channel: string, nick: string)
    | NewMessage(message: MessageEvent)
    | LoggedIn(nick: string)
    | SocketError(reason: Reason)

  datatype Goroutine =
    | GoWrite(user: UserHandler, msg: Message)
    | GoRemove(name: string, user: UserHandler)
    | GoBroadcast(to: Channel, msg: Message)

  ghost function WritesTo(users: set<UserHandler>, msg: Message): set<Goroutine> {
    set u | u in users :: GoWrite(u, msg)
  }

  ghost function RemovalsFrom(names: set<string>, user: UserHandler): set<Goroutine> {
    set n | n in names :: GoRemove(n, user)
  }

  // ---- Channels ----

  class Channel {
    var members: set<UserHandler>

    constructor ()
      ensures members == {}
    {
      members := {};
    }

    method AddMember(user: UserHandler)
      modifies this
      ensures members == old(members) + {user}
    {
      members := members + {user};
    }

    method RemoveMember(user: UserHandler)
      modifies this
      ensures members == old(members) - {user}
    {
      members := members - {user};
    }

    method HasMember(user: UserHandler) returns (has: bool)
      ensures has <==> user in members
    {
      has := user in members;
    }

    /** One `go user.Write` for each member, in some order. */
    method MessageMembers(msg: Message) returns (spawned: seq<Goroutine>)
      ensures Enumerates(spawned, WritesTo(members, msg))
      ensures Enumerates(spawned, set u | u in members :: GoWrite(u, msg))
    {
      spawned := [];
      var left := members;
      while left != {}
        invariant left <= members
        invariant Enumerates(spawned, WritesTo(members - left, msg))
        decreases |left|
      {
        var user :| user in left;
        left := left - {user};
        EnumerateOneMore(spawned, WritesTo(members - left - {user}, msg), GoWrite(user, msg));
        assert WritesTo(members - left, msg) == WritesTo(members - left - {user}, msg) + {GoWrite(user, msg)};
        assert members - left - {user} == members - (left + {user});
        spawned := spawned + [GoWrite(user, msg)];
      }
      assert members - left == members;
    }
  }

  class ChannelStore {
    var channels: map<string, Channel>
    var indexed: seq<MessageEvent>   // the message index
    ghost var owned: set<Channel>

    ghost predicate Valid()
      reads this
    {
      && "" !in channels
      && (forall n | n in channels :: channels[n] in owned)
      && (forall n, m | n in channels && m in channels && n != m :: channels[n] != channels[m])
    }

    ghost function View(): (view: Relation<UserHandler>)
      requires Valid()
      reads this, owned
      ensures view.Keys == channels.Keys
    {
      map n | n in channels :: channels[n].members
    }

    constructor ()
      ensures Valid() && View() == map[] && indexed == []
    {
      channels, indexed, owned := map[], [], {};
    }

    method GetChannel(name: string) returns (out: Outcome, channel: Option<Channel>)
      requires Valid()
      ensures out == Ok <==> name in channels
      ensures channel == if name in channels then Some(channels[name]) else None
      ensures out == Ok || out == Err(if name == "" then EmptyChannelName else ChannelDoesNotExist)
    {
      if name == "" { return Err(EmptyChannelName), None; }
      if name !in channels { return Err(ChannelDoesNotExist), None; }
      return Ok, Some(channels[name]);
    }

    method CreateChannel(name: string, ghost caller: UserHandler) returns (out: Outcome)
      requires Valid()
      modifies this`channels, this`owned
      ensures Valid() && fresh(owned - old(owned))
      ensures out == Result(old(View()), Op(Create, name, caller))
              && View() == After(old(View()), Op(Create, name, caller))
      ensures forall n | n in old(channels) :: n in channels && channels[n] == old(channels[n])
    {
      if name == "" { return Err(EmptyChannelName); }
      if name in channels { return Err(ChannelAlreadyExists); }
      var channel := new Channel();
      channels, owned := channels[name := channel], owned + {channel};
      out := Ok;
    }

    method AddUserToChannel(name: string, user: UserHandler) returns (out: Outcome, spawned: seq<Goroutine>)
      requires Valid()
      modifies owned
      ensures Valid()
      ensures out == Result(old(View()), Op(Join, name, user)) && View() == After(old(View()), Op(Join, name, user))
      ensures out != Ok ==> spawned == []
      ensures out == Ok ==> Enumerates(spawned, WritesTo(View()[name], UserJoined(name, user.nick)))
    {
      spawned := [];
      var channel;
      out, channel := GetChannel(name);
      if out != Ok { return; }
      var has := channel.value.HasMember(user);
      if has { return Err(UserAlreadyInChannel), []; }
      channel.value.AddMember(user);
      spawned := channel.value.MessageMembers(UserJoined(name, user.nick));
    }

    method RemoveUserFromChannel(name: string, user: UserHandler) returns (out: Outcome, spawned: seq<Goroutine>)
      requires Valid()
      modifies owned
      ensures Valid()
      ensures out == Result(old(View()), Op(Leave, name, user)) && View() == After(old(View()), Op(Leave, name, user))
      ensures out != Ok ==> spawned == []
      ensures out == Ok ==> Enumerates(spawned, WritesTo(View()[name], UserLeft(name, user.nick)))
    {
      spawned := [];
      var channel;
      out, channel := GetChannel(name);
      if out != Ok { return; }
      var has := channel.value.HasMember(user);
      if !has { return Err(UserNotInChannel), []; }
      channel.value.RemoveMember(user);
      spawned := channel.value.MessageMembers(UserLeft(name, user.nick));
    }

    /** One `go RemoveUserFromChannel` for each channel, in some order. */
    method DisconnectUser(user: UserHandler) returns (spawned: seq<Goroutine>)
      ensures Enumerates(spawned, RemovalsFrom(channels.Keys, user))
      ensures Enumerates(spawned, set n | n in channels :: GoRemove(n, user))
    {
      spawned := [];
      var left := channels.Keys;
      while left != {}
        invariant left <= channels.Keys
        invariant Enumerates(spawned, RemovalsFrom(channels.Keys - left, user))
        decreases |left|
      {
        var name :| name in left;
        left := left - {name};
        EnumerateOneMore(spawned, RemovalsFrom(channels.Keys - left - {name}, user), GoRemove(name, user));
        assert RemovalsFrom(channels.Keys - left, user)
            == RemovalsFrom(channels.Keys - left - {name}, user) + {GoRemove(name, user)};
        assert channels.Keys - left - {name} == channels.Keys - (left + {name});
        spawned := spawned + [GoRemove(name, user)];
      }
      assert channels.Keys - left == channels.Keys;
    }

    method IsUserPresentIn(user: UserHandler, name: string) returns (present: bool)
      requires Valid()
      ensures present <==> Member(View(), name, user)
    {
      var out, channel := GetChannel(name);
      if out != Ok { return false; }
      present := channel.value.HasMember(user);
    }

    /** `accepts` is whether IndexMessage succeeds. The broadcast is spawned only after the message is indexed. */
    method MessageChannel(message: MessageEvent, accepts: bool) returns (out: Outcome, spawned: seq<Goroutine>)
      requires Valid()
      modifies this`indexed
      ensures Valid() && channels == old(channels) && View() == old(View())
      ensures out == Ok <==> message.channel in channels && accepts
      ensures message.channel in channels && !accepts ==> out == Err(MessageNotSent)
      ensures message.channel !in channels ==>
                out == Err(if message.channel == "" then EmptyChannelName else ChannelDoesNotExist)
      ensures indexed == old(indexed) + (if out == Ok then [message] else [])
      ensures spawned == if out == Ok then [GoBroadcast(channels[message.channel], NewMessage(message))] else []
    {
      spawned := [];
      var channel;
      out, channel := GetChannel(message.channel);
      if out != Ok { return; }
      if !accepts { return Err(MessageNotSent), []; }
      indexed := indexed + [message];
      spawned := [GoBroadcast(channel.value, NewMessage(message))];
    }
  }

  // ---- User handlers ----

  class SockChatWS {
    var authorized: bool
    var written: seq<Message>

    constructor ()
      ensures !authorized && written == []
    {
      authorized, written := false, [];
    }

    method WriteSocketMsg(msg: Message)
      modifies this`written
      ensures written == old(written) + [msg]
    {
      written := written + [msg];
    }
  }

  datatype Reply = Answered(outcome: Outcome) | Dropped | Panicked

  class UserHandler {
    const nick: string
    var connections: set<SockChatWS>
    const channelStore: ChannelStore

    constructor (nick: string, store: ChannelStore)
      ensures this.nick == nick && connections == {} && channelStore == store
    {
      this.nick, connections, channelStore := nick, {}, store;
    }

    method AddConnection(conn: SockChatWS)
      modifies this
      ensures connections == old(connections) + {conn}
    {
      connections := connections + {conn};
    }

    method RemoveConnection(conn: SockChatWS)
      modifies this
      ensures connections == old(connections) - {conn}
    {
      connections := connections - {conn};
    }

    method GetActiveConnectionsCount() returns (n: nat)
      ensures n == |connections|
    {
      n := |connections|;
    }

    /** Every connection the handler has gets the message once; the wait group keeps Write here until all have. */
    method Write(msg: Message)
      modifies connections`written
      ensures forall c | c in connections :: c.written == old(c.written) + [msg]
    {
      var left := connections;
      while left != {}
        invariant left <= connections
        invariant forall c | c in connections :: c.written == old(c.written) + (if c in left then [] else [msg])
        decreases |left|
      {
        var conn :| conn in left;
        left := left - {conn};
        conn.WriteSocketMsg(msg);
      }
    }

    /** CreateChannel and, if that succeeds, AddUserToChannel. */
    method Make(name: string) returns (out: Outcome, spawned: seq<Goroutine>)
      requires channelStore.Valid()
      modifies channelStore`channels, channelStore`owned, channelStore.owned
      ensures channelStore.Valid() && fresh(channelStore.owned - old(channelStore.owned))
      ensures out == Answer(old(channelStore.View()), this, DoCreate(name), true)
      ensures channelStore.View() == Effect(old(channelStore.View()), this, DoCreate(name))
      ensures forall n | n in old(channelStore.channels) ::
                n in channelStore.channels && channelStore.channels[n] == old(channelStore.channels[n])
      ensures out != Ok ==> spawned == []
      ensures out == Ok ==> Enumerates(spawned, WritesTo(channelStore.View()[name], UserJoined(name, nick)))
    {
      spawned := [];
      out := channelStore.CreateChannel(name, this);
      if out == Ok {
        out, spawned := channelStore.AddUserToChannel(name, this);
      }
    }

    /** RemoveUserFromChannel; whoever leaves is told apart from the members that remain. */
    method Quit(name: string) returns (out: Outcome, spawned: seq<Goroutine>)
      requires channelStore.Valid()
      modifies channelStore.owned
      ensures channelStore.Valid()
      ensures out == Answer(old(channelStore.View()), this, DoLeave(name), true)
      ensures channelStore.View() == Effect(old(channelStore.View()), this, DoLeave(name))
      ensures out != Ok ==> spawned == []
      ensures out == Ok ==>
                var writes := WritesTo(channelStore.View()[name], UserLeft(name, nick));
                Enumerates(spawned, writes + {GoWrite(this, YouLeft(name, nick))})
    {
      out, spawned := channelStore.RemoveUserFromChannel(name, this);
      if out == Ok {
        var own := GoWrite(this, YouLeft(name, nick));
        EnumerateOneMore(spawned, WritesTo(channelStore.View()[name], UserLeft(name, nick)), own);
        spawned := spawned + [own];
      }
    }

    /** IsUserPresentIn and, for members, MessageChannel. */
    method Send(message: MessageEvent, accepts: bool) returns (out: Outcome, spawned: seq<Goroutine>)
      requires channelStore.Valid()
      modifies channelStore`indexed
      ensures channelStore.Valid() && channelStore.channels == old(channelStore.channels)
      ensures out == Answer(old(channelStore.View()), this, DoSend(message.channel, message.text), accepts)
      ensures channelStore.View() == old(channelStore.View())
      ensures channelStore.indexed == old(channelStore.indexed) + (if out == Ok then [message] else [])
      ensures out != Ok ==> spawned == []
      ensures out == Ok ==>
                && message.channel in channelStore.channels
                && spawned == [GoBroadcast(channelStore.channels[message.channel], NewMessage(message))]
    {
      var present := channelStore.IsUserPresentIn(this, message.channel);
      if !present { return Err(UserNotInChannel), []; }
      out, spawned := channelStore.MessageChannel(message, accepts);
    }

    /**
     The switch of the HandleRequests loop; `accepts` is what the message index does, `now` its clock. What is written
     or broadcast is what the request owes to the members there are after it.
     */
    method Perform(work: Work, accepts: bool, now: int) returns (out: Outcome, spawned: seq<Goroutine>)
      requires channelStore.Valid() && Handled(work)
      modifies channelStore, channelStore.owned
      ensures channelStore.Valid() && fresh(channelStore.owned - old(channelStore.owned))
      ensures forall n | n in old(channelStore.channels) ::
                n in channelStore.channels && channelStore.channels[n] == old(channelStore.channels[n])
      ensures out == Answer(old(channelStore.View()), this, work, accepts)
      ensures channelStore.View() == Effect(old(channelStore.View()), this, work)
      ensures channelStore.indexed
                == old(channelStore.indexed) + (if out == Ok then Indexes(work, nick, now) else [])
      ensures out != Ok ==> spawned == []
      ensures out == Ok ==> Enumerates(spawned, Owed(channelStore.View(), channelStore.channels, this, work, now))
    {
      match work {
        case DoCreate(name) => out, spawned := Make(name);
        case DoJoin(name) => out, spawned := channelStore.AddUserToChannel(name, this);
        case DoLeave(name) => out, spawned := Quit(name);
        case DoSend(name, text) => out, spawned := Send(MessageEvent(text, name, nick, now), accepts);
      }
    }

    /** One turn of the HandleRequests loop. */
    method HandleRequest(action: string, payload: Payload, accepts: bool, now: int)
      returns (reply: Reply, spawned: seq<Goroutine>)
      requires channelStore.Valid()
      modifies channelStore, channelStore.owned
      ensures channelStore.Valid() && fresh(channelStore.owned - old(channelStore.owned))
      ensures forall n | n in old(channelStore.channels) ::
                n in channelStore.channels && channelStore.channels[n] == old(channelStore.channels[n])
      ensures reply.Dropped? <==> action !in {"create", "join", "leave", "send_message"}
      ensures reply.Answered? <==> Answerable(action, payload)
      ensures Accepted(action, payload) <==> Answerable(action, payload)
      ensures reply.Answered? ==>
                && Fulfils(old(channelStore.View()), channelStore.View(), this, action, payload, accepts, reply.outcome)
                && reply.outcome == Answer(old(channelStore.View()), this, Dispatch(action, payload), accepts)
                && channelStore.View() == Effect(old(channelStore.View()), this, Dispatch(action, payload))
      ensures channelStore.indexed
                == old(channelStore.indexed)
                   + (if action == "send_message" && reply == Answered(Ok)
                      then [MessageEvent(payload.text, payload.channel, nick, now)] else [])
      ensures reply == Answered(Ok) ==>
                Notifies(spawned, channelStore.View(), channelStore.channels, this, action, payload, now)
      ensures !reply.Answered? ==> channelStore.View() == old(channelStore.View())
      ensures reply != Answered(Ok) ==> spawned == []
    {
      WorkFulfils(channelStore.View(), this, action, payload, accepts);
      DispatchMeaning(action, payload);
      var work := Dispatch(action, payload);
      if work.Unhandled? { return Dropped, []; }
      if work.Panic? { return Panicked, []; }
      var out;
      ghost var before := channelStore.View();
      out, spawned := Perform(work, accepts, now);
      reply := Answered(out);
      if out == Ok {
        WorkNotifies(before, channelStore.View(), channelStore.channels, this, action, payload, accepts, now, spawned);
      }
    }

    /** The caller waits for its answer, so it may only ask for what HandleRequest answers. */
    method MakeRequest(action: string, payload: Payload, accepts: bool, now: int)
      returns (answer: Outcome, spawned: seq<Goroutine>)
      requires channelStore.Valid() && Answerable(action, payload)
      modifies channelStore, channelStore.owned
      ensures channelStore.Valid() && fresh(channelStore.owned - old(channelStore.owned))
      ensures Fulfils(old(channelStore.View()), channelStore.View(), this, action, payload, accepts, answer)
      ensures answer == Answer(old(channelStore.View()), this, Dispatch(action, payload), accepts)
      ensures channelStore.View() == Effect(old(channelStore.View()), this, Dispatch(action, payload))
      ensures channelStore.indexed
                == old(channelStore.indexed)
                   + (if action == "send_message" && answer == Ok
                      then [MessageEvent(payload.text, payload.channel, nick, now)] else [])
      ensures answer != Ok ==> spawned == []
      ensures answer == Ok ==>
                Notifies(spawned, channelStore.View(), channelStore.channels, this, action, payload, now)
    {
      var reply;
      reply, spawned := HandleRequest(action, payload, accepts, now);
      answer := reply.outcome;
    }
  }

  function Indexes(work: Work, nick: string, now: int): seq<MessageEvent> {
    if work.DoSend? then [MessageEvent(work.text, work.name, nick, now)] else []
  }

  /** The goroutines a successful request owes, given the channels after it. */
  ghost function Owed(view: Relation<UserHandler>, channels: map<string, Channel>, user: UserHandler,
                      work: Work, now: int): set<Goroutine> {
    match work
    case DoCreate(name) => if name in view then WritesTo(view[name], UserJoined(name, user.nick)) else {}
    case DoJoin(name) => if name in view then WritesTo(view[name], UserJoined(name, user.nick)) else {}
    case DoLeave(name) =>
      if name in view
      then WritesTo(view[name], UserLeft(name, user.nick)) + {GoWrite(user, YouLeft(name, user.nick))}
      else {}
    case DoSend(name, text) =>
      if name in channels
      then {GoBroadcast(channels[name], NewMessage(MessageEvent(text, name, user.nick, now)))}
      else {}
    case _ => {}
  }

  /** The goroutines of a successful request, given the channels after it: who is written what, or what is broadcast. */
  ghost predicate Notifies(spawned: seq<Goroutine>, view: Relation<UserHandler>, channels: map<string, Channel>,
                           user: UserHandler, action: string, payload: Payload, now: int)
    requires Answerable(action, payload)
  {
    && (action == "create" ==> spawned == [GoWrite(user, UserJoined(payload.name, user.nick))])
    && (action == "join" ==>
          && payload.name in view
          && Enumerates(spawned, set u | u in view[payload.name] :: GoWrite(u, UserJoined(payload.name, user.nick))))
    && (action == "leave" ==>
          && payload.name in view
          && Enumerates(spawned, (set u | u in view[payload.name] :: GoWrite(u, UserLeft(payload.name, user.nick)))
                                 + {GoWrite(user, YouLeft(payload.name, user.nick))}))
    && (action == "send_message" ==>
          && payload.channel in channels
          && spawned == [GoBroadcast(channels[payload.channel],
                                     NewMessage(MessageEvent(payload.text, payload.channel, user.nick, now)))])
  }

  /** What the work owes is what the request notifies. */
  lemma WorkNotifies(before: Relation<UserHandler>, view: Relation<UserHandler>, channels: map<string, Channel>,
                     user: UserHandler, action: string, payload: Payload, accepts: bool, now: int,
                     spawned: seq<Goroutine>)
    requires Answerable(action, payload) && "" !in before && view.Keys == channels.Keys && Accepted(action, payload)
    requires var work := Dispatch(action, payload);
      && Answer(before, user, work, accepts) == Ok && view == Effect(before, user, work)
      && Enumerates(spawned, Owed(view, channels, user, work, now))
    ensures Notifies(spawned, view, channels, user, action, payload, now)
  {
    DispatchMeaning(action, payload);
    RequestMeaning(before, user, Dispatch(action, payload), accepts);
    if action == "create" {
      var note := UserJoined(payload.name, user.nick);
      assert WritesTo(view[payload.name], note) == {GoWrite(user, note)};
      OneItem(spawned, GoWrite(user, note));
    } else if action == "send_message" {
      OneItem(spawned, GoBroadcast(channels[payload.channel],
                                   NewMessage(MessageEvent(payload.text, payload.channel, user.nick, now))));
    }
  }

  /** A creator hears its own joined event alone, a joiner among the others, a leaver not its own left event. */
  lemma OwnNotice(r: Relation<UserHandler>, channels: map<string, Channel>, user: UserHandler, work: Work, now: int)
    requires Handled(work) && "" !in r && Answer(r, user, work, true) == Ok
    ensures var owed := Owed(Effect(r, user, work), channels, user, work, now);
      && (work.DoCreate? ==> owed == {GoWrite(user, UserJoined(work.name, user.nick))})
      && (work.DoJoin? ==> GoWrite(user, UserJoined(work.name, user.nick)) in owed)
      && (work.DoLeave? ==>
            GoWrite(user, YouLeft(work.name, user.nick)) in owed
              && GoWrite(user, UserLeft(work.name, user.nick)) !in owed)
  {
    RequestMeaning(r, user, work, true);
  }
}
