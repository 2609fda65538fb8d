/** A websocket session as the loop it is, from connecting to shutting down, run with no other session in between. */
module Messaging {
  import opened Collections
  import opened StoreSpec
  import opened Protocol
  import opened RequestSpec
  import opened Sockchat
  import opened UserPool

  /**
   One message read from the socket, with what the rest of the system does about it: whether IsAuthValid accepts
   its credentials, whether the message index accepts its text, and the clock.
   */
  datatype Input = Input(msg: SocketMessage, valid: bool, accepts: bool, now: int)

  datatype Request = Request(action: string, payload: Payload)

  // ---- What a session does with a sequence of messages ----

  predicate LogsIn(input: Input) {
    input.msg.action == LOGIN && input.msg.asLogin.Some? && input.valid
  }

  /** The nick of the first login that is accepted. */
  function LoginAfter(inbox: seq<Input>): Option<string> {
    if inbox == [] then None
    else if LoginAfter(inbox[..|inbox| - 1]).Some? then LoginAfter(inbox[..|inbox| - 1])
    else if LogsIn(inbox[|inbox| - 1]) then Some(inbox[|inbox| - 1].msg.asLogin.value.nick)
    else None
  }

  /** A session is let in by the first message that is a login with the right password, under the nick it names. */
  lemma {:induction false} LoginMeaning(inbox: seq<Input>)
    ensures LoginAfter(inbox).Some? <==>
              exists k :: 0 <= k < |inbox| && inbox[k].msg.action == "login" && inbox[k].msg.asLogin.Some?
                && inbox[k].valid
    ensures forall k: nat | IsFirstLogin(inbox, k) :: LoginAfter(inbox) == Some(inbox[k].msg.asLogin.value.nick)
  {
    if inbox != [] {
      var before := inbox[..|inbox| - 1];
      LoginMeaning(before);
      forall k: nat | k < |before| ensures IsFirstLogin(inbox, k) <==> IsFirstLogin(before, k) { }
    }
  }

  /** Message `k` is a login with the right password, and none before it is. */
  predicate IsFirstLogin(inbox: seq<Input>, k: nat) {
    && k < |inbox| && inbox[k].msg.action == "login" && inbox[k].msg.asLogin.Some? && inbox[k].valid
    && forall j | 0 <= j < k :: !(inbox[j].msg.action == "login" && inbox[j].msg.asLogin.Some? && inbox[j].valid)
  }

  /** The requests passed to the handler: what was read after the login and could be parsed. */
  function Forwarded(inbox: seq<Input>): seq<Request> {
    if inbox == [] then [] else
      var before, msg := inbox[..|inbox| - 1], inbox[|inbox| - 1].msg;
      if LoginAfter(before).Some? && Parse(msg).Some? then Forwarded(before) + [Request(msg.action, Parse(msg).value)]
      else Forwarded(before)
  }

  /** What the last message of `inbox` asks of the handler, if it gets that far. */
  function LastWork(inbox: seq<Input>): Option<Work>
    ensures LastWork(inbox).Some? ==> Handled(LastWork(inbox).value)
  {
    if inbox == [] || LoginAfter(inbox[..|inbox| - 1]).None? then None else
      var msg := inbox[|inbox| - 1].msg;
      if Parse(msg).None? then None
      else
        GateMatchesActor(msg);
        Some(Dispatch(msg.action, Parse(msg).value))
  }

  /** The channels a session leaves behind that meets `r`, served by `user`. */
  function Reached<H(==)>(r: Relation<H>, user: H, inbox: seq<Input>): Relation<H> {
    if inbox == [] then r else
      var before := Reached(r, user, inbox[..|inbox| - 1]);
      if LastWork(inbox).None? then before else Effect(before, user, LastWork(inbox).value)
  }

  /** The answers its requests get, in order. */
  function Replies<H(==)>(r: Relation<H>, user: H, inbox: seq<Input>): (replies: seq<Outcome>)
    ensures |replies| == |Forwarded(inbox)|
  {
    if inbox == [] then [] else
      var before, last := inbox[..|inbox| - 1], inbox[|inbox| - 1];
      if LastWork(inbox).None? then Replies(r, user, before)
      else Replies(r, user, before) + [Answer(Reached(r, user, before), user, LastWork(inbox).value, last.accepts)]
  }

  /** Until the login there are neither answers nor effects. */
  lemma {:induction false} NothingBeforeLogin<H>(r: Relation<H>, user: H, inbox: seq<Input>)
    requires LoginAfter(inbox).None?
    ensures Reached(r, user, inbox) == r && Replies(r, user, inbox) == []
  {
    if inbox != [] { NothingBeforeLogin(r, user, inbox[..|inbox| - 1]); }
  }

  function Refusal(msg: SocketMessage): Reason {
    if msg.action != LOGIN then LoginFirst
    else if msg.asLogin.None? then InvalidRequest
    else InvalidCredentials
  }

  /** What the session itself writes to its socket, given the replies its requests got. */
  function Feedback(inbox: seq<Input>, replies: seq<Outcome>): seq<Message>
    requires |replies| == |Forwarded(inbox)|
  {
    if inbox == [] then [] else
      var before, input := inbox[..|inbox| - 1], inbox[|inbox| - 1];
      if LoginAfter(before).None? then
        Feedback(before, replies)
        + [if LogsIn(input) then LoggedIn(input.msg.asLogin.value.nick) else SocketError(Refusal(input.msg))]
      else if Parse(input.msg).None? then Feedback(before, replies) + [SocketError(InvalidRequest)]
      else
        var last := replies[|replies| - 1];
        Feedback(before, replies[..|replies| - 1]) + (if last.Err? then [SocketError(StoreError(last.error))] else [])
  }

  /** Nothing is forwarded before a login, and the handler can work on all that is. */
  lemma {:induction false} ForwardedIsAccepted(inbox: seq<Input>)
    ensures LoginAfter(inbox).None? ==> Forwarded(inbox) == []
    ensures forall k | 0 <= k < |Forwarded(inbox)| :: Accepted(Forwarded(inbox)[k].action, Forwarded(inbox)[k].payload)
  {
    if inbox != [] {
      ForwardedIsAccepted(inbox[..|inbox| - 1]);
      GateMatchesActor(inbox[|inbox| - 1].msg);
    }
  }

  /** A session that logs in tells its user so exactly once. */
  lemma {:induction false} ToldOnce(inbox: seq<Input>, replies: seq<Outcome>)
    requires |replies| == |Forwarded(inbox)|
    ensures LoggedInCount(Feedback(inbox, replies)) == if LoginAfter(inbox).Some? then 1 else 0
  {
    if inbox != [] {
      var before := inbox[..|inbox| - 1];
      var forwarded := LoginAfter(before).Some? && Parse(inbox[|inbox| - 1].msg).Some?;
      var earlier := if forwarded then replies[..|replies| - 1] else replies;
      ToldOnce(before, earlier);
      var all, some := Feedback(inbox, replies), Feedback(before, earlier);
      if |all| > |some| { assert all[..|all| - 1] == some; } else { assert all == some; }
    }
  }

  // ---- What one more message makes of a session ----

  lemma OneMore(inbox: seq<Input>, k: nat)
    requires k < |inbox|
    ensures inbox[..k] + [inbox[k]] == inbox[..k + 1]
  {
  }

  lemma OneMoreRequest<H>(r: Relation<H>, user: H, seen: seq<Input>, input: Input, replies: seq<Outcome>,
      reply: Option<Outcome>)
    requires LoginAfter(seen).Some? && replies == Replies(r, user, seen) && (reply.Some? <==> Parse(input.msg).Some?)
    requires reply.Some? ==>
               var work := Dispatch(input.msg.action, Parse(input.msg).value);
               Handled(work) && reply.value == Answer(Reached(r, user, seen), user, work, input.accepts)
    ensures var more, replies' := seen + [input], if reply.Some? then replies + [reply.value] else replies;
      && LoginAfter(more) == LoginAfter(seen)
      && replies' == Replies(r, user, more) && |replies'| == |Forwarded(more)|
      && Reached(r, user, more)
           == (if reply.None? then Reached(r, user, seen)
               else Effect(Reached(r, user, seen), user, Dispatch(input.msg.action, Parse(input.msg).value)))
      && Feedback(more, replies')
           == Feedback(seen, replies)
              + (if reply.None? then [SocketError(InvalidRequest)]
                 else if reply.value.Err? then [SocketError(StoreError(reply.value.error))] else [])
  {
    assert (seen + [input])[..|seen|] == seen;
  }

  lemma OneMoreStranger(seen: seq<Input>, input: Input)
    requires LoginAfter(seen).None? && Forwarded(seen) == []
    ensures var more := seen + [input];
      && LoginAfter(more) == (if LogsIn(input) then Some(input.msg.asLogin.value.nick) else None)
      && Forwarded(more) == []
      && Feedback(more, []) == Feedback(seen, [])
           + [if LogsIn(input) then LoggedIn(input.msg.asLogin.value.nick) else SocketError(Refusal(input.msg))]
  {
    assert (seen + [input])[..|seen|] == seen;
  }

  lemma FirstLogin<H>(r: Relation<H>, user: H, seen: seq<Input>, input: Input)
    requires LoginAfter(seen).None?
    ensures Reached(r, user, seen + [input]) == r && Replies(r, user, seen + [input]) == []
  {
    assert (seen + [input])[..|seen|] == seen;
    NothingBeforeLogin(r, user, seen);
  }

  lemma {:induction false} NoEmptyChannel<H>(r: Relation<H>, user: H, inbox: seq<Input>)
    requires "" !in r
    ensures "" !in Reached(r, user, inbox)
  {
    if inbox != [] { NoEmptyChannel(r, user, inbox[..|inbox| - 1]); }
  }

  /** What one more message does to a session that nobody is logged in on. */
  lemma StrangerMeaning<H>(r: Relation<H>, user: H, seen: seq<Input>, input: Input)
    requires LoginAfter(seen).None?
    ensures var more, msg := seen + [input], input.msg;
      && Reached(r, user, more) == r && Replies(r, user, more) == [] == Replies(r, user, seen)
      && Feedback(more, []) == Feedback(seen, [])
           + [if msg.action == "login" && msg.asLogin.Some? && input.valid then LoggedIn(msg.asLogin.value.nick)
              else SocketError(if msg.action != "login" then LoginFirst
                               else if msg.asLogin.None? then InvalidRequest else InvalidCredentials)]
  {
    FirstLogin(r, user, seen, input);
    NothingBeforeLogin(r, user, seen);
    ForwardedIsAccepted(seen);
    OneMoreStranger(seen, input);
  }

  /** ... and to one that somebody is: what parses is answered, and the answer told if it is an error. */
  lemma LoggedInMeaning<H>(r: Relation<H>, user: H, seen: seq<Input>, input: Input)
    requires "" !in r && LoginAfter(seen).Some?
    ensures var more, msg := seen + [input], input.msg;
      var before, after := Reached(r, user, seen), Reached(r, user, more);
      var replies, replies' := Replies(r, user, seen), Replies(r, user, more);
      if (msg.action in {"create", "join", "leave"} && msg.asChannel.Some?)
         || (msg.action == "send_message" && msg.asSend.Some?) then
        var payload := if msg.action == "send_message"
                       then SendMessageRequest(msg.asSend.value.0, msg.asSend.value.1)
                       else ChannelRequest(msg.asChannel.value);
        && |replies'| == |replies| + 1 && replies' == replies + [replies'[|replies|]]
        && Fulfils(before, after, user, msg.action, payload, input.accepts, replies'[|replies|])
        && Feedback(more, replies') == Feedback(seen, replies)
             + (if replies'[|replies|].Err? then [SocketError(StoreError(replies'[|replies|].error))] else [])
      else
        && after == before && replies' == replies
        && Feedback(more, replies') == Feedback(seen, replies) + [SocketError(InvalidRequest)]
  {
    var before, replies := Reached(r, user, seen), Replies(r, user, seen);
    NoEmptyChannel(r, user, seen);
    GateMatchesActor(input.msg);
    if Parse(input.msg).Some? {
      var payload := Parse(input.msg).value;
      WorkFulfils(before, user, input.msg.action, payload, input.accepts);
      var outcome := Answer(before, user, Dispatch(input.msg.action, payload), input.accepts);
      OneMoreRequest(r, user, seen, input, replies, Some(outcome));
    } else {
      OneMoreRequest(r, user, seen, input, replies, None);
    }
  }

  function LoggedInCount(msgs: seq<Message>): nat {
    if msgs == [] then 0 else LoggedInCount(msgs[..|msgs| - 1]) + (if msgs[|msgs| - 1].LoggedIn? then 1 else 0)
  }

  /** `h` has answered a request, on the channels `was`: what it answered, and which goroutines it left. */
  ghost predicate Replied(was: Relation<UserHandler>, view: Relation<UserHandler>, channels: map<string, Channel>,
                          h: UserHandler, payload: Payload, input: Input, outcome: Outcome, spawned: seq<Goroutine>)
  {
    var action := input.msg.action;
    && Answerable(action, payload) && Accepted(action, payload)
    && Fulfils(was, view, h, action, payload, input.accepts, outcome)
    && outcome == Answer(was, h, Dispatch(action, payload), input.accepts)
    && view == Effect(was, h, Dispatch(action, payload))
    && (outcome != Ok ==> spawned == [])
    && (outcome == Ok ==> Notifies(spawned, view, channels, h, action, payload, input.now))
  }

  // ---- The service ----

  class MessagingAPI {
    const users: ConnectedUsersPool

    constructor (users: ConnectedUsersPool)
      ensures this.users == users
    {
      this.users := users;
    }

    ghost predicate Valid()
      reads users, users.owned, users.channelStore
    {
      users.Valid() && users.channelStore.Valid()
    }

    /** Writing to a socket touches nothing else. */
    method Tell(conn: SockChatWS, msg: Message)
      requires Valid()
      modifies conn`written
      ensures Valid() && users.channelStore.View() == old(users.channelStore.View())
      ensures conn.written == old(conn.written) + [msg]
    {
      conn.WriteSocketMsg(msg);
    }

    /** authorizeConnection; None stands for the error it returns. */
    method AuthorizeConnection(input: Input, conn: SockChatWS) returns (nick: Option<string>, error: Reason)
      requires Valid() && !conn.authorized
      requires forall n | n in users.live :: conn !in users.live[n]
      modifies users, users.owned, conn
      ensures Valid() && fresh(users.owned - old(users.owned))
      ensures users.channelStore.View() == old(users.channelStore.View())
      ensures nick.Some? <==> input.msg.action == "login" && input.msg.asLogin.Some? && input.valid
      ensures nick.Some? ==> nick.value == input.msg.asLogin.value.nick
      ensures conn.authorized <==> nick.Some?
      ensures input.msg.action != "login" ==> error == LoginFirst
      ensures input.msg.action == "login" && input.msg.asLogin.None? ==> error == InvalidRequest
      ensures input.msg.action == "login" && input.msg.asLogin.Some? && !input.valid ==> error == InvalidCredentials
      ensures nick.None? ==> users.live == old(users.live) && conn.written == old(conn.written)
      ensures nick.Some? ==>
                && users.live == Attached(old(users.live), conn, nick.value)
                && users.NickOf(conn) == nick.value && nick.value in users.handlers
                && conn.written == old(conn.written) + [LoggedIn(nick.value)]
    {
      if input.msg.action != LOGIN { return None, LoginFirst; }
      if input.msg.asLogin.None? { return None, InvalidRequest; }
      if !input.valid { return None, InvalidCredentials; }
      LogIn(conn, input.msg.asLogin.value.nick);
      return Some(input.msg.asLogin.value.nick), InvalidCredentials;
    }

    /** The part of authorizeConnection for credentials that are good. */
    method LogIn(conn: SockChatWS, nick: string)
      requires Valid() && forall n | n in users.live :: conn !in users.live[n]
      modifies users, users.owned, conn
      ensures Valid() && fresh(users.owned - old(users.owned))
      ensures conn.authorized && users.live == Attached(old(users.live), conn, nick)
      ensures users.NickOf(conn) == nick && nick in users.handlers
      ensures conn.written == old(conn.written) + [LoggedIn(nick)]
    {
      conn.authorized := true;
      users.AddConnection(conn, nick);
      conn.WriteSocketMsg(LoggedIn(nick));
    }

    /** serveAuthorizedConnection: the request in hand is answered before the next message is read. */
    method ServeAuthorizedConnection(conn: SockChatWS, nick: string, input: Input)
      returns (found: bool, reply: Option<Outcome>, spawned: seq<Goroutine>)
      requires Valid() && conn in Of(users.live, nick)
      modifies users.channelStore, users.channelStore.owned, conn`written
      ensures Valid() && nick in users.handlers
      ensures fresh(users.channelStore.owned - old(users.channelStore.owned))
      ensures found && (reply.Some? <==> Parse(input.msg).Some?)
      ensures reply.Some? <==>
                || (input.msg.action in {"create", "join", "leave"} && input.msg.asChannel.Some?)
                || (input.msg.action == "send_message" && input.msg.asSend.Some?)
      ensures reply.None? ==> users.channelStore.View() == old(users.channelStore.View()) && spawned == []
      ensures reply.Some? ==>
                && Parse(input.msg).value
                     == (if input.msg.action == "send_message"
                         then SendMessageRequest(input.msg.asSend.value.0, input.msg.asSend.value.1)
                         else ChannelRequest(input.msg.asChannel.value))
                && Replied(old(users.channelStore.View()), users.channelStore.View(), users.channelStore.channels,
                           users.handlers[nick], Parse(input.msg).value, input, reply.value, spawned)
      ensures conn.written == old(conn.written)
                + (if reply.None? then [SocketError(InvalidRequest)]
                   else if reply.value.Err? then [SocketError(StoreError(reply.value.error))] else [])
    {
      found, reply, spawned := true, None, [];
      GateMatchesActor(input.msg);
      var req := Parse(input.msg);
      if req.None? {
        Tell(conn, SocketError(InvalidRequest));
        return;
      }
      var answer;
      found, answer, spawned := Forward(nick, req.value, input);
      if !found { return; }
      reply := Some(answer);
      TellError(conn, answer);
    }

    /** An answer that is an error is written to the socket. */
    method TellError(conn: SockChatWS, answer: Outcome)
      requires Valid()
      modifies conn`written
      ensures Valid() && users.channelStore.View() == old(users.channelStore.View())
      ensures conn.written == old(conn.written) + (if answer.Err? then [SocketError(StoreError(answer.error))] else [])
    {
      if answer.Err? {
        Tell(conn, SocketError(StoreError(answer.error)));
      }
    }

    /** The part of serveAuthorizedConnection that talks to the handler. */
    method Forward(nick: string, payload: Payload, input: Input)
      returns (found: bool, answer: Outcome, spawned: seq<Goroutine>)
      requires Valid() && nick in users.handlers && nick in users.live && Parse(input.msg) == Some(payload)
      modifies users.channelStore, users.channelStore.owned
      ensures Valid() && found
      ensures fresh(users.channelStore.owned - old(users.channelStore.owned))
      ensures Replied(old(users.channelStore.View()), users.channelStore.View(), users.channelStore.channels,
                      users.handlers[nick], payload, input, answer, spawned)
    {
      GateMatchesActor(input.msg);
      DispatchMeaning(input.msg.action, payload);
      var handler := users.GetHandler(nick);
      if handler.None? { return false, Ok, []; }
      found := true;
      answer, spawned := handler.value.MakeRequest(input.msg.action, payload, input.accepts, input.now);
    }

    /** Where a session is after it has read `seen`, given what it met: the pool, the channels and its socket. */
    ghost predicate Served(conn: SockChatWS, seen: seq<Input>, nick: string, replies: seq<Outcome>,
                           was: Live, channels: Relation<UserHandler>, base: seq<Message>)
      reads users, users.owned, users.channelStore, users.channelStore.owned, conn
    {
      && Valid()
      && (conn.authorized <==> LoginAfter(seen).Some?)
      && (conn.authorized ==>
            && LoginAfter(seen).value == nick == users.NickOf(conn) && users.live == Attached(was, conn, nick)
            && nick in users.handlers
            && replies == Replies(channels, users.handlers[nick], seen)
            && users.channelStore.View() == Reached(channels, users.handlers[nick], seen))
      && (!conn.authorized ==> users.live == was && replies == [] && users.channelStore.View() == channels)
      && |replies| == |Forwarded(seen)|
      && conn.written == base + Feedback(seen, replies)
    }

    /** One turn of the loop of ServeSession once logged in. */
    method ServeRequest(conn: SockChatWS, input: Input, nick: string, replies: seq<Outcome>, ghost seen: seq<Input>,
                        ghost was: Live, ghost channels: Relation<UserHandler>, ghost base: seq<Message>)
      returns (go: bool, replies': seq<Outcome>)
      requires Served(conn, seen, nick, replies, was, channels, base) && conn.authorized
      modifies users.channelStore, users.channelStore.owned, conn`written
      ensures go && Served(conn, seen + [input], nick, replies', was, channels, base)
      ensures fresh(users.channelStore.owned - old(users.channelStore.owned))
    {
      ghost var user := users.handlers[nick];
      go, replies' := true, replies;
      var found, reply, spawned := ServeAuthorizedConnection(conn, nick, input);
      if !found { return false, replies; }
      if reply.Some? { replies' := replies + [reply.value]; }
      OneMoreRequest(channels, user, seen, input, replies, reply);
    }

    /** One turn of the loop of ServeSession before that. */
    method ServeStranger(conn: SockChatWS, input: Input, ghost seen: seq<Input>,
                         ghost was: Live, ghost channels: Relation<UserHandler>, ghost base: seq<Message>)
      returns (nick: string)
      requires Served(conn, seen, "", [], was, channels, base) && !conn.authorized
      requires forall n | n in was :: conn !in was[n]
      modifies users, users.owned, conn
      ensures Served(conn, seen + [input], nick, [], was, channels, base)
      ensures fresh(users.owned - old(users.owned))
      ensures !conn.authorized ==> nick == ""
      ensures unchanged(users.channelStore)
    {
      OneMoreStranger(seen, input);
      var login, error := AuthorizeConnection(input, conn);
      assert users.channelStore.View() == channels;
      if login.None? {
        Tell(conn, SocketError(error));
        nick := "";
      } else {
        nick := login.value;
        FirstLogin(channels, users.handlers[nick], seen, input);
      }
    }

    /**
     shutConnection: whoever was let in is taken out of the pool again, and the pool is as it was before. If nobody else
     is there under that nick, the handler's removal from every channel is spawned.
     */
    method ShutConnection(conn: SockChatWS, nick: string, ghost was: Live) returns (spawned: seq<Goroutine>)
      requires Valid() && forall n | n in was :: was[n] != {} && conn !in was[n]
      requires conn.authorized ==>
                 nick in users.handlers && users.NickOf(conn) == nick && users.live == Attached(was, conn, nick)
      requires !conn.authorized ==> users.live == was
      modifies users, users.owned
      ensures Valid() && users.live == was && users.channelStore.View() == old(users.channelStore.View())
      ensures !conn.authorized || nick in was ==> spawned == []
      ensures conn.authorized && nick !in was ==>
                Enumerates(spawned, RemovalsFrom(users.channelStore.channels.Keys, old(users.handlers[nick])))
    {
      spawned := [];
      if conn.authorized {
        DetachUndoesAttach(was, conn, nick);
        spawned := users.RemoveConnection(conn);
      }
    }

    /** The loop of ServeSession, on everything that is read before the read that fails. */
    method ServeAll(conn: SockChatWS, inbox: seq<Input>)
      returns (served: nat, nick: string, replies: seq<Outcome>)
      requires Valid() && !conn.authorized
      requires forall n | n in users.live :: conn !in users.live[n]
      modifies users, users.owned, users.channelStore, users.channelStore.owned, conn
      ensures served == |inbox|
      ensures Served(conn, inbox, nick, replies, old(users.live), old(users.channelStore.View()), old(conn.written))
      ensures fresh(users.owned - old(users.owned))
    {
      ghost var was, channels, base := users.live, users.channelStore.View(), conn.written;
      nick, replies, served := "", [], 0;
      while served < |inbox|
        invariant served <= |inbox|
        invariant Served(conn, inbox[..served], nick, replies, was, channels, base)
        invariant !conn.authorized ==> nick == "" && replies == []
        invariant fresh(users.owned - old(users.owned))
        invariant fresh(users.channelStore.owned - old(users.channelStore.owned))
      {
        OneMore(inbox, served);
        if conn.authorized {
          var go;
          go, replies := ServeRequest(conn, inbox[served], nick, replies, inbox[..served], was, channels, base);
          if !go { break; }
        } else {
          nick := ServeStranger(conn, inbox[served], inbox[..served], was, channels, base);
        }
        served := served + 1;
      }
      assert inbox[..served] == inbox;
    }

    /**
     ServeSession with no other session in between. It is never cut short by a missing handler, its requests get the
     answers and have the effects that the atomic store gives them one after the other, and in the end the pool is as
     it was before.
     */
    method ServeSession(conn: SockChatWS, inbox: seq<Input>)
      returns (served: nat, replies: seq<Outcome>, removals: seq<Goroutine>, ghost handler: Option<UserHandler>)
      requires Valid() && !conn.authorized
      requires forall n | n in users.live :: conn !in users.live[n]
      modifies users, users.owned, users.channelStore, users.channelStore.owned, conn
      ensures Valid() && users.live == old(users.live)
      ensures served == |inbox|
      ensures conn.authorized <==>
                exists k :: 0 <= k < |inbox| && inbox[k].msg.action == "login" && inbox[k].msg.asLogin.Some?
                  && inbox[k].valid
      ensures conn.authorized <==> handler.Some?
      ensures forall k: nat | IsFirstLogin(inbox, k) ::
                handler.Some? && handler.value.nick == inbox[k].msg.asLogin.value.nick
      ensures conn.authorized <==> LoginAfter(inbox).Some?
      ensures LoginAfter(inbox).None? ==>
                replies == [] && removals == [] && users.channelStore.View() == old(users.channelStore.View())
      ensures LoginAfter(inbox).Some? ==>
                && handler.Some? && handler.value.nick == LoginAfter(inbox).value
                && replies == Replies(old(users.channelStore.View()), handler.value, inbox)
                && users.channelStore.View() == Reached(old(users.channelStore.View()), handler.value, inbox)
                && (handler.value.nick in users.live ==> removals == [])
                && (handler.value.nick !in users.live ==>
                      Enumerates(removals, RemovalsFrom(users.channelStore.channels.Keys, handler.value)))
      ensures |replies| == |Forwarded(inbox)| && conn.written == old(conn.written) + Feedback(inbox, replies)
    {
      LoginMeaning(inbox);
      ghost var was := users.live;
      assert forall n | n in was :: was[n] != {};
      var nick;
      served, nick, replies := ServeAll(conn, inbox);
      handler := WhoServed(conn, inbox, nick, replies, was, old(users.channelStore.View()), old(conn.written));
      removals := ShutConnection(conn, nick, was);
    }

    /** What a session that has read all leaves is what the fold over its messages says, for the handler it had. */
    ghost method WhoServed(conn: SockChatWS, inbox: seq<Input>, nick: string, replies: seq<Outcome>,
                           was: Live, channels: Relation<UserHandler>, base: seq<Message>)
      returns (handler: Option<UserHandler>)
      requires Served(conn, inbox, nick, replies, was, channels, base)
      ensures conn.authorized ==>
                && nick in users.handlers && handler == Some(users.handlers[nick]) && handler.value.nick == nick
                && replies == Replies(channels, handler.value, inbox)
                && users.channelStore.View() == Reached(channels, handler.value, inbox)
      ensures !conn.authorized ==> replies == [] && users.channelStore.View() == channels && handler == None
    {
      if conn.authorized {
        assert users.Stands(nick);
        handler := Some(users.handlers[nick]);
      } else {
        handler := None;
      }
    }
  }
}
