/** The requests of a websocket session: what the gate lets through and what the user's actor does with it. */
module Protocol {
  import opened Collections

  const LOGIN := "login"
  const CREATE := "create"
  const JOIN := "join"
  const LEAVE := "leave"
  const SEND_MESSAGE := "send_message"

  /** The dynamic type a payload has once decoded. */
  datatype Payload = ChannelRequest(name: string) | SendMessageRequest(channel: string, text: string)

  datatype Login = Login(nick: string, password: string)

  /** A message read from the socket; each field is the result of decoding its payload as that type. */
  datatype SocketMessage = SocketMessage(
    action: string,
    asLogin: Option<Login>,
    asChannel: Option<string>,
    asSend: Option<(string, string)>)

  /** parseWebsocketMessage; None stands for the error it returns. */
  function Parse(msg: SocketMessage): Option<Payload> {
    if msg.action == CREATE || msg.action == JOIN || msg.action == LEAVE then
      if msg.asChannel.Some? then Some(ChannelRequest(msg.asChannel.value)) else None
    else if msg.action == SEND_MESSAGE then
      if msg.asSend.Some? then Some(SendMessageRequest(msg.asSend.value.0, msg.asSend.value.1)) else None
    else None
  }

  /** What the actor does with a request: its switch on the action and the type assertion in each branch. */
  datatype Work =
    | DoCreate(name: string)
    | DoJoin(name: string)
    | DoLeave(name: string)
    | DoSend(name: string, text: string)
    | Unhandled   // no branch matches: the request is dropped and never answered
    | Panic       // the payload is not of the asserted type

  function Dispatch(action: string, payload: Payload): Work {
    if action == CREATE then if payload.ChannelRequest? then DoCreate(payload.name) else Panic
    else if action == JOIN then if payload.ChannelRequest? then DoJoin(payload.name) else Panic
    else if action == LEAVE then if payload.ChannelRequest? then DoLeave(payload.name) else Panic
    else if action == SEND_MESSAGE then
      if payload.SendMessageRequest? then DoSend(payload.channel, payload.text) else Panic
    else Unhandled
  }

  predicate Accepted(action: string, payload: Payload) {
    !Dispatch(action, payload).Unhandled? && !Dispatch(action, payload).Panic?
  }

  /** Which request gets which work, and which would be dropped or crash the actor. */
  lemma DispatchMeaning(action: string, payload: Payload)
    ensures action == "create" && payload.ChannelRequest? ==> Dispatch(action, payload) == DoCreate(payload.name)
    ensures action == "join" && payload.ChannelRequest? ==> Dispatch(action, payload) == DoJoin(payload.name)
    ensures action == "leave" && payload.ChannelRequest? ==> Dispatch(action, payload) == DoLeave(payload.name)
    ensures action == "send_message" && payload.SendMessageRequest? ==>
              Dispatch(action, payload) == DoSend(payload.channel, payload.text)
    ensures Dispatch(action, payload) == Unhandled <==> action !in {"create", "join", "leave", "send_message"}
    ensures Dispatch(action, payload) == Panic <==>
              || (action in {"create", "join", "leave"} && !payload.ChannelRequest?)
              || (action == "send_message" && !payload.SendMessageRequest?)
  {
    assert CREATE[0] == 'c' && JOIN[0] == 'j' && LEAVE[0] == 'l' && SEND_MESSAGE[0] == 's';
  }

  /** The gate forwards exactly the messages the actor can work on, with the payload that was decoded. */
  lemma GateMatchesActor(msg: SocketMessage)
    ensures Parse(msg).Some? ==> Accepted(msg.action, Parse(msg).value)
    ensures Parse(msg).Some? <==>
              || (msg.action in {"create", "join", "leave"} && msg.asChannel.Some?)
              || (msg.action == "send_message" && msg.asSend.Some?)
    ensures msg.action in {"create", "join", "leave"} && msg.asChannel.Some? ==>
              Parse(msg) == Some(ChannelRequest(msg.asChannel.value))
    ensures msg.action == "send_message" && msg.asSend.Some? ==>
              Parse(msg) == Some(SendMessageRequest(msg.asSend.value.0, msg.asSend.value.1))
  {
    assert CREATE[0] == 'c' && JOIN[0] == 'j' && LEAVE[0] == 'l' && SEND_MESSAGE[0] == 's';
  }
}
