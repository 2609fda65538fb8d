/**
 The live chat: sessions, the pool of connected users, one actor per handler and the channel store, as one
 state machine. A step is one critical section, one rendezvous or one spawned goroutine's turn.
 AddConnection and RemoveConnection of the pool are one step each.
 */
module ChatSystem {
  import opened Collections
  import opened StoreSpec
  import opened Protocol
  import Store = StoreMachine

  /** What a session does next. Connections and sessions are one to one and share their number. */
  datatype Session =
    | Reading(login: Option<string>)
    | Calling(nick: string, action: string, payload: Payload)   // parsed, about to call GetHandler
    | Sending(nick: string, h: nat, r: nat)                      // MakeRequest: about to send on h.requests
    | Awaiting(nick: string, h: nat, r: nat)                     // MakeRequest: about to receive the answer
    | Closing(login: Option<string>)                             // left the loop, about to run shutConnection
    | Closed(login: Option<string>)

  /** What a handler's request loop does next. `r` is the request in hand, `t` a store call in flight. */
  datatype Actor =
    | Idle
    | Making(r: nat, name: string, t: nat)
    | Joining(r: nat, name: string, t: nat)
    | Leaving(r: nat, name: string, t: nat)
    | Checking(r: nat, name: string, text: string, t: nat)
    | Finding(r: nat, name: string, text: string)
    | Indexing(r: nat, name: string, ref: nat, text: string)
    | Replying(r: nat, outcome: Outcome)
    | Crashed

  datatype Handler = Handler(nick: string, conns: set<nat>, actor: Actor)

  /** A request and its private callback channel. `call` and `reply` are auxiliary. */
  datatype Request = Request(
    owner: nat, h: nat, action: string, payload: Payload,
    call: Option<nat>,    // the first store call made for it
    reply: Option<nat>)   // the position of its Replied event

  datatype Note =
    | UserJoined(channel: string, nick: string)
    | UserLeft(channel: string, nick: string)
    | YouLeft(channel: string, nick: string)
    | NewMessage(m: nat)   // the position of its Indexed event

  /** Goroutines that deliver. Finished ones stay in the table. */
  datatype Task =
    | Deliver(m: nat, ref: nat)               // go channel.MessageMembers
    | Delivered(m: nat, told: set<nat>)
    | Write(h: nat, note: Note)               // go user.Write
    | WriteSocket(conn: nat, note: Note)      // the goroutines inside Write
    | Finished

  datatype Event =
    | Attached(conn: nat, nick: string)
    | Detached(conn: nat)
    | HandlerMissing(conn: nat)
    | DropFailed(conn: nat)
    | Replied(r: nat, to: nat, outcome: Outcome)
    | Indexed(r: nat, h: nat, ref: nat, text: string, members: set<nat>, task: nat)

  datatype State = State(
    store: Store.State,
    hs: seq<Handler>,
    handlers: map<string, nat>,
    connNick: map<nat, string>,
    sessions: seq<Session>,
    requests: seq<Request>,
    tasks: seq<Task>,
    log: seq<Event>)

  const INIT := State(Store.INIT, [], map[], map[], [], [], [], [])

  // ---- Helpers on the state ----

  function SetSession(s: State, c: nat, session: Session): State
    requires c < |s.sessions|
  {
    s.(sessions := s.sessions[c := session])
  }

  function SetActor(s: State, h: nat, actor: Actor): State
    requires h < |s.hs|
  {
    s.(hs := s.hs[h := s.hs[h].(actor := actor)])
  }

  function SetConns(s: State, h: nat, conns: set<nat>): State
    requires h < |s.hs|
  {
    s.(hs := s.hs[h := s.hs[h].(conns := conns)])
  }

  function Log(s: State, e: Event): State {
    s.(log := s.log + [e])
  }

  /** One `go user.Write(note)` for each user in the order of iteration. */
  function Writes(order: seq<nat>, note: Note): seq<Task> {
    seq(|order|, i requires 0 <= i < |order| => Write(order[i], note))
  }

  function Spawn(s: State, tasks: seq<Task>): State {
    s.(tasks := s.tasks + tasks)
  }

  // ---- The pool ----

  /** AddConnection: a first connection makes a new handler, whose loop starts idle. */
  function Attach(s: State, c: nat, nick: string): State {
    var s1 := Log(s.(connNick := s.connNick[c := nick]), Attached(c, nick));
    if nick in s.handlers then
      var h := s.handlers[nick];
      if h < |s.hs| then SetConns(s1, h, s.hs[h].conns + {c}) else s1
    else
      s1.(hs := s.hs + [Handler(nick, {c}, Idle)], handlers := s.handlers[nick := |s.hs|])
  }

  function NickOf(s: State, c: nat): string {
    if c in s.connNick then s.connNick[c] else ""
  }

  /** The handler RemoveConnection finds for this connection. */
  predicate HandlerFor(s: State, c: nat) {
    NickOf(s, c) in s.handlers && s.handlers[NickOf(s, c)] < |s.hs|
  }

  predicate LastConnection(s: State, c: nat) {
    HandlerFor(s, c) && |s.hs[s.handlers[NickOf(s, c)]].conns| <= 1
  }

  /** DisconnectUser: one removal goroutine for each channel there is now, in the order of iteration. */
  function Evictions(store: Store.State, order: seq<string>, h: nat): Store.State {
    if order == [] then store
    else Store.Start(Evictions(store, order[..|order| - 1], h), Op(Evict, order[|order| - 1], h))
  }

  /** RemoveConnection: the last connection takes the handler out of the pool and out of every channel. */
  function Detach(s: State, c: nat, order: seq<string>): State {
    var nick := NickOf(s, c);
    if !HandlerFor(s, c) then Log(s, DropFailed(c))
    else
      var h := s.handlers[nick];
      if !LastConnection(s, c) then SetConns(s, h, s.hs[h].conns - {c})
      else
        s.(handlers := s.handlers - {nick}, connNick := s.connNick - {c}, store := Evictions(s.store, order, h))
  }

  // ---- Sessions ----

  function Receive(s: State, c: nat, msg: SocketMessage, valid: bool): State
    requires c < |s.sessions| && s.sessions[c].Reading?
  {
    var login := s.sessions[c].login;
    if login.Some? then
      if Parse(msg).None? then s
      else SetSession(s, c, Calling(login.value, msg.action, Parse(msg).value))
    else if msg.action == LOGIN && msg.asLogin.Some? && valid then
      Attach(SetSession(s, c, Reading(Some(msg.asLogin.value.nick))), c, msg.asLogin.value.nick)
    else s
  }

  function FindHandler(s: State, c: nat): State
    requires c < |s.sessions| && s.sessions[c].Calling?
  {
    var Calling(nick, action, payload) := s.sessions[c];
    if nick in s.handlers then
      SetSession(s.(requests := s.requests + [Request(c, s.handlers[nick], action, payload, None, None)]),
                 c, Sending(nick, s.handlers[nick], |s.requests|))
    else Log(SetSession(s, c, Closing(Some(nick))), HandlerMissing(c))
  }

  function Shut(s: State, c: nat, order: seq<string>): State
    requires c < |s.sessions| && s.sessions[c].Closing?
  {
    var login := s.sessions[c].login;
    var s1 := SetSession(s, c, Closed(login));
    if login.None? then s1 else Log(Detach(s1, c, order), Detached(c))
  }

  // ---- Actors ----

  function Call(s: State, h: nat, op: Op<nat>, actor: Actor): State
    requires h < |s.hs|
  {
    SetActor(s, h, actor).(store := Store.Start(s.store, op))
  }

  /** The actor takes request `r` off its channel and enters the branch for its action. */
  function Take(s: State, h: nat, r: nat): State
    requires h < |s.hs| && r < |s.requests|
  {
    var t := |s.store.calls|;
    var s1 := s.(requests := s.requests[r := s.requests[r].(call := Some(t))]);
    match Dispatch(s.requests[r].action, s.requests[r].payload)
    case DoCreate(name) => Call(s1, h, Op(Create, name, h), Making(r, name, t))
    case DoJoin(name) => Call(s1, h, Op(Join, name, h), Joining(r, name, t))
    case DoLeave(name) => Call(s1, h, Op(Leave, name, h), Leaving(r, name, t))
    case DoSend(name, text) => Call(s1, h, Op(Present, name, h), Checking(r, name, text, t))
    case Unhandled => s
    case Panic => SetActor(s, h, Crashed)
  }

  /** The unbuffered send on h.requests meets the actor's receive. */
  function Rendezvous(s: State, c: nat): State
    requires c < |s.sessions| && s.sessions[c].Sending?
    requires s.sessions[c].h < |s.hs| && s.sessions[c].r < |s.requests|
  {
    var Sending(nick, h, r) := s.sessions[c];
    Take(SetSession(s, c, Awaiting(nick, h, r)), h, r)
  }

  function CallOf(actor: Actor): Option<nat> {
    match actor
    case Making(_, _, t) => Some(t)
    case Joining(_, _, t) => Some(t)
    case Leaving(_, _, t) => Some(t)
    case Checking(_, _, _, t) => Some(t)
    case _ => None
  }

  function RequestOf(actor: Actor): Option<nat> {
    match actor
    case Idle => None
    case Crashed => None
    case _ => Some(actor.r)
  }

  predicate Returned(store: Store.State, t: nat) {
    t < |store.calls| && store.calls[t].pc.Done? && store.calls[t].pc.at < |store.history|
    && store.history[store.calls[t].pc.at].Returned?
  }

  /** The answer of a store call that has returned, and the users its broadcast was written to, if it made one. */
  function Answer(store: Store.State, t: nat): Outcome
    requires Returned(store, t)
  {
    store.history[store.calls[t].pc.at].outcome
  }

  function Told(store: Store.State, t: nat): Option<set<nat>>
    requires Returned(store, t)
  {
    store.history[store.calls[t].pc.at].told
  }

  /** The broadcast a step made: `order` is the iteration over the members it found. */
  ghost predicate Broadcasts(store: Store.State, t: nat, order: seq<nat>) {
    if Returned(store, t) && Told(store, t).Some? then Enumerates(order, Told(store, t).value) else order == []
  }

  /** The actor's store call has returned: on to the next statement of the branch. */
  function Resume(s: State, h: nat, order: seq<nat>): State
    requires h < |s.hs| && CallOf(s.hs[h].actor).Some? && Returned(s.store, CallOf(s.hs[h].actor).value)
  {
    var actor, nick := s.hs[h].actor, s.hs[h].nick;
    var answer := Answer(s.store, actor.t);
    match actor
    case Making(r, name, _) =>
      if answer != Ok then SetActor(s, h, Replying(r, answer))
      else Call(s, h, Op(Join, name, h), Joining(r, name, |s.store.calls|))
    case Joining(r, name, _) =>
      SetActor(Spawn(s, Writes(order, UserJoined(name, nick))), h, Replying(r, answer))
    case Leaving(r, name, _) =>
      SetActor(Spawn(s, Writes(order, UserLeft(name, nick))
                        + (if answer == Ok then [Write(h, YouLeft(name, nick))] else [])),
               h, Replying(r, answer))
    case Checking(r, name, text, _) =>
      SetActor(s, h, if answer != Ok then Replying(r, Err(UserNotInChannel)) else Finding(r, name, text))
  }

  ghost function ActorStep(s: State, h: nat, order: seq<nat>): State
    requires h < |s.hs| && CallOf(s.hs[h].actor).Some? && Store.Running(s.store, CallOf(s.hs[h].actor).value)
  {
    var t := CallOf(s.hs[h].actor).value;
    var s1 := s.(store := Store.Advance(s.store, t));
    if Returned(s1.store, t) then Resume(s1, h, order) else s1
  }

  /** MessageChannel: getChannel ... */
  function Find(s: State, h: nat): State
    requires h < |s.hs| && s.hs[h].actor.Finding?
  {
    var Finding(r, name, text) := s.hs[h].actor;
    SetActor(s, h,
      if name == "" then Replying(r, Err(EmptyChannelName))
      else if name !in s.store.names then Replying(r, Err(ChannelDoesNotExist))
      else Indexing(r, name, s.store.names[name], text))
  }

  /** ... then IndexMessage, and only if that succeeds the broadcast goroutine. */
  function Index(s: State, h: nat, success: bool): State
    requires h < |s.hs| && s.hs[h].actor.Indexing?
  {
    var Indexing(r, name, ref, text) := s.hs[h].actor;
    if !success then SetActor(s, h, Replying(r, Err(MessageNotSent)))
    else
      SetActor(Spawn(Log(s, Indexed(r, h, ref, text, Store.Members(s.store, ref), |s.tasks|)), [Deliver(|s.log|, ref)]),
               h, Replying(r, Ok))
  }

  /** The actor's send on the callback of request `r` meets the receive of the session waiting on it. */
  function Reply(s: State, h: nat, c: nat): State
    requires h < |s.hs| && s.hs[h].actor.Replying? && s.hs[h].actor.r < |s.requests|
    requires c < |s.sessions| && s.sessions[c].Awaiting?
  {
    var Replying(r, outcome) := s.hs[h].actor;
    var s1 := s.(requests := s.requests[r := s.requests[r].(reply := Some(|s.log|))]);
    Log(SetActor(SetSession(s1, c, Reading(Some(s.sessions[c].nick))), h, Idle), Replied(r, c, outcome))
  }

  // ---- Spawned goroutines ----

  ghost function EvictStep(s: State, t: nat, order: seq<nat>): State
    requires Store.Running(s.store, t)
  {
    var op := s.store.calls[t].op;
    Spawn(s.(store := Store.Advance(s.store, t)), Writes(order, UserLeft(op.name, NickOfHandler(s, op.user))))
  }

  function NickOfHandler(s: State, h: nat): string {
    if h < |s.hs| then s.hs[h].nick else ""
  }

  function ConnsOf(s: State, h: nat): set<nat> {
    if h < |s.hs| then s.hs[h].conns else {}
  }

  function SocketWrites(order: seq<nat>, note: Note): seq<Task> {
    seq(|order|, i requires 0 <= i < |order| => WriteSocket(order[i], note))
  }

  /** A delivery goroutine's turn: MessageMembers, Write or one socket write. */
  function TaskStep(s: State, k: nat, order: seq<nat>): State
    requires k < |s.tasks|
  {
    match s.tasks[k]
    case Deliver(m, ref) =>
      s.(tasks := s.tasks[k := Delivered(m, Store.Members(s.store, ref))] + Writes(order, NewMessage(m)))
    case Write(h, note) => s.(tasks := s.tasks[k := Finished] + SocketWrites(order, note))
    case WriteSocket(_, _) => s.(tasks := s.tasks[k := Finished])
    case _ => s
  }

  // ---- Steps and runs ----

  datatype Action =
    | DoConnect
    | DoReceive(c: nat, msg: SocketMessage, valid: bool)   // `valid`: what IsAuthValid answered
    | DoClose(c: nat)
    | DoFindHandler(c: nat)
    | DoRendezvous(c: nat)
    | DoActorStep(h: nat, order: seq<nat>)
    | DoFind(h: nat)
    | DoIndex(h: nat, success: bool)
    | DoReply(h: nat, c: nat)
    | DoShut(c: nat, names: seq<string>)
    | DoEvict(t: nat, order: seq<nat>)
    | DoTask(k: nat, order: seq<nat>)

  /** IsAuthValid never accepts an empty nick. */
  predicate Plausible(msg: SocketMessage, valid: bool) {
    valid && msg.asLogin.Some? ==> msg.asLogin.value.nick != ""
  }

  ghost predicate TaskOrder(s: State, k: nat, order: seq<nat>)
    requires k < |s.tasks|
  {
    match s.tasks[k]
    case Deliver(_, ref) => Enumerates(order, Store.Members(s.store, ref))
    case Write(h, _) => Enumerates(order, ConnsOf(s, h))
    case WriteSocket(_, _) => order == []
    case _ => false
  }

  // What each action asks of the state.

  predicate CanReceive(s: State, c: nat, msg: SocketMessage, valid: bool) {
    c < |s.sessions| && s.sessions[c].Reading? && Plausible(msg, valid)
  }

  predicate CanClose(s: State, c: nat) {
    c < |s.sessions| && s.sessions[c].Reading?
  }

  predicate CanFindHandler(s: State, c: nat) {
    c < |s.sessions| && s.sessions[c].Calling?
  }

  predicate CanRendezvous(s: State, c: nat) {
    && c < |s.sessions| && s.sessions[c].Sending?
    && s.sessions[c].h < |s.hs| && s.sessions[c].r < |s.requests| && s.hs[s.sessions[c].h].actor == Idle
  }

  ghost predicate CanActorStep(s: State, h: nat, order: seq<nat>) {
    && h < |s.hs| && CallOf(s.hs[h].actor).Some? && Store.Running(s.store, CallOf(s.hs[h].actor).value)
    && Broadcasts(Store.Advance(s.store, CallOf(s.hs[h].actor).value), CallOf(s.hs[h].actor).value, order)
  }

  predicate CanFind(s: State, h: nat) {
    h < |s.hs| && s.hs[h].actor.Finding?
  }

  predicate CanIndex(s: State, h: nat) {
    h < |s.hs| && s.hs[h].actor.Indexing?
  }

  predicate CanReply(s: State, h: nat, c: nat) {
    && h < |s.hs| && s.hs[h].actor.Replying? && s.hs[h].actor.r < |s.requests|
    && c < |s.sessions| && s.sessions[c].Awaiting? && s.sessions[c].r == s.hs[h].actor.r
  }

  ghost predicate CanShut(s: State, c: nat, names: seq<string>) {
    c < |s.sessions| && s.sessions[c].Closing? && Enumerates(names, s.store.names.Keys)
  }

  ghost predicate CanEvict(s: State, t: nat, order: seq<nat>) {
    && Store.Running(s.store, t) && s.store.calls[t].op.kind == Evict
    && Broadcasts(Store.Advance(s.store, t), t, order)
  }

  ghost predicate CanTask(s: State, k: nat, order: seq<nat>) {
    k < |s.tasks| && TaskOrder(s, k, order)
  }

  ghost predicate Enabled(s: State, a: Action) {
    match a
    case DoConnect => true
    case DoReceive(c, msg, valid) => CanReceive(s, c, msg, valid)
    case DoClose(c) => CanClose(s, c)
    case DoFindHandler(c) => CanFindHandler(s, c)
    case DoRendezvous(c) => CanRendezvous(s, c)
    case DoActorStep(h, order) => CanActorStep(s, h, order)
    case DoFind(h) => CanFind(s, h)
    case DoIndex(h, _) => CanIndex(s, h)
    case DoReply(h, c) => CanReply(s, h, c)
    case DoShut(c, names) => CanShut(s, c, names)
    case DoEvict(t, order) => CanEvict(s, t, order)
    case DoTask(k, order) => CanTask(s, k, order)
  }

  ghost function Apply(s: State, a: Action): State
    requires Enabled(s, a)
  {
    match a
    case DoConnect => s.(sessions := s.sessions + [Reading(None)])
    case DoReceive(c, msg, valid) => Receive(s, c, msg, valid)
    case DoClose(c) => SetSession(s, c, Closing(s.sessions[c].login))
    case DoFindHandler(c) => FindHandler(s, c)
    case DoRendezvous(c) => Rendezvous(s, c)
    case DoActorStep(h, order) => ActorStep(s, h, order)
    case DoFind(h) => Find(s, h)
    case DoIndex(h, success) => Index(s, h, success)
    case DoReply(h, c) => Reply(s, h, c)
    case DoShut(c, names) => Shut(s, c, names)
    case DoEvict(t, order) => EvictStep(s, t, order)
    case DoTask(k, order) => TaskStep(s, k, order)
  }

  ghost predicate Next(s: State, s': State) {
    exists a :: Enabled(s, a) && s' == Apply(s, a)
  }

  /** A run of the server from start-up, under any interleaving and any input. */
  ghost predicate Run(trace: seq<State>) {
    && |trace| > 0 && trace[0] == INIT
    && forall i | 0 <= i < |trace| - 1 :: Next(trace[i], trace[i + 1])
  }
}
