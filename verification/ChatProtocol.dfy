/**
 The first half of the invariant of ChatSystem: the pool and the requests.

 The pool holds exactly the nicks with a live connection, each with exactly its live connections (`PoolOk`). A session
 that waits has a request of its own at the handler of its nick, an actor with a request owes its answer to the one
 session waiting for it, and every request is answered at most once (`RequestsOk`). A step that moves nobody's
 registration and no request is `Quiet`; all the others are taken one by one.
 */
module ChatProtocol {
  import opened Collections
  import opened StoreSpec
  import opened Protocol
  import opened ChatSystem
  import Store = StoreMachine

  /** The nick a session is registered under in the pool: from its login until it has been shut. */
  function LoginOf(session: Session): Option<string> {
    match session
    case Reading(login) => login
    case Calling(nick, _, _) => Some(nick)
    case Sending(nick, _, _) => Some(nick)
    case Awaiting(nick, _, _) => Some(nick)
    case Closing(login) => login
    case Closed(_) => None
  }

  /** The live connections of a nick. */
  function Live(s: State, nick: string): set<nat> {
    set c | 0 <= c < |s.sessions| && LoginOf(s.sessions[c]) == Some(nick)
  }

  /** The pool holds exactly the nicks with a live connection, each with exactly its live connections. */
  ghost predicate PoolOk(s: State) {
    && (forall n | n in s.handlers ::
          n != "" && s.handlers[n] < |s.hs| && s.hs[s.handlers[n]].nick == n
          && s.hs[s.handlers[n]].conns == Live(s, n) && Live(s, n) != {})
    && (forall c | 0 <= c < |s.sessions| && LoginOf(s.sessions[c]).Some? ::
          var n := LoginOf(s.sessions[c]).value; n in s.handlers && c in s.connNick && s.connNick[c] == n)
  }

  ghost predicate RequestOk(s: State, c: nat, nick: string, h: nat, r: nat) {
    && nick in s.handlers && s.handlers[nick] == h
    && r < |s.requests| && s.requests[r].owner == c && s.requests[r].h == h && s.requests[r].reply == None
    && Accepted(s.requests[r].action, s.requests[r].payload)
  }

  ghost predicate SessionOk(s: State, c: nat)
    requires c < |s.sessions|
  {
    match s.sessions[c]
    case Calling(_, action, payload) => Accepted(action, payload)
    case Sending(nick, h, r) => RequestOk(s, c, nick, h, r) && s.requests[r].call == None
    case Awaiting(nick, h, r) =>
      RequestOk(s, c, nick, h, r) && h < |s.hs| && RequestOf(s.hs[h].actor) == Some(r) && s.requests[r].call.Some?
    case _ => true
  }

  /** An actor that holds a request owes its answer to the one session waiting on that request's callback. */
  ghost predicate ActorOk(s: State, h: nat)
    requires h < |s.hs|
  {
    && s.hs[h].actor != Crashed
    && (RequestOf(s.hs[h].actor).Some? ==>
          var r := RequestOf(s.hs[h].actor).value;
          && r < |s.requests| && s.requests[r].owner < |s.sessions|
          && s.sessions[s.requests[r].owner] == Awaiting(s.hs[h].nick, h, r))
  }

  /** Every request is answered at most once, to its owner; one not answered is still being waited for. */
  ghost predicate AnswerOk(s: State, r: nat)
    requires r < |s.requests|
  {
    var q := s.requests[r];
    if q.reply.Some? then
      q.reply.value < |s.log| && s.log[q.reply.value].Replied? && s.log[q.reply.value].r == r && q.call.Some?
    else
      q.owner < |s.sessions| && LoginOf(s.sessions[q.owner]).Some?
      && (s.sessions[q.owner].Sending? || s.sessions[q.owner].Awaiting?) && s.sessions[q.owner].r == r
  }

  ghost predicate ReplyOk(s: State, j: nat)
    requires j < |s.log|
  {
    match s.log[j]
    case Replied(r, to, _) => r < |s.requests| && s.requests[r].reply == Some(j) && s.requests[r].owner == to
    case HandlerMissing(_) => false
    case DropFailed(_) => false
    case _ => true
  }

  ghost predicate RequestsOk(s: State) {
    && (forall c | 0 <= c < |s.sessions| :: SessionOk(s, c))
    && (forall h | 0 <= h < |s.hs| :: ActorOk(s, h))
    && (forall r | 0 <= r < |s.requests| :: AnswerOk(s, r))
    && (forall j | 0 <= j < |s.log| :: ReplyOk(s, j))
  }

  ghost predicate Inv(s: State) {
    PoolOk(s) && RequestsOk(s)
  }

  // ---- Frames ----

  predicate Waiting(session: Session) {
    session.Sending? || session.Awaiting?
  }

  ghost predicate LogGrows(s: State, s': State) {
    && |s.log| <= |s'.log| && (forall j | 0 <= j < |s.log| :: s'.log[j] == s.log[j])
    && (forall j | |s.log| <= j < |s'.log| :: s'.log[j].Indexed? || s'.log[j].Attached? || s'.log[j].Detached?)
  }

  /** No request moves: sessions that wait keep waiting on the same handler, and actors keep their request. */
  ghost predicate Calm(s: State, s': State) {
    && s'.requests == s.requests && LogGrows(s, s')
    && |s.hs| <= |s'.hs|
    && (forall h | 0 <= h < |s.hs| ::
          s'.hs[h].nick == s.hs[h].nick
          && RequestOf(s'.hs[h].actor) == RequestOf(s.hs[h].actor) && s'.hs[h].actor != Crashed)
    && (forall h | |s.hs| <= h < |s'.hs| :: s'.hs[h].actor == Idle)
    && |s.sessions| <= |s'.sessions|
    && (forall c | 0 <= c < |s'.sessions| ::
          if c < |s.sessions| && Waiting(s.sessions[c]) then
            var n := s.sessions[c].nick;
            s'.sessions[c] == s.sessions[c]
            && (n in s.handlers ==> n in s'.handlers && s'.handlers[n] == s.handlers[n])
          else
            !Waiting(s'.sessions[c])
            && (s'.sessions[c].Calling? ==> Accepted(s'.sessions[c].action, s'.sessions[c].payload)))
  }

  lemma CalmKeeps(s: State, s': State)
    requires RequestsOk(s) && Calm(s, s')
    ensures RequestsOk(s')
  {
    forall c | 0 <= c < |s'.sessions| ensures SessionOk(s', c) { if c < |s.sessions| { assert SessionOk(s, c); } }
    forall h | 0 <= h < |s'.hs| ensures ActorOk(s', h) { if h < |s.hs| { assert ActorOk(s, h); } }
    forall j | 0 <= j < |s'.log| ensures ReplyOk(s', j) { if j < |s.log| { assert ReplyOk(s, j); } }
    forall r | 0 <= r < |s'.requests| ensures AnswerOk(s', r) { assert AnswerOk(s, r); }
  }

  /** A step that only moves actors through the request in their hand. */
  ghost predicate Quiet(s: State, s': State) {
    && s'.sessions == s.sessions && s'.handlers == s.handlers && s'.connNick == s.connNick && s'.requests == s.requests
    && |s'.hs| == |s.hs| && LogGrows(s, s')
    && (forall h | 0 <= h < |s.hs| ::
          s'.hs[h].nick == s.hs[h].nick && s'.hs[h].conns == s.hs[h].conns
          && RequestOf(s'.hs[h].actor) == RequestOf(s.hs[h].actor) && s'.hs[h].actor != Crashed)
  }

  lemma QuietKeeps(s: State, s': State)
    requires Inv(s) && Quiet(s, s')
    ensures Inv(s')
  {
    ActorsFine(s);
    CalmKeeps(s, s');
  }

  // ---- Sessions and the pool ----

  /** Session `c` moves, keeping its login; nothing else changes. */
  lemma SessionMoves(s: State, c: nat, session: Session)
    requires Inv(s) && c < |s.sessions| && LoginOf(session) == LoginOf(s.sessions[c])
    requires !Waiting(s.sessions[c]) && !Waiting(session)
    requires session.Calling? ==> Accepted(session.action, session.payload)
    ensures Inv(SetSession(s, c, session))
  {
    var s' := SetSession(s, c, session);
    ActorsFine(s);
    CalmKeeps(s, s');
  }

  lemma ActorsFine(s: State)
    requires RequestsOk(s)
    ensures forall h | 0 <= h < |s.hs| :: s.hs[h].actor != Crashed
    ensures forall c | 0 <= c < |s.sessions| && s.sessions[c].Calling? ::
            Accepted(s.sessions[c].action, s.sessions[c].payload)
  {
    forall h | 0 <= h < |s.hs| ensures s.hs[h].actor != Crashed { assert ActorOk(s, h); }
    forall c | 0 <= c < |s.sessions| && s.sessions[c].Calling?
      ensures Accepted(s.sessions[c].action, s.sessions[c].payload)
    {
      assert SessionOk(s, c);
    }
  }

  lemma ConnectKeeps(s: State)
    requires Inv(s)
    ensures Inv(Apply(s, DoConnect))
  {
    var s' := Apply(s, DoConnect);
    ActorsFine(s);
    CalmKeeps(s, s');
  }

  lemma AttachPool(s: State, c: nat, nick: string)
    requires PoolOk(s) && c < |s.sessions| && s.sessions[c] == Reading(None) && nick != ""
    ensures PoolOk(Attach(SetSession(s, c, Reading(Some(nick))), c, nick))
  {
    var s' := Attach(SetSession(s, c, Reading(Some(nick))), c, nick);
    AttachLive(s, c, nick);
    forall n | n in s'.handlers
      ensures n != "" && s'.handlers[n] < |s'.hs| && s'.hs[s'.handlers[n]].nick == n
      ensures s'.hs[s'.handlers[n]].conns == Live(s', n) && Live(s', n) != {}
    {
      if n != nick { assert Live(s', n) == Live(s, n) && s'.hs[s.handlers[n]] == s.hs[s.handlers[n]]; }
    }
  }

  lemma AttachLive(s: State, c: nat, nick: string)
    requires PoolOk(s) && c < |s.sessions| && s.sessions[c] == Reading(None)
    ensures var s' := Attach(SetSession(s, c, Reading(Some(nick))), c, nick);
      && (forall n | n != nick :: Live(s', n) == Live(s, n))
      && Live(s', nick) == Live(s, nick) + {c}
      && (nick !in s.handlers ==> Live(s, nick) == {})
  {
    if nick !in s.handlers {
      forall d: nat ensures d in Live(s, nick) ==> nick in s.handlers { }
      assert Live(s, nick) == {};
    }
  }

  lemma AttachKeeps(s: State, c: nat, nick: string)
    requires Inv(s) && c < |s.sessions| && s.sessions[c] == Reading(None) && nick != ""
    ensures Inv(Attach(SetSession(s, c, Reading(Some(nick))), c, nick))
  {
    AttachPool(s, c, nick);
    AttachIsCalm(s, c, nick);
  }

  lemma AttachIsCalm(s: State, c: nat, nick: string)
    requires PoolOk(s) && RequestsOk(s) && c < |s.sessions| && s.sessions[c] == Reading(None) && nick != ""
    ensures RequestsOk(Attach(SetSession(s, c, Reading(Some(nick))), c, nick))
  {
    ActorsFine(s);
    CalmKeeps(s, Attach(SetSession(s, c, Reading(Some(nick))), c, nick));
  }

  lemma ReceiveKeeps(s: State, c: nat, msg: SocketMessage, valid: bool)
    requires Inv(s) && CanReceive(s, c, msg, valid)
    ensures Inv(Receive(s, c, msg, valid))
  {
    var login := s.sessions[c].login;
    if login.Some? && Parse(msg).Some? {
      GateMatchesActor(msg);
      SessionMoves(s, c, Calling(login.value, msg.action, Parse(msg).value));
    } else if login.None? && msg.action == LOGIN && msg.asLogin.Some? && valid {
      AttachKeeps(s, c, msg.asLogin.value.nick);
    }
  }

  lemma FindHandlerKeeps(s: State, c: nat)
    requires Inv(s) && CanFindHandler(s, c)
    ensures Inv(FindHandler(s, c))
  {
    var s' := FindHandler(s, c);
    assert SessionOk(s, c);
    assert s.sessions[c].nick in s.handlers;
    forall d | 0 <= d < |s'.sessions| ensures SessionOk(s', d) { assert SessionOk(s, d); }
    forall h | 0 <= h < |s'.hs| ensures ActorOk(s', h) { assert ActorOk(s, h); }
    forall j | 0 <= j < |s'.log| ensures ReplyOk(s', j) { assert ReplyOk(s, j); }
    forall r | 0 <= r < |s'.requests| ensures AnswerOk(s', r) { if r < |s.requests| { assert AnswerOk(s, r); } }
    assert forall n :: Live(s', n) == Live(s, n);
  }

  /** What the rendezvous does here: the session waits for the answer, and the actor holds the request. */
  lemma RendezvousEffect(s: State, c: nat)
    requires Inv(s) && CanRendezvous(s, c)
    ensures var s', Sending(nick, h, r) := Rendezvous(s, c), s.sessions[c];
      && s'.sessions == s.sessions[c := Awaiting(nick, h, r)]
      && s'.requests == s.requests[r := s.requests[r].(call := Some(|s.store.calls|))]
      && RequestOf(s'.hs[h].actor) == Some(r) && s'.hs[h].actor != Crashed
      && s'.hs == s.hs[h := s.hs[h].(actor := s'.hs[h].actor)]
      && s'.handlers == s.handlers && s'.connNick == s.connNick && s'.log == s.log && s'.tasks == s.tasks
      && nick in s.handlers && s.handlers[nick] == h && s.hs[h].nick == nick
  {
    assert SessionOk(s, c);
  }

  lemma RendezvousKeeps(s: State, c: nat)
    requires Inv(s) && CanRendezvous(s, c)
    ensures Inv(Rendezvous(s, c))
  {
    var s' := Rendezvous(s, c);
    RendezvousEffect(s, c);
    TakenRequest(s, s', c);
  }

  lemma TakenRequest(s: State, s': State, c: nat)
    requires RequestsOk(s) && c < |s.sessions| && s.sessions[c].Sending?
    requires var Sending(nick, h, r) := s.sessions[c];
      && h < |s.hs| && r < |s.requests| && s.hs[h].actor == Idle && s.hs[h].nick == nick
      && s'.sessions == s.sessions[c := Awaiting(nick, h, r)]
      && s'.requests == s.requests[r := s.requests[r].(call := Some(|s.store.calls|))]
      && |s'.hs| == |s.hs| && RequestOf(s'.hs[h].actor) == Some(r) && s'.hs[h].actor != Crashed
      && s'.hs == s.hs[h := s.hs[h].(actor := s'.hs[h].actor)]
      && s'.handlers == s.handlers && s'.log == s.log
    ensures RequestsOk(s')
  {
    assert SessionOk(s, c);
    forall d | 0 <= d < |s'.sessions| ensures SessionOk(s', d) { assert SessionOk(s, d); }
    forall g | 0 <= g < |s'.hs| ensures ActorOk(s', g) { assert ActorOk(s, g); }
    forall j | 0 <= j < |s'.log| ensures ReplyOk(s', j) { assert ReplyOk(s, j); }
    forall q | 0 <= q < |s'.requests| ensures AnswerOk(s', q) { assert AnswerOk(s, q); }
  }

  lemma ReplyKeeps(s: State, h: nat, c: nat)
    requires Inv(s) && CanReply(s, h, c)
    ensures Inv(Reply(s, h, c))
  {
    var s' := Reply(s, h, c);
    assert SessionOk(s, c) && ActorOk(s, h);
    AnsweredRequest(s, s', h, c);
  }

  lemma AnsweredRequest(s: State, s': State, h: nat, c: nat)
    requires RequestsOk(s) && CanReply(s, h, c)
    requires var r := s.hs[h].actor.r;
      && s'.sessions == s.sessions[c := Reading(Some(s.sessions[c].nick))]
      && s'.requests == s.requests[r := s.requests[r].(reply := Some(|s.log|))]
      && s'.hs == s.hs[h := s.hs[h].(actor := Idle)]
      && s'.handlers == s.handlers && s'.log == s.log + [Replied(r, c, s.hs[h].actor.outcome)]
    ensures RequestsOk(s')
  {
    assert SessionOk(s, c) && ActorOk(s, h);
    forall d | 0 <= d < |s'.sessions| ensures SessionOk(s', d) { assert SessionOk(s, d); }
    forall g | 0 <= g < |s'.hs| ensures ActorOk(s', g) { assert ActorOk(s, g); }
    forall j | 0 <= j < |s'.log| ensures ReplyOk(s', j) { if j < |s.log| { assert ReplyOk(s, j); } }
    forall q | 0 <= q < |s'.requests| ensures AnswerOk(s', q) { assert AnswerOk(s, q); }
  }

  /** The handler RemoveConnection finds is the session's own, and it is dropped exactly at its last connection. */
  lemma ShutFinds(s: State, c: nat)
    requires PoolOk(s) && c < |s.sessions| && s.sessions[c].Closing? && s.sessions[c].login.Some?
    ensures var n := s.sessions[c].login.value;
      && HandlerFor(s, c) && NickOf(s, c) == n && s.hs[s.handlers[n]].conns == Live(s, n)
      && (LastConnection(s, c) <==> Live(s, n) == {c})
  {
    var n := s.sessions[c].login.value;
    assert c in Live(s, n);
    if |Live(s, n)| <= 1 {
      assert |Live(s, n) - {c}| == 0;
    }
  }

  lemma ShutEffect(s: State, c: nat, names: seq<string>)
    requires PoolOk(s) && c < |s.sessions| && s.sessions[c].Closing? && s.sessions[c].login.Some?
    ensures var s', n := Shut(s, c, names), s.sessions[c].login.value;
      var h := s.handlers[n];
      && s'.sessions == s.sessions[c := Closed(Some(n))]
      && s'.requests == s.requests && s'.log == s.log + [Detached(c)] && s'.tasks == s.tasks
      && (if LastConnection(s, c) then
            s'.handlers == s.handlers - {n} && s'.connNick == s.connNick - {c} && s'.hs == s.hs
            && s'.store == Evictions(s.store, names, h)
          else
            s'.handlers == s.handlers && s'.connNick == s.connNick && s'.store == s.store
            && s'.hs == s.hs[h := s.hs[h].(conns := s.hs[h].conns - {c})])
  {
    ShutFinds(s, c);
  }

  lemma ShutPool(s: State, c: nat, names: seq<string>)
    requires PoolOk(s) && c < |s.sessions| && s.sessions[c].Closing? && s.sessions[c].login.Some?
    ensures PoolOk(Shut(s, c, names))
  {
    var s', n := Shut(s, c, names), s.sessions[c].login.value;
    ShutFinds(s, c);
    ShutEffect(s, c, names);
    assert forall m | m != n :: Live(s', m) == Live(s, m);
    assert Live(s', n) == Live(s, n) - {c};
    forall d | 0 <= d < |s'.sessions| && LoginOf(s'.sessions[d]) == Some(n) ensures !LastConnection(s, c) {
      assert d in Live(s, n);
    }
  }

  lemma ShutKeeps(s: State, c: nat, names: seq<string>)
    requires Inv(s) && CanShut(s, c, names)
    ensures Inv(Shut(s, c, names))
  {
    if s.sessions[c].login.None? {
      SessionMoves(s, c, Closed(None));
    } else {
      ShutPool(s, c, names);
      ShutCalm(s, c, names);
      CalmKeeps(s, Shut(s, c, names));
    }
  }

  lemma ShutCalm(s: State, c: nat, names: seq<string>)
    requires Inv(s) && c < |s.sessions| && s.sessions[c].Closing? && s.sessions[c].login.Some?
    ensures Calm(s, Shut(s, c, names))
  {
    ShutEffect(s, c, names);
    ShutFinds(s, c);
    ActorsFine(s);
    WaitingIsAnother(s, c);
  }

  /** A session that waits for an answer is a connection of its nick besides the one that closes. */
  lemma WaitingIsAnother(s: State, c: nat)
    requires PoolOk(s) && c < |s.sessions| && s.sessions[c].Closing? && s.sessions[c].login.Some?
    ensures forall d | 0 <= d < |s.sessions| && Waiting(s.sessions[d])
            && s.sessions[d].nick == s.sessions[c].login.value ::
              !LastConnection(s, c)
  {
    var n := s.sessions[c].login.value;
    ShutFinds(s, c);
    forall d | 0 <= d < |s.sessions| && Waiting(s.sessions[d]) && s.sessions[d].nick == n
      ensures !LastConnection(s, c)
    {
      assert d in Live(s, n);
    }
  }

  /** Only these actions touch the store. */
  lemma StoreStays(s: State, a: Action)
    requires Enabled(s, a) && !a.DoRendezvous? && !a.DoActorStep? && !a.DoEvict? && !a.DoShut?
    ensures Apply(s, a).store == s.store
  {
  }

  /** Only these actions touch the pool or the connections of handlers. */
  lemma PoolStays(s: State, a: Action)
    requires Enabled(s, a) && !a.DoReceive? && !a.DoRendezvous? && !a.DoActorStep? && !a.DoShut?
    ensures Apply(s, a).handlers == s.handlers && SameHandlers(s, Apply(s, a))
  {
    if a.DoFindHandler? { FindHandlerStays(s, a.c); }
    if a.DoReply? { ReplyStays(s, a.h, a.c); }
    if a.DoTask? { TaskStays(s, a.k, a.order); }
  }

  lemma FindHandlerStays(s: State, c: nat)
    requires CanFindHandler(s, c)
    ensures FindHandler(s, c).handlers == s.handlers && SameHandlers(s, FindHandler(s, c))
  {
  }

  lemma ReplyStays(s: State, h: nat, c: nat)
    requires CanReply(s, h, c)
    ensures Reply(s, h, c).handlers == s.handlers && SameHandlers(s, Reply(s, h, c))
  {
  }

  lemma TaskStays(s: State, k: nat, order: seq<nat>)
    requires CanTask(s, k, order)
    ensures TaskStep(s, k, order) == s.(tasks := TaskStep(s, k, order).tasks)
  {
  }

  ghost predicate SameHandlers(s: State, s': State) {
    && |s'.hs| == |s.hs| && |s.sessions| <= |s'.sessions|
    && forall h | 0 <= h < |s.hs| :: s'.hs[h].nick == s.hs[h].nick && s'.hs[h].conns == s.hs[h].conns
  }

  /** What an actor's store step can change: the actor itself, the store, and new writes for the tasks. */
  lemma ActorStepEffect(s: State, h: nat, order: seq<nat>)
    requires CanActorStep(s, h, order)
    ensures var s' := ActorStep(s, h, order);
      var store := Store.Advance(s.store, CallOf(s.hs[h].actor).value);
      && s'.sessions == s.sessions && s'.handlers == s.handlers && s'.connNick == s.connNick
      && s'.requests == s.requests && s'.log == s.log
      && |s'.hs| == |s.hs| && s'.hs == s.hs[h := s.hs[h].(actor := s'.hs[h].actor)]
      && RequestOf(s'.hs[h].actor) == RequestOf(s.hs[h].actor) && s'.hs[h].actor != Crashed
      && |s.tasks| <= |s'.tasks|
      && (forall k | 0 <= k < |s.tasks| :: s'.tasks[k] == s.tasks[k])
      && (forall k | |s.tasks| <= k < |s'.tasks| :: s'.tasks[k].Write? && !s'.tasks[k].note.NewMessage?)
      && (s'.store == store || exists name :: s'.store == Store.Start(store, Op(Join, name, h)))
  {
    var t := CallOf(s.hs[h].actor).value;
    var s1 := s.(store := Store.Advance(s.store, t));
    if Returned(s1.store, t) { ResumeEffect(s1, h, order); }
  }

  lemma ResumeEffect(s: State, h: nat, order: seq<nat>)
    requires h < |s.hs| && CallOf(s.hs[h].actor).Some? && Returned(s.store, CallOf(s.hs[h].actor).value)
    ensures var s' := Resume(s, h, order);
      && s'.sessions == s.sessions && s'.handlers == s.handlers && s'.connNick == s.connNick
      && s'.requests == s.requests && s'.log == s.log
      && |s'.hs| == |s.hs| && s'.hs == s.hs[h := s.hs[h].(actor := s'.hs[h].actor)]
      && RequestOf(s'.hs[h].actor) == RequestOf(s.hs[h].actor) && s'.hs[h].actor != Crashed
      && |s.tasks| <= |s'.tasks|
      && (forall k | 0 <= k < |s.tasks| :: s'.tasks[k] == s.tasks[k])
      && (forall k | |s.tasks| <= k < |s'.tasks| :: s'.tasks[k].Write? && !s'.tasks[k].note.NewMessage?)
      && (s'.store == s.store || exists name :: s'.store == Store.Start(s.store, Op(Join, name, h)))
  {
  }
}
