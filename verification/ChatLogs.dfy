/**
 What the logs of a run of ChatSystem record, as a third invariant that no other one needs.

 A connection is attached once its session has logged in, and detached once it has closed after that. Every message
 that was indexed had its author among the members at that step and has a delivery goroutine of its own, and all
 that is written as a new message has been indexed before. Handlers hold no connections but those of sessions.
 */
module ChatLogs {
  import opened Collections
  import opened Protocol
  import opened ChatSystem
  import opened ChatMembership
  import ChatProtocol

  function Attaches(log: seq<Event>, c: nat): nat {
    if log == [] then 0 else
      Attaches(log[..|log| - 1], c)
      + (if log[|log| - 1].Attached? && log[|log| - 1].conn == c then 1 else 0)
  }

  function Detaches(log: seq<Event>, c: nat): nat {
    if log == [] then 0 else
      Detaches(log[..|log| - 1], c) + (if log[|log| - 1] == Detached(c) then 1 else 0)
  }

  /** The nick a session has ever logged in with. */
  function EverLogged(session: Session): Option<string> {
    if session.Closed? then session.login else ChatProtocol.LoginOf(session)
  }

  /** A connection is registered once it has logged in, and unregistered once it is closed after that. */
  ghost predicate RegisteredOk(s: State, c: nat) {
    && Attaches(s.log, c) == (if c < |s.sessions| && EverLogged(s.sessions[c]).Some? then 1 else 0)
    && Detaches(s.log, c) ==
         (if c < |s.sessions| && s.sessions[c].Closed? && s.sessions[c].login.Some? then 1 else 0)
  }

  ghost predicate AttachedOk(s: State, j: nat)
    requires j < |s.log|
  {
    s.log[j].Attached? ==>
      s.log[j].conn < |s.sessions| && EverLogged(s.sessions[s.log[j].conn]) == Some(s.log[j].nick)
  }

  predicate DeliveryOf(task: Task, m: nat) {
    (task.Deliver? || task.Delivered?) && task.m == m
  }

  /** An indexed message had its author among the members, and has its own delivery goroutine. */
  ghost predicate IndexedOk(s: State, j: nat)
    requires j < |s.log|
  {
    var e := s.log[j];
    e.Indexed? ==>
      e.h in e.members && e.task < |s.tasks| && DeliveryOf(s.tasks[e.task], j)
      && (s.tasks[e.task].Deliver? ==> s.tasks[e.task].ref == e.ref)
  }

  ghost predicate DeliveryOk(s: State, k: nat)
    requires k < |s.tasks|
  {
    var task := s.tasks[k];
    && (task.Deliver? || task.Delivered? ==>
          task.m < |s.log| && s.log[task.m].Indexed? && s.log[task.m].task == k)
    && ((task.Write? || task.WriteSocket?) && task.note.NewMessage? ==>
          task.note.m < |s.log| && s.log[task.note.m].Indexed?)
  }

  ghost predicate LogsOk(s: State) {
    && (forall c: nat :: RegisteredOk(s, c))
    && (forall j | 0 <= j < |s.log| :: AttachedOk(s, j) && IndexedOk(s, j))
    && (forall k | 0 <= k < |s.tasks| :: DeliveryOk(s, k))
  }

  /** Nothing is registered, indexed or delivered: new tasks, if any, only write what is already indexed. */
  lemma Unlogged(s: State, s': State)
    requires LogsOk(s) && s'.log == s.log && |s.tasks| <= |s'.tasks| && |s.sessions| <= |s'.sessions|
    requires forall c | 0 <= c < |s.sessions| ::
               EverLogged(s'.sessions[c]) == EverLogged(s.sessions[c])
               && (s'.sessions[c].Closed? && s'.sessions[c].login.Some? <==>
                   s.sessions[c].Closed? && s.sessions[c].login.Some?)
    requires forall c | |s.sessions| <= c < |s'.sessions| :: s'.sessions[c] == Reading(None)
    requires forall k | 0 <= k < |s.tasks| :: Progress(s.tasks[k], s'.tasks[k])
    requires forall k | |s.tasks| <= k < |s'.tasks| :: FreshWrite(s, s'.tasks[k])
    ensures LogsOk(s')
  {
    forall c: nat ensures RegisteredOk(s', c) { assert RegisteredOk(s, c); }
    forall j | 0 <= j < |s'.log| ensures AttachedOk(s', j) && IndexedOk(s', j) {
      assert AttachedOk(s, j) && IndexedOk(s, j);
    }
    forall k | 0 <= k < |s'.tasks| ensures DeliveryOk(s', k) {
      if k < |s.tasks| { assert DeliveryOk(s, k); }
    }
  }

  predicate Progress(task: Task, task': Task) {
    || task' == task
    || (task.Deliver? && task'.Delivered? && task'.m == task.m)
    || ((task.Write? || task.WriteSocket?) && task' == Finished)
  }

  predicate FreshWrite(s: State, task: Task) {
    && (task.Write? || task.WriteSocket?)
    && (task.note.NewMessage? ==> task.note.m < |s.log| && s.log[task.note.m].Indexed?)
  }

  lemma TaskLogs(s: State, k: nat, order: seq<nat>)
    requires LogsOk(s) && CanTask(s, k, order)
    ensures LogsOk(TaskStep(s, k, order))
  {
    assert DeliveryOk(s, k);
    Unlogged(s, TaskStep(s, k, order));
  }

  lemma IndexLogs(s: State, h: nat, success: bool)
    requires Inv(s) && LogsOk(s) && CanIndex(s, h)
    ensures LogsOk(Index(s, h, success))
  {
    var s' := Index(s, h, success);
    if success {
      assert ActorCallOk(s, h);
      forall c: nat ensures RegisteredOk(s', c) { assert RegisteredOk(s, c); }
      forall j | 0 <= j < |s'.log| ensures AttachedOk(s', j) && IndexedOk(s', j) {
        if j < |s.log| { assert AttachedOk(s, j) && IndexedOk(s, j); }
      }
      forall k | 0 <= k < |s'.tasks| ensures DeliveryOk(s', k) {
        if k < |s.tasks| { assert DeliveryOk(s, k); }
      }
    } else {
      Unlogged(s, s');
    }
  }

  /** One session event is logged; tasks are untouched. */
  lemma LoggedOne(s: State, s': State, c: nat, e: Event)
    requires LogsOk(s) && s'.log == s.log + [e] && s'.tasks == s.tasks && c < |s.sessions|
    requires |s'.sessions| == |s.sessions| && forall d | 0 <= d < |s.sessions| && d != c ::
             s'.sessions[d] == s.sessions[d]
    requires !e.Indexed?
    requires e.Attached? ==>
               e.conn == c && EverLogged(s.sessions[c]) == None && EverLogged(s'.sessions[c]) == Some(e.nick)
               && !s'.sessions[c].Closed? && !s.sessions[c].Closed?
    requires e.Detached? ==> e.conn == c && s.sessions[c].Closing? && s.sessions[c].login.Some?
                             && s'.sessions[c] == Closed(s.sessions[c].login)
    requires !e.Attached? && !e.Detached? ==>
               EverLogged(s'.sessions[c]) == EverLogged(s.sessions[c])
               && !s'.sessions[c].Closed? && !s.sessions[c].Closed?
    ensures LogsOk(s')
  {
    forall d: nat ensures RegisteredOk(s', d) { assert RegisteredOk(s, d); }
    forall j | 0 <= j < |s'.log| ensures AttachedOk(s', j) && IndexedOk(s', j) {
      if j < |s.log| { assert AttachedOk(s, j) && IndexedOk(s, j); }
    }
    forall k | 0 <= k < |s'.tasks| ensures DeliveryOk(s', k) { assert DeliveryOk(s, k); }
  }

  lemma ReceiveLogs(s: State, c: nat, msg: SocketMessage, valid: bool)
    requires ChatProtocol.Inv(s) && LogsOk(s) && CanReceive(s, c, msg, valid)
    ensures LogsOk(Receive(s, c, msg, valid))
  {
    var s' := Receive(s, c, msg, valid);
    if s'.log == s.log {
      Unlogged(s, s');
    } else {
      LoggedOne(s, s', c, s'.log[|s.log|]);
    }
  }

  lemma SessionLogs(s: State, a: Action)
    requires ChatProtocol.Inv(s) && LogsOk(s) && Enabled(s, a) && (a.DoConnect? || a.DoClose? || a.DoFindHandler?)
    ensures LogsOk(Apply(s, a))
  {
    assert a.DoFindHandler? ==> s.sessions[a.c].nick in s.handlers;
    Unlogged(s, Apply(s, a));
  }

  lemma RendezvousLogs(s: State, c: nat)
    requires ChatProtocol.Inv(s) && LogsOk(s) && CanRendezvous(s, c)
    ensures LogsOk(Rendezvous(s, c))
  {
    ChatProtocol.RendezvousEffect(s, c);
    Unlogged(s, Rendezvous(s, c));
  }

  lemma ShutLogs(s: State, c: nat, names: seq<string>)
    requires ChatProtocol.Inv(s) && LogsOk(s) && CanShut(s, c, names)
    ensures LogsOk(Shut(s, c, names))
  {
    if s.sessions[c].login.Some? {
      ChatProtocol.ShutEffect(s, c, names);
      LoggedOne(s, Shut(s, c, names), c, Detached(c));
    } else {
      Unlogged(s, Shut(s, c, names));
    }
  }

  lemma ActorLogs(s: State, h: nat, order: seq<nat>)
    requires ChatProtocol.Inv(s) && LogsOk(s) && CanActorStep(s, h, order)
    ensures LogsOk(ActorStep(s, h, order))
  {
    ChatProtocol.ActorStepEffect(s, h, order);
    Unlogged(s, ActorStep(s, h, order));
  }

  lemma ReplyLogs(s: State, h: nat, c: nat)
    requires ChatProtocol.Inv(s) && LogsOk(s) && CanReply(s, h, c)
    ensures LogsOk(Reply(s, h, c))
  {
    assert ChatProtocol.SessionOk(s, c);
    LoggedOne(s, Reply(s, h, c), c, Replied(s.hs[h].actor.r, c, s.hs[h].actor.outcome));
  }

  lemma ApplyKeepsLogs(s: State, a: Action)
    requires Inv(s) && LogsOk(s) && Enabled(s, a)
    ensures LogsOk(Apply(s, a))
  {
    match a
    case DoReceive(c, msg, valid) => ReceiveLogs(s, c, msg, valid);
    case DoActorStep(h, order) => ActorLogs(s, h, order);
    case DoFind(h) => Unlogged(s, Find(s, h));
    case DoIndex(h, success) => IndexLogs(s, h, success);
    case DoReply(h, c) => ReplyLogs(s, h, c);
    case DoRendezvous(c) => RendezvousLogs(s, c);
    case DoShut(c, names) => ShutLogs(s, c, names);
    case DoEvict(t, order) => Unlogged(s, EvictStep(s, t, order));
    case DoTask(k, order) => TaskLogs(s, k, order);
    case _ => SessionLogs(s, a);
  }

  /** Handlers, dropped ones included, only hold connections of sessions that exist. */
  ghost predicate ConnsKnown(s: State) {
    forall h, c | 0 <= h < |s.hs| && c in s.hs[h].conns :: c < |s.sessions|
  }

  lemma ApplyKeepsConns(s: State, a: Action)
    requires ChatProtocol.Inv(s) && ConnsKnown(s) && Enabled(s, a)
    ensures ConnsKnown(Apply(s, a))
  {
    if a.DoReceive? { ReceiveKeepsConns(s, a.c, a.msg, a.valid); }
    else if a.DoRendezvous? { ChatProtocol.RendezvousEffect(s, a.c); }
    else if a.DoActorStep? { ChatProtocol.ActorStepEffect(s, a.h, a.order); }
    else if a.DoShut? { ShutKeepsConns(s, a.c, a.names); }
    else { ChatProtocol.PoolStays(s, a); }
  }

  lemma ReceiveKeepsConns(s: State, c: nat, msg: SocketMessage, valid: bool)
    requires ConnsKnown(s) && CanReceive(s, c, msg, valid)
    ensures ConnsKnown(Receive(s, c, msg, valid))
  {
  }

  lemma ShutKeepsConns(s: State, c: nat, names: seq<string>)
    requires ChatProtocol.Inv(s) && ConnsKnown(s) && CanShut(s, c, names)
    ensures ConnsKnown(Shut(s, c, names))
  {
    if s.sessions[c].login.Some? { ChatProtocol.ShutEffect(s, c, names); }
  }
}
