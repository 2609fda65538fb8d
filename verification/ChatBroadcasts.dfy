/**
 Who is written to: every step spawns exactly the deliveries it owes, one for each recipient there is at that step.
 */
module ChatBroadcasts {
  import opened Collections
  import opened StoreSpec
  import opened ChatSystem
  import opened ChatMembership
  import Store = StoreMachine
  import StoreFrame
  import StoreProofs
  import ChatTheorems

  function WritesTo(users: set<nat>, note: Note): set<Task> {
    set u | u in users :: Write(u, note)
  }

  function SocketWritesTo(conns: set<nat>, note: Note): set<Task> {
    set c | c in conns :: WriteSocket(c, note)
  }

  /** The members a store call about to run MessageMembers finds there. */
  function Audience(s: State, t: nat): set<nat> {
    if t < |s.store.calls| && s.store.calls[t].pc.Notify? then Store.Members(s.store, s.store.calls[t].pc.ref) else {}
  }

  /** The goroutines a step owes. */
  ghost function Owes(s: State, a: Action): set<Task>
    requires Enabled(s, a)
  {
    match a
    case DoActorStep(h, _) => ActorOwes(s, h)
    case DoEvict(t, _) => EvictOwes(s, t)
    case DoIndex(h, success) => if success then {Deliver(|s.log|, s.hs[h].actor.ref)} else {}
    case DoTask(k, _) => TaskOwes(s, k)
    case _ => {}
  }

  function ActorOwes(s: State, h: nat): set<Task>
    requires h < |s.hs| && CallOf(s.hs[h].actor).Some? && CallOf(s.hs[h].actor).value < |s.store.calls|
  {
    var actor, nick := s.hs[h].actor, s.hs[h].nick;
    var audience := Audience(s, CallOf(actor).value);
    if actor.Joining? then WritesTo(audience, UserJoined(actor.name, nick))
    else if actor.Leaving? && s.store.calls[actor.t].pc.Notify? then
      WritesTo(audience, UserLeft(actor.name, nick)) + {Write(h, YouLeft(actor.name, nick))}
    else {}
  }

  function EvictOwes(s: State, t: nat): set<Task>
    requires t < |s.store.calls|
  {
    var op := s.store.calls[t].op;
    WritesTo(Audience(s, t), UserLeft(op.name, NickOfHandler(s, op.user)))
  }

  function TaskOwes(s: State, k: nat): set<Task>
    requires k < |s.tasks|
  {
    match s.tasks[k]
    case Deliver(m, ref) => WritesTo(Store.Members(s.store, ref), NewMessage(m))
    case Write(h, note) => SocketWritesTo(ConnsOf(s, h), note)
    case _ => {}
  }

  /** From `s` to `s'` these goroutines have been spawned, each once, and nothing else. */
  ghost predicate Exact(s: State, owed: set<Task>, s': State) {
    |s.tasks| <= |s'.tasks| && Enumerates(s'.tasks[|s.tasks|..], owed)
  }

  lemma WritesEnumerate(order: seq<nat>, users: set<nat>, note: Note)
    requires Enumerates(order, users)
    ensures Enumerates(Writes(order, note), WritesTo(users, note))
  {
    var tasks := Writes(order, note);
    forall task | task in WritesTo(users, note) ensures task in tasks {
      var i :| 0 <= i < |order| && order[i] == task.h;
      assert tasks[i] == task;
    }
  }

  lemma SocketWritesEnumerate(order: seq<nat>, conns: set<nat>, note: Note)
    requires Enumerates(order, conns)
    ensures Enumerates(SocketWrites(order, note), SocketWritesTo(conns, note))
  {
    var tasks := SocketWrites(order, note);
    forall task | task in SocketWritesTo(conns, note) ensures task in tasks {
      var i :| 0 <= i < |order| && order[i] == task.conn;
      assert tasks[i] == task;
    }
  }

  /**
   A call broadcasts when, and only when, it runs MessageMembers, to the members there are then; and then it
   succeeds.
   */
  lemma CallBroadcasts(s: State, t: nat, order: seq<nat>)
    requires Inv(s) && Store.Running(s.store, t)
    requires Broadcasts(Store.Advance(s.store, t), t, order)
    ensures var store, call := Store.Advance(s.store, t), s.store.calls[t];
      && Enumerates(order, Audience(s, t))
      && (call.pc.Notify? ==> Returned(store, t) && Answer(store, t) == Ok)
      && (!call.pc.Notify? && call.op.kind == Leave && Returned(store, t) ==> Answer(store, t) != Ok)
  {
    StoreFrame.AdvanceFrame(s.store, t);
    assert StoreProofs.CallOk(s.store, s.store.calls[t]);
  }

  lemma ActorPays(s: State, h: nat, order: seq<nat>)
    requires Inv(s) && CanActorStep(s, h, order)
    ensures Exact(s, ActorOwes(s, h), ActorStep(s, h, order))
  {
    var t := CallOf(s.hs[h].actor).value;
    assert ActorCallOk(s, h);
    CallBroadcasts(s, t, order);
    ActorSpawns(s, h, order);
    SpawnedIsOwed(s, h, order);
    assert ActorStep(s, h, order).tasks[|s.tasks|..] == Spawned(s, h, order);
  }

  lemma SpawnedIsOwed(s: State, h: nat, order: seq<nat>)
    requires h < |s.hs| && CallOf(s.hs[h].actor).Some? && CallOf(s.hs[h].actor).value < |s.store.calls|
    requires Enumerates(order, Audience(s, CallOf(s.hs[h].actor).value))
    ensures Enumerates(Spawned(s, h, order), ActorOwes(s, h))
  {
    var actor, nick := s.hs[h].actor, s.hs[h].nick;
    var audience := Audience(s, CallOf(actor).value);
    if actor.Joining? {
      WritesEnumerate(order, audience, UserJoined(actor.name, nick));
    } else if actor.Leaving? && s.store.calls[actor.t].pc.Notify? {
      var note := UserLeft(actor.name, nick);
      WritesEnumerate(order, audience, note);
      EnumerateOneMore(Writes(order, note), WritesTo(audience, note), Write(h, YouLeft(actor.name, nick)));
    }
  }

  function Spawned(s: State, h: nat, order: seq<nat>): seq<Task>
    requires h < |s.hs| && CallOf(s.hs[h].actor).Some? && CallOf(s.hs[h].actor).value < |s.store.calls|
  {
    var actor, nick := s.hs[h].actor, s.hs[h].nick;
    if actor.Joining? then Writes(order, UserJoined(actor.name, nick))
    else if actor.Leaving? && s.store.calls[actor.t].pc.Notify? then
      Writes(order, UserLeft(actor.name, nick)) + [Write(h, YouLeft(actor.name, nick))]
    else []
  }

  lemma ActorSpawns(s: State, h: nat, order: seq<nat>)
    requires CanActorStep(s, h, order)
    requires var t := CallOf(s.hs[h].actor).value;
      var store, call := Store.Advance(s.store, t), s.store.calls[t];
      && (call.pc.Notify? ==> Returned(store, t) && Answer(store, t) == Ok)
      && (!call.pc.Notify? ==> order == [])
      && (!call.pc.Notify? && s.hs[h].actor.Leaving? && Returned(store, t) ==> Answer(store, t) != Ok)
    ensures ActorStep(s, h, order).tasks == s.tasks + Spawned(s, h, order)
  {
  }

  /** Every step of the chat spawns what it owes and nothing else: no recipient is missed, none is written to twice. */
  lemma SpawnsAreExact(s: State, a: Action)
    requires ChatTheorems.Reachable(s) && Enabled(s, a)
    ensures Exact(s, Owes(s, a), Apply(s, a))
  {
    ChatTheorems.ReachableInv(s);
    if a.DoActorStep? { ActorPays(s, a.h, a.order); }
    else if a.DoEvict? { EvictPays(s, a.t, a.order); }
    else if a.DoTask? { TaskPays(s, a.k, a.order); }
    else if a.DoIndex? { IndexPays(s, a.h, a.success); }
    else { OthersOweNothing(s, a); }
  }

  /** A join that tells writes the joined event to every member, a leave the left event, and its user is told too. */
  lemma ChangesAreTold(s: State, h: nat, order: seq<nat>)
    requires ChatTheorems.Reachable(s) && CanActorStep(s, h, order)
    requires s.store.calls[s.hs[h].actor.t].pc.Notify?
    ensures var actor, nick, s' := s.hs[h].actor, s.hs[h].nick, ActorStep(s, h, order);
      var members := Store.Members(s.store, s.store.calls[actor.t].pc.ref);
      && (actor.Joining? ==> Exact(s, set u | u in members :: Write(u, UserJoined(actor.name, nick)), s'))
      && (actor.Leaving? ==>
            Exact(s, (set u | u in members :: Write(u, UserLeft(actor.name, nick)))
                     + {Write(h, YouLeft(actor.name, nick))}, s'))
  {
    ChatTheorems.ReachableInv(s);
    ActorPays(s, h, order);
  }

  /** A removal that tells writes the left event of the dropped handler's nick to every member that remains. */
  lemma RemovalsAreTold(s: State, t: nat, order: seq<nat>)
    requires ChatTheorems.Reachable(s) && CanEvict(s, t, order) && s.store.calls[t].pc.Notify?
    ensures var op := s.store.calls[t].op;
      var members := Store.Members(s.store, s.store.calls[t].pc.ref);
      && op.user < |s.hs|
      && Exact(s, set u | u in members :: Write(u, UserLeft(op.name, s.hs[op.user].nick)), EvictStep(s, t, order))
  {
    ChatTheorems.ReachableInv(s);
    assert EvictOk(s, t);
    EvictPays(s, t, order);
  }

  /** A delivery writes its message to every member there is when it runs, a write to every connection there is then. */
  lemma DeliveriesReachAll(s: State, k: nat, order: seq<nat>)
    requires CanTask(s, k, order)
    ensures s.tasks[k].Deliver? ==>
              var Deliver(m, ref) := s.tasks[k];
              Exact(s, set u | u in Store.Members(s.store, ref) :: Write(u, NewMessage(m)), TaskStep(s, k, order))
    ensures s.tasks[k].Write? && s.tasks[k].h < |s.hs| ==>
              var Write(h, note) := s.tasks[k];
              Exact(s, set c | c in s.hs[h].conns :: WriteSocket(c, note), TaskStep(s, k, order))
  {
    TaskPays(s, k, order);
  }

  /** The steps that are none of these, nor the indexing of a message, spawn nothing. */
  lemma OthersSpawnNothing(s: State, a: Action)
    requires ChatTheorems.Reachable(s) && Enabled(s, a)
    requires a.DoActorStep? ==>
               !s.store.calls[s.hs[a.h].actor.t].pc.Notify? || s.hs[a.h].actor.Making? || s.hs[a.h].actor.Checking?
    requires a.DoEvict? ==> !s.store.calls[a.t].pc.Notify?
    requires a.DoIndex? ==> !a.success
    requires a.DoTask? ==> s.tasks[a.k].WriteSocket?
    ensures |Apply(s, a).tasks| == |s.tasks|
  {
    SpawnsAreExact(s, a);
    assert Owes(s, a) == {};
    EnumerationLength(Apply(s, a).tasks[|s.tasks|..], {});
  }

  lemma EvictPays(s: State, t: nat, order: seq<nat>)
    requires Inv(s) && CanEvict(s, t, order)
    ensures Exact(s, EvictOwes(s, t), EvictStep(s, t, order))
  {
    var op := s.store.calls[t].op;
    var note := UserLeft(op.name, NickOfHandler(s, op.user));
    CallBroadcasts(s, t, order);
    WritesEnumerate(order, Audience(s, t), note);
    assert EvictStep(s, t, order).tasks[|s.tasks|..] == Writes(order, note);
  }

  lemma IndexPays(s: State, h: nat, success: bool)
    requires CanIndex(s, h)
    ensures Exact(s, if success then {Deliver(|s.log|, s.hs[h].actor.ref)} else {}, Index(s, h, success))
  {
    var more := Index(s, h, success).tasks[|s.tasks|..];
    if success {
      var delivery := Deliver(|s.log|, s.hs[h].actor.ref);
      assert more == [delivery] && more[0] == delivery;
    } else {
      assert more == [];
    }
  }

  lemma OthersOweNothing(s: State, a: Action)
    requires Enabled(s, a) && !a.DoActorStep? && !a.DoEvict? && !a.DoTask? && !a.DoIndex?
    ensures Apply(s, a).tasks == s.tasks
  {
  }

  lemma TaskPays(s: State, k: nat, order: seq<nat>)
    requires CanTask(s, k, order)
    ensures Exact(s, TaskOwes(s, k), TaskStep(s, k, order))
  {
    var more := TaskStep(s, k, order).tasks[|s.tasks|..];
    match s.tasks[k]
    case Deliver(m, ref) =>
      WritesEnumerate(order, Store.Members(s.store, ref), NewMessage(m));
      assert more == Writes(order, NewMessage(m));
    case Write(h, note) =>
      SocketWritesEnumerate(order, ConnsOf(s, h), note);
      assert more == SocketWrites(order, note);
    case _ =>
  }
}
