/**
 The second half of the invariant of ChatSystem: how the handlers hold together with the channel store.

 Every running join, leave, creation or check belongs to the one actor that waits for it, and what an actor does next
 fits what its request asked for (`ActorCallOk`, `CallOwned`). Removals are only made for dropped handlers, one for
 each channel, and a dropped handler is a member only where its removal is still to come (`EvictOk`, `MemberOk`).
 Broadcasts of joins and leaves went to the right users (`NotifyOk`, `ToldOk`).
 */
module ChatMembership {
  import opened Collections
  import opened StoreSpec
  import opened Protocol
  import opened ChatSystem
  import opened StoreFrame
  import Store = StoreMachine
  import StoreProofs
  import ChatProtocol

  /** The pool still leads from the handler's nick to this very handler. */
  ghost predicate Current(s: State, h: nat) {
    h < |s.hs| && s.hs[h].nick in s.handlers && s.handlers[s.hs[h].nick] == h
  }

  predicate InChannel(s: State, name: string, h: nat) {
    name in s.store.names && h in Store.Members(s.store, s.store.names[name])
  }

  function WorkOf(s: State, r: nat): Work {
    if r < |s.requests| then Dispatch(s.requests[r].action, s.requests[r].payload) else Unhandled
  }

  /** Request `r` has made its CreateChannel call, and that call answered `outcome`. */
  ghost predicate Made(s: State, r: nat, name: string, h: nat, outcome: Outcome) {
    && r < |s.requests| && s.requests[r].call.Some?
    && s.requests[r].call.value < |s.store.calls|
    && s.store.calls[s.requests[r].call.value].op == Op(Create, name, h)
    && Ended(s.store, s.requests[r].call.value, outcome, None) && Effect(s.store, s.requests[r].call.value, outcome)
  }

  ghost predicate InFlight(s: State, t: nat, kind: Kind, name: string, h: nat) {
    Store.Running(s.store, t) && s.store.calls[t].op == Op(kind, name, h)
  }

  /** The store call, and the facts already checked for it, that an actor's place in its branch stands for. */
  ghost predicate ActorCallOk(s: State, h: nat)
    requires h < |s.hs|
  {
    match s.hs[h].actor
    case Making(r, name, t) =>
      InFlight(s, t, Create, name, h) && WorkOf(s, r) == DoCreate(name) && s.requests[r].call == Some(t)
    case Joining(r, name, t) =>
      && InFlight(s, t, Join, name, h)
      && (WorkOf(s, r) == DoJoin(name)
          || (WorkOf(s, r) == DoCreate(name) && Made(s, r, name, h, Ok) && name != "" && name in s.store.names
              && (!s.store.calls[t].pc.Notify? ==> !InChannel(s, name, h))))
    case Leaving(r, name, t) => InFlight(s, t, Leave, name, h) && WorkOf(s, r) == DoLeave(name)
    case Checking(r, name, text, t) => InFlight(s, t, Present, name, h) && WorkOf(s, r) == DoSend(name, text)
    case Finding(r, name, text) => name != "" && InChannel(s, name, h) && WorkOf(s, r) == DoSend(name, text)
    case Indexing(r, name, ref, text) =>
      InChannel(s, name, h) && s.store.names[name] == ref && WorkOf(s, r) == DoSend(name, text)
    case Replying(r, outcome) =>
      && r < |s.requests|
      && (WorkOf(s, r).DoCreate? ==>
            var name := WorkOf(s, r).name;
            Made(s, r, name, h, outcome) && (outcome == Ok ==> InChannel(s, name, h)))
    case _ => true
  }

  /** Every running call but an eviction is in its user's actor; a free handler has none. */
  ghost predicate CallOwned(s: State, t: nat, free: set<nat>) {
    Store.Running(s.store, t) && s.store.calls[t].op.kind != Evict ==>
      var h := s.store.calls[t].op.user;
      h < |s.hs| && h !in free && CallOf(s.hs[h].actor) == Some(t)
  }

  /** Only dropped handlers are evicted, and an eviction past its check still has its member to remove. */
  ghost predicate EvictOk(s: State, t: nat)
    requires t < |s.store.calls|
  {
    var c := s.store.calls[t];
    c.op.kind == Evict ==>
      && c.op.user < |s.hs| && !Current(s, c.op.user) && c.op.name != "" && c.op.name in s.store.names
      && match c.pc
         case Change(ref) => c.op.user in Store.Members(s.store, ref)
         case Notify(ref) => c.op.user !in Store.Members(s.store, ref) && Effect(s.store, t, Ok)
         case Done(at) =>
           c.op.user !in Store.Members(s.store, s.store.names[c.op.name])
           && at < |s.store.history| && s.store.history[at].Returned?
           && (s.store.history[at].told.Some? <==> Effect(s.store, t, Ok))
         case _ => true
  }

  /** A join or leave about to tell has really changed its user's membership, and it tells exactly then. */
  ghost predicate NotifyOk(s: State, t: nat)
    requires t < |s.store.calls|
  {
    var c := s.store.calls[t];
    && (c.pc.Notify? ==>
          && (c.op.kind == Join ==> c.op.user in Store.Members(s.store, c.pc.ref))
          && (c.op.kind == Leave ==> c.op.user !in Store.Members(s.store, c.pc.ref)))
    && (c.pc.Done? && c.op.kind != Evict ==>
          && c.pc.at < |s.store.history| && s.store.history[c.pc.at].Returned?
          && (s.store.history[c.pc.at].told.Some? <==> c.op.kind in {Join, Leave} && Effect(s.store, t, Ok)))
  }

  /** Who hears a broadcast: a joiner hears of itself, a leaver or dropped handler does not. */
  ghost predicate ToldOk(s: State, j: nat)
    requires j < |s.store.history|
  {
    var e := s.store.history[j];
    e.Returned? && e.told.Some? ==>
      && (e.op.kind == Join ==> e.op.user in e.told.value)
      && (e.op.kind in {Leave, Evict} ==> e.op.user !in e.told.value)
  }

  ghost predicate EvictPending(s: State, t: nat, name: string, h: nat) {
    InFlight(s, t, Evict, name, h) && !s.store.calls[t].pc.Notify?
  }

  /** A member of a channel is in the pool, or a goroutine that will remove it from that channel is on its way. */
  ghost predicate MemberOk(s: State, ref: nat, h: nat) {
    && h < |s.hs|
    && (|| Current(s, h)
        || (ref < |s.store.channels| && exists t: nat :: EvictPending(s, t, s.store.channels[ref].name, h)))
  }

  ghost predicate EvictedOnce(s: State) {
    forall t, u | 0 <= t < |s.store.calls| && 0 <= u < |s.store.calls| ::
      s.store.calls[t].op.kind == Evict && s.store.calls[t].op == s.store.calls[u].op ==> t == u
  }

  ghost predicate TiedExcept(s: State, free: set<nat>) {
    && StoreProofs.Inv(s.store)
    && (forall h | 0 <= h < |s.hs| && h !in free :: ActorCallOk(s, h))
    && (forall t | 0 <= t < |s.store.calls| :: CallOwned(s, t, free) && EvictOk(s, t) && NotifyOk(s, t))
    && EvictedOnce(s)
    && (forall j | 0 <= j < |s.store.history| :: ToldOk(s, j))
    && (forall ref: nat, h: nat | h in Store.Members(s.store, ref) :: MemberOk(s, ref, h))
  }

  ghost predicate Inv(s: State) {
    ChatProtocol.Inv(s) && TiedExcept(s, {})
  }

  /** A dropped handler's actor has nothing in hand, and nobody can hand it anything. */
  lemma DroppedIsIdle(s: State, h: nat)
    requires ChatProtocol.Inv(s) && h < |s.hs| && !Current(s, h)
    ensures s.hs[h].actor == Idle
    ensures forall c | 0 <= c < |s.sessions| && ChatProtocol.Waiting(s.sessions[c]) :: s.sessions[c].h != h
  {
    assert ChatProtocol.ActorOk(s, h);
    forall c | 0 <= c < |s.sessions| && ChatProtocol.Waiting(s.sessions[c]) ensures s.sessions[c].h != h {
      assert ChatProtocol.SessionOk(s, c);
    }
  }

  // ---- Frames ----

  ghost predicate RequestsExtend(s: State, s': State) {
    && |s.requests| <= |s'.requests|
    && forall r | 0 <= r < |s.requests| :: WorkOf(s', r) == WorkOf(s, r)
         && (s.requests[r].call.Some? ==> s'.requests[r].call == s.requests[r].call)
  }

  lemma ActorFrame(s: State, s': State, g: nat)
    requires g < |s.hs| && ActorCallOk(s, g) && g < |s'.hs| && s'.hs[g].actor == s.hs[g].actor
    requires RequestsExtend(s, s') && Extends(s.store, s'.store, g)
    requires CallOf(s.hs[g].actor).Some? ==>
               var t := CallOf(s.hs[g].actor).value; t < |s.store.calls| && s'.store.calls[t].pc == s.store.calls[t].pc
    ensures ActorCallOk(s', g)
  {
  }

  /** Nothing happens in the store; the pool may gain handlers, and at most actor `h` moves. */
  lemma SameStore(s: State, s': State, free: set<nat>, h: nat)
    requires TiedExcept(s, free) && free <= {h} && s'.store == s.store && RequestsExtend(s, s')
    requires |s.hs| <= |s'.hs|
    requires forall g | 0 <= g < |s.hs| ::
               s'.hs[g].nick == s.hs[g].nick && (Current(s', g) <==> Current(s, g))
               && (g != h ==> s'.hs[g].actor == s.hs[g].actor)
    requires forall g | |s.hs| <= g < |s'.hs| :: s'.hs[g].actor == Idle
    requires h < |s.hs| ==> ActorCallOk(s', h)
    requires h < |s.hs| && h !in free ==> CallOf(s'.hs[h].actor) == CallOf(s.hs[h].actor)
    ensures TiedExcept(s', {})
  {
    forall g | 0 <= g < |s'.hs| ensures ActorCallOk(s', g) {
      if g < |s.hs| && g != h { ActorFrame(s, s', g); }
    }
    forall t | 0 <= t < |s'.store.calls| ensures CallOwned(s', t, {}) && EvictOk(s', t) && NotifyOk(s', t) {
      assert CallOwned(s, t, free) && EvictOk(s, t) && NotifyOk(s, t);
    }
    forall j | 0 <= j < |s'.store.history| ensures ToldOk(s', j) { assert ToldOk(s, j); }
    forall ref: nat, g: nat | g in Store.Members(s'.store, ref) ensures MemberOk(s', ref, g) {
      assert MemberOk(s, ref, g);
      if !Current(s, g) {
        var t: nat :| EvictPending(s, t, s.store.channels[ref].name, g);
        assert EvictPending(s', t, s'.store.channels[ref].name, g);
      }
    }
  }

  // ---- Starting a call ----

  /** Handler `h`, with no call in flight, starts one; everything else stays. */
  lemma StartCall(s: State, s': State, free: set<nat>, h: nat, op: Op<nat>)
    requires TiedExcept(s, free) && free <= {h} && h < |s.hs| && op.user == h && op.kind != Evict
    requires h in free || CallOf(s.hs[h].actor) == None
    requires s'.store == Store.Start(s.store, op) && RequestsExtend(s, s')
    requires |s'.hs| == |s.hs| && s'.handlers == s.handlers
    requires forall g | 0 <= g < |s.hs| :: s'.hs[g].nick == s.hs[g].nick && (g != h ==> s'.hs[g].actor == s.hs[g].actor)
    requires CallOf(s'.hs[h].actor) == Some(|s.store.calls|) && ActorCallOk(s', h)
    ensures TiedExcept(s', {})
  {
    forall t: nat | t < |s.store.calls| ensures !Store.OwnCall(s.store, t, h) { assert CallOwned(s, t, free); }
    StoreProofs.StartKeeps(s.store, op);
    forall g | 0 <= g < |s'.hs| ensures ActorCallOk(s', g) { if g != h { ActorFrame(s, s', g); } }
    forall t | 0 <= t < |s'.store.calls| ensures CallOwned(s', t, {}) && EvictOk(s', t) && NotifyOk(s', t) {
      StartedCall(s, s', free, h, op, t);
    }
    forall j | 0 <= j < |s'.store.history| ensures ToldOk(s', j) {
      if j < |s.store.history| { assert ToldOk(s, j); }
    }
    StartedMembers(s, s', op);
  }

  lemma StartedMembers(s: State, s': State, op: Op<nat>)
    requires forall ref: nat, g: nat | g in Store.Members(s.store, ref) :: MemberOk(s, ref, g)
    requires s'.store == Store.Start(s.store, op) && |s'.hs| == |s.hs| && s'.handlers == s.handlers
    requires forall g | 0 <= g < |s.hs| :: s'.hs[g].nick == s.hs[g].nick
    ensures forall ref: nat, g: nat | g in Store.Members(s'.store, ref) :: MemberOk(s', ref, g)
  {
    MembersFrame(s, s', {});
  }

  lemma StartedCall(s: State, s': State, free: set<nat>, h: nat, op: Op<nat>, t: nat)
    requires free <= {h} && h < |s.hs| && op.user == h && op.kind != Evict
    requires h in free || CallOf(s.hs[h].actor) == None
    requires s'.store == Store.Start(s.store, op) && |s'.hs| == |s.hs| && s'.handlers == s.handlers
    requires forall g | 0 <= g < |s.hs| :: s'.hs[g].nick == s.hs[g].nick && (g != h ==> s'.hs[g].actor == s.hs[g].actor)
    requires CallOf(s'.hs[h].actor) == Some(|s.store.calls|)
    requires t < |s.store.calls| ==> CallOwned(s, t, free) && EvictOk(s, t) && NotifyOk(s, t)
    requires t <= |s.store.calls|
    ensures CallOwned(s', t, {}) && EvictOk(s', t) && NotifyOk(s', t)
  {
  }

  /** Members stay explained when pending evictions stay pending and no user outside `gone` becomes a member. */
  lemma MembersFrame(s: State, s': State, gone: set<nat>)
    requires forall ref: nat, g: nat | g in Store.Members(s.store, ref) :: MemberOk(s, ref, g)
    requires |s.hs| <= |s'.hs| && |s.store.channels| <= |s'.store.channels|
    requires forall r | 0 <= r < |s.store.channels| :: s'.store.channels[r].name == s.store.channels[r].name
    requires forall ref: nat, g: nat | g in Store.Members(s'.store, ref) && g !in gone ::
             g in Store.Members(s.store, ref)
    requires forall g: nat | Current(s, g) && g !in gone :: Current(s', g)
    requires forall t: nat, name: string, g: nat | EvictPending(s, t, name, g) && g !in gone ::
             EvictPending(s', t, name, g)
    ensures forall ref: nat, g: nat | g in Store.Members(s'.store, ref) && g !in gone :: MemberOk(s', ref, g)
  {
    forall ref: nat, g: nat | g in Store.Members(s'.store, ref) && g !in gone ensures MemberOk(s', ref, g) {
      assert MemberOk(s, ref, g);
      if !Current(s, g) {
        var t: nat :| EvictPending(s, t, s.store.channels[ref].name, g);
        assert EvictPending(s', t, s'.store.channels[ref].name, g);
      }
    }
  }

  // ---- Advancing a user's own call ----

  /** The call of handler `h` takes one step. If it has returned, `h` is free to go on. */
  lemma AdvanceOwn(s: State, s': State, h: nat, t: nat)
    requires Inv(s) && h < |s.hs| && CallOf(s.hs[h].actor) == Some(t) && Store.Running(s.store, t)
    requires s' == s.(store := Store.Advance(s.store, t))
    ensures TiedExcept(s', if s'.store.calls[t].pc.Done? then {h} else {})
  {
    assert ActorCallOk(s, h);
    AdvanceFrame(s.store, t);
    StoreProofs.ApplyKeeps(s.store, Store.AdvanceCall(t));
    ActiveIsCurrent(s, h);
    OwnStepKeeps(s, s', h, t);
  }

  lemma OwnStepKeeps(s: State, s': State, h: nat, t: nat)
    requires OwnStep(s, s', h, t) && StoreProofs.Inv(s'.store)
    ensures TiedExcept(s', if s'.store.calls[t].pc.Done? then {h} else {})
  {
    var free := if s'.store.calls[t].pc.Done? then {h} else {};
    AdvanceActors(s, s', h, t);
    AdvanceAllCalls(s, s', h, t, free);
    forall j | 0 <= j < |s'.store.history| ensures ToldOk(s', j) { AdvanceTold(s, s', t, j); }
    AdvanceMembers(s, s', h, t);
  }

  lemma AdvanceAllCalls(s: State, s': State, h: nat, t: nat, free: set<nat>)
    requires OwnStep(s, s', h, t) && free == if s'.store.calls[t].pc.Done? then {h} else {}
    ensures EvictedOnce(s')
    ensures forall u | 0 <= u < |s'.store.calls| :: CallOwned(s', u, free) && EvictOk(s', u) && NotifyOk(s', u)
  {
    forall u | 0 <= u < |s'.store.calls| ensures CallOwned(s', u, free) && EvictOk(s', u) && NotifyOk(s', u) {
      assert CallOwned(s, u, {}) && EvictOk(s, u) && NotifyOk(s, u);
      AdvanceCalls(s, s', h, t, u);
    }
  }

  lemma AdvanceMembers(s: State, s': State, h: nat, t: nat)
    requires OwnStep(s, s', h, t)
    ensures forall ref: nat, g: nat | g in Store.Members(s'.store, ref) :: MemberOk(s', ref, g)
  {
    forall ref: nat, g: nat | g in Store.Members(s'.store, ref) && g !in {h} ensures g in Store.Members(s.store, ref) {
      assert Extends(s.store, s'.store, g);
    }
    MembersFrame(s, s', {h});
  }

  /** An actor with a request in hand belongs to a handler that is in the pool. */
  lemma ActiveIsCurrent(s: State, h: nat)
    requires ChatProtocol.Inv(s) && h < |s.hs| && RequestOf(s.hs[h].actor).Some?
    ensures Current(s, h)
  {
    assert ChatProtocol.ActorOk(s, h);
    assert ChatProtocol.SessionOk(s, s.requests[RequestOf(s.hs[h].actor).value].owner);
  }

  ghost predicate OwnStep(s: State, s': State, h: nat, t: nat) {
    && TiedExcept(s, {}) && h < |s.hs| && CallOf(s.hs[h].actor) == Some(t) && Store.Running(s.store, t)
    && s.store.calls[t].op.user == h && s.store.calls[t].op.kind != Evict && Current(s, h)
    && s' == s.(store := s'.store) && Advanced(s.store, s'.store, t)
  }

  lemma AdvanceActors(s: State, s': State, h: nat, t: nat)
    requires OwnStep(s, s', h, t)
    ensures forall g | 0 <= g < |s.hs| && g != h :: ActorCallOk(s', g)
    ensures !s'.store.calls[t].pc.Done? ==> ActorCallOk(s', h)
  {
    forall g | 0 <= g < |s.hs| && g != h ensures ActorCallOk(s', g) {
      assert ActorCallOk(s, g) && ActorCallOk(s, h);
      ActorFrame(s, s', g);
    }
    OwnActorStays(s, s', h, t);
  }

  lemma OwnActorStays(s: State, s': State, h: nat, t: nat)
    requires OwnStep(s, s', h, t)
    ensures !s'.store.calls[t].pc.Done? ==> ActorCallOk(s', h)
  {
    assert ActorCallOk(s, h) && StoreProofs.CallOk(s.store, s.store.calls[t]);
  }

  lemma AdvanceCalls(s: State, s': State, h: nat, t: nat, u: nat)
    requires OwnStep(s, s', h, t) && u < |s.store.calls|
    requires CallOwned(s, u, {}) && EvictOk(s, u) && NotifyOk(s, u)
    ensures CallOwned(s', u, if s'.store.calls[t].pc.Done? then {h} else {}) && EvictOk(s', u) && NotifyOk(s', u)
  {
    var c := s.store.calls[u];
    assert StoreProofs.CallOk(s.store, c) && StoreProofs.Marked(s.store, u);
    assert u != t ==> c.pc.Done? || c.op.kind == Evict || c.op.user != h;
    assert c.op.user != h ==> Extends(s.store, s'.store, c.op.user);
  }

  lemma AdvanceTold(s: State, s': State, t: nat, j: nat)
    requires TiedExcept(s, {}) && Store.Running(s.store, t) && Advanced(s.store, s'.store, t)
    requires j < |s'.store.history|
    ensures ToldOk(s', j)
  {
    if j < |s.store.history| {
      assert ToldOk(s, j);
    } else if s.store.calls[t].pc.Notify? {
      assert NotifyOk(s, t) && EvictOk(s, t);
    }
  }

  // ---- Evictions ----

  ghost predicate EvictStepOf(s: State, s': State, t: nat) {
    && TiedExcept(s, {}) && Store.Running(s.store, t) && s.store.calls[t].op.kind == Evict
    && s.store.calls[t].op.user < |s.hs| && s.hs[s.store.calls[t].op.user].actor == Idle
    && s' == s.(store := s'.store) && Advanced(s.store, s'.store, t)
  }

  lemma EvictKeeps(s: State, s': State, t: nat)
    requires Inv(s) && Store.Running(s.store, t) && s.store.calls[t].op.kind == Evict
    requires s' == s.(store := Store.Advance(s.store, t))
    ensures TiedExcept(s', {})
  {
    assert EvictOk(s, t);
    DroppedIsIdle(s, s.store.calls[t].op.user);
    AdvanceFrame(s.store, t);
    StoreProofs.ApplyKeeps(s.store, Store.AdvanceCall(t));
    EvictStepKeeps(s, s', t);
  }

  lemma EvictStepKeeps(s: State, s': State, t: nat)
    requires EvictStepOf(s, s', t) && StoreProofs.Inv(s'.store)
    ensures TiedExcept(s', {})
  {
    assert EvictOk(s, t);
    EvictActors(s, s', t);
    EvictCalls(s, s', t);
    forall j | 0 <= j < |s'.store.history| ensures ToldOk(s', j) { AdvanceTold(s, s', t, j); }
    EvictMembers(s, s', t);
  }

  lemma EvictCalls(s: State, s': State, t: nat)
    requires EvictStepOf(s, s', t)
    ensures EvictedOnce(s')
    ensures forall u | 0 <= u < |s'.store.calls| :: CallOwned(s', u, {}) && EvictOk(s', u) && NotifyOk(s', u)
  {
    assert EvictOk(s, t);
    forall u | 0 <= u < |s'.store.calls| ensures CallOwned(s', u, {}) && EvictOk(s', u) && NotifyOk(s', u) {
      assert CallOwned(s, u, {}) && EvictOk(s, u) && NotifyOk(s, u);
      if u == t { EvictItself(s, s', t); } else { EvictOthers(s, s', t, u); }
    }
  }

  lemma EvictActors(s: State, s': State, t: nat)
    requires EvictStepOf(s, s', t)
    ensures forall g | 0 <= g < |s.hs| :: ActorCallOk(s', g)
  {
    forall g | 0 <= g < |s.hs| ensures ActorCallOk(s', g) {
      assert ActorCallOk(s, g);
      if g != s.store.calls[t].op.user {
        assert Extends(s.store, s'.store, g);
        ActorFrame(s, s', g);
      }
    }
  }

  /** An eviction that passed its check removes its member: nothing else could have. */
  lemma EvictItself(s: State, s': State, t: nat)
    requires EvictStepOf(s, s', t) && EvictOk(s, t)
    ensures EvictOk(s', t) && CallOwned(s', t, {}) && NotifyOk(s', t)
  {
    var op := s.store.calls[t].op;
    assert StoreProofs.CallOk(s.store, s.store.calls[t]);
    if s.store.calls[t].pc.Change? {
      forall w: nat ensures !Store.PendingLeave(s.store, w, op.user, s.store.calls[t].pc.ref) {
        if w < |s.store.calls| { assert CallOwned(s, w, {}); }
      }
      assert NoLeave(s.store, op.user, s.store.calls[t].pc.ref);
    }
  }

  lemma EvictOthers(s: State, s': State, t: nat, u: nat)
    requires EvictStepOf(s, s', t) && u < |s.store.calls| && u != t
    requires CallOwned(s, u, {}) && EvictOk(s, u) && EvictOk(s, t) && NotifyOk(s, u)
    ensures CallOwned(s', u, {}) && EvictOk(s', u) && NotifyOk(s', u)
  {
    var c, e := s.store.calls[u], s.store.calls[t];
    assert StoreProofs.CallOk(s.store, c) && StoreProofs.CallOk(s.store, e) && StoreProofs.Marked(s.store, u);
    if c.op.user != e.op.user {
      assert Extends(s.store, s'.store, c.op.user);
    } else if c.op.kind == Evict {
      assert c.op.name != e.op.name;
    }
  }

  lemma EvictMembers(s: State, s': State, t: nat)
    requires EvictStepOf(s, s', t) && EvictOk(s, t)
    ensures forall ref: nat, g: nat | g in Store.Members(s'.store, ref) :: MemberOk(s', ref, g)
  {
    var op := s.store.calls[t].op;
    assert StoreProofs.CallOk(s.store, s.store.calls[t]);
    forall ref: nat, g: nat | g in Store.Members(s'.store, ref) ensures g in Store.Members(s.store, ref) {
      assert g != op.user ==> Extends(s.store, s'.store, g);
    }
    MembersFrame(s, s', {op.user});
    forall ref: nat | op.user in Store.Members(s'.store, ref) ensures MemberOk(s', ref, op.user) {
      assert MemberOk(s, ref, op.user);
      if !Current(s, op.user) {
        var w: nat :| EvictPending(s, w, s.store.channels[ref].name, op.user);
        assert EvictPending(s', w, s'.store.channels[ref].name, op.user);
      }
    }
  }

  // ---- Dropping a handler ----

  lemma {:induction false} EvictionsFrame(store: Store.State, order: seq<string>, h: nat)
    requires StoreProofs.Inv(store)
    ensures var store' := Evictions(store, order, h);
      && StoreProofs.Inv(store') && store'.names == store.names && store'.channels == store.channels
      && |store'.calls| == |store.calls| + |order| && store'.calls[..|store.calls|] == store.calls
      && (forall k | 0 <= k < |order| ::
            var c := store'.calls[|store.calls| + k]; c.op == Op(Evict, order[k], h) && c.pc == Store.Lookup)
      && |store'.history| == |store.history| + |order| && store'.history[..|store.history|] == store.history
      && (forall j | |store.history| <= j < |store'.history| :: store'.history[j].Invoked?)
  {
    if order != [] {
      var n, m := |order| - 1, |store.calls|;
      var before := Evictions(store, order[..n], h);
      EvictionsFrame(store, order[..n], h);
      StoreProofs.StartKeeps(before, Op(Evict, order[n], h));
      var after := Evictions(store, order, h);
      assert after == Store.Start(before, Op(Evict, order[n], h));
      forall k | 0 <= k < |order|
        ensures after.calls[m + k].op == Op(Evict, order[k], h) && after.calls[m + k].pc == Store.Lookup
      {
        if k < n { assert order[..n][k] == order[k] && after.calls[m + k] == before.calls[m + k]; }
      }
      forall j | |store.history| <= j < |after.history| ensures after.history[j].Invoked? {
        if j < |before.history| { assert after.history[j] == before.history[j]; }
      }
    }
  }

  /** What a store looks like after the removals of a disconnect have been started. */
  ghost predicate Evicting(store: Store.State, store': Store.State, names: seq<string>, h: nat) {
    && StoreProofs.Inv(store') && store'.names == store.names && store'.channels == store.channels
    && |store'.calls| == |store.calls| + |names|
    && (forall u | 0 <= u < |store.calls| :: store'.calls[u] == store.calls[u])
    && (forall u | |store.calls| <= u < |store'.calls| ::
          store'.calls[u].op == Op(Evict, names[u - |store.calls|], h) && store'.calls[u].pc == Store.Lookup)
    && |store.history| <= |store'.history|
    && (forall j | 0 <= j < |store.history| :: store'.history[j] == store.history[j])
    && (forall j | |store.history| <= j < |store'.history| :: store'.history[j].Invoked?)
  }

  lemma StartsEvicting(store: Store.State, names: seq<string>, h: nat)
    requires StoreProofs.Inv(store)
    ensures Evicting(store, Evictions(store, names, h), names, h)
  {
    var store', n := Evictions(store, names, h), |store.calls|;
    EvictionsFrame(store, names, h);
    assert forall u | 0 <= u < n :: store'.calls[u] == store'.calls[..n][u];
    assert forall j | 0 <= j < |store.history| :: store'.history[j] == store'.history[..|store.history|][j];
    assert forall u | n <= u < |store'.calls| :: store'.calls[u] == store'.calls[n + (u - n)];
  }

  ghost predicate Drop(s: State, s': State, names: seq<string>, h: nat) {
    && TiedExcept(s, {}) && Current(s, h) && s.hs[h].actor == Idle
    && Enumerates(names, s.store.names.Keys) && Evicting(s.store, s'.store, names, h)
    && s'.hs == s.hs && s'.requests == s.requests && s'.handlers == s.handlers - {s.hs[h].nick}
  }

  /** `h` leaves the pool and one removal is started for every channel; its actor is idle. */
  lemma DropKeeps(s: State, s': State, names: seq<string>, h: nat)
    requires Drop(s, s', names, h)
    ensures TiedExcept(s', {})
  {
    forall g | 0 <= g < |s'.hs| ensures ActorCallOk(s', g) { DropActors(s, s', names, h, g); }
    forall t | 0 <= t < |s'.store.calls| ensures CallOwned(s', t, {}) && EvictOk(s', t) && NotifyOk(s', t) {
      DropCalls(s, s', names, h, t);
    }
    DropOnce(s, s', names, h);
    forall j | 0 <= j < |s'.store.history| ensures ToldOk(s', j) {
      if j < |s.store.history| { assert ToldOk(s, j); }
    }
    DropMembers(s, s', names, h);
  }

  lemma DropActors(s: State, s': State, names: seq<string>, h: nat, g: nat)
    requires Drop(s, s', names, h) && g < |s.hs|
    ensures ActorCallOk(s', g)
  {
    assert ActorCallOk(s, g);
    ActorFrame(s, s', g);
  }

  lemma DropCalls(s: State, s': State, names: seq<string>, h: nat, t: nat)
    requires Drop(s, s', names, h) && t < |s'.store.calls|
    ensures CallOwned(s', t, {}) && EvictOk(s', t) && NotifyOk(s', t)
  {
    if t < |s.store.calls| {
      assert CallOwned(s, t, {}) && EvictOk(s, t) && NotifyOk(s, t) && StoreProofs.CallOk(s.store, s.store.calls[t]);
      assert StoreProofs.Marked(s.store, t);
    } else {
      assert "" !in s.store.names;
    }
  }

  lemma DropOnce(s: State, s': State, names: seq<string>, h: nat)
    requires Drop(s, s', names, h)
    ensures EvictedOnce(s')
  {
    forall t, u | 0 <= t < |s'.store.calls| && 0 <= u < |s'.store.calls|
      && s'.store.calls[t].op.kind == Evict && s'.store.calls[t].op == s'.store.calls[u].op
      ensures t == u
    {
      assert t < |s.store.calls| ==> EvictOk(s, t);
      assert u < |s.store.calls| ==> EvictOk(s, u);
    }
  }

  lemma DropMembers(s: State, s': State, names: seq<string>, h: nat)
    requires Drop(s, s', names, h)
    ensures forall ref: nat, g: nat | g in Store.Members(s'.store, ref) :: MemberOk(s', ref, g)
  {
    assert forall t: nat, name: string, g: nat | EvictPending(s, t, name, g) :: EvictPending(s', t, name, g);
    MembersFrame(s, s', {h});
    forall ref: nat | h in Store.Members(s'.store, ref) ensures MemberOk(s', ref, h) {
      var name := s.store.channels[ref].name;
      assert name in names;
      var k :| 0 <= k < |names| && names[k] == name;
      assert EvictPending(s', |s.store.calls| + k, s'.store.channels[ref].name, h);
    }
  }
}
