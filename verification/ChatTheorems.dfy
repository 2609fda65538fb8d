/** What holds in every reachable state of the chat, and along every run. */
module ChatTheorems {
  import opened Collections
  import opened StoreSpec
  import opened Protocol
  import opened ChatSystem
  import opened ChatMembership
  import opened ChatLogs
  import Store = StoreMachine
  import StoreFrame
  import StoreProofs
  import ChatProtocol
  import ChatInvariant

  ghost predicate Reachable(s: State) {
    exists trace: seq<State> :: Run(trace) && trace[|trace| - 1] == s
  }

  lemma {:induction false} RunLogs(trace: seq<State>)
    requires Run(trace)
    ensures LogsOk(trace[|trace| - 1]) && ConnsKnown(trace[|trace| - 1])
  {
    if |trace| > 1 {
      var a := ChatInvariant.LastStep(trace);
      RunLogs(trace[..|trace| - 1]);
      ChatInvariant.RunKeeps(trace[..|trace| - 1]);
      ApplyKeepsLogs(trace[|trace| - 2], a);
      ApplyKeepsConns(trace[|trace| - 2], a);
    }
  }

  lemma ReachableInv(s: State)
    requires Reachable(s)
    ensures Inv(s) && LogsOk(s) && ConnsKnown(s)
  {
    var trace: seq<State> :| Run(trace) && trace[|trace| - 1] == s;
    ChatInvariant.RunKeeps(trace);
    RunLogs(trace);
  }

  // ---- Pool and sessions ----

  /** GetHandler finds a nick exactly while it has a live connection, and the handler has exactly those connections. */
  lemma PoolIsLiveConnections(s: State)
    requires Reachable(s)
    ensures forall n :: n in s.handlers <==> ChatProtocol.Live(s, n) != {}
    ensures forall n | n in s.handlers ::
              s.handlers[n] < |s.hs| && s.hs[s.handlers[n]].nick == n
                && ConnsOf(s, s.handlers[n]) == ChatProtocol.Live(s, n)
    ensures forall m, n | m in s.handlers && n in s.handlers && m != n ::
              ConnsOf(s, s.handlers[m]) !! ConnsOf(s, s.handlers[n])
    ensures forall n, c | c in ChatProtocol.Live(s, n) :: c in s.connNick && s.connNick[c] == n
  {
    ReachableInv(s);
    forall n | ChatProtocol.Live(s, n) != {} ensures n in s.handlers {
      var c :| c in ChatProtocol.Live(s, n);
    }
  }

  /** A session is registered at most once and unregistered exactly once if it was; its lookups never fail. */
  lemma SessionsMatchPool(s: State)
    requires Reachable(s)
    ensures forall c: nat :: Attaches(s.log, c) <= 1
    ensures forall c | 0 <= c < |s.sessions| && s.sessions[c].Closed? :: Detaches(s.log, c) == Attaches(s.log, c)
    ensures forall c | 0 <= c < |s.sessions| && !s.sessions[c].Closed? :: Detaches(s.log, c) == 0
    ensures forall c | 0 <= c < |s.sessions| :: Attaches(s.log, c) == 1 <==> EverLogged(s.sessions[c]).Some?
    ensures forall j | 0 <= j < |s.log| && s.log[j].Attached? ::
              s.log[j].conn < |s.sessions| && EverLogged(s.sessions[s.log[j].conn]) == Some(s.log[j].nick)
    ensures forall c | 0 <= c < |s.sessions| && ChatProtocol.LoginOf(s.sessions[c]).Some? ::
              var n := ChatProtocol.LoginOf(s.sessions[c]).value; n in s.handlers && c in ConnsOf(s, s.handlers[n])
    ensures forall j | 0 <= j < |s.log| :: !s.log[j].HandlerMissing? && !s.log[j].DropFailed?
  {
    ReachableInv(s);
    forall c: nat
      ensures Attaches(s.log, c) <= 1
      ensures c < |s.sessions| ==>
                && (s.sessions[c].Closed? ==> Detaches(s.log, c) == Attaches(s.log, c))
                && (!s.sessions[c].Closed? ==> Detaches(s.log, c) == 0)
                && (Attaches(s.log, c) == 1 <==> EverLogged(s.sessions[c]).Some?)
    {
      assert RegisteredOk(s, c);
    }
    forall j | 0 <= j < |s.log|
      ensures !s.log[j].HandlerMissing? && !s.log[j].DropFailed? && AttachedOk(s, j)
    {
      assert ChatProtocol.ReplyOk(s, j);
    }
    forall c | 0 <= c < |s.sessions| && ChatProtocol.LoginOf(s.sessions[c]).Some?
      ensures var n := ChatProtocol.LoginOf(s.sessions[c]).value; n in s.handlers && c in ConnsOf(s, s.handlers[n])
    {
      assert c in ChatProtocol.Live(s, ChatProtocol.LoginOf(s.sessions[c]).value);
    }
  }

  // ---- Requests and replies ----

  /** Session `c` is owed an answer by the actor of `h`. */
  predicate Owed(s: State, c: nat, h: nat) {
    c < |s.sessions| && s.sessions[c].Awaiting? && s.sessions[c].h == h
  }

  /** An actor is busy exactly when one session, and only one, is owed its answer; it never panics. */
  lemma OneSessionIsOwed(s: State, h: nat)
    requires Reachable(s) && h < |s.hs|
    ensures s.hs[h].actor != Crashed
    ensures s.hs[h].actor != Idle <==> exists c: nat :: Owed(s, c, h)
    ensures forall c: nat, d: nat | Owed(s, c, h) && Owed(s, d, h) :: c == d
    ensures forall c: nat | Owed(s, c, h) ::
              RequestOf(s.hs[h].actor) == Some(s.sessions[c].r) && s.sessions[c].r < |s.requests|
              && s.requests[s.sessions[c].r].owner == c
  {
    ReachableInv(s);
    assert ChatProtocol.ActorOk(s, h);
    forall c: nat | Owed(s, c, h)
      ensures RequestOf(s.hs[h].actor) == Some(s.sessions[c].r) && s.sessions[c].r < |s.requests|
      ensures s.requests[s.sessions[c].r].owner == c
    {
      assert ChatProtocol.SessionOk(s, c);
    }
    if s.hs[h].actor != Idle {
      var r := RequestOf(s.hs[h].actor).value;
      assert Owed(s, s.requests[r].owner, h);
    }
  }

  ghost predicate Answered(s: State, r: nat) {
    exists j :: 0 <= j < |s.log| && s.log[j].Replied? && s.log[j].r == r
  }

  /** The session that made request `r` is still in MakeRequest with it. */
  ghost predicate Pending(s: State, r: nat)
    requires r < |s.requests|
  {
    var c := s.requests[r].owner;
    c < |s.sessions| && ChatProtocol.Waiting(s.sessions[c]) && s.sessions[c].r == r
  }

  /** Every answer goes to the session that made the request, once; and no request is ever forgotten. */
  lemma RepliesDoNotCross(s: State)
    requires Reachable(s)
    ensures forall j | 0 <= j < |s.log| && s.log[j].Replied? ::
              s.log[j].r < |s.requests| && s.requests[s.log[j].r].owner == s.log[j].to
    ensures forall j, k | 0 <= j < |s.log| && 0 <= k < |s.log| && s.log[j].Replied? && s.log[k].Replied? ::
              s.log[j].r == s.log[k].r ==> j == k
    ensures forall r | 0 <= r < |s.requests| :: Answered(s, r) || Pending(s, r)
  {
    ReachableInv(s);
    forall j | 0 <= j < |s.log| && s.log[j].Replied?
      ensures s.log[j].r < |s.requests| && s.requests[s.log[j].r].owner == s.log[j].to
      ensures s.requests[s.log[j].r].reply == Some(j)
    {
      assert ChatProtocol.ReplyOk(s, j);
    }
    forall r | 0 <= r < |s.requests| ensures Answered(s, r) || Pending(s, r) {
      assert ChatProtocol.AnswerOk(s, r);
      assert s.requests[r].reply.Some? ==> s.log[s.requests[r].reply.value].r == r;
    }
  }

  /** A request an actor is about to take is one it has a branch for, with the payload type that branch asserts. */
  lemma ForwardedIsHandled(s: State, c: nat)
    requires Reachable(s) && CanRendezvous(s, c)
    ensures var q := s.requests[s.sessions[c].r];
      Accepted(q.action, q.payload) && q.owner == c && q.h == s.sessions[c].h && q.reply == None
    ensures RequestOf(Rendezvous(s, c).hs[s.sessions[c].h].actor) == Some(s.sessions[c].r)
  {
    ReachableInv(s);
    assert ChatProtocol.SessionOk(s, c);
    ChatProtocol.RendezvousEffect(s, c);
  }

  // ---- No ghost members ----

  ghost predicate Evicting(s: State, t: nat, h: nat) {
    Store.Running(s.store, t) && s.store.calls[t].op.kind == Evict && s.store.calls[t].op.user == h
  }

  ghost predicate InAnyChannel(s: State, h: nat) {
    exists name :: InChannel(s, name, h)
  }

  /** A handler that has left the pool for good, with no removal of it under way. */
  ghost predicate Gone(s: State, h: nat) {
    h < |s.hs| && !Current(s, h) && forall t: nat :: !Evicting(s, t, h)
  }

  /** A dropped handler whose removals have finished is in no channel. */
  lemma GoneIsNoMember(s: State, h: nat)
    requires Reachable(s) && Gone(s, h)
    ensures !InAnyChannel(s, h)
  {
    ReachableInv(s);
    forall name | name in s.store.names ensures !InChannel(s, name, h) {
      var ref := s.store.names[name];
      if h in Store.Members(s.store, ref) {
        assert MemberOk(s, ref, h);
        var t: nat :| EvictPending(s, t, s.store.channels[ref].name, h);
        assert Evicting(s, t, h);
      }
    }
  }

  /** Nothing of handler `h` is left: not in the pool, in no channel, idle, and no session can reach it. */
  ghost predicate Forgotten(s: State, h: nat) {
    && Gone(s, h) && !InAnyChannel(s, h) && s.hs[h].actor == Idle
    && forall c | 0 <= c < |s.sessions| && ChatProtocol.Waiting(s.sessions[c]) :: s.sessions[c].h != h
  }

  /** Once gone, gone for the rest of any run. */
  lemma GoneForever(trace: seq<State>, i: nat, h: nat)
    requires Run(trace) && i < |trace| && Gone(trace[i], h)
    ensures Forgotten(trace[|trace| - 1], h)
  {
    GoneUntil(trace, i, h);
    GoneIsForgotten(trace, h);
  }

  lemma {:induction false} GoneUntil(trace: seq<State>, i: nat, h: nat)
    requires Run(trace) && i < |trace| && Gone(trace[i], h)
    ensures Gone(trace[|trace| - 1], h)
    decreases |trace|
  {
    if i < |trace| - 1 {
      var before := trace[..|trace| - 1];
      GoneUntil(before, i, h);
      assert Next(trace[|trace| - 2], trace[|trace| - 2 + 1]);
      GoneStep(before, trace[|trace| - 1], h);
    }
  }

  lemma GoneStep(trace: seq<State>, s': State, h: nat)
    requires Run(trace) && Next(trace[|trace| - 1], s') && Gone(trace[|trace| - 1], h)
    ensures Gone(s', h)
  {
    var s := trace[|trace| - 1];
    ChatInvariant.RunKeeps(trace);
    var a :| Enabled(s, a) && s' == Apply(s, a);
    GoneStays(s, a, h);
  }

  lemma GoneIsForgotten(trace: seq<State>, h: nat)
    requires Run(trace) && Gone(trace[|trace| - 1], h)
    ensures Forgotten(trace[|trace| - 1], h)
  {
    ReachableInv(trace[|trace| - 1]);
    DroppedIsIdle(trace[|trace| - 1], h);
    GoneIsNoMember(trace[|trace| - 1], h);
  }

  lemma GoneStays(s: State, a: Action, h: nat)
    requires Inv(s) && Enabled(s, a) && Gone(s, h)
    ensures Gone(Apply(s, a), h)
  {
    DroppedStays(s, a, h);
    NoNewEvictions(s, a, h);
  }

  lemma DroppedStays(s: State, a: Action, h: nat)
    requires Inv(s) && Enabled(s, a) && h < |s.hs| && !Current(s, h)
    ensures h < |Apply(s, a).hs| && !Current(Apply(s, a), h)
  {
    if a.DoReceive? { ChatInvariant.ReceiveFrame(s, a.c, a.msg, a.valid); }
    else if a.DoRendezvous? { ChatProtocol.RendezvousEffect(s, a.c); }
    else if a.DoActorStep? { ChatProtocol.ActorStepEffect(s, a.h, a.order); }
    else if a.DoShut? { DroppedStaysOut(s, a.c, a.names, h); }
    else { ChatProtocol.PoolStays(s, a); }
  }

  lemma DroppedStaysOut(s: State, c: nat, names: seq<string>, h: nat)
    requires ChatProtocol.Inv(s) && CanShut(s, c, names) && h < |s.hs| && !Current(s, h)
    ensures h < |Shut(s, c, names).hs| && !Current(Shut(s, c, names), h)
  {
    if s.sessions[c].login.Some? { ChatProtocol.ShutEffect(s, c, names); }
  }

  /** Removals of a handler are only ever started by the step that drops it. */
  lemma NoNewEvictions(s: State, a: Action, h: nat)
    requires Inv(s) && Enabled(s, a) && h < |s.hs| && !Current(s, h)
    ensures forall t: nat | Evicting(Apply(s, a), t, h) :: Evicting(s, t, h)
  {
    if a.DoRendezvous? { RendezvousStarts(s, a.c); }
    else if a.DoActorStep? { ActorStarts(s, a.h, a.order); }
    else if a.DoEvict? { StoreFrame.AdvanceFrame(s.store, a.t); }
    else if a.DoShut? { ShutStarts(s, a.c, a.names, h); }
    else { ChatProtocol.StoreStays(s, a); }
  }

  lemma RendezvousStarts(s: State, c: nat)
    requires ChatProtocol.Inv(s) && CanRendezvous(s, c)
    ensures forall t: nat, h: nat | Evicting(Rendezvous(s, c), t, h) :: Evicting(s, t, h)
  {
    ChatInvariant.TakenCall(s, c);
  }

  lemma ActorStarts(s: State, g: nat, order: seq<nat>)
    requires Inv(s) && CanActorStep(s, g, order)
    ensures forall t: nat, h: nat | Evicting(ActorStep(s, g, order), t, h) :: Evicting(s, t, h)
  {
    ChatProtocol.ActorStepEffect(s, g, order);
    StoreFrame.AdvanceFrame(s.store, CallOf(s.hs[g].actor).value);
  }

  lemma ShutStarts(s: State, c: nat, names: seq<string>, h: nat)
    requires Inv(s) && CanShut(s, c, names) && h < |s.hs| && !Current(s, h)
    ensures forall t: nat | Evicting(Shut(s, c, names), t, h) :: Evicting(s, t, h)
  {
    if s.sessions[c].login.Some? {
      ChatProtocol.ShutFinds(s, c);
      ChatProtocol.ShutEffect(s, c, names);
      if LastConnection(s, c) {
        StartsEvicting(s.store, names, s.handlers[s.sessions[c].login.value]);
      }
    }
  }

  /** The removals of a dropped handler never touch a handler that is in the pool, a reconnecting one included. */
  lemma EvictionsSpareTheLiving(s: State, t: nat, h: nat)
    requires Reachable(s) && Evicting(s, t, h)
    ensures h < |s.hs| && !Current(s, h)
    ensures forall n | n in s.handlers :: s.handlers[n] != h
    ensures forall g: nat, ref: nat | Current(s, g) ::
              g in Store.Members(Store.Advance(s.store, t), ref) <==> g in Store.Members(s.store, ref)
  {
    ReachableInv(s);
    assert EvictOk(s, t);
    StoreFrame.AdvanceFrame(s.store, t);
    forall g: nat, ref: nat | Current(s, g)
      ensures g in Store.Members(Store.Advance(s.store, t), ref) <==> g in Store.Members(s.store, ref)
    {
      assert StoreFrame.Extends(s.store, Store.Advance(s.store, t), g);
    }
  }

  // ---- The store inside the chat ----

  /** Every call the chat makes on the store is part of one linearizable history, and the accounts balance. */
  lemma ChatStoreIsLinearizable(s: State, name: string, h: nat)
    requires Reachable(s)
    ensures StoreProofs.Linearizable(s.store.history)
    ensures StoreProofs.Effective(s.store.history, Join, name, h) ==
              StoreProofs.Effective(s.store.history, Leave, name, h)
              + StoreProofs.Effective(s.store.history, Evict, name, h) + (if InChannel(s, name, h) then 1 else 0)
  {
    ReachableInv(s);
    StoreProofs.InvLinearizable(s.store);
    StoreProofs.MembershipAccounting(s.store.history, name, h);
    assert Member(StoreProofs.View(s.store), name, h) == InChannel(s, name, h);
  }

  /** A call that has changed a membership, and has returned, has broadcast it. */
  ghost predicate Announced(s: State, j: nat)
    requires j < |s.store.history|
  {
    exists k :: 0 <= k < |s.store.history| && AnnouncedBy(s, j, k)
  }

  ghost predicate AnnouncedBy(s: State, j: nat, k: nat)
    requires j < |s.store.history| && k < |s.store.history|
  {
    var e, b := s.store.history[j], s.store.history[k];
    b.Returned? && b.call == e.call && b.op == e.op && b.told.Some?
  }

  predicate Change(e: Store.Event) {
    e.Linearized? && e.op.kind in {Join, Leave, Evict} && e.outcome == Ok
  }

  /** Each effective join, leave or removal is broadcast exactly once, and nothing else is broadcast as one. */
  lemma ChangesAreAnnouncedOnce(s: State)
    requires Reachable(s)
    ensures forall j | 0 <= j < |s.store.history| && Change(s.store.history[j]) ::
              s.store.history[j].call < |s.store.calls|
              && (s.store.calls[s.store.history[j].call].pc.Done? <==> Announced(s, j))
    ensures forall k, l | 0 <= k < |s.store.history| && 0 <= l < |s.store.history|
              && s.store.history[k].Returned? && s.store.history[l].Returned? ::
              s.store.history[k].call == s.store.history[l].call ==> k == l
    ensures forall k | 0 <= k < |s.store.history| && s.store.history[k].Returned? && s.store.history[k].told.Some? ::
              exists j :: 0 <= j < |s.store.history| && Change(s.store.history[j]) && AnnouncedBy(s, j, k)
  {
    ReachableInv(s);
    var h := s.store.history;
    forall k, l | 0 <= k < |h| && 0 <= l < |h| && h[k].Returned? && h[l].Returned? && h[k].call == h[l].call
      ensures k == l
    {
      assert StoreProofs.Owned(s.store, k) && StoreProofs.Owned(s.store, l);
    }
    forall j | 0 <= j < |h| && Change(h[j])
      ensures h[j].call < |s.store.calls| && (s.store.calls[h[j].call].pc.Done? <==> Announced(s, j))
    {
      ChangeAnnounced(s, j);
    }
    forall k | 0 <= k < |h| && h[k].Returned? && h[k].told.Some?
      ensures exists j :: 0 <= j < |h| && Change(h[j]) && AnnouncedBy(s, j, k)
    {
      AnnouncementOfChange(s, k);
    }
  }

  lemma ChangeAnnounced(s: State, j: nat)
    requires Inv(s) && j < |s.store.history| && Change(s.store.history[j])
    ensures s.store.history[j].call < |s.store.calls|
    ensures s.store.calls[s.store.history[j].call].pc.Done? <==> Announced(s, j)
  {
    var t := s.store.history[j].call;
    assert StoreProofs.Owned(s.store, j) && StoreProofs.Marked(s.store, t);
    assert EvictOk(s, t) && NotifyOk(s, t) && StoreFrame.Effect(s.store, t, Ok);
    if s.store.calls[t].pc.Done? {
      assert AnnouncedBy(s, j, s.store.calls[t].pc.at);
    }
    if Announced(s, j) {
      var k :| 0 <= k < |s.store.history| && AnnouncedBy(s, j, k);
      assert StoreProofs.Owned(s.store, k);
    }
  }

  lemma AnnouncementOfChange(s: State, k: nat)
    requires Inv(s) && k < |s.store.history| && s.store.history[k].Returned? && s.store.history[k].told.Some?
    ensures exists j :: 0 <= j < |s.store.history| && Change(s.store.history[j]) && AnnouncedBy(s, j, k)
  {
    var t := s.store.history[k].call;
    assert StoreProofs.Owned(s.store, k);
    assert StoreProofs.Marked(s.store, t) && EvictOk(s, t) && NotifyOk(s, t);
    assert StoreProofs.CallOk(s.store, s.store.calls[t]);
    assert ToldOk(s, k);
    var j := s.store.calls[t].lin.value;
    assert Change(s.store.history[j]) && AnnouncedBy(s, j, k);
  }

  /** A joiner hears its own joined event; a leaver or dropped handler does not hear its own left event. */
  lemma OwnBroadcasts(s: State, j: nat)
    requires Reachable(s) && j < |s.store.history| && s.store.history[j].Returned? && s.store.history[j].told.Some?
    ensures var e := s.store.history[j];
      && (e.op.kind == Join ==> e.op.user in e.told.value)
      && (e.op.kind in {Leave, Evict} ==> e.op.user !in e.told.value)
  {
    ReachableInv(s);
    assert ToldOk(s, j);
  }

  // ---- Messages ----

  /** Whoever's message is indexed is a member of the channel at that very step, and not just when it was checked. */
  lemma SendersAreMembers(s: State)
    requires Reachable(s)
    ensures forall j | 0 <= j < |s.log| && s.log[j].Indexed? :: s.log[j].h in s.log[j].members
    ensures forall h | 0 <= h < |s.hs| && s.hs[h].actor.Indexing? ::
              h in Store.Members(s.store, s.hs[h].actor.ref)
              && s.hs[h].actor.name in s.store.names && s.store.names[s.hs[h].actor.name] == s.hs[h].actor.ref
  {
    ReachableInv(s);
    forall j | 0 <= j < |s.log| && s.log[j].Indexed? ensures s.log[j].h in s.log[j].members { assert IndexedOk(s, j); }
    forall h | 0 <= h < |s.hs| && s.hs[h].actor.Indexing?
      ensures h in Store.Members(s.store, s.hs[h].actor.ref)
      ensures s.hs[h].actor.name in s.store.names && s.store.names[s.hs[h].actor.name] == s.hs[h].actor.ref
    {
      assert ActorCallOk(s, h);
    }
  }

  /** Indexed messages and message broadcasts, done or pending, are one to one, and nothing else is delivered. */
  lemma PersistBeforeDeliver(s: State)
    requires Reachable(s)
    ensures forall j | 0 <= j < |s.log| && s.log[j].Indexed? ::
              s.log[j].task < |s.tasks| && DeliveryOf(s.tasks[s.log[j].task], j)
    ensures forall k | 0 <= k < |s.tasks| && (s.tasks[k].Deliver? || s.tasks[k].Delivered?) ::
              s.tasks[k].m < |s.log| && s.log[s.tasks[k].m].Indexed? && s.log[s.tasks[k].m].task == k
    ensures forall k | 0 <= k < |s.tasks| && (s.tasks[k].Write? || s.tasks[k].WriteSocket?)
            && s.tasks[k].note.NewMessage? ::
              s.tasks[k].note.m < |s.log| && s.log[s.tasks[k].note.m].Indexed?
  {
    ReachableInv(s);
    forall j | 0 <= j < |s.log| && s.log[j].Indexed?
      ensures s.log[j].task < |s.tasks| && DeliveryOf(s.tasks[s.log[j].task], j)
    {
      assert IndexedOk(s, j);
    }
    forall k | 0 <= k < |s.tasks| && (s.tasks[k].Deliver? || s.tasks[k].Delivered?)
      ensures s.tasks[k].m < |s.log| && s.log[s.tasks[k].m].Indexed? && s.log[s.tasks[k].m].task == k
    {
      assert DeliveryOk(s, k);
    }
    forall k | 0 <= k < |s.tasks| && (s.tasks[k].Write? || s.tasks[k].WriteSocket?) && s.tasks[k].note.NewMessage?
      ensures s.tasks[k].note.m < |s.log| && s.log[s.tasks[k].note.m].Indexed?
    {
      assert DeliveryOk(s, k);
    }
  }

  // ---- Creation ----

  /**
   The creation made for request `r` has taken effect, and `outcome` is success exactly if the name was good and new
   at that point of the store's history.
   */
  ghost predicate CreatedIfNew(s: State, r: nat, name: string, h: nat, outcome: Outcome) {
    && Made(s, r, name, h, outcome)
    && var lin := s.store.calls[s.requests[r].call.value].lin.value;
       outcome == Ok <==> name != "" && name !in StoreProofs.Replay(s.store.history[..lin])
  }

  lemma MadeIfNew(s: State, r: nat, name: string, h: nat, outcome: Outcome)
    requires StoreProofs.Legal(s.store.history) && Made(s, r, name, h, outcome)
    ensures CreatedIfNew(s, r, name, h, outcome)
  {
    StoreFrame.EffectIsLegal(s.store, s.requests[r].call.value, outcome);
  }

  /**
   A create request is about to be answered success exactly if its channel was new, and then its creator is a member.
   */
  lemma CreateAnswer(s: State, h: nat)
    requires Reachable(s) && h < |s.hs| && s.hs[h].actor.Replying? && WorkOf(s, s.hs[h].actor.r).DoCreate?
    ensures var Replying(r, outcome) := s.hs[h].actor;
      var name := WorkOf(s, r).name;
      CreatedIfNew(s, r, name, h, outcome) && (outcome == Ok ==> InChannel(s, name, h))
  {
    ReachableInv(s);
    assert ActorCallOk(s, h);
    MadeIfNew(s, s.hs[h].actor.r, WorkOf(s, s.hs[h].actor.r).name, h, s.hs[h].actor.outcome);
  }

  /** At most one creation of a name ever succeeds, and no channel has the empty name. */
  lemma ChannelsAreCreatedOnce(s: State, name: string, j: nat, k: nat)
    requires Reachable(s) && j < |s.store.history| && k < |s.store.history|
    requires StoreProofs.Creation(s.store.history[j], name) && StoreProofs.Creation(s.store.history[k], name)
    ensures j == k && "" !in s.store.names
  {
    ReachableInv(s);
    StoreProofs.CreatedOnce(s.store.history, name, j, k);
  }

  /** A disconnect's removal that finds its user a member removes it itself: nobody gets there first. */
  lemma EvictionsTakeEffect(s: State, t: nat)
    requires Reachable(s) && Store.Running(s.store, t) && s.store.calls[t].op.kind == Evict
    ensures s.store.calls[t].pc.Change? ==>
              s.store.calls[t].op.user in Store.Members(s.store, s.store.calls[t].pc.ref)
    ensures forall u: nat | u < |s.store.calls| && s.store.calls[u].op == s.store.calls[t].op :: u == t
  {
    ReachableInv(s);
    assert EvictOk(s, t);
  }
}
