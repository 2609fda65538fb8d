/**
 Bounded drain: without new input or connections the chat does finitely much more work, and it only stops
 when nothing is left to do.
 */
module Drain {
  import opened Collections
  import opened StoreSpec
  import opened ChatSystem
  import opened DrainCosts
  import opened ChatMembership
  import opened ChatLogs
  import Store = StoreMachine
  import StoreFrame
  import StoreProofs
  import ChatProtocol
  import ChatInvariant
  import ChatTheorems

  lemma {:induction false} CopiesOfOne(n: nat)
    ensures Copies(n, 1) == n
  {
    if n > 0 {
      CopiesOfOne(n - 1);
    }
  }

  // ---- Fan-out is bounded ----

  lemma MembersBounded(s: State, ref: nat, order: seq<nat>)
    requires TiedExcept(s, {}) && Enumerates(order, Store.Members(s.store, ref))
    ensures |order| <= |s.hs|
  {
    EnumerationLength(order, Store.Members(s.store, ref));
    forall h | h in Store.Members(s.store, ref) ensures h < |s.hs| { assert MemberOk(s, ref, h); }
    BoundedSetSize(Store.Members(s.store, ref), |s.hs|);
  }

  lemma ConnsBounded(s: State, h: nat, order: seq<nat>)
    requires ConnsKnown(s) && Enumerates(order, ConnsOf(s, h))
    ensures |order| <= |s.sessions|
  {
    EnumerationLength(order, ConnsOf(s, h));
    BoundedSetSize(ConnsOf(s, h), |s.sessions|);
  }

  lemma WritesCost(order: seq<nat>, note: Note, lim: Limits)
    ensures Sum(TaskCosts(Writes(order, note), lim)) == Copies(|order|, WriteCost(lim))
  {
    SumOfConstant(TaskCosts(Writes(order, note), lim), WriteCost(lim));
  }

  lemma SpawnCost(tasks: seq<Task>, more: seq<Task>, lim: Limits)
    ensures Sum(TaskCosts(tasks + more, lim)) == Sum(TaskCosts(tasks, lim)) + Sum(TaskCosts(more, lim))
  {
    assert TaskCosts(tasks + more, lim) == TaskCosts(tasks, lim) + TaskCosts(more, lim);
    SumAppend(TaskCosts(tasks, lim), TaskCosts(more, lim));
  }

  lemma TaskMoves(tasks: seq<Task>, k: nat, task: Task, lim: Limits)
    requires k < |tasks|
    ensures Sum(TaskCosts(tasks[k := task], lim)) + TaskCost(tasks[k], lim)
            == Sum(TaskCosts(tasks, lim)) + TaskCost(task, lim)
  {
    assert TaskCosts(tasks[k := task], lim) == TaskCosts(tasks, lim)[k := TaskCost(task, lim)];
    SumUpdate(TaskCosts(tasks, lim), k, TaskCost(task, lim));
  }

  lemma ActorMoves(hs: seq<Handler>, hs': seq<Handler>, h: nat, lim: Limits)
    requires h < |hs| == |hs'| && hs' == hs[h := hs[h].(actor := hs'[h].actor)]
    ensures Sum(ActorCosts(hs', lim)) + ActorCost(hs[h].actor, lim)
            == Sum(ActorCosts(hs, lim)) + ActorCost(hs'[h].actor, lim)
    ensures Sum(Creatings(hs')) + Creating(hs[h].actor) == Sum(Creatings(hs)) + Creating(hs'[h].actor)
  {
    assert ActorCosts(hs', lim) == ActorCosts(hs, lim)[h := ActorCost(hs'[h].actor, lim)];
    SumUpdate(ActorCosts(hs, lim), h, ActorCost(hs'[h].actor, lim));
    assert Creatings(hs') == Creatings(hs)[h := Creating(hs'[h].actor)];
    SumUpdate(Creatings(hs), h, Creating(hs'[h].actor));
  }

  lemma SessionMoves(sessions: seq<Session>, c: nat, session: Session, lim: Limits)
    requires c < |sessions|
    ensures Sum(SessionCosts(sessions[c := session], lim)) + SessionCost(sessions[c], lim)
              == Sum(SessionCosts(sessions, lim)) + SessionCost(session, lim)
    ensures Sum(Askings(sessions[c := session])) + Asking(sessions[c]) == Sum(Askings(sessions)) + Asking(session)
  {
    assert SessionCosts(sessions[c := session], lim) == SessionCosts(sessions, lim)[c := SessionCost(session, lim)];
    SumUpdate(SessionCosts(sessions, lim), c, SessionCost(session, lim));
    assert Askings(sessions[c := session]) == Askings(sessions)[c := Asking(session)];
    SumUpdate(Askings(sessions), c, Asking(session));
  }

  lemma CallMoves(calls: seq<Store.Call>, calls': seq<Store.Call>, t: nat, lim: Limits)
    requires t < |calls| && |calls'| == |calls|
    requires forall u | 0 <= u < |calls| && u != t :: calls'[u].pc == calls[u].pc
    ensures Sum(CallCosts(calls', lim)) + CallCost(calls[t].pc, lim)
              == Sum(CallCosts(calls, lim)) + CallCost(calls'[t].pc, lim)
  {
    assert CallCosts(calls', lim) == CallCosts(calls, lim)[t := CallCost(calls'[t].pc, lim)];
    SumUpdate(CallCosts(calls, lim), t, CallCost(calls'[t].pc, lim));
  }

  lemma CallStarts(calls: seq<Store.Call>, more: seq<Store.Call>, lim: Limits)
    ensures Sum(CallCosts(calls + more, lim)) == Sum(CallCosts(calls, lim)) + Sum(CallCosts(more, lim))
  {
    assert CallCosts(calls + more, lim) == CallCosts(calls, lim) + CallCosts(more, lim);
    SumAppend(CallCosts(calls, lim), CallCosts(more, lim));
  }

  // ---- Each internal step is paid for ----

  ghost predicate Paid(s: State, s': State, lim: Limits) {
    Within(s', lim) && Weight(s', lim) < Weight(s, lim)
  }

  lemma TaskPaid(s: State, k: nat, order: seq<nat>, lim: Limits)
    requires Inv(s) && ConnsKnown(s) && Within(s, lim) && CanTask(s, k, order)
    ensures Paid(s, TaskStep(s, k, order), lim)
  {
    match s.tasks[k]
    case Deliver(m, ref) =>
      MembersBounded(s, ref, order);
      DeliverCost(s.tasks, k, Delivered(m, Store.Members(s.store, ref)), order, lim);
    case Write(h, note) =>
      ConnsBounded(s, h, order);
      WriteSpawnCost(s.tasks, k, order, note, lim);
    case WriteSocket(_, _) => TaskMoves(s.tasks, k, Finished, lim);
  }

  lemma DeliverCost(tasks: seq<Task>, k: nat, done: Task, order: seq<nat>, lim: Limits)
    requires k < |tasks| && tasks[k].Deliver? && done.Delivered? && |order| <= lim.handlers
    ensures Sum(TaskCosts(tasks[k := done] + Writes(order, NewMessage(done.m)), lim)) < Sum(TaskCosts(tasks, lim))
  {
    SpawnCost(tasks[k := done], Writes(order, NewMessage(done.m)), lim);
    WritesCost(order, NewMessage(done.m), lim);
    TaskMoves(tasks, k, done, lim);
    CopiesGrow(|order|, lim.handlers, WriteCost(lim));
  }

  lemma WriteSpawnCost(tasks: seq<Task>, k: nat, order: seq<nat>, note: Note, lim: Limits)
    requires k < |tasks| && tasks[k].Write? && |order| <= lim.conns
    ensures Sum(TaskCosts(tasks[k := Finished] + SocketWrites(order, note), lim)) < Sum(TaskCosts(tasks, lim))
  {
    SpawnCost(tasks[k := Finished], SocketWrites(order, note), lim);
    SumOfConstant(TaskCosts(SocketWrites(order, note), lim), 1);
    CopiesOfOne(|order|);
    TaskMoves(tasks, k, Finished, lim);
  }

  lemma FindHandlerPaid(s: State, c: nat, lim: Limits)
    requires Within(s, lim) && CanFindHandler(s, c)
    ensures Paid(s, FindHandler(s, c), lim)
  {
    var s' := FindHandler(s, c);
    assert s'.sessions == s.sessions[c := s'.sessions[c]];
    SessionMoves(s.sessions, c, s'.sessions[c], lim);
  }

  lemma RendezvousPaid(s: State, c: nat, lim: Limits)
    requires ChatProtocol.Inv(s) && Within(s, lim) && CanRendezvous(s, c)
    ensures Paid(s, Rendezvous(s, c), lim)
  {
    var s' := Rendezvous(s, c);
    assert ChatProtocol.SessionOk(s, c);
    ChatProtocol.RendezvousEffect(s, c);
    ChatInvariant.TakenCall(s, c);
    RendezvousCost(s, s', c, s'.store.calls[|s.store.calls|], lim);
  }

  lemma RendezvousCost(s: State, s': State, c: nat, call: Store.Call, lim: Limits)
    requires Within(s, lim) && c < |s.sessions| && s.sessions[c].Sending?
    requires var h := s.sessions[c].h;
      && h < |s.hs| == |s'.hs| && s.hs[h].actor == Idle && s'.hs == s.hs[h := s.hs[h].(actor := s'.hs[h].actor)]
      && (s'.hs[h].actor.Making? || s'.hs[h].actor.Joining? || s'.hs[h].actor.Leaving? || s'.hs[h].actor.Checking?)
    requires |s'.sessions| == |s.sessions| && s'.sessions == s.sessions[c := s'.sessions[c]] && s'.sessions[c].Awaiting?
    requires s'.store.calls == s.store.calls + [call] && call.pc == Store.Lookup && s'.store.names == s.store.names
    requires s'.tasks == s.tasks
    ensures Paid(s, s', lim)
  {
    SessionMoves(s.sessions, c, s'.sessions[c], lim);
    ActorMoves(s.hs, s'.hs, s.sessions[c].h, lim);
    OneMoreCall(s.store.calls, call, lim);
  }

  lemma ReplyPaid(s: State, h: nat, c: nat, lim: Limits)
    requires Within(s, lim) && CanReply(s, h, c)
    ensures Paid(s, Reply(s, h, c), lim)
  {
    SessionMoves(s.sessions, c, Reading(Some(s.sessions[c].nick)), lim);
    ActorMoves(s.hs, s.hs[h := s.hs[h].(actor := Idle)], h, lim);
  }

  lemma FindPaid(s: State, h: nat, lim: Limits)
    requires Within(s, lim) && CanFind(s, h)
    ensures Paid(s, Find(s, h), lim)
  {
    ActorMoves(s.hs, Find(s, h).hs, h, lim);
  }

  lemma IndexPaid(s: State, h: nat, success: bool, lim: Limits)
    requires Within(s, lim) && CanIndex(s, h)
    ensures Paid(s, Index(s, h, success), lim)
  {
    ActorMoves(s.hs, Index(s, h, success).hs, h, lim);
    if success {
      OneMoreTask(s.tasks, Deliver(|s.log|, s.hs[h].actor.ref), lim);
    }
  }

  lemma ShutPaid(s: State, c: nat, names: seq<string>, lim: Limits)
    requires Inv(s) && Within(s, lim) && CanShut(s, c, names)
    ensures Paid(s, Shut(s, c, names), lim)
  {
    if s.sessions[c].login.None? {
      SessionMoves(s.sessions, c, Closed(None), lim);
    } else if LastConnection(s, c) {
      LastShutPaid(s, c, names, lim);
    } else {
      OtherShutPaid(s, c, names, lim);
    }
  }

  lemma OtherShutPaid(s: State, c: nat, names: seq<string>, lim: Limits)
    requires ChatProtocol.Inv(s) && Within(s, lim) && CanShut(s, c, names)
    requires s.sessions[c].login.Some? && !LastConnection(s, c)
    ensures Paid(s, Shut(s, c, names), lim)
  {
    ChatProtocol.ShutFinds(s, c);
    ChatProtocol.ShutEffect(s, c, names);
    DetachPaid(s, Shut(s, c, names), c, lim);
  }

  lemma LastShutPaid(s: State, c: nat, names: seq<string>, lim: Limits)
    requires Inv(s) && Within(s, lim) && CanShut(s, c, names)
    requires s.sessions[c].login.Some? && LastConnection(s, c)
    ensures Paid(s, Shut(s, c, names), lim)
  {
    ChatProtocol.ShutFinds(s, c);
    ChatProtocol.ShutEffect(s, c, names);
    StartsEvicting(s.store, names, s.handlers[s.sessions[c].login.value]);
    DropPaid(s, Shut(s, c, names), c, names, lim);
  }

  lemma DetachPaid(s: State, s': State, c: nat, lim: Limits)
    requires Within(s, lim) && c < |s.sessions| && s.sessions[c].Closing?
    requires s'.sessions == s.sessions[c := Closed(s.sessions[c].login)] && s'.tasks == s.tasks && s'.store == s.store
    requires |s'.hs| == |s.hs| && forall h | 0 <= h < |s.hs| :: s'.hs[h].actor == s.hs[h].actor
    ensures Paid(s, s', lim)
  {
    SessionMoves(s.sessions, c, Closed(s.sessions[c].login), lim);
    assert ActorCosts(s'.hs, lim) == ActorCosts(s.hs, lim);
    assert Creatings(s'.hs) == Creatings(s.hs);
  }

  lemma DropPaid(s: State, s': State, c: nat, names: seq<string>, lim: Limits)
    requires Within(s, lim) && c < |s.sessions| && s.sessions[c].Closing? && Enumerates(names, s.store.names.Keys)
    requires s'.sessions == s.sessions[c := Closed(s.sessions[c].login)] && s'.tasks == s.tasks && s'.hs == s.hs
    requires exists h: nat :: Evicting(s.store, s'.store, names, h)
    ensures Paid(s, s', lim)
  {
    SessionMoves(s.sessions, c, Closed(s.sessions[c].login), lim);
    EvictionsCost(s.store.calls, s'.store.calls, |names|, lim);
    EnumerationLength(names, s.store.names.Keys);
    CopiesGrow(|names|, lim.channels, FanCost(lim) + 3);
  }

  lemma EvictionsCost(calls: seq<Store.Call>, calls': seq<Store.Call>, n: nat, lim: Limits)
    requires |calls'| == |calls| + n
    requires forall u | 0 <= u < |calls| :: calls'[u] == calls[u]
    requires forall u | |calls| <= u < |calls'| :: calls'[u].pc == Store.Lookup
    ensures Sum(CallCosts(calls', lim)) == Sum(CallCosts(calls, lim)) + Copies(n, FanCost(lim) + 3)
  {
    assert calls' == calls + calls'[|calls|..];
    CallStarts(calls, calls'[|calls|..], lim);
    SumOfConstant(CallCosts(calls'[|calls|..], lim), FanCost(lim) + 3);
  }

  /** A store call that moves pays for the writes of its broadcast. */
  lemma AdvancePaid(s: State, t: nat, order: seq<nat>, note: Note, lim: Limits)
    requires Inv(s) && Within(s, lim) && Store.Running(s.store, t)
    requires Broadcasts(Store.Advance(s.store, t), t, order)
    ensures Sum(CallCosts(Store.Advance(s.store, t).calls, lim)) + Sum(TaskCosts(Writes(order, note), lim))
              < Sum(CallCosts(s.store.calls, lim))
  {
    AdvanceCost(s, t, order, lim);
    CallMoves(s.store.calls, Store.Advance(s.store, t).calls, t, lim);
    WritesCost(order, note, lim);
  }

  /** The call that moves pays for the writes its broadcast spawns; the others stay where they are. */
  lemma AdvanceCost(s: State, t: nat, order: seq<nat>, lim: Limits)
    requires Inv(s) && Within(s, lim) && Store.Running(s.store, t)
    requires Broadcasts(Store.Advance(s.store, t), t, order)
    ensures var calls, calls' := s.store.calls, Store.Advance(s.store, t).calls;
      && |calls'| == |calls| && (forall u | 0 <= u < |calls| && u != t :: calls'[u].pc == calls[u].pc)
      && CallCost(calls'[t].pc, lim) + Copies(|order|, WriteCost(lim)) < CallCost(calls[t].pc, lim)
  {
    NextPc(s.store, t);
    if s.store.calls[t].pc.Notify? {
      MembersBounded(s, s.store.calls[t].pc.ref, order);
      CopiesGrow(|order|, lim.handlers, WriteCost(lim));
    }
  }

  /** Calls go forward, and only their last section broadcasts. */
  lemma NextPc(store: Store.State, t: nat)
    requires StoreProofs.Inv(store) && Store.Running(store, t)
    ensures var store' := Store.Advance(store, t);
      var pc, pc' := store.calls[t].pc, store'.calls[t].pc;
      && |store'.calls| == |store.calls|
        && (forall u | 0 <= u < |store.calls| && u != t :: store'.calls[u].pc == store.calls[u].pc)
      && (pc.Lookup? ==> pc'.Check? || pc'.Done?)
      && (pc.Check? ==> pc'.Change? || pc'.Done?)
      && (pc.Change? ==> pc'.Notify?)
      && (pc.Notify? ==> Returned(store', t) && Told(store', t) == Some(Store.Members(store, pc.ref)))
      && (!pc.Notify? && Returned(store', t) ==> Told(store', t) == None)
  {
    StoreFrame.AdvanceFrame(store, t);
    assert StoreProofs.CallOk(store, store.calls[t]);
  }

  /** Only a create call that succeeds adds a name, and it returns at that very step. */
  lemma AdvanceNames(store: Store.State, t: nat)
    requires StoreProofs.Inv(store) && Store.Running(store, t)
    ensures var store' := Store.Advance(store, t);
      if store.calls[t].op.kind == Create then store'.calls[t].pc.Done? && |store'.names| <= |store.names| + 1
      else store'.names == store.names
  {
    assert StoreProofs.CallOk(store, store.calls[t]);
  }

  lemma EvictPaid(s: State, t: nat, order: seq<nat>, lim: Limits)
    requires Inv(s) && Within(s, lim) && CanEvict(s, t, order)
    ensures Paid(s, EvictStep(s, t, order), lim)
  {
    var op := s.store.calls[t].op;
    var note := UserLeft(op.name, NickOfHandler(s, op.user));
    AdvancePaid(s, t, order, note, lim);
    AdvanceNames(s.store, t);
    SpawnCost(s.tasks, Writes(order, note), lim);
  }

  lemma ActorPaid(s: State, h: nat, order: seq<nat>, lim: Limits)
    requires Inv(s) && Within(s, lim) && CanActorStep(s, h, order)
    ensures Paid(s, ActorStep(s, h, order), lim)
  {
    var s', t := ActorStep(s, h, order), CallOf(s.hs[h].actor).value;
    var actor, nick := s.hs[h].actor, s.hs[h].nick;
    assert ActorCallOk(s, h);
    ChatInvariant.OwnAdvance(s, h, t);
    ChatProtocol.ActorStepEffect(s, h, order);
    var note := if actor.Leaving? then UserLeft(actor.name, nick) else UserJoined(actor.name, nick);
    AdvancePaid(s, t, order, note, lim);
    AdvanceNames(s.store, t);
    ResumePaid(s, s', h, t, order, note, lim);
    ActorSum(s, s', h, t, order, note, lim);
  }

  /** What the actor's step costs altogether. */
  lemma ActorSum(s: State, s': State, h: nat, t: nat, order: seq<nat>, note: Note, lim: Limits)
    requires Within(s, lim) && h < |s.hs| == |s'.hs| && Store.Running(s.store, t)
    requires s'.hs == s.hs[h := s.hs[h].(actor := s'.hs[h].actor)] && s'.sessions == s.sessions
    requires var store, actor := Store.Advance(s.store, t), s.hs[h].actor;
      && Sum(CallCosts(store.calls, lim)) + Sum(TaskCosts(Writes(order, note), lim))
           < Sum(CallCosts(s.store.calls, lim))
      && Sum(CallCosts(s'.store.calls, lim)) + Sum(TaskCosts(s'.tasks, lim)) + ActorCost(s'.hs[h].actor, lim)
           <= Sum(CallCosts(store.calls, lim)) + Sum(TaskCosts(s.tasks + Writes(order, note), lim))
             + ActorCost(actor, lim)
      && |s'.store.names| + Creating(s'.hs[h].actor) <= |s.store.names| + Creating(actor)
    ensures Paid(s, s', lim)
  {
    ActorMoves(s.hs, s'.hs, h, lim);
    SpawnCost(s.tasks, Writes(order, note), lim);
  }

  lemma OneMoreCall(calls: seq<Store.Call>, call: Store.Call, lim: Limits)
    ensures Sum(CallCosts(calls + [call], lim)) == Sum(CallCosts(calls, lim)) + CallCost(call.pc, lim)
  {
    CallStarts(calls, [call], lim);
    assert CallCosts([call], lim) == [CallCost(call.pc, lim)];
    assert Sum([CallCost(call.pc, lim)]) == CallCost(call.pc, lim);
  }

  lemma OneMoreTask(tasks: seq<Task>, task: Task, lim: Limits)
    ensures Sum(TaskCosts(tasks + [task], lim)) == Sum(TaskCosts(tasks, lim)) + TaskCost(task, lim)
  {
    SpawnCost(tasks, [task], lim);
    assert TaskCosts([task], lim) == [TaskCost(task, lim)];
    assert Sum([TaskCost(task, lim)]) == TaskCost(task, lim);
  }

  /** What resuming adds to the calls and tasks, beyond the writes of the broadcast. */
  lemma ResumePaid(s: State, s': State, h: nat, t: nat, order: seq<nat>, note: Note, lim: Limits)
    requires CanActorStep(s, h, order) && CallOf(s.hs[h].actor) == Some(t)
    requires var store := Store.Advance(s.store, t);
      t < |store.calls| && (store.calls[t].pc.Done? ==> Returned(store, t))
    requires var actor := s.hs[h].actor;
      note == if actor.Leaving? then UserLeft(actor.name, s.hs[h].nick) else UserJoined(actor.name, s.hs[h].nick)
    requires s' == ActorStep(s, h, order)
    ensures var store, actor := Store.Advance(s.store, t), s.hs[h].actor;
      && h < |s'.hs|
      && Sum(CallCosts(s'.store.calls, lim)) + Sum(TaskCosts(s'.tasks, lim)) + ActorCost(s'.hs[h].actor, lim)
           <= Sum(CallCosts(store.calls, lim)) + Sum(TaskCosts(s.tasks + Writes(order, note), lim))
             + ActorCost(actor, lim)
      && s'.store.names == store.names
      && (actor.Making? && store.calls[t].pc.Done? ==> !s'.hs[h].actor.Making?)
      && (!actor.Making? ==> !s'.hs[h].actor.Making?)
  {
    var s1 := s.(store := Store.Advance(s.store, t));
    SpawnCost(s.tasks, Writes(order, note), lim);
    if Returned(s1.store, t) {
      ResumeCost(s1, h, order, note, lim);
    }
  }

  lemma ResumeCost(s: State, h: nat, order: seq<nat>, note: Note, lim: Limits)
    requires h < |s.hs| && CallOf(s.hs[h].actor).Some? && Returned(s.store, CallOf(s.hs[h].actor).value)
    requires var actor := s.hs[h].actor;
      note == if actor.Leaving? then UserLeft(actor.name, s.hs[h].nick) else UserJoined(actor.name, s.hs[h].nick)
    ensures var s', actor := Resume(s, h, order), s.hs[h].actor;
      && h < |s'.hs|
      && Sum(CallCosts(s'.store.calls, lim)) + Sum(TaskCosts(s'.tasks, lim)) + ActorCost(s'.hs[h].actor, lim)
           <= Sum(CallCosts(s.store.calls, lim)) + Sum(TaskCosts(s.tasks + Writes(order, note), lim))
             + ActorCost(actor, lim)
      && s'.store.names == s.store.names && !s'.hs[h].actor.Making?
  {
    SpawnCost(s.tasks, Writes(order, note), lim);
    if s.hs[h].actor.Making? { CreateCost(s, h, order, lim); }
    else if s.hs[h].actor.Leaving? { LeaveCost(s, h, order, note, lim); }
    else { AnswerCost(s, h, order, note); }
  }

  lemma AnswerCost(s: State, h: nat, order: seq<nat>, note: Note)
    requires h < |s.hs| && CallOf(s.hs[h].actor).Some? && Returned(s.store, CallOf(s.hs[h].actor).value)
    requires s.hs[h].actor.Joining? || s.hs[h].actor.Checking?
    requires note == UserJoined(s.hs[h].actor.name, s.hs[h].nick)
    ensures var s', actor := Resume(s, h, order), s.hs[h].actor;
      && s'.store == s.store && |s'.hs| == |s.hs|
      && s'.tasks == (if actor.Joining? then s.tasks + Writes(order, note) else s.tasks)
      && (actor.Joining? ==> s'.hs[h].actor.Replying?)
      && (actor.Checking? ==> s'.hs[h].actor.Replying? || s'.hs[h].actor.Finding?)
  {
  }

  lemma CreateCost(s: State, h: nat, order: seq<nat>, lim: Limits)
    requires h < |s.hs| && s.hs[h].actor.Making? && Returned(s.store, s.hs[h].actor.t)
    ensures var s', actor := Resume(s, h, order), s.hs[h].actor;
      && s'.tasks == s.tasks && s'.store.names == s.store.names && !s'.hs[h].actor.Making?
      && Sum(CallCosts(s'.store.calls, lim)) + ActorCost(s'.hs[h].actor, lim)
           <= Sum(CallCosts(s.store.calls, lim)) + ActorCost(actor, lim)
  {
    var op := Op(Join, s.hs[h].actor.name, h);
    OneMoreCall(s.store.calls, Store.Start(s.store, op).calls[|s.store.calls|], lim);
  }

  lemma LeaveCost(s: State, h: nat, order: seq<nat>, note: Note, lim: Limits)
    requires h < |s.hs| && s.hs[h].actor.Leaving? && Returned(s.store, s.hs[h].actor.t)
    requires note == UserLeft(s.hs[h].actor.name, s.hs[h].nick)
    ensures var s' := Resume(s, h, order);
      && s'.store == s.store && |s'.hs| == |s.hs| && s'.hs[h].actor.Replying?
      && Sum(TaskCosts(s'.tasks, lim)) <= Sum(TaskCosts(s.tasks + Writes(order, note), lim)) + WriteCost(lim)
  {
    var told, extra := s.tasks + Writes(order, note), Write(h, YouLeft(s.hs[h].actor.name, s.hs[h].nick));
    OneMoreTask(told, extra, lim);
    if Answer(s.store, s.hs[h].actor.t) == Ok {
      assert Resume(s, h, order).tasks == told + [extra];
    } else {
      assert Resume(s, h, order).tasks == told;
    }
  }

  /** Every internal step strictly decreases the weight and respects the limits. */
  lemma StepIsPaid(s: State, a: Action, lim: Limits)
    requires Inv(s) && ConnsKnown(s) && Within(s, lim) && Enabled(s, a) && Internal(a)
    ensures Paid(s, Apply(s, a), lim)
  {
    match a
    case DoFindHandler(c) => FindHandlerPaid(s, c, lim);
    case DoRendezvous(c) => RendezvousPaid(s, c, lim);
    case DoActorStep(h, order) => ActorPaid(s, h, order, lim);
    case DoFind(h) => FindPaid(s, h, lim);
    case DoIndex(h, success) => IndexPaid(s, h, success, lim);
    case DoReply(h, c) => ReplyPaid(s, h, c, lim);
    case DoShut(c, names) => ShutPaid(s, c, names, lim);
    case DoEvict(t, order) => EvictPaid(s, t, order, lim);
    case DoTask(k, order) => TaskPaid(s, k, order, lim);
  }

  // ---- Progress ----

  /** Nothing is left to do until a client does something. */
  ghost predicate Quiescent(s: State) {
    && (forall c | 0 <= c < |s.sessions| :: s.sessions[c].Reading? || s.sessions[c].Closed?)
    && (forall h | 0 <= h < |s.hs| :: s.hs[h].actor == Idle)
    && (forall t | 0 <= t < |s.store.calls| :: s.store.calls[t].pc.Done?)
    && (forall k | 0 <= k < |s.tasks| :: s.tasks[k].Delivered? || s.tasks[k].Finished?)
  }

  ghost predicate Stuck(s: State) {
    forall a :: Enabled(s, a) ==> !Internal(a)
  }

  lemma TaskCanStep(s: State, k: nat)
    requires k < |s.tasks| && !s.tasks[k].Delivered? && !s.tasks[k].Finished?
    ensures !Stuck(s)
  {
    var order := match s.tasks[k]
      case Deliver(_, ref) => SomeOrder(Store.Members(s.store, ref))
      case Write(h, _) => SomeOrder(ConnsOf(s, h))
      case _ => [];
    assert Enabled(s, DoTask(k, order)) && Internal(DoTask(k, order));
  }

  ghost function SomeBroadcast(store: Store.State, t: nat): (order: seq<nat>)
    ensures Broadcasts(store, t, order)
  {
    if Returned(store, t) && Told(store, t).Some? then SomeOrder(Told(store, t).value) else []
  }

  lemma ActorCanStep(s: State, h: nat)
    requires Inv(s) && h < |s.hs| && s.hs[h].actor != Idle
    ensures !Stuck(s)
  {
    assert ChatProtocol.ActorOk(s, h) && ActorCallOk(s, h);
    if s.hs[h].actor.Finding? {
      assert Enabled(s, DoFind(h)) && Internal(DoFind(h));
    } else if s.hs[h].actor.Indexing? {
      assert Enabled(s, DoIndex(h, true)) && Internal(DoIndex(h, true));
    } else if s.hs[h].actor.Replying? {
      var c := s.requests[s.hs[h].actor.r].owner;
      assert Enabled(s, DoReply(h, c)) && Internal(DoReply(h, c));
    } else {
      var t := CallOf(s.hs[h].actor).value;
      var order := SomeBroadcast(Store.Advance(s.store, t), t);
      assert Enabled(s, DoActorStep(h, order)) && Internal(DoActorStep(h, order));
    }
  }

  lemma CallCanStep(s: State, t: nat)
    requires Inv(s) && Store.Running(s.store, t)
    ensures !Stuck(s)
  {
    assert CallOwned(s, t, {});
    if s.store.calls[t].op.kind == Evict {
      var order := SomeBroadcast(Store.Advance(s.store, t), t);
      assert Enabled(s, DoEvict(t, order)) && Internal(DoEvict(t, order));
    } else {
      ActorCanStep(s, s.store.calls[t].op.user);
    }
  }

  lemma SessionCanStep(s: State, c: nat)
    requires Inv(s) && c < |s.sessions| && !s.sessions[c].Reading? && !s.sessions[c].Closed?
    ensures !Stuck(s)
  {
    assert ChatProtocol.SessionOk(s, c);
    match s.sessions[c] {
      case Calling(_, _, _) => assert Enabled(s, DoFindHandler(c)) && Internal(DoFindHandler(c));
      case Closing(_) =>
        var names := SomeOrder(s.store.names.Keys);
        assert Enabled(s, DoShut(c, names)) && Internal(DoShut(c, names));
      case Sending(_, h, _) =>
        if s.hs[h].actor == Idle {
          assert Enabled(s, DoRendezvous(c)) && Internal(DoRendezvous(c));
        } else {
          ActorCanStep(s, h);
        }
      case Awaiting(_, h, _) => ActorCanStep(s, h);
    }
  }

  /** The chat only ever stops when nothing is left to do. */
  lemma StuckIsQuiescent(s: State)
    requires Inv(s) && Stuck(s)
    ensures Quiescent(s)
  {
    forall c | 0 <= c < |s.sessions| ensures s.sessions[c].Reading? || s.sessions[c].Closed? {
      if !s.sessions[c].Reading? && !s.sessions[c].Closed? { SessionCanStep(s, c); }
    }
    forall h | 0 <= h < |s.hs| ensures s.hs[h].actor == Idle { if s.hs[h].actor != Idle { ActorCanStep(s, h); } }
    forall t | 0 <= t < |s.store.calls| ensures s.store.calls[t].pc.Done? {
      if Store.Running(s.store, t) { CallCanStep(s, t); }
    }
    forall k | 0 <= k < |s.tasks| ensures s.tasks[k].Delivered? || s.tasks[k].Finished? {
      if !s.tasks[k].Delivered? && !s.tasks[k].Finished? { TaskCanStep(s, k); }
    }
  }

  // ---- The theorem ----

  ghost predicate InternalNext(s: State, s': State) {
    exists a :: Enabled(s, a) && Internal(a) && s' == Apply(s, a)
  }

  /** A stretch of a run in which no client does anything. */
  ghost predicate Undisturbed(trace: seq<State>) {
    && |trace| > 0
    && forall i | 0 <= i < |trace| - 1 :: InternalNext(trace[i], trace[i + 1])
  }

  lemma InternalStep(s: State, s': State, lim: Limits)
    requires Inv(s) && ConnsKnown(s) && Within(s, lim) && InternalNext(s, s')
    ensures Inv(s') && ConnsKnown(s') && Paid(s, s', lim)
  {
    var a :| Enabled(s, a) && Internal(a) && s' == Apply(s, a);
    ChatInvariant.ApplyKeeps(s, a);
    ApplyKeepsConns(s, a);
    StepIsPaid(s, a, lim);
  }

  lemma {:induction false} StretchIsPaid(trace: seq<State>, lim: Limits)
    requires Undisturbed(trace) && Inv(trace[0]) && ConnsKnown(trace[0]) && Within(trace[0], lim)
    ensures var s := trace[|trace| - 1];
      Inv(s) && ConnsKnown(s) && Within(s, lim) && |trace| - 1 + Weight(s, lim) <= Weight(trace[0], lim)
  {
    if |trace| > 1 {
      var before := trace[..|trace| - 1];
      StretchIsPaid(before, lim);
      assert InternalNext(trace[|trace| - 2], trace[|trace| - 2 + 1]);
      InternalStep(before[|before| - 1], trace[|trace| - 1], lim);
    }
  }

  /**
   From any reachable state, however the goroutines are scheduled, at most Weight steps happen before the next
   input, and when no step is left every request is answered, every removal done, every event written out, and
   only users in the pool are members of channels.
   */
  lemma AlwaysDrains(trace: seq<State>)
    requires Undisturbed(trace) && ChatTheorems.Reachable(trace[0])
    ensures |trace| - 1 <= Weight(trace[0], LimitsOf(trace[0]))
    ensures var s := trace[|trace| - 1]; Stuck(s) ==>
      && Quiescent(s)
      && (forall r | 0 <= r < |s.requests| :: ChatTheorems.Answered(s, r))
      && (forall ref: nat, h: nat | h in Store.Members(s.store, ref) :: Current(s, h))
  {
    ChatTheorems.ReachableInv(trace[0]);
    StretchIsPaid(trace, LimitsOf(trace[0]));
    if Stuck(trace[|trace| - 1]) {
      StuckIsQuiescent(trace[|trace| - 1]);
      QuiescentMembers(trace[|trace| - 1]);
    }
  }

  lemma QuiescentMembers(s: State)
    requires Inv(s) && Quiescent(s)
    ensures forall r | 0 <= r < |s.requests| :: ChatTheorems.Answered(s, r)
    ensures forall ref: nat, h: nat | h in Store.Members(s.store, ref) :: Current(s, h)
  {
    forall r | 0 <= r < |s.requests| ensures ChatTheorems.Answered(s, r) {
      assert ChatProtocol.AnswerOk(s, r);
      assert s.requests[r].reply.Some? && s.log[s.requests[r].reply.value].r == r;
    }
    forall ref: nat, h: nat | h in Store.Members(s.store, ref) ensures Current(s, h) {
      assert MemberOk(s, ref, h);
    }
  }
}
