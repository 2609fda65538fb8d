/** What every interleaving of the channel store keeps, and linearizability as its consequence. */
module StoreProofs {
  import opened Collections
  import opened StoreSpec
  import opened StoreMachine

  // ---- Sequential reading of a history ----

  /** The relation left by the linearization points of a history, replayed in order. */
  function Replay(h: seq<Event>): Relation<nat> {
    if h == [] then map[] else
      var before := Replay(h[..|h| - 1]);
      var e := h[|h| - 1];
      if e.Linearized? then After(before, e.op) else before
  }

  /** Every linearization point answers what the atomic store would have answered there. */
  predicate Legal(h: seq<Event>) {
    h == [] || (
      var e := h[|h| - 1];
      Legal(h[..|h| - 1]) && (e.Linearized? ==> e.outcome == Result(Replay(h[..|h| - 1]), e.op)))
  }

  /**
   Linearizability of a history. Every call that returned was invoked, then took effect exactly once, then
   returned, with the answer it took effect with; and the effects in order are a legal run of the atomic
   store. An eviction is spawned with `go` and its answer discarded, so nobody observes that one.
   */
  ghost predicate Linearizable(h: seq<Event>) {
    && Legal(h)
    && (forall j, k | 0 <= j < |h| && 0 <= k < |h| ::
          h[j].Linearized? && h[k].Linearized? && h[j].call == h[k].call ==> j == k)
    && (forall j | 0 <= j < |h| :: h[j].Linearized? ==> InvokedBefore(h, j))
    && (forall j | 0 <= j < |h| :: h[j].Returned? ==> EffectBefore(h, j))
  }

  ghost predicate InvokedBefore(h: seq<Event>, j: nat)
    requires j < |h|
  {
    exists i | 0 <= i < j :: h[i] == Invoked(h[j].call, h[j].op)
  }

  ghost predicate EffectBefore(h: seq<Event>, j: nat)
    requires j < |h| && h[j].Returned?
  {
    exists k | 0 <= k < j :: h[k].Linearized? && h[k].call == h[j].call && h[k].op == h[j].op
      && (h[j].op.kind != Evict ==> h[k].outcome == h[j].outcome)
  }

  // ---- The invariant ----

  function View(s: State): Relation<nat> {
    map n | n in s.names :: Members(s, s.names[n])
  }

  ghost predicate Naming(s: State) {
    && "" !in s.names
    && (forall n | n in s.names :: s.names[n] < |s.channels| && s.channels[s.names[n]].name == n)
    && (forall r | 0 <= r < |s.channels| :: s.channels[r].name in s.names && s.names[s.channels[r].name] == r)
  }

  ghost predicate RefOk(s: State, op: Op<nat>, ref: nat) {
    op.name in s.names && s.names[op.name] == ref
  }

  /** Every reference a call holds is still the channel its name leads to. */
  ghost predicate CallOk(s: State, c: Call) {
    match c.pc
    case Lookup => c.lin == None
    case Check(ref) => RefOk(s, c.op, ref) && !c.op.kind.Create? && c.lin == None
    case Change(ref) =>
      && RefOk(s, c.op, ref) && c.op.kind !in {Create, Present}
      && (c.op.kind == Join ==> c.op.user !in Members(s, ref))
      && (c.op.kind == Leave ==> (c.lin == None <==> c.op.user in Members(s, ref)))
      && (c.op.kind != Leave ==> c.lin == None)
    case Notify(ref) => RefOk(s, c.op, ref) && c.op.kind !in {Create, Present} && c.lin.Some?
    case Done(at) => c.lin.Some?
  }

  ghost predicate CallsOk(s: State) {
    forall t | 0 <= t < |s.calls| :: CallOk(s, s.calls[t])
  }

  ghost predicate Serialised(s: State) {
    forall t: nat, u: nat, user: nat | OwnCall(s, t, user) && OwnCall(s, u, user) :: t == u
  }

  /** Each call's own marks point at its own events, in order. */
  ghost predicate Marked(s: State, t: nat)
    requires t < |s.calls|
  {
    var c, h := s.calls[t], s.history;
    && c.invoked < |h| && h[c.invoked] == Invoked(t, c.op)
    && (c.lin.Some? ==>
          && c.invoked < c.lin.value < |h|
          && h[c.lin.value].Linearized? && h[c.lin.value].call == t && h[c.lin.value].op == c.op
          && (c.pc.Change? || c.pc.Notify? ==> c.op.kind != Evict ==> h[c.lin.value].outcome == Ok))
    && (c.pc.Done? && c.lin.Some? ==>
          && c.lin.value < c.pc.at < |h|
          && h[c.pc.at].Returned? && h[c.pc.at].call == t && h[c.pc.at].op == c.op
          && (c.op.kind != Evict ==> h[c.pc.at].outcome == h[c.lin.value].outcome))
  }

  /** ... and every event is the one its call points at. */
  ghost predicate Owned(s: State, j: nat)
    requires j < |s.history|
  {
    var e := s.history[j];
    && e.call < |s.calls|
    && match e
       case Invoked(t, _) => s.calls[t].invoked == j
       case Linearized(t, _, _) => s.calls[t].lin == Some(j)
       case Returned(t, _, _, _) => s.calls[t].pc == Done(j)
  }

  ghost predicate Bookkept(s: State) {
    && (forall t | 0 <= t < |s.calls| :: Marked(s, t))
    && (forall j | 0 <= j < |s.history| :: Owned(s, j))
  }

  ghost predicate Replayed(s: State) {
    Legal(s.history) && Replay(s.history) == View(s)
  }

  ghost predicate Inv(s: State) {
    Naming(s) && CallsOk(s) && Serialised(s) && Bookkept(s) && Replayed(s)
  }

  // ---- Preservation ----

  lemma AppendEvent(h: seq<Event>, e: Event)
    requires Legal(h)
    requires e.Linearized? ==> e.outcome == Result(Replay(h), e.op)
    ensures Legal(h + [e])
    ensures Replay(h + [e]) == if e.Linearized? then After(Replay(h), e.op) else Replay(h)
  {
    assert (h + [e])[..|h|] == h;
  }

  lemma StartKeeps(s: State, op: Op<nat>)
    requires Inv(s) && CanStart(s, op)
    ensures Inv(Start(s, op))
  {
    var s' := Start(s, op);
    AppendEvent(s.history, Invoked(|s.calls|, op));
    assert View(s') == View(s);
    forall t | 0 <= t < |s'.calls| ensures CallOk(s', s'.calls[t]) && Marked(s', t) {
      if t < |s.calls| { assert CallOk(s, s.calls[t]) && Marked(s, t); }
    }
    forall j | 0 <= j < |s'.history| ensures Owned(s', j) {
      if j < |s.history| { assert Owned(s, j); }
    }
    StartSerialised(s, op);
  }

  lemma StartSerialised(s: State, op: Op<nat>)
    requires Serialised(s) && CanStart(s, op)
    ensures Serialised(Start(s, op))
  {
    var s' := Start(s, op);
    forall t: nat, u: nat, user: nat | OwnCall(s', t, user) && OwnCall(s', u, user) ensures t == u {
      assert t < |s.calls| ==> OwnCall(s, t, user);
      assert u < |s.calls| ==> OwnCall(s, u, user);
    }
  }

  /** What one step does to the other calls: at most it makes a pending leave take effect. */
  ghost predicate Untouched(c: Call, c': Call) {
    c'.op == c.op && c'.pc == c.pc && c'.invoked == c.invoked && (c.lin.Some? ==> c'.lin == c.lin)
  }

  lemma SerialisedKept(s: State, s': State, t: nat)
    requires Serialised(s) && Running(s, t) && |s'.calls| == |s.calls|
    requires forall u | 0 <= u < |s.calls| && u != t :: Untouched(s.calls[u], s'.calls[u])
    requires s'.calls[t].op == s.calls[t].op
    ensures Serialised(s')
  {
    forall u: nat, w: nat, user: nat | OwnCall(s', u, user) && OwnCall(s', w, user) ensures u == w {
      assert OwnCall(s, u, user) && OwnCall(s, w, user);
    }
  }

  lemma LinearizeBooks(s: State, t: nat, outcome: Outcome)
    requires Bookkept(s) && Running(s, t) && s.calls[t].lin == None
    requires s.calls[t].pc.Change? && s.calls[t].op.kind != Evict ==> outcome == Ok
    requires !s.calls[t].pc.Notify?
    ensures Bookkept(Linearize(s, t, outcome))
  {
    var s' := Linearize(s, t, outcome);
    forall u | 0 <= u < |s'.calls| ensures Marked(s', u) { assert Marked(s, u); }
    forall j | 0 <= j < |s'.history| ensures Owned(s', j) { assert j < |s.history| ==> Owned(s, j); }
  }

  lemma ReturnBooks(s: State, t: nat, outcome: Outcome, told: Option<set<nat>>)
    requires Bookkept(s) && Running(s, t) && s.calls[t].lin.Some?
    requires Marked(s, t) && s.calls[t].op.kind != Evict ==> outcome == s.history[s.calls[t].lin.value].outcome
    ensures Bookkept(Return(s, t, outcome, told))
  {
    var s' := Return(s, t, outcome, told);
    forall u | 0 <= u < |s'.calls| ensures Marked(s', u) { assert Marked(s, u); }
    forall j | 0 <= j < |s'.history| ensures Owned(s', j) { assert j < |s.history| ==> Owned(s, j); }
  }

  lemma GotoBooks(s: State, t: nat, pc: Pc)
    requires Bookkept(s) && Running(s, t) && !pc.Done?
    requires s.calls[t].lin.Some? ==> s.calls[t].pc.Change?
    ensures Bookkept(Goto(s, t, pc))
  {
    var s' := Goto(s, t, pc);
    forall u | 0 <= u < |s'.calls| ensures Marked(s', u) { assert Marked(s, u); }
    forall j | 0 <= j < |s'.history| ensures Owned(s', j) { assert Owned(s, j); }
  }

  lemma FinishKeeps(s: State, s0: State, t: nat, outcome: Outcome)
    requires Inv(s) && Running(s, t) && s.calls[t].lin == None && !s.calls[t].pc.Change? && !s.calls[t].pc.Notify?
    requires Naming(s0) && CallsOk(s0) && s0.calls == s.calls && s0.history == s.history
    requires outcome == Result(View(s), s.calls[t].op)
    requires View(s0) == After(View(s), s.calls[t].op)
    ensures Inv(Finish(s0, t, outcome))
  {
    var s1 := Linearize(s0, t, outcome);
    var s2 := Return(s1, t, outcome, None);
    FinishBooks(s, s0, t, outcome);
    AppendEvent(s.history, Linearized(t, s.calls[t].op, outcome));
    AppendEvent(s1.history, Returned(t, s.calls[t].op, outcome, None));
    assert View(s2) == View(s0);
    SerialisedKept(s, s2, t);
    forall u | 0 <= u < |s2.calls| ensures CallOk(s2, s2.calls[u]) { assert CallOk(s0, s0.calls[u]); }
  }

  lemma FinishBooks(s: State, s0: State, t: nat, outcome: Outcome)
    requires Bookkept(s) && Running(s, t) && s.calls[t].lin == None && !s.calls[t].pc.Change? && !s.calls[t].pc.Notify?
    requires s0.calls == s.calls && s0.history == s.history
    ensures Bookkept(Finish(s0, t, outcome))
  {
    forall u | 0 <= u < |s.calls| ensures Marked(s0, u) { assert Marked(s, u); }
    forall j | 0 <= j < |s.history| ensures Owned(s0, j) { assert Owned(s, j); }
    LinearizeBooks(s0, t, outcome);
    ReturnBooks(Linearize(s0, t, outcome), t, outcome, None);
  }

  lemma GotoKeeps(s: State, t: nat, pc: Pc)
    requires Inv(s) && Running(s, t) && !pc.Done? && s.calls[t].lin == None
    requires CallOk(s, s.calls[t].(pc := pc))
    ensures Inv(Goto(s, t, pc))
  {
    var s' := Goto(s, t, pc);
    assert View(s') == View(s);
    SerialisedKept(s, s', t);
    GotoBooks(s, t, pc);
    forall u | 0 <= u < |s'.calls| ensures CallOk(s', s'.calls[u]) { assert CallOk(s, s.calls[u]); }
  }

  lemma CreatedView(s: State, op: Op<nat>, s0: State)
    requires Naming(s) && CallsOk(s) && op.name != "" && op.kind.Create? && op.name !in s.names
    requires s0 == s.(names := s.names[op.name := |s.channels|], channels := s.channels + [ChannelObj(op.name, {})])
    ensures Naming(s0) && CallsOk(s0) && View(s0) == After(View(s), op)
  {
    forall u | 0 <= u < |s.calls| ensures CallOk(s0, s.calls[u]) { assert CallOk(s, s.calls[u]); }
  }

  lemma LookupKeeps(s: State, t: nat)
    requires Inv(s) && Running(s, t) && s.calls[t].pc.Lookup?
    ensures Inv(AtLookup(s, t))
  {
    var op := s.calls[t].op;
    assert CallOk(s, s.calls[t]);
    if op.name != "" && op.kind.Create? && op.name !in s.names {
      var s0 := s.(names := s.names[op.name := |s.channels|], channels := s.channels + [ChannelObj(op.name, {})]);
      CreatedView(s, op, s0);
      FinishKeeps(s, s0, t, Ok);
    } else if op.name == "" || op.kind.Create? || op.name !in s.names {
      FinishKeeps(s, s, t, Result(View(s), op));
    } else {
      GotoKeeps(s, t, Check(s.names[op.name]));
    }
  }

  lemma CheckKeeps(s: State, t: nat)
    requires Inv(s) && Running(s, t) && s.calls[t].pc.Check?
    ensures Inv(AtCheck(s, t))
  {
    var op, ref := s.calls[t].op, s.calls[t].pc.ref;
    assert CallOk(s, s.calls[t]);
    assert View(s)[op.name] == Members(s, ref);
    if op.kind.Present? || (op.user in Members(s, ref)) == op.kind.Join? {
      FinishKeeps(s, s, t, Result(View(s), op));
    } else {
      GotoKeeps(s, t, Change(ref));
    }
  }

  lemma NotifyKeeps(s: State, t: nat)
    requires Inv(s) && Running(s, t) && s.calls[t].pc.Notify?
    ensures Inv(AtNotify(s, t))
  {
    var s' := AtNotify(s, t);
    var c := s.calls[t];
    assert CallOk(s, c) && Marked(s, t);
    AppendEvent(s.history, Returned(t, c.op, Ok, Some(Members(s, c.pc.ref))));
    assert View(s') == View(s);
    SerialisedKept(s, s', t);
    ReturnBooks(s, t, Ok, Some(Members(s, c.pc.ref)));
    forall u | 0 <= u < |s'.calls| ensures CallOk(s', s'.calls[u]) { assert CallOk(s, s.calls[u]); }
  }

  // ---- The change step ----

  /** The state after the member set of `ref` has been written: everything but the members is as before. */
  lemma SetMembersFrame(s: State, ref: nat, members: set<nat>)
    requires Inv(s) && ref < |s.channels|
    ensures var s' := SetMembers(s, ref, members);
      && Naming(s') && Bookkept(s') && s'.calls == s.calls && s'.history == s.history && s'.names == s.names
      && View(s') == View(s)[s.channels[ref].name := members]
      && Members(s', ref) == members
      && (forall r: nat | r != ref :: Members(s', r) == Members(s, r))
  {
    var s' := SetMembers(s, ref, members);
    forall u | 0 <= u < |s.calls| ensures Marked(s', u) { assert Marked(s, u); }
    forall j | 0 <= j < |s.history| ensures Owned(s', j) { assert Owned(s, j); }
    assert forall n | n in s.names && s.names[n] == ref :: n == s.channels[ref].name;
  }

  /**
   `s'` is `s` after call `t` has written the member set of its channel: its user was added by a join, removed
   otherwise, and a removal by somebody else has made the user's own pending leave take effect.
   */
  ghost predicate Written(s: State, s': State, t: nat)
    requires t < |s.calls| && s.calls[t].pc.Change?
  {
    var op, ref := s.calls[t].op, s.calls[t].pc.ref;
    && s'.names == s.names && |s'.channels| == |s.channels| && |s'.calls| == |s.calls| && s'.calls[t].op == op
    && (forall r: nat | r != ref :: Members(s', r) == Members(s, r))
    && Members(s', ref) == (if op.kind == Join then Members(s, ref) + {op.user} else Members(s, ref) - {op.user})
    && (forall w | 0 <= w < |s.calls| && w != t :: Untouched(s.calls[w], s'.calls[w]))
    && (forall w: nat | w < |s.calls| && w != t ::
          PendingLeave(s, w, op.user, ref) ==> op.kind == Evict && s'.calls[w].lin.Some?)
    && (forall w: nat | w < |s.calls| && w != t ::
          !PendingLeave(s, w, op.user, ref) ==> s'.calls[w] == s.calls[w])
  }

  /** Calls other than `t` are still sound once `t` has written. */
  lemma OthersStayOk(s: State, s': State, t: nat)
    requires Inv(s) && Running(s, t) && s.calls[t].pc.Change? && Written(s, s', t)
    ensures forall w | 0 <= w < |s.calls| && w != t :: CallOk(s', s'.calls[w])
  {
    var op, ref := s.calls[t].op, s.calls[t].pc.ref;
    assert CallOk(s, s.calls[t]);
    forall w | 0 <= w < |s.calls| && w != t ensures CallOk(s', s'.calls[w]) {
      var c := s.calls[w];
      assert CallOk(s, c);
      if c.pc == Change(ref) {
        if c.op.user == op.user && op.kind in {Join, Leave} && c.op.kind in {Join, Leave} {
          assert OwnCall(s, t, op.user) && OwnCall(s, w, op.user);
        }
        assert c.op.kind == Leave && c.op.user == op.user && c.lin == None ==> PendingLeave(s, w, op.user, ref);
      }
    }
  }

  lemma ChangeKeeps(s: State, t: nat)
    requires Inv(s) && Running(s, t) && s.calls[t].pc.Change?
    ensures Inv(AtChange(s, t))
  {
    var op, ref := s.calls[t].op, s.calls[t].pc.ref;
    assert CallOk(s, s.calls[t]);
    assert View(s)[op.name] == Members(s, ref);
    if op.kind == Join {
      JoinKeeps(s, t);
    } else if op.kind == Leave {
      LeaveKeeps(s, t);
    } else {
      EvictKeeps(s, t);
    }
  }

  lemma JoinKeeps(s: State, t: nat)
    requires Inv(s) && Running(s, t) && s.calls[t].pc.Change? && s.calls[t].op.kind == Join
    ensures Inv(AtChange(s, t))
  {
    var op, ref := s.calls[t].op, s.calls[t].pc.ref;
    assert CallOk(s, s.calls[t]);
    var s1 := SetMembers(s, ref, Members(s, ref) + {op.user});
    SetMembersFrame(s, ref, Members(s, ref) + {op.user});
    ChangeTail(s, s1, t, Ok);
  }

  lemma LeaveKeeps(s: State, t: nat)
    requires Inv(s) && Running(s, t) && s.calls[t].pc.Change? && s.calls[t].op.kind == Leave
    ensures Inv(AtChange(s, t))
  {
    var op, ref := s.calls[t].op, s.calls[t].pc.ref;
    assert CallOk(s, s.calls[t]);
    var s1 := SetMembers(s, ref, Members(s, ref) - {op.user});
    SetMembersFrame(s, ref, Members(s, ref) - {op.user});
    assert forall w: nat | PendingLeave(s, w, op.user, ref) && w != t :: OwnCall(s, w, op.user);
    assert OwnCall(s, t, op.user);
    if s.calls[t].lin.None? {
      ChangeTail(s, s1, t, Ok);
    } else {
      assert Members(s, ref) - {op.user} == Members(s, ref);
      assert s1 == s by { assert s1.channels == s.channels; }
      GotoBooks(s, t, Notify(ref));
      var s' := Goto(s, t, Notify(ref));
      assert View(s') == View(s);
      SerialisedKept(s, s', t);
      forall w | 0 <= w < |s'.calls| ensures CallOk(s', s'.calls[w]) { assert CallOk(s, s.calls[w]); }
    }
  }

  function TakeEffect(s: State, t: nat, outcome: Outcome, ref: nat): State
    requires t < |s.calls|
  {
    Goto(Linearize(s, t, outcome), t, Notify(ref))
  }

  lemma EffectBooks(s: State, t: nat, outcome: Outcome, ref: nat)
    requires Bookkept(s) && Running(s, t) && s.calls[t].pc.Change? && s.calls[t].lin == None
    requires s.calls[t].op.kind != Evict ==> outcome == Ok
    ensures Bookkept(TakeEffect(s, t, outcome, ref))
  {
    LinearizeBooks(s, t, outcome);
    GotoBooks(Linearize(s, t, outcome), t, Notify(ref));
  }

  lemma EffectReplays(s: State, t: nat, outcome: Outcome, ref: nat)
    requires t < |s.calls| && Legal(s.history) && outcome == Result(Replay(s.history), s.calls[t].op)
    requires After(Replay(s.history), s.calls[t].op) == View(s)
    ensures Replayed(TakeEffect(s, t, outcome, ref))
  {
    AppendEvent(s.history, Linearized(t, s.calls[t].op, outcome));
    assert View(TakeEffect(s, t, outcome, ref)) == View(s);
  }

  lemma EffectCalls(s: State, s2: State, t: nat, outcome: Outcome)
    requires Inv(s) && Running(s, t) && s.calls[t].pc.Change?
    requires Written(s, s2, t) && s2.calls[t] == s.calls[t]
    ensures CallsOk(TakeEffect(s2, t, outcome, s.calls[t].pc.ref))
    ensures Serialised(TakeEffect(s2, t, outcome, s.calls[t].pc.ref))
  {
    var s4 := TakeEffect(s2, t, outcome, s.calls[t].pc.ref);
    assert CallOk(s, s.calls[t]);
    assert Written(s, s4, t);
    SerialisedKept(s, s4, t);
    OthersStayOk(s, s4, t);
  }

  /** Call `t` has written, giving `s2`, and takes effect now. */
  lemma ChangeTail(s: State, s2: State, t: nat, outcome: Outcome)
    requires Inv(s) && Running(s, t) && s.calls[t].pc.Change? && s.calls[t].lin == None
    requires Written(s, s2, t) && s2.calls[t] == s.calls[t] && Naming(s2) && Bookkept(s2)
    requires Legal(s2.history) && outcome == Result(Replay(s2.history), s.calls[t].op)
    requires After(Replay(s2.history), s.calls[t].op) == View(s2)
    requires s.calls[t].op.kind != Evict ==> outcome == Ok
    ensures Inv(TakeEffect(s2, t, outcome, s.calls[t].pc.ref))
  {
    EffectBooks(s2, t, outcome, s.calls[t].pc.ref);
    EffectReplays(s2, t, outcome, s.calls[t].pc.ref);
    EffectCalls(s, s2, t, outcome);
  }

  lemma EvictKeeps(s: State, t: nat)
    requires Inv(s) && Running(s, t) && s.calls[t].pc.Change? && s.calls[t].op.kind == Evict
    ensures Inv(AtChange(s, t))
  {
    var op, ref := s.calls[t].op, s.calls[t].pc.ref;
    var members := Members(s, ref);
    var s1 := SetMembers(s, ref, members - {op.user});
    if op.user in members && exists w :: PendingLeave(s, w, op.user, ref) {
      var w: nat :| PendingLeave(s, w, op.user, ref) &&
        AtChange(s, t) == TakeEffect(Linearize(s1, w, Ok), t, Err(UserNotInChannel), ref);
      EvictHelps(s, t, w);
    } else {
      EvictAlone(s, t);
    }
  }

  lemma EvictHelps(s: State, t: nat, w: nat)
    requires Inv(s) && Running(s, t) && s.calls[t].pc.Change? && s.calls[t].op.kind == Evict
    requires PendingLeave(s, w, s.calls[t].op.user, s.calls[t].pc.ref)
    ensures var op, ref := s.calls[t].op, s.calls[t].pc.ref;
      var s1 := SetMembers(s, ref, Members(s, ref) - {op.user});
      Inv(TakeEffect(Linearize(s1, w, Ok), t, Err(UserNotInChannel), ref))
  {
    var op, ref := s.calls[t].op, s.calls[t].pc.ref;
    var s1 := SetMembers(s, ref, Members(s, ref) - {op.user});
    assert CallOk(s, s.calls[t]);
    HelpedLeave(s, t, w);
    ChangeTail(s, Linearize(s1, w, Ok), t, Err(UserNotInChannel));
  }

  /** An eviction that has no leave to help. */
  lemma EvictAlone(s: State, t: nat)
    requires Inv(s) && Running(s, t) && s.calls[t].pc.Change? && s.calls[t].op.kind == Evict
    requires s.calls[t].op.user !in Members(s, s.calls[t].pc.ref)
             || !exists w :: PendingLeave(s, w, s.calls[t].op.user, s.calls[t].pc.ref)
    ensures Inv(AtChange(s, t))
  {
    var op, ref := s.calls[t].op, s.calls[t].pc.ref;
    var members := Members(s, ref);
    assert CallOk(s, s.calls[t]);
    SetMembersFrame(s, ref, members - {op.user});
    forall w: nat | w < |s.calls| ensures !PendingLeave(s, w, op.user, ref) { assert CallOk(s, s.calls[w]); }
    if op.user !in members { assert members - {op.user} == members; }
    ChangeTail(s, SetMembers(s, ref, members - {op.user}), t, if op.user in members then Ok else Err(UserNotInChannel));
  }

  /** An eviction that removes a member whose leave is pending makes that leave, and no other, take effect. */
  lemma HelpedLeave(s: State, t: nat, w: nat)
    requires Inv(s) && Running(s, t) && s.calls[t].pc.Change? && s.calls[t].op.kind == Evict
    requires PendingLeave(s, w, s.calls[t].op.user, s.calls[t].pc.ref)
    ensures var op, ref := s.calls[t].op, s.calls[t].pc.ref;
      var s1 := SetMembers(s, ref, Members(s, ref) - {op.user});
      var s2 := Linearize(s1, w, Ok);
      && Written(s, s2, t) && Naming(s2) && Bookkept(s2) && Legal(s2.history)
      && Replay(s2.history) == View(s2) && op.name in View(s2) && op.user !in View(s2)[op.name]
  {
    var op, ref := s.calls[t].op, s.calls[t].pc.ref;
    var s1 := SetMembers(s, ref, Members(s, ref) - {op.user});
    SetMembersFrame(s, ref, Members(s, ref) - {op.user});
    assert CallOk(s, s.calls[t]) && CallOk(s, s.calls[w]);
    assert s.calls[w].op == Op(Leave, op.name, op.user);
    var s2 := Linearize(s1, w, Ok);
    LinearizeBooks(s1, w, Ok);
    AppendEvent(s.history, Linearized(w, s.calls[w].op, Ok));
    forall v: nat | PendingLeave(s, v, op.user, ref) ensures v == w {
      assert OwnCall(s, v, op.user) && OwnCall(s, w, op.user);
    }
    assert View(s2) == View(s1);
  }

  // ---- The theorems ----

  lemma ApplyKeeps(s: State, a: Action)
    requires Inv(s) && Enabled(s, a)
    ensures Inv(Apply(s, a))
  {
    match a
    case StartCall(op) => StartKeeps(s, op);
    case AdvanceCall(t) =>
      match s.calls[t].pc
      case Lookup => LookupKeeps(s, t);
      case Check(_) => CheckKeeps(s, t);
      case Change(_) => ChangeKeeps(s, t);
      case Notify(_) => NotifyKeeps(s, t);
  }

  lemma {:induction false} RunKeeps(trace: seq<State>)
    requires Run(trace)
    ensures Inv(trace[|trace| - 1])
  {
    if |trace| == 1 {
      assert View(INIT) == map[];
    } else {
      var n := |trace| - 2;
      RunKeeps(trace[..n + 1]);
      assert Next(trace[n], trace[n + 1]);
      var a :| Enabled(trace[n], a) && trace[n + 1] == Apply(trace[n], a);
      ApplyKeeps(trace[n], a);
    }
  }

  /** The concurrent channel store is linearizable, and what it holds is what the linearization says. */
  lemma StoreIsLinearizable(trace: seq<State>)
    requires Run(trace)
    ensures var s := trace[|trace| - 1]; Linearizable(s.history) && View(s) == Replay(s.history)
  {
    RunKeeps(trace);
    InvLinearizable(trace[|trace| - 1]);
  }

  lemma InvLinearizable(s: State)
    requires Inv(s)
    ensures Linearizable(s.history)
  {
    var h := s.history;
    forall j, k | 0 <= j < |h| && 0 <= k < |h| && h[j].Linearized? && h[k].Linearized? && h[j].call == h[k].call
      ensures j == k
    {
      assert Owned(s, j) && Owned(s, k);
    }
    forall j | 0 <= j < |h| && h[j].Linearized? ensures InvokedBefore(h, j) {
      assert Owned(s, j) && Marked(s, h[j].call);
      assert h[s.calls[h[j].call].invoked] == Invoked(h[j].call, h[j].op);
    }
    forall j | 0 <= j < |h| && h[j].Returned? ensures EffectBefore(h, j) {
      assert Owned(s, j) && Marked(s, h[j].call) && CallOk(s, s.calls[h[j].call]);
    }
  }

  /** Whatever ran since its HasMember, a join about to add its user finds that user still absent. */
  lemma JoinCheckIsStable(trace: seq<State>, t: nat)
    requires Run(trace)
    requires var s := trace[|trace| - 1]; Running(s, t) && s.calls[t].op.kind == Join && s.calls[t].pc.Change?
    ensures var s := trace[|trace| - 1]; s.calls[t].op.user !in Members(s, s.calls[t].pc.ref)
  {
    RunKeeps(trace);
    assert CallOk(trace[|trace| - 1], trace[|trace| - 1].calls[t]);
  }

  // ---- Consequences for whole histories ----

  /** How often a call of this kind has taken effect successfully for this channel and user. */
  function Effective(h: seq<Event>, kind: Kind, name: string, user: nat): nat {
    if h == [] then 0 else
      var e := h[|h| - 1];
      Effective(h[..|h| - 1], kind, name, user)
      + (if e.Linearized? && e.outcome == Ok && e.op == Op(kind, name, user) then 1 else 0)
  }

  /** Joins and removals of a user alternate: at every moment the joins exceed them by exactly the membership. */
  lemma {:induction false} MembershipAccounting(h: seq<Event>, name: string, user: nat)
    requires Legal(h)
    ensures Effective(h, Join, name, user) ==
              Effective(h, Leave, name, user) + Effective(h, Evict, name, user)
              + (if Member(Replay(h), name, user) then 1 else 0)
  {
    if h != [] {
      MembershipAccounting(h[..|h| - 1], name, user);
    }
  }

  predicate Creation(e: Event, name: string) {
    e.Linearized? && e.op.kind == Create && e.op.name == name && e.outcome == Ok
  }

  /** Nothing ever makes a channel with the empty name. */
  lemma {:induction false} NoEmptyName(h: seq<Event>)
    ensures "" !in Replay(h)
  {
    if h != [] { NoEmptyName(h[..|h| - 1]); }
  }

  lemma {:induction false} ChannelsStay(h: seq<Event>, n: nat)
    requires n <= |h|
    ensures Replay(h[..n]).Keys <= Replay(h).Keys
  {
    if n < |h| {
      ChannelsStay(h[..|h| - 1], n);
      assert h[..|h| - 1][..n] == h[..n];
    } else {
      assert h[..n] == h;
    }
  }

  lemma {:induction false} LegalPrefix(h: seq<Event>, n: nat)
    requires Legal(h) && n <= |h|
    ensures Legal(h[..n])
  {
    if n < |h| {
      LegalPrefix(h[..|h| - 1], n);
      assert h[..|h| - 1][..n] == h[..n];
    } else {
      assert h[..n] == h;
    }
  }

  /** Over any legal history at most one creation of each name succeeds, and never one of the empty name. */
  lemma CreatedOnce(h: seq<Event>, name: string, j: nat, k: nat)
    requires Legal(h) && j < |h| && k < |h| && Creation(h[j], name) && Creation(h[k], name)
    ensures j == k && name != ""
  {
    CreationOpensChannel(h, name, j);
    CreationOpensChannel(h, name, k);
    if j < k {
      assert h[..k][..j + 1] == h[..j + 1];
      ChannelsStay(h[..k], j + 1);
    } else if k < j {
      assert h[..j][..k + 1] == h[..k + 1];
      ChannelsStay(h[..j], k + 1);
    }
  }

  lemma CreationOpensChannel(h: seq<Event>, name: string, j: nat)
    requires Legal(h) && j < |h| && Creation(h[j], name)
    ensures name != "" && name !in Replay(h[..j]) && name in Replay(h[..j + 1])
  {
    LegalPrefix(h, j + 1);
    assert h[..j + 1][..j] == h[..j];
  }

  /** Once a name leads to a channel object it leads to the same one ever after. */
  lemma {:induction false} ChannelObjectsStay(trace: seq<State>, i: nat, name: string)
    requires Run(trace) && i < |trace| && name in trace[i].names
    ensures var s := trace[|trace| - 1]; name in s.names && s.names[name] == trace[i].names[name]
    decreases |trace|
  {
    var n := |trace| - 1;
    if i < n {
      ChannelObjectsStay(trace[..n], i, name);
      assert Next(trace[n - 1], trace[n]);
      var a :| Enabled(trace[n - 1], a) && trace[n] == Apply(trace[n - 1], a);
    }
  }
}
