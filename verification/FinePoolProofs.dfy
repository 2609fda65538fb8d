/**
 Exactly which steps inside AddConnection and RemoveConnection break the pool, and that a lock for each nick
 would do.
 */
module FinePoolProofs {
  import opened Collections
  import opened FinePool

  // ---- Structure, true of every run ----

  ghost predicate Shape(s: State) {
    && (forall n | n in s.handlers :: s.handlers[n] < |s.hs| && s.hs[s.handlers[n]].nick == n)
    && (forall c | 0 <= c < |s.threads| :: ThreadOk(s, c))
    && (forall n, c | n in s.handlers && c in s.hs[s.handlers[n]].conns :: MemberOk(s, c, n))
  }

  ghost predicate ThreadOk(s: State, c: nat)
    requires c < |s.threads|
  {
    match s.threads[c]
    case AddJoin(n, h) => h < |s.hs| && s.hs[h].nick == n
    case AddNote(n, h) => h < |s.hs| && s.hs[h].nick == n && c in s.hs[h].conns
    case Serving(n) => c in s.connNick && s.connNick[c] == n
    case RemNick(n) => c in s.connNick && s.connNick[c] == n
    case RemCount(n, h) => h < |s.hs| && s.hs[h].nick == n
    case RemLeave(n, h) => h < |s.hs| && s.hs[h].nick == n
    case _ => true
  }

  /** A connection in the set of a handler in the pool uses that handler. */
  ghost predicate MemberOk(s: State, c: nat, nick: string)
    requires nick in s.handlers
  {
    c < |s.threads| && !s.threads[c].AddJoin? && Uses(s, c, nick, s.handlers[nick])
  }

  lemma ShapeKept(s: State, a: Action)
    requires Shape(s) && Enabled(s, a)
    ensures Shape(Apply(s, a))
  {
    var s' := Apply(s, a);
    forall n | n in s'.handlers ensures s'.handlers[n] < |s'.hs| && s'.hs[s'.handlers[n]].nick == n { }
    forall c | 0 <= c < |s'.threads| ensures ThreadOk(s', c) { ThreadKept(s, a, c); }
    forall n, c | n in s'.handlers && c in s'.hs[s'.handlers[n]].conns
      ensures MemberOk(s', c, n)
    {
      MemberKept(s, a, c, n);
    }
  }

  lemma ThreadKept(s: State, a: Action, c: nat)
    requires Shape(s) && Enabled(s, a) && c < |Apply(s, a).threads|
    ensures ThreadOk(Apply(s, a), c)
  {
    if !a.Login? && a.c == c { OwnThreadKept(s, a); }
    else if c < |s.threads| { OtherThreadKept(s, a, c); }
  }

  lemma OtherThreadKept(s: State, a: Action, c: nat)
    requires Shape(s) && Enabled(s, a) && c < |s.threads| && (a.Login? || a.c != c)
    ensures ThreadOk(Apply(s, a), c)
  {
    assert ThreadOk(s, c);
  }

  lemma OwnThreadKept(s: State, a: Action)
    requires Shape(s) && Enabled(s, a) && !a.Login?
    ensures ThreadOk(Apply(s, a), a.c)
  {
    assert ThreadOk(s, a.c);
  }

  lemma MemberKept(s: State, a: Action, c: nat, n: string)
    requires Shape(s) && Enabled(s, a)
    requires var s' := Apply(s, a); n in s'.handlers && s'.handlers[n] < |s'.hs| && c in s'.hs[s'.handlers[n]].conns
    ensures MemberOk(Apply(s, a), c, n)
  {
    if !a.Login? && a.c == c {
      assert ThreadOk(s, c);
      if n in s.handlers && c in s.hs[s.handlers[n]].conns { assert MemberOk(s, c, n); }
    } else {
      OtherMemberKept(s, a, c, n);
    }
  }

  lemma OtherMemberKept(s: State, a: Action, c: nat, n: string)
    requires Shape(s) && Enabled(s, a) && (a.Login? || a.c != c)
    requires var s' := Apply(s, a); n in s'.handlers && s'.handlers[n] < |s'.hs| && c in s'.hs[s'.handlers[n]].conns
    ensures MemberOk(Apply(s, a), c, n)
  {
    MemberWas(s, a, c, n);
    assert MemberOk(s, c, n);
  }

  /** Whoever did not move and is in a handler of the pool was in it before. */
  lemma MemberWas(s: State, a: Action, c: nat, n: string)
    requires Shape(s) && Enabled(s, a) && (a.Login? || a.c != c)
    requires var s' := Apply(s, a); n in s'.handlers && s'.handlers[n] < |s'.hs| && c in s'.hs[s'.handlers[n]].conns
    ensures n in s.handlers && s.handlers[n] == Apply(s, a).handlers[n] && c in s.hs[s.handlers[n]].conns
  {
    if !a.Login? { assert ThreadOk(s, a.c); }
  }

  // ---- Exactly which steps break it ----

  lemma HarmlessKeepsFound(s: State, a: Action)
    requires Shape(s) && Exact(s) && Enabled(s, a) && Harmless(s, a)
    ensures AllFound(Apply(s, a))
  {
    var s' := Apply(s, a);
    forall c: nat, n | ServingAs(s', c, n)
      ensures n in s'.handlers && s'.handlers[n] < |s'.hs| && c in s'.hs[s'.handlers[n]].conns
    {
      if c < |s.threads| {
        assert ThreadOk(s, c);
        if ServingAs(s, c, n) { assert n in s.handlers && c in s.hs[s.handlers[n]].conns; }
      }
    }
  }

  lemma HarmlessKeepsUsed(s: State, a: Action, n: string)
    requires Shape(s) && Exact(s) && Enabled(s, a) && Harmless(s, a) && n in Apply(s, a).handlers
    ensures exists c :: Uses(Apply(s, a), c, n, Apply(s, a).handlers[n])
  {
    if a.Step? && s.threads[a.c] == AddMake(n) {
      assert Uses(Apply(s, a), a.c, n, Apply(s, a).handlers[n]);
    } else if a.Step? && s.threads[a.c] == RemLeave(n, Apply(s, a).handlers[n]) {
      var d: nat :| d != a.c && Uses(s, d, n, s.handlers[n]);
      assert Uses(Apply(s, a), d, n, Apply(s, a).handlers[n]);
    } else {
      assert n in s.handlers && Apply(s, a).handlers[n] == s.handlers[n];
      var c: nat :| Uses(s, c, n, s.handlers[n]);
      UseKept(s, a, n, c);
    }
  }

  lemma UseKept(s: State, a: Action, n: string, c: nat)
    requires Shape(s) && Enabled(s, a) && n in s.handlers && n in Apply(s, a).handlers
    requires Apply(s, a).handlers[n] == s.handlers[n] && Uses(s, c, n, s.handlers[n])
    requires !(a.Step? && a.c == c && s.threads[c] == RemLeave(n, s.handlers[n]))
    ensures Uses(Apply(s, a), c, n, Apply(s, a).handlers[n])
  {
    assert ThreadOk(s, c);
  }

  lemma HarmfulBreaks(s: State, a: Action)
    requires Shape(s) && Exact(s) && Enabled(s, a) && !Harmless(s, a)
    ensures !Exact(Apply(s, a))
  {
    var s', n := Apply(s, a), s.threads[a.c].nick;
    assert ThreadOk(s, a.c);
    match s.threads[a.c] {
      case AddMake(_) =>
        var d: nat :| ServingAs(s, d, n);
        assert ServingAs(s', d, n) && s'.hs[s'.handlers[n]].conns == {};
      case AddNote(_, h) => assert ServingAs(s', a.c, n);
      case RemDrop(_) =>
        var d: nat :| ServingAs(s, d, n);
        assert ServingAs(s', d, n);
      case RemLeave(_, h) =>
        forall d: nat ensures !Uses(s', d, n, h) { if Uses(s', d, n, h) { assert Uses(s, d, n, h); } }
        assert n in s'.handlers;
      case _ =>
    }
  }

  /** A step keeps the pool exact if and only if what it relies on is still true. */
  lemma StepIsExactIffHarmless(s: State, a: Action)
    requires Shape(s) && Exact(s) && Enabled(s, a)
    ensures Exact(Apply(s, a)) <==> Harmless(s, a)
  {
    if Harmless(s, a) {
      HarmlessKeepsFound(s, a);
      forall n | n in Apply(s, a).handlers ensures exists c :: Uses(Apply(s, a), c, n, Apply(s, a).handlers[n]) {
        HarmlessKeepsUsed(s, a, n);
      }
    } else {
      HarmfulBreaks(s, a);
    }
  }

  /** A run given by its actions. */
  predicate Follows(trace: seq<State>, actions: seq<Action>) {
    && |trace| == |actions| + 1 && trace[0] == INIT
    && forall i | 0 <= i < |actions| :: Enabled(trace[i], actions[i]) && trace[i + 1] == Apply(trace[i], actions[i])
  }

  ghost predicate HarmlessAt(trace: seq<State>, actions: seq<Action>, i: nat) {
    i < |actions| && i < |trace| && Enabled(trace[i], actions[i]) && Harmless(trace[i], actions[i])
  }

  ghost predicate AllHarmless(trace: seq<State>, actions: seq<Action>) {
    forall i | 0 <= i < |actions| :: HarmlessAt(trace, actions, i)
  }

  ghost predicate AllExact(trace: seq<State>) {
    forall i | 0 <= i < |trace| :: Exact(trace[i])
  }

  /** Over a whole run the pool is exact in every state if and only if every step is harmless. */
  lemma {:induction false} RunIsExactIffHarmless(trace: seq<State>, actions: seq<Action>)
    requires Follows(trace, actions)
    ensures Shape(trace[|actions|])
    ensures AllExact(trace) <==> AllHarmless(trace, actions)
  {
    if actions != [] {
      var k := |actions| - 1;
      var trace0, actions0 := trace[..k + 1], actions[..k];
      assert forall i | 0 <= i < k :: actions0[i] == actions[i] && trace0[i] == trace[i];
      RunIsExactIffHarmless(trace0, actions0);
      ShapeKept(trace[k], actions[k]);
      HarmlessPrefix(trace, actions, trace0, actions0);
      assert trace == trace0 + [trace[k + 1]];
      assert AllExact(trace) <==> AllExact(trace0) && Exact(trace[k + 1]);
      if AllExact(trace0) {
        assert Exact(trace0[k]);
        StepIsExactIffHarmless(trace[k], actions[k]);
      }
    }
  }

  lemma HarmlessPrefix(trace: seq<State>, actions: seq<Action>, trace0: seq<State>, actions0: seq<Action>)
    requires |actions| > 0 && |trace| == |actions| + 1
    requires actions0 == actions[..|actions| - 1] && trace0 == trace[..|actions|]
    ensures AllHarmless(trace, actions) <==> AllHarmless(trace0, actions0) && HarmlessAt(trace, actions, |actions| - 1)
  {
    forall i | 0 <= i < |actions0| ensures HarmlessAt(trace, actions, i) <==> HarmlessAt(trace0, actions0, i) {
      assert trace0[i] == trace[i] && actions0[i] == actions[i];
    }
  }

  /** At rest an exact pool lists the nicks being served, each with a handler that has just their connections. */
  lemma ExactAtRest(s: State, n: string)
    requires Shape(s) && Exact(s) && forall c: nat :: !BusyAt(s, c)
    ensures n in s.handlers <==> exists c :: ServingAs(s, c, n)
    ensures n in s.handlers ==> forall c :: c in s.hs[s.handlers[n]].conns <==> ServingAs(s, c, n)
  {
    if n in s.handlers {
      var c: nat :| Uses(s, c, n, s.handlers[n]);
      assert !BusyAt(s, c) && ServingAs(s, c, n);
      forall c | c in s.hs[s.handlers[n]].conns
        ensures ServingAs(s, c, n)
      {
        assert MemberOk(s, c, n) && !BusyAt(s, c);
      }
    }
  }

  // ---- Runs in which nobody gets between ----

  /** Past the first lookup of AddConnection or RemoveConnection and not yet through with the method. */
  predicate Inside(s: State, c: nat) {
    BusyAt(s, c) && !s.threads[c].AddLook? && !s.threads[c].RemNick?
  }

  function NickOf(s: State, c: nat): string
    requires BusyAt(s, c)
  {
    s.threads[c].nick
  }

  /**
   What a lock for each nick would ensure: no step inside AddConnection or RemoveConnection while another session of
   the same nick is inside. Sessions of other nicks, and those that come or are about to leave, may do as they like.
   */
  ghost predicate Guarded(s: State, a: Action)
    requires Enabled(s, a)
  {
    a.Step? ==> forall c | c != a.c && Inside(s, c) :: NickOf(s, c) != NickOf(s, a.c)
  }

  /** For each nick at most one session is inside, and what a session has looked up is still so. */
  ghost predicate Undisturbed(s: State) {
    && (forall c, d | Inside(s, c) && Inside(s, d) && NickOf(s, c) == NickOf(s, d) :: c == d)
    && (forall c | BusyAt(s, c) :: StillSo(s, c))
  }

  predicate Has(s: State, nick: string, h: nat, c: nat) {
    nick in s.handlers && s.handlers[nick] == h && h < |s.hs| && c in s.hs[h].conns
  }

  predicate StillSo(s: State, c: nat)
    requires c < |s.threads|
  {
    match s.threads[c]
    case AddMake(n) => n !in s.handlers
    case AddJoin(n, h) => n in s.handlers && s.handlers[n] == h
    case AddNote(n, h) => n in s.handlers && s.handlers[n] == h
    case RemNick(n) => n in s.handlers && Has(s, n, s.handlers[n], c)
    case RemLook(n) => n in s.handlers && Has(s, n, s.handlers[n], c)
    case RemCount(n, h) => Has(s, n, h, c)
    case RemLeave(n, h) => Has(s, n, h, c) && |s.hs[h].conns| > 1
    case RemDrop(n) => n in s.handlers && Has(s, n, s.handlers[n], c) && |s.hs[s.handlers[n]].conns| <= 1
    case _ => true
  }

  lemma OneMore(conns: set<nat>, c: nat)
    requires |conns| > 1
    ensures exists d :: d in conns && d != c
  {
    if forall d | d in conns :: d == c { SubsetSize(conns, {c}); }
  }

  lemma UndisturbedIsHarmless(s: State, a: Action)
    requires Shape(s) && Exact(s) && Undisturbed(s) && Enabled(s, a)
    ensures Harmless(s, a)
  {
    if a.Step? {
      assert BusyAt(s, a.c);
      match s.threads[a.c] {
        case RemDrop(n) =>
          forall d: nat ensures !ServingAs(s, d, n) {
            if ServingAs(s, d, n) { SubsetSize({a.c, d}, s.hs[s.handlers[n]].conns); }
          }
        case RemLeave(n, h) =>
          OneMore(s.hs[h].conns, a.c);
          var d :| d in s.hs[h].conns && d != a.c;
          assert MemberOk(s, d, n);
        case _ =>
      }
    }
  }

  lemma OwnStaysSo(s: State, c: nat)
    requires Shape(s) && Exact(s) && BusyAt(s, c) && StillSo(s, c) && Enabled(s, Step(c))
    ensures StillSo(Apply(s, Step(c)), c)
  {
    assert ThreadOk(s, c);
  }

  /** A step changes nothing about other nicks, nor anything of a handler but its connections. */
  lemma OtherNicksStay(s: State, c: nat, n: string)
    requires Shape(s) && BusyAt(s, c) && StillSo(s, c) && Enabled(s, Step(c)) && n != NickOf(s, c)
    ensures var s' := Apply(s, Step(c));
      && (n in s'.handlers <==> n in s.handlers)
      && (n in s.handlers ==>
            && s'.handlers[n] == s.handlers[n] < |s.hs| <= |s'.hs|
            && s'.hs[s.handlers[n]] == s.hs[s.handlers[n]])
  {
    assert ThreadOk(s, c);
  }

  /** A session about to leave stays in its nick's handler while another of the same nick makes a step. */
  lemma WaitingStays(s: State, c: nat, d: nat)
    requires Shape(s) && BusyAt(s, c) && StillSo(s, c) && Enabled(s, Step(c))
    requires d != c && BusyAt(s, d) && s.threads[d].RemNick? && StillSo(s, d) && NickOf(s, c) == NickOf(s, d)
    ensures StillSo(Apply(s, Step(c)), d)
  {
    assert ThreadOk(s, c);
    var n := NickOf(s, c);
    if s.threads[c].RemDrop? { SubsetSize({c, d}, s.hs[s.handlers[n]].conns); }
  }

  /** A step of one session leaves what another has looked up: it is of another nick, or the other has yet to start. */
  lemma OtherStaysSo(s: State, c: nat, d: nat)
    requires Shape(s) && Exact(s) && Undisturbed(s) && Enabled(s, Step(c)) && Guarded(s, Step(c))
    requires d != c && BusyAt(s, d)
    ensures StillSo(Apply(s, Step(c)), d)
  {
    assert BusyAt(s, c) && StillSo(s, c) && StillSo(s, d) && Apply(s, Step(c)).threads[d] == s.threads[d];
    if NickOf(s, c) != NickOf(s, d) {
      OtherNicksStay(s, c, NickOf(s, d));
    } else if s.threads[d].RemNick? {
      WaitingStays(s, c, d);
    } else {
      assert !Inside(s, d);
    }
  }

  lemma LeaverStillSo(s: State, c: nat)
    requires Exact(s) && Enabled(s, Leave(c))
    ensures StillSo(Apply(s, Leave(c)), c)
  {
    assert ServingAs(s, c, s.threads[c].nick);
  }

  lemma GuardedStaysUndisturbed(s: State, a: Action)
    requires Shape(s) && Exact(s) && Undisturbed(s) && Enabled(s, a) && Guarded(s, a)
    ensures Undisturbed(Apply(s, a))
  {
    var s' := Apply(s, a);
    forall c: nat | BusyAt(s', c) ensures StillSo(s', c) {
      if a == Step(c) { assert BusyAt(s, c); OwnStaysSo(s, c); }
      else if a == Leave(c) { LeaverStillSo(s, c); }
      else if c < |s.threads| { OthersStaySo(s, a, c); }
    }
    forall c: nat, d: nat | Inside(s', c) && Inside(s', d) && NickOf(s', c) == NickOf(s', d) ensures c == d {
      InsideWas(s, a, c);
      InsideWas(s, a, d);
    }
  }

  lemma OthersStaySo(s: State, a: Action, d: nat)
    requires Shape(s) && Exact(s) && Undisturbed(s) && Enabled(s, a) && Guarded(s, a)
    requires a.Login? || a.c != d
    requires BusyAt(s, d)
    ensures StillSo(Apply(s, a), d)
  {
    assert StillSo(s, d);
    if a.Step? { OtherStaysSo(s, a.c, d); }
  }

  /** Whoever is inside after a step was there before, under the same nick, or is the one who stepped. */
  lemma InsideWas(s: State, a: Action, c: nat)
    requires Shape(s) && Enabled(s, a) && Inside(Apply(s, a), c)
    ensures if a == Step(c) then BusyAt(s, c) && NickOf(s, c) == NickOf(Apply(s, a), c)
            else Inside(s, c) && NickOf(s, c) == NickOf(Apply(s, a), c)
  {
    if c < |s.threads| { assert ThreadOk(s, c); }
  }

  ghost predicate GuardedAt(trace: seq<State>, actions: seq<Action>, i: nat) {
    i < |actions| && i < |trace| && Enabled(trace[i], actions[i]) && Guarded(trace[i], actions[i])
  }

  /** If no step of a session falls between the steps of another of the same nick, the pool is exact throughout. */
  lemma {:induction false} GuardedRunsAreExact(trace: seq<State>, actions: seq<Action>)
    requires Follows(trace, actions) && forall i | 0 <= i < |actions| :: GuardedAt(trace, actions, i)
    ensures AllExact(trace) && Undisturbed(trace[|actions|])
  {
    if actions != [] {
      var k := |actions| - 1;
      var trace0, actions0 := trace[..k + 1], actions[..k];
      assert forall i | 0 <= i < k :: actions0[i] == actions[i] && trace0[i] == trace[i];
      forall i | 0 <= i < k ensures GuardedAt(trace0, actions0, i) { assert GuardedAt(trace, actions, i); }
      GuardedRunsAreExact(trace0, actions0);
      RunIsExactIffHarmless(trace0, actions0);
      assert Exact(trace0[k]) && GuardedAt(trace, actions, k);
      UndisturbedIsHarmless(trace[k], actions[k]);
      GuardedStaysUndisturbed(trace[k], actions[k]);
      StepIsExactIffHarmless(trace[k], actions[k]);
      assert trace == trace0 + [trace[k + 1]];
    }
  }

  /** The assumption made elsewhere: nobody acts while another session is inside AddConnection or RemoveConnection. */
  ghost predicate AtomicAt(trace: seq<State>, actions: seq<Action>, i: nat) {
    i < |actions| && i < |trace| && forall c | BusyAt(trace[i], c) :: actions[i] == Step(c)
  }

  /** Atomic adding and removing is one way to have that. */
  lemma AtomicRunsAreExact(trace: seq<State>, actions: seq<Action>)
    requires Follows(trace, actions) && forall i | 0 <= i < |actions| :: AtomicAt(trace, actions, i)
    ensures AllExact(trace)
  {
    forall i | 0 <= i < |actions| ensures GuardedAt(trace, actions, i) { assert AtomicAt(trace, actions, i); }
    GuardedRunsAreExact(trace, actions);
  }

  // ---- What happens without the assumption ----

  lemma Then(trace: seq<State>, actions: seq<Action>, a: Action) returns (trace': seq<State>, actions': seq<Action>)
    requires Follows(trace, actions) && Enabled(trace[|actions|], a)
    ensures Follows(trace', actions') && trace'[|actions'|] == Apply(trace[|actions|], a)
  {
    trace', actions' := trace + [Apply(trace[|actions|], a)], actions + [a];
  }

  /** A user with one session, alone in the pool. */
  lemma OneSession() returns (trace: seq<State>, actions: seq<Action>)
    ensures Follows(trace, actions)
    ensures trace[|actions|] == State(map["ann" := 0], [Handler("ann", {0})], map[0 := "ann"], [Serving("ann")])
  {
    trace, actions := [INIT], [];
    trace, actions := Then(trace, actions, Login("ann"));
    trace, actions := Then(trace, actions, Step(0));
    trace, actions := Then(trace, actions, Step(0));
    assert trace[|actions|] == State(map["ann" := 0], [Handler("ann", {})], map[], [AddJoin("ann", 0)]);
    trace, actions := Then(trace, actions, Step(0));
    trace, actions := Then(trace, actions, Step(0));
    assert {} + {0} == {0};
  }

  /**
   A second session of a user logs in while the first is leaving: the handler is dropped under it. It is being served,
   but no handler is found for its nick.
   */
  lemma HandlerLost() returns (trace: seq<State>, actions: seq<Action>)
    ensures Follows(trace, actions)
    ensures var s := trace[|actions|]; ServingAs(s, 1, "ann") && "ann" !in s.handlers && forall c: nat :: !BusyAt(s, c)
  {
    trace, actions := OneSession();
    trace, actions := Then(trace, actions, Leave(0));
    trace, actions := Then(trace, actions, Step(0));
    trace, actions := Then(trace, actions, Step(0));
    trace, actions := Then(trace, actions, Step(0));   // one connection counted
    assert trace[|actions|].threads == [RemDrop("ann")];
    trace, actions := Then(trace, actions, Login("ann"));
    trace, actions := Then(trace, actions, Step(1));
    trace, actions := Then(trace, actions, Step(1));
    trace, actions := Then(trace, actions, Step(1));
    assert trace[|actions|].threads == [RemDrop("ann"), Serving("ann")];
    trace, actions := Then(trace, actions, Step(0));
  }

  lemma TwoSessions() returns (trace: seq<State>, actions: seq<Action>)
    ensures Follows(trace, actions)
    ensures trace[|actions|] == State(
              map["ann" := 0], [Handler("ann", {0, 1})], map[0 := "ann", 1 := "ann"], [Serving("ann"), Serving("ann")])
  {
    trace, actions := OneSession();
    trace, actions := Then(trace, actions, Login("ann"));
    trace, actions := Then(trace, actions, Step(1));
    trace, actions := Then(trace, actions, Step(1));
    trace, actions := Then(trace, actions, Step(1));
    assert {0} + {1} == {0, 1};
  }

  /** Both have counted two connections and are about to leave the handler. */
  lemma BothLeaving() returns (trace: seq<State>, actions: seq<Action>)
    ensures Follows(trace, actions)
    ensures trace[|actions|].handlers == map["ann" := 0] && trace[|actions|].hs == [Handler("ann", {0, 1})]
    ensures trace[|actions|].threads == [RemLeave("ann", 0), RemLeave("ann", 0)]
  {
    trace, actions := TwoSessions();
    trace, actions := Then(trace, actions, Leave(0));
    trace, actions := Then(trace, actions, Step(0));
    trace, actions := Then(trace, actions, Step(0));
    trace, actions := Then(trace, actions, Step(0));
    assert trace[|actions|].threads == [RemLeave("ann", 0), Serving("ann")];
    trace, actions := Then(trace, actions, Leave(1));
    trace, actions := Then(trace, actions, Step(1));
    trace, actions := Then(trace, actions, Step(1));
    trace, actions := Then(trace, actions, Step(1));
  }

  /**
   The last two sessions of a user leave at the same time, each counting two connections: the handler stays in the
   pool although all sessions are gone.
   */
  lemma HandlerOrphaned() returns (trace: seq<State>, actions: seq<Action>)
    ensures Follows(trace, actions)
    ensures trace[|actions|].handlers == map["ann" := 0] && trace[|actions|].hs == [Handler("ann", {})]
    ensures trace[|actions|].threads == [Gone, Gone]
  {
    trace, actions := BothLeaving();
    trace, actions := Then(trace, actions, Step(0));
    trace, actions := Then(trace, actions, Step(1));
    assert {0, 1} - {0} - {1} == {};
  }
}
