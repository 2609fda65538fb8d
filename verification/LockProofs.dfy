/** The server never deadlocks: whenever some thread has work left, some thread can do its next operation. */
module LockProofs {
  import opened Collections
  import opened LockMachine

  // ---- Lock discipline ----

  function Rank(l: Lock): nat {
    match l
    case PoolLock => 0
    case HandlerLock(_) => 1
    case StoreLock => 2
    case ChannelLock(_) => 2
    case SocketLock(_) => 3
  }

  /** Every lock held is of lower rank than `l`. */
  ghost predicate Below(held: map<Lock, Mode>, l: Lock) {
    forall k | k in held :: Rank(k) < Rank(l)
  }

  /** An operation that needs no other thread, so that it never blocks, or only blocks on a lock. */
  predicate Plain(instr: Instr) {
    instr.RLock? || instr.RUnlock? || instr.Announce? || instr.Enter? || instr.Unlock?
    || instr.Spawn? || instr.Add? || instr.Signal? || instr.Io?
  }

  /** Whether `instr` may be performed holding these locks, and what is held afterwards. */
  ghost predicate Allowed(instr: Instr, held: map<Lock, Mode>) {
    match instr
    case RLock(l) => Below(held, l)
    case Announce(l) => Below(held, l)
    case Enter(l) => l in held && held[l] == Announced && Below(held - {l}, l)
    case RUnlock(l) => l in held && held[l] == Reader
    case Unlock(l) => l in held && held[l] == Writer
    case Wait => forall k | k in held :: Rank(k) <= 1
    case _ => Plain(instr) || held == map[]
  }

  function HeldAfter(instr: Instr, held: map<Lock, Mode>): map<Lock, Mode> {
    match instr
    case RLock(l) => held[l := Reader]
    case Announce(l) => held[l := Announced]
    case Enter(l) => held[l := Writer]
    case RUnlock(l) => held - {l}
    case Unlock(l) => held - {l}
    case _ => held
  }

  /** The code keeps the lock order from `held` on, and ends holding `final`. */
  ghost predicate Disciplined(code: seq<Instr>, held: map<Lock, Mode>, final: map<Lock, Mode>) {
    if code == [] then held == final
    else
      Allowed(code[0], held) && Disciplined(code[1..], HeldAfter(code[0], held), final)
  }

  lemma {:induction false} Sequenced(a: seq<Instr>, b: seq<Instr>, h0: map<Lock, Mode>, h1: map<Lock, Mode>,
      h2: map<Lock, Mode>)
    requires Disciplined(a, h0, h1) && Disciplined(b, h1, h2)
    ensures Disciplined(a + b, h0, h2)
  {
    if a == [] {
      assert a + b == b;
    } else {
      Sequenced(a[1..], b, HeldAfter(a[0], h0), h1, h2);
      assert (a + b)[1..] == a[1..] + b;
    }
  }

  lemma {:induction false} SpawnsAreDisciplined(code: seq<Instr>, held: map<Lock, Mode>)
    requires forall k | 0 <= k < |code| :: code[k].Spawn?
    ensures Disciplined(code, held, held)
  {
    if code != [] {
      SpawnsAreDisciplined(code[1..], held);
    }
  }

  // ---- The server's code is disciplined ----

  lemma RLocked(l: Lock)
    ensures Disciplined(WithRLock(l), map[], map[])
  {
    var held := map[l := Reader];
    assert held - {l} == map[];
    assert WithRLock(l)[1..] == [RUnlock(l)];
  }

  lemma Locked(l: Lock)
    ensures Disciplined(WithLock(l), map[], map[])
  {
    var code := WithLock(l);
    assert map[l := Announced][l := Writer] == map[l := Writer];
    assert map[l := Writer] - {l} == map[];
    assert map[l := Announced] - {l} == map[];
    assert [Enter(l), Unlock(l)][1..] == [Unlock(l)];
    assert Disciplined([Unlock(l)], map[l := Writer], map[]);
    assert Disciplined([Enter(l), Unlock(l)], map[l := Announced], map[]);
    assert code[1..] == [Enter(l), Unlock(l)];
  }

  lemma SocketWritten(conn: nat)
    ensures Disciplined(SocketWrite(conn), map[], map[])
  {
    var code, l := SocketWrite(conn), SocketLock(conn);
    assert map[l := Announced][l := Writer] == map[l := Writer];
    assert map[l := Writer] - {l} == map[];
    assert map[l := Announced] - {l} == map[];
    assert [Io, Unlock(l)][1..] == [Unlock(l)] && [Enter(l), Io, Unlock(l)][1..] == [Io, Unlock(l)];
    assert Disciplined([Unlock(l)], map[l := Writer], map[]);
    assert Disciplined([Io, Unlock(l)], map[l := Writer], map[]);
    assert Disciplined([Enter(l), Io, Unlock(l)], map[l := Announced], map[]);
    assert code[1..] == [Enter(l), Io, Unlock(l)];
  }

  lemma Messaged(ref: nat, order: seq<nat>)
    ensures Disciplined(MessageMembers(ref, order), map[], map[])
  {
    var l := ChannelLock(ref);
    var held := map[l := Reader];
    SpawnsAreDisciplined(WriteSpawns(order), held);
    assert held - {l} == map[];
    Sequenced(WriteSpawns(order), [RUnlock(l)], held, held, map[]);
    assert MessageMembers(ref, order)[1..] == WriteSpawns(order) + [RUnlock(l)];
  }

  lemma Visited(v: Visit)
    ensures Disciplined(VisitCode(v), map[], map[])
  {
    match v
    case NoName =>
    case Missing => RLocked(StoreLock);
    case Seen(ref) =>
      RLocked(StoreLock);
      RLocked(ChannelLock(ref));
      Sequenced(WithRLock(StoreLock), WithRLock(ChannelLock(ref)), map[], map[], map[]);
    case Changed(ref, order) =>
      RLocked(StoreLock);
      RLocked(ChannelLock(ref));
      Locked(ChannelLock(ref));
      Messaged(ref, order);
      var l := ChannelLock(ref);
      Sequenced(WithRLock(StoreLock), WithRLock(l), map[], map[], map[]);
      Sequenced(WithRLock(StoreLock) + WithRLock(l), WithLock(l), map[], map[], map[]);
      Sequenced(WithRLock(StoreLock) + WithRLock(l) + WithLock(l), MessageMembers(ref, order), map[], map[], map[]);
  }

  /** One operation that may be performed holding nothing, and leaves nothing held. */
  lemma Single(instr: Instr)
    requires Plain(instr) ==> instr.Spawn? || instr.Add? || instr.Signal? || instr.Io?
    ensures Disciplined([instr], map[], map[])
  {
    assert [instr][1..] == [];
  }

  lemma Branched(b: Branch)
    ensures Disciplined(BranchCode(b), map[], map[])
  {
    match b
    case CreateFails(empty) => Locked(StoreLock);
    case Creates(v) =>
      Locked(StoreLock);
      Visited(v);
      Sequenced(WithLock(StoreLock), VisitCode(v), map[], map[], map[]);
    case Joins(v) => Visited(v);
    case Leaves(h, v, left) =>
      Visited(v);
      Single(Spawn(WriteJob(h)));
      Sequenced(VisitCode(v), if left then [Spawn(WriteJob(h))] else [], map[], map[], map[]);
    case NotPresent(v) => Visited(v);
    case Sends(ref, indexed) =>
      RLocked(StoreLock);
      RLocked(ChannelLock(ref));
      Single(Io);
      Single(Spawn(BroadcastJob(ref)));
      var a := WithRLock(StoreLock) + WithRLock(ChannelLock(ref));
      Sequenced(WithRLock(StoreLock), WithRLock(ChannelLock(ref)), map[], map[], map[]);
      Sequenced(a, WithRLock(StoreLock), map[], map[], map[]);
      Sequenced(a + WithRLock(StoreLock), [Io], map[], map[], map[]);
      var b := if indexed then [Spawn(BroadcastJob(ref))] else [];
      Sequenced(a + WithRLock(StoreLock) + [Io], b, map[], map[], map[]);
  }

  lemma JobDone(job: Job, self: nat, v: Visit, order: seq<nat>)
    ensures Disciplined(JobCode(job, self, v, order), map[], map[])
  {
    match job
    case EvictJob => Visited(v);
    case BroadcastJob(ref) => Messaged(ref, order);
    case SocketJob(conn, parent) =>
      SocketWritten(conn);
      Single(Signal(parent));
      Sequenced(SocketWrite(conn), [Signal(parent)], map[], map[], map[]);
    case WriteJob(h) => WriteDone(h, self, order);
  }

  lemma WriteDone(h: nat, self: nat, order: seq<nat>)
    ensures Disciplined(JobCode(WriteJob(h), self, NoName, order), map[], map[])
  {
    var l := HandlerLock(h);
    var held := map[l := Reader];
    assert held - {l} == map[];
    assert [Wait, RUnlock(l)][1..] == [RUnlock(l)];
    assert Disciplined([RUnlock(l)], held, map[]);
    SpawnsAreDisciplined(SocketSpawns(order, self), held);
    Sequenced(SocketSpawns(order, self), [Wait, RUnlock(l)], held, held, map[]);
    var tail := SocketSpawns(order, self) + [Wait, RUnlock(l)];
    var code := JobCode(WriteJob(h), self, NoName, order);
    assert code == [RLock(l), Add(|order|)] + tail;
    assert code[1..] == [Add(|order|)] + tail && code[1..][1..] == tail;
    assert Disciplined(code[1..], held, map[]);
  }

  lemma ShutDone(conn: nat)
    ensures Disciplined(ShutCode(conn), map[], map[])
  {
    RLocked(PoolLock);
    Single(Detach(conn));
    Sequenced(WithRLock(PoolLock), WithRLock(PoolLock), map[], map[], map[]);
    Sequenced(WithRLock(PoolLock) + WithRLock(PoolLock), [Detach(conn)], map[], map[], map[]);
  }

  lemma TurnDone(conn: nat, logged: bool, turn: Turn)
    ensures Disciplined(TurnCode(conn, logged, turn), map[], map[])
  {
    SocketWritten(conn);
    match turn
    case Refused =>
      Single(Input(conn, logged));
      Sequenced(SocketWrite(conn), [Input(conn, logged)], map[], map[], map[]);
    case Accepted =>
      RLocked(PoolLock);
      var next := if logged then Forward(conn) else Attach(conn);
      Single(next);
      Sequenced(WithRLock(PoolLock), [next], map[], map[], map[]);
    case Leaving(timeout) =>
      ShutDone(conn);
      Sequenced(if timeout then SocketWrite(conn) else [], if logged then ShutCode(conn) else [], map[], map[], map[]);
  }

  lemma AttachDone(conn: nat, h: nat, isNew: bool)
    ensures Disciplined(AttachCode(conn, h, isNew), map[], map[])
  {
    Locked(PoolLock);
    Locked(HandlerLock(h));
    SocketWritten(conn);
    Single(Input(conn, true));
    var a := if isNew then WithLock(PoolLock) else [];
    Sequenced(a, WithLock(HandlerLock(h)), map[], map[], map[]);
    Sequenced(a + WithLock(HandlerLock(h)), WithLock(PoolLock), map[], map[], map[]);
    Sequenced(a + WithLock(HandlerLock(h)) + WithLock(PoolLock), SocketWrite(conn), map[], map[], map[]);
    var b := a + WithLock(HandlerLock(h)) + WithLock(PoolLock) + SocketWrite(conn);
    Sequenced(b, [Input(conn, true)], map[], map[], map[]);
  }

  lemma ForwardDone(conn: nat, h: Option<nat>, failed: bool)
    ensures Disciplined(ForwardCode(conn, h, failed), map[], map[])
  {
    if h.None? {
      ShutDone(conn);
    } else {
      SocketWritten(conn);
      Single(Call(h.value));
      Single(Input(conn, true));
      var a := if failed then SocketWrite(conn) else [];
      Sequenced([Call(h.value)], a, map[], map[], map[]);
      Sequenced([Call(h.value)] + a, [Input(conn, true)], map[], map[], map[]);
    }
  }

  lemma DetachDone(h: Option<nat>, last: bool, channels: nat)
    ensures Disciplined(DetachCode(h, last, channels), map[], map[])
  {
    if h.Some? {
      RLocked(HandlerLock(h.value));
      Locked(HandlerLock(h.value));
      DropDone(channels);
      Sequenced(WithRLock(HandlerLock(h.value)),
                if !last then WithLock(HandlerLock(h.value)) else DropCode(channels), map[], map[], map[]);
    }
  }

  function DropCode(channels: nat): seq<Instr> {
    [Announce(PoolLock), Enter(PoolLock), RLock(StoreLock)] + EvictSpawns(channels)
      + [RUnlock(StoreLock), Unlock(PoolLock)]
  }

  /** The one place where a lock is taken under another: DisconnectUser runs under the pool lock. */
  lemma DropDone(channels: nat)
    ensures Disciplined(DropCode(channels), map[], map[])
  {
    var pool: map<Lock, Mode> := map[PoolLock := Writer];
    var both := pool[StoreLock := Reader];
    assert both - {StoreLock} == pool && pool - {PoolLock} == map[];
    var unlocks := [RUnlock(StoreLock), Unlock(PoolLock)];
    assert unlocks[1..] == [Unlock(PoolLock)] && [Unlock(PoolLock)][1..] == [];
    assert Disciplined(unlocks, both, map[]);
    SpawnsAreDisciplined(EvictSpawns(channels), both);
    Sequenced(EvictSpawns(channels), unlocks, both, both, map[]);
    var locks := [Announce(PoolLock), Enter(PoolLock), RLock(StoreLock)];
    assert map[PoolLock := Announced][PoolLock := Writer] == pool;
    assert map[PoolLock := Announced] - {PoolLock} == map[];
    assert [Enter(PoolLock), RLock(StoreLock)][1..] == [RLock(StoreLock)] && [RLock(StoreLock)][1..] == [];
    assert Disciplined([RLock(StoreLock)], pool, both);
    assert Disciplined([Enter(PoolLock), RLock(StoreLock)], map[PoolLock := Announced], both);
    assert locks[1..] == [Enter(PoolLock), RLock(StoreLock)];
    assert Disciplined(locks, map[], both);
    Sequenced(locks, EvictSpawns(channels) + unlocks, map[], both, map[]);
    assert DropCode(channels) == locks + (EvictSpawns(channels) + unlocks);
  }

  // ---- Counting the wait groups ----

  function Adds(code: seq<Instr>): nat {
    if code == [] then 0 else (if code[0].Add? then code[0].n else 0) + Adds(code[1..])
  }

  predicate SpawnsSocket(instr: Instr) { instr.Spawn? && instr.job.SocketJob? }

  /** Socket writers the code is still to spawn. */
  function Due(code: seq<Instr>): nat {
    if code == [] then 0 else (if SpawnsSocket(code[0]) then 1 else 0) + Due(code[1..])
  }

  function Signals(code: seq<Instr>, p: nat): nat {
    if code == [] then 0 else (if code[0] == Signal(p) then 1 else 0) + Signals(code[1..], p)
  }

  function SignalCounts(threads: seq<Thread>, p: nat): seq<nat> {
    seq(|threads|, i requires 0 <= i < |threads| => Signals(threads[i].code, p))
  }

  /** Socket writers of thread `p` that have not called Done yet. */
  function Live(threads: seq<Thread>, p: nat): nat {
    Sum(SignalCounts(threads, p))
  }

  /** An instruction that concerns no wait group. */
  predicate NoGroup(instr: Instr) {
    !instr.Add? && !instr.Signal? && !SpawnsSocket(instr)
  }

  lemma {:induction false} NoGroupPrefix(code: seq<Instr>, rest: seq<Instr>)
    requires forall k | 0 <= k < |code| :: NoGroup(code[k])
    ensures Adds(code + rest) == Adds(rest) && Due(code + rest) == Due(rest)
    ensures forall p: nat :: Signals(code + rest, p) == Signals(rest, p)
  {
    if code == [] {
      assert code + rest == rest;
    } else {
      assert (code + rest)[1..] == code[1..] + rest;
      NoGroupPrefix(code[1..], rest);
    }
  }

  lemma NoGroupCode(code: seq<Instr>)
    requires forall k | 0 <= k < |code| :: NoGroup(code[k])
    ensures Adds(code) == 0 && Due(code) == 0 && forall p: nat :: Signals(code, p) == 0
  {
    NoGroupPrefix(code, []);
    assert code + [] == code;
  }

  lemma {:induction false} SocketSpawnsCount(order: seq<nat>, self: nat, rest: seq<Instr>)
    ensures var code := SocketSpawns(order, self) + rest;
      Adds(code) == Adds(rest) && Due(code) == |order| + Due(rest) && forall p: nat ::
        Signals(code, p) == Signals(rest, p)
  {
    var code := SocketSpawns(order, self) + rest;
    if order == [] {
      assert code == rest;
    } else {
      assert code[1..] == SocketSpawns(order[1..], self) + rest;
      SocketSpawnsCount(order[1..], self, rest);
    }
  }

  /** An operation of an actor's branch: plain, and no part of a wait group. */
  predicate Simple(code: seq<Instr>) {
    forall k | 0 <= k < |code| :: Plain(code[k]) && NoGroup(code[k])
  }

  lemma VisitIsSimple(v: Visit)
    ensures Simple(VisitCode(v))
  {
  }

  lemma BranchIsSimple(b: Branch)
    ensures Simple(BranchCode(b))
  {
    match b
    case CreateFails(_) =>
    case Creates(v) => VisitIsSimple(v);
    case Joins(v) => VisitIsSimple(v);
    case Leaves(_, v, _) => VisitIsSimple(v);
    case NotPresent(v) => VisitIsSimple(v);
    case Sends(_, _) =>
  }

  /** A point where a session's code goes on in a way that depends on its client or on the pool. */
  predicate Choice(instr: Instr) {
    instr.Input? || instr.Attach? || instr.Forward? || instr.Detach?
  }

  /** Code a session goes on with: only its first operation may be a request. */
  predicate Course(code: seq<Instr>) {
    && (forall k | 0 <= k < |code| :: (Plain(code[k]) && NoGroup(code[k])) || Choice(code[k]) || code[k].Call?)
    && (forall k | 1 <= k < |code| :: !code[k].Call?)
  }

  predicate NoCall(code: seq<Instr>) {
    forall k | 0 <= k < |code| :: !code[k].Call?
  }

  lemma TurnCourse(conn: nat, logged: bool, turn: Turn)
    ensures Course(TurnCode(conn, logged, turn)) && NoCall(TurnCode(conn, logged, turn))
  {
  }

  lemma AttachCourse(conn: nat, h: nat, isNew: bool)
    ensures Course(AttachCode(conn, h, isNew)) && NoCall(AttachCode(conn, h, isNew))
  {
  }

  lemma ForwardCourse(conn: nat, h: Option<nat>, failed: bool)
    ensures Course(ForwardCode(conn, h, failed))
    ensures ForwardCode(conn, h, failed)[0].Call? ==> h.Some? && ForwardCode(conn, h, failed)[0].h == h.value
  {
  }

  lemma DetachCourse(h: Option<nat>, last: bool, channels: nat)
    ensures Course(DetachCode(h, last, channels)) && NoCall(DetachCode(h, last, channels))
  {
  }

  // ---- The invariant ----

  /** The code of a socket writer: nothing but its socket's lock, the write and Done. */
  predicate SocketCode(code: seq<Instr>) {
    forall k | 0 <= k < |code| ::
      match code[k]
      case Announce(l) => l.SocketLock?
      case Enter(l) => l.SocketLock?
      case Unlock(l) => l.SocketLock?
      case Io => true
      case Signal(_) => true
      case _ => false
  }

  /** The conventions of requests and wait groups in the code of thread `i`. */
  ghost predicate Form(code: seq<Instr>, i: nat, threads: nat) {
    && (forall k | 1 <= k < |code| :: !code[k].Call? && !code[k].Await?)
    && (forall k | 0 <= k < |code| && SpawnsSocket(code[k]) :: code[k].job.parent == i)
    && (forall k | 0 <= k < |code| && code[k].Signal? :: code[k].parent < threads && SocketCode(code))
    && (forall k | 0 <= k < |code| && code[k].Wait? :: k == |code| - 2 && code[k + 1].RUnlock?)
  }

  ghost predicate Shape(t: Thread, i: nat, threads: nat) {
    Disciplined(t.code, t.held, map[]) && Form(t.code, i, threads)
  }

  /** The wait group of a thread counts its socket writers, spawned or still to spawn, that are not done. */
  ghost predicate Balanced(s: State, i: nat)
    requires i < |s.threads|
  {
    s.threads[i].wg + Adds(s.threads[i].code) == Live(s.threads, i) + Due(s.threads[i].code)
  }

  ghost predicate ThreadOk(s: State, i: nat)
    requires i < |s.threads|
  {
    Shape(s.threads[i], i, |s.threads|) && Balanced(s, i)
  }

  /** The actor of `h`: idle, or working through a branch that ends in the answer to the one thread that awaits it. */
  ghost predicate ActorOk(s: State, h: nat)
    requires h < |s.actors|
  {
    && s.actors[h] < |s.threads|
    && var code := s.threads[s.actors[h]].code;
       && code != [] && code[|code| - 1] == Receive(h)
       && (|code| > 1 ==>
             && code[|code| - 2].Reply?
             && var to := code[|code| - 2].to; Head(s, to) && s.threads[to].code[0] == Await(h))
       && (forall k | 0 <= k < |code| - 2 :: Plain(code[k]))
  }

  ghost predicate SessionOk(s: State, i: nat)
    requires i < |s.threads|
  {
    var code := s.threads[i].code;
    && (code != [] && code[0].Call? ==> code[0].h < |s.actors|)
    && (code != [] && code[0].Await? ==>
          && code[0].h < |s.actors| && s.actors[code[0].h] < |s.threads|
          && var c := s.threads[s.actors[code[0].h]].code; |c| > 1 && c[|c| - 2] == Reply(i))
    && (i !in s.actors ==> forall k | 0 <= k < |code| :: !code[k].Receive? && !code[k].Reply?)
  }

  ghost predicate Inv(s: State) {
    && (forall i | 0 <= i < |s.threads| :: ThreadOk(s, i) && SessionOk(s, i))
    && (forall h | 0 <= h < |s.actors| :: ActorOk(s, h))
    && (forall g, h | 0 <= g < |s.actors| && 0 <= h < |s.actors| && s.actors[g] == s.actors[h] :: g == h)
  }

  // ---- Progress ----

  ghost predicate CanStep(s: State) {
    exists a :: Enabled(s, a) && Internal(a)
  }

  /** Operations that never wait. */
  lemma Unblocked(s: State, i: nat)
    requires Head(s, i)
    requires match s.threads[i].code[0]
      case RUnlock(_) => true
      case Unlock(_) => true
      case Spawn(_) => true
      case Add(_) => true
      case Signal(_) => true
      case Io => true
      case Attach(_) => true
      case Forward(_) => true
      case Detach(_) => true
      case _ => false
    ensures CanStep(s)
  {
    var instr := s.threads[i].code[0];
    if instr.Spawn? {
      assert Enabled(s, Start(i, NoName, [])) && Internal(Start(i, NoName, []));
    } else if instr.Attach? {
      assert Enabled(s, FindForAttach(i, None)) && Internal(FindForAttach(i, None));
    } else if instr.Forward? {
      assert Enabled(s, FindForForward(i, None, false)) && Internal(FindForForward(i, None, false));
    } else if instr.Detach? {
      assert Enabled(s, FindForDetach(i, None, false, 0)) && Internal(FindForDetach(i, None, false, 0));
    } else {
      assert Enabled(s, Op(i)) && Internal(Op(i));
    }
  }

  /** A thread that holds a lock has an unlock to come, and is not waiting for a message. */
  lemma HolderHasHead(s: State, j: nat, l: Lock)
    requires Inv(s) && j < |s.threads| && l in s.threads[j].held
    ensures Head(s, j)
    ensures var instr := s.threads[j].code[0]; Plain(instr) || (instr.Wait? && Rank(l) <= 1)
  {
    assert ThreadOk(s, j);
  }

  lemma {:induction false} PositiveSum(xs: seq<nat>)
    requires Sum(xs) > 0
    ensures exists k :: 0 <= k < |xs| && xs[k] > 0
  {
    if xs[|xs| - 1] == 0 {
      PositiveSum(xs[..|xs| - 1]);
      var k :| 0 <= k < |xs| - 1 && xs[..|xs| - 1][k] > 0;
      assert xs[k] > 0;
    }
  }

  lemma {:induction false} SignalInCode(code: seq<Instr>, p: nat)
    requires Signals(code, p) > 0
    ensures Signal(p) in code
  {
    if code[0] != Signal(p) {
      SignalInCode(code[1..], p);
    }
  }

  /** Some thread is in the way of an operation on `l`: somebody can step, since what it waits for ranks higher. */
  lemma HolderProgress(s: State, j: nat, l: Lock)
    requires Inv(s) && j < |s.threads| && l in s.threads[j].held
    ensures CanStep(s)
    decreases 3 - Rank(l), if s.threads[j].held[l] == Reader then 0 else 1
  {
    HolderHasHead(s, j, l);
    assert ThreadOk(s, j);
    var instr := s.threads[j].code[0];
    if CanDo(s, j) {
      assert Enabled(s, Op(j)) && Internal(Op(j));
    } else if instr.RLock? || instr.Announce? {
      var k: nat :| InMode(s, k, instr.l, Announced) || InMode(s, k, instr.l, Writer);
      HolderProgress(s, k, instr.l);
    } else if instr.Enter? {
      var k: nat :| InMode(s, k, instr.l, Reader);
      assert l != instr.l ==> l in s.threads[j].held - {instr.l};
      HolderProgress(s, k, instr.l);
    } else if instr.Wait? {
      var k := WriterOf(s, j);
      SocketProgress(s, k);
    } else {
      Unblocked(s, j);
    }
  }

  /** A wait group that is not zero still has a socket writer. */
  lemma WriterOf(s: State, j: nat) returns (k: nat)
    requires Inv(s) && Head(s, j) && s.threads[j].code[0].Wait? && s.threads[j].wg != 0
    ensures k < |s.threads| && Signal(j) in s.threads[k].code
  {
    assert ThreadOk(s, j);
    var code := s.threads[j].code;
    assert code[1..] == [code[1]] && code[1..][1..] == [];
    assert Adds(code[1..]) == Adds(code[1..][1..]) && Due(code[1..]) == Due(code[1..][1..]);
    assert Live(s.threads, j) > 0;
    PositiveSum(SignalCounts(s.threads, j));
    k :| 0 <= k < |s.threads| && SignalCounts(s.threads, j)[k] > 0;
    SignalInCode(s.threads[k].code, j);
  }

  lemma SocketProgress(s: State, k: nat)
    requires Inv(s) && k < |s.threads| && exists p :: Signal(p) in s.threads[k].code
    ensures CanStep(s)
    decreases 1, 0
  {
    assert ThreadOk(s, k);
    var instr := s.threads[k].code[0];
    if CanDo(s, k) {
      assert Enabled(s, Op(k)) && Internal(Op(k));
    } else if instr.Announce? {
      var m: nat :| InMode(s, m, instr.l, Announced) || InMode(s, m, instr.l, Writer);
      HolderProgress(s, m, instr.l);
    } else {
      var m: nat :| InMode(s, m, instr.l, Reader);
      HolderProgress(s, m, instr.l);
    }
  }

  /** A thread whose next operation is plain: it, or whoever is in its way, can step. */
  lemma PlainProgress(s: State, i: nat)
    requires Inv(s) && Head(s, i) && Plain(s.threads[i].code[0])
    ensures CanStep(s)
  {
    var instr := s.threads[i].code[0];
    if instr.Spawn? {
      Unblocked(s, i);
    } else if CanDo(s, i) {
      assert Enabled(s, Op(i)) && Internal(Op(i));
    } else if instr.RLock? || instr.Announce? {
      var k: nat :| InMode(s, k, instr.l, Announced) || InMode(s, k, instr.l, Writer);
      HolderProgress(s, k, instr.l);
    } else {
      var k: nat :| InMode(s, k, instr.l, Reader);
      HolderProgress(s, k, instr.l);
    }
  }

  /** An actor at work can step or is behind a lock; an actor about to answer has its session waiting. */
  lemma ActorProgress(s: State, h: nat)
    requires Inv(s) && h < |s.actors| && s.actors[h] < |s.threads| && |s.threads[s.actors[h]].code| > 1
    ensures CanStep(s)
  {
    var a := s.actors[h];
    assert ActorOk(s, h);
    var code := s.threads[a].code;
    if |code| == 2 {
      assert Enabled(s, Answer(a)) && Internal(Answer(a));
    } else {
      PlainProgress(s, a);
    }
  }

  /** Whatever the state, as long as some thread has work left some thread can perform its next operation. */
  lemma NoDeadlock(s: State, i: nat)
    requires Inv(s) && i < |s.threads| && !AtRest(s.threads[i])
    ensures CanStep(s)
  {
    assert ThreadOk(s, i) && SessionOk(s, i);
    var instr := s.threads[i].code[0];
    match instr
    case Call(h) =>
      assert ActorOk(s, h);
      if |s.threads[s.actors[h]].code| > 1 {
        ActorProgress(s, h);
      } else {
        assert Enabled(s, Meet(i, CreateFails(true))) && Internal(Meet(i, CreateFails(true)));
      }
    case Await(h) => ActorProgress(s, h);
    case Reply(_) => ReplyProgress(s, i);
    case Wait =>
      if s.threads[i].wg == 0 {
        assert Enabled(s, Op(i)) && Internal(Op(i));
      } else {
        var k := WriterOf(s, i);
        SocketProgress(s, k);
      }
    case _ =>
      if Plain(instr) { PlainProgress(s, i); } else { Unblocked(s, i); }
  }

  lemma ReplyProgress(s: State, i: nat)
    requires Inv(s) && Head(s, i) && s.threads[i].code[0].Reply?
    ensures CanStep(s)
  {
    assert SessionOk(s, i);
    var h :| 0 <= h < |s.actors| && s.actors[h] == i;
    assert ActorOk(s, h);
    ActorProgress(s, h);
  }

  // ---- Every step keeps the invariant ----

  lemma LiveUpdate(threads: seq<Thread>, i: nat, t: Thread, p: nat)
    requires i < |threads|
    ensures Live(threads[i := t], p) + Signals(threads[i].code, p) == Live(threads, p) + Signals(t.code, p)
  {
    assert SignalCounts(threads[i := t], p) == SignalCounts(threads, p)[i := Signals(t.code, p)];
    SumUpdate(SignalCounts(threads, p), i, Signals(t.code, p));
  }

  lemma LiveAppend(threads: seq<Thread>, t: Thread, p: nat)
    ensures Live(threads + [t], p) == Live(threads, p) + Signals(t.code, p)
  {
    assert SignalCounts(threads + [t], p) == SignalCounts(threads, p) + [Signals(t.code, p)];
    SumAppend(SignalCounts(threads, p), [Signals(t.code, p)]);
    assert Sum([Signals(t.code, p)]) == Signals(t.code, p);
  }

  /** Nobody signals thread `p` when no such thread exists. */
  lemma {:induction false} NoSignals(threads: seq<Thread>, p: nat)
    requires forall i, k | 0 <= i < |threads| && 0 <= k < |threads[i].code| :: threads[i].code[k] != Signal(p)
    ensures Live(threads, p) == 0
  {
    forall i | 0 <= i < |threads| ensures Signals(threads[i].code, p) == 0 {
      if Signals(threads[i].code, p) > 0 { SignalInCode(threads[i].code, p); }
    }
    if Live(threads, p) > 0 {
      PositiveSum(SignalCounts(threads, p));
    }
  }

  lemma TailForm(code: seq<Instr>, i: nat, n: nat)
    requires Form(code, i, n) && code != []
    ensures Form(code[1..], i, n)
  {
    assert forall k | 0 <= k < |code[1..]| :: code[1..][k] == code[k + 1];
    assert SocketCode(code) ==> SocketCode(code[1..]);
  }

  lemma PrefixForm(code: seq<Instr>, rest: seq<Instr>, i: nat, n: nat)
    requires Course(code) && rest != [] && Form(rest, i, n) && Choice(rest[0])
    ensures Form(code + rest[1..], i, n)
  {
    var all := code + rest[1..];
    assert !SocketCode(rest);
    forall k | 0 <= k < |all|
      ensures k >= 1 ==> !all[k].Call? && !all[k].Await?
      ensures SpawnsSocket(all[k]) ==> all[k].job.parent == i
      ensures !all[k].Signal?
      ensures all[k].Wait? ==> k == |all| - 2 && all[k + 1].RUnlock?
    {
      if k >= |code| {
        assert all[k] == rest[k - |code| + 1];
        if k + 1 < |all| { assert all[k + 1] == rest[k + 1 - |code| + 1]; }
      }
    }
  }

  lemma TailShape(t: Thread, i: nat, n: nat)
    requires Shape(t, i, n) && t.code != []
    ensures Shape(t.(code := t.code[1..], held := HeldAfter(t.code[0], t.held)), i, n)
  {
    TailForm(t.code, i, n);
  }

  /** A session goes on with `code` from a point of choice, where it holds no lock. */
  lemma PrefixShape(t: Thread, i: nat, n: nat, code: seq<Instr>)
    requires Shape(t, i, n) && t.code != [] && Choice(t.code[0])
    requires Course(code) && Disciplined(code, map[], map[])
    ensures Shape(t.(code := code + t.code[1..]), i, n)
  {
    PrefixForm(code, t.code, i, n);
    Sequenced(code, t.code[1..], map[], map[], map[]);
  }

  /** Only thread `m` has new code, with the same part in wait groups. */
  lemma SameGroups(s: State, s': State, m: nat)
    requires m < |s.threads| == |s'.threads|
    requires forall i | 0 <= i < |s.threads| :: Balanced(s, i) && s'.threads[i].wg == s.threads[i].wg
    requires forall i | 0 <= i < |s.threads| && i != m :: s'.threads[i] == s.threads[i]
    requires var c, c' := s.threads[m].code, s'.threads[m].code;
      Adds(c') == Adds(c) && Due(c') == Due(c) && forall p: nat :: Signals(c', p) == Signals(c, p)
    ensures forall i | 0 <= i < |s.threads| :: Balanced(s', i)
  {
    forall i | 0 <= i < |s.threads| ensures Balanced(s', i) {
      assert s'.threads == s.threads[m := s'.threads[m]];
      LiveUpdate(s.threads, m, s'.threads[m], i);
    }
  }

  /** A thread that performs a plain operation or a Wait stays in step with the requests. */
  lemma TailActors(s: State, s': State, m: nat)
    requires Inv(s) && Head(s, m) && (Plain(s.threads[m].code[0]) || s.threads[m].code[0].Wait?)
    requires |s'.threads| >= |s.threads| && s'.actors == s.actors
    requires forall i | 0 <= i < |s.threads| && i != m :: s'.threads[i].code == s.threads[i].code
    requires s'.threads[m].code == s.threads[m].code[1..]
    ensures forall h | 0 <= h < |s'.actors| :: ActorOk(s', h)
    ensures forall i | 0 <= i < |s.threads| :: SessionOk(s', i)
  {
    assert ThreadOk(s, m);
    forall h | 0 <= h < |s'.actors| ensures ActorOk(s', h) { assert ActorOk(s, h); }
    TailSessions(s, s', m);
  }

  lemma TailSessions(s: State, s': State, m: nat)
    requires Inv(s) && Head(s, m) && (Plain(s.threads[m].code[0]) || s.threads[m].code[0].Wait?)
    requires |s'.threads| >= |s.threads| && s'.actors == s.actors
    requires forall i | 0 <= i < |s.threads| && i != m :: s'.threads[i].code == s.threads[i].code
    requires s'.threads[m].code == s.threads[m].code[1..]
    ensures forall i | 0 <= i < |s.threads| :: SessionOk(s', i)
  {
    forall i | 0 <= i < |s.threads| ensures SessionOk(s', i) {
      assert SessionOk(s, i);
      if i != m && s.threads[i].code != [] && s.threads[i].code[0].Await? {
        assert ActorOk(s, s.threads[i].code[0].h);
      }
    }
  }

  /** A session that goes on from a point of choice; actors may be added on new threads. */
  ghost predicate Continued(s: State, s': State, m: nat, code: seq<Instr>) {
    && Inv(s) && Head(s, m) && Choice(s.threads[m].code[0]) && Course(code)
    && |s'.threads| >= |s.threads| && |s'.actors| >= |s.actors|
    && (forall h | 0 <= h < |s.actors| :: s'.actors[h] == s.actors[h])
    && (forall h | |s.actors| <= h < |s'.actors| :: |s.threads| <= s'.actors[h])
    && (forall i | 0 <= i < |s.threads| && i != m :: s'.threads[i] == s.threads[i])
    && s'.threads[m].code == code + s.threads[m].code[1..]
    && (code != [] && code[0].Call? ==> code[0].h < |s'.actors|)
  }

  lemma NotAnActor(s: State, m: nat)
    requires Inv(s) && Head(s, m) && !Plain(s.threads[m].code[0])
    requires !s.threads[m].code[0].Reply? && !s.threads[m].code[0].Receive?
    ensures m !in s.actors
  {
    forall h | 0 <= h < |s.actors| ensures s.actors[h] != m { assert ActorOk(s, h); }
  }

  lemma PrefixActors(s: State, s': State, m: nat, code: seq<Instr>)
    requires Continued(s, s', m, code)
    ensures forall h | 0 <= h < |s.actors| :: ActorOk(s', h)
  {
    NotAnActor(s, m);
    forall h | 0 <= h < |s.actors| ensures ActorOk(s', h) { assert ActorOk(s, h); assert s.actors[h] in s.actors; }
  }

  lemma PrefixSessions(s: State, s': State, m: nat, code: seq<Instr>)
    requires Continued(s, s', m, code)
    ensures forall i | 0 <= i < |s.threads| :: SessionOk(s', i)
  {
    NotAnActor(s, m);
    assert ThreadOk(s, m);
    forall i | 0 <= i < |s.threads| && i != m ensures SessionOk(s', i) {
      assert SessionOk(s, i);
      assert i !in s'.actors ==> i !in s.actors by {
        if i in s.actors { var h :| 0 <= h < |s.actors| && s.actors[h] == i; assert s'.actors[h] == i; }
      }
      if s.threads[i].code != [] && s.threads[i].code[0].Await? {
        assert s.actors[s.threads[i].code[0].h] in s.actors;
      }
    }
    ContinuedSession(s, s', m, code);
  }

  lemma ContinuedSession(s: State, s': State, m: nat, code: seq<Instr>)
    requires Continued(s, s', m, code) && m !in s.actors
    ensures SessionOk(s', m)
  {
    assert ThreadOk(s, m) && SessionOk(s, m);
    var all := s'.threads[m].code;
    assert forall k | |code| <= k < |all| :: all[k] == s.threads[m].code[k - |code| + 1];
  }

  lemma ContinueKeeps(s: State, i: nat, code: seq<Instr>)
    requires Inv(s) && Head(s, i) && Choice(s.threads[i].code[0]) && Course(code)
    requires Disciplined(code, map[], map[])
    requires code != [] && code[0].Call? ==> code[0].h < |s.actors|
    ensures Inv(Continue(s, i, code))
  {
    var s' := Continue(s, i, code);
    var t := s.threads[i];
    assert ThreadOk(s, i);
    PrefixShape(t, i, |s.threads|, code);
    NoGroupPrefix(code, t.code[1..]);
    AllBalanced(s);
    SameGroups(s, s', i);
    PrefixActors(s, s', i, code);
    PrefixSessions(s, s', i, code);
    forall j | 0 <= j < |s'.threads| ensures ThreadOk(s', j) && SessionOk(s', j) {
      assert ThreadOk(s, j) && SessionOk(s, j);
    }
  }

  // ---- The other steps ----

  /** Neither signals a wait group nor meets another thread. */
  predicate Silent(code: seq<Instr>) {
    forall k | 0 <= k < |code| ::
      !code[k].Signal? && !code[k].Receive? && !code[k].Reply? && !code[k].Call? && !code[k].Await?
  }

  /** A fresh thread is added; everything else may have moved by `s1` already. */
  lemma SpawnThread(s: State, s': State, t: Thread)
    requires Inv(s) && s'.threads == s.threads + [t] && s'.actors == s.actors
    requires Shape(t, |s.threads|, |s.threads| + 1) && t.held == map[] && t.wg == 0 && Adds(t.code) == Due(t.code)
    requires Silent(t.code)
    ensures Inv(s')
  {
    NoGroupSignals(t.code);
    forall i | 0 <= i < |s'.threads| ensures ThreadOk(s', i) && SessionOk(s', i) {
      LiveAppend(s.threads, t, i);
      if i < |s.threads| {
        assert ThreadOk(s, i) && SessionOk(s, i);
      } else {
        Unsignalled(s);
      }
    }
    forall h | 0 <= h < |s'.actors| ensures ActorOk(s', h) { assert ActorOk(s, h); }
  }

  lemma {:induction false} NoGroupSignals(code: seq<Instr>)
    requires forall k | 0 <= k < |code| :: !code[k].Signal?
    ensures forall p: nat :: Signals(code, p) == 0
  {
    if code != [] {
      NoGroupSignals(code[1..]);
    }
  }

  /** Nobody signals a thread that does not exist yet. */
  lemma Unsignalled(s: State)
    requires Inv(s)
    ensures Live(s.threads, |s.threads|) == 0
  {
    forall i, k | 0 <= i < |s.threads| && 0 <= k < |s.threads[i].code|
      ensures s.threads[i].code[k] != Signal(|s.threads|)
    {
      assert ThreadOk(s, i);
    }
    NoSignals(s.threads, |s.threads|);
  }

  lemma ConnectKeeps(s: State, conn: nat)
    requires Inv(s)
    ensures Inv(Apply(s, Connect(conn)))
  {
    var t := Thread([Input(conn, false)], map[], 0);
    Single(Input(conn, false));
    NoGroupCode(t.code);
    SpawnThread(s, Apply(s, Connect(conn)), t);
  }

  /** A lock operation, Io or a passed Wait. */
  lemma OpKeeps(s: State, i: nat)
    requires Inv(s) && Enabled(s, Op(i)) && NoGroup(s.threads[i].code[0])
    ensures Inv(DoOp(s, i))
  {
    var s', t := DoOp(s, i), s.threads[i];
    assert ThreadOk(s, i);
    TailShape(t, i, |s.threads|);
    assert s'.threads[i] == t.(code := t.code[1..], held := HeldAfter(t.code[0], t.held));
    forall j | 0 <= j < |s.threads| ensures Balanced(s, j) { assert ThreadOk(s, j); }
    SameGroups(s, s', i);
    TailActors(s, s', i);
    forall j | 0 <= j < |s'.threads| ensures ThreadOk(s', j) { assert ThreadOk(s, j); }
  }

  lemma AddKeeps(s: State, i: nat)
    requires Inv(s) && Enabled(s, Op(i)) && s.threads[i].code[0].Add?
    ensures Inv(DoOp(s, i))
  {
    var s', t := DoOp(s, i), s.threads[i];
    assert ThreadOk(s, i);
    TailShape(t, i, |s.threads|);
    assert s'.threads[i] == t.(code := t.code[1..], wg := t.wg + t.code[0].n);
    TailActors(s, s', i);
    forall j | 0 <= j < |s'.threads| ensures ThreadOk(s', j) {
      assert ThreadOk(s, j);
      LiveUpdate(s.threads, i, s'.threads[i], j);
    }
  }

  lemma SignalKeeps(s: State, i: nat)
    requires Inv(s) && Enabled(s, Op(i)) && s.threads[i].code[0].Signal?
    ensures Inv(DoOp(s, i))
  {
    var s', t, p := DoOp(s, i), s.threads[i], s.threads[i].code[0].parent;
    assert ThreadOk(s, i);
    TailShape(t, i, |s.threads|);
    var s1 := SetThread(s, i, t.(code := t.code[1..]));
    assert s'.threads == s1.threads[p := s1.threads[p].(wg := s1.threads[p].wg - 1)];
    TailActors(s, s', i);
    forall j | 0 <= j < |s'.threads| ensures ThreadOk(s', j) {
      assert ThreadOk(s, j);
      LiveUpdate(s.threads, i, s1.threads[i], j);
      LiveUpdate(s1.threads, p, s'.threads[p], j);
    }
  }

  /** The spawning thread moves past its go statement. */
  lemma PastSpawn(s: State, i: nat)
    requires Inv(s) && Head(s, i) && s.threads[i].code[0].Spawn? && NoGroup(s.threads[i].code[0])
    ensures Inv(Continue(s, i, []))
  {
    var s', t := Continue(s, i, []), s.threads[i];
    assert [] + t.code[1..] == t.code[1..];
    assert ThreadOk(s, i);
    TailShape(t, i, |s.threads|);
    forall j | 0 <= j < |s.threads| ensures Balanced(s, j) { assert ThreadOk(s, j); }
    SameGroups(s, s', i);
    TailActors(s, s', i);
    forall j | 0 <= j < |s'.threads| ensures ThreadOk(s', j) { assert ThreadOk(s, j); }
  }

  /** A WriteJob announces to its wait group exactly the socket writers it will spawn. */
  lemma WriteJobForm(h: nat, self: nat, v: Visit, order: seq<nat>)
    ensures var code := JobCode(WriteJob(h), self, v, order);
      Form(code, self, self + 1) && Adds(code) == Due(code) && Silent(code)
  {
    var l := HandlerLock(h);
    var code, tail := JobCode(WriteJob(h), self, v, order), [Wait, RUnlock(HandlerLock(h))];
    SocketSpawnsCount(order, self, tail);
    NoGroupCode(tail);
    assert code == [RLock(l), Add(|order|)] + (SocketSpawns(order, self) + tail);
    assert code[1..] == [Add(|order|)] + (SocketSpawns(order, self) + tail);
    assert code[1..][1..] == SocketSpawns(order, self) + tail;
    assert Adds(code[1..]) == |order| && Due(code[1..]) == |order|;
  }

  lemma StartKeeps(s: State, i: nat, v: Visit, order: seq<nat>)
    requires Inv(s) && Enabled(s, Start(i, v, order))
    ensures Inv(Apply(s, Start(i, v, order)))
  {
    var job := s.threads[i].code[0].job;
    JobDone(job, |s.threads|, v, order);
    if job.SocketJob? {
      SocketStarts(s, i, v, order);
    } else {
      PastSpawn(s, i);
      JobThread(job, |s.threads|, v, order);
      SpawnThread(Continue(s, i, []), Apply(s, Start(i, v, order)),
        Thread(JobCode(job, |s.threads|, v, order), map[], 0));
    }
  }

  lemma JobThread(job: Job, self: nat, v: Visit, order: seq<nat>)
    requires !job.SocketJob?
    ensures var code := JobCode(job, self, v, order);
      Form(code, self, self + 1) && Adds(code) == Due(code) && Silent(code)
  {
    match job
    case WriteJob(h) => WriteJobForm(h, self, v, order);
    case EvictJob =>
      VisitIsSimple(v);
      SimpleThread(VisitCode(v), self);
    case BroadcastJob(ref) => SimpleThread(MessageMembers(ref, order), self);
  }

  lemma SimpleThread(code: seq<Instr>, self: nat)
    requires Simple(code)
    ensures Form(code, self, self + 1) && Adds(code) == Due(code) && Silent(code)
  {
    NoGroupCode(code);
  }

  lemma SocketStarts(s: State, i: nat, v: Visit, order: seq<nat>)
    requires Inv(s) && Enabled(s, Start(i, v, order)) && s.threads[i].code[0].job.SocketJob?
    ensures Inv(Apply(s, Start(i, v, order)))
  {
    var n := |s.threads|;
    var s' := Apply(s, Start(i, v, order));
    assert [] + s.threads[i].code[1..] == s.threads[i].code[1..];
    TailActors(s, s', i);
    assert forall k | 0 <= k < |s'.threads[n].code| :: !s'.threads[n].code[k].Receive? && !s'.threads[n].code[k].Reply?;
    SocketStartsThreads(s, s', i, s'.threads[n]);
  }

  /** The parent has one socket writer less to spawn and one more alive. */
  lemma SocketStartsThreads(s: State, s': State, i: nat, child: Thread)
    requires Inv(s) && Head(s, i) && SpawnsSocket(s.threads[i].code[0])
    requires var job := s.threads[i].code[0].job;
      child == Thread(SocketWrite(job.conn) + [Signal(job.parent)], map[], 0)
    requires s'.threads == s.threads[i := s.threads[i].(code := s.threads[i].code[1..])] + [child]
    ensures forall j | 0 <= j < |s'.threads| :: ThreadOk(s', j)
  {
    var n, job := |s.threads|, s.threads[i].code[0].job;
    assert ThreadOk(s, i) && job.parent == i;
    Unsignalled(s);
    forall j | 0 <= j < |s'.threads| ensures ThreadOk(s', j) {
      SocketStartsLive(s, s', i, child, j);
      if j == n {
        FreshSocket(s', job, n);
      } else if j == i {
        TailShape(s.threads[i], i, n);
      } else {
        assert ThreadOk(s, j);
        StandsBy(s, s', i, j);
      }
    }
  }

  lemma FreshSocket(s': State, job: Job, n: nat)
    requires job.SocketJob? && job.parent < n && |s'.threads| == n + 1
    requires s'.threads[n] == Thread(SocketWrite(job.conn) + [Signal(job.parent)], map[], 0) && Live(s'.threads, n) == 0
    ensures ThreadOk(s', n)
  {
    JobDone(job, n, NoName, []);
    SocketJobCounts(job.conn, job.parent);
  }

  /** Starting a socket writer makes one more of them alive for its parent, and for nobody else. */
  lemma SocketStartsLive(s: State, s': State, i: nat, child: Thread, j: nat)
    requires i < |s.threads| && s.threads[i].code != [] && SpawnsSocket(s.threads[i].code[0])
    requires var job := s.threads[i].code[0].job;
      job.parent == i && child == Thread(SocketWrite(job.conn) + [Signal(job.parent)], map[], 0)
    requires s'.threads == s.threads[i := s.threads[i].(code := s.threads[i].code[1..])] + [child]
    ensures Live(s'.threads, j) == Live(s.threads, j) + (if j == i then 1 else 0)
  {
    var mid := s.threads[i := s.threads[i].(code := s.threads[i].code[1..])];
    SocketJobCounts(s.threads[i].code[0].job.conn, i);
    LiveUpdate(s.threads, i, mid[i], j);
    LiveAppend(mid, child, j);
  }

  /** A thread that does not move stays as it should be, if its live socket writers are counted as before. */
  lemma StandsBy(s: State, s': State, i: nat, j: nat)
    requires j < |s.threads| <= |s'.threads| && j != i && ThreadOk(s, j) && s'.threads[j] == s.threads[j]
    requires Live(s'.threads, j) == Live(s.threads, j)
    ensures ThreadOk(s', j)
  {
  }

  lemma SocketJobCounts(conn: nat, p: nat)
    ensures var code := SocketWrite(conn) + [Signal(p)];
      && Adds(code) == 0 && Due(code) == 0 && SocketCode(code)
      && forall q: nat :: Signals(code, q) == if q == p then 1 else 0
  {
    NoGroupPrefix(SocketWrite(conn), [Signal(p)]);
    assert [Signal(p)][1..] == [];
    forall q: nat ensures Signals([Signal(p)], q) == if q == p then 1 else 0 {
      assert Signals([Signal(p)][1..], q) == 0;
    }
  }

  /** A new handler's loop starts on a thread of its own. */
  lemma ActorJoins(s: State)
    requires Inv(s)
    ensures var t := Thread([Receive(|s.actors|)], map[], 0);
      Inv(s.(threads := s.threads + [t], actors := s.actors + [|s.threads|]))
  {
    var h, n := |s.actors|, |s.threads|;
    var t := Thread([Receive(h)], map[], 0);
    var s' := s.(threads := s.threads + [t], actors := s.actors + [n]);
    Unsignalled(s);
    forall i | 0 <= i < |s'.threads| ensures ThreadOk(s', i) && SessionOk(s', i) {
      LiveAppend(s.threads, t, i);
      if i < n { BesideActor(s, s', i); } else { FreshActor(s, s'); }
    }
    forall g | 0 <= g < |s'.actors| ensures ActorOk(s', g) { if g < h { assert ActorOk(s, g); } }
    forall g | 0 <= g < h ensures s.actors[g] != n { assert ActorOk(s, g); }
  }

  lemma BesideActor(s: State, s': State, i: nat)
    requires Inv(s) && i < |s.threads| && s'.actors == s.actors + [|s.threads|]
    requires s'.threads == s.threads + [Thread([Receive(|s.actors|)], map[], 0)]
    requires Live(s'.threads, i) == Live(s.threads, i)
    ensures ThreadOk(s', i) && SessionOk(s', i)
  {
    assert ThreadOk(s, i) && SessionOk(s, i);
    assert i in s.actors ==> i in s'.actors;
  }

  lemma FreshActor(s: State, s': State)
    requires s'.actors == s.actors + [|s.threads|]
    requires s'.threads == s.threads + [Thread([Receive(|s.actors|)], map[], 0)]
    requires Live(s'.threads, |s.threads|) == 0
    ensures ThreadOk(s', |s.threads|) && SessionOk(s', |s.threads|)
  {
    Single(Receive(|s.actors|));
    NoGroupCode([Receive(|s.actors|)]);
    assert s'.actors[|s.actors|] == |s.threads|;
  }

  lemma SessionKeeps(s: State, a: Action)
    requires Inv(s) && Enabled(s, a)
    requires a.ClientActs? || a.FindForAttach? || a.FindForForward? || a.FindForDetach?
    ensures Inv(Apply(s, a))
  {
    var instr := s.threads[a.i].code[0];
    match a
    case ClientActs(i, turn) =>
      TurnDone(instr.conn, instr.logged, turn);
      TurnCourse(instr.conn, instr.logged, turn);
      ContinueKeeps(s, i, TurnCode(instr.conn, instr.logged, turn));
    case FindForAttach(i, h) =>
      var g := if h.Some? then h.value else |s.actors|;
      AttachDone(instr.conn, g, h.None?);
      AttachCourse(instr.conn, g, h.None?);
      ContinueKeeps(s, i, AttachCode(instr.conn, g, h.None?));
      ActorJoins(Continue(s, i, AttachCode(instr.conn, g, h.None?)));
    case FindForForward(i, h, failed) =>
      ForwardDone(instr.conn, h, failed);
      ForwardCourse(instr.conn, h, failed);
      ContinueKeeps(s, i, ForwardCode(instr.conn, h, failed));
    case FindForDetach(i, h, last, channels) =>
      DetachDone(h, last, channels);
      DetachCourse(h, last, channels);
      ContinueKeeps(s, i, DetachCode(h, last, channels));
  }

  // ---- Rendezvous ----

  lemma IdleActor(s: State, h: nat)
    requires Inv(s) && h < |s.actors| && Head(s, s.actors[h])
    requires s.threads[s.actors[h]].code[0] == Receive(h)
    ensures s.threads[s.actors[h]].code == [Receive(h)]
  {
    assert ActorOk(s, h);
  }

  function MetCode(b: Branch, i: nat, h: nat): seq<Instr> {
    BranchCode(b) + [Reply(i), Receive(h)]
  }

  /** Session `i` awaits the answer of actor thread `a`, which works on its request and will answer it. */
  ghost predicate Met(s: State, s': State, i: nat, a: nat, h: nat, b: Branch) {
    && Inv(s) && Head(s, i) && s.threads[i].code[0] == Call(h)
    && h < |s.actors| && s.actors[h] == a && a != i && a < |s.threads| && s.threads[a].code == [Receive(h)]
    && s'.actors == s.actors
    && s'.threads == s.threads[i := s.threads[i].(code := [Await(h)] + s.threads[i].code[1..])]
                              [a := s.threads[a].(code := MetCode(b, i, h))]
  }

  lemma MeetEffect(s: State, i: nat, b: Branch)
    requires Inv(s) && Enabled(s, Meet(i, b))
    ensures var h := s.threads[i].code[0].h; Met(s, Apply(s, Meet(i, b)), i, s.actors[h], h, b)
  {
    var h := s.threads[i].code[0].h;
    IdleActor(s, h);
    assert BranchCode(b) + [Reply(i)] + [Receive(h)] == MetCode(b, i, h);
  }

  lemma MetCodeShape(t: Thread, b: Branch, i: nat, h: nat, a: nat, n: nat)
    requires Shape(t, a, n) && t.code == [Receive(h)]
    ensures Shape(t.(code := MetCode(b, i, h)), a, n)
    ensures forall k | 0 <= k < |MetCode(b, i, h)| :: NoGroup(MetCode(b, i, h)[k])
  {
    MetCodeDone(b, i, h);
    MetCodeForm(b, i, h, a, n);
  }

  lemma MetCodeDone(b: Branch, i: nat, h: nat)
    ensures Disciplined(MetCode(b, i, h), map[], map[])
  {
    Branched(b);
    assert [Reply(i), Receive(h)][1..] == [Receive(h)];
    Single(Receive(h));
    Sequenced(BranchCode(b), [Reply(i), Receive(h)], map[], map[], map[]);
  }

  lemma MetCodeForm(b: Branch, i: nat, h: nat, a: nat, n: nat)
    ensures Form(MetCode(b, i, h), a, n)
    ensures forall k | 0 <= k < |MetCode(b, i, h)| :: NoGroup(MetCode(b, i, h)[k])
  {
    BranchIsSimple(b);
    var code, branch := MetCode(b, i, h), BranchCode(b);
    forall k | 0 <= k < |code| ensures NoGroup(code[k]) && !code[k].Call? && !code[k].Await? {
      if k < |branch| { assert code[k] == branch[k]; } else { assert code[k] == [Reply(i), Receive(h)][k - |branch|]; }
    }
  }

  lemma AwaitShape(t: Thread, i: nat, n: nat, h: nat)
    requires Shape(t, i, n) && t.code != [] && t.code[0] == Call(h)
    ensures Shape(t.(code := [Await(h)] + t.code[1..]), i, n)
  {
    var code := [Await(h)] + t.code[1..];
    assert code[1..] == t.code[1..];
    assert forall k | 1 <= k < |code| :: code[k] == t.code[k];
    assert !SocketCode(t.code);
  }

  lemma AllBalanced(s: State)
    requires Inv(s)
    ensures forall j | 0 <= j < |s.threads| :: Balanced(s, j)
  {
    forall j | 0 <= j < |s.threads| ensures Balanced(s, j) { assert ThreadOk(s, j); }
  }

  /** Replacing the head of a thread by another instruction leaves the wait groups alone. */
  lemma SwapHead(s: State, i: nat, instr: Instr)
    requires Head(s, i) && NoGroup(instr) && NoGroup(s.threads[i].code[0])
    requires forall j | 0 <= j < |s.threads| :: Balanced(s, j)
    ensures var s' := SetThread(s, i, s.threads[i].(code := [instr] + s.threads[i].code[1..]));
      forall j | 0 <= j < |s.threads| :: Balanced(s', j)
  {
    NoGroupPrefix([instr], s.threads[i].code[1..]);
    SameGroups(s, SetThread(s, i, s.threads[i].(code := [instr] + s.threads[i].code[1..])), i);
  }

  /** So does dropping it ... */
  lemma DropHead(s: State, i: nat)
    requires Head(s, i) && NoGroup(s.threads[i].code[0])
    requires forall j | 0 <= j < |s.threads| :: Balanced(s, j)
    ensures var s' := SetThread(s, i, s.threads[i].(code := s.threads[i].code[1..]));
      forall j | 0 <= j < |s.threads| :: Balanced(s', j)
  {
    SameGroups(s, SetThread(s, i, s.threads[i].(code := s.threads[i].code[1..])), i);
  }

  /** ... and giving code without wait groups to a thread that has no other. */
  lemma NewCode(s: State, a: nat, code: seq<Instr>)
    requires a < |s.threads| && (forall k | 0 <= k < |code| :: NoGroup(code[k]))
    requires forall k | 0 <= k < |s.threads[a].code| :: NoGroup(s.threads[a].code[k])
    requires forall j | 0 <= j < |s.threads| :: Balanced(s, j)
    ensures var s' := SetThread(s, a, s.threads[a].(code := code));
      forall j | 0 <= j < |s.threads| :: Balanced(s', j)
  {
    NoGroupCode(code);
    NoGroupCode(s.threads[a].code);
    SameGroups(s, SetThread(s, a, s.threads[a].(code := code)), a);
  }

  lemma MeetBalances(s: State, s': State, i: nat, a: nat, h: nat, b: Branch)
    requires Met(s, s', i, a, h, b)
    ensures forall j | 0 <= j < |s'.threads| :: Balanced(s', j)
  {
    var s1 := SetThread(s, i, s.threads[i].(code := [Await(h)] + s.threads[i].code[1..]));
    assert ThreadOk(s, a);
    MetCodeShape(s.threads[a], b, i, h, a, |s.threads|);
    AllBalanced(s);
    SwapHead(s, i, Await(h));
    NewCode(s1, a, MetCode(b, i, h));
    assert s' == SetThread(s1, a, s1.threads[a].(code := MetCode(b, i, h)));
  }

  lemma MeetThreads(s: State, s': State, i: nat, a: nat, h: nat, b: Branch)
    requires Met(s, s', i, a, h, b)
    ensures forall j | 0 <= j < |s'.threads| :: ThreadOk(s', j)
  {
    MeetBalances(s, s', i, a, h, b);
    forall j | 0 <= j < |s'.threads| ensures Shape(s'.threads[j], j, |s'.threads|) {
      assert ThreadOk(s, j);
      if j == i { AwaitShape(s.threads[i], i, |s.threads|, h); }
      if j == a { MetCodeShape(s.threads[a], b, i, h, a, |s.threads|); }
    }
  }

  lemma MeetActors(s: State, s': State, i: nat, a: nat, h: nat, b: Branch)
    requires Met(s, s', i, a, h, b)
    ensures forall g | 0 <= g < |s'.actors| :: ActorOk(s', g)
  {
    NotAnActor(s, i);
    forall g | 0 <= g < |s'.actors| ensures ActorOk(s', g) {
      if g == h { MetActor(s, s', i, a, h, b); } else { OtherActor(s, s', i, a, h, b, g); }
    }
  }

  lemma OtherActor(s: State, s': State, i: nat, a: nat, h: nat, b: Branch, g: nat)
    requires Met(s, s', i, a, h, b) && g < |s'.actors| && g != h
    ensures ActorOk(s', g)
  {
    NotAnActor(s, i);
    assert ActorOk(s, g) && s.actors[g] in s.actors;
  }

  lemma MetActor(s: State, s': State, i: nat, a: nat, h: nat, b: Branch)
    requires Met(s, s', i, a, h, b)
    ensures ActorOk(s', h)
  {
    NotAnActor(s, i);
    assert ActorOk(s, h);
    BranchIsSimple(b);
    var code := MetCode(b, i, h);
    assert code[|code| - 1] == Receive(h) && code[|code| - 2] == Reply(i);
    assert forall k | 0 <= k < |code| - 2 :: code[k] == BranchCode(b)[k];
  }

  lemma MeetSessions(s: State, s': State, i: nat, a: nat, h: nat, b: Branch)
    requires Met(s, s', i, a, h, b)
    ensures forall j | 0 <= j < |s'.threads| :: SessionOk(s', j)
  {
    forall j | 0 <= j < |s'.threads| ensures SessionOk(s', j) {
      if j == i { MeetCaller(s, s', i, a, h, b); }
      else if j == a { MeetCallee(s, s', i, a, h, b); }
      else { MeetOtherSession(s, s', i, a, h, b, j); }
    }
  }

  /** The session that calls awaits its answer now. */
  lemma MeetCaller(s: State, s': State, i: nat, a: nat, h: nat, b: Branch)
    requires Met(s, s', i, a, h, b)
    ensures SessionOk(s', i)
  {
    NotAnActor(s, i);
    assert SessionOk(s, i);
    var code := MetCode(b, i, h);
    assert code[|code| - 2] == Reply(i);
    assert forall k | 1 <= k < |s'.threads[i].code| :: s'.threads[i].code[k] == s.threads[i].code[k];
  }

  /** The actor that is called is no session. */
  lemma MeetCallee(s: State, s': State, i: nat, a: nat, h: nat, b: Branch)
    requires Met(s, s', i, a, h, b)
    ensures SessionOk(s', a)
  {
    BranchIsSimple(b);
    var code := MetCode(b, i, h);
    assert code[0] == if |BranchCode(b)| > 0 then BranchCode(b)[0] else Reply(i);
    assert a in s'.actors;
  }

  lemma MeetOtherSession(s: State, s': State, i: nat, a: nat, h: nat, b: Branch, j: nat)
    requires Met(s, s', i, a, h, b) && j < |s'.threads| && j != i && j != a
    ensures SessionOk(s', j)
  {
    NotAnActor(s, i);
    assert SessionOk(s, j);
    if s.threads[j].code != [] && s.threads[j].code[0].Await? {
      assert s.actors[s.threads[j].code[0].h] in s.actors;
    }
  }

  lemma MeetKeeps(s: State, i: nat, b: Branch)
    requires Inv(s) && Enabled(s, Meet(i, b))
    ensures Inv(Apply(s, Meet(i, b)))
  {
    var s', h := Apply(s, Meet(i, b)), s.threads[i].code[0].h;
    MeetEffect(s, i, b);
    MeetThreads(s, s', i, s.actors[h], h, b);
    MeetActors(s, s', i, s.actors[h], h, b);
    MeetSessions(s, s', i, s.actors[h], h, b);
  }

  /** Actor thread `a` has answered thread `to`, which was awaiting it, and is idle again. */
  ghost predicate AnsweredBy(s: State, s': State, a: nat, to: nat, h: nat) {
    && Inv(s) && h < |s.actors| && s.actors[h] == a && a != to && a < |s.threads| && Head(s, to)
    && s.threads[a].code == [Reply(to), Receive(h)] && s.threads[to].code[0] == Await(h)
    && s'.actors == s.actors
    && s'.threads == s.threads[to := s.threads[to].(code := s.threads[to].code[1..])]
                              [a := s.threads[a].(code := [Receive(h)])]
  }

  lemma AnswerEffect(s: State, a: nat) returns (h: nat)
    requires Inv(s) && Enabled(s, Answer(a))
    ensures AnsweredBy(s, Apply(s, Answer(a)), a, s.threads[a].code[0].to, h)
  {
    var to := s.threads[a].code[0].to;
    assert SessionOk(s, a);
    h :| 0 <= h < |s.actors| && s.actors[h] == a;
    assert ActorOk(s, h);
    assert s.threads[a].code == [Reply(to), Receive(h)];
    assert [] + s.threads[to].code[1..] == s.threads[to].code[1..];
    assert [] + s.threads[a].code[1..] == [Receive(h)];
  }

  lemma AnswerBalances(s: State, s': State, a: nat, to: nat, h: nat)
    requires AnsweredBy(s, s', a, to, h)
    ensures forall j | 0 <= j < |s'.threads| :: Balanced(s', j)
  {
    var s1 := SetThread(s, to, s.threads[to].(code := s.threads[to].code[1..]));
    AllBalanced(s);
    DropHead(s, to);
    NewCode(s1, a, [Receive(h)]);
    assert s' == SetThread(s1, a, s1.threads[a].(code := [Receive(h)]));
  }

  lemma AnswerThreads(s: State, s': State, a: nat, to: nat, h: nat)
    requires AnsweredBy(s, s', a, to, h)
    ensures forall j | 0 <= j < |s'.threads| :: ThreadOk(s', j)
  {
    AnswerBalances(s, s', a, to, h);
    assert [Reply(to), Receive(h)][1..] == [Receive(h)];
    forall j | 0 <= j < |s'.threads| ensures Shape(s'.threads[j], j, |s'.threads|) {
      assert ThreadOk(s, j);
      TailIfMoved(s.threads[j], j, |s.threads|);
    }
  }

  lemma TailIfMoved(t: Thread, i: nat, n: nat)
    requires Shape(t, i, n)
    ensures t.code != [] && (t.code[0].Await? || t.code[0].Reply?) ==> Shape(t.(code := t.code[1..]), i, n)
  {
    if t.code != [] {
      TailShape(t, i, n);
    }
  }

  lemma AnswerActors(s: State, s': State, a: nat, to: nat, h: nat)
    requires AnsweredBy(s, s', a, to, h)
    ensures forall g | 0 <= g < |s'.actors| :: ActorOk(s', g)
  {
    NotAnActor(s, to);
    forall g | 0 <= g < |s'.actors| ensures ActorOk(s', g) {
      assert ActorOk(s, g) && s.actors[g] in s.actors;
    }
  }

  lemma AnswerSessions(s: State, s': State, a: nat, to: nat, h: nat)
    requires AnsweredBy(s, s', a, to, h)
    ensures forall j | 0 <= j < |s'.threads| :: SessionOk(s', j)
  {
    NotAnActor(s, to);
    forall j | 0 <= j < |s'.threads| ensures SessionOk(s', j) {
      assert SessionOk(s, j) && ThreadOk(s, j);
      if j == to {
        assert forall k | 0 <= k < |s'.threads[to].code| :: s'.threads[to].code[k] == s.threads[to].code[k + 1];
      } else if j == a {
        assert a in s'.actors;
      } else if s.threads[j].code != [] && s.threads[j].code[0].Await? {
        assert s.actors[s.threads[j].code[0].h] in s.actors;
      }
    }
  }

  lemma AnswerKeeps(s: State, a: nat)
    requires Inv(s) && Enabled(s, Answer(a))
    ensures Inv(Apply(s, Answer(a)))
  {
    var s', to := Apply(s, Answer(a)), s.threads[a].code[0].to;
    var h := AnswerEffect(s, a);
    AnswerThreads(s, s', a, to, h);
    AnswerActors(s, s', a, to, h);
    AnswerSessions(s, s', a, to, h);
  }

  lemma ApplyKeeps(s: State, a: Action)
    requires Inv(s) && Enabled(s, a)
    ensures Inv(Apply(s, a))
  {
    match a
    case Connect(conn) => ConnectKeeps(s, conn);
    case Op(i) =>
      if s.threads[i].code[0].Add? { AddKeeps(s, i); }
      else if s.threads[i].code[0].Signal? { SignalKeeps(s, i); }
      else { OpKeeps(s, i); }
    case Start(i, v, order) => StartKeeps(s, i, v, order);
    case Meet(i, b) => MeetKeeps(s, i, b);
    case Answer(actor) => AnswerKeeps(s, actor);
    case _ => SessionKeeps(s, a);
  }

  lemma {:induction false} RunKeeps(trace: seq<State>)
    requires Run(trace)
    ensures Inv(trace[|trace| - 1])
  {
    if |trace| > 1 {
      var n := |trace| - 2;
      RunKeeps(trace[..n + 1]);
      assert Next(trace[n], trace[n + 1]);
      var a :| Enabled(trace[n], a) && trace[n + 1] == Apply(trace[n], a);
      ApplyKeeps(trace[n], a);
    }
  }

  /** The server never deadlocks: in every reachable state a thread with work left means some thread can go on. */
  lemma DeadlockFree(trace: seq<State>)
    requires Run(trace)
    ensures var s := trace[|trace| - 1];
      (exists i :: 0 <= i < |s.threads| && !AtRest(s.threads[i])) ==> CanStep(s)
  {
    RunKeeps(trace);
    var s := trace[|trace| - 1];
    if i :| 0 <= i < |s.threads| && !AtRest(s.threads[i]) {
      NoDeadlock(s, i);
    }
  }

  // ---- The locks really exclude ----

  /** Thread `i` is a writer of this lock, announced or inside, and so is `j`, or `i` is inside with `j` reading. */
  ghost predicate Clash(s: State, i: nat, j: nat, l: Lock) {
    || ((InMode(s, i, l, Announced) || InMode(s, i, l, Writer))
      && (InMode(s, j, l, Announced) || InMode(s, j, l, Writer)))
    || (InMode(s, i, l, Writer) && InMode(s, j, l, Reader))
  }

  ghost predicate Exclusive(s: State) {
    forall i: nat, j: nat, l: Lock | i != j :: !Clash(s, i, j, l)
  }

  /** The modes an operation can give. */
  lemma OpModes(s: State, i: nat, j: nat, l: Lock, mode: Mode)
    requires Inv(s) && Enabled(s, Op(i)) && InMode(DoOp(s, i), j, l, mode)
    ensures InMode(s, j, l, mode) || (j == i && Gives(s, i, l, mode))
  {
    assert ThreadOk(s, i);
    assert j < |s.threads| && (j != i ==> DoOp(s, i).threads[j].held == s.threads[j].held);
  }

  ghost predicate Gives(s: State, i: nat, l: Lock, mode: Mode)
    requires Head(s, i)
  {
    var instr := s.threads[i].code[0];
    || (mode == Reader && instr == RLock(l))
    || (mode == Announced && instr == Announce(l))
    || (mode == Writer && instr == Enter(l) && InMode(s, i, l, Announced))
  }

  /** ... and what it asks of the other threads first. */
  lemma OpWaits(s: State, i: nat, j: nat, l: Lock)
    requires Enabled(s, Op(i))
    ensures s.threads[i].code[0] in {RLock(l), Announce(l)} ==> !InMode(s, j, l, Announced) && !InMode(s, j, l, Writer)
    ensures s.threads[i].code[0] == Enter(l) ==> !InMode(s, j, l, Reader)
  {
  }

  lemma OpExcludes(s: State, i: nat)
    requires Inv(s) && Exclusive(s) && Enabled(s, Op(i))
    ensures Exclusive(DoOp(s, i))
  {
    var s' := DoOp(s, i);
    forall j: nat, k: nat, l: Lock | j != k ensures !Clash(s', j, k, l) {
      if Clash(s', j, k, l) { ClashIsOld(s, i, j, k, l); }
    }
  }

  lemma ClashIsOld(s: State, i: nat, j: nat, k: nat, l: Lock)
    requires Inv(s) && Enabled(s, Op(i)) && j != k && Clash(DoOp(s, i), j, k, l)
    ensures Clash(s, j, k, l)
  {
    forall t: nat, mode | InMode(DoOp(s, i), t, l, mode)
      ensures InMode(s, t, l, mode) || (t == i && Gives(s, i, l, mode))
    {
      OpModes(s, i, t, l, mode);
    }
    OpWaits(s, i, j, l);
    OpWaits(s, i, k, l);
  }

  lemma ApplyExcludes(s: State, a: Action)
    requires Inv(s) && Exclusive(s) && Enabled(s, a)
    ensures Exclusive(Apply(s, a))
  {
    if a.Op? {
      OpExcludes(s, a.i);
    } else {
      forall j: nat, l, mode | InMode(Apply(s, a), j, l, mode)
        ensures InMode(s, j, l, mode)
      {
        OtherModes(s, a, j, l, mode);
      }
      forall j: nat, k: nat, l: Lock | j != k ensures !Clash(Apply(s, a), j, k, l) {
        assert Clash(Apply(s, a), j, k, l) ==> Clash(s, j, k, l);
      }
    }
  }

  lemma OtherModes(s: State, a: Action, j: nat, l: Lock, mode: Mode)
    requires Enabled(s, a) && !a.Op? && InMode(Apply(s, a), j, l, mode)
    ensures InMode(s, j, l, mode)
  {
  }

  /** The lock table of every reachable state is one that reader-writer locks allow. */
  lemma {:induction false} LocksExclude(trace: seq<State>)
    requires Run(trace)
    ensures Exclusive(trace[|trace| - 1])
  {
    if |trace| > 1 {
      var n := |trace| - 2;
      LocksExclude(trace[..n + 1]);
      RunKeeps(trace[..n + 1]);
      assert Next(trace[n], trace[n + 1]);
      var a :| Enabled(trace[n], a) && trace[n + 1] == Apply(trace[n], a);
      ApplyExcludes(trace[n], a);
    }
  }
}
