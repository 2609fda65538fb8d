/**
 The chat at the level of single lock operations, channel rendezvous and wait groups. A thread is the list of
 such operations it still has to perform; what the data decides is chosen freely. Whether an operation can be
 performed never depends on the data, so a deadlock of the server would be a deadlock here.
 */
module LockMachine {
  import opened Collections

  datatype Lock = PoolLock | StoreLock | ChannelLock(ref: nat) | HandlerLock(h: nat) | SocketLock(conn: nat)

  /** The mode a thread is in on a lock. A writer that has announced itself already keeps new readers out. */
  datatype Mode = Reader | Announced | Writer

  datatype Job =
    | EvictJob
    | BroadcastJob(ref: nat)
    | WriteJob(h: nat)
    | SocketJob(conn: nat, parent: nat)

  datatype Instr =
    | RLock(l: Lock) | RUnlock(l: Lock)
    | Announce(l: Lock) | Enter(l: Lock) | Unlock(l: Lock)   // Lock() is the first two
    | Spawn(job: Job)
    | Add(n: nat) | Signal(parent: nat) | Wait               // the wait group in Write
    | Io                                                     // a socket or index call, which returns
    | Call(h: nat)     // send a request to the actor of h
    | Await(h: nat)    // receive the answer
    | Receive(h: nat)  // the actor of h takes a request
    | Reply(to: nat)   // ... and answers thread `to`
    | Input(conn: nat, logged: bool)   // a session waits for its client
    | Attach(conn: nat) | Forward(conn: nat) | Detach(conn: nat)   // what follows depends on the handler found

  datatype Thread = Thread(code: seq<Instr>, held: map<Lock, Mode>, wg: int)

  /** `actors[h]` is the thread that runs the request loop of handler `h`. */
  datatype State = State(threads: seq<Thread>, actors: seq<nat>)

  const INIT := State([], [])

  // ---- The code of the server, as paths of operations ----

  function WithLock(l: Lock): seq<Instr> { [Announce(l), Enter(l), Unlock(l)] }

  function WithRLock(l: Lock): seq<Instr> { [RLock(l), RUnlock(l)] }

  function SocketWrite(conn: nat): seq<Instr> {
    [Announce(SocketLock(conn)), Enter(SocketLock(conn)), Io, Unlock(SocketLock(conn))]
  }

  function WriteSpawns(order: seq<nat>): seq<Instr> {
    seq(|order|, i requires 0 <= i < |order| => Spawn(WriteJob(order[i])))
  }

  function MessageMembers(ref: nat, order: seq<nat>): seq<Instr> {
    [RLock(ChannelLock(ref))] + WriteSpawns(order) + [RUnlock(ChannelLock(ref))]
  }

  /** How far AddUserToChannel or RemoveUserFromChannel gets. */
  datatype Visit = NoName | Missing | Seen(ref: nat) | Changed(ref: nat, order: seq<nat>)

  function VisitCode(v: Visit): seq<Instr> {
    match v
    case NoName => []
    case Missing => WithRLock(StoreLock)
    case Seen(ref) => WithRLock(StoreLock) + WithRLock(ChannelLock(ref))
    case Changed(ref, order) =>
      WithRLock(StoreLock) + WithRLock(ChannelLock(ref)) + WithLock(ChannelLock(ref)) + MessageMembers(ref, order)
  }

  /** The branches of HandleRequests. */
  datatype Branch =
    | CreateFails(empty: bool)
    | Creates(v: Visit)
    | Joins(v: Visit)
    | Leaves(h: nat, v: Visit, left: bool)
    | NotPresent(v: Visit)
    | Sends(ref: nat, indexed: bool)

  function BranchCode(b: Branch): seq<Instr> {
    match b
    case CreateFails(empty) => if empty then [] else WithLock(StoreLock)
    case Creates(v) => WithLock(StoreLock) + VisitCode(v)
    case Joins(v) => VisitCode(v)
    case Leaves(h, v, left) => VisitCode(v) + (if left then [Spawn(WriteJob(h))] else [])
    case NotPresent(v) => VisitCode(v)
    case Sends(ref, indexed) =>
      WithRLock(StoreLock) + WithRLock(ChannelLock(ref)) + WithRLock(StoreLock) + [Io]
      + (if indexed then [Spawn(BroadcastJob(ref))] else [])
  }

  function SocketSpawns(order: seq<nat>, self: nat): seq<Instr> {
    seq(|order|, i requires 0 <= i < |order| => Spawn(SocketJob(order[i], self)))
  }

  /** The code a spawned goroutine runs: `order` is its iteration, `v` how far an eviction gets. */
  function JobCode(job: Job, self: nat, v: Visit, order: seq<nat>): seq<Instr> {
    match job
    case EvictJob => VisitCode(v)
    case BroadcastJob(ref) => MessageMembers(ref, order)
    case WriteJob(h) =>
      [RLock(HandlerLock(h)), Add(|order|)] + SocketSpawns(order, self) + [Wait, RUnlock(HandlerLock(h))]
    case SocketJob(conn, parent) => SocketWrite(conn) + [Signal(parent)]
  }

  /** What a client can make a session do. */
  datatype Turn = Refused | Accepted | Leaving(timeout: bool)

  function ShutCode(conn: nat): seq<Instr> {
    WithRLock(PoolLock) + WithRLock(PoolLock) + [Detach(conn)]
  }

  function TurnCode(conn: nat, logged: bool, turn: Turn): seq<Instr> {
    match turn
    case Refused => SocketWrite(conn) + [Input(conn, logged)]
    case Accepted => WithRLock(PoolLock) + [if logged then Forward(conn) else Attach(conn)]
    case Leaving(timeout) =>
      (if timeout then SocketWrite(conn) else []) + (if logged then ShutCode(conn) else [])
  }

  function AttachCode(conn: nat, h: nat, isNew: bool): seq<Instr> {
    (if isNew then WithLock(PoolLock) else [])
    + WithLock(HandlerLock(h)) + WithLock(PoolLock) + SocketWrite(conn) + [Input(conn, true)]
  }

  function ForwardCode(conn: nat, h: Option<nat>, failed: bool): seq<Instr> {
    if h.None? then ShutCode(conn)
    else [Call(h.value)] + (if failed then SocketWrite(conn) else []) + [Input(conn, true)]
  }

  function EvictSpawns(n: nat): seq<Instr> {
    seq(n, i => Spawn(EvictJob))
  }

  /** RemoveConnection once it has found its handler, or not; the last connection disconnects under the pool lock. */
  function DetachCode(h: Option<nat>, last: bool, channels: nat): seq<Instr> {
    if h.None? then []
    else
      WithRLock(HandlerLock(h.value))
      + (if !last then WithLock(HandlerLock(h.value))
         else [Announce(PoolLock), Enter(PoolLock), RLock(StoreLock)] + EvictSpawns(channels)
              + [RUnlock(StoreLock), Unlock(PoolLock)])
  }

  // ---- Steps ----

  datatype Action =
    | Connect(conn: nat)
    | ClientActs(i: nat, turn: Turn)
    | Op(i: nat)                                        // a lock, wait group or i/o operation
    | Start(i: nat, v: Visit, order: seq<nat>)          // a go statement
    | FindForAttach(i: nat, h: Option<nat>)
    | FindForForward(i: nat, h: Option<nat>, failed: bool)
    | FindForDetach(i: nat, h: Option<nat>, last: bool, channels: nat)
    | Meet(i: nat, b: Branch)                           // a request meets its actor
    | Answer(a: nat)                                    // an answer meets its session

  predicate Internal(a: Action) { !a.Connect? && !a.ClientActs? }

  predicate Head(s: State, i: nat) {
    i < |s.threads| && s.threads[i].code != []
  }

  ghost predicate InMode(s: State, j: nat, l: Lock, mode: Mode) {
    j < |s.threads| && l in s.threads[j].held && s.threads[j].held[l] == mode
  }

  /** Whether the operation can be performed now. Only locks and wait groups ever block. */
  ghost predicate CanDo(s: State, i: nat)
    requires Head(s, i)
  {
    match s.threads[i].code[0]
    case RLock(l) => forall j: nat :: !InMode(s, j, l, Announced) && !InMode(s, j, l, Writer)
    case Announce(l) => forall j: nat :: !InMode(s, j, l, Announced) && !InMode(s, j, l, Writer)
    case Enter(l) => forall j: nat :: !InMode(s, j, l, Reader)
    case Wait => s.threads[i].wg == 0
    case RUnlock(_) => true
    case Unlock(_) => true
    case Add(_) => true
    case Signal(_) => true
    case Io => true
    case _ => false
  }

  predicate Lookup(s: State, h: Option<nat>) { h.Some? ==> h.value < |s.actors| }

  ghost predicate Enabled(s: State, a: Action) {
    match a
    case Connect(_) => true
    case ClientActs(i, _) => Head(s, i) && s.threads[i].code[0].Input?
    case Op(i) => Head(s, i) && CanDo(s, i)
    case Start(i, _, _) => Head(s, i) && s.threads[i].code[0].Spawn?
    case FindForAttach(i, h) => Head(s, i) && s.threads[i].code[0].Attach? && Lookup(s, h)
    case FindForForward(i, h, _) => Head(s, i) && s.threads[i].code[0].Forward? && Lookup(s, h)
    case FindForDetach(i, h, _, _) => Head(s, i) && s.threads[i].code[0].Detach? && Lookup(s, h)
    case Meet(i, _) =>
      && Head(s, i) && s.threads[i].code[0].Call?
      && s.threads[i].code[0].h < |s.actors|
      && Head(s, s.actors[s.threads[i].code[0].h]) && s.actors[s.threads[i].code[0].h] != i
      && s.threads[s.actors[s.threads[i].code[0].h]].code[0] == Receive(s.threads[i].code[0].h)
    case Answer(a) =>
      && Head(s, a) && s.threads[a].code[0].Reply? && s.threads[a].code[0].to != a
      && Head(s, s.threads[a].code[0].to) && s.threads[s.threads[a].code[0].to].code[0].Await?
  }

  function SetThread(s: State, i: nat, t: Thread): State
    requires i < |s.threads|
  {
    s.(threads := s.threads[i := t])
  }

  /** The head of the code is replaced by `code`. */
  function Continue(s: State, i: nat, code: seq<Instr>): State
    requires Head(s, i)
  {
    SetThread(s, i, s.threads[i].(code := code + s.threads[i].code[1..]))
  }

  function DoOp(s: State, i: nat): State
    requires Head(s, i)
  {
    var t := s.threads[i];
    var next := t.(code := t.code[1..]);
    match t.code[0]
    case RLock(l) => SetThread(s, i, next.(held := t.held[l := Reader]))
    case Announce(l) => SetThread(s, i, next.(held := t.held[l := Announced]))
    case Enter(l) => SetThread(s, i, next.(held := t.held[l := Writer]))
    case RUnlock(l) => SetThread(s, i, next.(held := t.held - {l}))
    case Unlock(l) => SetThread(s, i, next.(held := t.held - {l}))
    case Add(n) => SetThread(s, i, next.(wg := t.wg + n))
    case Signal(p) =>
      var s1 := SetThread(s, i, next);
      if p < |s1.threads| then SetThread(s1, p, s1.threads[p].(wg := s1.threads[p].wg - 1)) else s1
    case _ => SetThread(s, i, next)
  }

  function Apply(s: State, a: Action): State
    requires Enabled(s, a)
  {
    match a
    case Connect(conn) => s.(threads := s.threads + [Thread([Input(conn, false)], map[], 0)])
    case ClientActs(i, turn) =>
      Continue(s, i, TurnCode(s.threads[i].code[0].conn, s.threads[i].code[0].logged, turn))
    case Op(i) => DoOp(s, i)
    case Start(i, v, order) =>
      var s1 := Continue(s, i, []);
      s1.(threads := s1.threads + [Thread(JobCode(s.threads[i].code[0].job, |s.threads|, v, order), map[], 0)])
    case FindForAttach(i, h) =>
      var conn := s.threads[i].code[0].conn;
      if h.Some? then Continue(s, i, AttachCode(conn, h.value, false))
      else
        var s1 := Continue(s, i, AttachCode(conn, |s.actors|, true));
        s1.(threads := s1.threads + [Thread([Receive(|s.actors|)], map[], 0)], actors := s.actors + [|s.threads|])
    case FindForForward(i, h, failed) => Continue(s, i, ForwardCode(s.threads[i].code[0].conn, h, failed))
    case FindForDetach(i, h, last, channels) => Continue(s, i, DetachCode(h, last, channels))
    case Meet(i, b) =>
      var h := s.threads[i].code[0].h;
      var s1 := Continue(s, i, [Await(h)]);
      var actor := s.actors[h];
      SetThread(s1, actor, s1.threads[actor].(code := BranchCode(b) + [Reply(i)] + s1.threads[actor].code))
    case Answer(actor) =>
      var s1 := Continue(s, s.threads[actor].code[0].to, []);
      Continue(s1, actor, [])
  }

  ghost predicate Next(s: State, s': State) {
    exists a :: Enabled(s, a) && s' == Apply(s, a)
  }

  ghost predicate Run(trace: seq<State>) {
    && |trace| > 0 && trace[0] == INIT
    && forall i | 0 <= i < |trace| - 1 :: Next(trace[i], trace[i + 1])
  }

  /** A thread that has ended, waits for its client, or is an actor waiting for a request. */
  predicate AtRest(t: Thread) {
    t.code == [] || t.code[0].Input? || t.code[0].Receive?
  }
}
