/**
 The channel store under concurrency: one step per critical section. A call is the life of one store
 method in some goroutine; between two of its steps every other goroutine may run.
 */
module StoreMachine {
  import opened Collections
  import opened StoreSpec

  /** What a call does next. `ref` is the channel object it got from `getChannel`. */
  datatype Pc =
    | Lookup              // about to validate the name and read (or, for Create, write) the channel map
    | Check(ref: nat)     // about to run HasMember
    | Change(ref: nat)    // about to run AddMember or RemoveMember
    | Notify(ref: nat)    // about to run MessageMembers
    | Done(at: nat)       // returned; `at` is the position of its Returned event

  /** `invoked` and `lin` are positions in the history: auxiliary state that no step of the code reads. */
  datatype Call = Call(op: Op<nat>, pc: Pc, invoked: nat, lin: Option<nat>)

  /** `name` is a tag of the model: a channel object does not know its name. */
  datatype ChannelObj = ChannelObj(name: string, members: set<nat>)

  datatype Event =
    | Invoked(call: nat, op: Op<nat>)
    | Linearized(call: nat, op: Op<nat>, outcome: Outcome)
    | Returned(call: nat, op: Op<nat>, outcome: Outcome, told: Option<set<nat>>)

  datatype State = State(
    names: map<string, nat>,
    channels: seq<ChannelObj>,
    calls: seq<Call>,
    history: seq<Event>)

  const INIT := State(map[], [], [], [])

  function Members(s: State, ref: nat): set<nat> {
    if ref < |s.channels| then s.channels[ref].members else {}
  }

  ghost predicate Running(s: State, t: nat) {
    t < |s.calls| && !s.calls[t].pc.Done?
  }

  /** A running join or leave of this user. */
  ghost predicate OwnCall(s: State, t: nat, user: nat) {
    Running(s, t) && s.calls[t].op.user == user && s.calls[t].op.kind in {Join, Leave}
  }

  /** The one thing asked of callers: a user's joins and own leaves are serialised. */
  ghost predicate CanStart(s: State, op: Op<nat>) {
    op.kind in {Join, Leave} ==> forall t: nat :: !OwnCall(s, t, op.user)
  }

  function Start(s: State, op: Op<nat>): State {
    s.(calls := s.calls + [Call(op, Lookup, |s.history|, None)],
       history := s.history + [Invoked(|s.calls|, op)])
  }

  function Goto(s: State, t: nat, pc: Pc): State
    requires t < |s.calls|
  {
    s.(calls := s.calls[t := s.calls[t].(pc := pc)])
  }

  /** Records that call `t` takes effect now. */
  function Linearize(s: State, t: nat, outcome: Outcome): State
    requires t < |s.calls|
  {
    s.(calls := s.calls[t := s.calls[t].(lin := Some(|s.history|))],
       history := s.history + [Linearized(t, s.calls[t].op, outcome)])
  }

  function Return(s: State, t: nat, outcome: Outcome, told: Option<set<nat>>): State
    requires t < |s.calls|
  {
    s.(calls := s.calls[t := s.calls[t].(pc := Done(|s.history|))],
       history := s.history + [Returned(t, s.calls[t].op, outcome, told)])
  }

  /** The call takes effect and returns at this very step. */
  function Finish(s: State, t: nat, outcome: Outcome): State
    requires t < |s.calls|
  {
    Return(Linearize(s, t, outcome), t, outcome, None)
  }

  function SetMembers(s: State, ref: nat, members: set<nat>): State {
    if ref < |s.channels| then
      s.(channels := s.channels[ref := s.channels[ref].(members := members)])
    else s
  }

  function AtLookup(s: State, t: nat): State
    requires t < |s.calls|
  {
    var op := s.calls[t].op;
    if op.name == "" then
      Finish(s, t, if op.kind.Present? then Err(UserNotInChannel) else Err(EmptyChannelName))
    else if op.kind.Create? then
      if op.name in s.names then Finish(s, t, Err(ChannelAlreadyExists))
      else
        Finish(s.(names := s.names[op.name := |s.channels|],
                  channels := s.channels + [ChannelObj(op.name, {})]), t, Ok)
    else if op.name !in s.names then
      Finish(s, t, if op.kind.Present? then Err(UserNotInChannel) else Err(ChannelDoesNotExist))
    else Goto(s, t, Check(s.names[op.name]))
  }

  function AtCheck(s: State, t: nat): State
    requires t < |s.calls| && s.calls[t].pc.Check?
  {
    var op, ref := s.calls[t].op, s.calls[t].pc.ref;
    var has := op.user in Members(s, ref);
    match op.kind
    case Present => Finish(s, t, if has then Ok else Err(UserNotInChannel))
    case Join => if has then Finish(s, t, Err(UserAlreadyInChannel)) else Goto(s, t, Change(ref))
    case _ => if has then Goto(s, t, Change(ref)) else Finish(s, t, Err(UserNotInChannel))
  }

  /** A leave that has passed its check on this channel object and has not taken effect yet. */
  ghost predicate PendingLeave(s: State, t: nat, user: nat, ref: nat) {
    && t < |s.calls|
    && s.calls[t].op.kind == Leave && s.calls[t].op.user == user
    && s.calls[t].pc == Change(ref) && s.calls[t].lin == None
  }

  /**
   AddMember or RemoveMember. An eviction that really removes a user whose own leave is past its check
   makes that leave take effect first: the leave will still answer success.
   */
  ghost function AtChange(s: State, t: nat): State
    requires t < |s.calls| && s.calls[t].pc.Change?
  {
    var op, ref := s.calls[t].op, s.calls[t].pc.ref;
    var members := Members(s, ref);
    match op.kind
    case Join =>
      Goto(Linearize(SetMembers(s, ref, members + {op.user}), t, Ok), t, Notify(ref))
    case Evict =>
      var s1 := SetMembers(s, ref, members - {op.user});
      var s2 :=
        if op.user !in members then Linearize(s1, t, Err(UserNotInChannel))
        else if exists w :: PendingLeave(s, w, op.user, ref) then
          var w :| PendingLeave(s, w, op.user, ref);
          Linearize(Linearize(s1, w, Ok), t, Err(UserNotInChannel))
        else Linearize(s1, t, Ok);
      Goto(s2, t, Notify(ref))
    case _ =>
      var s1 := SetMembers(s, ref, members - {op.user});
      Goto(if s.calls[t].lin.None? then Linearize(s1, t, Ok) else s1, t, Notify(ref))
  }

  /** MessageMembers, then return: the event is written to whoever is a member now. */
  function AtNotify(s: State, t: nat): State
    requires t < |s.calls| && s.calls[t].pc.Notify?
  {
    Return(s, t, Ok, Some(Members(s, s.calls[t].pc.ref)))
  }

  ghost function Advance(s: State, t: nat): State
    requires Running(s, t)
  {
    match s.calls[t].pc
    case Lookup => AtLookup(s, t)
    case Check(_) => AtCheck(s, t)
    case Change(_) => AtChange(s, t)
    case Notify(_) => AtNotify(s, t)
  }

  datatype Action = StartCall(op: Op<nat>) | AdvanceCall(t: nat)

  ghost predicate Enabled(s: State, a: Action) {
    match a
    case StartCall(op) => CanStart(s, op)
    case AdvanceCall(t) => Running(s, t)
  }

  ghost function Apply(s: State, a: Action): State
    requires Enabled(s, a)
  {
    match a
    case StartCall(op) => Start(s, op)
    case AdvanceCall(t) => Advance(s, t)
  }

  ghost predicate Next(s: State, s': State) {
    exists a :: Enabled(s, a) && s' == Apply(s, a)
  }

  /** A run from the empty store: any number of calls, interleaved in any way. */
  ghost predicate Run(trace: seq<State>) {
    && |trace| > 0 && trace[0] == INIT
    && forall i | 0 <= i < |trace| - 1 :: Next(trace[i], trace[i + 1])
  }
}
