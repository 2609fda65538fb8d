/** The weight of the work the chat still has to do, and the limits it is measured by. */
module DrainCosts {
  import opened Collections
  import opened ChatSystem
  import Store = StoreMachine

  /** How many handlers, connections and channels there can be while no input arrives. */
  datatype Limits = Limits(handlers: nat, conns: nat, channels: nat)

  predicate Internal(a: Action) {
    !a.DoConnect? && !a.DoReceive? && !a.DoClose?
  }

  // ---- Costs ----

  function WriteCost(lim: Limits): nat { 1 + lim.conns }

  /** A broadcast: one write for each handler. */
  function FanCost(lim: Limits): nat { 1 + Copies(lim.handlers, WriteCost(lim)) }

  function TaskCost(task: Task, lim: Limits): nat {
    match task
    case Deliver(_, _) => FanCost(lim)
    case Write(_, _) => WriteCost(lim)
    case WriteSocket(_, _) => 1
    case _ => 0
  }

  function CallCost(pc: Store.Pc, lim: Limits): nat {
    match pc
    case Lookup => FanCost(lim) + 3
    case Check(_) => FanCost(lim) + 2
    case Change(_) => FanCost(lim) + 1
    case Notify(_) => FanCost(lim)
    case Done(_) => 0
  }

  function ActorCost(actor: Actor, lim: Limits): nat {
    match actor
    case Idle => 0
    case Crashed => 0
    case Making(_, _, _) => FanCost(lim) + 6
    case Joining(_, _, _) => 2
    case Leaving(_, _, _) => 2 + WriteCost(lim)
    case Checking(_, _, _, _) => FanCost(lim) + 4
    case Finding(_, _, _) => FanCost(lim) + 3
    case Indexing(_, _, _, _) => FanCost(lim) + 2
    case Replying(_, _) => 1
  }

  function SendCost(lim: Limits): nat { 2 * FanCost(lim) + WriteCost(lim) + 16 }

  function ShutCost(lim: Limits): nat { 1 + Copies(lim.channels, FanCost(lim) + 3) }

  function SessionCost(session: Session, lim: Limits): nat {
    match session
    case Calling(_, _, _) => SendCost(lim) + ShutCost(lim)
    case Sending(_, _, _) => SendCost(lim)
    case Closing(_) => ShutCost(lim)
    case _ => 0
  }

  function TaskCosts(tasks: seq<Task>, lim: Limits): seq<nat> {
    seq(|tasks|, i requires 0 <= i < |tasks| => TaskCost(tasks[i], lim))
  }

  function CallCosts(calls: seq<Store.Call>, lim: Limits): seq<nat> {
    seq(|calls|, i requires 0 <= i < |calls| => CallCost(calls[i].pc, lim))
  }

  function ActorCosts(hs: seq<Handler>, lim: Limits): seq<nat> {
    seq(|hs|, i requires 0 <= i < |hs| => ActorCost(hs[i].actor, lim))
  }

  function SessionCosts(sessions: seq<Session>, lim: Limits): seq<nat> {
    seq(|sessions|, i requires 0 <= i < |sessions| => SessionCost(sessions[i], lim))
  }

  /** An upper bound on the steps the chat can still take by itself. */
  function Weight(s: State, lim: Limits): nat {
    Sum(TaskCosts(s.tasks, lim)) + Sum(CallCosts(s.store.calls, lim))
    + Sum(ActorCosts(s.hs, lim)) + Sum(SessionCosts(s.sessions, lim))
  }

  // ---- Limits ----

  function Asking(session: Session): nat { if session.Calling? || session.Sending? then 1 else 0 }

  function Creating(actor: Actor): nat { if actor.Making? then 1 else 0 }

  function Askings(sessions: seq<Session>): seq<nat> {
    seq(|sessions|, i requires 0 <= i < |sessions| => Asking(sessions[i]))
  }

  function Creatings(hs: seq<Handler>): seq<nat> {
    seq(|hs|, i requires 0 <= i < |hs| => Creating(hs[i].actor))
  }

  /** Channels there are, and creations that are still possible without new input. */
  function Potential(s: State): nat {
    |s.store.names| + Sum(Askings(s.sessions)) + Sum(Creatings(s.hs))
  }

  function LimitsOf(s: State): Limits {
    Limits(|s.hs|, |s.sessions|, Potential(s))
  }

  predicate Within(s: State, lim: Limits) {
    |s.hs| <= lim.handlers && |s.sessions| <= lim.conns && Potential(s) <= lim.channels
  }
}
