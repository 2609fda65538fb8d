/**
 The pool of connected users with AddConnection and RemoveConnection taken apart: they release the lock between
 looking and changing. ChatSystem takes each of them as one step; here is what that assumption stands for.
 */
module FinePool {
  import opened Collections

  /** One thread per session; its number is its connection's. */
  datatype Thread =
    | AddLook(nick: string)             // AddConnection: about to call GetHandler
    | AddMake(nick: string)             // found none: about to call addHandler
    | AddJoin(nick: string, h: nat)     // about to add the connection to handler h
    | AddNote(nick: string, h: nat)     // about to record the connection's nick
    | Serving(nick: string)             // AddConnection has returned
    | RemNick(nick: string)             // RemoveConnection: about to read the connection's nick
    | RemLook(nick: string)             // about to call GetHandler
    | RemCount(nick: string, h: nat)    // about to count h's connections
    | RemLeave(nick: string, h: nat)    // counted several: about to take the connection from h
    | RemDrop(nick: string)             // counted at most one: about to drop the nick's handler
    | Gone

  datatype Handler = Handler(nick: string, conns: set<nat>)

  datatype State = State(
    handlers: map<string, nat>, hs: seq<Handler>, connNick: map<nat, string>, threads: seq<Thread>)

  const INIT := State(map[], [], map[], [])

  datatype Action = Login(nick: string) | Leave(c: nat) | Step(c: nat)

  predicate Enabled(s: State, a: Action) {
    match a
    case Login(nick) => nick != ""
    case Leave(c) => c < |s.threads| && s.threads[c].Serving?
    case Step(c) =>
      && c < |s.threads| && Busy(s.threads[c])
      && (HandlerOf(s.threads[c]).Some? ==> HandlerOf(s.threads[c]).value < |s.hs|)
  }

  /** Inside AddConnection or RemoveConnection. */
  predicate Busy(t: Thread) {
    !t.Serving? && !t.Gone?
  }

  predicate BusyAt(s: State, c: nat) {
    c < |s.threads| && Busy(s.threads[c])
  }

  function HandlerOf(t: Thread): Option<nat> {
    match t
    case AddJoin(_, h) => Some(h)
    case AddNote(_, h) => Some(h)
    case RemCount(_, h) => Some(h)
    case RemLeave(_, h) => Some(h)
    case _ => None
  }

  function Goto(s: State, c: nat, t: Thread): State
    requires c < |s.threads|
  {
    s.(threads := s.threads[c := t])
  }

  function SetConns(s: State, h: nat, conns: set<nat>): State
    requires h < |s.hs|
  {
    s.(hs := s.hs[h := s.hs[h].(conns := conns)])
  }

  function Apply(s: State, a: Action): State
    requires Enabled(s, a)
  {
    match a
    case Login(nick) => s.(threads := s.threads + [AddLook(nick)])
    case Leave(c) => Goto(s, c, RemNick(s.threads[c].nick))
    case Step(c) =>
      match s.threads[c]
      case AddLook(n) => Goto(s, c, if n in s.handlers then AddJoin(n, s.handlers[n]) else AddMake(n))
      case AddMake(n) =>
        Goto(s.(handlers := s.handlers[n := |s.hs|], hs := s.hs + [Handler(n, {})]), c, AddJoin(n, |s.hs|))
      case AddJoin(n, h) => Goto(SetConns(s, h, s.hs[h].conns + {c}), c, AddNote(n, h))
      case AddNote(n, h) => Goto(s.(connNick := s.connNick[c := n]), c, Serving(n))
      case RemNick(_) => Goto(s, c, RemLook(if c in s.connNick then s.connNick[c] else ""))
      case RemLook(n) => Goto(s, c, if n in s.handlers then RemCount(n, s.handlers[n]) else Gone)
      case RemCount(n, h) => Goto(s, c, if |s.hs[h].conns| > 1 then RemLeave(n, h) else RemDrop(n))
      case RemLeave(n, h) => Goto(SetConns(s, h, s.hs[h].conns - {c}), c, Gone)
      case RemDrop(n) => Goto(s.(handlers := s.handlers - {n}, connNick := s.connNick - {c}), c, Gone)
  }

  ghost predicate Next(s: State, s': State) {
    exists a :: Enabled(s, a) && s' == Apply(s, a)
  }

  // ---- What a sound pool is ----

  predicate ServingAs(s: State, c: nat, nick: string) {
    c < |s.threads| && s.threads[c] == Serving(nick)
  }

  /** A session being served is found through its nick. */
  ghost predicate AllFound(s: State) {
    forall c, n | ServingAs(s, c, n) :: n in s.handlers && s.handlers[n] < |s.hs| && c in s.hs[s.handlers[n]].conns
  }

  /** This session keeps the handler `h` of `nick` in use: it is still on its way in, served, or not yet out. */
  predicate Uses(s: State, c: nat, nick: string, h: nat) {
    c < |s.threads| &&
    match s.threads[c]
    case AddJoin(n, h') => n == nick && h' == h
    case AddNote(n, h') => n == nick && h' == h
    case Serving(n) => n == nick
    case RemNick(n) => n == nick
    case RemLook(n) => n == nick
    case RemCount(n, h') => n == nick && h' == h
    case RemLeave(n, h') => n == nick && h' == h
    case RemDrop(n) => n == nick
    case _ => false
  }

  /** No handler is left in the pool for sessions that are gone. */
  ghost predicate NoOrphans(s: State) {
    forall n | n in s.handlers :: exists c :: Uses(s, c, n, s.handlers[n])
  }

  ghost predicate Exact(s: State) {
    AllFound(s) && NoOrphans(s)
  }

  /** The one thing a step must still find to be true of what it looked up some steps ago. */
  ghost predicate Harmless(s: State, a: Action)
    requires Enabled(s, a)
  {
    a.Step? ==>
      match s.threads[a.c]
      // nobody else has brought the nick in
      case AddMake(n) => forall d :: !ServingAs(s, d, n)
      // the handler is still the one in the pool
      case AddNote(n, h) => n in s.handlers && s.handlers[n] == h
      // no other session has come to use the handler
      case RemDrop(n) => forall d :: !ServingAs(s, d, n)
      // another session still uses the handler
      case RemLeave(n, h) =>
        n in s.handlers && s.handlers[n] == h ==> exists d :: d != a.c && Uses(s, d, n, h)
      case _ => true
  }
}
