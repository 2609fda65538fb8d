/** The pool of connected users as an object: which handler stands for which nick, and through which connections. */
module UserPool {
  import opened Collections
  import opened StoreSpec
  import opened Sockchat

  /** The connections each nick is reached through; a nick without connections is not there. */
  type Live = map<string, set<SockChatWS>>

  function Of(live: Live, nick: string): set<SockChatWS> {
    if nick in live then live[nick] else {}
  }

  function Attached(live: Live, conn: SockChatWS, nick: string): Live {
    live[nick := Of(live, nick) + {conn}]
  }

  /** The last connection takes the nick with it, whatever connection is named. */
  function Detached(live: Live, conn: SockChatWS, nick: string): Live {
    if nick !in live then live
    else if |live[nick]| > 1 then live[nick := live[nick] - {conn}]
    else live - {nick}
  }

  class ConnectedUsersPool {
    var handlers: map<string, UserHandler>
    var connections: map<SockChatWS, string>
    const channelStore: ChannelStore
    ghost var live: Live                // the connection sets of the handlers
    ghost var owned: set<UserHandler>

    /** Handlers are listed under their own nick, and each of their connections is on record under that nick. */
    ghost predicate Linked()
      reads this, owned
    {
      && live.Keys == handlers.Keys
      && forall n {:trigger Stands(n)} | n in handlers :: handlers[n] in owned && Stands(n)
    }

    ghost predicate Stands(nick: string)
      requires nick in handlers && nick in live
      reads this, handlers[nick]
    {
      var h := handlers[nick];
      && h.nick == nick && h.channelStore == channelStore && h.connections == live[nick]
      && forall c | c in live[nick] :: c in connections && connections[c] == nick
    }

    /** Every handler but, maybe, the one of `nick` has a connection. */
    ghost predicate LinkedBut(nick: string)
      reads this, owned
    {
      Linked() && forall n | n in live && n != nick :: live[n] != {}
    }

    /** Between calls every handler has a connection. */
    ghost predicate Valid()
      reads this, owned
    {
      Linked() && forall n | n in live :: live[n] != {}
    }

    constructor (store: ChannelStore)
      ensures Valid() && live == map[] && handlers == map[] && connections == map[] && channelStore == store
    {
      handlers, connections, channelStore, live, owned := map[], map[], store, map[], {};
    }

    method GetHandler(nick: string) returns (handler: Option<UserHandler>)
      requires Valid()
      ensures handler.Some? <==> nick in live
      ensures handler.Some? ==>
                && nick in handlers && handler.value == handlers[nick] && handler.value in owned
                && handler.value.channelStore == channelStore && handler.value.connections == live[nick] != {}
    {
      assert nick in handlers ==> Stands(nick);
      handler := if nick in handlers then Some(handlers[nick]) else None;
    }

    method AddHandler(nick: string) returns (handler: UserHandler)
      requires Valid() && nick !in handlers
      modifies this`handlers, this`live, this`owned
      ensures LinkedBut(nick) && fresh(handler) && owned == old(owned) + {handler}
      ensures handlers == old(handlers)[nick := handler] && live == old(live)[nick := {}]
    {
      handler := new UserHandler(nick, channelStore);
      handlers, live, owned := handlers[nick := handler], live[nick := {}], owned + {handler};
      forall n | n in handlers ensures handlers[n] in owned && Stands(n) {
        if n != nick { assert old(Stands(n)); }
      }
    }

    /** AddConnection, once the handler is there. */
    method Register(conn: SockChatWS, nick: string, handler: UserHandler)
      requires LinkedBut(nick) && nick in handlers && handlers[nick] == handler
      requires forall n | n in live && conn in live[n] :: n == nick
      modifies this`connections, this`live, handler
      ensures Valid() && live == Attached(old(live), conn, nick)
      ensures connections == old(connections)[conn := nick]
    {
      forall n | n in handlers && n != nick ensures handlers[n] != handler { assert Stands(n) && Stands(nick); }
      assert Stands(nick);
      handler.AddConnection(conn);
      connections, live := connections[conn := nick], live[nick := live[nick] + {conn}];
      forall n | n in handlers ensures handlers[n] in owned && Stands(n) {
        assert old(Stands(n));
        if n != nick { assert conn !in live[n]; }
      }
    }

    /**
     A connection is added under one nick only. The handlers there are stay; a nick's first connection makes a new
     one.
     */
    method AddConnection(conn: SockChatWS, nick: string)
      requires Valid()
      requires forall n | n in live && conn in live[n] :: n == nick
      modifies this, owned
      ensures Valid() && live == Attached(old(live), conn, nick)
      ensures connections == old(connections)[conn := nick]
      ensures nick in old(handlers) ==> handlers == old(handlers)
      ensures nick !in old(handlers) ==>
                nick in handlers && fresh(handlers[nick]) && handlers == old(handlers)[nick := handlers[nick]]
      ensures fresh(owned - old(owned))
    {
      var found := GetHandler(nick);
      if found.Some? {
        Register(conn, nick, found.value);
      } else {
        var handler := AddHandler(nick);
        assert Attached(live, conn, nick) == Attached(old(live), conn, nick);
        Register(conn, nick, handler);
      }
    }

    function NickOf(conn: SockChatWS): string
      reads this
    {
      if conn in connections then connections[conn] else ""
    }

    ghost predicate IsLast(conn: SockChatWS)
      reads this
    {
      NickOf(conn) in live && |live[NickOf(conn)]| <= 1
    }

    /** Dropping a handler spawns its removal from every channel; nothing else is spawned. */
    method RemoveConnection(conn: SockChatWS) returns (spawned: seq<Goroutine>)
      requires Valid()
      modifies this, owned
      ensures Valid() && live == Detached(old(live), conn, old(NickOf(conn)))
      ensures owned == old(owned)
      ensures old(!IsLast(conn)) ==> handlers == old(handlers) && spawned == []
      ensures old(IsLast(conn)) ==> handlers == old(handlers) - {old(NickOf(conn))}
      ensures old(IsLast(conn)) ==>
                Enumerates(spawned, RemovalsFrom(channelStore.channels.Keys, old(handlers[NickOf(conn)])))
    {
      spawned := [];
      var nick := NickOf(conn);
      var handler := GetHandler(nick);
      if handler.None? { return; }
      var count := handler.value.GetActiveConnectionsCount();
      if count > 1 {
        ReduceHandler(conn, nick, handler.value);
      } else {
        spawned := DropHandler(conn, nick, handler.value);
      }
    }

    /** RemoveConnection, the branch of a handler with other connections. */
    method ReduceHandler(conn: SockChatWS, nick: string, handler: UserHandler)
      requires Valid() && nick in handlers && handlers[nick] == handler && |live[nick]| > 1
      modifies this`live, handler
      ensures Valid() && live == Detached(old(live), conn, nick)
    {
      RemainsAfter(live[nick], conn);
      forall n | n in handlers && n != nick ensures handlers[n] != handler { assert Stands(n) && Stands(nick); }
      assert Stands(nick);
      handler.RemoveConnection(conn);
      live := live[nick := live[nick] - {conn}];
      forall n | n in handlers ensures handlers[n] in owned && Stands(n) { assert old(Stands(n)); }
    }

    /** RemoveConnection, the branch of a handler with no other connection. */
    method DropHandler(conn: SockChatWS, nick: string, handler: UserHandler) returns (spawned: seq<Goroutine>)
      requires Valid() && nick in handlers && handlers[nick] == handler && |live[nick]| <= 1 && nick == NickOf(conn)
      modifies this`handlers, this`connections, this`live
      ensures Valid() && live == Detached(old(live), conn, nick) && handlers == old(handlers) - {nick}
      ensures Enumerates(spawned, RemovalsFrom(channelStore.channels.Keys, handler))
    {
      handlers, connections, live := handlers - {nick}, connections - {conn}, live - {nick};
      forall n | n in handlers ensures handlers[n] in owned && Stands(n) { assert old(Stands(n)); }
      spawned := channelStore.DisconnectUser(handler);
    }
  }

  lemma RemainsAfter(conns: set<SockChatWS>, conn: SockChatWS)
    requires |conns| > 1
    ensures conns - {conn} != {}
  {
    if conns - {conn} == {} {
      SubsetSize(conns, {conn});
    }
  }

  // ---- What the two operations mean together ----

  /** Leaving the pool undoes entering it, whoever else is connected. */
  lemma DetachUndoesAttach(live: Live, conn: SockChatWS, nick: string)
    requires forall n | n in live :: live[n] != {} && conn !in live[n]
    ensures Detached(Attached(live, conn, nick), conn, nick) == live
  {
    var after := Attached(live, conn, nick);
    if nick in live {
      assert after[nick] - {conn} == live[nick];
      assert |after[nick]| == |live[nick]| + 1;
    } else {
      assert after[nick] == {conn};
      assert after - {nick} == live;
    }
  }

  datatype PoolOp = Enter(conn: SockChatWS, nick: string) | Exit(conn: SockChatWS, nick: string)

  function Applied(ops: seq<PoolOp>): Live {
    if ops == [] then map[] else
      var live := Applied(ops[..|ops| - 1]);
      match ops[|ops| - 1]
      case Enter(conn, nick) => Attached(live, conn, nick)
      case Exit(conn, nick) => Detached(live, conn, nick)
  }

  /** The connections that entered under this nick and have not left. */
  function Present(ops: seq<PoolOp>, nick: string): set<SockChatWS> {
    if ops == [] then {} else
      var before := Present(ops[..|ops| - 1], nick);
      match ops[|ops| - 1]
      case Enter(conn, n) => if n == nick then before + {conn} else before
      case Exit(conn, n) => if n == nick then before - {conn} else before
  }

  /** What sessions do: leave only what they entered, and as the nick they entered as. */
  ghost predicate Disciplined(ops: seq<PoolOp>) {
    forall k | 0 <= k < |ops| && ops[k].Exit? :: ops[k].conn in Present(ops[..k], ops[k].nick)
  }

  /** After any such sequence of operations a nick is in the pool iff it has a connection, and these are all it has. */
  lemma {:induction false} PoolCountsConnections(ops: seq<PoolOp>)
    requires Disciplined(ops)
    ensures forall n :: n in Applied(ops) <==> Present(ops, n) != {}
    ensures forall n | n in Applied(ops) :: Applied(ops)[n] == Present(ops, n)
  {
    if ops != [] {
      var k := |ops| - 1;
      forall j | 0 <= j < k && ops[..k][j].Exit? ensures ops[..k][j].conn in Present(ops[..k][..j], ops[..k][j].nick) {
        assert ops[..k][..j] == ops[..j];
      }
      PoolCountsConnections(ops[..k]);
      if ops[k].Exit? {
        OneLess(Present(ops[..k], ops[k].nick), ops[k].conn);
      }
    }
  }

  lemma OneLess(conns: set<SockChatWS>, conn: SockChatWS)
    requires conn in conns
    ensures |conns - {conn}| == |conns| - 1
    ensures conns - {conn} == {} <==> |conns| <= 1
  {
  }

  // ---- Removal goroutines ----

  function EvictAll<H(==)>(r: Relation<H>, order: seq<string>, user: H): Relation<H> {
    if order == [] then r else
      After(EvictAll(r, order[..|order| - 1], user), Op(Evict, order[|order| - 1], user))
  }

  lemma EvictOne<H>(r: Relation<H>, name: string, user: H)
    requires "" !in r
    ensures var after := After(r, Op(Evict, name, user));
      && after.Keys == r.Keys
      && forall n | n in r :: after[n] == if n == name then r[n] - {user} else r[n]
  {
  }

  /** In whatever order the removals run, the user ends up in no channel and nobody else's membership changes. */
  lemma {:induction false} EvictionsClear<H>(r: Relation<H>, order: seq<string>, user: H)
    requires "" !in r
    ensures var after := EvictAll(r, order, user);
      && after.Keys == r.Keys
      && forall n | n in r :: after[n] == if n in order then r[n] - {user} else r[n]
  {
    if order != [] {
      var k := |order| - 1;
      EvictionsClear(r, order[..k], user);
      EvictOne(EvictAll(r, order[..k], user), order[k], user);
      assert order == order[..k] + [order[k]];
    }
  }
}
