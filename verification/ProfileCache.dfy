/**
 User profiles: a table of users with a cache in front of it, filled by goroutines of their own, expiring, and
 invalidated by edits. One step per access to the table or the cache; any calls may overlap.
 */
module ProfileCache {
  import opened Collections

  datatype User = User(nick: string, hash: string, description: string)

  /** A row read for the cache. `version` (auxiliary) is how many updates the row had seen when it was read. */
  datatype Row = Row(user: User, version: nat)

  /**
   A cached row. `overlapped` (auxiliary) says that the row was read before the UPDATE of some edit and written
   after that edit's invalidation.
   */
  datatype Entry = Entry(row: Row, overlapped: bool)

  /** A getUserData call. `seen` (auxiliary) is the table's row at the step that produced the result. */
  datatype Lookup =
    | AtCache
    | AtTable
    | Done(found: Option<User>, seen: Option<User>)
    | Failed   // the cache or the table answered with an error

  datatype Reader = Reader(nick: string, at: Lookup)

  datatype State = State(
    table: map<string, User>,
    updates: map<string, nat>,       // auxiliary: how many UPDATEs of each nick have been made
    open: set<(string, nat)>,        // edits that have made their UPDATE and not deleted the cache entry
    cache: map<string, Entry>,
    fills: seq<Option<Row>>,         // setInCache goroutines; None once they have run
    readers: seq<Reader>)

  const INIT := State(map[], map[], {}, map[], [], [])

  function Version(s: State, nick: string): nat {
    if nick in s.updates then s.updates[nick] else 0
  }

  function RowOf(s: State, nick: string): Option<User> {
    if nick in s.table then Some(s.table[nick]) else None
  }

  datatype Action =
    | Insert(user: User)                                  // Create, past its checks
    | Update(nick: string, description: string, ok: bool) // Edit: the UPDATE
    | Invalidate(nick: string, version: nat, ok: bool)    // Edit: the deletion of the cache entry
    | Begin(nick: string)                                 // getUserData is called
    | CacheGet(i: nat, ok: bool)
    | Select(i: nat, ok: bool)
    | Fill(k: nat, ok: bool)
    | Expire(nick: string)

  ghost predicate Enabled(s: State, a: Action) {
    match a
    case Insert(user) => user.nick != ""
    case Update(_, _, _) => true
    case Invalidate(nick, version, _) => (nick, version) in s.open
    case Begin(_) => true
    case CacheGet(i, _) => i < |s.readers| && s.readers[i].at == AtCache
    case Select(i, _) => i < |s.readers| && s.readers[i].at == AtTable
    case Fill(k, _) => k < |s.fills| && s.fills[k].Some?
    case Expire(_) => true
  }

  /** Some edit had made its UPDATE after this row was read, and has deleted the cache entry since. */
  ghost predicate Overtaken(s: State, row: Row) {
    exists v: nat :: row.version < v <= Version(s, row.user.nick) && (row.user.nick, v) !in s.open
  }

  function SetReader(s: State, i: nat, at: Lookup): State
    requires i < |s.readers|
  {
    s.(readers := s.readers[i := s.readers[i].(at := at)])
  }

  ghost function Apply(s: State, a: Action): State
    requires Enabled(s, a)
  {
    match a
    case Insert(user) =>
      if user.nick in s.table then s else s.(table := s.table[user.nick := user])
    case Update(nick, description, ok) =>
      if !ok then s
      else
        var v := Version(s, nick) + 1;
        s.(table := if nick in s.table then s.table[nick := s.table[nick].(description := description)] else s.table,
           updates := s.updates[nick := v],
           open := s.open + {(nick, v)})
    case Invalidate(nick, version, ok) =>
      if ok then s.(cache := s.cache - {nick}, open := s.open - {(nick, version)}) else s
    case Begin(nick) => s.(readers := s.readers + [Reader(nick, AtCache)])
    case CacheGet(i, ok) =>
      var nick := s.readers[i].nick;
      SetReader(s, i,
        if !ok then Failed
        else if nick in s.cache then Done(Some(s.cache[nick].row.user), RowOf(s, nick))
        else AtTable)
    case Select(i, ok) =>
      var nick := s.readers[i].nick;
      if !ok then SetReader(s, i, Failed)
      else
      var s1 := SetReader(s, i, Done(RowOf(s, nick), RowOf(s, nick)));
      if nick in s.table then s1.(fills := s.fills + [Some(Row(s.table[nick], Version(s, nick)))]) else s1
    case Fill(k, ok) =>
      var row := s.fills[k].value;
      var s1 := s.(fills := s.fills[k := None]);
      if ok then s1.(cache := s.cache[row.user.nick := Entry(row, Overtaken(s, row))]) else s1
    case Expire(nick) => s.(cache := s.cache - {nick})
  }

  ghost predicate Next(s: State, s': State) {
    exists a :: Enabled(s, a) && s' == Apply(s, a)
  }

  ghost predicate Run(trace: seq<State>) {
    && |trace| > 0 && trace[0] == INIT
    && forall i | 0 <= i < |trace| - 1 :: Next(trace[i], trace[i + 1])
  }
}
