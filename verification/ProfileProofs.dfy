/** What the profile cache guarantees in every interleaving, and what it does not. */
module ProfileProofs {
  import opened Collections
  import opened ProfileCache

  // ---- The invariant ----

  /** A row read at some time belongs to an existing user, has that user's hash, and is current if its version is. */
  ghost predicate RowOk(s: State, row: Row) {
    var n := row.user.nick;
    && n in s.table && row.user.hash == s.table[n].hash
    && row.version <= Version(s, n)
    && (row.version == Version(s, n) ==> row.user == s.table[n])
  }

  ghost predicate EntryOk(s: State, n: string)
    requires n in s.cache
  {
    var e := s.cache[n];
    && e.row.user.nick == n && RowOk(s, e.row)
    && (forall v: nat | e.row.version < v <= Version(s, n) :: (n, v) in s.open || e.overlapped)
    && (e.overlapped ==> Overtaken(s, e.row))
  }

  ghost predicate ReaderOk(s: State, i: nat)
    requires i < |s.readers|
  {
    var r := s.readers[i];
    r.at.Done? ==>
      && (r.at.found.Some? <==> r.at.seen.Some?)
      && (r.at.found.Some? ==>
            && r.nick in s.table && r.at.found.value.nick == r.nick && r.at.seen.value.nick == r.nick
            && r.at.found.value.hash == r.at.seen.value.hash == s.table[r.nick].hash)
  }

  ghost predicate Inv(s: State) {
    && (forall n | n in s.table :: s.table[n].nick == n)
    && (forall e | e in s.open :: 1 <= e.1 <= Version(s, e.0))
    && (forall n | n in s.cache :: EntryOk(s, n))
    && (forall k | 0 <= k < |s.fills| && s.fills[k].Some? :: RowOk(s, s.fills[k].value))
    && (forall i | 0 <= i < |s.readers| :: ReaderOk(s, i))
  }

  lemma ApplyKeeps(s: State, a: Action)
    requires Inv(s) && Enabled(s, a)
    ensures Inv(Apply(s, a))
  {
    BooksKept(s, a);
    forall n | n in Apply(s, a).cache ensures EntryOk(Apply(s, a), n) { EntriesKept(s, a, n); }
    forall i | 0 <= i < |Apply(s, a).readers| ensures ReaderOk(Apply(s, a), i) { ReaderKept(s, a, i); }
    forall k | 0 <= k < |Apply(s, a).fills| && Apply(s, a).fills[k].Some?
      ensures RowOk(Apply(s, a), Apply(s, a).fills[k].value)
    {
      FillKept(s, a, k);
    }
  }

  lemma BooksKept(s: State, a: Action)
    requires Inv(s) && Enabled(s, a)
    ensures forall n | n in Apply(s, a).table :: Apply(s, a).table[n].nick == n
    ensures forall e | e in Apply(s, a).open :: 1 <= e.1 <= Version(Apply(s, a), e.0)
  {
  }

  lemma ReaderKept(s: State, a: Action, i: nat)
    requires Inv(s) && Enabled(s, a) && i < |Apply(s, a).readers|
    ensures ReaderOk(Apply(s, a), i)
  {
    if a.CacheGet? && i == a.i {
      ReaderAnswered(s, i, a.ok);
    } else if i < |s.readers| && !(a.Select? && i == a.i) {
      assert Apply(s, a).readers[i] == s.readers[i] && ReaderOk(s, i);
      if s.readers[i].at.Done? && s.readers[i].at.found.Some? { HashesStay(s, a, s.readers[i].nick); }
    }
  }

  lemma ReaderAnswered(s: State, i: nat, ok: bool)
    requires Inv(s) && Enabled(s, CacheGet(i, ok))
    ensures ReaderOk(Apply(s, CacheGet(i, ok)), i)
  {
    if s.readers[i].nick in s.cache { assert EntryOk(s, s.readers[i].nick); }
  }

  /** Users stay, and no step changes a hash. */
  lemma HashesStay(s: State, a: Action, n: string)
    requires Enabled(s, a) && n in s.table
    ensures n in Apply(s, a).table && Apply(s, a).table[n].hash == s.table[n].hash
  {
  }

  lemma FillKept(s: State, a: Action, k: nat)
    requires Inv(s) && Enabled(s, a) && k < |Apply(s, a).fills| && Apply(s, a).fills[k].Some?
    ensures RowOk(Apply(s, a), Apply(s, a).fills[k].value)
  {
    if k < |s.fills| {
      assert Apply(s, a).fills[k] == s.fills[k];
      RowKept(s, a, s.fills[k].value);
    }
  }

  lemma EntriesKept(s: State, a: Action, n: string)
    requires Inv(s) && Enabled(s, a) && n in Apply(s, a).cache
    ensures EntryOk(Apply(s, a), n)
  {
    if a.Fill? && a.ok && s.fills[a.k].value.user.nick == n {
      FilledEntry(s, a.k);
    } else {
      StandingEntry(s, a, n);
    }
  }

  lemma FilledEntry(s: State, k: nat)
    requires Inv(s) && Enabled(s, Fill(k, true))
    ensures EntryOk(Apply(s, Fill(k, true)), s.fills[k].value.user.nick)
  {
    var s', row := Apply(s, Fill(k, true)), s.fills[k].value;
    assert RowOk(s, row);
    assert s'.open == s.open && s'.updates == s.updates && s'.table == s.table;
    assert Overtaken(s, row) <==> Overtaken(s', row);
    forall v: nat | row.version < v <= Version(s', row.user.nick) && (row.user.nick, v) !in s'.open
      ensures Overtaken(s, row) { }
  }

  lemma StandingEntry(s: State, a: Action, n: string)
    requires Inv(s) && Enabled(s, a) && n in Apply(s, a).cache
    requires !(a.Fill? && a.ok && s.fills[a.k].value.user.nick == n)
    ensures EntryOk(Apply(s, a), n)
  {
    var s' := Apply(s, a);
    assert n in s.cache && s'.cache[n] == s.cache[n];
    assert EntryOk(s, n);
    var e := s.cache[n];
    RowKept(s, a, e.row);
    if e.overlapped { OvertakenStays(s, a, e.row); }
    OpenUntilDeleted(s, a, n);
  }

  /** While the entry of `n` stands, an open edit of `n` stays open and a new one opens. */
  lemma OpenUntilDeleted(s: State, a: Action, n: string)
    requires Inv(s) && Enabled(s, a) && n in Apply(s, a).cache
    requires !(a.Fill? && a.ok && s.fills[a.k].value.user.nick == n)
    ensures forall v: nat :: (n, v) in s.open ==> (n, v) in Apply(s, a).open
    ensures forall v: nat | Version(s, n) < v <= Version(Apply(s, a), n) :: (n, v) in Apply(s, a).open
  {
  }

  /** A row stays sound: hashes never change, and an update makes an older version of it. */
  lemma RowKept(s: State, a: Action, row: Row)
    requires Inv(s) && Enabled(s, a) && RowOk(s, row)
    ensures RowOk(Apply(s, a), row)
  {
  }

  lemma OvertakenStays(s: State, a: Action, row: Row)
    requires Inv(s) && Enabled(s, a) && Overtaken(s, row)
    ensures Overtaken(Apply(s, a), row)
  {
    var v: nat :| row.version < v <= Version(s, row.user.nick) && (row.user.nick, v) !in s.open;
    assert (row.user.nick, v) !in Apply(s, a).open;
  }

  lemma {:induction false} RunKeeps(trace: seq<State>)
    requires Run(trace)
    ensures Inv(trace[|trace| - 1])
  {
    var n := |trace| - 1;
    if n > 0 {
      RunKeeps(trace[..n]);
      assert Next(trace[n - 1], trace[n]);
      var a :| Enabled(trace[n - 1], a) && trace[n] == Apply(trace[n - 1], a);
      ApplyKeeps(trace[n - 1], a);
    }
  }

  // ---- Authentication ----

  /** IsAuthValid on what getUserData returned; `compare` is bcrypt's. */
  predicate Authenticates(compare: (string, string) -> bool, found: Option<User>, nick: string, password: string) {
    nick != "" && password != "" && found.Some? && compare(found.value.hash, password)
  }

  /**
   In every interleaving a login is decided as the table would decide it: at the step the user was read, and, once
   the user was found, at every later step too.
   */
  lemma AuthAgreesWithTable(trace: seq<State>, i: nat, compare: (string, string) -> bool, password: string)
    requires Run(trace)
    requires var s := trace[|trace| - 1]; i < |s.readers| && s.readers[i].at.Done?
    ensures var s := trace[|trace| - 1];
      var Reader(nick, Done(found, seen)) := s.readers[i];
      && (found.Some? <==> seen.Some?)
      && (found.None? ==> !Authenticates(compare, found, nick, password))
      && (found.Some? ==>
            && nick in s.table
            && (Authenticates(compare, found, nick, password) <==>
                nick != "" && password != "" && compare(s.table[nick].hash, password)))
  {
    RunKeeps(trace);
    assert ReaderOk(trace[|trace| - 1], i);
  }

  /** The step at which a lookup is answered finds the user exactly if the table has one, and the password it has. */
  lemma LookupSeesTable(trace: seq<State>, a: Action, i: nat)
    requires Run(trace) && Enabled(trace[|trace| - 1], a)
    requires var s, s' := trace[|trace| - 1], Apply(trace[|trace| - 1], a);
      i < |s'.readers| && s'.readers[i].at.Done? && !(i < |s.readers| && s.readers[i].at.Done?)
    ensures var s, s' := trace[|trace| - 1], Apply(trace[|trace| - 1], a);
      var Reader(nick, Done(found, _)) := s'.readers[i];
      && (found.Some? <==> nick in s.table)
      && (found.Some? ==> found.value.nick == nick && found.value.hash == s.table[nick].hash)
  {
    RunKeeps(trace);
    var s := trace[|trace| - 1];
    var nick := s.readers[i].nick;
    assert nick in s.cache ==> EntryOk(s, nick);
  }

  /** Every cached or pending row is keyed by its own nick and carries an existing user's current hash. */
  lemma CachedHashesAreCurrent(trace: seq<State>)
    requires Run(trace)
    ensures var s := trace[|trace| - 1];
      && (forall n | n in s.cache ::
            s.cache[n].row.user.nick == n && n in s.table && s.cache[n].row.user.hash == s.table[n].hash)
      && (forall k | 0 <= k < |s.fills| && s.fills[k].Some? ::
            var u := s.fills[k].value.user; u.nick in s.table && u.hash == s.table[u.nick].hash)
  {
    RunKeeps(trace);
    var s := trace[|trace| - 1];
    forall n | n in s.cache
      ensures s.cache[n].row.user.nick == n && n in s.table && s.cache[n].row.user.hash == s.table[n].hash
    {
      assert EntryOk(s, n);
    }
  }

  // ---- Descriptions ----

  /** No edit of this nick is between its UPDATE and its invalidation. */
  ghost predicate NoOpenEdit(s: State, nick: string) {
    forall v: nat :: (nick, v) !in s.open
  }

  /** Between edits a cached profile is current exactly when its fill overlapped no edit, and then it is the table's. */
  lemma CacheIsFresh(trace: seq<State>, nick: string)
    requires Run(trace)
    requires var s := trace[|trace| - 1]; nick in s.cache && NoOpenEdit(s, nick)
    ensures var s := trace[|trace| - 1];
      && (s.cache[nick].row.version == Version(s, nick) <==> !s.cache[nick].overlapped)
      && (!s.cache[nick].overlapped ==> nick in s.table && s.cache[nick].row.user == s.table[nick])
  {
    RunKeeps(trace);
    var s := trace[|trace| - 1];
    assert EntryOk(s, nick);
    if s.cache[nick].row.version < Version(s, nick) {
      assert (nick, Version(s, nick)) !in s.open;
    }
  }

  // ---- Reads after an edit ----

  /** What is cached of this nick, or on its way to the cache, is the table's row. */
  ghost predicate Fresh(s: State, nick: string)
    requires nick in s.table
  {
    && (nick in s.cache ==> s.cache[nick].row.user == s.table[nick])
    && PendingFresh(s, nick, s.table[nick])
  }

  ghost predicate PendingFresh(s: State, nick: string, user: User) {
    forall k | 0 <= k < |s.fills| && s.fills[k].Some? && s.fills[k].value.user.nick == nick ::
        s.fills[k].value.user == user
  }

  ghost predicate NextWithoutUpdate(s: State, s': State, nick: string) {
    exists a :: Enabled(s, a) && !(a.Update? && a.nick == nick) && s' == Apply(s, a)
  }

  /** Any number of steps, whatever they are, among which there is no UPDATE of this nick. */
  ghost predicate Stretch(trace: seq<State>, nick: string) {
    |trace| > 0 && forall j | 0 <= j < |trace| - 1 :: NextWithoutUpdate(trace[j], trace[j + 1], nick)
  }

  /** Every lookup of this nick that began after `first` readers and has been answered has found `user`. */
  ghost predicate ReadersSee(s: State, nick: string, first: nat, user: User) {
    forall i | first <= i < |s.readers| && s.readers[i].nick == nick && s.readers[i].at.Done? ::
      s.readers[i].at.found == Some(user)
  }

  /**
   From this state on and until the next UPDATE of the nick, every new lookup that is answered finds the table's row.
   */
  ghost predicate AlwaysSeesTable(s: State, nick: string)
    requires nick in s.table
  {
    forall trace: seq<State> | Stretch(trace, nick) && trace[0] == s ::
      ReadersSee(trace[|trace| - 1], nick, |s.readers|, s.table[nick])
  }

  /** Nothing but the table's row can come to the cache or to a new lookup. */
  ghost predicate Steady(s: State, nick: string, first: nat, user: User) {
    && nick in s.table && s.table[nick] == user && Fresh(s, nick)
    && first <= |s.readers| && ReadersSee(s, nick, first, user)
  }

  lemma TableStays(s: State, a: Action, nick: string)
    requires Enabled(s, a) && nick in s.table && !(a.Update? && a.nick == nick)
    ensures nick in Apply(s, a).table && Apply(s, a).table[nick] == s.table[nick]
    ensures |s.readers| <= |Apply(s, a).readers|
  {
  }

  lemma FreshStays(s: State, a: Action, nick: string)
    requires Inv(s) && Enabled(s, a) && nick in s.table && Fresh(s, nick) && !(a.Update? && a.nick == nick)
    requires nick in Apply(s, a).table && Apply(s, a).table[nick] == s.table[nick]
    ensures Fresh(Apply(s, a), nick)
  {
    if a.Fill? {
      FilledCache(s, a.k, a.ok);
    } else {
      PendingStays(s, a, nick);
    }
  }

  lemma FilledCache(s: State, k: nat, ok: bool)
    requires Enabled(s, Fill(k, ok))
    ensures var s', row := Apply(s, Fill(k, ok)), s.fills[k].value;
      && s'.table == s.table && s'.fills == s.fills[k := None]
      && s'.cache.Keys == s.cache.Keys + (if ok then {row.user.nick} else {})
      && forall n | n in s'.cache :: s'.cache[n].row == if ok && n == row.user.nick then row else s.cache[n].row
  {
  }

  lemma PendingStays(s: State, a: Action, nick: string)
    requires Inv(s) && Enabled(s, a) && nick in s.table && Fresh(s, nick) && !(a.Update? && a.nick == nick) && !a.Fill?
    requires nick in Apply(s, a).table && Apply(s, a).table[nick] == s.table[nick]
    ensures Fresh(Apply(s, a), nick)
  {
  }

  lemma ReadersStay(s: State, a: Action, nick: string, first: nat, user: User)
    requires Inv(s) && Enabled(s, a) && Steady(s, nick, first, user)
    ensures ReadersSee(Apply(s, a), nick, first, user)
  {
  }

  /** The step that ends a stretch. */
  lemma LastStep(trace: seq<State>, nick: string) returns (a: Action)
    requires Stretch(trace, nick) && |trace| > 1
    ensures Stretch(trace[..|trace| - 1], nick) && !(a.Update? && a.nick == nick)
    ensures Enabled(trace[|trace| - 2], a) && trace[|trace| - 1] == Apply(trace[|trace| - 2], a)
  {
    assert NextWithoutUpdate(trace[|trace| - 2], trace[|trace| - 2 + 1], nick);
    a :| Enabled(trace[|trace| - 2], a) && !(a.Update? && a.nick == nick)
         && trace[|trace| - 1] == Apply(trace[|trace| - 2], a);
  }

  lemma {:induction false} StretchIsSteady(trace: seq<State>, nick: string, first: nat, user: User)
    requires Stretch(trace, nick) && Inv(trace[0]) && Steady(trace[0], nick, first, user)
    ensures Inv(trace[|trace| - 1]) && Steady(trace[|trace| - 1], nick, first, user)
  {
    if |trace| > 1 {
      var a := LastStep(trace, nick);
      StretchIsSteady(trace[..|trace| - 1], nick, first, user);
      SteadyStep(trace[|trace| - 2], a, nick, first, user);
    }
  }

  lemma SteadyStep(s: State, a: Action, nick: string, first: nat, user: User)
    requires Inv(s) && Enabled(s, a) && !(a.Update? && a.nick == nick) && Steady(s, nick, first, user)
    ensures Inv(Apply(s, a)) && Steady(Apply(s, a), nick, first, user)
  {
    ApplyKeeps(s, a);
    TableStays(s, a, nick);
    FreshStays(s, a, nick);
    ReadersStay(s, a, nick, first, user);
  }

  /** A stale cached row is found by the next lookup. */
  lemma StaleIsSeen(s: State, nick: string) returns (trace: seq<State>)
    requires nick in s.table && nick in s.cache && s.cache[nick].row.user != s.table[nick]
    ensures Stretch(trace, nick) && trace[0] == s
    ensures !ReadersSee(trace[|trace| - 1], nick, |s.readers|, s.table[nick])
  {
    var i := |s.readers|;
    var s1 := Apply(s, Begin(nick));
    assert Enabled(s, Begin(nick)) && NextWithoutUpdate(s, s1, nick);
    assert Enabled(s1, CacheGet(i, true));
    var s2 := Apply(s1, CacheGet(i, true));
    assert NextWithoutUpdate(s1, s2, nick);
    trace := [s, s1, s2];
    assert s2.readers[i] == Reader(nick, Done(Some(s.cache[nick].row.user), RowOf(s, nick)));
  }

  /** So is one that is on its way to the cache. */
  lemma StaleFillIsSeen(s: State, nick: string, k: nat) returns (trace: seq<State>)
    requires nick in s.table && k < |s.fills| && s.fills[k].Some?
    requires s.fills[k].value.user.nick == nick && s.fills[k].value.user != s.table[nick]
    ensures Stretch(trace, nick) && trace[0] == s
    ensures !ReadersSee(trace[|trace| - 1], nick, |s.readers|, s.table[nick])
  {
    var s1 := Apply(s, Fill(k, true));
    assert Enabled(s, Fill(k, true)) && NextWithoutUpdate(s, s1, nick);
    var rest := StaleIsSeen(s1, nick);
    trace := [s] + rest;
    forall j | 0 <= j < |trace| - 1 ensures NextWithoutUpdate(trace[j], trace[j + 1], nick) {
      if j > 0 { assert NextWithoutUpdate(rest[j - 1], rest[j - 1 + 1], nick); }
    }
  }

  /**
   New lookups see the table until the next edit if and only if no other row is cached or on its way to the cache.
   */
  lemma ReadsAreFreshIff(s: State, nick: string)
    requires Inv(s) && nick in s.table
    ensures AlwaysSeesTable(s, nick) <==> Fresh(s, nick)
  {
    if Fresh(s, nick) {
      forall trace: seq<State> | Stretch(trace, nick) && trace[0] == s
        ensures ReadersSee(trace[|trace| - 1], nick, |s.readers|, s.table[nick])
      {
        StretchIsSteady(trace, nick, |s.readers|, s.table[nick]);
      }
    } else if nick in s.cache && s.cache[nick].row.user != s.table[nick] {
      var trace := StaleIsSeen(s, nick);
    } else {
      var k: nat :| k < |s.fills| && s.fills[k].Some? && s.fills[k].value.user.nick == nick
                    && s.fills[k].value.user != s.table[nick];
      var trace := StaleFillIsSeen(s, nick, k);
    }
  }

  /**
   An edit, from its UPDATE in state `s` through whatever else runs to its invalidation: afterwards and until the next
   edit of the nick every GetProfile that starts then sees the new description, if and only if no fill was still under
   way at the invalidation with another row than the edited one.
   */
  lemma EditIsSeen(s: State, nick: string, description: string, during: seq<State>, version: nat)
    requires Inv(s) && nick in s.table
    requires Stretch(during, nick) && during[0] == Apply(s, Update(nick, description, true))
    requires Enabled(during[|during| - 1], Invalidate(nick, version, true))
    ensures var e := during[|during| - 1];
      var s' := Apply(e, Invalidate(nick, version, true));
      var edited := s.table[nick].(description := description);
      && nick in s'.table && s'.table[nick] == edited
      && (AlwaysSeesTable(s', nick) <==> PendingFresh(e, nick, edited))
  {
    var s1 := Apply(s, Update(nick, description, true));
    assert Enabled(s, Update(nick, description, true));
    ApplyKeeps(s, Update(nick, description, true));
    StretchKeepsTable(during, nick);
    var e := during[|during| - 1];
    ApplyKeeps(e, Invalidate(nick, version, true));
    ReadsAreFreshIff(Apply(e, Invalidate(nick, version, true)), nick);
  }

  /** A GetProfile that starts after such an edit and is answered before the next one has the new description. */
  lemma NewDescriptionIsRead(s: State, nick: string, description: string, during: seq<State>, version: nat,
                             after: seq<State>, i: nat)
    requires Inv(s) && nick in s.table
    requires Stretch(during, nick) && during[0] == Apply(s, Update(nick, description, true))
    requires Enabled(during[|during| - 1], Invalidate(nick, version, true))
    requires PendingFresh(during[|during| - 1], nick, s.table[nick].(description := description))
    requires Stretch(after, nick) && after[0] == Apply(during[|during| - 1], Invalidate(nick, version, true))
    requires var t := after[|after| - 1];
      |after[0].readers| <= i < |t.readers| && t.readers[i].nick == nick && t.readers[i].at.Done?
    ensures var found := after[|after| - 1].readers[i].at.found;
      found.Some? && found.value.description == description
  {
    EditIsSeen(s, nick, description, during, version);
    assert ReadersSee(after[|after| - 1], nick, |after[0].readers|, after[0].table[nick]);
  }

  lemma {:induction false} StretchKeepsTable(trace: seq<State>, nick: string)
    requires Stretch(trace, nick) && Inv(trace[0]) && nick in trace[0].table
    ensures var s := trace[|trace| - 1]; Inv(s) && nick in s.table && s.table[nick] == trace[0].table[nick]
  {
    if |trace| > 1 {
      var a := LastStep(trace, nick);
      StretchKeepsTable(trace[..|trace| - 1], nick);
      ApplyKeeps(trace[|trace| - 2], a);
      TableStays(trace[|trace| - 2], a, nick);
    }
  }

  // ---- Why the condition is needed ----

  const OLD := User("ann", "h", "old")
  const NEW := User("ann", "h", "new")

  lemma Then(trace: seq<State>, a: Action) returns (trace': seq<State>)
    requires Run(trace) && Enabled(trace[|trace| - 1], a)
    ensures Run(trace') && trace'[|trace'| - 1] == Apply(trace[|trace| - 1], a)
  {
    assert Next(trace[|trace| - 1], Apply(trace[|trace| - 1], a));
    trace' := trace + [Apply(trace[|trace| - 1], a)];
  }

  /** A run in which a row has been read for the cache, and the fill has still to run. */
  lemma ReadForCache() returns (trace: seq<State>)
    ensures Run(trace)
    ensures trace[|trace| - 1] == State(map["ann" := OLD], map[], {}, map[], [Some(Row(OLD, 0))],
                                        [Reader("ann", Done(Some(OLD), Some(OLD)))])
  {
    trace := [INIT];
    trace := Then(trace, Insert(OLD));
    trace := Then(trace, Begin("ann"));
    trace := Then(trace, CacheGet(0, true));
    trace := Then(trace, Select(0, true));
  }

  /** A fill that reads before an edit's UPDATE and writes after its invalidation leaves a stale profile behind. */
  lemma StaleProfile() returns (trace: seq<State>)
    ensures Run(trace)
    ensures var s := trace[|trace| - 1];
      && NoOpenEdit(s, "ann") && "ann" in s.cache && s.cache["ann"].overlapped
      && "ann" in s.table && s.table["ann"] == NEW && s.cache["ann"].row.user == OLD
  {
    trace := ReadForCache();
    trace := Then(trace, Update("ann", "new", true));
    assert trace[|trace| - 1].table == map["ann" := NEW];
    trace := Then(trace, Invalidate("ann", 1, true));
    var s := trace[|trace| - 1];
    assert Overtaken(s, Row(OLD, 0)) by { assert 0 < 1 <= Version(s, "ann") && ("ann", 1) !in s.open; }
    trace := Then(trace, Fill(0, true));
  }
}
