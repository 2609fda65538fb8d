/**
 The profile service as an object over its table and its cache. Its fields are at every moment those of a state the
 concurrent machine of ProfileCache can reach: each method makes that machine's steps, one after the other.
 */
module UserProfile {
  import opened Collections
  import opened Wrappers
  import Machine = ProfileCache
  import Proofs = ProfileProofs

  type User = Machine.User

  datatype Error = PasswordRequired | NickRequired | NickAlreadyUsed | UserNotFound | Internal

  datatype PublicProfile = PublicProfile(nick: string, description: string)

  class ProfileService {
    var table: map<string, User>
    var cache: map<string, User>
    var fills: seq<Option<User>>          // spawned setInCache goroutines; None once they have run
    ghost var trace: seq<Machine.State>

    ghost predicate Valid()
      reads this
    {
      Machine.Run(trace) && Projects(Now())
    }

    ghost function Now(): Machine.State
      reads this
    {
      if trace == [] then Machine.INIT else trace[|trace| - 1]
    }

    ghost predicate Projects(s: Machine.State)
      reads this
    {
      && table == s.table
      && cache.Keys == s.cache.Keys && (forall n | n in cache :: cache[n] == s.cache[n].row.user)
      && |fills| == |s.fills|
      && (forall k | 0 <= k < |fills| :: fills[k] == if s.fills[k].None? then None else Some(s.fills[k].value.user))
    }

    constructor ()
      ensures Valid() && table == map[] && cache == map[] && fills == []
    {
      table, cache, fills, trace := map[], map[], [], [Machine.INIT];
    }

    ghost method Step(a: Machine.Action)
      requires Machine.Run(trace) && Machine.Enabled(Now(), a)
      modifies this`trace
      ensures Machine.Run(trace) && Now() == Machine.Apply(old(Now()), a)
    {
      assert Machine.Next(Now(), Machine.Apply(Now(), a));
      trace := trace + [Machine.Apply(Now(), a)];
    }

    /** `hash` is what bcrypt makes of the password, None if it fails; `works` is whether the table can be reached. */
    method Create(nick: string, password: string, description: string, hash: Option<string>, works: bool)
      returns (r: Result<(), Error>)
      requires Valid()
      modifies this`table, this`trace
      ensures Valid()
      ensures r == Ok(()) <==> nick != "" && password != "" && hash.Some? && works && nick !in old(table)
      ensures r == Ok(()) ==> table == old(table)[nick := Machine.User(nick, hash.value, description)]
      ensures r != Ok(()) ==> table == old(table)
      ensures r == Err(NickAlreadyUsed) <==> nick != "" && password != "" && hash.Some? && works && nick in old(table)
      ensures r == Err(PasswordRequired) <==> password == ""
      ensures r == Err(NickRequired) <==> password != "" && nick == ""
    {
      if password == "" { return Err(PasswordRequired); }
      if nick == "" { return Err(NickRequired); }
      if hash.None? { return Err(Internal); }
      var user := Machine.User(nick, hash.value, description);
      if !works { return Err(Internal); }
      Step(Machine.Insert(user));
      if nick in table { return Err(NickAlreadyUsed); }
      table := table[nick := user];
      r := Ok(());
    }

    /** A nick that is not there is no error. `deletes` is whether the cache entry could be removed: nobody looks. */
    method Edit(nick: string, description: string, works: bool, deletes: bool) returns (r: Result<(), Error>)
      requires Valid()
      modifies this`table, this`cache, this`trace
      ensures Valid()
      ensures r == if works then Ok(()) else Err(Internal)
      ensures table.Keys == old(table).Keys
      ensures forall n | n in table ::
                table[n] == if works && n == nick then old(table[n]).(description := description) else old(table[n])
      ensures cache == if works && deletes then old(cache) - {nick} else old(cache)
    {
      if !works { return Err(Internal); }
      ghost var version := Machine.Version(Now(), nick) + 1;
      Step(Machine.Update(nick, description, true));
      if nick in table { table := table[nick := table[nick].(description := description)]; }
      Step(Machine.Invalidate(nick, version, deletes));
      if deletes { cache := cache - {nick}; }
      r := Ok(());
    }

    /** Rows in table and cache are kept under their own nick, and a cached one has the table's hash. */
    lemma CacheIsSound(nick: string)
      requires Valid()
      ensures nick in table ==> table[nick].nick == nick
      ensures nick in cache ==>
                nick in table && cache[nick].nick == nick && cache[nick].hash == table[nick].hash
    {
      Proofs.RunKeeps(trace);
      assert nick in cache ==> Proofs.EntryOk(Now(), nick);
    }

    /**
     `hits` and `works` are whether the cache and the table can be reached. A miss spawns a fill with the row it
     read.
     */
    method GetUserData(nick: string, hits: bool, works: bool) returns (r: Result<User, Error>)
      requires Valid()
      modifies this`fills, this`trace
      ensures Valid()
      ensures r.Ok? <==> hits && (nick in cache || (works && nick in table))
      ensures r.Ok? ==> r.value == if nick in cache then cache[nick] else table[nick]
      ensures r == Err(UserNotFound) <==> hits && nick !in cache && !(works && nick in table)
      ensures r == Err(Internal) <==> !hits
      ensures fills == old(fills) + (if r.Ok? && nick !in cache then [Some(r.value)] else [])
      ensures r.Ok? ==> nick in table && r.value.nick == nick && r.value.hash == table[nick].hash
      ensures nick in cache ==> nick in table
    {
      CacheIsSound(nick);
      ghost var i := |Now().readers|;
      Step(Machine.Begin(nick));
      Step(Machine.CacheGet(i, hits));
      if !hits { return Err(Internal); }
      if nick in cache { return Ok(cache[nick]); }
      Step(Machine.Select(i, works));
      if !works || nick !in table { return Err(UserNotFound); }
      fills := fills + [Some(table[nick])];
      r := Ok(table[nick]);
    }

    /** Whatever is cached, an answer is the one the table would give; without cache or table nobody gets in. */
    method IsAuthValid(nick: string, password: string, compare: (string, string) -> bool, hits: bool, works: bool)
      returns (valid: bool)
      requires Valid()
      modifies this`fills, this`trace
      ensures Valid()
      ensures valid ==> nick != "" && password != "" && nick in table && compare(table[nick].hash, password)
      ensures hits && (works || nick in cache) ==>
                (valid <==> nick != "" && password != "" && nick in table && compare(table[nick].hash, password))
      ensures !hits || (!works && nick !in cache) ==> !valid
    {
      if nick == "" || password == "" { return false; }
      var data := GetUserData(nick, hits, works);
      if data.Err? { return false; }
      valid := compare(data.value.hash, password);
    }

    method GetProfile(nick: string, hits: bool, works: bool) returns (r: Result<PublicProfile, Error>)
      requires Valid()
      modifies this`fills, this`trace
      ensures Valid()
      ensures r == Err(NickRequired) <==> nick == ""
      ensures nick != "" ==> (r.Ok? <==> hits && (nick in cache || (works && nick in table)))
      ensures r == Err(UserNotFound) <==> nick != "" && hits && nick !in cache && !(works && nick in table)
      ensures r.Ok? ==> r.value.nick == nick && nick in table
      ensures r.Ok? ==> r.value.description == (if nick in cache then cache[nick] else table[nick]).description
      ensures r.Ok? && Proofs.Fresh(old(Now()), nick) ==> r.value.description == table[nick].description
    {
      if nick == "" { return Err(NickRequired); }
      Proofs.RunKeeps(trace);
      assert nick in cache ==> Proofs.EntryOk(Now(), nick);
      var data := GetUserData(nick, hits, works);
      if data.Err? { return Err(data.error); }
      r := Ok(PublicProfile(data.value.nick, data.value.description));
    }

    /** A spawned setInCache runs; `works` is whether the cache takes the row. */
    method SetInCache(k: nat, works: bool)
      requires Valid() && k < |fills| && fills[k].Some?
      modifies this`cache, this`fills, this`trace
      ensures Valid() && fills == old(fills)[k := None]
      ensures cache == if works then old(cache)[old(fills)[k].value.nick := old(fills)[k].value] else old(cache)
    {
      Step(Machine.Fill(k, works));
      if works { cache := cache[fills[k].value.nick := fills[k].value]; }
      fills := fills[k := None];
    }
  }
}
