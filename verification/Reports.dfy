/**
 Activity reports: the options are compiled to an aggregation query and the buckets that come back are decoded.
 The search engine is a reference evaluator of the small part of its query language that is used.
 */
module Reports {
  import opened Collections
  import opened Wrappers

  // ---- Options and the query ----

  const MAX_CHANNELS_IN_REPORT: nat := 50
  const MAX_REPORT_SIZE_IN_DAYS := 30

  const SECOND := 1_000_000_000
  const MILLISECOND := 1_000_000
  const HOUR := 3600 * SECOND

  const DAY_FORMAT := "yyyy-MM-dd"
  const MINUTE_FORMAT := "yyyy-MM-dd HH:mm"
  const GROUP_BY_DAY := "day"
  const GROUP_BY_HOUR := "hour"
  const GROUP_BY_MINUTE := "minute"

  /** Times are nanoseconds since the epoch. */
  datatype Options = Options(author: string, groupBy: string, from: int, to: int)

  function Unix(t: int): int { t / SECOND }

  function UnixMilli(t: int): int { t / MILLISECOND }

  datatype Filter = AuthorIs(value: string) | TimestampIn(gte: int, lte: int)

  datatype DateHistogram = DateHistogram(
    interval: string, minDocCount: nat, format: string, boundMin: int, boundMax: int)

  datatype Query = Query(filters: seq<Filter>, size: nat, byDate: Option<DateHistogram>)

  datatype Error = InvalidRange | MaxReportSizeExceeded | InvalidRequest | Internal

  function BuildDateHistogram(opts: Options): Option<DateHistogram> {
    if opts.groupBy == "" then None
    else
      Some(DateHistogram(opts.groupBy, 0,
                         if opts.groupBy == GROUP_BY_DAY then DAY_FORMAT else MINUTE_FORMAT,
                         UnixMilli(opts.from), UnixMilli(opts.to)))
  }

  function BuildQuery(opts: Options): Result<Query, Error> {
    if opts.from > opts.to then Err(InvalidRange)
    else if opts.to - opts.from > MAX_REPORT_SIZE_IN_DAYS * 24 * HOUR then Err(MaxReportSizeExceeded)
    else
      Ok(Query([AuthorIs(opts.author), TimestampIn(Unix(opts.from), Unix(opts.to))],
               MAX_CHANNELS_IN_REPORT, BuildDateHistogram(opts)))
  }

  // ---- The engine ----

  /** An indexed message; its timestamp is in whole seconds. */
  datatype Message = Message(channel: string, author: string, timestamp: int)

  /** The start of a period in seconds, and the format it is rendered in. */
  datatype Key = Key(format: string, start: int)

  datatype DateBucket = DateBucket(key: Key, docCount: nat)
  datatype ChannelBucket = ChannelBucket(key: string, docCount: nat, byDate: Option<seq<DateBucket>>)

  predicate Passes(m: Message, f: Filter) {
    match f
    case AuthorIs(value) => m.author == value
    case TimestampIn(gte, lte) => gte <= m.timestamp <= lte
  }

  function Hits(docs: seq<Message>, filters: seq<Filter>): seq<Message> {
    if docs == [] then [] else
      var rest := Hits(docs[..|docs| - 1], filters);
      var m := docs[|docs| - 1];
      if forall k | 0 <= k < |filters| :: Passes(m, filters[k]) then rest + [m] else rest
  }

  function In(hits: seq<Message>, channel: string): seq<Message> {
    if hits == [] then [] else
      var rest := In(hits[..|hits| - 1], channel);
      if hits[|hits| - 1].channel == channel then rest + [hits[|hits| - 1]] else rest
  }

  function Channels(hits: seq<Message>): set<string> {
    set k | 0 <= k < |hits| :: hits[k].channel
  }

  /** The channel with most hits; ties are broken somehow. */
  ghost function Busiest(hits: seq<Message>, channels: set<string>): (c: string)
    requires channels != {}
    ensures c in channels && forall d | d in channels :: |In(hits, d)| <= |In(hits, c)|
    decreases |channels|
  {
    var c :| c in channels;
    if channels == {c} then c
    else
      assert |channels - {c}| < |channels|;
      var d := Busiest(hits, channels - {c});
      if |In(hits, d)| <= |In(hits, c)| then c else d
  }

  /** The terms aggregation: the `size` busiest channels, busiest first. */
  ghost function Terms(hits: seq<Message>, channels: set<string>, size: nat): seq<string>
    decreases size
  {
    if size == 0 || channels == {} then [] else
      var c := Busiest(hits, channels);
      [c] + Terms(hits, channels - {c}, size - 1)
  }

  /** The calendar intervals known here; in UTC all three have a fixed length. */
  datatype Unit = Day | Hour | Minute

  function UnitOf(interval: string): Option<Unit> {
    if interval == GROUP_BY_DAY then Some(Day)
    else if interval == GROUP_BY_HOUR then Some(Hour)
    else if interval == GROUP_BY_MINUTE then Some(Minute)
    else None
  }

  /** The number of the period a time in seconds falls into, counted from the epoch. */
  function Period(seconds: int, unit: Unit): int {
    match unit
    case Day => seconds / 86400
    case Hour => seconds / 3600
    case Minute => seconds / 60
  }

  function PeriodOfMillis(millis: int, unit: Unit): int {
    match unit
    case Day => millis / 86_400_000
    case Hour => millis / 3_600_000
    case Minute => millis / 60_000
  }

  /** When a period starts, in seconds. */
  function StartOf(period: int, unit: Unit): int {
    match unit
    case Day => period * 86400
    case Hour => period * 3600
    case Minute => period * 60
  }

  function InPeriod(hits: seq<Message>, unit: Unit, period: int): nat
  {
    if hits == [] then 0 else
      InPeriod(hits[..|hits| - 1], unit, period)
      + (if Period(hits[|hits| - 1].timestamp, unit) == period then 1 else 0)
  }

  /** The first period with a hit or in the bounds, and the last one. */
  function First(hits: seq<Message>, unit: Unit, bound: int): int
  {
    if hits == [] then bound else
      var rest := First(hits[..|hits| - 1], unit, bound);
      var p := Period(hits[|hits| - 1].timestamp, unit);
      if p < rest then p else rest
  }

  function Last(hits: seq<Message>, unit: Unit, bound: int): int
  {
    if hits == [] then bound else
      var rest := Last(hits[..|hits| - 1], unit, bound);
      var p := Period(hits[|hits| - 1].timestamp, unit);
      if p > rest then p else rest
  }

  /** The buckets of periods `first` to `last`, dropping those with fewer hits than asked for. */
  function Buckets(hits: seq<Message>, h: DateHistogram, unit: Unit, first: int, last: int): seq<DateBucket>
    decreases last - first
  {
    if first > last then [] else
      var n := InPeriod(hits, unit, last);
      Buckets(hits, h, unit, first, last - 1)
      + (if n >= h.minDocCount then [DateBucket(Key(h.format, StartOf(last, unit)), n)] else [])
  }

  /** The bounds are in milliseconds and extend the range of the hits. */
  function Histogram(hits: seq<Message>, h: DateHistogram, unit: Unit): seq<DateBucket>
  {
    Buckets(hits, h, unit,
            First(hits, unit, PeriodOfMillis(h.boundMin, unit)), Last(hits, unit, PeriodOfMillis(h.boundMax, unit)))
  }

  /** The engine's answer; None when it rejects the interval. */
  ghost function Evaluate(q: Query, docs: seq<Message>): Option<seq<ChannelBucket>> {
    var hits := Hits(docs, q.filters);
    var names := Terms(hits, Channels(hits), q.size);
    if q.byDate.None? then
      Some(seq(|names|, i requires 0 <= i < |names| => ChannelBucket(names[i], |In(hits, names[i])|, None)))
    else if UnitOf(q.byDate.value.interval).None? then None
    else
      var unit := UnitOf(q.byDate.value.interval).value;
      Some(seq(|names|, i requires 0 <= i < |names| =>
        ChannelBucket(names[i], |In(hits, names[i])|, Some(Histogram(In(hits, names[i]), q.byDate.value, unit)))))
  }

  // ---- Decoding ----

  datatype Entry = Entry(periodStart: Key, messages: nat)
  datatype Activity = Activity(total: nat, distribution: Option<seq<Entry>>)
  datatype Report = Report(channels: map<string, Activity>, from: int, to: int)

  function EntriesOf(buckets: seq<DateBucket>): seq<Entry> {
    seq(|buckets|, i requires 0 <= i < |buckets| => Entry(buckets[i].key, buckets[i].docCount))
  }

  function ActivityOf(b: ChannelBucket): Activity {
    Activity(b.docCount, if b.byDate.None? then None else Some(EntriesOf(b.byDate.value)))
  }

  method NewMessageCountDistribution(res: Option<seq<DateBucket>>) returns (distribution: Option<seq<Entry>>)
    ensures distribution == if res.None? then None else Some(EntriesOf(res.value))
  {
    if res.None? { return None; }
    var entries: seq<Entry> := [];
    for i := 0 to |res.value|
      invariant entries == EntriesOf(res.value)[..i]
    {
      entries := entries + [Entry(res.value[i].key, res.value[i].docCount)];
    }
    assert EntriesOf(res.value)[..|res.value|] == EntriesOf(res.value);
    distribution := Some(entries);
  }

  /** The last bucket of each key decides. */
  ghost predicate Decodes(buckets: seq<ChannelBucket>, channels: map<string, Activity>) {
    && (forall c | c in channels :: exists i :: 0 <= i < |buckets| && DecidedBy(buckets, channels, c, i))
    && (forall i | 0 <= i < |buckets| :: buckets[i].key in channels)
  }

  ghost predicate DecidedBy(buckets: seq<ChannelBucket>, channels: map<string, Activity>, c: string, i: nat)
    requires c in channels && i < |buckets|
  {
    buckets[i].key == c && channels[c] == ActivityOf(buckets[i]) && forall j | i < j < |buckets| :: buckets[j].key != c
  }

  method NewUserActivityReport(buckets: seq<ChannelBucket>) returns (channels: map<string, Activity>)
    ensures Decodes(buckets, channels)
  {
    channels := map[];
    for i := 0 to |buckets|
      invariant Decodes(buckets[..i], channels)
    {
      ghost var before := channels;
      var distribution := NewMessageCountDistribution(buckets[i].byDate);
      channels := channels[buckets[i].key := Activity(buckets[i].docCount, distribution)];
      DecodeOneMore(buckets, i, before, channels);
    }
    assert buckets[..|buckets|] == buckets;
  }

  lemma DecodeOneMore(buckets: seq<ChannelBucket>, n: nat, before: map<string, Activity>, after: map<string, Activity>)
    requires n < |buckets| && Decodes(buckets[..n], before)
    requires after == before[buckets[n].key := ActivityOf(buckets[n])]
    ensures Decodes(buckets[..n + 1], after)
  {
    var more := buckets[..n + 1];
    forall c | c in after ensures exists i :: 0 <= i < |more| && DecidedBy(more, after, c, i) {
      if c == buckets[n].key {
        assert DecidedBy(more, after, c, n);
      } else {
        var i :| 0 <= i < n && DecidedBy(buckets[..n], before, c, i);
        assert forall j | i < j < |more| :: more[j].key != c by {
          forall j | i < j < |more| ensures more[j].key != c {
            if j < n { assert buckets[..n][j] == more[j]; }
          }
        }
        assert DecidedBy(more, after, c, i);
      }
    }
    forall i | 0 <= i < |more| ensures more[i].key in after {
      if i < n { assert buckets[..n][i] == more[i]; }
    }
  }

  /**
   GetUserActivityReport; `encodes` is whether the query can be encoded, and `engine` answers it, None if it fails.
   */
  method GetUserActivityReport(opts: Options, encodes: bool, engine: Query -> Option<seq<ChannelBucket>>)
    returns (r: Result<Report, Error>)
    ensures r == Err(InvalidRange) <==> opts.to < opts.from
    ensures r == Err(MaxReportSizeExceeded) <==>
              opts.from <= opts.to && opts.to - opts.from > 30 * 86400 * 1_000_000_000
    ensures r == Err(InvalidRequest) <==>
              opts.from <= opts.to && opts.to - opts.from <= 30 * 86400 * 1_000_000_000 && !encodes
    ensures opts.from <= opts.to && opts.to - opts.from <= 30 * 86400 * 1_000_000_000 && encodes ==>
              && BuildQuery(opts).Ok?
              && var response := engine(BuildQuery(opts).value);
              && (response.None? ==> r == Err(Internal))
              && (response.Some? ==>
                    r.Ok? && r.value.from == opts.from && r.value.to == opts.to
                    && Decodes(response.value, r.value.channels))
  {
    var q := BuildQuery(opts);
    if q.Err? { return Err(q.error); }
    if !encodes { return Err(InvalidRequest); }
    var response := engine(q.value);
    if response.None? { return Err(Internal); }
    var channels := NewUserActivityReport(response.value);
    r := Ok(Report(channels, opts.from, opts.to));
  }
}
