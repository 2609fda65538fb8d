/** What a report means: build, evaluate and decode together are naive counting, and their size is bounded. */
module ReportProofs {
  import opened Collections
  import opened Reports
  import opened Wrappers

  /** What a report is about: this author's messages in this channel, in the window from `from` to `to`. */
  predicate Wanted(m: Message, author: string, channel: string, from: int, to: int) {
    m.author == author && m.channel == channel && from <= m.timestamp <= to
  }

  function Count(docs: seq<Message>, author: string, channel: string, from: int, to: int): nat {
    if docs == [] then 0 else
      Count(docs[..|docs| - 1], author, channel, from, to)
      + (if Wanted(docs[|docs| - 1], author, channel, from, to) then 1 else 0)
  }

  /** The same, restricted to one period. */
  function CountPeriod(docs: seq<Message>, author: string, channel: string, from: int, to: int, unit: Unit,
      period: int): nat
  {
    if docs == [] then 0 else
      CountPeriod(docs[..|docs| - 1], author, channel, from, to, unit, period)
      + (if Wanted(docs[|docs| - 1], author, channel, from, to) && Period(docs[|docs| - 1].timestamp, unit) == period
         then 1 else 0)
  }

  function Filters(author: string, from: int, to: int): seq<Filter> {
    [AuthorIs(author), TimestampIn(from, to)]
  }

  // ---- Counting ----

  lemma {:induction false} HitsAreCounted(docs: seq<Message>, author: string, channel: string, from: int, to: int)
    ensures var hits := In(Hits(docs, Filters(author, from, to)), channel);
      && |hits| == Count(docs, author, channel, from, to)
      && forall k | 0 <= k < |hits| :: from <= hits[k].timestamp <= to
  {
    if docs != [] {
      var n := |docs| - 1;
      HitsAreCounted(docs[..n], author, channel, from, to);
      OneMoreHit(docs, author, channel, from, to);
    }
  }

  /** The last message is a hit in this channel exactly if it is wanted. */
  lemma OneMoreHit(docs: seq<Message>, author: string, channel: string, from: int, to: int)
    requires docs != []
    ensures var n, fs := |docs| - 1, Filters(author, from, to);
      In(Hits(docs, fs), channel)
        == In(Hits(docs[..n], fs), channel) + (if Wanted(docs[n], author, channel, from, to) then [docs[n]] else [])
  {
    var n, fs := |docs| - 1, Filters(author, from, to);
    assert (forall k | 0 <= k < |fs| :: Passes(docs[n], fs[k])) <==> Passes(docs[n], fs[0]) && Passes(docs[n], fs[1]);
  }

  lemma {:induction false} PeriodsAreCounted(docs: seq<Message>, author: string, channel: string, from: int, to: int,
                                             unit: Unit, period: int)
    ensures InPeriod(In(Hits(docs, Filters(author, from, to)), channel), unit, period)
              == CountPeriod(docs, author, channel, from, to, unit, period)
  {
    if docs != [] {
      var n, fs := |docs| - 1, Filters(author, from, to);
      PeriodsAreCounted(docs[..n], author, channel, from, to, unit, period);
      OneMoreHit(docs, author, channel, from, to);
    }
  }

  lemma {:induction false} ChannelHasHits(hits: seq<Message>, channel: string)
    ensures channel in Channels(hits) <==> |In(hits, channel)| > 0
  {
    if hits != [] {
      ChannelHasHits(hits[..|hits| - 1], channel);
      assert hits == hits[..|hits| - 1] + [hits[|hits| - 1]];
      assert channel in Channels(hits) <==>
        channel in Channels(hits[..|hits| - 1]) || hits[|hits| - 1].channel == channel;
    }
  }

  // ---- The busiest channels ----

  lemma {:induction false} TermsAreChannels(hits: seq<Message>, channels: set<string>, size: nat)
    ensures var names := Terms(hits, channels, size);
      && |names| == (if |channels| <= size then |channels| else size)
      && forall i | 0 <= i < |names| :: names[i] in channels
    decreases size
  {
    if size > 0 && channels != {} {
      var c := Busiest(hits, channels);
      TermsAreChannels(hits, channels - {c}, size - 1);
      assert |channels - {c}| == |channels| - 1;
    }
  }

  lemma {:induction false} TermsAreDistinct(hits: seq<Message>, channels: set<string>, size: nat)
    ensures var names := Terms(hits, channels, size);
      forall i, j | 0 <= i < j < |names| :: names[i] != names[j]
    decreases size
  {
    if size > 0 && channels != {} {
      var c := Busiest(hits, channels);
      TermsAreDistinct(hits, channels - {c}, size - 1);
      TermsAreChannels(hits, channels - {c}, size - 1);
    }
  }

  /** No channel left out has more hits than one that is named. */
  lemma {:induction false} TermsAreTop(hits: seq<Message>, channels: set<string>, size: nat, i: nat, d: string)
    requires i < |Terms(hits, channels, size)| && d in channels && d !in Terms(hits, channels, size)
    ensures |In(hits, d)| <= |In(hits, Terms(hits, channels, size)[i])|
    decreases size
  {
    var c := Busiest(hits, channels);
    var rest := Terms(hits, channels - {c}, size - 1);
    assert Terms(hits, channels, size) == [c] + rest;
    assert ([c] + rest)[0] == c;
    if i > 0 {
      assert forall j | 0 <= j < |rest| :: rest[j] == ([c] + rest)[j + 1];
      TermsAreTop(hits, channels - {c}, size - 1, i - 1, d);
    }
  }

  lemma AllWhenFew(hits: seq<Message>, channels: set<string>, size: nat)
    requires |channels| <= size
    ensures forall c | c in channels :: c in Terms(hits, channels, size)
  {
    TermsAreChannels(hits, channels, size);
    TermsAreDistinct(hits, channels, size);
    var names := Terms(hits, channels, size);
    var named := set i | 0 <= i < |names| :: names[i];
    assert Enumerates(names, named);
    EnumerationLength(names, named);
    assert channels == named + (channels - named);
    assert |channels| == |named| + |channels - named|;
    assert channels - named == {};
  }

  // ---- Periods ----

  /** A period is a stretch of whole seconds, and the periods of a unit are of one length and follow on each other. */
  lemma PeriodMeaning(t: int, p: int, interval: string)
    ensures UnitOf(interval).Some? <==> interval in {"day", "hour", "minute"}
    ensures UnitOf(interval).Some? ==>
              var unit := UnitOf(interval).value;
              && (Period(t, unit) == p <==> StartOf(p, unit) <= t < StartOf(p + 1, unit))
              && StartOf(p, unit) == p * (if interval == "day" then 86400 else if interval == "hour" then 3600 else 60)
  {
    assert "day"[0] == 'd' && "hour"[0] == 'h' && "minute"[0] == 'm';
  }

  /** The millisecond bounds and the second-based filter denote the same first and last period. */
  lemma SameWindow(t: int, interval: string)
    requires UnitOf(interval).Some?
    ensures var unit := UnitOf(interval).value;
      PeriodOfMillis(t / 1_000_000, unit) == Period(t / 1_000_000_000, unit)
  {
  }

  lemma PeriodMonotone(a: int, b: int, interval: string)
    requires UnitOf(interval).Some? && a <= b
    ensures Period(a, UnitOf(interval).value) <= Period(b, UnitOf(interval).value)
  {
  }

  /** Hits inside the window do not extend the bounds. */
  lemma {:induction false} BoundsCover(hits: seq<Message>, interval: string, from: int, to: int)
    requires UnitOf(interval).Some? && from <= to
    requires forall k | 0 <= k < |hits| :: from <= hits[k].timestamp <= to
    ensures var unit := UnitOf(interval).value;
      && First(hits, unit, Period(from, unit)) == Period(from, unit)
      && Last(hits, unit, Period(to, unit)) == Period(to, unit)
  {
    if hits != [] {
      var n := |hits| - 1;
      BoundsCover(hits[..n], interval, from, to);
      PeriodMonotone(from, hits[n].timestamp, interval);
      PeriodMonotone(hits[n].timestamp, to, interval);
    }
  }

  /** Without a minimum every period has its bucket: contiguous, ascending, zero-filled. */
  lemma {:induction false} BucketsCover(hits: seq<Message>, h: DateHistogram, unit: Unit, first: int, last: int)
    requires h.minDocCount == 0 && first <= last + 1
    ensures var b := Buckets(hits, h, unit, first, last);
      && |b| == last - first + 1
      && forall k | 0 <= k < |b| ::
           b[k].key == Key(h.format, StartOf(first + k, unit)) && b[k].docCount == InPeriod(hits, unit, first + k)
    decreases last - first
  {
    if first <= last {
      BucketsCover(hits, h, unit, first, last - 1);
    }
  }

  function Total(entries: seq<Entry>): nat {
    if entries == [] then 0 else Total(entries[..|entries| - 1]) + entries[|entries| - 1].messages
  }

  function InRange(hits: seq<Message>, unit: Unit, first: int, last: int): nat
  {
    if hits == [] then 0 else
      InRange(hits[..|hits| - 1], unit, first, last)
      + (if first <= Period(hits[|hits| - 1].timestamp, unit) <= last then 1 else 0)
  }

  lemma {:induction false} RangeSplits(hits: seq<Message>, unit: Unit, first: int, last: int)
    requires first <= last
    ensures InRange(hits, unit, first, last) == InRange(hits, unit, first, last - 1) + InPeriod(hits, unit, last)
  {
    if hits != [] {
      RangeSplits(hits[..|hits| - 1], unit, first, last);
    }
  }

  lemma {:induction false} EmptyRange(hits: seq<Message>, unit: Unit, first: int)
    ensures InRange(hits, unit, first, first - 1) == 0
  {
    if hits != [] {
      EmptyRange(hits[..|hits| - 1], unit, first);
    }
  }

  lemma {:induction false} FullRange(hits: seq<Message>, unit: Unit, first: int, last: int)
    requires forall k | 0 <= k < |hits| :: first <= Period(hits[k].timestamp, unit) <= last
    ensures InRange(hits, unit, first, last) == |hits|
  {
    if hits != [] {
      FullRange(hits[..|hits| - 1], unit, first, last);
    }
  }

  /** The entries of consecutive periods add up to the hits in all of them. */
  lemma {:induction false} EntriesAddUp(hits: seq<Message>, h: DateHistogram, unit: Unit, first: int, last: int)
    requires h.minDocCount == 0 && first <= last + 1
    ensures Total(EntriesOf(Buckets(hits, h, unit, first, last))) == InRange(hits, unit, first, last)
    decreases last - first
  {
    var b := Buckets(hits, h, unit, first, last);
    BucketsCover(hits, h, unit, first, last);
    if first <= last {
      EntriesAddUp(hits, h, unit, first, last - 1);
      RangeSplits(hits, unit, first, last);
      BucketsCover(hits, h, unit, first, last - 1);
      assert EntriesOf(b)[..|b| - 1] == EntriesOf(Buckets(hits, h, unit, first, last - 1));
    } else {
      EmptyRange(hits, unit, first);
    }
  }

  // ---- The theorems ----

  /** The channels this author has written in, in the window. */
  function ChannelsOf(docs: seq<Message>, author: string, from: int, to: int): set<string> {
    set k | 0 <= k < |docs| && docs[k].author == author && from <= docs[k].timestamp <= to :: docs[k].channel
  }

  lemma {:induction false} CountedIsThere(docs: seq<Message>, author: string, channel: string, from: int, to: int)
    ensures Count(docs, author, channel, from, to) > 0 <==> channel in ChannelsOf(docs, author, from, to)
  {
    if docs != [] {
      var n := |docs| - 1;
      CountedIsThere(docs[..n], author, channel, from, to);
      if channel in ChannelsOf(docs[..n], author, from, to) {
        var k :| 0 <= k < n && docs[k].author == author && from <= docs[k].timestamp <= to
            && docs[k].channel == channel;
        assert channel in ChannelsOf(docs, author, from, to);
      }
    }
  }

  /**
   A channel in the decoded answer has its naive count, and none left out has more. All of them are there whenever
   there are at most fifty, or the answer names fewer than fifty.
   */
  lemma ReportMeaning(opts: Options, docs: seq<Message>, channels: map<string, Activity>)
    requires opts.from <= opts.to && opts.to - opts.from <= 30 * 86400 * 1_000_000_000
    requires Evaluate(BuildQuery(opts).value, docs).Some?
    requires Decodes(Evaluate(BuildQuery(opts).value, docs).value, channels)
    ensures var from, to := opts.from / 1_000_000_000, opts.to / 1_000_000_000;
      && |channels| <= 50
      && (forall c | c in channels :: channels[c].total == Count(docs, opts.author, c, from, to) > 0)
      && (forall c, d | c in channels && d !in channels :: Count(docs, opts.author, d, from, to) <= channels[c].total)
      && (|channels| < 50 || |ChannelsOf(docs, opts.author, from, to)| <= 50 ==>
            channels.Keys == ChannelsOf(docs, opts.author, from, to))
  {
    var from, to := opts.from / 1_000_000_000, opts.to / 1_000_000_000;
    var q := BuildQuery(opts).value;
    assert q.filters == Filters(opts.author, from, to) && q.size == 50;
    AnswerMeaning(q, opts.author, from, to, docs, channels);
  }

  /** The same of any query for an author's messages in a window. */
  lemma AnswerMeaning(q: Query, author: string, from: int, to: int, docs: seq<Message>, channels: map<string, Activity>)
    requires q.filters == Filters(author, from, to) && Evaluate(q, docs).Some?
    requires Decodes(Evaluate(q, docs).value, channels)
    ensures |channels| <= q.size
    ensures forall c | c in channels :: channels[c].total == Count(docs, author, c, from, to) > 0
    ensures forall c, d | c in channels && d !in channels :: Count(docs, author, d, from, to) <= channels[c].total
    ensures |channels| < q.size || |ChannelsOf(docs, author, from, to)| <= q.size ==>
              channels.Keys == ChannelsOf(docs, author, from, to)
  {
    var hits := Hits(docs, q.filters);
    var names := Terms(hits, Channels(hits), q.size);
    DecodedNames(q, docs, channels);
    HitsMeaning(docs, author, from, to);
    TermsAreChannels(hits, Channels(hits), q.size);
    forall c, d | c in channels && d !in channels ensures |In(hits, d)| <= |In(hits, c)| {
      NoneHasMore(hits, Channels(hits), q.size, c, d);
    }
    NamesAreKeys(names, channels.Keys, hits, Channels(hits), q.size);
    if |Channels(hits)| <= q.size {
      AllWhenFew(hits, Channels(hits), q.size);
    }
  }

  lemma HitsMeaning(docs: seq<Message>, author: string, from: int, to: int)
    ensures var hits := Hits(docs, Filters(author, from, to));
      && Channels(hits) == ChannelsOf(docs, author, from, to)
      && forall c :: |In(hits, c)| == Count(docs, author, c, from, to) && (c in Channels(hits) <==> |In(hits, c)| > 0)
  {
    var hits := Hits(docs, Filters(author, from, to));
    forall c
      ensures |In(hits, c)| == Count(docs, author, c, from, to) && (c in Channels(hits) <==> |In(hits, c)| > 0)
      ensures c in Channels(hits) <==> c in ChannelsOf(docs, author, from, to)
    {
      HitsAreCounted(docs, author, c, from, to);
      ChannelHasHits(hits, c);
      CountedIsThere(docs, author, c, from, to);
    }
  }

  lemma NoneHasMore(hits: seq<Message>, channels: set<string>, size: nat, c: string, d: string)
    requires channels == Channels(hits) && c in Terms(hits, channels, size) && d !in Terms(hits, channels, size)
    ensures |In(hits, d)| <= |In(hits, c)|
  {
    ChannelHasHits(hits, d);
    if d in channels {
      var names := Terms(hits, channels, size);
      var i :| 0 <= i < |names| && names[i] == c;
      TermsAreTop(hits, channels, size, i, d);
    }
  }

  lemma NamesAreKeys(names: seq<string>, keys: set<string>, hits: seq<Message>, channels: set<string>, size: nat)
    requires names == Terms(hits, channels, size) && forall c :: c in keys <==> c in names
    ensures |keys| == (if |channels| <= size then |channels| else size)
  {
    TermsAreChannels(hits, channels, size);
    TermsAreDistinct(hits, channels, size);
    assert Enumerates(names, keys);
    EnumerationLength(names, keys);
  }

  lemma DecodedNames(q: Query, docs: seq<Message>, channels: map<string, Activity>)
    requires Evaluate(q, docs).Some? && Decodes(Evaluate(q, docs).value, channels)
    ensures var hits := Hits(docs, q.filters);
      && (forall c :: c in channels <==> c in Terms(hits, Channels(hits), q.size))
      && (forall c | c in channels :: channels[c].total == |In(hits, c)|)
  {
    var hits := Hits(docs, q.filters);
    var names := Terms(hits, Channels(hits), q.size);
    var buckets := Evaluate(q, docs).value;
    assert |buckets| == |names|;
    forall c | c in channels ensures c in names && channels[c].total == |In(hits, c)| {
      var i :| 0 <= i < |buckets| && DecidedBy(buckets, channels, c, i);
      assert names[i] == c;
    }
    forall i | 0 <= i < |names| ensures names[i] in channels { assert buckets[i].key == names[i]; }
  }

  /** The engine's histogram of hits inside the window: one bucket for every period of the window, in order. */
  lemma HistogramCovers(mine: seq<Message>, opts: Options)
    requires opts.from <= opts.to && UnitOf(opts.groupBy).Some?
    requires forall k | 0 <= k < |mine| :: Unix(opts.from) <= mine[k].timestamp <= Unix(opts.to)
    ensures var unit, h := UnitOf(opts.groupBy).value, BuildDateHistogram(opts).value;
      var first, last := Period(Unix(opts.from), unit), Period(Unix(opts.to), unit);
      && first <= last
      && Histogram(mine, h, unit) == Buckets(mine, h, unit, first, last)
      && InRange(mine, unit, first, last) == |mine|
  {
    var from, to := Unix(opts.from), Unix(opts.to);
    var unit := UnitOf(opts.groupBy).value;
    var first, last := Period(from, unit), Period(to, unit);
    SameWindow(opts.from, opts.groupBy);
    SameWindow(opts.to, opts.groupBy);
    BoundsCover(mine, opts.groupBy, from, to);
    PeriodMonotone(from, to, opts.groupBy);
    forall k | 0 <= k < |mine| ensures first <= Period(mine[k].timestamp, unit) <= last {
      PeriodMonotone(from, mine[k].timestamp, opts.groupBy);
      PeriodMonotone(mine[k].timestamp, to, opts.groupBy);
    }
    FullRange(mine, unit, first, last);
  }

  lemma DecodedHistogram(q: Query, docs: seq<Message>, channels: map<string, Activity>, c: string)
    requires Evaluate(q, docs).Some? && Decodes(Evaluate(q, docs).value, channels) && c in channels
    ensures var mine := In(Hits(docs, q.filters), c);
      && channels[c].total == |mine|
      && (q.byDate.None? ==> channels[c].distribution.None?)
      && (q.byDate.Some? ==>
        var interval := UnitOf(q.byDate.value.interval);
        && interval.Some?
        && channels[c].distribution == Some(EntriesOf(Histogram(mine, q.byDate.value, interval.value))))
  {
    var buckets := Evaluate(q, docs).value;
    var i :| 0 <= i < |buckets| && DecidedBy(buckets, channels, c, i);
  }

  /** One entry per period of the window, in order, empty periods included; each holds the naive count of its period. */
  function NaiveEntries(docs: seq<Message>, opts: Options, channel: string, unit: Unit): seq<Entry>
    requires opts.from <= opts.to
  {
    var first, last := Period(opts.from / 1_000_000_000, unit), Period(opts.to / 1_000_000_000, unit);
    seq(if first <= last then last - first + 1 else 0, k => NaiveEntry(docs, opts, channel, unit, first + k))
  }

  function NaiveEntry(docs: seq<Message>, opts: Options, channel: string, unit: Unit, period: int): Entry
  {
    Entry(Key(if opts.groupBy == "day" then "yyyy-MM-dd" else "yyyy-MM-dd HH:mm", StartOf(period, unit)),
          CountPeriod(docs, opts.author, channel, opts.from / 1_000_000_000, opts.to / 1_000_000_000, unit, period))
  }

  lemma EntriesAreNaive(docs: seq<Message>, opts: Options, c: string)
    requires opts.from <= opts.to && UnitOf(opts.groupBy).Some?
    ensures var unit, h := UnitOf(opts.groupBy).value, BuildDateHistogram(opts).value;
      var mine := In(Hits(docs, Filters(opts.author, Unix(opts.from), Unix(opts.to))), c);
      && EntriesOf(Histogram(mine, h, unit)) == NaiveEntries(docs, opts, c, unit)
      && Total(NaiveEntries(docs, opts, c, unit)) == |mine|
  {
    var from, to := Unix(opts.from), Unix(opts.to);
    var unit, h := UnitOf(opts.groupBy).value, BuildDateHistogram(opts).value;
    var first, last := Period(from, unit), Period(to, unit);
    var mine := In(Hits(docs, Filters(opts.author, from, to)), c);
    HitsAreCounted(docs, opts.author, c, from, to);
    HistogramCovers(mine, opts);
    EntriesAddUp(mine, h, unit, first, last);
    EntriesMatch(docs, opts, c, mine, first, last);
  }

  lemma EntriesMatch(docs: seq<Message>, opts: Options, c: string, mine: seq<Message>, first: int, last: int)
    requires opts.from <= opts.to && UnitOf(opts.groupBy).Some? && first <= last
    requires mine == In(Hits(docs, Filters(opts.author, Unix(opts.from), Unix(opts.to))), c)
    requires var unit := UnitOf(opts.groupBy).value;
      first == Period(Unix(opts.from), unit) && last == Period(Unix(opts.to), unit)
    ensures var unit, h := UnitOf(opts.groupBy).value, BuildDateHistogram(opts).value;
      EntriesOf(Buckets(mine, h, unit, first, last)) == NaiveEntries(docs, opts, c, unit)
  {
    var unit, h := UnitOf(opts.groupBy).value, BuildDateHistogram(opts).value;
    var b := Buckets(mine, h, unit, first, last);
    BucketsCover(mine, h, unit, first, last);
    NaiveAt(docs, opts, c, unit, first, last);
    forall k | 0 <= k < |b| ensures Entry(b[k].key, b[k].docCount) == NaiveEntry(docs, opts, c, unit, first + k) {
      EntryMatches(docs, opts, c, mine, unit, first + k);
    }
  }

  lemma NaiveAt(docs: seq<Message>, opts: Options, c: string, unit: Unit, first: int, last: int)
    requires opts.from <= opts.to && first <= last
    requires first == Period(Unix(opts.from), unit) && last == Period(Unix(opts.to), unit)
    ensures var naive := NaiveEntries(docs, opts, c, unit);
      && |naive| == last - first + 1
      && forall k | 0 <= k < |naive| :: naive[k] == NaiveEntry(docs, opts, c, unit, first + k)
  {
  }

  lemma EntryMatches(docs: seq<Message>, opts: Options, c: string, mine: seq<Message>, unit: Unit, period: int)
    requires opts.groupBy != "" && mine == In(Hits(docs, Filters(opts.author, Unix(opts.from), Unix(opts.to))), c)
    ensures Entry(Key(BuildDateHistogram(opts).value.format, StartOf(period, unit)), InPeriod(mine, unit, period))
              == NaiveEntry(docs, opts, c, unit, period)
  {
    PeriodsAreCounted(docs, opts.author, c, Unix(opts.from), Unix(opts.to), unit, period);
  }

  /** A grouped report has for each channel exactly the naive entries, and together they hold the channel's total. */
  lemma ReportPartition(opts: Options, docs: seq<Message>, channels: map<string, Activity>, c: string)
    requires opts.from <= opts.to && opts.to - opts.from <= 30 * 86400 * 1_000_000_000
    requires Evaluate(BuildQuery(opts).value, docs).Some?
    requires Decodes(Evaluate(BuildQuery(opts).value, docs).value, channels) && c in channels
    ensures opts.groupBy == "" ==> channels[c].distribution.None?
    ensures opts.groupBy != "" ==>
      var interval := UnitOf(opts.groupBy);
      && interval.Some?
      && channels[c].distribution == Some(NaiveEntries(docs, opts, c, interval.value))
      && Total(NaiveEntries(docs, opts, c, interval.value)) == channels[c].total
  {
    var q := BuildQuery(opts).value;
    assert q.filters == Filters(opts.author, Unix(opts.from), Unix(opts.to)) && q.byDate == BuildDateHistogram(opts);
    DecodedHistogram(q, docs, channels, c);
    if opts.groupBy != "" {
      EntriesAreNaive(docs, opts, c);
    }
  }

  function MaxEntries(unit: Unit): nat {
    match unit
    case Day => 31
    case Hour => 721
    case Minute => 43201
  }

  /**
   The thirty-day guard is a bound on entries: a channel of an accepted report has at most 31 days, 721 hours or 43201
   minutes, thirty days exactly have as many, and every range in order that is refused would have no fewer.
   */
  lemma ReportBound(opts: Options, docs: seq<Message>, c: string)
    requires opts.from <= opts.to && UnitOf(opts.groupBy).Some?
    ensures var unit := UnitOf(opts.groupBy).value;
      var entries := |NaiveEntries(docs, opts, c, unit)|;
      && (opts.to - opts.from <= 30 * 86400 * 1_000_000_000 ==>
        BuildQuery(opts).Ok? && 1 <= entries <= MaxEntries(unit))
      && (opts.to - opts.from == 30 * 86400 * 1_000_000_000 ==> entries == MaxEntries(unit))
      && (opts.to - opts.from > 30 * 86400 * 1_000_000_000 ==>
            BuildQuery(opts) == Err(MaxReportSizeExceeded) && entries >= MaxEntries(unit))
  {
    var unit := UnitOf(opts.groupBy).value;
    var first, last := Period(Unix(opts.from), unit), Period(Unix(opts.to), unit);
    PeriodMonotone(Unix(opts.from), Unix(opts.to), opts.groupBy);
    assert |NaiveEntries(docs, opts, c, unit)| == last - first + 1;
  }
}
