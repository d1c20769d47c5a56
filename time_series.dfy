/** The RedisTimeSeries behaviour the ledger relies on: a series keeps one sample per
    timestamp in timestamp order; adding at an existing timestamp follows the series'
    duplicate policy; range queries sum the samples between two bounds. Sample values are
    integers here (RedisTimeSeries stores doubles). */
module TimeSeries {
  import opened Wrappers

  /** BLOCK is the store's default (a duplicate timestamp is rejected); SUM adds the new
      value to the stored one. */
  datatype DuplicatePolicy = Block | Sum

  /** Timestamps are epoch milliseconds; the store's timestamps are unsigned. */
  datatype Sample = Sample(timestamp: nat, value: int)

  datatype Series = Series(labels: map<string, string>, policy: DuplicatePolicy, samples: seq<Sample>)

  /** Lower bound of a range query: `-` (the earliest sample) or a timestamp. */
  datatype RangeStart = Earliest | From(ms: nat)

  /** Upper bound of a range query: `+` (the latest sample) or a timestamp. */
  datatype RangeEnd = Latest | To(ms: nat)

  /** Bucket width, in ms, the summary script aggregates with. */
  const TimeBucket: nat := 9999999999999

  predicate Ordered(ss: seq<Sample>) {
    forall i, j :: 0 <= i < j < |ss| ==> ss[i].timestamp < ss[j].timestamp
  }

  /** Both bounds of a range query are inclusive. */
  predicate InRange(ts: nat, start: RangeStart, end: RangeEnd) {
    (start.Earliest? || start.ms <= ts) && (end.Latest? || ts <= end.ms)
  }

  /** Adds one sample to a timestamp-ordered sample list. */
  function Insert(ss: seq<Sample>, policy: DuplicatePolicy, ts: nat, v: int): (r: seq<Sample>)
    decreases |ss|
  {
    if ss == [] then [Sample(ts, v)]
    else if ts < ss[0].timestamp then [Sample(ts, v)] + ss
    else if ts == ss[0].timestamp then
      match policy
      case Sum => [Sample(ts, ss[0].value + v)] + ss[1..]
      case Block => ss
    else [ss[0]] + Insert(ss[1..], policy, ts, v)
  }

  /** TS.ADD / one sample of TS.MADD on an existing series. */
  function Add(s: Series, ts: nat, v: int): (r: Series)
    ensures r.labels == s.labels && r.policy == s.policy
  {
    s.(samples := Insert(s.samples, s.policy, ts, v))
  }

  /** The samples between the bounds, in order. */
  function Within(ss: seq<Sample>, start: RangeStart, end: RangeEnd): (r: seq<Sample>)
    ensures |r| <= |ss|
  {
    if ss == [] then []
    else (if InRange(ss[0].timestamp, start, end) then [ss[0]] else []) + Within(ss[1..], start, end)
  }

  function Total(ss: seq<Sample>): int {
    if ss == [] then 0 else ss[0].value + Total(ss[1..])
  }

  /** The sum of the sample values between the bounds. */
  function RangeSum(ss: seq<Sample>, start: RangeStart, end: RangeEnd): int {
    Total(Within(ss, start, end))
  }

  /** The samples whose aggregation bucket is `bucket`. */
  function InBucket(ss: seq<Sample>, bucket: nat): (r: seq<Sample>) {
    if ss == [] then []
    else (if ss[0].timestamp / TimeBucket == bucket then [ss[0]] else []) + InBucket(ss[1..], bucket)
  }

  /** The value of the first row of `TS.RANGE key start end AGGREGATION sum TimeBucket`:
      the rows are the non-empty buckets in time order, so the first is the bucket of the
      earliest sample in range. None when the range holds no sample (an empty reply). */
  function FirstBucketSum(ss: seq<Sample>, start: RangeStart, end: RangeEnd): (r: Option<int>)
    ensures r.None? <==> Within(ss, start, end) == []
  {
    var w := Within(ss, start, end);
    if w == [] then None else Some(Total(InBucket(w, w[0].timestamp / TimeBucket)))
  }

  /** The series as it stands after adding every sample of `log`, oldest first. */
  function Replay(s: Series, log: seq<Sample>): (r: Series)
    ensures r.labels == s.labels && r.policy == s.policy
  {
    if log == [] then s else Add(Replay(s, log[..|log| - 1]), log[|log| - 1].timestamp, log[|log| - 1].value)
  }

  predicate InOneBucket(ss: seq<Sample>) {
    forall i :: 0 <= i < |ss| ==> ss[i].timestamp < TimeBucket
  }

  // ---------------------------------------------------------------------------------
  // Lemmas

  /** Every timestamp is above `lo`. */
  predicate Above(ss: seq<Sample>, lo: int) {
    forall i :: 0 <= i < |ss| ==> lo < ss[i].timestamp
  }

  lemma {:induction false} InsertAbove(ss: seq<Sample>, policy: DuplicatePolicy, ts: nat, v: int, lo: int)
    requires Above(ss, lo) && lo < ts
    ensures Above(Insert(ss, policy, ts, v), lo)
    decreases |ss|
  {
    if ss != [] && ts > ss[0].timestamp {
      InsertAbove(ss[1..], policy, ts, v, lo);
    }
  }

  /** Adding a sample keeps the samples in strictly increasing timestamp order. */
  lemma {:induction false} InsertOrdered(ss: seq<Sample>, policy: DuplicatePolicy, ts: nat, v: int)
    requires Ordered(ss)
    ensures Ordered(Insert(ss, policy, ts, v))
    decreases |ss|
  {
    if ss != [] && ts > ss[0].timestamp {
      InsertOrdered(ss[1..], policy, ts, v);
      InsertAbove(ss[1..], policy, ts, v, ss[0].timestamp);
    }
  }

  lemma {:induction false} TotalAppend(a: seq<Sample>, b: seq<Sample>)
    ensures Total(a + b) == Total(a) + Total(b)
    decreases |a|
  {
    if a != [] {
      assert (a + b)[0] == a[0];
      assert (a + b)[1..] == a[1..] + b;
      TotalAppend(a[1..], b);
    } else {
      assert a + b == b;
    }
  }

  lemma {:induction false} WithinAppend(a: seq<Sample>, b: seq<Sample>, start: RangeStart, end: RangeEnd)
    ensures Within(a + b, start, end) == Within(a, start, end) + Within(b, start, end)
    decreases |a|
  {
    if a != [] {
      assert (a + b)[0] == a[0];
      assert (a + b)[1..] == a[1..] + b;
      WithinAppend(a[1..], b, start, end);
    } else {
      assert a + b == b;
    }
  }

  /** Under SUM, adding a sample raises every range sum that covers its timestamp by exactly
      its value, whether or not a sample already sits at that timestamp. */
  lemma {:induction false} SumPolicyAddsValue(ss: seq<Sample>, ts: nat, v: int, start: RangeStart, end: RangeEnd)
    ensures RangeSum(Insert(ss, Sum, ts, v), start, end) == RangeSum(ss, start, end) + (if InRange(ts, start, end) then v else 0)
    decreases |ss|
  {
    if ss == [] {
    } else if ts < ss[0].timestamp {
      WithinAppend([Sample(ts, v)], ss, start, end);
      TotalAppend(Within([Sample(ts, v)], start, end), Within(ss, start, end));
    } else if ts == ss[0].timestamp {
      WithinAppend([Sample(ts, ss[0].value + v)], ss[1..], start, end);
      TotalAppend(Within([Sample(ts, ss[0].value + v)], start, end), Within(ss[1..], start, end));
      assert ss == [ss[0]] + ss[1..];
      WithinAppend([ss[0]], ss[1..], start, end);
      TotalAppend(Within([ss[0]], start, end), Within(ss[1..], start, end));
    } else {
      SumPolicyAddsValue(ss[1..], ts, v, start, end);
      WithinAppend([ss[0]], Insert(ss[1..], Sum, ts, v), start, end);
      TotalAppend(Within([ss[0]], start, end), Within(Insert(ss[1..], Sum, ts, v), start, end));
      assert ss == [ss[0]] + ss[1..];
      WithinAppend([ss[0]], ss[1..], start, end);
      TotalAppend(Within([ss[0]], start, end), Within(ss[1..], start, end));
    }
  }

  /** A SUM series loses nothing: after a log of additions, every range sum equals what it
      was plus the sum of the added samples in that range, duplicates included. */
  lemma {:induction false} ReplaySum(s: Series, log: seq<Sample>, start: RangeStart, end: RangeEnd)
    requires s.policy == Sum
    ensures RangeSum(Replay(s, log).samples, start, end) == RangeSum(s.samples, start, end) + RangeSum(log, start, end)
    decreases |log|
  {
    if log != [] {
      var init, last := log[..|log| - 1], log[|log| - 1];
      ReplaySum(s, init, start, end);
      SumPolicyAddsValue(Replay(s, init).samples, last.timestamp, last.value, start, end);
      assert log == init + [last];
      WithinAppend(init, [last], start, end);
      TotalAppend(Within(init, start, end), Within([last], start, end));
    }
  }

  /** Under BLOCK a second sample at an occupied timestamp is dropped. */
  lemma BlockPolicyDropsDuplicate(ts: nat, v: int, w: int)
    ensures RangeSum(Insert(Insert([], Block, ts, v), Block, ts, w), Earliest, Latest) == v
  {
    var one := [Sample(ts, v)];
    assert Insert([], Block, ts, v) == one;
    assert Insert(one, Block, ts, w) == one;
    assert one[1..] == [];
    assert Within(one, Earliest, Latest) == one;
    assert Total(one) == v + Total([]);
  }

  lemma {:induction false} InBucketZero(ss: seq<Sample>)
    requires InOneBucket(ss)
    ensures InBucket(ss, 0) == ss
    decreases |ss|
  {
    if ss != [] {
      assert ss[0].timestamp / TimeBucket == 0;
      InBucketZero(ss[1..]);
      assert ss == [ss[0]] + ss[1..];
    }
  }

  lemma {:induction false} WithinKeepsBucket(ss: seq<Sample>, start: RangeStart, end: RangeEnd)
    requires InOneBucket(ss)
    ensures InOneBucket(Within(ss, start, end))
    decreases |ss|
  {
    if ss != [] {
      WithinKeepsBucket(ss[1..], start, end);
    }
  }

  /** While every timestamp lies in the first aggregation bucket (any instant before the
      year 2286), the aggregated query's first row is the whole range sum. */
  lemma AggregateIsRangeSum(ss: seq<Sample>, start: RangeStart, end: RangeEnd)
    requires InOneBucket(ss)
    ensures FirstBucketSum(ss, start, end) ==
            (if Within(ss, start, end) == [] then None else Some(RangeSum(ss, start, end)))
  {
    var w := Within(ss, start, end);
    WithinKeepsBucket(ss, start, end);
    if w != [] {
      assert w[0].timestamp / TimeBucket == 0;
      InBucketZero(w);
    }
  }

  /** An empty range sums to zero. */
  lemma {:induction false} EmptyRangeSumsToZero(ss: seq<Sample>, start: RangeStart, end: RangeEnd)
    requires Within(ss, start, end) == []
    ensures RangeSum(ss, start, end) == 0
  {
  }
}
