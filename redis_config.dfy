/** Store initialisation from the Redis configuration: the four ledger series are created
    when absent, with duplicate policy SUM and `type`/`processor` labels. The template and
    listener beans are wiring and are not modelled. */
module RedisConfig {
  import opened Store
  import opened TimeSeries

  const DefaultAmountKey: string := "payments:amount:ts:default"
  const DefaultCountKey: string := "payments:count:ts:default"
  const FallbackAmountKey: string := "payments:amount:ts:fallback"
  const FallbackCountKey: string := "payments:count:ts:fallback"

  /** The four series keys, in the order the initializer creates them. */
  const LedgerKeys: seq<string> := [DefaultAmountKey, DefaultCountKey, FallbackAmountKey, FallbackCountKey]

  function Labels(kind: string, processor: string): (r: map<string, string>)
    ensures r.Keys == {"type", "processor"} && r["type"] == kind && r["processor"] == processor
  {
    map["type" := kind, "processor" := processor]
  }

  /** The labels the initializer gives the series at `LedgerKeys[i]`. */
  function LedgerLabels(i: nat): map<string, string>
    requires i < 4
  {
    Labels(if i % 2 == 0 then "amount" else "count", if i < 2 then "default" else "fallback")
  }

  /** The series map after the create-if-absent script ran on `key` against a store in
      which `exists` tells whether the key exists. */
  function CreatedIfAbsent(series: map<string, Series>, present: bool, key: string, labels: map<string, string>): (r: map<string, Series>)
    ensures present ==> r == series
    ensures !present ==> r.Keys == series.Keys + {key} && r[key] == Series(labels, Sum, [])
    ensures forall k :: k in series && k != key ==> k in r && r[k] == series[k]
  {
    if present then series else series[key := Series(labels, Sum, [])]
  }

  /** The create-if-absent script: EXISTS, then TS.CREATE with DUPLICATE_POLICY SUM and the
      two labels, or nothing. Either way the reply is OK. */
  method CreateTimeSeriesIfNotExists(store: SharedStore, key: string, labelName1: string, labelValue1: string,
                                     labelName2: string, labelValue2: string) returns (reply: string)
    modifies store`series
    ensures store.series == CreatedIfAbsent(old(store.series), old(store.Exists(key)), key,
                                            map[labelName1 := labelValue1, labelName2 := labelValue2])
    ensures reply == "OK"
  {
    if !store.Exists(key) {
      store.CreateSeries(key, Sum, map[labelName1 := labelValue1, labelName2 := labelValue2]);
    }
    reply := "OK";
  }

  /** The series map after the initializer, where `present[i]` tells whether
      `LedgerKeys[i]` existed beforehand. */
  function Initialized(series: map<string, Series>, present: seq<bool>): map<string, Series>
    requires |present| == 4
  {
    Steps(series, present, 4)
  }

  /** The time-series initializer: four create-if-absent calls, one per ledger key. */
  method InitializeTimeSeries(store: SharedStore)
    modifies store`series
    ensures store.series == Initialized(old(store.series), old(LedgerPresence(store)))
  {
    LedgerKeysDistinct();
    ghost var present, before := LedgerPresence(store), store.series;
    var r := CreateTimeSeriesIfNotExists(store, DefaultAmountKey, "type", "amount", "processor", "default");
    assert store.series == Steps(before, present, 1);
    assert store.Exists(DefaultCountKey) == present[1];
    r := CreateTimeSeriesIfNotExists(store, DefaultCountKey, "type", "count", "processor", "default");
    assert store.series == Steps(before, present, 2);
    assert store.Exists(FallbackAmountKey) == present[2];
    r := CreateTimeSeriesIfNotExists(store, FallbackAmountKey, "type", "amount", "processor", "fallback");
    assert store.series == Steps(before, present, 3);
    assert store.Exists(FallbackCountKey) == present[3];
    r := CreateTimeSeriesIfNotExists(store, FallbackCountKey, "type", "count", "processor", "fallback");
    assert store.series == Steps(before, present, 4);
  }

  /** Which of the four ledger keys exist in the store. */
  function LedgerPresence(store: SharedStore): (r: seq<bool>)
    reads store
    ensures |r| == 4 && forall i :: 0 <= i < 4 ==> r[i] == store.Exists(LedgerKeys[i])
  {
    [store.Exists(DefaultAmountKey), store.Exists(DefaultCountKey),
     store.Exists(FallbackAmountKey), store.Exists(FallbackCountKey)]
  }

  /** What initialisation leaves: every ledger key that did not exist now holds an empty SUM
      series with its `type` and `processor` labels; every series that was there is kept;
      nothing else is created. (A key holding a series exists, hence the requirement.) */
  lemma InitializedSeries(series: map<string, Series>, present: seq<bool>)
    requires |present| == 4
    requires forall i :: 0 <= i < 4 && LedgerKeys[i] in series ==> present[i]
    ensures forall i :: 0 <= i < 4 && !present[i] ==>
              LedgerKeys[i] in Initialized(series, present) &&
              Initialized(series, present)[LedgerKeys[i]] == Series(LedgerLabels(i), Sum, [])
    ensures forall k :: k in series ==> k in Initialized(series, present) && Initialized(series, present)[k] == series[k]
    ensures forall k :: k in Initialized(series, present) ==> k in series || k in LedgerKeys
  {
    LedgerKeysDistinct();
    var m := series;
    var i := 0;
    while i < 4
      invariant 0 <= i <= 4
      invariant forall j :: 0 <= j < i && !present[j] ==> LedgerKeys[j] in m && m[LedgerKeys[j]] == Series(LedgerLabels(j), Sum, [])
      invariant forall k :: k in series ==> k in m && m[k] == series[k]
      invariant forall k :: k in m ==> k in series || k in LedgerKeys[..i]
      invariant m == Steps(series, present, i)
    {
      m := CreatedIfAbsent(m, present[i], LedgerKeys[i], LedgerLabels(i));
      i := i + 1;
    }
  }

  /** The series map after the first `n` creates of the initializer. */
  function Steps(series: map<string, Series>, present: seq<bool>, n: nat): map<string, Series>
    requires |present| == 4 && n <= 4
  {
    if n == 0 then series
    else CreatedIfAbsent(Steps(series, present, n - 1), present[n - 1], LedgerKeys[n - 1], LedgerLabels(n - 1))
  }

  /** Initialisation is idempotent: once every ledger key exists nothing is created again,
      and the first run makes every ledger key that did not exist hold a series. */
  lemma InitializeIdempotent(series: map<string, Series>, present: seq<bool>)
    requires |present| == 4
    requires forall i :: 0 <= i < 4 && LedgerKeys[i] in series ==> present[i]
    ensures (forall i :: 0 <= i < 4 ==> present[i]) ==> Initialized(series, present) == series
    ensures forall i :: 0 <= i < 4 ==> (present[i] || LedgerKeys[i] in Initialized(series, present))
  {
    InitializedSeries(series, present);
    if forall i :: 0 <= i < 4 ==> present[i] {
      assert Steps(series, present, 1) == series;
      assert Steps(series, present, 2) == series;
      assert Steps(series, present, 3) == series;
    }
  }

  /** The four keys are pairwise different, so each create decides on its own key. */
  lemma LedgerKeysDistinct()
    ensures forall i, j :: 0 <= i < j < 4 ==> LedgerKeys[i] != LedgerKeys[j]
  {
    assert DefaultAmountKey[9] != DefaultCountKey[9];
    assert DefaultAmountKey[19] != FallbackAmountKey[19];
    assert DefaultCountKey[18] != FallbackCountKey[18];
    assert DefaultAmountKey[9] != FallbackCountKey[9];
    assert DefaultCountKey[9] != FallbackAmountKey[9];
    assert FallbackAmountKey[9] != FallbackCountKey[9];
  }
}
