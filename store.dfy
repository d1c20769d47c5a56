/** The shared store as the gateway uses it: string keys, health-status values, time series,
    the one list (the retry queue at `payments:processing-queue`) and a publish log. Each
    keyspace is a field the primitive operations reassign. List index 0 is the left end. */
module Store {
  import opened Wrappers
  import opened Model
  import opened TimeSeries

  const ProcessingQueueKey: string := "payments:processing-queue"

  /** A message published on a channel. */
  datatype Message = Message(channel: string, payload: string)

  function Reverse<T>(s: seq<T>): (r: seq<T>)
    ensures |r| == |s|
  {
    if s == [] then [] else Reverse(s[1..]) + [s[0]]
  }

  function Min(a: nat, b: nat): nat {
    if a <= b then a else b
  }

  /** RPOP with a count on a list: up to `count` elements leave from the right end, the
      rightmost first; the rest stays in order. */
  function PopRight<T>(q: seq<T>, count: nat): (r: (seq<T>, seq<T>))
    ensures |r.0| == Min(count, |q|)
    ensures r.1 + Reverse(r.0) == q
  {
    var k := Min(count, |q|);
    ReverseTwice(q[|q| - k..]);
    assert q == q[..|q| - k] + q[|q| - k..];
    (Reverse(q[|q| - k..]), q[..|q| - k])
  }

  lemma {:induction false} ReverseAppend<T>(a: seq<T>, b: seq<T>)
    ensures Reverse(a + b) == Reverse(b) + Reverse(a)
    decreases |a|
  {
    if a == [] {
      assert a + b == b;
    } else {
      assert (a + b)[0] == a[0];
      assert (a + b)[1..] == a[1..] + b;
      ReverseAppend(a[1..], b);
    }
  }

  lemma {:induction false} ReverseTwice<T>(s: seq<T>)
    ensures Reverse(Reverse(s)) == s
    decreases |s|
  {
    if s != [] {
      ReverseTwice(s[1..]);
      ReverseAppend(Reverse(s[1..]), [s[0]]);
      assert s == [s[0]] + s[1..];
    }
  }

  class SharedStore {
    var strings: map<string, string>
    var statuses: map<string, HealthStatusValue>
    var series: map<string, Series>
    var queue: seq<QueuedEntry>
    var published: seq<Message>

    constructor ()
      ensures strings == map[] && statuses == map[] && series == map[]
      ensures queue == [] && published == []
    {
      strings, statuses, series := map[], map[], map[];
      queue, published := [], [];
    }

    /** EXISTS: a key exists in some keyspace; an empty list does not exist. */
    predicate Exists(key: string)
      reads this
    {
      key in strings || key in statuses || key in series || (key == ProcessingQueueKey && queue != [])
    }

    /** SET on a string key. */
    method Set(key: string, value: string)
      modifies this`strings
      ensures strings == old(strings)[key := value]
    {
      strings := strings[key := value];
    }

    /** MGET: one entry per requested key, None for a missing key. */
    method MultiGet(keys: seq<string>) returns (values: seq<Option<string>>)
      ensures |values| == |keys|
      ensures forall i :: 0 <= i < |keys| ==> values[i] == Get(strings, keys[i])
    {
      values := [];
      for i := 0 to |keys|
        invariant |values| == i
        invariant forall j :: 0 <= j < i ==> values[j] == Get(strings, keys[j])
      {
        values := values + [Get(strings, keys[i])];
      }
    }

    /** SET of a serialized health status. */
    method SetStatus(key: string, value: HealthStatusValue)
      modifies this`statuses
      ensures statuses == old(statuses)[key := value]
    {
      statuses := statuses[key := value];
    }

    /** LPUSH onto the retry queue. */
    method LeftPush(entry: QueuedEntry)
      modifies this`queue
      ensures queue == [entry] + old(queue)
    {
      queue := [entry] + queue;
    }

    /** RPOP with a count on the retry queue. */
    method RightPop(count: nat) returns (popped: seq<QueuedEntry>)
      modifies this`queue
      ensures (popped, queue) == PopRight(old(queue), count)
    {
      var r := PopRight(queue, count);
      popped, queue := r.0, r.1;
    }

    /** PUBLISH. */
    method Publish(channel: string, payload: string)
      modifies this`published
      ensures published == old(published) + [Message(channel, payload)]
    {
      published := published + [Message(channel, payload)];
    }

    /** TS.CREATE of an empty series. */
    method CreateSeries(key: string, policy: DuplicatePolicy, labels: map<string, string>)
      modifies this`series
      ensures series == old(series)[key := Series(labels, policy, [])]
    {
      series := series[key := Series(labels, policy, [])];
    }

    /** One sample of TS.MADD; a key that holds no series is left alone (the command reports
        an error for that sample only). */
    method AddSample(key: string, ts: nat, value: int)
      modifies this`series
      ensures series == AddIfPresent(old(series), key, ts, value)
    {
      if key in series {
        series := series[key := Add(series[key], ts, value)];
      }
    }
  }

  function AddIfPresent(m: map<string, Series>, key: string, ts: nat, value: int): (r: map<string, Series>)
    ensures r.Keys == m.Keys
    ensures forall k :: k in m && k != key ==> r[k] == m[k]
    ensures key in m ==> r[key] == Add(m[key], ts, value)
  {
    if key in m then m[key := Add(m[key], ts, value)] else m
  }

  // ---------------------------------------------------------------------------------
  // Queue order: LPUSH at one end, RPOP at the other.

  /** A list built by left-pushing `history` one entry at a time, oldest first. */
  function PushedAll<T>(q: seq<T>, history: seq<T>): seq<T>
  {
    if history == [] then q else [history[|history| - 1]] + PushedAll(q, history[..|history| - 1])
  }

  lemma {:induction false} PushedAllIsReverse<T>(history: seq<T>)
    ensures PushedAll([], history) == Reverse(history)
    decreases |history|
  {
    if history != [] {
      var init, last := history[..|history| - 1], history[|history| - 1];
      PushedAllIsReverse(init);
      assert history == init + [last];
      ReverseAppend(init, [last]);
    }
  }

  /** FIFO: after the entries of `history` were pushed on the left of an empty list, a right
      pop of k of them returns the k oldest in arrival order and leaves the rest as if only
      they had been pushed. */
  lemma DrainIsFifo<T>(history: seq<T>, k: nat)
    requires k <= |history|
    ensures PopRight(PushedAll([], history), k) == (history[..k], PushedAll([], history[k..]))
  {
    PushedAllIsReverse(history);
    PushedAllIsReverse(history[k..]);
    PopReversed(history, k);
  }

  /** Right-popping k entries of a reversed history returns its first k entries in order. */
  lemma PopReversed<T>(history: seq<T>, k: nat)
    requires k <= |history|
    ensures PopRight(Reverse(history), k) == (history[..k], Reverse(history[k..]))
  {
    ReverseSplit(history, k);
    PopRightOfSuffix(Reverse(history[k..]), Reverse(history[..k]));
    ReverseTwice(history[..k]);
  }

  lemma ReverseSplit<T>(history: seq<T>, k: nat)
    requires k <= |history|
    ensures Reverse(history) == Reverse(history[k..]) + Reverse(history[..k])
  {
    assert history == history[..k] + history[k..];
    ReverseAppend(history[..k], history[k..]);
  }

  /** Popping exactly as many entries as a right part holds returns that part reversed. */
  lemma PopRightOfSuffix<T>(left: seq<T>, right: seq<T>)
    ensures PopRight(left + right, |right|) == (Reverse(right), left)
  {
    var q := left + right;
    assert q[|left|..] == right;
    assert q[..|left|] == left;
  }
}
