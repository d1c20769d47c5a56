/** The payment dispatcher and the summary ledger. Given the cached health flags a payment
    is offered to the default processor, then to the fallback, skipping any processor that
    is down; a 2xx reply followed by a successful ledger write settles it, and otherwise the
    unchanged payment goes back on the retry queue. Each upstream reply, each ledger write
    failure and the clock are parameters. */
module PaymentService {
  import opened Wrappers
  import opened Numeric
  import opened Model
  import opened TimeSeries
  import opened Store
  import opened Health
  import RedisConfig

  const PaymentsAmountTsKey: string := "payments:amount:ts"
  const PaymentsCountTsKey: string := "payments:count:ts"

  datatype Processor = Default | Fallback

  function ProcessorKey(p: Processor): string {
    match p
    case Default => "default"
    case Fallback => "fallback"
  }

  function AmountKey(p: Processor): string {
    PaymentsAmountTsKey + ":" + ProcessorKey(p)
  }

  function CountKey(p: Processor): string {
    PaymentsCountTsKey + ":" + ProcessorKey(p)
  }

  /** The keys the summary script reads, in its KEYS order. */
  const SummaryKeys: seq<string> := [AmountKey(Default), CountKey(Default), AmountKey(Fallback), CountKey(Fallback)]

  // ---------------------------------------------------------------------------------
  // One attempt

  /** An HTTP status code as the web client represents it. */
  type StatusCode = c: int | 100 <= c <= 999 witness 200

  predicate Is2xx(c: StatusCode) { c / 100 == 2 }

  /** A 4xx or 5xx code. */
  predicate IsError(c: StatusCode) { c / 100 == 4 || c / 100 == 5 }

  /** What the payment request to a processor produced: a response with a status, or an
      exception (timeout, transport failure). */
  datatype UpstreamReply = Status(code: StatusCode) | Failed

  /** The inputs one attempt depends on: the upstream reply and, should the reply be 2xx,
      whether the ledger write went through. */
  datatype Attempt = Attempt(reply: UpstreamReply, persisted: bool)

  /** The reactive Boolean an attempt yields: true, false, or no value. */
  datatype Emitted = EmitsTrue | EmitsFalse | EmitsNothing

  /** An attempt yields true exactly after a 2xx reply whose ledger write succeeded; no value
      after an error status, an exception, or a failed write; false after any other status. */
  function SendResult(a: Attempt): (r: Emitted)
    ensures r == EmitsTrue <==> a.reply.Status? && Is2xx(a.reply.code) && a.persisted
    ensures r == EmitsFalse <==> a.reply.Status? && !Is2xx(a.reply.code) && !IsError(a.reply.code)
  {
    match a.reply
    case Failed => EmitsNothing
    case Status(code) =>
      if Is2xx(code) then (if a.persisted then EmitsTrue else EmitsNothing)
      else if IsError(code) then EmitsNothing
      else EmitsFalse
  }

  /** An attempt counts as success when its value survives the filter on `true`: false and no
      value alike fall through to the next step. */
  predicate Succeeded(a: Attempt) {
    SendResult(a) == EmitsTrue
  }

  // ---------------------------------------------------------------------------------
  // Routing

  /** The processors a payment is offered to, in order: each available one, default first. */
  function AttemptOrder(defaultUp: bool, fallbackUp: bool): (order: seq<Processor>)
    ensures Default in order <==> defaultUp
    ensures Fallback in order <==> fallbackUp
    ensures |order| <= 2 && (|order| == 2 ==> order == [Default, Fallback])
    ensures forall i, j :: 0 <= i < j < |order| ==> order[i] != order[j]
  {
    (if defaultUp then [Default] else []) + (if fallbackUp then [Fallback] else [])
  }

  datatype Outcome = Settled(processor: Processor) | Requeued

  /** The processors actually called, in order, and how the payment ended. */
  datatype DispatchResult = DispatchResult(attempted: seq<Processor>, outcome: Outcome)

  function AttemptFor(p: Processor, defaultAttempt: Attempt, fallbackAttempt: Attempt): Attempt {
    if p == Default then defaultAttempt else fallbackAttempt
  }

  /** Offers the payment along `order` until one attempt succeeds. The processors called are
      a prefix of the order; every call but the last failed; the payment is settled by the
      last one called exactly when that one succeeded, and requeued exactly when every
      processor of the order was called and failed. */
  function RunAttempts(order: seq<Processor>, defaultAttempt: Attempt, fallbackAttempt: Attempt): (r: DispatchResult)
    ensures |r.attempted| <= |order| && r.attempted == order[..|r.attempted|]
    ensures forall i :: 0 <= i < |r.attempted| - 1 ==> !Succeeded(AttemptFor(r.attempted[i], defaultAttempt, fallbackAttempt))
    ensures r.outcome.Settled? <==>
            r.attempted != [] && Succeeded(AttemptFor(r.attempted[|r.attempted| - 1], defaultAttempt, fallbackAttempt))
    ensures r.outcome.Settled? ==> r.outcome.processor == r.attempted[|r.attempted| - 1]
    ensures r.outcome.Requeued? <==>
            r.attempted == order && forall i :: 0 <= i < |order| ==> !Succeeded(AttemptFor(order[i], defaultAttempt, fallbackAttempt))
    decreases |order|
  {
    if order == [] then DispatchResult([], Requeued)
    else if Succeeded(AttemptFor(order[0], defaultAttempt, fallbackAttempt)) then DispatchResult([order[0]], Settled(order[0]))
    else
      var rest := RunAttempts(order[1..], defaultAttempt, fallbackAttempt);
      DispatchResult([order[0]] + rest.attempted, rest.outcome)
  }

  /** The routing decision of one dispatch. */
  function Dispatch(defaultUp: bool, fallbackUp: bool, defaultAttempt: Attempt, fallbackAttempt: Attempt): (r: DispatchResult)
    ensures r.attempted == [] <==> !(defaultUp || fallbackUp)
    ensures r.outcome.Settled? ==> Succeeded(AttemptFor(r.outcome.processor, defaultAttempt, fallbackAttempt))
  {
    RunAttempts(AttemptOrder(defaultUp, fallbackUp), defaultAttempt, fallbackAttempt)
  }

  // ---------------------------------------------------------------------------------
  // Money

  /** amount * 100 truncated toward zero, as BigDecimal.longValue truncates before narrowing. */
  function Hundredfold(amount: Decimal): (t: int)
    ensures amount.scale <= 0 ==> t == amount.unscaled * 100 * Pow10(-amount.scale)
    ensures amount.scale > 0 && amount.unscaled >= 0 ==>
              t * Pow10(amount.scale) <= amount.unscaled * 100 < (t + 1) * Pow10(amount.scale)
    ensures amount.scale > 0 && amount.unscaled < 0 ==>
              (t - 1) * Pow10(amount.scale) < amount.unscaled * 100 <= t * Pow10(amount.scale)
  {
    if amount.scale <= 0 then amount.unscaled * 100 * Pow10(-amount.scale)
    else TruncDiv(amount.unscaled * 100, Pow10(amount.scale))
  }

  /** The integer cents written to the ledger: the truncated hundredfold, narrowed to long. */
  function Cents(amount: Decimal): (c: Int64)
    ensures IsLong(Hundredfold(amount)) ==> c == Hundredfold(amount)
    ensures (Hundredfold(amount) - c) % TWO_TO_64 == 0
  {
    WrapToLong(Hundredfold(amount))
  }

  /** cents / 100 at scale 2, exactly (the division never needs rounding); multiplying it back
      by 100 gives the cents. */
  function AmountOfCents(cents: Int64): (d: Decimal)
    ensures d.scale == 2 && d.unscaled == cents
    ensures Cents(d) == cents
  {
    CentsRoundTrip(cents);
    Decimal(cents, 2)
  }

  lemma CentsRoundTrip(cents: Int64)
    ensures Hundredfold(Decimal(cents, 2)) == cents
  {
    assert Pow10(2) == 100 by {
      assert Pow10(1) == 10;
    }
    TruncDivExact(cents, 100);
  }

  /** Dividing an exact multiple truncates nothing. */
  lemma TruncDivExact(m: int, b: int)
    requires b > 0
    ensures TruncDiv(m * b, b) == m
  {
    if m >= 0 {
      MulSign(m, b);
      DivExact(m, b);
    } else {
      assert -(m * b) == (-m) * b;
      MulSign(-m, b);
      DivExact(-m, b);
    }
  }

  lemma DivExact(m: nat, b: int)
    requires b > 0
    ensures (m * b) / b == m
  {
    var q, r := (m * b) / b, (m * b) % b;
    assert m * b == q * b + r && 0 <= r < b;
    assert (m - q) * b == m * b - q * b;
    MulSign(m - q, b);
  }

  /** A nonzero multiple of b is at least b away from zero. */
  lemma MulSign(x: int, b: int)
    requires b > 0
    ensures x >= 0 ==> x * b >= 0
    ensures x >= 1 ==> x * b >= b
    ensures x <= -1 ==> x * b <= -b
  {
    if x >= 1 {
      assert x * b == (x - 1) * b + b;
    } else if x <= -1 {
      assert x * b == (x + 1) * b - b;
    }
  }

  // ---------------------------------------------------------------------------------
  // Ledger

  /** The ledger write of a settled payment: its cents to the processor's amount series and
      1 to its count series, both at the request timestamp. */
  function Persisted(series: map<string, Series>, p: Processor, ts: nat, cents: int): (r: map<string, Series>)
    ensures r.Keys == series.Keys
    ensures AmountKey(p) in series ==> r[AmountKey(p)] == Add(series[AmountKey(p)], ts, cents)
    ensures CountKey(p) in series ==> r[CountKey(p)] == Add(series[CountKey(p)], ts, 1)
    ensures forall k :: k in series && k != AmountKey(p) && k != CountKey(p) ==> r[k] == series[k]
  {
    LedgerKeysDiffer(p);
    AddIfPresent(AddIfPresent(series, AmountKey(p), ts, cents), CountKey(p), ts, 1)
  }

  /** The two parts of the store a dispatch touches. */
  datatype Ledger = Ledger(queue: seq<QueuedEntry>, series: map<string, Series>)

  /** The outside inputs to one dispatch: the clock and each processor's reply. */
  datatype DispatchEnv = DispatchEnv(requestedAt: nat, defaultAttempt: Attempt, fallbackAttempt: Attempt)

  /** A dispatch's effect on the store: exactly one of a ledger write for the processor that
      settled the payment, or one push of the unchanged payment onto the queue. */
  function Settle(l: Ledger, payment: QueuedEntry, defaultUp: bool, fallbackUp: bool, env: DispatchEnv): (r: Ledger)
    ensures r.queue == [payment] + l.queue || r.queue == l.queue
    ensures r.queue != l.queue <==> Dispatch(defaultUp, fallbackUp, env.defaultAttempt, env.fallbackAttempt).outcome.Requeued?
    ensures r.queue != l.queue ==> r.series == l.series
    ensures var o := Dispatch(defaultUp, fallbackUp, env.defaultAttempt, env.fallbackAttempt).outcome;
            o.Settled? ==> r == Ledger(l.queue, Persisted(l.series, o.processor, env.requestedAt, Cents(payment.amount)))
  {
    match Dispatch(defaultUp, fallbackUp, env.defaultAttempt, env.fallbackAttempt).outcome
    case Settled(p) => Ledger(l.queue, Persisted(l.series, p, env.requestedAt, Cents(payment.amount)))
    case Requeued =>
      assert |[payment] + l.queue| != |l.queue|;
      Ledger([payment] + l.queue, l.series)
  }

  // ---------------------------------------------------------------------------------
  // Summary

  datatype Summary = Summary(totalRequests: Int64, totalAmount: Decimal)
  datatype PaymentsSummary = PaymentsSummary(defaultSummary: Summary, fallbackSummary: Summary)

  /** An absent `from` becomes `-`. */
  function StartArg(from: Option<nat>): (r: RangeStart)
    ensures r.Earliest? <==> from.None?
    ensures from.Some? ==> r == From(from.value)
  {
    match from
    case None => Earliest
    case Some(ms) => From(ms)
  }

  /** An absent `to` becomes `+`. */
  function EndArg(to: Option<nat>): (r: RangeEnd)
    ensures r.Latest? <==> to.None?
    ensures to.Some? ==> r == To(to.value)
  {
    match to
    case None => Latest
    case Some(ms) => To(ms)
  }

  /** One slot of the summary script: the first aggregated row's value, 0 for an empty reply. */
  function Slot(s: Series, start: RangeStart, end: RangeEnd): (r: int)
    ensures Within(s.samples, start, end) == [] ==> r == 0
    ensures InOneBucket(s.samples) ==> r == RangeSum(s.samples, start, end)
  {
    var v := match FirstBucketSum(s.samples, start, end)
      case None => 0
      case Some(v) => v;
    if InOneBucket(s.samples) then
      AggregateIsRangeSum(s.samples, start, end);
      v
    else
      v
  }

  /** The summary script's reply: [defaultCount, defaultCents, fallbackCount, fallbackCents]
      read from KEYS = [default amount, default count, fallback amount, fallback count]; None
      when a range query fails because its key holds no series. */
  function SummaryScript(series: map<string, Series>, keys: seq<string>, start: RangeStart, end: RangeEnd): (r: Option<seq<int>>)
    requires |keys| == 4
    ensures r.Some? <==> forall i :: 0 <= i < 4 ==> keys[i] in series
    ensures r.Some? ==> |r.value| == 4
    ensures r.Some? ==> r.value[0] == Slot(series[keys[1]], start, end) && r.value[1] == Slot(series[keys[0]], start, end)
    ensures r.Some? ==> r.value[2] == Slot(series[keys[3]], start, end) && r.value[3] == Slot(series[keys[2]], start, end)
  {
    if keys[0] in series && keys[1] in series && keys[2] in series && keys[3] in series then
      Some([Slot(series[keys[1]], start, end), Slot(series[keys[0]], start, end),
            Slot(series[keys[3]], start, end), Slot(series[keys[2]], start, end)])
    else None
  }

  /** The summary the service builds from the script's reply: a 4-slot reply of longs gives
      per-processor count and amount; a reply of any other length gives zeros; a slot that is
      not a long makes the parse throw (None). */
  function SummaryOf(results: seq<int>): (r: Option<PaymentsSummary>)
    ensures |results| != 4 ==> r == Some(PaymentsSummary(Summary(0, Decimal(0, 2)), Summary(0, Decimal(0, 2))))
    ensures |results| == 4 ==> (r.Some? <==> forall i :: 0 <= i < 4 ==> IsLong(results[i]))
    ensures |results| == 4 && r.Some? ==>
              r.value.defaultSummary.totalRequests == results[0] && Cents(r.value.defaultSummary.totalAmount) == results[1] &&
              r.value.fallbackSummary.totalRequests == results[2] && Cents(r.value.fallbackSummary.totalAmount) == results[3]
    ensures r.Some? ==> r.value.defaultSummary.totalAmount.scale == 2 && r.value.fallbackSummary.totalAmount.scale == 2
  {
    if |results| != 4 then
      Some(PaymentsSummary(Summary(0, AmountOfCents(0)), Summary(0, AmountOfCents(0))))
    else if IsLong(results[0]) && IsLong(results[1]) && IsLong(results[2]) && IsLong(results[3]) then
      Some(PaymentsSummary(Summary(results[0], AmountOfCents(results[1])), Summary(results[2], AmountOfCents(results[3]))))
    else None
  }

  class PaymentService {
    const store: SharedStore
    const monitor: ProcessorHealthMonitor

    constructor (store: SharedStore, monitor: ProcessorHealthMonitor)
      ensures this.store == store && this.monitor == monitor
    {
      this.store := store;
      this.monitor := monitor;
    }

    /** Dispatches one payment along the routing policy. */
    method ProcessPayment(payment: QueuedPayment, env: DispatchEnv)
      modifies store`queue, store`series
      ensures Ledger(store.queue, store.series) ==
              Settle(Ledger(old(store.queue), old(store.series)), old(payment.Snapshot()),
                     monitor.defaultAvailable, monitor.fallbackAvailable, env)
    {
      var isDefaultUp := monitor.IsDefaultProcessorAvailable();
      var isFallbackUp := monitor.IsFallbackProcessorAvailable();
      var paymentSent := new PaymentSent(payment, env.requestedAt);
      if isDefaultUp && isFallbackUp {
        var r := TrySendAndPersist(Default, paymentSent, env.defaultAttempt);
        if r != EmitsTrue {
          r := TrySendAndPersist(Fallback, paymentSent, env.fallbackAttempt);
          if r != EmitsTrue {
            r := Requeue(payment);
          }
        }
      } else if isDefaultUp {
        var r := TrySendAndPersist(Default, paymentSent, env.defaultAttempt);
        if r != EmitsTrue {
          r := Requeue(payment);
        }
      } else if isFallbackUp {
        var r := TrySendAndPersist(Fallback, paymentSent, env.fallbackAttempt);
        if r != EmitsTrue {
          r := Requeue(payment);
        }
      } else {
        QueuePayment(payment);
      }
    }

    /** LPUSH of the payment, as it is, onto the retry queue. */
    method QueuePayment(payment: QueuedPayment)
      modifies store`queue
      ensures store.queue == [payment.Snapshot()] + old(store.queue)
    {
      store.LeftPush(payment.Snapshot());
    }

    method Requeue(payment: QueuedPayment) returns (r: Emitted)
      modifies store`queue
      ensures store.queue == [payment.Snapshot()] + old(store.queue)
      ensures r == EmitsFalse
    {
      QueuePayment(payment);
      r := EmitsFalse;
    }

    /** One attempt at processor `p`: the ledger is written exactly when the attempt yields
        true. */
    method TrySendAndPersist(p: Processor, paymentSent: PaymentSent, attempt: Attempt) returns (r: Emitted)
      modifies store`series
      ensures r == SendResult(attempt)
      ensures store.series == if r == EmitsTrue
                              then Persisted(old(store.series), p, paymentSent.requestedAt, Cents(paymentSent.amount))
                              else old(store.series)
    {
      match attempt.reply {
        case Failed =>
          r := EmitsNothing;
        case Status(code) =>
          if Is2xx(code) {
            if attempt.persisted {
              PersistSuccessfulPaymentReactive(paymentSent, p);
              r := EmitsTrue;
            } else {
              r := EmitsNothing;
            }
          } else if IsError(code) {
            r := EmitsNothing;
          } else {
            r := EmitsFalse;
          }
      }
    }

    /** The persist script: TS.MADD of (requestedAt, cents) to the amount series and
        (requestedAt, 1) to the count series of `p`. */
    method PersistSuccessfulPaymentReactive(paymentSent: PaymentSent, p: Processor)
      modifies store`series
      ensures store.series == Persisted(old(store.series), p, paymentSent.requestedAt, Cents(paymentSent.amount))
    {
      var amountKey := PaymentsAmountTsKey + ":" + ProcessorKey(p);
      var countKey := PaymentsCountTsKey + ":" + ProcessorKey(p);
      var timestamp := paymentSent.requestedAt;
      var amount := Cents(paymentSent.amount);
      store.AddSample(amountKey, timestamp, amount);
      store.AddSample(countKey, timestamp, 1);
    }

    /** The summary over [from, to] (an absent bound is open). None stands for the exception
        the call raises when the script fails or a slot does not parse as a long. */
    method GetPaymentsSummary(from: Option<nat>, to: Option<nat>) returns (r: Option<PaymentsSummary>)
      ensures r == match SummaryScript(store.series, SummaryKeys, StartArg(from), EndArg(to))
                   case None => None
                   case Some(results) => SummaryOf(results)
    {
      var reply := SummaryScript(store.series, SummaryKeys, StartArg(from), EndArg(to));
      if reply.None? {
        return None;
      }
      var results := reply.value;
      var defaultCount: Int64 := 0;
      var defaultAmountCents: Int64 := 0;
      var fallbackCount: Int64 := 0;
      var fallbackAmountCents: Int64 := 0;
      if |results| == 4 {
        if !(IsLong(results[0]) && IsLong(results[1]) && IsLong(results[2]) && IsLong(results[3])) {
          return None;
        }
        defaultCount := results[0];
        defaultAmountCents := results[1];
        fallbackCount := results[2];
        fallbackAmountCents := results[3];
      }
      var defaultSummary := Summary(defaultCount, AmountOfCents(defaultAmountCents));
      var fallbackSummary := Summary(fallbackCount, AmountOfCents(fallbackAmountCents));
      r := Some(PaymentsSummary(defaultSummary, fallbackSummary));
    }
  }

  // ---------------------------------------------------------------------------------
  // Lemmas

  /** The routing policy in full. Default is called exactly when it is up; fallback exactly
      when it is up and default was down or did not succeed; the payment is settled by the
      first processor called that succeeds, and requeued exactly when no available processor
      succeeded (in particular, directly, with no call, when both are down). */
  lemma DispatchPolicy(defaultUp: bool, fallbackUp: bool, da: Attempt, fa: Attempt)
    ensures var r := Dispatch(defaultUp, fallbackUp, da, fa);
            && (Default in r.attempted <==> defaultUp)
            && (Fallback in r.attempted <==> fallbackUp && !(defaultUp && Succeeded(da)))
            && (r.outcome == Settled(Default) <==> defaultUp && Succeeded(da))
            && (r.outcome == Settled(Fallback) <==> fallbackUp && !(defaultUp && Succeeded(da)) && Succeeded(fa))
            && (r.outcome == Requeued <==> !(defaultUp && Succeeded(da)) && !(fallbackUp && Succeeded(fa)))
            && (!defaultUp && !fallbackUp ==> r.attempted == [])
            && (|r.attempted| == 2 ==> r.attempted == [Default, Fallback])
  {
    DispatchUnrolled(defaultUp, fallbackUp, da, fa);
  }

  /** The dispatch for each combination of flags, written out. */
  lemma DispatchUnrolled(defaultUp: bool, fallbackUp: bool, da: Attempt, fa: Attempt)
    ensures Dispatch(defaultUp, fallbackUp, da, fa) ==
            if defaultUp && Succeeded(da) then DispatchResult([Default], Settled(Default))
            else if fallbackUp && Succeeded(fa) then DispatchResult(AttemptOrder(defaultUp, fallbackUp), Settled(Fallback))
            else DispatchResult(AttemptOrder(defaultUp, fallbackUp), Requeued)
  {
    var order := AttemptOrder(defaultUp, fallbackUp);
    assert [Fallback][1..] == [] && [Default][1..] == [];
    if defaultUp && fallbackUp {
      assert order == [Default, Fallback] && order[1..] == [Fallback];
      assert [Default] + [Fallback] == order;
    } else if defaultUp {
      assert order == [Default];
    } else if fallbackUp {
      assert order == [Fallback];
    } else {
      assert order == [];
    }
  }

  /** Only a 2xx reply can settle a payment: an error status, an exception, a non-error
      non-2xx status, and a failed ledger write after 2xx all fall through. */
  lemma OnlyTwoHundredsSucceed(a: Attempt)
    ensures Succeeded(a) <==> a.reply.Status? && 200 <= a.reply.code <= 299 && a.persisted
  {
    if a.reply.Status? {
      var c := a.reply.code;
      assert Is2xx(c) <==> 200 <= c <= 299;
    }
  }

  /** A settled payment adds its cents and a count of 1 to its processor's range sums for
      every range holding its timestamp, and leaves every other series as it was. */
  lemma PersistAddsToLedger(series: map<string, Series>, p: Processor, ts: nat, cents: int, start: RangeStart, end: RangeEnd)
    requires AmountKey(p) in series && CountKey(p) in series
    requires series[AmountKey(p)].policy == Sum && series[CountKey(p)].policy == Sum
    ensures var after := Persisted(series, p, ts, cents);
            && after.Keys == series.Keys
            && RangeSum(after[AmountKey(p)].samples, start, end) ==
               RangeSum(series[AmountKey(p)].samples, start, end) + (if InRange(ts, start, end) then cents else 0)
            && RangeSum(after[CountKey(p)].samples, start, end) ==
               RangeSum(series[CountKey(p)].samples, start, end) + (if InRange(ts, start, end) then 1 else 0)
            && forall k :: k in series && k != AmountKey(p) && k != CountKey(p) ==> after[k] == series[k]
  {
    LedgerKeysDiffer(p);
    var mid := AddIfPresent(series, AmountKey(p), ts, cents);
    assert mid[CountKey(p)] == series[CountKey(p)];
    SumPolicyAddsValue(series[AmountKey(p)].samples, ts, cents, start, end);
    SumPolicyAddsValue(series[CountKey(p)].samples, ts, 1, start, end);
  }

  lemma LedgerKeysDiffer(p: Processor)
    ensures AmountKey(p) != CountKey(p)
    ensures AmountKey(Default) != AmountKey(Fallback) && CountKey(Default) != CountKey(Fallback)
  {
    assert AmountKey(p)[9] != CountKey(p)[9];
    assert AmountKey(Default)[19] != AmountKey(Fallback)[19];
    assert CountKey(Default)[18] != CountKey(Fallback)[18];
  }

  /** The keys the ledger writes and the summary reads are exactly the four the initializer
      creates. */
  lemma KeysAgreeWithInitializer()
    ensures AmountKey(Default) == RedisConfig.DefaultAmountKey && CountKey(Default) == RedisConfig.DefaultCountKey
    ensures AmountKey(Fallback) == RedisConfig.FallbackAmountKey && CountKey(Fallback) == RedisConfig.FallbackCountKey
    ensures SummaryKeys == RedisConfig.LedgerKeys
  {
    assert AmountKey(Default) == RedisConfig.DefaultAmountKey;
    assert CountKey(Default) == RedisConfig.DefaultCountKey;
    assert AmountKey(Fallback) == RedisConfig.FallbackAmountKey;
    assert CountKey(Fallback) == RedisConfig.FallbackCountKey;
  }

  /** While every timestamp lies in the first aggregation bucket, the summary reports each
      processor's count and cents as the range sums of its two series, and its amount as the
      cents at scale 2; an empty range gives 0. */
  lemma SummaryReportsRangeSums(series: map<string, Series>, from: Option<nat>, to: Option<nat>)
    requires forall i :: 0 <= i < 4 ==> SummaryKeys[i] in series && InOneBucket(series[SummaryKeys[i]].samples)
    ensures var start, end := StartArg(from), EndArg(to);
            var sums := seq(4, i requires 0 <= i < 4 => RangeSum(series[SummaryKeys[i]].samples, start, end));
            SummaryScript(series, SummaryKeys, start, end) == Some([sums[1], sums[0], sums[3], sums[2]])
  {
    var start, end := StartArg(from), EndArg(to);
    forall i | 0 <= i < 4
      ensures Slot(series[SummaryKeys[i]], start, end) == RangeSum(series[SummaryKeys[i]].samples, start, end)
    {
      var ss := series[SummaryKeys[i]].samples;
      AggregateIsRangeSum(ss, start, end);
      if Within(ss, start, end) == [] {
        EmptyRangeSumsToZero(ss, start, end);
      }
    }
  }

  /** The reported amount is exact: multiplying it back by 100 returns the stored cents, for
      every long. */
  lemma SummaryAmountsExact(results: seq<int>)
    requires |results| == 4 && forall i :: 0 <= i < 4 ==> IsLong(results[i])
    ensures SummaryOf(results).Some?
    ensures SummaryOf(results).value.defaultSummary.totalAmount == Decimal(results[1], 2)
    ensures SummaryOf(results).value.fallbackSummary.totalAmount == Decimal(results[3], 2)
    ensures Hundredfold(SummaryOf(results).value.defaultSummary.totalAmount) == results[1]
    ensures Hundredfold(SummaryOf(results).value.fallbackSummary.totalAmount) == results[3]
  {
    CentsRoundTrip(results[1]);
    CentsRoundTrip(results[3]);
  }

  /** A payment amount with at most two decimals is recorded to the cent. */
  lemma CentsExactForTwoDecimals(amount: Decimal)
    requires 0 <= amount.scale <= 2 && IsLong(amount.unscaled * Pow10(2 - amount.scale))
    ensures Cents(amount) == amount.unscaled * Pow10(2 - amount.scale)
  {
    var s, u := amount.scale, amount.unscaled;
    assert Pow10(0) == 1 && Pow10(1) == 10;
    assert Pow10(2) == 100;
    if s == 1 {
      assert u * 100 == (u * 10) * 10;
      TruncDivExact(u * 10, 10);
    } else if s == 2 {
      assert u * 100 == (u * 1) * 100;
      TruncDivExact(u, 100);
    }
  }
}
