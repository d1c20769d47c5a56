/** The retry-queue consumer. Each iteration checks the cached health flags; while at least
    one processor is up it pops a batch of up to 70 payments from the right end of the queue
    (the oldest ones, since payments are pushed on the left) and hands each to the payment
    service. Iterations run one after the other here; each payment's upstream replies and
    clock are a parameter, `envOf(i)` for the i-th payment of a batch. */
module Consumer {
  import opened Model
  import opened Store
  import opened Health
  import opened PaymentService

  const BatchSize: nat := 70

  /** The ledger after dispatching `items` in order, with the health flags fixed. */
  function DrainBatch(l: Ledger, items: seq<QueuedEntry>, defaultUp: bool, fallbackUp: bool,
                      envOf: nat -> DispatchEnv): Ledger
  {
    if items == [] then l
    else
      var n := |items| - 1;
      Settle(DrainBatch(l, items[..n], defaultUp, fallbackUp, envOf), items[n], defaultUp, fallbackUp, envOf(n))
  }

  /** The items of `items` that went back on the queue, as they sit there (latest first). */
  function RequeuedOf(items: seq<QueuedEntry>, defaultUp: bool, fallbackUp: bool, envOf: nat -> DispatchEnv): (r: seq<QueuedEntry>)
    ensures |r| <= |items|
    ensures forall x :: x in r ==> x in items
    ensures multiset(r) <= multiset(items)
  {
    if items == [] then []
    else
      var n := |items| - 1;
      assert items == items[..n] + [items[n]];
      var earlier := RequeuedOf(items[..n], defaultUp, fallbackUp, envOf);
      if Dispatch(defaultUp, fallbackUp, envOf(n).defaultAttempt, envOf(n).fallbackAttempt).outcome.Requeued?
      then [items[n]] + earlier
      else earlier
  }

  /** One iteration's effect: with both processors down nothing is popped; otherwise a batch
      is popped from the right and drained. */
  function Step(l: Ledger, defaultUp: bool, fallbackUp: bool, envOf: nat -> DispatchEnv): Ledger {
    if !(defaultUp || fallbackUp) then l
    else
      var (popped, rest) := PopRight(l.queue, BatchSize);
      DrainBatch(Ledger(rest, l.series), popped, defaultUp, fallbackUp, envOf)
  }

  /** `rounds` iterations of the repeating loop, envOf(r) giving the inputs of round r. */
  function Rounds(l: Ledger, rounds: nat, defaultUp: bool, fallbackUp: bool, envOf: nat -> nat -> DispatchEnv): Ledger {
    if rounds == 0 then l
    else Step(Rounds(l, rounds - 1, defaultUp, fallbackUp, envOf), defaultUp, fallbackUp, envOf(rounds - 1))
  }

  class RetryQueueConsumer {
    const store: SharedStore
    const service: PaymentService
    const monitor: ProcessorHealthMonitor

    constructor (store: SharedStore, service: PaymentService, monitor: ProcessorHealthMonitor)
      ensures this.store == store && this.service == service && this.monitor == monitor
    {
      this.store := store;
      this.service := service;
      this.monitor := monitor;
    }

    /** One iteration of the consume loop; returns the payments it popped. */
    method ConsumeStep(envOf: nat -> DispatchEnv) returns (popped: seq<QueuedEntry>)
      requires service.store == store && service.monitor == monitor
      modifies store`queue, store`series
      ensures !(monitor.defaultAvailable || monitor.fallbackAvailable) ==>
                popped == [] && store.queue == old(store.queue) && store.series == old(store.series)
      ensures (monitor.defaultAvailable || monitor.fallbackAvailable) ==>
                popped == PopRight(old(store.queue), BatchSize).0
      ensures Ledger(store.queue, store.series) ==
              Step(Ledger(old(store.queue), old(store.series)), monitor.defaultAvailable, monitor.fallbackAvailable, envOf)
    {
      var defaultUp := monitor.IsDefaultProcessorAvailable();
      var fallbackUp := monitor.IsFallbackProcessorAvailable();
      var canProcess := defaultUp || fallbackUp;
      if !canProcess {
        return [];
      }
      popped := store.RightPop(BatchSize);
      ghost var start := Ledger(store.queue, store.series);
      var i := 0;
      while i < |popped|
        invariant 0 <= i <= |popped|
        invariant Ledger(store.queue, store.series) == DrainBatch(start, popped[..i], defaultUp, fallbackUp, envOf)
      {
        var payment := new QueuedPayment.Restore(popped[i]);
        service.ProcessPayment(payment, envOf(i));
        DrainBatchNext(start, popped, i, defaultUp, fallbackUp, envOf);
        i := i + 1;
      }
      assert popped[..|popped|] == popped;
    }
  }

  // ---------------------------------------------------------------------------------
  // Lemmas

  /** Draining one more item settles it on top of the earlier ones. */
  lemma DrainBatchNext(l: Ledger, items: seq<QueuedEntry>, i: nat, defaultUp: bool, fallbackUp: bool, envOf: nat -> DispatchEnv)
    requires i < |items|
    ensures DrainBatch(l, items[..i + 1], defaultUp, fallbackUp, envOf) ==
            Settle(DrainBatch(l, items[..i], defaultUp, fallbackUp, envOf), items[i], defaultUp, fallbackUp, envOf(i))
  {
    assert items[..i + 1][..i] == items[..i];
  }

  lemma {:induction false} ReverseMultiset<T>(s: seq<T>)
    ensures multiset(Reverse(s)) == multiset(s)
    decreases |s|
  {
    if s != [] {
      ReverseMultiset(s[1..]);
      assert s == [s[0]] + s[1..];
    }
  }

  /** A batch holds at most 70 payments, and exactly 70 when that many are queued; the
      payments not popped stay on the queue, in order and unchanged. */
  lemma PopBatchBound(q: seq<QueuedEntry>)
    ensures var r := PopRight(q, BatchSize);
            && |r.0| <= BatchSize
            && (|q| >= BatchSize ==> |r.0| == BatchSize)
            && r.1 == q[..|q| - |r.0|]
  {
    var r := PopRight(q, BatchSize);
    assert r.1 + Reverse(r.0) == q;
  }

  /** The batch is the rightmost payments, rightmost (oldest) first. */
  lemma PopBatchOrder(q: seq<QueuedEntry>)
    ensures var r := PopRight(q, BatchSize);
            forall i :: 0 <= i < |r.0| ==> r.0[i] == q[|q| - 1 - i]
  {
    var r := PopRight(q, BatchSize);
    var k := |r.0|;
    assert r.1 + Reverse(r.0) == q;
    assert Reverse(r.0) == q[|q| - k..];
    ReverseTwice(r.0);
    forall i | 0 <= i < k
      ensures r.0[i] == q[|q| - 1 - i]
    {
      ReverseIndex(Reverse(r.0), i);
    }
  }

  /** Popping loses and duplicates nothing: batch and remainder together are the queue. */
  lemma PopBatchKeepsAll(q: seq<QueuedEntry>)
    ensures var r := PopRight(q, BatchSize);
            multiset(r.0) + multiset(r.1) == multiset(q)
  {
    var r := PopRight(q, BatchSize);
    assert r.1 + Reverse(r.0) == q;
    ReverseMultiset(r.0);
    assert multiset(r.1 + Reverse(r.0)) == multiset(r.1) + multiset(Reverse(r.0));
  }

  lemma {:induction false} ReverseIndex<T>(s: seq<T>, i: nat)
    requires i < |s|
    ensures Reverse(s)[i] == s[|s| - 1 - i]
    decreases |s|
  {
    if i < |s| - 1 {
      ReverseIndex(s[1..], i);
    }
  }

  /** With payments left-pushed, oldest first, the consumer receives them oldest first, and
      what stays queued is the still older-first remainder. */
  lemma StepIsFifo(history: seq<QueuedEntry>)
    ensures var k := Min(BatchSize, |history|);
            PopRight(PushedAll([], history), BatchSize) == (history[..k], PushedAll([], history[k..]))
  {
    PushedAllIsReverse(history);
    DrainIsFifo(history, Min(BatchSize, |history|));
  }

  /** Draining a batch leaves the rest of the queue in place and in order; the only additions
      are the batch's requeued payments, each pushed at most once, in front. */
  lemma {:induction false} DrainQueue(l: Ledger, items: seq<QueuedEntry>, defaultUp: bool, fallbackUp: bool, envOf: nat -> DispatchEnv)
    ensures DrainBatch(l, items, defaultUp, fallbackUp, envOf).queue == RequeuedOf(items, defaultUp, fallbackUp, envOf) + l.queue
    decreases |items|
  {
    if items != [] {
      var n := |items| - 1;
      DrainQueue(l, items[..n], defaultUp, fallbackUp, envOf);
      RequeueStep(DrainBatch(l, items[..n], defaultUp, fallbackUp, envOf), items[n], defaultUp, fallbackUp, envOf(n),
                  RequeuedOf(items[..n], defaultUp, fallbackUp, envOf), l.queue);
    }
  }

  /** Settling one payment on a queue `earlier + base` pushes it in front when it is requeued
      and leaves the queue as it was otherwise. */
  lemma RequeueStep(prev: Ledger, payment: QueuedEntry, defaultUp: bool, fallbackUp: bool, env: DispatchEnv,
                    earlier: seq<QueuedEntry>, base: seq<QueuedEntry>)
    requires prev.queue == earlier + base
    ensures Settle(prev, payment, defaultUp, fallbackUp, env).queue
            == (if Dispatch(defaultUp, fallbackUp, env.defaultAttempt, env.fallbackAttempt).outcome.Requeued?
                then [payment] + earlier else earlier) + base
  {
    assert [payment] + (earlier + base) == ([payment] + earlier) + base;
  }

  /** When every processor call of a batch succeeds, nothing is requeued. */
  lemma {:induction false} NothingRequeuedWhenAllSucceed(items: seq<QueuedEntry>, envOf: nat -> DispatchEnv)
    requires forall i :: 0 <= i < |items| ==> Succeeded(envOf(i).defaultAttempt)
    ensures forall fallbackUp :: RequeuedOf(items, true, fallbackUp, envOf) == []
    decreases |items|
  {
    if items != [] {
      var n := |items| - 1;
      NothingRequeuedWhenAllSucceed(items[..n], envOf);
      forall fallbackUp: bool
        ensures RequeuedOf(items, true, fallbackUp, envOf) == []
      {
        DispatchPolicy(true, fallbackUp, envOf(n).defaultAttempt, envOf(n).fallbackAttempt);
      }
    }
  }

  /** With both processors down an iteration touches nothing; on an empty queue it processes
      nothing and the loop simply goes round again. */
  lemma IdleSteps(l: Ledger, defaultUp: bool, fallbackUp: bool, envOf: nat -> DispatchEnv)
    requires !(defaultUp || fallbackUp) || l.queue == []
    ensures Step(l, defaultUp, fallbackUp, envOf) == l
  {
    if defaultUp || fallbackUp {
      var (popped, rest) := PopRight(l.queue, BatchSize);
      assert popped == [] && rest == [];
    }
  }

  /** While the default processor is up and accepts every payment, each iteration removes a
      full batch (or what is left), so ceil(|queue| / 70) iterations empty the queue. */
  lemma SuccessfulRoundsDrain(l: Ledger, rounds: nat, fallbackUp: bool, envOf: nat -> nat -> DispatchEnv)
    requires forall r, i :: 0 <= r < rounds && 0 <= i < BatchSize ==> Succeeded(envOf(r)(i).defaultAttempt)
    ensures |Rounds(l, rounds, true, fallbackUp, envOf).queue| == if |l.queue| <= rounds * BatchSize then 0 else |l.queue| - rounds * BatchSize
  {
    var lengths := seq(rounds + 1, (r: int) requires 0 <= r => |Rounds(l, r, true, fallbackUp, envOf).queue|);
    SuccessfulRoundsShrink(l, rounds, fallbackUp, envOf, lengths);
    LengthsFollowBacklog(lengths, rounds);
    BacklogClosedForm(|l.queue|, rounds);
  }

  /** Every round of a run whose default calls all succeed shortens the queue by a batch. */
  lemma SuccessfulRoundsShrink(l: Ledger, rounds: nat, fallbackUp: bool, envOf: nat -> nat -> DispatchEnv, lengths: seq<nat>)
    requires forall r, i :: 0 <= r < rounds && 0 <= i < BatchSize ==> Succeeded(envOf(r)(i).defaultAttempt)
    requires |lengths| == rounds + 1
    requires forall r :: 0 <= r <= rounds ==> lengths[r] == |Rounds(l, r, true, fallbackUp, envOf).queue|
    ensures forall r :: 0 <= r < |lengths| - 1 ==> lengths[r + 1] == lengths[r] - Min(BatchSize, lengths[r])
  {
    forall r | 0 <= r < |lengths| - 1
      ensures lengths[r + 1] == lengths[r] - Min(BatchSize, lengths[r])
    {
      SuccessfulRound(l, r + 1, fallbackUp, envOf, envOf(r));
    }
  }

  /** What is left of a queue of `len` entries after `rounds` rounds that each remove a full
      batch or what is left. */
  function Backlog(len: nat, rounds: nat): nat {
    if rounds == 0 then len
    else
      var before := Backlog(len, rounds - 1);
      before - Min(BatchSize, before)
  }

  lemma {:induction false} BacklogClosedForm(len: nat, rounds: nat)
    ensures Backlog(len, rounds) == if len <= rounds * BatchSize then 0 else len - rounds * BatchSize
    decreases rounds
  {
    if rounds > 0 {
      BacklogClosedForm(len, rounds - 1);
      assert rounds * BatchSize == (rounds - 1) * BatchSize + BatchSize;
    }
  }

  /** Queue lengths that each lose a batch, or what is left, follow the backlog. */
  lemma {:induction false} LengthsFollowBacklog(lengths: seq<nat>, k: nat)
    requires k < |lengths|
    requires forall r :: 0 <= r < |lengths| - 1 ==> lengths[r + 1] == lengths[r] - Min(BatchSize, lengths[r])
    ensures lengths[k] == Backlog(lengths[0], k)
    decreases k
  {
    if k > 0 {
      LengthsFollowBacklog(lengths, k - 1);
    }
  }

  /** The last of `rounds` rounds, when every default call in it succeeds, shortens the
      queue by a full batch or empties it. */
  lemma SuccessfulRound(l: Ledger, rounds: nat, fallbackUp: bool, envOf: nat -> nat -> DispatchEnv, env: nat -> DispatchEnv)
    requires rounds > 0 && env == envOf(rounds - 1)
    requires forall i :: 0 <= i < BatchSize ==> Succeeded(env(i).defaultAttempt)
    ensures var before := |Rounds(l, rounds - 1, true, fallbackUp, envOf).queue|;
            |Rounds(l, rounds, true, fallbackUp, envOf).queue| == before - Min(BatchSize, before)
  {
    SuccessfulStepPopsBatch(Rounds(l, rounds - 1, true, fallbackUp, envOf), fallbackUp, env);
  }

  /** An iteration in which the default processor accepts every payment removes a full batch,
      or what is left, and puts nothing back. */
  lemma SuccessfulStepPopsBatch(l: Ledger, fallbackUp: bool, env: nat -> DispatchEnv)
    requires forall i :: 0 <= i < BatchSize ==> Succeeded(env(i).defaultAttempt)
    ensures |Step(l, true, fallbackUp, env).queue| == |l.queue| - Min(BatchSize, |l.queue|)
  {
    var (popped, rest) := PopRight(l.queue, BatchSize);
    assert |rest| == |l.queue| - Min(BatchSize, |l.queue|) by {
      assert rest + Reverse(popped) == l.queue;
    }
    NothingRequeuedWhenAllSucceed(popped, env);
    DrainQueue(Ledger(rest, l.series), popped, true, fallbackUp, env);
  }
}
