/** The scheduled processor checker: for each processor it stores a ProcessorHealthStatus
    under `health:<processor>`, taken from the health reply or, on any exception, the
    sentinel (failing, 9999 ms). The lease and the scheduling are not modelled. */
module HealthChecker {
  import opened Wrappers
  import opened Numeric
  import opened Model
  import opened Store

  const KeyPrefix: string := "health:"
  const SentinelResponseTime: Int64 := 9999

  /** The two JSON fields the checker reads, after Jackson's asBoolean/asLong conversion;
      None for an absent field. */
  datatype HealthJson = HealthJson(failing: Option<bool>, minResponseTime: Option<Int64>)

  /** The result of the health GET: a response whose body may be null, or an exception
      (error status, transport failure). */
  datatype HealthResponse = Response(body: Option<HealthJson>) | RequestFailed

  /** The status a check records. It carries the reply's own values exactly when the request
      succeeded with a body holding both fields; anything else (error status, transport
      failure, null body, a missing field) raises inside the try block and gives the
      sentinel. */
  function CheckedStatus(reply: HealthResponse): (v: HealthStatusValue)
    ensures (reply.Response? && reply.body.Some? && reply.body.value.failing.Some? &&
             reply.body.value.minResponseTime.Some?) ==>
            v == HealthStatusValue(reply.body.value.failing.value, reply.body.value.minResponseTime.value)
    ensures !(reply.Response? && reply.body.Some? && reply.body.value.failing.Some? &&
              reply.body.value.minResponseTime.Some?) ==>
            v == HealthStatusValue(true, SentinelResponseTime)
  {
    match reply
    case Response(Some(HealthJson(Some(failing), Some(rt)))) => HealthStatusValue(failing, rt)
    case _ => HealthStatusValue(true, SentinelResponseTime)
  }

  class ProcessorHealthChecker {
    const store: SharedStore

    constructor (store: SharedStore)
      ensures this.store == store
    {
      this.store := store;
    }

    /** One check: exactly one write, to `health:<processorKey>`, whatever the reply; it
        always completes normally. */
    method CheckProcessorAsync(processorKey: string, reply: HealthResponse)
      modifies store`statuses
      ensures store.statuses == old(store.statuses)[KeyPrefix + processorKey := CheckedStatus(reply)]
    {
      var status: ProcessorHealthStatus;
      if reply.Response? && reply.body.Some? && reply.body.value.failing.Some? && reply.body.value.minResponseTime.Some? {
        status := new ProcessorHealthStatus.Of(reply.body.value.failing.value, reply.body.value.minResponseTime.value);
      } else {
        status := new ProcessorHealthStatus.Of(true, SentinelResponseTime);
      }
      store.SetStatus(KeyPrefix + processorKey, status.Snapshot());
    }

    /** One run: "default" first, then "fallback". */
    method CheckProcessors(defaultReply: HealthResponse, fallbackReply: HealthResponse)
      modifies store`statuses
      ensures store.statuses == old(store.statuses)[KeyPrefix + "default" := CheckedStatus(defaultReply)]
                                                   [KeyPrefix + "fallback" := CheckedStatus(fallbackReply)]
    {
      CheckProcessorAsync("default", defaultReply);
      CheckProcessorAsync("fallback", fallbackReply);
    }
  }

  /** A recorded "not failing" status can only come from a successful reply whose body said
      so; every failure path records failing = true. */
  lemma HealthyStatusNeedsHealthyReply(reply: HealthResponse)
    requires !CheckedStatus(reply).failing
    ensures reply.Response? && reply.body.Some? && reply.body.value.failing == Some(false)
    ensures reply.body.value.minResponseTime.Some?
    ensures CheckedStatus(reply).responseTimeMillis == reply.body.value.minResponseTime.value
  {
  }

  /** The two runs of one check write different keys, so neither write hides the other. */
  lemma ChecksWriteDistinctKeys(m: map<string, HealthStatusValue>, a: HealthStatusValue, b: HealthStatusValue)
    ensures var r := m[KeyPrefix + "default" := a][KeyPrefix + "fallback" := b];
            r[KeyPrefix + "default"] == a && r[KeyPrefix + "fallback"] == b
  {
    assert (KeyPrefix + "default")[7] != (KeyPrefix + "fallback")[7];
  }
}
