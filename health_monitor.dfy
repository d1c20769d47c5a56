/** The processor health monitor: a probe cycle that writes each processor's availability
    to the shared store and publishes a change notice, and a local cache of the two flags
    that every instance reloads from the store. The lease around the cycle, the scheduling
    and the concurrency of the reactive calls are not modelled; every outside result is a
    parameter. */
module Health {
  import opened Wrappers
  import opened Store

  const DefaultStatusKey: string := "health:status:default"
  const FallbackStatusKey: string := "health:status:fallback"
  const NotificationChannel: string := "health:notifications"
  const UpdatedPayload: string := "updated"

  /** The store's answer to the two-key read: the values (None for a missing key), no value
      at all, or a failure. */
  datatype MultiGetReply = Values(values: seq<Option<string>>) | NoReply | StoreFailure

  /** What a health request to one processor produced: a decoded body, a successful reply
      with no body, or any failure (non-2xx status, timeout, transport or decoding error). */
  datatype ProbeReply = HealthBody(failing: bool) | EmptyBody | ProbeFailure

  /** Flags a sync installs, default first: a flag is up exactly when the reply holds two
      values and its own is the string "1"; a missing key, any other string, a wrong-size
      reply, no reply and a failure all mean down. */
  function SyncedFlags(reply: MultiGetReply): (flags: (bool, bool))
    ensures flags.0 <==> reply.Values? && |reply.values| == 2 && reply.values[0] == Some("1")
    ensures flags.1 <==> reply.Values? && |reply.values| == 2 && reply.values[1] == Some("1")
  {
    match reply
    case Values(vs) =>
      if |vs| == 2 then (vs[0] == Some("1"), vs[1] == Some("1")) else (false, false)
    case NoReply => (false, false)
    case StoreFailure => (false, false)
  }

  /** The reply the store gives to the two-key read. */
  function ReadStatuses(strings: map<string, string>): (reply: MultiGetReply)
    ensures reply.Values? && |reply.values| == 2
    ensures reply.values[0] == Get(strings, DefaultStatusKey) && reply.values[1] == Get(strings, FallbackStatusKey)
  {
    Values([Get(strings, DefaultStatusKey), Get(strings, FallbackStatusKey)])
  }

  /** One probe's availability: None when the reply had no body (the reactive value is
      empty), otherwise up exactly when a body said the processor is not failing. */
  function ProbeAvailability(reply: ProbeReply): (r: Option<bool>)
    ensures r.None? <==> reply.EmptyBody?
    ensures r == Some(true) <==> reply == HealthBody(false)
  {
    match reply
    case HealthBody(failing) => Some(!failing)
    case EmptyBody => None
    case ProbeFailure => Some(false)
  }

  /** The value written for a flag. */
  function StatusValue(up: bool): (s: string)
    ensures s == "1" <==> up
    ensures s == "0" <==> !up
  {
    if up then "1" else "0"
  }

  /** What one cycle does to the store: nothing (when either probe produced no value, the
      combined result is empty and no step runs), or write both keys and publish once. */
  datatype CycleResult = Skipped | Written(defaultValue: string, fallbackValue: string)

  /** The outcome of one cycle given both probes and whether writing or publishing failed
      (`fault`). A fault makes the recovery step write "0" to both keys and still publish. */
  function CycleOutcome(defaultProbe: ProbeReply, fallbackProbe: ProbeReply, fault: bool): (r: CycleResult)
    ensures r.Skipped? <==> defaultProbe.EmptyBody? || fallbackProbe.EmptyBody?
    ensures r.Written? && fault ==> r.defaultValue == "0" && r.fallbackValue == "0"
    ensures r.Written? && !fault ==> (r.defaultValue == "1" <==> defaultProbe == HealthBody(false))
    ensures r.Written? && !fault ==> (r.fallbackValue == "1" <==> fallbackProbe == HealthBody(false))
    ensures r.Written? ==> r.defaultValue in {"0", "1"} && r.fallbackValue in {"0", "1"}
  {
    match (ProbeAvailability(defaultProbe), ProbeAvailability(fallbackProbe))
    case (Some(d), Some(f)) =>
      if fault then Written("0", "0") else Written(StatusValue(d), StatusValue(f))
    case _ => Skipped
  }

  /** The store's strings after a cycle: a skipped cycle writes nothing; otherwise exactly the
      two status keys take the cycle's values. */
  function ApplyCycle(strings: map<string, string>, r: CycleResult): (after: map<string, string>)
    ensures r.Skipped? ==> after == strings
    ensures r.Written? ==> after.Keys == strings.Keys + {DefaultStatusKey, FallbackStatusKey}
    ensures r.Written? ==> after[DefaultStatusKey] == r.defaultValue && after[FallbackStatusKey] == r.fallbackValue
    ensures forall k :: k in strings && k != DefaultStatusKey && k != FallbackStatusKey ==> after[k] == strings[k]
  {
    assert DefaultStatusKey[14] != FallbackStatusKey[14];
    match r
    case Skipped => strings
    case Written(d, f) => strings[DefaultStatusKey := d][FallbackStatusKey := f]
  }

  function Notices(r: CycleResult): seq<Message>
  {
    if r.Written? then [Message(NotificationChannel, UpdatedPayload)] else []
  }

  class ProcessorHealthMonitor {
    const store: SharedStore
    var defaultAvailable: bool
    var fallbackAvailable: bool

    /** Fail-closed: both processors start unavailable. The initial sync the constructor
        starts runs asynchronously; it is the separate SyncStateFromStore call here. */
    constructor (store: SharedStore)
      ensures this.store == store
      ensures !defaultAvailable && !fallbackAvailable
    {
      this.store := store;
      defaultAvailable := false;
      fallbackAvailable := false;
    }

    /** One probe cycle: both probes, then both writes and one notice, or on a fault the
        recovery writes and one notice. */
    method PerformHealthCheckAndNotify(defaultProbe: ProbeReply, fallbackProbe: ProbeReply, fault: bool)
      modifies store`strings, store`published
      ensures store.strings == ApplyCycle(old(store.strings), CycleOutcome(defaultProbe, fallbackProbe, fault))
      ensures store.published == old(store.published) + Notices(CycleOutcome(defaultProbe, fallbackProbe, fault))
    {
      var defaultOk := ProbeAvailability(defaultProbe);
      var fallbackOk := ProbeAvailability(fallbackProbe);
      if defaultOk.Some? && fallbackOk.Some? {
        if !fault {
          store.Set(DefaultStatusKey, if defaultOk.value then "1" else "0");
          store.Set(FallbackStatusKey, if fallbackOk.value then "1" else "0");
          store.Publish(NotificationChannel, UpdatedPayload);
        } else {
          store.Set(DefaultStatusKey, "0");
          store.Set(FallbackStatusKey, "0");
          store.Publish(NotificationChannel, UpdatedPayload);
        }
      }
    }

    /** Installs the flags a store reply gives. */
    method SyncState(reply: MultiGetReply)
      modifies this`defaultAvailable, this`fallbackAvailable
      ensures (defaultAvailable, fallbackAvailable) == SyncedFlags(reply)
    {
      match reply {
        case Values(statuses) =>
          if |statuses| == 2 {
            defaultAvailable := statuses[0] == Some("1");
            fallbackAvailable := statuses[1] == Some("1");
          } else {
            defaultAvailable, fallbackAvailable := false, false;
          }
        case NoReply =>
          defaultAvailable, fallbackAvailable := false, false;
        case StoreFailure =>
          defaultAvailable, fallbackAvailable := false, false;
      }
    }

    /** Reloads the flags from the store (`failed`: the read failed). The flags depend only on
        the two stored strings, so repeating a sync against an unchanged store gives the same
        flags. */
    method SyncStateFromStore(failed: bool)
      modifies this`defaultAvailable, this`fallbackAvailable
      ensures (defaultAvailable, fallbackAvailable) ==
              (if failed then (false, false) else SyncedFlags(ReadStatuses(store.strings)))
    {
      if failed {
        SyncState(StoreFailure);
      } else {
        var values := store.MultiGet([DefaultStatusKey, FallbackStatusKey]);
        SyncState(Values(values));
      }
    }

    /** The notification listener: every notice triggers a reload. */
    method OnMessage(failed: bool)
      modifies this`defaultAvailable, this`fallbackAvailable
      ensures (defaultAvailable, fallbackAvailable) ==
              (if failed then (false, false) else SyncedFlags(ReadStatuses(store.strings)))
    {
      SyncStateFromStore(failed);
    }

    method IsDefaultProcessorAvailable() returns (up: bool)
      ensures up == defaultAvailable
    {
      up := defaultAvailable;
    }

    method IsFallbackProcessorAvailable() returns (up: bool)
      ensures up == fallbackAvailable
    {
      up := fallbackAvailable;
    }
  }

  // ---------------------------------------------------------------------------------
  // Lemmas

  /** Writing a cycle's result and reading it back gives each flag from its written value:
      after a fault-free cycle each flag is its probe's availability, after a faulty cycle
      both are down; a skipped cycle leaves the stored answer as it was. */
  lemma CycleThenSync(strings: map<string, string>, defaultProbe: ProbeReply, fallbackProbe: ProbeReply, fault: bool)
    ensures var r := CycleOutcome(defaultProbe, fallbackProbe, fault);
            var flags := SyncedFlags(ReadStatuses(ApplyCycle(strings, r)));
            && (r.Written? && !fault ==>
                  flags == (defaultProbe == HealthBody(false), fallbackProbe == HealthBody(false)))
            && (r.Written? && fault ==> flags == (false, false))
            && (r.Skipped? ==> flags == SyncedFlags(ReadStatuses(strings)))
  {
    var r := CycleOutcome(defaultProbe, fallbackProbe, fault);
    assert DefaultStatusKey != FallbackStatusKey by {
      assert DefaultStatusKey[14] != FallbackStatusKey[14];
    }
    if r.Written? {
      var m := ApplyCycle(strings, r);
      assert m[DefaultStatusKey] == r.defaultValue && m[FallbackStatusKey] == r.fallbackValue;
    }
  }

  /** Writes are idempotent: repeating a cycle with the same probe results leaves the same
      stored values as running it once. */
  lemma CycleIdempotent(strings: map<string, string>, defaultProbe: ProbeReply, fallbackProbe: ProbeReply, fault: bool)
    ensures var r := CycleOutcome(defaultProbe, fallbackProbe, fault);
            ApplyCycle(ApplyCycle(strings, r), r) == ApplyCycle(strings, r)
  {
    var r := CycleOutcome(defaultProbe, fallbackProbe, fault);
    if r.Written? {
      assert DefaultStatusKey != FallbackStatusKey by {
        assert DefaultStatusKey[14] != FallbackStatusKey[14];
      }
    }
  }
}
