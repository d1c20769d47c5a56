/** The gateway's data carriers (package `model`). Each is a class with mutable fields set by
    its constructor and setters; getters are plain field reads here. What the shared store
    keeps of an object is a value snapshot of its fields (the serializers write a copy),
    given by the datatypes at the top. */
module Model {
  import opened Numeric

  /** A QueuedPayment as stored in the retry list. */
  datatype QueuedEntry = QueuedEntry(correlationId: string, amount: Decimal, retries: Int32)

  /** A ProcessorHealthStatus as stored under `health:<processor>`. */
  datatype HealthStatusValue = HealthStatusValue(failing: bool, responseTimeMillis: Int64)

  /** An incoming payment. */
  class PaymentReceived {
    var correlationId: string
    var amount: Decimal

    /** The first argument is the amount, the second the correlation id. */
    constructor (amount: Decimal, correlationId: string)
      ensures this.amount == amount && this.correlationId == correlationId
    {
      this.amount := amount;
      this.correlationId := correlationId;
    }

    method SetCorrelationId(correlationId: string)
      modifies this`correlationId
      ensures this.correlationId == correlationId && amount == old(amount)
    {
      this.correlationId := correlationId;
    }

    method SetAmount(amount: Decimal)
      modifies this`amount
      ensures this.amount == amount && correlationId == old(correlationId)
    {
      this.amount := amount;
    }
  }

  /** A payment awaiting (re-)dispatch. */
  class QueuedPayment {
    var correlationId: string
    var amount: Decimal
    var retries: Int32

    /** Copies identity and amount from the received payment; no retry has happened yet. */
    constructor (request: PaymentReceived)
      ensures correlationId == request.correlationId && amount == request.amount
      ensures retries == 0
    {
      correlationId := request.correlationId;
      amount := request.amount;
      retries := 0;
    }

    /** The object the list serializer rebuilds from a stored entry (it sets the fields
        directly, bypassing the constructor above). */
    constructor Restore(entry: QueuedEntry)
      ensures Snapshot() == entry
    {
      correlationId := entry.correlationId;
      amount := entry.amount;
      retries := entry.retries;
    }

    /** What the list serializer stores for this object. */
    function Snapshot(): (e: QueuedEntry)
      reads this
      ensures e.correlationId == correlationId && e.amount == amount && e.retries == retries
    {
      QueuedEntry(correlationId, amount, retries)
    }

    method SetCorrelationId(correlationId: string)
      modifies this`correlationId
      ensures this.correlationId == correlationId
      ensures amount == old(amount) && retries == old(retries)
    {
      this.correlationId := correlationId;
    }

    method SetAmount(amount: Decimal)
      modifies this`amount
      ensures this.amount == amount
      ensures correlationId == old(correlationId) && retries == old(retries)
    {
      this.amount := amount;
    }

    method SetRetries(retries: Int32)
      modifies this`retries
      ensures this.retries == retries
      ensures correlationId == old(correlationId) && amount == old(amount)
    {
      this.retries := retries;
    }
  }

  /** The body sent to a payment processor. It has no retry counter. */
  class PaymentSent {
    var correlationId: string
    var amount: Decimal
    /** Instant.now() at construction, as epoch milliseconds; the clock is a parameter. */
    var requestedAt: nat

    constructor (payment: QueuedPayment, requestedAt: nat)
      ensures correlationId == payment.correlationId && amount == payment.amount
      ensures this.requestedAt == requestedAt
    {
      amount := payment.amount;
      correlationId := payment.correlationId;
      this.requestedAt := requestedAt;
    }

    method SetCorrelationId(correlationId: string)
      modifies this`correlationId
      ensures this.correlationId == correlationId
      ensures amount == old(amount) && requestedAt == old(requestedAt)
    {
      this.correlationId := correlationId;
    }

    method SetAmount(amount: Decimal)
      modifies this`amount
      ensures this.amount == amount
      ensures correlationId == old(correlationId) && requestedAt == old(requestedAt)
    {
      this.amount := amount;
    }

    method SetRequestedAt(requestedAt: nat)
      modifies this`requestedAt
      ensures this.requestedAt == requestedAt
      ensures correlationId == old(correlationId) && amount == old(amount)
    {
      this.requestedAt := requestedAt;
    }
  }

  /** A processor's health as the scheduled checker records it. */
  class ProcessorHealthStatus {
    var failing: bool
    var responseTimeMillis: Int64

    /** Java's default field values. */
    constructor ()
      ensures !failing && responseTimeMillis == 0
    {
      failing := false;
      responseTimeMillis := 0;
    }

    constructor Of(failing: bool, responseTimeMillis: Int64)
      ensures this.failing == failing && this.responseTimeMillis == responseTimeMillis
    {
      this.failing := failing;
      this.responseTimeMillis := responseTimeMillis;
    }

    /** What the value serializer stores for this object. */
    function Snapshot(): (v: HealthStatusValue)
      reads this
      ensures v.failing == failing && v.responseTimeMillis == responseTimeMillis
    {
      HealthStatusValue(failing, responseTimeMillis)
    }

    method SetFailing(failing: bool)
      modifies this`failing
      ensures this.failing == failing && responseTimeMillis == old(responseTimeMillis)
    {
      this.failing := failing;
    }

    method SetResponseTimeMillis(responseTimeMillis: Int64)
      modifies this`responseTimeMillis
      ensures this.responseTimeMillis == responseTimeMillis && failing == old(failing)
    {
      this.responseTimeMillis := responseTimeMillis;
    }
  }
}
