/** The load balancer in front of the two API instances: a round-robin backend selector
    driven by an unsigned 64-bit counter, and a router for the two public endpoints. HTTP
    transport and the proxying itself are outside the model; whether the request body could
    be read is a parameter. */
module LoadBalancer {
  import opened Wrappers

  const UINT64_MAX: int := 0xFFFF_FFFF_FFFF_FFFF

  type Uint64 = x: int | 0 <= x <= 0xFFFF_FFFF_FFFF_FFFF

  datatype Url = Url(scheme: string, host: string)

  const Api1: Url := Url("http", "api1:8080")
  const Api2: Url := Url("http", "api2:8080")
  const BackendServers: seq<Url> := [Api1, Api2]

  /** The atomic increment of the counter: +1, wrapping from the largest value to 0. */
  function Increment(c: Uint64): (n: Uint64)
    ensures c < UINT64_MAX ==> n == c + 1
    ensures c == UINT64_MAX ==> n == 0
  {
    (c + 1) % 0x1_0000_0000_0000_0000
  }

  /** The backend a counter value selects. */
  function BackendAt(c: Uint64): (u: Url)
    ensures u in BackendServers
    ensures u == Api1 <==> c % 2 == 0
  {
    BackendServers[c % |BackendServers|]
  }

  datatype Handler = Payments | Summary | NotFound

  /** The router: POST /payments and GET /payments-summary, exact path match; anything else
      is not found. */
  function Route(httpMethod: string, path: string): (h: Handler)
    ensures h == Payments <==> httpMethod == "POST" && path == "/payments"
    ensures h == Summary <==> httpMethod == "GET" && path == "/payments-summary"
  {
    if httpMethod == "POST" && path == "/payments" then Payments
    else if httpMethod == "GET" && path == "/payments-summary" then Summary
    else NotFound
  }

  /** The response of the balancer itself: a status code it writes, with the backend a
      payment is forwarded to in the background, or the backend a summary request is proxied
      to (whose answer becomes the response). */
  datatype Reply = Answered(code: int, forwardedTo: Option<Url>) | Proxied(target: Url)

  class Balancer {
    var counter: Uint64

    constructor ()
      ensures counter == 0
    {
      counter := 0;
    }

    /** Increments the counter, then picks the backend the new value selects. */
    method GetNextBackend() returns (target: Url)
      modifies this
      ensures counter == Increment(old(counter))
      ensures target == BackendAt(counter)
    {
      counter := Increment(counter);
      target := BackendServers[counter % |BackendServers|];
    }

    /** 204 as soon as the body is read, whatever the backend later does with it; 500, and no
        backend selected, when the body cannot be read. */
    method HandlePayments(bodyRead: bool) returns (reply: Reply)
      modifies this
      ensures bodyRead ==> counter == Increment(old(counter)) && reply == Answered(204, Some(BackendAt(counter)))
      ensures !bodyRead ==> counter == old(counter) && reply == Answered(500, None)
    {
      if !bodyRead {
        return Answered(500, None);
      }
      var target := GetNextBackend();
      reply := Answered(204, Some(target));
    }

    method HandleSummary() returns (reply: Reply)
      modifies this
      ensures counter == Increment(old(counter))
      ensures reply == Proxied(BackendAt(counter))
    {
      var target := GetNextBackend();
      reply := Proxied(target);
    }

    /** One request through the router. */
    method Serve(httpMethod: string, path: string, bodyRead: bool) returns (reply: Reply)
      modifies this
      ensures Route(httpMethod, path) == NotFound ==> counter == old(counter) && reply == Answered(404, None)
      ensures Route(httpMethod, path) == Summary ==> counter == Increment(old(counter)) && reply == Proxied(BackendAt(counter))
      ensures Route(httpMethod, path) == Payments ==>
                if bodyRead then counter == Increment(old(counter)) && reply == Answered(204, Some(BackendAt(counter)))
                else counter == old(counter) && reply == Answered(500, None)
    {
      match Route(httpMethod, path) {
        case Payments =>
          reply := HandlePayments(bodyRead);
        case Summary =>
          reply := HandleSummary();
        case NotFound =>
          reply := Answered(404, None);
      }
    }
  }

  // ---------------------------------------------------------------------------------
  // Lemmas

  /** Consecutive selections alternate between the two backends, also across the counter's
      wrap-around (2^64 is even). */
  lemma ConsecutiveSelectionsDiffer(c: Uint64)
    ensures BackendAt(Increment(c)) != BackendAt(c)
  {
    assert Api1 != Api2 by {
      assert Api1.host[3] != Api2.host[3];
    }
    if c == UINT64_MAX {
      assert c % 2 == 1;
    }
  }

  /** Selections n and n + 2 name the same backend. */
  lemma SelectionPeriodTwo(c: Uint64)
    ensures BackendAt(Increment(Increment(c))) == BackendAt(c)
  {
    ConsecutiveSelectionsDiffer(c);
    ConsecutiveSelectionsDiffer(Increment(c));
  }

  /** From a fresh counter the first selection is api2 and the second api1. */
  lemma FreshStartOrder()
    ensures BackendAt(Increment(0)) == Api2
    ensures BackendAt(Increment(Increment(0))) == Api1
  {
    assert Api1 != Api2 by {
      assert Api1.host[3] != Api2.host[3];
    }
  }

  /** The k-th selection after the counter value c is the backend at c + k, wrapped. */
  lemma SelectionAfter(c: Uint64, k: nat)
    ensures BackendAt(Iterate(c, k)) == BackendServers[(c + k) % 2]
  {
    var n := Iterate(c, k);
    WrapKeepsParity(c + k);
    assert n % 2 == (c + k) % 2;
    assert BackendAt(n) == BackendServers[n % 2];
  }

  /** Reducing modulo 2^64 keeps a number's parity. */
  lemma WrapKeepsParity(m: nat)
    ensures m % 0x1_0000_0000_0000_0000 % 2 == m % 2
  {
    var q := m / 0x1_0000_0000_0000_0000;
    var r := m % 0x1_0000_0000_0000_0000;
    assert m == 2 * (q * 0x8000_0000_0000_0000) + r;
  }

  /** The counter after k increments. */
  function Iterate(c: Uint64, k: nat): (n: Uint64)
    ensures n == (c + k) % 0x1_0000_0000_0000_0000
  {
    if k == 0 then c else Increment(Iterate(c, k - 1))
  }
}
