/**
 The payout client's retry loop, against a provider that keeps one payout per idempotency key.
 (packages/pouch-client/src/client.ts)
 */
module PouchClient {
  import opened Common
  import opened Options

  const RETRY_BACKOFF_BASE_MS: nat := 500

  /** The answer to one request, as the client's `fetch` and `res.json()` see it. */
  datatype Reply =
    | NetworkError                                  // fetch rejects
    | Aborted                                       // the client's own timeout
    | NotJson(status: nat)                          // res.json() rejects
    | Json(status: nat, successIsFalse: bool)

  /** What happens to one request: whether the provider acts on it, and the answer. */
  datatype Exchange = Exchange(acts: bool, reply: Reply) {
    predicate Success() {
      reply.Json? && 200 <= reply.status < 300 && !reply.successIsFalse
    }

    /** A provider that reports success has done the work. */
    ghost predicate Truthful() {
      Success() ==> acts
    }
  }

  datatype Error = ApiError(status: nat) | OtherError

  datatype Outcome = Returned(payout: nat) | Threw(error: Error) | ThrewUndefined

  /** `request`: how a failed exchange is classified. */
  function Classify(reply: Reply): Error {
    match reply
    case NetworkError => OtherError
    case Aborted => ApiError(408)
    case NotJson(_) => OtherError
    case Json(status, _) => ApiError(status)
  }

  /** Client errors end the loop; anything else is worth another attempt. */
  predicate Retryable(e: Exchange) {
    !e.Success() &&
    match Classify(e.reply)
    case ApiError(status) => status == 0 || status >= 500
    case OtherError => true
  }

  /** The loop's own test: success, or a client error whose status is known. */
  predicate Stops(error: Option<Error>) {
    error.None? || (error.value.ApiError? && error.value.status != 0 && error.value.status < 500)
  }

  lemma StopsUnlessRetryable(e: Exchange)
    ensures Stops(Failure(e)) <==> !Retryable(e)
  {
  }

  function Failure(e: Exchange): Option<Error> {
    if e.Success() then None else Some(Classify(e.reply))
  }

  lemma FailureIs(e: Exchange)
    ensures Failure(e) == match e.reply
      case Json(status, successIsFalse) =>
        if 200 <= status < 300 && !successIsFalse then None else Some(ApiError(status))
      case Aborted => Some(ApiError(408))
      case NotJson(_) => Some(OtherError)
      case NetworkError => Some(OtherError)
  {
  }

  /** Some exchange before the n-th was acted on. */
  ghost predicate Acted(exchanges: nat -> Exchange, n: nat) {
    exists i: nat | i < n :: exchanges(i).acts
  }

  /** The provider's payouts, numbered as they are made, once it has acted, or not, under one key. */
  ghost function PaidOnce(payouts: map<string, nat>, key: string, acted: bool): map<string, nat> {
    if acted && key !in payouts then payouts[key := |payouts|] else payouts
  }

  lemma ActedGrows(exchanges: nat -> Exchange, n: nat, payouts: map<string, nat>, key: string)
    ensures PaidOnce(PaidOnce(payouts, key, Acted(exchanges, n)), key, exchanges(n).acts)
         == PaidOnce(payouts, key, Acted(exchanges, n + 1))
    ensures PaidOnce(payouts, key, Acted(exchanges, 0)) == payouts
    ensures exchanges(n).acts ==> key in PaidOnce(payouts, key, Acted(exchanges, n + 1))
  {
    assert Acted(exchanges, n + 1) <==> Acted(exchanges, n) || exchanges(n).acts;
  }

  class Provider {
    var payouts: map<string, nat>

    constructor ()
      ensures payouts == map[]
    {
      payouts := map[];
    }

    /** A repeated key gives back the payout it made the first time. */
    method Receive(idempotencyKey: string, acts: bool)
      modifies this
      ensures payouts == PaidOnce(old(payouts), idempotencyKey, acts)
    {
      if acts && idempotencyKey !in payouts {
        payouts := payouts[idempotencyKey := |payouts|];
      }
    }
  }

  /** The waits of the first n retries add up to 500 (2^n - 1) milliseconds. */
  ghost function Waits(n: nat): (ms: nat)
    ensures ms == RETRY_BACKOFF_BASE_MS * (Pow2(n) - 1)
  {
    if n == 0 then 0 else Waits(n - 1) + RETRY_BACKOFF_BASE_MS * Pow2(n - 1)
  }

  /** The wait of a call that sent n requests: one pause between each two. */
  ghost function Waited(n: nat): nat {
    if n == 0 then 0 else Waits(n - 1)
  }

  /** What a call that sent `n` requests, the last with exchange `n - 1`, gives back. */
  ghost predicate Ends(exchanges: nat -> Exchange, n: nat, key: string, payouts: map<string, nat>, r: Outcome) {
    if n == 0 then r == ThrewUndefined
    else if exchanges(n - 1).Success() then key in payouts && r == Returned(payouts[key])
    else r == Threw(Classify(exchanges(n - 1).reply))
  }

  /** The number of requests of one call. */
  ghost function Requests(exchanges: nat -> Exchange, maxRetries: int): nat {
    if maxRetries < 0 then 0 else LastAttempt(exchanges, maxRetries, 0) + 1
  }

  class PouchLiquifiaClient {
    const maxRetries: int
    const provider: Provider
    var sent: seq<string>    // the key of every request, in order
    var waitedMs: nat

    constructor (provider: Provider, maxRetries: int)
      ensures this.provider == provider && this.maxRetries == maxRetries && sent == [] && waitedMs == 0
    {
      this.provider, this.maxRetries := provider, maxRetries;
      sent, waitedMs := [], 0;
    }

    /** One request; `None` is a successful answer. */
    method Request(idempotencyKey: string, exchange: Exchange) returns (error: Option<Error>)
      modifies this`sent, provider
      ensures sent == old(sent) + [idempotencyKey]
      ensures provider.payouts == PaidOnce(old(provider.payouts), idempotencyKey, exchange.acts)
      ensures error == match exchange.reply
        case Json(status, successIsFalse) =>
          if 200 <= status < 300 && !successIsFalse then None else Some(ApiError(status))
        case Aborted => Some(ApiError(408))
        case NotJson(_) => Some(OtherError)
        case NetworkError => Some(OtherError)
    {
      sent := sent + [idempotencyKey];
      provider.Receive(idempotencyKey, exchange.acts);
      if exchange.Success() {
        return None;
      }
      return Some(Classify(exchange.reply));
    }

    /**
     The i-th request of the call meets `exchanges(i)`.  All requests carry the one key; together they
     make at most one payout, and a call that returns, returns that payout.
     */
    method CreatePayout(idempotencyKey: string, exchanges: nat -> Exchange) returns (r: Outcome)
      requires forall i :: exchanges(i).Truthful()
      modifies this`sent, this`waitedMs, provider
      ensures var n := Requests(exchanges, maxRetries);
              && sent == old(sent) + Repeat(idempotencyKey, n)
              && provider.payouts == PaidOnce(old(provider.payouts), idempotencyKey, Acted(exchanges, n))
              && waitedMs == old(waitedMs) + (if n == 0 then 0 else 500 * (Pow2(n - 1) - 1))
              && Ends(exchanges, n, idempotencyKey, provider.payouts, r)
    {
      hide Acted, Pow2, Classify, Exchange.Success, PaidOnce, Retryable, Stops, Failure, Exchange.Truthful, Ends, LastAttempt,
        Waits, Waited;
      WaitsNothing();
      var lastError: Option<Error> := None;
      var attempt: int := 0;
      ActedGrows(exchanges, 0, provider.payouts, idempotencyKey);
      assert sent + Repeat(idempotencyKey, 0) == sent;
      while attempt <= maxRetries
        invariant 0 <= attempt && (attempt == 0 || attempt <= maxRetries + 1)
        invariant sent == old(sent) + Repeat(idempotencyKey, attempt)
        invariant provider.payouts == PaidOnce(old(provider.payouts), idempotencyKey, Acted(exchanges, attempt))
        invariant forall i: nat | i < attempt :: Retryable(exchanges(i))
        invariant lastError == if attempt == 0 then None else Failure(exchanges(attempt - 1))
        invariant waitedMs == old(waitedMs) + (if attempt <= maxRetries then Waits(attempt) else Waited(attempt))
      {
        ActedGrows(exchanges, attempt, old(provider.payouts), idempotencyKey);
        lastError := Request(idempotencyKey, exchanges(attempt));
        FailureIs(exchanges(attempt));
        assert sent == old(sent) + Repeat(idempotencyKey, attempt + 1);
        StopsUnlessRetryable(exchanges(attempt));
        WaitsMore(attempt);
        WaitedIs(attempt + 1);
        if Stops(lastError) {
          LastAttemptIs(exchanges, maxRetries, 0, attempt);
          EndsAt(exchanges, attempt + 1, idempotencyKey, old(provider.payouts), provider.payouts);
          return if lastError.None? then Returned(provider.payouts[idempotencyKey]) else Threw(lastError.value);
        }
        if attempt < maxRetries {
          waitedMs := waitedMs + RETRY_BACKOFF_BASE_MS * Pow2(attempt);
        }
        attempt := attempt + 1;
      }
      EndsUndefined(exchanges, idempotencyKey, provider.payouts);
      if maxRetries >= 0 {
        LastAttemptIs(exchanges, maxRetries, 0, maxRetries);
        RetryableFails(exchanges(maxRetries));
        EndsAt(exchanges, maxRetries + 1, idempotencyKey, old(provider.payouts), provider.payouts);
      }
      WaitedIs(attempt);
      return if lastError.Some? then Threw(lastError.value) else ThrewUndefined;
    }
  }

  lemma WaitedIs(n: nat)
    ensures Waited(n) == if n == 0 then 0 else 500 * (Pow2(n - 1) - 1)
  {
  }

  lemma WaitsNothing()
    ensures Waits(0) == 0 && Waited(0) == 0
  {
  }

  lemma WaitsMore(n: nat)
    ensures Waits(n + 1) == Waits(n) + RETRY_BACKOFF_BASE_MS * Pow2(n) && Waited(n + 1) == Waits(n)
  {
  }

  lemma RetryableFails(e: Exchange)
    requires Retryable(e)
    ensures Failure(e).Some?
  {
  }

  lemma EndsUndefined(exchanges: nat -> Exchange, key: string, payouts: map<string, nat>)
    ensures Ends(exchanges, 0, key, payouts, ThrewUndefined)
  {
  }

  /** A truthful success has left its payout with the provider. */
  lemma EndsAt(exchanges: nat -> Exchange, n: nat, key: string, before: map<string, nat>, payouts: map<string, nat>)
    requires n > 0 && exchanges(n - 1).Truthful()
    requires payouts == PaidOnce(before, key, Acted(exchanges, n))
    ensures var error := Failure(exchanges(n - 1));
      && (error.None? ==> key in payouts)
      && Ends(exchanges, n, key, payouts, if error.None? then Returned(payouts[key]) else Threw(error.value))
  {
    ActedGrows(exchanges, n - 1, before, key);
  }

  /** The place of the attempt after which no other is made, counting from `i`. */
  ghost function LastAttempt(exchanges: nat -> Exchange, maxRetries: nat, i: nat): (n: nat)
    requires i <= maxRetries
    ensures i <= n <= maxRetries
    ensures forall k: nat | i <= k < n :: Retryable(exchanges(k))
    ensures n < maxRetries ==> !Retryable(exchanges(n))
    decreases maxRetries - i
  {
    if i == maxRetries || !Retryable(exchanges(i)) then i else LastAttempt(exchanges, maxRetries, i + 1)
  }

  lemma {:induction false} LastAttemptIs(exchanges: nat -> Exchange, maxRetries: nat, i: nat, n: nat)
    requires i <= n <= maxRetries && forall k: nat | i <= k < n :: Retryable(exchanges(k))
    requires n == maxRetries || !Retryable(exchanges(n))
    ensures LastAttempt(exchanges, maxRetries, i) == n
    decreases n - i
  {
    if i < n {
      LastAttemptIs(exchanges, maxRetries, i + 1, n);
    }
  }

  /**
   Whatever is lost on the way, a call whose exchanges stop being faulty after `bad` of them returns
   the payout, whenever that many retries are allowed.
   */
  lemma RecoversWithinRetries(exchanges: nat -> Exchange, maxRetries: nat, bad: nat,
                              key: string, payouts: map<string, nat>, r: Outcome)
    requires bad <= maxRetries && exchanges(bad).Success()
    requires forall k: nat | k < bad :: Retryable(exchanges(k))
    requires Ends(exchanges, Requests(exchanges, maxRetries), key, payouts, r)
    ensures Requests(exchanges, maxRetries) == bad + 1
    ensures key in payouts && r == Returned(payouts[key])
  {
    LastAttemptIs(exchanges, maxRetries, 0, bad);
  }

  /**
   Which answer ends a call.  A JSON answer does if it reports success, or any status from 1 to 499, also a 2xx that
   says it failed; it is then thrown with its status.  The client's own timeout always does, as a 408.  Everything
   else, also a 4xx whose body is not JSON, is retried while a retry is left.
   */
  lemma WhichAnswerEndsTheCall(exchanges: nat -> Exchange, maxRetries: nat, k: nat,
                               key: string, payouts: map<string, nat>, r: Outcome)
    requires k <= maxRetries && forall i: nat | i < k :: Retryable(exchanges(i))
    requires Ends(exchanges, Requests(exchanges, maxRetries), key, payouts, r)
    ensures var last := Requests(exchanges, maxRetries) == k + 1;
      match exchanges(k).reply
      case Json(status, successIsFalse) =>
        var ok := 200 <= status < 300 && !successIsFalse;
        && (last <==> ok || 0 < status < 500 || k == maxRetries)
        && (last ==> if ok then key in payouts && r == Returned(payouts[key]) else r == Threw(ApiError(status)))
      case NotJson(_) => (last <==> k == maxRetries) && (last ==> r == Threw(OtherError))
      case NetworkError => (last <==> k == maxRetries) && (last ==> r == Threw(OtherError))
      case Aborted => last && r == Threw(ApiError(408))
  {
    if k == maxRetries || !Retryable(exchanges(k)) {
      LastAttemptIs(exchanges, maxRetries, 0, k);
    } else {
      RunsPast(exchanges, maxRetries, 0, k);
    }
  }

  lemma {:induction false} RunsPast(exchanges: nat -> Exchange, maxRetries: nat, i: nat, k: nat)
    requires i <= k < maxRetries && forall j: nat | i <= j <= k :: Retryable(exchanges(j))
    ensures LastAttempt(exchanges, maxRetries, i) > k
    decreases k - i
  {
    if i < k {
      RunsPast(exchanges, maxRetries, i + 1, k);
    }
  }

  /** Bounds on one call: at most maxRetries + 1 requests and 500 (2^maxRetries - 1) milliseconds of waiting. */
  lemma RequestsBound(exchanges: nat -> Exchange, maxRetries: nat)
    ensures 1 <= Requests(exchanges, maxRetries) <= maxRetries + 1
    ensures Waits(Requests(exchanges, maxRetries) - 1) <= 500 * (Pow2(maxRetries) - 1)
  {
    hide Waits;
    Pow2Mono(Requests(exchanges, maxRetries) - 1, maxRetries);
  }
}
