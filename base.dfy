/**
  Shared service plumbing (backend/app/services/base.py): the response wrapper every
  service returns, the availability flag set by `initialize`, and the `retry_on_failure`
  wrapper with exponential waits.
*/
module ServiceBase {
  import opened Wrappers

  /** `ServiceResponse` without its creation timestamp. */
  datatype ServiceResponse<T> = ServiceResponse(success: bool, data: Option<T>, error: Option<string>, serviceUsed: Option<string>)

  /** The outcome of one call into code the model does not see: a value or an exception. */
  datatype Outcome<+T, +E> = Returned(value: T) | Raised(error: E)

  /** A boolean check supplied by a concrete service: it answers, or it raises. */
  datatype Check = Answers(ok: bool) | Throws

  /** `BaseExternalService`: the common state of the four vendor-backed services. The
      credential check and the client initialiser belong to the concrete service and are
      passed to `Initialize` as their outcomes. */
  class ExternalService {
    const serviceName: string
    var hasClient: bool
    var isAvailable: bool

    constructor (name: string)
      ensures serviceName == name && !hasClient && !isAvailable
    {
      serviceName := name;
      hasClient := false;
      isAvailable := false;
    }

    /** `initialize`: the service is available exactly when the credentials check answers
        true and the client initialiser then answers true. The initialiser is consulted only
        when the credentials are valid, and an exception from either leaves the service
        unavailable. A concrete initialiser stores its client just before it answers true,
        so the service then has a client. */
    method Initialize(validateCredentials: Check, initializeClient: Check) returns (initialiserCalled: bool)
      modifies this`isAvailable, this`hasClient
      ensures isAvailable <==> validateCredentials == Answers(true) && initializeClient == Answers(true)
      ensures hasClient <==> old(hasClient) || isAvailable
      ensures initialiserCalled <==> validateCredentials == Answers(true)
    {
      initialiserCalled := false;
      match validateCredentials
      case Throws =>
        isAvailable := false;
      case Answers(valid) =>
        if !valid {
          isAvailable := false;
        } else {
          initialiserCalled := true;
          match initializeClient
          case Throws =>
            isAvailable := false;
          case Answers(ready) =>
            isAvailable := ready;
            hasClient := hasClient || ready;
        }
    }
  }

  function Pow2(k: nat): (r: nat)
    ensures r >= 1
  {
    if k == 0 then 1 else 2 * Pow2(k - 1)
  }

  /** The waits taken after the first `n` failed attempts: `delay * 2^k` after attempt `k`. */
  function Backoff(delay: real, n: nat): (r: seq<real>)
    ensures |r| == n
  {
    if n == 0 then [] else Backoff(delay, n - 1) + [delay * Pow2(n - 1) as real]
  }

  lemma {:induction false} BackoffAt(delay: real, n: nat, k: nat)
    requires k < n
    ensures Backoff(delay, n)[k] == delay * Pow2(k) as real
  {
    if k < n - 1 {
      BackoffAt(delay, n - 1, k);
    }
  }

  /** Each wait is twice the one before. */
  lemma BackoffDoubles(delay: real, n: nat, k: nat)
    requires k + 1 < n
    ensures Backoff(delay, n)[k + 1] == 2.0 * Backoff(delay, n)[k]
  {
    BackoffAt(delay, n, k);
    BackoffAt(delay, n, k + 1);
  }

  /** `retry_on_failure(max_retries, delay)` applied to a function whose successive calls
      have the outcomes `attempt(0)`, `attempt(1)`, ... The function is called at most
      `maxRetries + 1` times and stops at the first call that returns, whose value is the
      result. If every call raises, the last call's exception is the result. `waits` lists the
      sleeps taken: one after each failed call except the last allowed one. */
  method RetryOnFailure<T, E>(maxRetries: nat, delay: real, attempt: nat -> Outcome<T, E>)
    returns (result: Outcome<T, E>, calls: nat, waits: seq<real>)
    ensures 1 <= calls <= maxRetries + 1
    ensures forall j :: 0 <= j < calls - 1 ==> attempt(j).Raised?
    ensures result == attempt(calls - 1)
    ensures result.Raised? ==> calls == maxRetries + 1
    ensures waits == Backoff(delay, calls - 1)
  {
    result := attempt(0);
    calls := 1;
    waits := [];
    while result.Raised? && calls <= maxRetries
      invariant 1 <= calls <= maxRetries + 1
      invariant forall j :: 0 <= j < calls - 1 ==> attempt(j).Raised?
      invariant result == attempt(calls - 1)
      invariant waits == Backoff(delay, calls - 1)
    {
      waits := waits + [delay * Pow2(calls - 1) as real];
      result := attempt(calls);
      calls := calls + 1;
    }
  }
}
