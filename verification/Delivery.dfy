/** The delivery loop: bounded retries with exponential back-off. */
module Delivery {
  import opened Market

  /** What one POST of a lead can meet. */
  datatype Reply = Status(code: nat) | TimedOut | NetworkFailed | OtherError

  predicate IsSuccess(reply: Reply) {
    reply.Status? && 200 <= reply.code < 300
  }

  predicate ShouldRetry(reply: Reply) {
    match reply
    case Status(code) => code == 429 || 500 <= code <= 599
    case TimedOut => true
    case NetworkFailed => true
    case OtherError => false
  }

  function Pow2(n: nat): nat {
    if n == 0 then 1 else 2 * Pow2(n - 1)
  }

  function CodeOf(reply: Reply): Option<nat> {
    if reply.Status? then Some(reply.code) else None
  }

  datatype Outcome = Delivered(code: Option<nat>) | Failed(code: Option<nat>) | Exhausted

  /** The attempt at which the loop stops, counted from k: the first success or final failure, else the last allowed. */
  function StopsAt(script: nat -> Reply, k: nat, maxAttempts: nat): (n: nat)
    requires k <= maxAttempts
    ensures k <= n <= maxAttempts
    ensures forall j :: k <= j < n ==> !IsSuccess(script(j)) && ShouldRetry(script(j))
    ensures n == maxAttempts || IsSuccess(script(n)) || !ShouldRetry(script(n))
    decreases maxAttempts - k
  {
    if k == maxAttempts || IsSuccess(script(k)) || !ShouldRetry(script(k)) then k
    else StopsAt(script, k + 1, maxAttempts)
  }

  /** The pause after the n-th failed attempt, counted from 0. */
  function Pause(baseDelay: real, n: nat): real {
    baseDelay * Pow2(n) as real
  }

  /** Each pause is twice the one before. */
  lemma PausesDouble(baseDelay: real, n: nat)
    ensures Pause(baseDelay, 0) == baseDelay && Pause(baseDelay, n + 1) == Pause(baseDelay, n) + Pause(baseDelay, n)
  {
    assert baseDelay * (2.0 * Pow2(n) as real) == baseDelay * Pow2(n) as real + baseDelay * Pow2(n) as real;
  }

  /** Total sleep after n failed attempts. */
  function Backoff(baseDelay: real, n: nat): real {
    baseDelay * (Pow2(n) - 1) as real
  }

  lemma BackoffStep(baseDelay: real, n: nat)
    ensures Backoff(baseDelay, 0) == 0.0
    ensures Backoff(baseDelay, n + 1) == Backoff(baseDelay, n) + Pause(baseDelay, n)
  {
    var p := Pow2(n) as real;
    assert baseDelay * (p - 1.0) + baseDelay * p == baseDelay * (2.0 * p - 1.0);
  }

  /** Post the lead; script gives the reply to each attempt, numbered from 1. */
  method PostToWinner(script: nat -> Reply, maxAttempts: nat, baseDelay: real)
    returns (outcome: Outcome, attempts: nat, slept: real)
    ensures maxAttempts == 0 ==> outcome == Exhausted && attempts == 0
    ensures maxAttempts >= 1 ==>
              && attempts == StopsAt(script, 1, maxAttempts)
              && outcome == (if IsSuccess(script(attempts)) then Delivered(CodeOf(script(attempts)))
                             else Failed(CodeOf(script(attempts))))
              && slept == Backoff(baseDelay, attempts - 1)
    ensures maxAttempts >= 1 ==>
              && 1 <= attempts <= maxAttempts
              && (forall k :: 1 <= k < attempts ==>
                    || script(k) in {TimedOut, NetworkFailed}
                    || (script(k).Status? && (script(k).code == 429 || 500 <= script(k).code <= 599)))
              && (attempts < maxAttempts ==>
                    || script(attempts) == OtherError
                    || (script(attempts).Status? && script(attempts).code != 429 &&
                        !(500 <= script(attempts).code <= 599)))
              && outcome == match script(attempts)
                            case Status(code) => if 200 <= code <= 299
                              then Delivered(Some(code)) else Failed(Some(code))
                            case _ => Failed(None)
  {
    hide Backoff, Pause;
    slept := 0.0;
    BackoffStep(baseDelay, 0);
    attempts := 0;
    while attempts < maxAttempts
      invariant attempts <= maxAttempts
      invariant attempts < maxAttempts ==>
                  StopsAt(script, attempts + 1, maxAttempts) == StopsAt(script, 1, maxAttempts)
      invariant attempts == maxAttempts ==> maxAttempts == 0
      invariant slept == Backoff(baseDelay, attempts)
    {
      attempts := attempts + 1;
      var reply := script(attempts);
      if IsSuccess(reply) {
        return Delivered(CodeOf(reply)), attempts, slept;
      }
      var retry := ShouldRetry(reply);
      if retry && attempts < maxAttempts {
        BackoffStep(baseDelay, attempts - 1);
        slept := slept + Pause(baseDelay, attempts - 1);
        continue;
      }
      return Failed(CodeOf(reply)), attempts, slept;
    }
    outcome := Exhausted;
  }
}
