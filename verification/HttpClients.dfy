/** The bounded retry loops of the service-to-service HTTP clients.

    The network is adversarial: `net(i)` is whatever the i-th request meets. Each loop is proved
    against a description that mentions no loop: the verdict belongs to the first request whose
    outcome is decisive, if one of the first three is. What an outcome decides is stated in status
    codes and bodies. */
module HttpClients {
  import opened Common

  const MAX_RETRIES: nat := 2
  const INITIAL_BACKOFF_SECONDS: real := 0.1

  /** What one request meets: a response, one of the transport failures the clients catch
      (timeout, connect and network errors), or an exception they do not catch. */
  datatype Outcome<+B> = Response(code: int, body: B) | TransportFailure | OtherFailure

  /** The body of a response to `POST /claims`, as far as the client and its caller look at it:
      `OddId` has a truthy `id` that is no UUID. */
  datatype ClaimBody = NotJson | NoId | OddId | ClaimId(id: nat)

  /** The body of a response to `GET /policies/{id}`. */
  datatype PolicyBody = NotAnObject | Policy(active: bool)

  datatype ClaimsVerdict =
    | Created(id: nat)
    | CreatedOddId
    | Rejected(code: int)
    | ReconciliationRequired
    | ClaimsUnavailable
    | ClaimsUncaught

  datatype PolicyVerdict = Active | NotFound | NotActive | PolicyUnavailable | PolicyUncaught

  predicate ServerError(code: int) { 500 <= code < 600 }

  predicate Success(code: int) { 200 <= code < 300 }

  /** Outcomes that say nothing final about the request. */
  predicate Ambiguous<B>(o: Outcome<B>) {
    o.TransportFailure? || (o.Response? && ServerError(o.code))
  }

  /** The verdict a decisive outcome of a claim POST stands for. */
  function ClaimsAnswer(o: Outcome<ClaimBody>): ClaimsVerdict
    requires !Ambiguous(o)
  {
    match o
    case OtherFailure => ClaimsUncaught
    case Response(code, body) =>
      if 400 <= code < 500 then (if body.NotJson? then ClaimsUncaught else Rejected(code))
      else if !Success(code) then ReconciliationRequired
      else if body.NotJson? || body.NoId? then ReconciliationRequired
      else if body.OddId? then CreatedOddId
      else Created(body.id)
  }

  /** The verdict a decisive outcome of a policy lookup stands for. */
  function PolicyAnswer(o: Outcome<PolicyBody>): PolicyVerdict
    requires !Ambiguous(o)
  {
    match o
    case OtherFailure => PolicyUncaught
    case Response(code, body) =>
      if code == 404 then NotFound
      else if !Success(code) then PolicyUnavailable
      else if body.NotAnObject? then PolicyUncaught
      else if body.active then Active
      else NotActive
  }

  /** `n` requests in a row were ambiguous and, unless the budget is spent, the next one is not. */
  ghost predicate FirstDecisive<B>(net: nat -> Outcome<B>, n: nat) {
    && n <= MAX_RETRIES + 1
    && (forall i: nat :: i < n ==> Ambiguous(net(i)))
    && (n <= MAX_RETRIES ==> !Ambiguous(net(n)))
  }

  /** Every network has exactly one such index, so the contracts below pin the outcome down. */
  lemma FirstDecisiveExists<B>(net: nat -> Outcome<B>) returns (n: nat)
    ensures FirstDecisive(net, n)
    ensures forall m: nat :: FirstDecisive(net, m) ==> m == n
  {
    n := 0;
    while n <= MAX_RETRIES && Ambiguous(net(n))
      invariant n <= MAX_RETRIES + 1
      invariant forall i: nat :: i < n ==> Ambiguous(net(i))
    {
      n := n + 1;
    }
    forall m: nat | FirstDecisive(net, m)
      ensures m == n
    {
      assert m < n ==> !Ambiguous(net(m));
      assert n < m ==> Ambiguous(net(n));
    }
  }

  /** `claims_client.create_claim`. */
  method CreateClaim(net: nat -> Outcome<ClaimBody>)
    returns (verdict: ClaimsVerdict, posts: nat, slept: real)
    ensures forall n: nat :: FirstDecisive(net, n) && n <= MAX_RETRIES ==>
      verdict == ClaimsAnswer(net(n)) && posts == n + 1
    ensures forall n: nat :: FirstDecisive(net, n) && n > MAX_RETRIES ==>
      verdict == ReconciliationRequired && posts == MAX_RETRIES + 1
    // The same in codes and bodies, first when request `n` is answered, then when it fails otherwise.
    ensures forall n: nat ::
      && n <= 2
      && (forall i: nat :: i < n ==> net(i).TransportFailure? || (net(i).Response? && 500 <= net(i).code <= 599))
      && net(n).Response? && !(500 <= net(n).code <= 599) ==>
        var code, body := net(n).code, net(n).body;
        && posts == n + 1
        && verdict ==
           if 400 <= code <= 499 then (if body == NotJson then ClaimsUncaught else Rejected(code))
           else if 200 <= code <= 299 && body.ClaimId? then Created(body.id)
           else if 200 <= code <= 299 && body == OddId then CreatedOddId
           else ReconciliationRequired
    ensures forall n: nat ::
      && n <= 2
      && (forall i: nat :: i < n ==> net(i).TransportFailure? || (net(i).Response? && 500 <= net(i).code <= 599))
      && net(n).OtherFailure? ==>
        verdict == ClaimsUncaught && posts == n + 1
    ensures (forall i: nat :: i < 3 ==> net(i).TransportFailure? || (net(i).Response? && 500 <= net(i).code <= 599)) ==>
      verdict == ReconciliationRequired && posts == 3
    ensures 1 <= posts <= 3
    ensures slept == [0.0, 0.1, 0.3][posts - 1]
    ensures verdict != ClaimsUnavailable
  {
    posts, slept := 0, 0.0;
    var attempt := 0;
    while attempt < MAX_RETRIES + 1
      invariant attempt <= MAX_RETRIES
      invariant posts == attempt
      invariant slept == [0.0, 0.1, 0.3][attempt]
      invariant forall i: nat :: i < attempt ==> Ambiguous(net(i))
      decreases MAX_RETRIES + 1 - attempt
    {
      // The two backoffs that can be slept, so that the sum below is linear.
      assert attempt < MAX_RETRIES ==> (attempt == 0 && Pow2(attempt) == 1) || (attempt == 1 && Pow2(attempt) == 2);
      var outcome := net(attempt);
      posts := posts + 1;
      match outcome {
        case OtherFailure =>
          return ClaimsUncaught, posts, slept;
        case TransportFailure =>
          if attempt >= MAX_RETRIES {
            return ReconciliationRequired, posts, slept;
          }
          slept := slept + INITIAL_BACKOFF_SECONDS * Pow2(attempt) as real;
        case Response(code, body) =>
          if 400 <= code < 500 {
            if body.NotJson? {
              return ClaimsUncaught, posts, slept;
            }
            return Rejected(code), posts, slept;
          }
          if Success(code) {
            match body
            case NotJson => return ReconciliationRequired, posts, slept;
            case NoId => return ReconciliationRequired, posts, slept;
            case OddId => return CreatedOddId, posts, slept;
            case ClaimId(id) => return Created(id), posts, slept;
          }
          if !(ServerError(code) && attempt < MAX_RETRIES) {
            return ReconciliationRequired, posts, slept;
          }
          slept := slept + INITIAL_BACKOFF_SECONDS * Pow2(attempt) as real;
      }
      attempt := attempt + 1;
    }
    // The loop never runs out: the last attempt always returns above, so the trailing raise of
    // the "unavailable" exception is dead code.
    assert false;
    verdict := ClaimsUnavailable;
  }

  /** `policy_client.get_policy` of the orchestrator and `_request_policy` of the Claims Service:
      the two loops differ only in logging. */
  method GetPolicy(net: nat -> Outcome<PolicyBody>)
    returns (verdict: PolicyVerdict, requests: nat, slept: real)
    ensures forall n: nat :: FirstDecisive(net, n) && n <= MAX_RETRIES ==>
      verdict == PolicyAnswer(net(n)) && requests == n + 1
    ensures forall n: nat :: FirstDecisive(net, n) && n > MAX_RETRIES ==>
      verdict == PolicyUnavailable && requests == MAX_RETRIES + 1
    // The same in codes and bodies, first when request `n` is answered, then when it fails otherwise.
    ensures forall n: nat ::
      && n <= 2
      && (forall i: nat :: i < n ==> net(i).TransportFailure? || (net(i).Response? && 500 <= net(i).code <= 599))
      && net(n).Response? && !(500 <= net(n).code <= 599) ==>
        var code, body := net(n).code, net(n).body;
        && requests == n + 1
        && verdict ==
           if code == 404 then NotFound
           else if !(200 <= code <= 299) then PolicyUnavailable
           else if body == NotAnObject then PolicyUncaught
           else if body == Policy(true) then Active
           else NotActive
    ensures forall n: nat ::
      && n <= 2
      && (forall i: nat :: i < n ==> net(i).TransportFailure? || (net(i).Response? && 500 <= net(i).code <= 599))
      && net(n).OtherFailure? ==>
        verdict == PolicyUncaught && requests == n + 1
    ensures (forall i: nat :: i < 3 ==> net(i).TransportFailure? || (net(i).Response? && 500 <= net(i).code <= 599)) ==>
      verdict == PolicyUnavailable && requests == 3
    ensures 1 <= requests <= 3
    ensures slept == [0.0, 0.1, 0.3][requests - 1]
  {
    requests, slept := 0, 0.0;
    var attempt := 0;
    while attempt < MAX_RETRIES + 1
      invariant attempt <= MAX_RETRIES
      invariant requests == attempt
      invariant slept == [0.0, 0.1, 0.3][attempt]
      invariant forall i: nat :: i < attempt ==> Ambiguous(net(i))
      decreases MAX_RETRIES + 1 - attempt
    {
      // The two backoffs that can be slept, so that the sum below is linear.
      assert attempt < MAX_RETRIES ==> (attempt == 0 && Pow2(attempt) == 1) || (attempt == 1 && Pow2(attempt) == 2);
      var outcome := net(attempt);
      requests := requests + 1;
      match outcome {
        case OtherFailure =>
          return PolicyUncaught, requests, slept;
        case TransportFailure =>
          if attempt >= MAX_RETRIES {
            return PolicyUnavailable, requests, slept;
          }
          slept := slept + INITIAL_BACKOFF_SECONDS * Pow2(attempt) as real;
        case Response(code, body) =>
          if code == 404 {
            return NotFound, requests, slept;
          }
          if Success(code) {
            match body
            case NotAnObject => return PolicyUncaught, requests, slept;
            case Policy(active) =>
              if !active {
                return NotActive, requests, slept;
              }
              return Active, requests, slept;
          }
          if !(ServerError(code) && attempt < MAX_RETRIES) {
            return PolicyUnavailable, requests, slept;
          }
          slept := slept + INITIAL_BACKOFF_SECONDS * Pow2(attempt) as real;
      }
      attempt := attempt + 1;
    }
    assert false;
    verdict := PolicyUnavailable;
  }
}
