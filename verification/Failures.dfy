/** The failure taxonomy shared by the backends, the ledger and the router. */
module Failures {

  datatype FailureKind =
    | MalformedToolCall | SchemaViolation | Timeout | ConnectionError
    | EmptyResponse | TruncatedResponse | RateLimitHit | ServerError
    | BadRequest | AuthError | ModelNotFound | ContextOverflow | RequestCancelled
    | OtherFailure(name: string)
  {
    /** The model's fault rather than the request's. */
    predicate TripsBreaker() {
      MalformedToolCall? || SchemaViolation? || Timeout? || ConnectionError?
      || EmptyResponse? || TruncatedResponse? || RateLimitHit? || ServerError?
    }

    /** Trying another model cannot help. */
    predicate Fatal() {
      AuthError? || ModelNotFound?
    }

    predicate NonRetryable() {
      Fatal() || BadRequest? || RequestCancelled?
    }
  }

  /** Exactly these eight kinds count against a model's breaker: what a model or its server did, never what the request
      or its credentials did. */
  lemma TripsIff(kind: FailureKind)
    ensures kind.TripsBreaker() <==>
            kind in {MalformedToolCall, SchemaViolation, Timeout, ConnectionError,
                     EmptyResponse, TruncatedResponse, RateLimitHit, ServerError}
  {
  }

  /** Exactly these four end a request's failover: another model would be refused the same way, or nobody is waiting. */
  lemma NonRetryableIff(kind: FailureKind)
    ensures kind.NonRetryable() <==> kind in {AuthError, ModelNotFound, BadRequest, RequestCancelled}
  {
  }
}
