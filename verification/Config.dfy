// Runtime configuration and the invariants checked once at startup.

module Config {
  import opened Types

  datatype Settings = Settings(
    dbPoolMinSize: int,
    dbPoolMaxSize: int,
    connectTimeout: real,
    readTimeout: real,
    attemptDeadline: real,
    retryBase: real,
    retryFactor: real,
    retryCap: real,
    retryMaxAttempts: int,
    retryJitter: real,
    workerConcurrency: int,
    workerBatchSize: int,
    lease: real,
    maxClaimsPerOrigin: int,
    claimScanMultiplier: int)

  /** The values the service ships with. */
  const DEFAULTS := Settings(2, 10, 5.0, 30.0, 45.0, 5.0, 2.0, 3600.0, 34, 0.2, 32, 16, 90.0, 4, 5)

  datatype Violation =
    | LeaseWithinDeadline
    | PhasesExceedDeadline
    | BatchExceedsConcurrency
    | PoolBoundsCrossed

  /** The bounds declared on the individual fields. */
  ghost predicate InRange(s: Settings) {
    && s.dbPoolMinSize >= 1 && s.dbPoolMaxSize >= 1
    && s.connectTimeout > 0.0 && s.readTimeout > 0.0 && s.attemptDeadline > 0.0
    && s.retryBase > 0.0 && s.retryFactor >= 1.0 && s.retryCap > 0.0
    && s.retryMaxAttempts >= 1
    && 0.0 <= s.retryJitter < 1.0
    && s.workerConcurrency > 0 && s.workerBatchSize > 0
    && s.lease > 0.0 && s.maxClaimsPerOrigin > 0 && s.claimScanMultiplier >= 1
  }

  /** The delivery engine's own demands, stated as what must hold. */
  ghost predicate Consistent(s: Settings) {
    && s.attemptDeadline < s.lease
    && s.connectTimeout + s.readTimeout <= s.attemptDeadline
    && s.workerBatchSize <= s.workerConcurrency
    && s.dbPoolMinSize <= s.dbPoolMaxSize
  }

  /** Settings a running process can have. */
  ghost predicate Validated(s: Settings) {
    InRange(s) && Consistent(s)
  }

  ghost predicate Broken(s: Settings, v: Violation) {
    match v
    case LeaseWithinDeadline => s.lease <= s.attemptDeadline
    case PhasesExceedDeadline => s.attemptDeadline < s.connectTimeout + s.readTimeout
    case BatchExceedsConcurrency => s.workerConcurrency < s.workerBatchSize
    case PoolBoundsCrossed => s.dbPoolMaxSize < s.dbPoolMinSize
  }

  /** The shipped settings pass the startup check with room to spare: an attempt ends within half its lease
      and leaves its phases ten seconds, a batch fills half the slots, one host at most a quarter of it. */
  lemma ShippedMargins()
    ensures Validated(DEFAULTS)
    ensures 2.0 * DEFAULTS.attemptDeadline == DEFAULTS.lease == 90.0
    ensures DEFAULTS.connectTimeout + DEFAULTS.readTimeout + 10.0 == DEFAULTS.attemptDeadline
    ensures 2 * DEFAULTS.workerBatchSize == DEFAULTS.workerConcurrency == 32
    ensures 4 * DEFAULTS.maxClaimsPerOrigin == DEFAULTS.workerBatchSize
    ensures DEFAULTS.dbPoolMaxSize == 5 * DEFAULTS.dbPoolMinSize == 10
    ensures DEFAULTS.retryJitter == 0.2
  {
  }

  /** A constant delay, a single attempt and no jitter are allowed too. */
  lemma PlainSettingsAreAllowed()
    ensures Validated(DEFAULTS.(retryFactor := 1.0, retryMaxAttempts := 1, retryJitter := 0.0))
    ensures Validated(DEFAULTS.(workerConcurrency := 1, workerBatchSize := 1, maxClaimsPerOrigin := 1,
                                claimScanMultiplier := 1, dbPoolMinSize := 1, dbPoolMaxSize := 1))
  {
  }

  /** Startup check: every violated invariant is reported exactly once, and the process
      starts exactly when the engine's demands hold. */
  method ValidateInvariants(s: Settings) returns (r: Result<Settings, seq<Violation>>)
    ensures r.Ok? <==> Consistent(s)
    ensures r.Ok? ==> r.value == s
    ensures r.Err? ==> forall v :: v in r.error <==> Broken(s, v)
    ensures r.Err? ==> forall i, j :: 0 <= i < j < |r.error| ==> r.error[i] != r.error[j]
  {
    var errors: seq<Violation> := [];
    if s.lease <= s.attemptDeadline {
      errors := errors + [LeaseWithinDeadline];
    }
    var phaseBudget := s.connectTimeout + s.readTimeout;
    if phaseBudget > s.attemptDeadline {
      errors := errors + [PhasesExceedDeadline];
    }
    if s.workerBatchSize > s.workerConcurrency {
      errors := errors + [BatchExceedsConcurrency];
    }
    if s.dbPoolMaxSize < s.dbPoolMinSize {
      errors := errors + [PoolBoundsCrossed];
    }
    if errors != [] {
      assert Broken(s, errors[0]);
      return Err(errors);
    }
    return Ok(s);
  }
}
