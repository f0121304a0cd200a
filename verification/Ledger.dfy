/** The ledger: calls, events and the circuit breaker, with the closed form of the breaker over whole histories. */
module LedgerModel {
  import opened Common
  import opened EventLog
  import opened Failures

  const TRIP_THRESHOLD := 3
  const BASE_BACKOFF_S := 60.0
  const MAX_BACKOFF_S := 3600.0

  // `60.0 * (2 ** n)` raises OverflowError from this exponent on: the integer no longer fits a double.
  const FLOAT_EXPONENT_LIMIT := 1024

  /** Whether a call went through the router or was a harness run metered against a subscription. */
  datatype Source = Routed(backend: string) | Harness(runtime: Runtime)

  datatype Call = Call(ts: Time, source: Source, modelRef: string, ok: bool, failureKind: Option<FailureKind>,
                       costUsd: real, attempt: nat)

  datatype BreakerRow = BreakerRow(consecutive: nat, openUntil: real, trips: nat)

  // A model without a row reads as this one.
  const FRESH_ROW := BreakerRow(0, 0.0, 0)

  function Pow2(n: nat): (r: nat)
    ensures r >= 1
  {
    if n == 0 then 1 else 2 * Pow2(n - 1)
  }

  function Backoff(trips: nat): real
    requires trips >= 1
  {
    MinReal(BASE_BACKOFF_S * Pow2(trips - 1) as real, MAX_BACKOFF_S)
  }

  predicate Counted(failureKind: Option<FailureKind>) {
    failureKind.Some? && failureKind.value.TripsBreaker()
  }

  /** One breaker update. `None` is the OverflowError: the transaction is rolled back. */
  function Advance(row: BreakerRow, ok: bool, failureKind: Option<FailureKind>, now: Time): Option<BreakerRow> {
    if ok then Some(row.(consecutive := 0, openUntil := 0.0))
    else if !Counted(failureKind) then Some(row)
    else if row.consecutive + 1 < TRIP_THRESHOLD then Some(row.(consecutive := row.consecutive + 1, openUntil := 0.0))
    else if row.trips >= FLOAT_EXPONENT_LIMIT then None
    else Some(BreakerRow(0, now + Backoff(row.trips + 1), row.trips + 1))
  }

  // -- backoff -------------------------------------------------------------

  lemma {:induction false} Pow2Monotone(a: nat, b: nat)
    requires a <= b
    ensures Pow2(a) <= Pow2(b)
  {
    if a < b {
      Pow2Monotone(a, b - 1);
    }
  }

  /** Every backoff lies between one minute and one hour, never shrinks with more trips, and is an hour from the
      seventh trip on. */
  lemma BackoffBounds(a: nat, b: nat)
    requires 1 <= a <= b
    ensures BASE_BACKOFF_S <= Backoff(a) <= Backoff(b) <= MAX_BACKOFF_S
    ensures b >= 7 <==> Backoff(b) == MAX_BACKOFF_S
  {
    Pow2Monotone(a - 1, b - 1);
    assert Pow2(6) == 64 by { assert Pow2(3) == 8; }
    if b >= 7 {
      Pow2Monotone(6, b - 1);
    } else {
      Pow2Monotone(b - 1, 5);
      assert Pow2(5) == 32 by { assert Pow2(3) == 8; }
    }
  }

  /** A minute after the first trip, and twice as long after each further one until it is an hour. */
  lemma BackoffDoubles(n: nat)
    requires n >= 1
    ensures Backoff(1) == 60.0 && Backoff(n + 1) == MinReal(2.0 * Backoff(n), 3600.0)
  {
    assert Pow2(0) == 1 && Pow2(n) == 2 * Pow2(n - 1);
  }

  // -- the history of one model ---------------------------------------------

  /** One call to `record_call`, whether or not it got through. */
  datatype Attempt = Attempt(modelRef: string, ok: bool, failureKind: Option<FailureKind>, at: Time) {
    predicate CountedFailure() {
      !ok && Counted(failureKind)
    }

    predicate Counts(model: string) {
      modelRef == model && (ok || CountedFailure())
    }
  }

  /** The attempts on `model` that say something about it: successes and counted failures. */
  function Relevant(h: seq<Attempt>, model: string): seq<Attempt> {
    if h == [] then []
    else Relevant(h[..|h| - 1], model) + if h[|h| - 1].Counts(model) then [h[|h| - 1]] else []
  }

  /** A history of successes and counted failures cut at its successes: how many failures each piece holds. */
  function FailureRuns(rel: seq<Attempt>): (runs: seq<nat>)
    ensures |runs| >= 1
  {
    if rel == [] then [0]
    else
      var runs := FailureRuns(rel[..|rel| - 1]);
      if rel[|rel| - 1].ok then runs + [0]
      else runs[|runs| - 1 := runs[|runs| - 1] + 1]
  }

  function CompletedTrips(runs: seq<nat>): nat {
    if runs == [] then 0 else CompletedTrips(runs[..|runs| - 1]) + runs[|runs| - 1] / TRIP_THRESHOLD
  }

  function TripsIn(rel: seq<Attempt>): nat {
    CompletedTrips(FailureRuns(rel))
  }

  function LastRun(rel: seq<Attempt>): nat {
    FailureRuns(rel)[|FailureRuns(rel)| - 1]
  }

  /** How many times the history should have tripped the breaker. */
  function TripsOf(h: seq<Attempt>, model: string): nat {
    TripsIn(Relevant(h, model))
  }

  /** Failures since the last success. */
  function CurrentRun(h: seq<Attempt>, model: string): nat {
    LastRun(Relevant(h, model))
  }

  /** The last relevant attempt completed a group of three failures. */
  predicate LastCallTripped(h: seq<Attempt>, model: string): (tripped: bool)
    ensures tripped ==> TripsOf(h, model) >= 1
  {
    TrippedHasTrips(Relevant(h, model));
    CurrentRun(h, model) > 0 && CurrentRun(h, model) % TRIP_THRESHOLD == 0
  }

  function LastRelevantAt(h: seq<Attempt>, model: string): real {
    var rel := Relevant(h, model);
    if rel == [] then 0.0 else rel[|rel| - 1].at
  }

  /** The breaker row the history calls for. */
  function ExpectedRow(h: seq<Attempt>, model: string): BreakerRow {
    BreakerRow(
      CurrentRun(h, model) % TRIP_THRESHOLD,
      if LastCallTripped(h, model) then LastRelevantAt(h, model) + Backoff(TripsOf(h, model)) else 0.0,
      TripsOf(h, model))
  }

  /** The row the updates leave behind, one attempt at a time; an update that raises leaves the row alone. */
  function ReplayedRow(h: seq<Attempt>, model: string): BreakerRow {
    if h == [] then FRESH_ROW
    else
      var row, a := ReplayedRow(h[..|h| - 1], model), h[|h| - 1];
      if a.modelRef != model then row
      else
        match Advance(row, a.ok, a.failureKind, a.at)
        case Some(next) => next
        case None => row
  }

  lemma {:induction false} RunsSnoc(rel: seq<Attempt>, a: Attempt)
    ensures LastRun(rel + [a]) == if a.ok then 0 else LastRun(rel) + 1
    ensures TripsIn(rel + [a]) == TripsIn(rel) + if !a.ok && (LastRun(rel) + 1) % TRIP_THRESHOLD == 0 then 1 else 0
  {
    assert (rel + [a])[..|rel|] == rel;
    var runs, next := FailureRuns(rel), FailureRuns(rel + [a]);
    if a.ok {
      assert next[..|next| - 1] == runs;
    } else {
      assert next[..|next| - 1] == runs[..|runs| - 1];
      NextResidue(LastRun(rel));
    }
  }

  lemma {:induction false} TrippedHasTrips(rel: seq<Attempt>)
    ensures TripsIn(rel) >= LastRun(rel) / TRIP_THRESHOLD
  {
  }

  lemma RelevantSnoc(h: seq<Attempt>, a: Attempt, model: string)
    ensures Relevant(h + [a], model) == Relevant(h, model) + if a.Counts(model) then [a] else []
  {
    assert (h + [a])[..|h|] == h;
  }

  /** How one attempt moves the quantities of the closed form. */
  lemma HistorySnoc(h: seq<Attempt>, a: Attempt, model: string)
    ensures a.modelRef != model || !(a.ok || a.CountedFailure()) ==> Relevant(h + [a], model) == Relevant(h, model)
    ensures a.modelRef == model && a.ok ==>
              CurrentRun(h + [a], model) == 0 && TripsOf(h + [a], model) == TripsOf(h, model)
    ensures a.modelRef == model && a.CountedFailure() ==>
              && CurrentRun(h + [a], model) == CurrentRun(h, model) + 1
              && LastRelevantAt(h + [a], model) == a.at
              && TripsOf(h + [a], model) ==
                 TripsOf(h, model) + if (CurrentRun(h, model) + 1) % TRIP_THRESHOLD == 0 then 1 else 0
  {
    hide LastRun, TripsIn, FailureRuns, CompletedTrips;
    RelevantSnoc(h, a, model);
    RunsSnoc(Relevant(h, model), a);
  }

  /** Which failures count against a model, over every history: exactly these eight kinds lengthen its run of failures, and
      every third one in a row trips it; any other kind changes nothing. */
  lemma FailureCountsIff(h: seq<Attempt>, model: string, kind: FailureKind, at: Time)
    ensures var after, run := h + [Attempt(model, false, Some(kind), at)], CurrentRun(h, model);
            if kind in {MalformedToolCall, SchemaViolation, Timeout, ConnectionError,
                        EmptyResponse, TruncatedResponse, RateLimitHit, ServerError}
            then CurrentRun(after, model) == run + 1 && (LastCallTripped(after, model) <==> run % 3 == 2)
            else Relevant(after, model) == Relevant(h, model)
  {
    hide Relevant, FailureRuns, CompletedTrips;
    TripsIff(kind);
    HistorySnoc(h, Attempt(model, false, Some(kind), at), model);
    NextResidue(CurrentRun(h, model));
  }

  lemma NextResidue(k: nat)
    ensures (k + 1) % TRIP_THRESHOLD == if k % TRIP_THRESHOLD == 2 then 0 else k % TRIP_THRESHOLD + 1
    ensures (k + 1) / TRIP_THRESHOLD == k / TRIP_THRESHOLD + if (k + 1) % TRIP_THRESHOLD == 0 then 1 else 0
  {
  }

  lemma EmptyHistory(model: string)
    ensures Relevant([], model) == [] && CurrentRun([], model) == 0 && TripsOf([], model) == 0
  {
    assert CompletedTrips([0]) == CompletedTrips([]) + 0;
  }

  /** The breaker equals its history for as long as the history calls for at most 1024 trips; its trip count is
      the called-for one saturated at 1024. */
  lemma {:induction false} BreakerFollowsHistory(h: seq<Attempt>, model: string)
    ensures ReplayedRow(h, model).trips == Min(TripsOf(h, model), FLOAT_EXPONENT_LIMIT)
    ensures TripsOf(h, model) <= FLOAT_EXPONENT_LIMIT ==> ReplayedRow(h, model) == ExpectedRow(h, model)
  {
    if h != [] {
      var init, a := h[..|h| - 1], h[|h| - 1];
      assert h == init + [a];
      BreakerFollowsHistory(init, model);
      HistorySnoc(init, a, model);
      TrippedHasTrips(Relevant(h, model));
      NextResidue(CurrentRun(init, model));
    } else {
      EmptyHistory(model);
    }
  }

  /** The exact condition: the row is the one the history calls for iff it calls for no more than 1024 trips. */
  lemma BreakerExactIff(h: seq<Attempt>, model: string)
    ensures ReplayedRow(h, model) == ExpectedRow(h, model) <==> TripsOf(h, model) <= FLOAT_EXPONENT_LIMIT
  {
    BreakerFollowsHistory(h, model);
  }

  const TIMED_OUT: Option<FailureKind> := Some(Timeout)

  function Timeouts(model: string, n: nat, at: Time): (h: seq<Attempt>)
    ensures |h| == n
  {
    if n == 0 then [] else Timeouts(model, n - 1, at) + [Attempt(model, false, TIMED_OUT, at)]
  }

  lemma {:induction false} TimeoutsHistory(model: string, n: nat, at: Time)
    ensures CurrentRun(Timeouts(model, n, at), model) == n
    ensures TripsOf(Timeouts(model, n, at), model) == n / TRIP_THRESHOLD
  {
    if n == 0 {
      EmptyHistory(model);
    } else {
      NextResidue(n - 1);
      TimeoutsHistory(model, n - 1, at);
      HistorySnoc(Timeouts(model, n - 1, at), Attempt(model, false, TIMED_OUT, at), model);
    }
  }

  /** An input past the limit: after 3074 timeouts in a row the next one raises instead of tripping, so a model that
      should be held out for an hour is not held out at all. */
  lemma BreakerJamsAt3075(model: string, n: nat, at: Time)
    requires n == 3074
    ensures var h := Timeouts(model, n, at);
            && ReplayedRow(h, model) == BreakerRow(2, 0.0, 1024)
            && Advance(ReplayedRow(h, model), false, TIMED_OUT, at).None?
            && ReplayedRow(h + [Attempt(model, false, TIMED_OUT, at)], model).openUntil == 0.0
            && ExpectedRow(h + [Attempt(model, false, TIMED_OUT, at)], model).openUntil == at + MAX_BACKOFF_S
  {
    hide Relevant, FailureRuns, CompletedTrips, TripsOf, CurrentRun, Timeouts;
    var h := Timeouts(model, n, at);
    var a := Attempt(model, false, TIMED_OUT, at);
    TimeoutsHistory(model, n, at);
    BreakerFollowsHistory(h, model);
    HistorySnoc(h, a, model);
    assert (h + [a])[..|h|] == h;
    BackoffBounds(1, TripsOf(h + [a], model));
  }

  /** Past the limit the breaker never opens again: no trip goes through, and what a success or a failure leaves behind
      is closed. */
  lemma {:induction false} JammedIsNeverOpen(h: seq<Attempt>, model: string)
    ensures TripsOf(h, model) > FLOAT_EXPONENT_LIMIT ==> ReplayedRow(h, model).openUntil == 0.0
  {
    if h == [] {
      EmptyHistory(model);
    } else {
      var init, a := h[..|h| - 1], h[|h| - 1];
      assert h == init + [a];
      JammedIsNeverOpen(init, model);
      BreakerFollowsHistory(init, model);
      HistorySnoc(init, a, model);
      NextResidue(CurrentRun(init, model));
    }
  }

  /** Over every history: a model is held out exactly while its last relevant call was a trip younger than the backoff,
      and no more than 1024 trips have been called for. */
  lemma OpenIffRecentTrip(h: seq<Attempt>, model: string, now: Time)
    ensures ReplayedRow(h, model).openUntil > now <==>
            && TripsOf(h, model) <= FLOAT_EXPONENT_LIMIT
            && LastCallTripped(h, model)
            && now - LastRelevantAt(h, model) < Backoff(TripsOf(h, model))
  {
    hide ReplayedRow, TripsOf, LastRelevantAt, LastCallTripped, Backoff;
    BreakerFollowsHistory(h, model);
    JammedIsNeverOpen(h, model);
  }

  lemma ReplayedSnoc(h: seq<Attempt>, a: Attempt, model: string)
    ensures ReplayedRow(h + [a], model) ==
            var row, next := ReplayedRow(h, model), Advance(ReplayedRow(h, model), a.ok, a.failureKind, a.at);
            if a.modelRef == model && next.Some? then next.value else row
  {
    assert (h + [a])[..|h|] == h;
  }

  // -- recording several calls, up to the one that raises ------------------------------------------

  function AttemptOf(c: Call): Attempt {
    Attempt(c.modelRef, c.ok, c.failureKind, c.ts)
  }

  function AttemptsOf(calls: seq<Call>): seq<Attempt> {
    if calls == [] then [] else AttemptsOf(calls[..|calls| - 1]) + [AttemptOf(calls[|calls| - 1])]
  }

  /** Recording the call after history `h` raises. */
  predicate Raises(h: seq<Attempt>, c: Call) {
    Advance(ReplayedRow(h, c.modelRef), c.ok, c.failureKind, c.ts).None?
  }

  /** How many of the calls, recorded one after the other, get through before one raises. */
  function Recorded(h: seq<Attempt>, calls: seq<Call>): (n: nat)
    ensures n <= |calls|
  {
    if calls == [] then 0
    else
      var init := calls[..|calls| - 1];
      if Recorded(h, init) < |init| || Raises(h + AttemptsOf(init), calls[|calls| - 1]) then Recorded(h, init) else |calls|
  }

  lemma {:induction false} RowIsBounded(h: seq<Attempt>, model: string)
    ensures ReplayedRow(h, model).consecutive < TRIP_THRESHOLD
  {
    if h != [] {
      RowIsBounded(h[..|h| - 1], model);
    }
  }

  /** When recording a call raises, exactly: the call is a failure that counts, the model's row stands at two such
      failures, and the history has called for 1024 trips. */
  lemma RaisesIff(h: seq<Attempt>, c: Call)
    ensures Raises(h, c) <==>
            && !c.ok && Counted(c.failureKind)
            && ReplayedRow(h, c.modelRef).consecutive == TRIP_THRESHOLD - 1
            && TripsOf(h, c.modelRef) >= FLOAT_EXPONENT_LIMIT
  {
    RowIsBounded(h, c.modelRef);
    BreakerFollowsHistory(h, c.modelRef);
  }

  lemma RecordedSnoc(h: seq<Attempt>, calls: seq<Call>, c: Call)
    ensures AttemptsOf(calls + [c]) == AttemptsOf(calls) + [AttemptOf(c)]
    ensures Recorded(h, calls + [c]) ==
            if Recorded(h, calls) < |calls| || Raises(h + AttemptsOf(calls), c) then Recorded(h, calls) else |calls| + 1
  {
    assert (calls + [c])[..|calls|] == calls;
  }

  /** What raised among the first calls raises among all of them. */
  lemma {:induction false} RecordedStops(h: seq<Attempt>, first: seq<Call>, calls: seq<Call>)
    requires first <= calls && Recorded(h, first) < |first|
    ensures Recorded(h, calls) == Recorded(h, first)
  {
    if |first| < |calls| {
      RecordedStops(h, first, calls[..|calls| - 1]);
    } else {
      assert first == calls;
    }
  }

  lemma UncountedChangesNothing(row: BreakerRow, failureKind: Option<FailureKind>, now: Time)
    requires !Counted(failureKind)
    ensures Advance(row, false, failureKind, now) == Some(row)
  {
  }

  // -- the ledger object ------------------------------------------------------

  class Ledger {
    var calls: seq<Call>
    var events: seq<Event>
    var breaker: map<string, BreakerRow>
    ghost var attempts: seq<Attempt>

    function Row(model: string): BreakerRow
      reads this
    {
      if model in breaker then breaker[model] else FRESH_ROW
    }

    /** Every breaker row is the replay of the attempts made so far. */
    ghost predicate Valid()
      reads this
    {
      forall m :: Row(m) == ReplayedRow(attempts, m)
    }

    constructor ()
      ensures Valid() && calls == [] && events == [] && attempts == []
    {
      calls, events, breaker, attempts := [], [], map[], [];
    }

    /** Record a call and advance the breaker in one transaction; `raised` means neither happened. */
    method RecordCall(call: Call) returns (raised: bool)
      requires Valid()
      modifies this
      ensures Valid() && events == old(events)
      ensures attempts == old(attempts) + [AttemptOf(call)]
      ensures raised <==> Raises(old(attempts), call)
      ensures calls == if raised then old(calls) else old(calls) + [call]
      ensures raised ==> breaker == old(breaker)
      ensures forall m :: m != call.modelRef ==> Row(m) == old(Row(m))
    {
      hide Advance, ReplayedRow;
      ghost var a := AttemptOf(call);
      var updated := UpdatedRow(call);
      if !call.ok && !Counted(call.failureKind) {
        UncountedChangesNothing(Row(call.modelRef), call.failureKind, call.ts);
      }
      forall m {
        ReplayedSnoc(attempts, a, m);
      }
      attempts := attempts + [a];
      raised := updated.None?;
      if !raised {
        calls := calls + [call];
        if call.ok || Counted(call.failureKind) {
          breaker := breaker[call.modelRef := updated.value];
        }
      }
    }

    /** The row one call leads to, computed as the statements of the update do. */
    method UpdatedRow(call: Call) returns (r: Option<BreakerRow>)
      ensures r == Advance(Row(call.modelRef), call.ok, call.failureKind, call.ts)
    {
      var row := Row(call.modelRef);
      if call.ok {
        return Some(row.(consecutive := 0, openUntil := 0.0));
      }
      if !Counted(call.failureKind) {
        return Some(row);
      }
      var consecutive := row.consecutive + 1;
      var trips := row.trips;
      var openUntil := 0.0;
      if consecutive >= TRIP_THRESHOLD {
        trips := trips + 1;
        if trips - 1 >= FLOAT_EXPONENT_LIMIT {
          return None;
        }
        openUntil := call.ts + Backoff(trips);
        consecutive := 0;
      }
      r := Some(BreakerRow(consecutive, openUntil, trips));
    }

    method IsOpen(model: string, now: Time) returns (open: bool)
      requires Valid()
      ensures open <==>
              && TripsOf(attempts, model) <= FLOAT_EXPONENT_LIMIT
              && LastCallTripped(attempts, model)
              && now - LastRelevantAt(attempts, model) < Backoff(TripsOf(attempts, model))
    {
      OpenIffRecentTrip(attempts, model, now);
      open := Row(model).openUntil > now;
    }

    method RecordEvent(payload: Payload, buildId: string, now: Time)
      modifies this`events
      ensures events == old(events) + [Event(now, buildId, payload)]
      ensures old(Valid()) ==> Valid()
    {
      events := events + [Event(now, buildId, payload)];
    }
  }

  /** What the ledger holds once some calls were recorded, one after the other. */
  ghost predicate Wrote(ledger: Ledger, h: seq<Attempt>, before: seq<Call>, events: seq<Event>, calls: seq<Call>)
    reads ledger
  {
    && ledger.Valid() && ledger.events == events
    && ledger.calls == before + calls && ledger.attempts == h + AttemptsOf(calls) && Recorded(h, calls) == |calls|
  }

  /** What it holds when recording the last of the calls raised. */
  ghost predicate WriteBroke(ledger: Ledger, h: seq<Attempt>, before: seq<Call>, events: seq<Event>, calls: seq<Call>,
                             last: Call)
    reads ledger
  {
    && ledger.Valid() && ledger.events == events
    && ledger.calls == before + calls && Recorded(h, calls) == |calls| && Raises(h + AttemptsOf(calls), last)
  }

  /** Seen from somebody who meant to record `wanted`. */
  ghost predicate Accounted(ledger: Ledger, h: seq<Attempt>, before: seq<Call>, events: seq<Event>, wanted: seq<Call>)
    reads ledger
  {
    ledger.Valid() && ledger.events == events && ledger.calls == before + wanted[..Recorded(h, wanted)]
  }

  lemma WholeIsAccounted(ledger: Ledger, h: seq<Attempt>, before: seq<Call>, events: seq<Event>, calls: seq<Call>)
    requires Wrote(ledger, h, before, events, calls)
    ensures Accounted(ledger, h, before, events, calls) && Recorded(h, calls) == |calls|
  {
    assert calls[..|calls|] == calls;
  }

  lemma BrokenIsAccounted(ledger: Ledger, h: seq<Attempt>, before: seq<Call>, events: seq<Event>, calls: seq<Call>,
                          last: Call, wanted: seq<Call>)
    requires WriteBroke(ledger, h, before, events, calls, last) && calls + [last] <= wanted
    ensures Accounted(ledger, h, before, events, wanted) && Recorded(h, wanted) == |calls| < |wanted|
  {
    hide Recorded, Raises, AttemptsOf;
    RecordedSnoc(h, calls, last);
    RecordedStops(h, calls + [last], wanted);
    assert wanted[..|calls|] == calls;
  }
}
