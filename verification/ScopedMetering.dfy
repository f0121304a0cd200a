/** The scoped build run against the ledger: every invocation is metered, and metering can raise. */
module Metering {
  import opened Common
  import opened EventLog
  import opened Failures
  import opened LedgerModel
  import opened Capacity
  import opened Scoped

  // -- what is entered in the ledger --------------------------------------------------------------

  /** What the ledger calls a failure. */
  function KindOf(f: HarnessFailure): FailureKind {
    match f
    case TimedOut => Timeout
    case OutOfQuota => RateLimitHit
    case NotLoggedIn => AuthError
    case EmptyAnswer => EmptyResponse
    case MissingHarness => OtherFailure("missing_harness")
    case HarnessError => OtherFailure("harness_error")
  }

  function FailureOf(run: HarnessRun): Option<FailureKind> {
    if run.failure.Some? then Some(KindOf(run.failure.value)) else None
  }

  function MeterCall(run: HarnessRun, at: Time): Call {
    UsageCall(run.runtime, run.cost, run.ok, FailureOf(run), at)
  }

  /** One call per run, in order, stamped when the run is recorded. */
  function CallsOf(runs: seq<HarnessRun>, clock: nat -> Time): (calls: seq<Call>)
    ensures |calls| == |runs|
  {
    if runs == [] then []
    else CallsOf(runs[..|runs| - 1], clock) + [MeterCall(runs[|runs| - 1], clock(|runs| - 1))]
  }

  /** One exhaustion report per rate-limited run, in order. */
  function ReportsOf(runs: seq<HarnessRun>, clock: nat -> Time): seq<Event> {
    if runs == [] then []
    else
      var rest, run := ReportsOf(runs[..|runs| - 1], clock), runs[|runs| - 1];
      if run.RateLimited() then rest + [Event(clock(|runs| - 1), "", Exhaustion(run.runtime))] else rest
  }

  function CostOf(runs: seq<HarnessRun>, r: Runtime): real {
    if runs == [] then 0.0
    else CostOf(runs[..|runs| - 1], r) + if runs[|runs| - 1].runtime == r then runs[|runs| - 1].cost else 0.0
  }

  function CountOf(runs: seq<HarnessRun>, r: Runtime): nat {
    if runs == [] then 0 else CountOf(runs[..|runs| - 1], r) + if runs[|runs| - 1].runtime == r then 1 else 0
  }

  lemma MeterSnoc(runs: seq<HarnessRun>, run: HarnessRun, clock: nat -> Time)
    ensures CallsOf(runs + [run], clock) == CallsOf(runs, clock) + [MeterCall(run, clock(|runs|))]
    ensures ReportsOf(runs + [run], clock) ==
            if run.RateLimited() then ReportsOf(runs, clock) + [Event(clock(|runs|), "", Exhaustion(run.runtime))]
            else ReportsOf(runs, clock)
    ensures (runs + [run])[..|runs|] == runs
  {
    assert (runs + [run])[..|runs|] == runs;
  }

  lemma TotalsSnoc(calls: seq<Call>, run: HarnessRun, at: Time, r: Runtime, since: real)
    requires at >= since
    ensures Spent(calls + [MeterCall(run, at)], r, since) ==
            Spent(calls, r, since) + if run.runtime == r then run.cost else 0.0
    ensures CallCount(calls + [MeterCall(run, at)], r, since) ==
            CallCount(calls, r, since) + if run.runtime == r then 1 else 0
  {
    assert (calls + [MeterCall(run, at)])[..|calls|] == calls;
  }

  /** What metering runs does to the totals headroom is computed from: in every window that is open when the runs are
      recorded, each runtime's spending and call count grow by exactly the costs and the number of its runs. */
  lemma {:induction false} TotalsGrow(before: seq<Call>, runs: seq<HarnessRun>, clock: nat -> Time, r: Runtime, since: real)
    requires forall i :: 0 <= i < |runs| ==> clock(i) >= since
    ensures Spent(before + CallsOf(runs, clock), r, since) == Spent(before, r, since) + CostOf(runs, r)
    ensures CallCount(before + CallsOf(runs, clock), r, since) == CallCount(before, r, since) + CountOf(runs, r)
  {
    hide Spent, CallCount, MeterCall;
    if runs == [] {
      assert before + CallsOf(runs, clock) == before;
    } else {
      var init, n := runs[..|runs| - 1], |runs| - 1;
      TotalsGrow(before, init, clock, r, since);
      TotalsSnoc(before + CallsOf(init, clock), runs[n], clock(n), r, since);
      assert before + CallsOf(runs, clock) == (before + CallsOf(init, clock)) + [MeterCall(runs[n], clock(n))];
    }
  }

  /** What the ledger holds once the runs are metered. */
  ghost predicate Metered(ledger: Ledger, h: seq<Attempt>, calls: seq<Call>, events: seq<Event>, runs: seq<HarnessRun>,
                          clock: nat -> Time)
    reads ledger
  {
    Wrote(ledger, h, calls, events + ReportsOf(runs, clock), CallsOf(runs, clock))
  }

  /** What it holds when metering the last of the runs raised: everything about the others. */
  ghost predicate MeterBroke(ledger: Ledger, h: seq<Attempt>, calls: seq<Call>, events: seq<Event>, runs: seq<HarnessRun>,
                             clock: nat -> Time)
    reads ledger
  {
    && runs != []
    && var init := runs[..|runs| - 1];
    WriteBroke(ledger, h, calls, events + ReportsOf(init, clock), CallsOf(init, clock),
               MeterCall(runs[|runs| - 1], clock(|init|)))
  }

  /** Seen from a build that meant to meter `runs`. */
  ghost predicate MeteredUpTo(ledger: Ledger, h: seq<Attempt>, calls: seq<Call>, events: seq<Event>,
                              runs: seq<HarnessRun>, clock: nat -> Time)
    reads ledger
  {
    var wanted := CallsOf(runs, clock);
    Accounted(ledger, h, calls, events + ReportsOf(runs[..Recorded(h, wanted)], clock), wanted)
  }

  lemma {:induction false} CallsPrefix(runs: seq<HarnessRun>, later: seq<HarnessRun>, clock: nat -> Time)
    requires runs <= later
    ensures CallsOf(runs, clock) <= CallsOf(later, clock)
    ensures CallsOf(later, clock)[..|runs|] == CallsOf(runs, clock)
  {
    if |runs| < |later| {
      CallsPrefix(runs, later[..|later| - 1], clock);
    } else {
      assert runs == later;
    }
  }

  lemma AllMetered(ledger: Ledger, h: seq<Attempt>, calls: seq<Call>, events: seq<Event>, runs: seq<HarnessRun>,
                   clock: nat -> Time)
    requires Metered(ledger, h, calls, events, runs, clock)
    ensures MeteredUpTo(ledger, h, calls, events, runs, clock) && Recorded(h, CallsOf(runs, clock)) == |runs|
  {
    hide Recorded, CallsOf, ReportsOf, Wrote, Accounted;
    WholeIsAccounted(ledger, h, calls, events + ReportsOf(runs, clock), CallsOf(runs, clock));
    assert runs[..|runs|] == runs;
  }

  /** A build whose metering broke off has accounted for the runs before it. */
  lemma MeteredBefore(ledger: Ledger, h: seq<Attempt>, calls: seq<Call>, events: seq<Event>, runs: seq<HarnessRun>,
                      all: seq<HarnessRun>, clock: nat -> Time)
    requires MeterBroke(ledger, h, calls, events, runs, clock) && runs <= all
    ensures MeteredUpTo(ledger, h, calls, events, all, clock) && Recorded(h, CallsOf(all, clock)) < |all|
  {
    hide Recorded, ReportsOf, WriteBroke, Accounted;
    var init := runs[..|runs| - 1];
    CallsPrefix(runs, all, clock);
    BrokenIsAccounted(ledger, h, calls, events + ReportsOf(init, clock), CallsOf(init, clock),
                      MeterCall(runs[|runs| - 1], clock(|init|)), CallsOf(all, clock));
    assert all[..|init|] == init;
  }

  // -- the build object -----------------------------------------------------------------------------------

  class ScopedBuild {
    const capacity: CapacityManager
    const maxRepairs: nat

    constructor (capacity: CapacityManager, maxRepairs: int)
      ensures this.capacity == capacity && this.maxRepairs == if maxRepairs < 0 then 0 else maxRepairs
    {
      this.capacity := capacity;
      this.maxRepairs := if maxRepairs < 0 then 0 else maxRepairs;
    }

    /** Enter one run in the ledger; when that raises, the run's exhaustion goes unreported. */
    method RecordRun(run: HarnessRun, at: Time) returns (raised: bool)
      requires capacity.ledger.Valid()
      modifies capacity.ledger
      ensures capacity.ledger.Valid()
      ensures raised <==> Raises(old(capacity.ledger.attempts), MeterCall(run, at))
      ensures capacity.ledger.attempts == old(capacity.ledger.attempts) + [AttemptOf(MeterCall(run, at))]
      ensures capacity.ledger.calls == if raised then old(capacity.ledger.calls)
                                       else old(capacity.ledger.calls) + [MeterCall(run, at)]
      ensures capacity.ledger.events == if !raised && run.RateLimited()
                                        then old(capacity.ledger.events) + [Event(at, "", Exhaustion(run.runtime))]
                                        else old(capacity.ledger.events)
    {
      hide Raises;
      raised := capacity.RecordUsage(run.runtime, run.cost, run.ok, FailureOf(run), at);
      if !raised && run.RateLimited() {
        capacity.NoteRateLimited(run.runtime, at);
      }
    }

    /** What one invocation comes to. */
    method Run(runtime: Runtime, role: Role, a: Answer) returns (run: HarnessRun)
      ensures run == RunOf(runtime, role, a)
      ensures run.runtime == runtime && run.role == role
      ensures run.ok <==> a.installed && a.code == 0 && !a.blank
      ensures run.ok <==> run.failure.None?
      ensures forall why :: run.failure == Some(why) <==> FailedFor(a, why)
      ensures run.RateLimited() <==> OutputDecides(a) && a.classified == OutOfQuota
      ensures run.cost == if run.ok && runtime == ClaudeCode then a.reportedCost else 0.0
      ensures run.verdicts == if run.ok then a.verdicts else []
    {
      AnsweredIff(runtime, role, a);
      if !a.installed {
        return HarnessRun(false, role, runtime, 0.0, Some(MissingHarness), []);
      }
      if a.code == TIMEOUT_CODE {
        return HarnessRun(false, role, runtime, 0.0, Some(TimedOut), []);
      }
      if a.code != 0 {
        return HarnessRun(false, role, runtime, 0.0, Some(a.classified), []);
      }
      var cost := if runtime == ClaudeCode then a.reportedCost else 0.0;
      if a.blank {
        return HarnessRun(false, role, runtime, 0.0, Some(if a.silent then EmptyAnswer else a.classified), []);
      }
      run := HarnessRun(true, role, runtime, cost, None, a.verdicts);
    }

    /** One invocation, metered on every way out. */
    method Invoke(runtime: Runtime, role: Role, w: World, ghost h: seq<Attempt>, ghost calls: seq<Call>,
                  ghost events: seq<Event>, ghost before: seq<HarnessRun>, place: nat)
      returns (exit: Exit<HarnessRun>)
      requires place == |before| && Metered(capacity.ledger, h, calls, events, before, w.clock)
      modifies capacity.ledger
      ensures var run := RunOf(runtime, role, w.answers(place));
              match exit
              case Returned(r) => r == run && Metered(capacity.ledger, h, calls, events, before + [run], w.clock)
              case Raised => MeterBroke(capacity.ledger, h, calls, events, before + [run], w.clock)
    {
      hide RunOf, Recorded, Raises, AttemptsOf, CallsOf, ReportsOf, MeterCall;
      var run := Run(runtime, role, w.answers(place));
      MeterSnoc(before, run, w.clock);
      RecordedSnoc(h, CallsOf(before, w.clock), MeterCall(run, w.clock(place)));
      var raised := RecordRun(run, w.clock(place));
      if raised {
        return Raised;
      }
      exit := Returned(run);
    }

    method AttemptRepair(w: World, implementer: Runtime, start: Work, ghost h: seq<Attempt>, ghost calls: seq<Call>,
                         ghost events: seq<Event>)
      returns (exit: Exit<Work>)
      requires Metered(capacity.ledger, h, calls, events, start.runs, w.clock)
      modifies capacity.ledger
      ensures var work := Attempted(w, implementer, start);
              match exit
              case Returned(r) => r == work && Metered(capacity.ledger, h, calls, events, work.runs, w.clock)
              case Raised => MeterBroke(capacity.ledger, h, calls, events, work.runs, w.clock)
    {
      hide Metered, MeterBroke, RunOf;
      var invoked := Invoke(implementer, Repair, w, h, calls, events, start.runs, |start.runs|);
      if invoked.Raised? {
        return Raised;
      }
      var run := invoked.value;
      if !run.ok {
        return Returned(start.(runs := start.runs + [run], gaveUp := true));
      }
      exit := Returned(Work(start.runs + [run], w.changes(start.gates), start.gates + 1, w.tests(start.scans),
                            start.scans + 1, false));
    }

    /** The bounded repair loop; when metering an attempt raises, its run is among those the whole loop would have made. */
    method RepairLoop(w: World, implementer: Runtime, start: Work, ghost h: seq<Attempt>, ghost calls: seq<Call>,
                      ghost events: seq<Event>)
      returns (exit: Exit<Work>)
      requires !start.gaveUp && Metered(capacity.ledger, h, calls, events, start.runs, w.clock)
      modifies capacity.ledger
      ensures var work := Repaired(w, implementer, start, maxRepairs);
              match exit
              case Returned(r) => r == work && Metered(capacity.ledger, h, calls, events, work.runs, w.clock)
              case Raised =>
                exists runs :: runs <= work.runs && MeterBroke(capacity.ledger, h, calls, events, runs, w.clock)
    {
      hide Attempted, Metered, MeterBroke;
      var work := start;
      var attempt := 0;
      while attempt < maxRepairs && work.tests == FailedScan && !work.gaveUp
        invariant attempt <= maxRepairs && work == Repaired(w, implementer, start, attempt)
        invariant Metered(capacity.ledger, h, calls, events, work.runs, w.clock)
      {
        var attempted := AttemptRepair(w, implementer, work, h, calls, events);
        if attempted.Raised? {
          RepairsGrow(w, implementer, start, attempt + 1, maxRepairs);
          return Raised;
        }
        work := attempted.value;
        attempt := attempt + 1;
      }
      NoMoreRepairs(w, implementer, start, attempt, maxRepairs);
      exit := Returned(work);
    }

    /** The build once its roles are chosen and its workspace is ready. */
    method Carry(implementer: Runtime, reviewer: Runtime, w: World) returns (exit: Exit<Result>)
      requires capacity.ledger.Valid()
      modifies capacity.ledger
      ensures var r := Steps(implementer, reviewer, w, maxRepairs);
              && MeteredUpTo(capacity.ledger, old(capacity.ledger.attempts), old(capacity.ledger.calls),
                             old(capacity.ledger.events), r.runs, w.clock)
              && (exit.Returned? <==> Recorded(old(capacity.ledger.attempts), CallsOf(r.runs, w.clock)) == |r.runs|)
              && (exit.Returned? ==> exit.value == r)
    {
      hide Metered, MeterBroke, MeteredUpTo, RunOf, Repaired, Recorded, CallsOf, Judged;
      ghost var all := Steps(implementer, reviewer, w, maxRepairs).runs;
      ghost var h, calls, events := capacity.ledger.attempts, capacity.ledger.calls, capacity.ledger.events;
      StepsGrow(implementer, reviewer, w, maxRepairs);
      NothingMetered(capacity.ledger, w.clock);
      var invoked := Invoke(implementer, Implementer, w, h, calls, events, [], 0);
      assert [] + [First(implementer, w)] == [First(implementer, w)];
      if invoked.Raised? {
        MeteredBefore(capacity.ledger, h, calls, events, [First(implementer, w)], all, w.clock);
        return Raised;
      }
      var first := invoked.value;
      if !first.ok {
        AllMetered(capacity.ledger, h, calls, events, [first], w.clock);
        return Returned(Stop(if first.RateLimited() then CapacityExhausted else ImplementerFailed).(runs := [first]));
      }
      var files := w.changes(0);
      if files == [] {
        AllMetered(capacity.ledger, h, calls, events, [first], w.clock);
        return Returned(Stop(NoChanges).(runs := [first], gate := Some([])));
      }
      var repaired := RepairLoop(w, implementer, Work([first], files, 1, w.tests(0), 1, false), h, calls, events);
      if repaired.Raised? {
        ghost var runs :| runs <= Worked(implementer, w, maxRepairs).runs
                          && MeterBroke(capacity.ledger, h, calls, events, runs, w.clock);
        MeteredBefore(capacity.ledger, h, calls, events, runs, all, w.clock);
        return Raised;
      }
      var work := repaired.value;
      var done := Result(TestsFailed, false, work.runs, work.files, Some(files), Some(work.tests), None, []);
      if work.tests == FailedScan {
        AllMetered(capacity.ledger, h, calls, events, work.runs, w.clock);
        return Returned(done.(scans := [work.tests]));
      }
      invoked := Invoke(reviewer, Reviewer, w, h, calls, events, work.runs, |work.runs|);
      if invoked.Raised? {
        MeteredBefore(capacity.ledger, h, calls, events, all, all, w.clock);
        return Raised;
      }
      AllMetered(capacity.ledger, h, calls, events, all, w.clock);
      var judged := Judge(done, invoked.value, [work.tests] + w.scanners);
      exit := Returned(judged);
    }

    /** The review, then the scanners: what was done stands, the review is added to it, the scanners are looked at only
        behind an approval, and the build succeeds iff both agree. */
    method Judge(done: Result, review: HarnessRun, scans: seq<Scan>) returns (r: Result)
      ensures r == Judged(done, review, scans)
      ensures r.runs == done.runs + [review]
      ensures r.filesChanged == done.filesChanged && r.gate == done.gate && r.lastTests == done.lastTests
      ensures r.reviewApproved == Some(true) <==> review.ok && Approves(review.verdicts)
      ensures r.reviewApproved != Some(true) ==> r.scans == done.scans
      ensures !done.success ==>
                (r.success <==> review.ok && Approves(review.verdicts) && AllPassed(scans) && r.scans == scans)
      ensures r.outcome == Outcome.Complete <==> review.ok && Approves(review.verdicts) && AllPassed(scans)
    {
      r := done.(runs := done.runs + [review], reviewApproved := Some(review.ok && Approves(review.verdicts)));
      if !review.ok {
        return r.(outcome := if review.RateLimited() then CapacityExhausted else ReviewUnavailable);
      }
      if !Approves(review.verdicts) {
        return r.(outcome := ReviewRejected);
      }
      r := r.(scans := scans);
      if !AllPassed(scans) {
        return r.(outcome := ScannersFailed);
      }
      return r.(outcome := Outcome.Complete, success := true);
    }

    /** One scoped build. The runs of the result are entered in the ledger in order, failed ones included, with one
        exhaustion report per rate-limited run. When entering one raises, the build ends in that exception and the runs
        before it stand; otherwise spending and call count of each runtime have grown by exactly its runs. */
    method RunBuild(w: World, now: Time) returns (exit: Exit<Result>)
      requires capacity.ledger.Valid()
      modifies capacity.ledger
      ensures var r := Build(old(capacity.FreeAt(now)), w, maxRepairs);
              var h, wanted := old(capacity.ledger.attempts), CallsOf(r.runs, w.clock);
              && MeteredUpTo(capacity.ledger, h, old(capacity.ledger.calls), old(capacity.ledger.events), r.runs, w.clock)
              && (exit.Returned? <==> Recorded(h, wanted) == |wanted|)
              && (exit.Returned? ==> exit.value == r)
      ensures exit.Returned? ==> forall x: Runtime, since: real ::
                (forall i :: 0 <= i < |exit.value.runs| ==> w.clock(i) >= since) ==>
                  && Spent(capacity.ledger.calls, x, since)
                     == old(Spent(capacity.ledger.calls, x, since)) + CostOf(exit.value.runs, x)
                  && CallCount(capacity.ledger.calls, x, since)
                     == old(CallCount(capacity.ledger.calls, x, since)) + CountOf(exit.value.runs, x)
      // An exhausted subscription is noticed: the build gives up at once, and reports it once.
      ensures exit.Returned? && old(capacity.FreeAt(now)) != {} && w.workspaceReady && RanOut(w.answers(0)) ==>
                var who := if ClaudeCode in old(capacity.FreeAt(now)) then ClaudeCode else Codex;
                && exit.value.outcome == CapacityExhausted && |exit.value.runs| == 1
                && capacity.ledger.events == old(capacity.ledger.events) + [Event(w.clock(0), "", RateLimited(who))]
    {
      hide MeteredUpTo, Recorded, Steps, RanOut;
      ExhaustionEnds(capacity.FreeAt(now), w, maxRepairs);
      ghost var h, calls, events := capacity.ledger.attempts, capacity.ledger.calls, capacity.ledger.events;
      var free := capacity.FreeAt(now);
      NothingMetered(capacity.ledger, w.clock);
      AllMetered(capacity.ledger, h, calls, events, [], w.clock);
      if ImplementerOf(free).None? {
        return Returned(Stop(NoSubscription));
      }
      if !w.workspaceReady {
        return Returned(Stop(WorkspaceFailed));
      }
      exit := Carry(ImplementerOf(free).value, ReviewerOf(free).value, w);
      if exit.Returned? {
        AccountedWhole(capacity.ledger, h, calls, events, exit.value.runs, w.clock);
        EventsWhole(capacity.ledger, h, calls, events, exit.value.runs, w.clock);
      }
    }
  }

  /** The output of the invocation says that the subscription is exhausted. */
  predicate RanOut(a: Answer) {
    OutputDecides(a) && a.classified == OutOfQuota
  }

  lemma ExhaustionEnds(free: set<Runtime>, w: World, maxRepairs: nat)
    requires free <= {ClaudeCode, Codex}
    ensures free != {} && w.workspaceReady && RanOut(w.answers(0)) ==>
              var r, who := Build(free, w, maxRepairs), if ClaudeCode in free then ClaudeCode else Codex;
              && r.outcome == CapacityExhausted && |r.runs| == 1
              && ReportsOf(r.runs, w.clock) == [Event(w.clock(0), "", RateLimited(who))]
  {
    hide RunOf;
    if free != {} && w.workspaceReady && RanOut(w.answers(0)) {
      var who := if ClaudeCode in free then ClaudeCode else Codex;
      assert ClaudeCode in free || Codex in free;
      AnsweredIff(who, Implementer, w.answers(0));
      MeterSnoc([], First(who, w), w.clock);
      assert [] + [First(who, w)] == [First(who, w)];
    }
  }

  lemma EventsWhole(ledger: Ledger, h: seq<Attempt>, calls: seq<Call>, events: seq<Event>, runs: seq<HarnessRun>,
                    clock: nat -> Time)
    requires MeteredUpTo(ledger, h, calls, events, runs, clock) && Recorded(h, CallsOf(runs, clock)) == |runs|
    ensures ledger.events == events + ReportsOf(runs, clock)
  {
    hide Recorded;
    assert runs[..|runs|] == runs;
  }

  /** How a run stands in the ledger: under its own runtime, with its own cost and result, and a failure under the kind of
      its own name. A timeout, an exhausted subscription and an empty answer count against the harness's breaker; a
      missing, broken or logged-out harness does not. */
  lemma MeteredAs(run: HarnessRun, at: Time)
    ensures var c := MeterCall(run, at);
            && c.ts == at && c.source == Harness(run.runtime) && c.ok == run.ok && c.costUsd == run.cost
            && c.modelRef == (match run.runtime case ClaudeCode => "claude_code" case Codex => "codex"
                                                case OpenCode => "open_code")
            && (c.failureKind.None? <==> run.failure.None?)
            && (run.failure == Some(TimedOut) <==> c.failureKind == Some(Timeout))
            && (run.failure == Some(OutOfQuota) <==> c.failureKind == Some(RateLimitHit))
            && (run.failure == Some(NotLoggedIn) <==> c.failureKind == Some(AuthError))
            && (run.failure == Some(EmptyAnswer) <==> c.failureKind == Some(EmptyResponse))
            && (run.failure == Some(MissingHarness) <==> c.failureKind == Some(OtherFailure("missing_harness")))
            && (run.failure == Some(HarnessError) <==> c.failureKind == Some(OtherFailure("harness_error")))
            && (Counted(c.failureKind) <==>
                  run.failure in {Some(TimedOut), Some(OutOfQuota), Some(EmptyAnswer)})
  {
    assert "missing_harness"[0] != "harness_error"[0];
  }

  lemma AccountedWhole(ledger: Ledger, h: seq<Attempt>, calls: seq<Call>, events: seq<Event>, runs: seq<HarnessRun>,
                       clock: nat -> Time)
    requires MeteredUpTo(ledger, h, calls, events, runs, clock) && Recorded(h, CallsOf(runs, clock)) == |runs|
    ensures forall x: Runtime, since: real ::
              (forall i :: 0 <= i < |runs| ==> clock(i) >= since) ==>
                && Spent(ledger.calls, x, since) == Spent(calls, x, since) + CostOf(runs, x)
                && CallCount(ledger.calls, x, since) == CallCount(calls, x, since) + CountOf(runs, x)
  {
    hide Recorded;
    assert CallsOf(runs, clock)[..|runs|] == CallsOf(runs, clock);
    forall x: Runtime, since: real | forall i :: 0 <= i < |runs| ==> clock(i) >= since
      ensures Spent(ledger.calls, x, since) == Spent(calls, x, since) + CostOf(runs, x)
      ensures CallCount(ledger.calls, x, since) == CallCount(calls, x, since) + CountOf(runs, x)
    {
      TotalsGrow(calls, runs, clock, x, since);
    }
  }

  lemma NothingMetered(ledger: Ledger, clock: nat -> Time)
    requires ledger.Valid()
    ensures Metered(ledger, ledger.attempts, ledger.calls, ledger.events, [], clock)
  {
  }
}
