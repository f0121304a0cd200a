/** The scoped build: implement, change gate, tests with bounded repair, review, scanners. For every behaviour of the
    harness, git and the scanners it fails closed. */
module Scoped {
  import opened Common

  datatype Role = Implementer | Repair | Reviewer

  datatype HarnessFailure = MissingHarness | TimedOut | OutOfQuota | NotLoggedIn | HarnessError | EmptyAnswer

  /** What one harness invocation would do. Output parsing is an input: the failure its text classifies as, the cost
      it reports, and the verdict lines it contains, `true` for an approval. */
  datatype Answer = Answer(
    installed: bool, code: int, blank: bool, silent: bool,
    classified: HarnessFailure, reportedCost: real, verdicts: seq<bool>)

  datatype HarnessRun = HarnessRun(
    ok: bool, role: Role, runtime: Runtime, cost: real, failure: Option<HarnessFailure>, verdicts: seq<bool>)
  {
    predicate RateLimited() {
      failure == Some(OutOfQuota)
    }
  }

  datatype Scan = Passed | FailedScan | UnavailableScan

  datatype Outcome =
    | NoSubscription | WorkspaceFailed | CapacityExhausted | ImplementerFailed | NoChanges | TestsFailed
    | ReviewUnavailable | ReviewRejected | ScannersFailed | Complete

  /** Everything a build meets: the answers of the workspace, of each invocation and when it is recorded, of each look at
      the diff, of each run of the test suite, and of the other scanners. */
  datatype World = World(
    workspaceReady: bool,
    answers: nat -> Answer,
    clock: nat -> Time,
    changes: nat -> seq<string>,
    tests: nat -> Scan,
    scanners: seq<Scan>)

  datatype Result = Result(
    outcome: Outcome, success: bool, runs: seq<HarnessRun>, filesChanged: seq<string>,
    gate: Option<seq<string>>, lastTests: Option<Scan>, reviewApproved: Option<bool>, scans: seq<Scan>)

  // -- one invocation -------------------------------------------------------------------

  const TIMEOUT_CODE := -2

  /** Only the Claude harness reports a cost, and only for an answer. */
  function RunOf(runtime: Runtime, role: Role, a: Answer): HarnessRun {
    var failure :=
      if !a.installed then Some(MissingHarness)
      else if a.code == TIMEOUT_CODE then Some(TimedOut)
      else if a.code != 0 then Some(a.classified)
      else if a.blank then Some(if a.silent then EmptyAnswer else a.classified)
      else None;
    HarnessRun(failure.None?, role, runtime,
               if failure.None? && runtime == ClaudeCode then a.reportedCost else 0.0,
               failure,
               if failure.None? then a.verdicts else [])
  }

  /** The harness ran to an end without an answer, and its output says why: it exited with an error other than the code
      of a timeout, or succeeded with a blank answer and some output. */
  predicate OutputDecides(a: Answer) {
    a.installed && a.code != -2 && (a.code != 0 || (a.blank && !a.silent))
  }

  /** Why an invocation failed. */
  predicate FailedFor(a: Answer, why: HarnessFailure) {
    || (OutputDecides(a) && a.classified == why)
    || (why == MissingHarness && !a.installed)
    || (why == TimedOut && a.installed && a.code == -2)
    || (why == EmptyAnswer && a.installed && a.code == 0 && a.blank && a.silent)
  }

  /** What counts as an answer and what an answer carries; each failure is the one the source names, an exhausted
      subscription is recognised exactly by its output, and a run that failed costs nothing and says nothing. */
  lemma AnsweredIff(runtime: Runtime, role: Role, a: Answer)
    ensures var run := RunOf(runtime, role, a);
            && run.runtime == runtime && run.role == role
            && (run.ok <==> a.installed && a.code == 0 && !a.blank)
            && (run.ok <==> run.failure.None?)
            && (forall why :: run.failure == Some(why) <==> FailedFor(a, why))
            && (run.RateLimited() <==> OutputDecides(a) && a.classified == OutOfQuota)
            && run.cost == (if run.ok && runtime == ClaudeCode then a.reportedCost else 0.0)
            && run.verdicts == (if run.ok then a.verdicts else [])
  {
  }

  lemma RunKeepsRole(runtime: Runtime, role: Role, a: Answer)
    ensures RunOf(runtime, role, a).runtime == runtime && RunOf(runtime, role, a).role == role
  {
  }

  // -- roles and gates ---------------------------------------------------------------------

  function ImplementerOf(free: set<Runtime>): Option<Runtime> {
    if ClaudeCode in free then Some(ClaudeCode) else if Codex in free then Some(Codex) else None
  }

  function ReviewerOf(free: set<Runtime>): Option<Runtime> {
    if ClaudeCode in free && Codex in free then Some(Codex) else ImplementerOf(free)
  }

  /** The review is by another vendor whenever another vendor has headroom. */
  lemma ReviewIsIndependentIff(free: set<Runtime>)
    ensures ImplementerOf(free).Some? <==> ClaudeCode in free || Codex in free
    ensures ImplementerOf(free).Some? ==> ReviewerOf(free).Some?
    ensures ImplementerOf(free).Some? ==> (ReviewerOf(free) != ImplementerOf(free) <==> {ClaudeCode, Codex} <= free)
    ensures ImplementerOf(free).Some? ==> ImplementerOf(free).value in free && ReviewerOf(free).value in free
    ensures ImplementerOf(free) == Some(Codex) ==> ClaudeCode !in free
  {
  }

  /** The last verdict line decides; no verdict line is no approval. */
  predicate Approves(verdicts: seq<bool>) {
    verdicts != [] && verdicts[|verdicts| - 1]
  }

  /** The review's last line is an approval, whatever was said before it. */
  ghost predicate EndsInApproval(verdicts: seq<bool>) {
    exists said: seq<bool> :: verdicts == said + [true]
  }

  lemma ApprovesIff(verdicts: seq<bool>)
    ensures Approves(verdicts) <==> EndsInApproval(verdicts)
  {
    if Approves(verdicts) {
      assert verdicts == verdicts[..|verdicts| - 1] + [true];
    }
  }

  /** A scanner that could not run has not passed. */
  predicate AllPassed(scans: seq<Scan>) {
    forall s :: s in scans ==> s == Passed
  }

  // -- the repair loop ------------------------------------------------------------------------

  datatype Work = Work(runs: seq<HarnessRun>, files: seq<string>, gates: nat, tests: Scan, scans: nat, gaveUp: bool)

  /** One repair attempt: fix, look at the diff again, run the suite again. */
  function Attempted(w: World, implementer: Runtime, p: Work): Work {
    var run := RunOf(implementer, Repair, w.answers(|p.runs|));
    if !run.ok then p.(runs := p.runs + [run], gaveUp := true)
    else Work(p.runs + [run], w.changes(p.gates), p.gates + 1, w.tests(p.scans), p.scans + 1, false)
  }

  /** The work after at most `k` repair attempts. */
  function Repaired(w: World, implementer: Runtime, start: Work, k: nat): Work {
    if k == 0 then start
    else
      var p := Repaired(w, implementer, start, k - 1);
      if p.gaveUp || p.tests != FailedScan then p else Attempted(w, implementer, p)
  }

  // -- the whole build ---------------------------------------------------------------------------

  function Stop(outcome: Outcome): Result {
    Result(outcome, false, [], [], None, None, None, [])
  }

  function First(implementer: Runtime, w: World): HarnessRun {
    RunOf(implementer, Implementer, w.answers(0))
  }

  /** The work once the repair loop is over. */
  function Worked(implementer: Runtime, w: World, maxRepairs: nat): Work {
    Repaired(w, implementer, Work([First(implementer, w)], w.changes(0), 1, w.tests(0), 1, false), maxRepairs)
  }

  /** The build once its roles are chosen and its workspace is ready. */
  function Steps(implementer: Runtime, reviewer: Runtime, w: World, maxRepairs: nat): Result {
    var first := First(implementer, w);
    if !first.ok then
      Stop(if first.RateLimited() then CapacityExhausted else ImplementerFailed).(runs := [first])
    else if w.changes(0) == [] then
      Stop(NoChanges).(runs := [first], gate := Some([]))
    else
      var work := Worked(implementer, w, maxRepairs);
      var done := Result(TestsFailed, false, work.runs, work.files, Some(w.changes(0)), Some(work.tests), None, []);
      if work.tests == FailedScan then done.(scans := [work.tests])
      else
        Judged(done, RunOf(reviewer, Reviewer, w.answers(|work.runs|)), [work.tests] + w.scanners)
  }

  /** What the review and then the scanners make of the work. */
  function Judged(done: Result, review: HarnessRun, scans: seq<Scan>): Result {
    var reviewed := done.(runs := done.runs + [review], reviewApproved := Some(review.ok && Approves(review.verdicts)));
    if !review.ok then
      reviewed.(outcome := if review.RateLimited() then CapacityExhausted else ReviewUnavailable)
    else if !Approves(review.verdicts) then reviewed.(outcome := ReviewRejected)
    else if !AllPassed(scans) then reviewed.(outcome := ScannersFailed, scans := scans)
    else reviewed.(outcome := Outcome.Complete, success := true, scans := scans)
  }

  function Build(free: set<Runtime>, w: World, maxRepairs: nat): Result {
    if ImplementerOf(free).None? then Stop(NoSubscription)
    else if !w.workspaceReady then Stop(WorkspaceFailed)
    else Steps(ImplementerOf(free).value, ReviewerOf(free).value, w, maxRepairs)
  }

  // -- laws -----------------------------------------------------------------------------------------

  /** The evidence a complete build leaves in its result: an implementer came first, every invocation succeeded, git saw a
      change, the last run of the suite passed, the last invocation was a review that approves, and every scanner
      passed. */
  ghost predicate Evidence(r: Result) {
    && |r.runs| >= 2 && (forall run :: run in r.runs ==> run.ok)
    && r.runs[0].role == Implementer
    && r.gate.Some? && r.gate.value != []
    && r.lastTests == Some(Passed)
    && r.runs[|r.runs| - 1].role == Reviewer && EndsInApproval(r.runs[|r.runs| - 1].verdicts)
    && (forall i :: 0 <= i < |r.scans| ==> r.scans[i] == Passed)
  }

  /** That evidence is what the world answered: each invocation is the one that was made, the suite failed until its last
      run, and the diff and the scans are the last ones. */
  ghost predicate Witnessed(r: Result, free: set<Runtime>, w: World) {
    var n := |r.runs| - 2;
    && n >= 0 && ImplementerOf(free).Some? && w.workspaceReady
    && r.runs[0] == RunOf(ImplementerOf(free).value, Implementer, w.answers(0))
    && (forall i :: 1 <= i <= n ==> r.runs[i] == RunOf(ImplementerOf(free).value, Repair, w.answers(i)))
    && r.runs[n + 1] == RunOf(ReviewerOf(free).value, Reviewer, w.answers(n + 1))
    && r.gate == Some(w.changes(0)) && r.filesChanged == w.changes(n)
    && w.tests(n) == Passed && (forall i :: 0 <= i < n ==> w.tests(i) == FailedScan)
    && r.scans == [Passed] + w.scanners
  }

  /** The build fails closed: it is complete exactly when its result holds all of the evidence, and then the world gave
      it; the review is another vendor's iff both subscriptions have headroom. */
  lemma CompleteIff(free: set<Runtime>, w: World, maxRepairs: nat)
    ensures var r := Build(free, w, maxRepairs);
            && (r.success <==> r.outcome == Outcome.Complete)
            && (r.outcome == Outcome.Complete <==> Evidence(r))
            && (r.outcome == Outcome.Complete ==>
                  && Witnessed(r, free, w) && AllPassed(w.scanners)
                  && (r.runs[|r.runs| - 1].runtime != r.runs[0].runtime <==> {ClaudeCode, Codex} <= free))
  {
    hide Steps, Witnessed, Evidence, ReviewerOf, ImplementerOf;
    ReviewIsIndependentIff(free);
    NothingIsNoEvidence();
    if ImplementerOf(free).Some? && w.workspaceReady {
      StepsCompleteIff(free, w, maxRepairs);
    }
  }

  lemma NothingIsNoEvidence()
    ensures forall outcome :: !Evidence(Stop(outcome))
  {
  }

  lemma StepsCompleteIff(free: set<Runtime>, w: World, maxRepairs: nat)
    requires ImplementerOf(free).Some? && ReviewerOf(free).Some? && w.workspaceReady
    ensures var implementer, reviewer := ImplementerOf(free).value, ReviewerOf(free).value;
            var r := Steps(implementer, reviewer, w, maxRepairs);
            && (r.success <==> r.outcome == Outcome.Complete)
            && (r.outcome == Outcome.Complete <==> Evidence(r))
            && (r.outcome == Outcome.Complete ==>
                  && Witnessed(r, free, w) && AllPassed(w.scanners)
                  && r.runs[0].runtime == implementer && r.runs[|r.runs| - 1].runtime == reviewer)
  {
    hide RunOf, Repaired, ReviewerOf, ImplementerOf, Judged, AllPassed;
    var implementer, reviewer := ImplementerOf(free).value, ReviewerOf(free).value;
    RunKeepsRole(implementer, Implementer, w.answers(0));
    if First(implementer, w).ok && w.changes(0) != [] {
      var work := Worked(implementer, w, maxRepairs);
      RepairsOnly(w, implementer, Work([First(implementer, w)], w.changes(0), 1, w.tests(0), 1, false), maxRepairs);
      RepairsAreRescanned(w, implementer, maxRepairs, First(implementer, w));
      RunKeepsRole(reviewer, Reviewer, w.answers(|work.runs|));
      AllPassedCons(work.tests, w.scanners);
      if work.tests != FailedScan {
        JudgedIff(Result(TestsFailed, false, work.runs, work.files, Some(w.changes(0)), Some(work.tests), None, []),
                  RunOf(reviewer, Reviewer, w.answers(|work.runs|)), [work.tests] + w.scanners);
      }
    }
  }

  /** How the last two gates turn work whose runs all succeeded into a complete build. */
  lemma JudgedIff(done: Result, review: HarnessRun, scans: seq<Scan>)
    requires done.runs != [] && done.runs[0].role == Implementer && (forall run :: run in done.runs ==> run.ok)
    requires review.role == Reviewer && done.outcome == TestsFailed && !done.success
    requires done.gate.Some? && done.gate.value != [] && done.lastTests.Some? && done.scans == []
    requires AllPassed(scans) ==> done.lastTests == Some(Passed)
    ensures var r := Judged(done, review, scans);
            && (r.success <==> r.outcome == Outcome.Complete)
            && (r.outcome == Outcome.Complete <==> Evidence(r))
            && (r.outcome == Outcome.Complete ==> r.scans == scans && AllPassed(scans))
            && r.runs == done.runs + [review] && r.gate == done.gate && r.filesChanged == done.filesChanged
  {
    var r := Judged(done, review, scans);
    ApprovesIff(review.verdicts);
    ScansPass(scans);
    hide EndsInApproval, Approves, AllPassed;
    assert review in r.runs;
    assert forall run :: run in r.runs ==> run in done.runs || run == review;
  }

  // -- every outcome -----------------------------------------------------------------------------------

  /** The last invocation of the build. */
  predicate LastWas(r: Result, role: Role) {
    r.runs != [] && r.runs[|r.runs| - 1].role == role
  }

  predicate LastFailure(r: Result, role: Role) {
    LastWas(r, role) && !r.runs[|r.runs| - 1].ok
  }

  predicate OutOfCapacity(r: Result) {
    r.runs != [] && r.runs[|r.runs| - 1].failure == Some(OutOfQuota)
  }

  ghost predicate LastApproves(r: Result) {
    LastWas(r, Reviewer) && r.runs[|r.runs| - 1].ok && EndsInApproval(r.runs[|r.runs| - 1].verdicts)
  }

  /** What each outcome says about the result. */
  ghost predicate Means(outcome: Outcome, r: Result, free: set<Runtime>, w: World) {
    match outcome
    case NoSubscription => ClaudeCode !in free && Codex !in free
    case WorkspaceFailed => (ClaudeCode in free || Codex in free) && !w.workspaceReady
    case CapacityExhausted => (LastFailure(r, Implementer) || LastFailure(r, Reviewer)) && OutOfCapacity(r)
    case ImplementerFailed => LastFailure(r, Implementer) && !OutOfCapacity(r)
    case NoChanges => LastWas(r, Implementer) && r.runs[|r.runs| - 1].ok && r.gate == Some([])
    case TestsFailed => r.lastTests == Some(FailedScan)
    case ReviewUnavailable => LastFailure(r, Reviewer) && !OutOfCapacity(r)
    case ReviewRejected => LastWas(r, Reviewer) && r.runs[|r.runs| - 1].ok && !LastApproves(r)
    case ScannersFailed => LastApproves(r) && exists i :: 0 <= i < |r.scans| && r.scans[i] != Passed
    case Complete => LastApproves(r) && r.lastTests == Some(Passed) && forall i :: 0 <= i < |r.scans| ==> r.scans[i] == Passed
  }

  /** A build comes out exactly as its result shows, outcome by outcome: no two of the meanings hold of one result, and it
      is approved exactly when its last invocation is a review that ends in an approval. */
  lemma OutcomeIff(free: set<Runtime>, w: World, maxRepairs: nat, outcome: Outcome)
    ensures var r := Build(free, w, maxRepairs);
            && (r.outcome == outcome <==> Means(outcome, r, free, w))
            && (r.reviewApproved == Some(true) <==> LastApproves(r))
            && (r.reviewApproved.Some? <==> LastWas(r, Reviewer))
  {
    hide Steps;
    ReviewIsIndependentIff(free);
    if ImplementerOf(free).Some? && w.workspaceReady {
      StepsOutcome(ImplementerOf(free).value, ReviewerOf(free).value, free, w, maxRepairs, outcome);
    }
  }

  lemma StepsOutcome(implementer: Runtime, reviewer: Runtime, free: set<Runtime>, w: World, maxRepairs: nat,
                     outcome: Outcome)
    requires (ClaudeCode in free || Codex in free) && w.workspaceReady
    ensures var r := Steps(implementer, reviewer, w, maxRepairs);
            && (r.outcome == outcome <==> Means(outcome, r, free, w))
            && (r.reviewApproved == Some(true) <==> LastApproves(r))
            && (r.reviewApproved.Some? <==> LastWas(r, Reviewer))
  {
    hide RunOf, Repaired, EndsInApproval, Judged, AllPassed;
    var first := First(implementer, w);
    AnsweredIff(implementer, Implementer, w.answers(0));
    if first.ok && w.changes(0) != [] {
      var work := Worked(implementer, w, maxRepairs);
      RepairsOnly(w, implementer, Work([first], w.changes(0), 1, w.tests(0), 1, false), maxRepairs);
      var review := RunOf(reviewer, Reviewer, w.answers(|work.runs|));
      AnsweredIff(reviewer, Reviewer, w.answers(|work.runs|));
      if work.tests != FailedScan {
        JudgedOutcome(Result(TestsFailed, false, work.runs, work.files, Some(w.changes(0)), Some(work.tests), None, []),
                      review, [work.tests] + w.scanners, free, w, outcome);
      }
    }
  }

  /** How many repairs succeeded, counted from the invocations: all but the first, the review and a repair that failed. */
  function Repairs(r: Result): int {
    |r.runs| - 1 - if LastWas(r, Reviewer) || LastFailure(r, Repair) then 1 else 0
  }

  /** Whatever the outcome, a build that got as far as the tests shows the diff and the verdict of the suite after its last
      successful repair, the first look at the diff is the change gate, and the scans are the suite's verdict alone behind
      a failing suite, nothing behind a refused review, and all of them behind an approval. */
  lemma ResultShowsTheWork(free: set<Runtime>, w: World, maxRepairs: nat)
    ensures var r := Build(free, w, maxRepairs);
            && (r.gate.Some? ==> r.gate == Some(w.changes(0)))
            && (r.lastTests.Some? ==>
                  && Repairs(r) >= 0 && r.lastTests == Some(w.tests(Repairs(r))) && r.filesChanged == w.changes(Repairs(r))
                  && r.scans == if r.lastTests == Some(FailedScan) then [FailedScan]
                                else if r.reviewApproved == Some(true) then [r.lastTests.value] + w.scanners else [])
  {
    hide RunOf, Repaired, Judged;
    if ImplementerOf(free).Some? && w.workspaceReady {
      var implementer, reviewer := ImplementerOf(free).value, ReviewerOf(free).value;
      var first := First(implementer, w);
      AnsweredIff(implementer, Implementer, w.answers(0));
      if first.ok && w.changes(0) != [] {
        var work := Worked(implementer, w, maxRepairs);
        RepairsOnly(w, implementer, Work([first], w.changes(0), 1, w.tests(0), 1, false), maxRepairs);
        RepairsAreRescanned(w, implementer, maxRepairs, first);
        var review := RunOf(reviewer, Reviewer, w.answers(|work.runs|));
        AnsweredIff(reviewer, Reviewer, w.answers(|work.runs|));
        if work.tests != FailedScan {
          JudgedKeeps(Result(TestsFailed, false, work.runs, work.files, Some(w.changes(0)), Some(work.tests), None, []),
                      review, [work.tests] + w.scanners);
        }
      }
    }
  }

  lemma JudgedKeeps(done: Result, review: HarnessRun, scans: seq<Scan>)
    requires done.scans == []
    ensures var r := Judged(done, review, scans);
            && r.runs == done.runs + [review] && r.filesChanged == done.filesChanged
            && r.gate == done.gate && r.lastTests == done.lastTests
            && r.scans == if r.reviewApproved == Some(true) then scans else []
  {
  }

  lemma JudgedOutcome(done: Result, review: HarnessRun, scans: seq<Scan>, free: set<Runtime>, w: World, outcome: Outcome)
    requires (ClaudeCode in free || Codex in free) && w.workspaceReady
    requires review.role == Reviewer && (review.ok <==> review.failure.None?)
    requires done.lastTests.Some? && done.lastTests.value != FailedScan && done.scans == []
    requires scans != [] && done.lastTests == Some(scans[0])
    ensures var r := Judged(done, review, scans);
            && (r.outcome == outcome <==> Means(outcome, r, free, w))
            && (r.reviewApproved == Some(true) <==> LastApproves(r))
            && r.reviewApproved.Some? && LastWas(r, Reviewer)
  {
    hide EndsInApproval, Approves;
    ApprovesIff(review.verdicts);
    ScansPass(scans);
  }

  lemma ScansPass(scans: seq<Scan>)
    ensures AllPassed(scans) <==> forall i :: 0 <= i < |scans| ==> scans[i] == Passed
  {
    if AllPassed(scans) {
      assert forall i :: 0 <= i < |scans| ==> scans[i] in scans;
    }
  }

  lemma AllPassedCons(scan: Scan, scans: seq<Scan>)
    ensures AllPassed([scan] + scans) <==> scan == Passed && AllPassed(scans)
  {
    assert scan in [scan] + scans;
    assert forall s :: s in scans ==> s in [scan] + scans;
    assert forall s :: s in [scan] + scans ==> s == scan || s in scans;
  }

  predicate RolesFrom(runs: seq<HarnessRun>, from: nat, to: nat, role: Role) {
    from <= to <= |runs| && forall i :: from <= i < to ==> runs[i].role == role
  }

  /** The verdict and the diff are the latest ones, and every earlier run of the suite had failed. */
  ghost predicate Rescanned(w: World, p: Work, k: nat) {
    && p.scans == p.gates == |p.runs| - (if p.gaveUp then 1 else 0) >= 1
    && p.tests == w.tests(p.scans - 1) && p.files == w.changes(p.gates - 1)
    && (!p.gaveUp && p.tests == FailedScan ==> |p.runs| == 1 + k)
    && (forall i :: 0 <= i < p.scans - 1 ==> w.tests(i) == FailedScan)
  }

  lemma AttemptIsRescanned(w: World, implementer: Runtime, p: Work, k: nat)
    requires Rescanned(w, p, k) && !p.gaveUp && p.tests == FailedScan
    ensures Rescanned(w, Attempted(w, implementer, p), k + 1)
  {
    hide RunOf;
  }

  /** The suite ran once before the loop and once after each repair that succeeded; attempts are left over only if the
      suite no longer fails or a repair failed. */
  lemma {:induction false} RepairsAreRescanned(w: World, implementer: Runtime, k: nat, first: HarnessRun)
    ensures Rescanned(w, Repaired(w, implementer, Work([first], w.changes(0), 1, w.tests(0), 1, false), k), k)
  {
    hide Attempted;
    if k > 0 {
      RepairsAreRescanned(w, implementer, k - 1, first);
      var p := Repaired(w, implementer, Work([first], w.changes(0), 1, w.tests(0), 1, false), k - 1);
      if !p.gaveUp && p.tests == FailedScan {
        AttemptIsRescanned(w, implementer, p, k - 1);
      }
    }
  }

  lemma {:induction false} RepairsOnly(w: World, implementer: Runtime, start: Work, k: nat)
    requires |start.runs| == 1 && start.runs[0].ok && !start.gaveUp
    ensures var p := Repaired(w, implementer, start, k);
            && 1 <= |p.runs| <= 1 + k && p.runs[0] == start.runs[0]
            && RolesFrom(p.runs, 1, |p.runs|, Repair)
            && (forall i :: 1 <= i < |p.runs| ==> p.runs[i] == RunOf(implementer, Repair, w.answers(i)))
            && (forall i :: 0 <= i < |p.runs| - 1 ==> p.runs[i].ok)
            && (p.gaveUp ==> p.tests == FailedScan && !p.runs[|p.runs| - 1].ok)
            && (!p.gaveUp ==> p.runs[|p.runs| - 1].ok)
  {
    hide RunOf;
    if k > 0 {
      RepairsOnly(w, implementer, start, k - 1);
      var p := Repaired(w, implementer, start, k - 1);
      RunKeepsRole(implementer, Repair, w.answers(|p.runs|));
    }
  }

  /** The shape of every run: one implementer, then repairs, then at most one reviewer at the very end; never more than
      `2 + maxRepairs` invocations, and every invocation but the last succeeded. */
  lemma InvocationsAreBounded(free: set<Runtime>, w: World, maxRepairs: nat)
    ensures var runs := Build(free, w, maxRepairs).runs;
            && |runs| <= 2 + maxRepairs
            && (runs != [] ==> runs[0].role == Implementer)
            && (forall i :: 1 <= i < |runs| - 1 ==> runs[i].role == Repair)
            && (forall i :: 0 <= i < |runs| - 1 ==> runs[i].ok)
  {
    hide RunOf, Repaired;
    if ImplementerOf(free).Some? {
      var implementer := ImplementerOf(free).value;
      RunKeepsRole(implementer, Implementer, w.answers(0));
      if First(implementer, w).ok {
        RepairsOnly(w, implementer, Work([First(implementer, w)], w.changes(0), 1, w.tests(0), 1, false), maxRepairs);
      }
    }
  }

  ghost predicate Reviewed(runs: seq<HarnessRun>) {
    exists i :: 0 <= i < |runs| && runs[i].role == Reviewer
  }

  /** A review is spent exactly on a build whose implementer succeeded, whose change gate saw a change and whose last test
      run did not fail; it is never spent behind an empty gate or a failing suite. */
  lemma ReviewedIff(free: set<Runtime>, w: World, maxRepairs: nat)
    ensures var r := Build(free, w, maxRepairs);
            Reviewed(r.runs) <==>
              && r.runs != [] && r.runs[0].ok && r.gate.Some? && r.gate.value != []
              && r.lastTests.Some? && r.lastTests.value != FailedScan
  {
    hide RunOf, Repaired;
    if ImplementerOf(free).Some? && w.workspaceReady {
      var implementer, reviewer := ImplementerOf(free).value, ReviewerOf(free).value;
      RunKeepsRole(implementer, Implementer, w.answers(0));
      if First(implementer, w).ok && w.changes(0) != [] {
        var work := Worked(implementer, w, maxRepairs);
        RepairsOnly(w, implementer, Work([First(implementer, w)], w.changes(0), 1, w.tests(0), 1, false), maxRepairs);
        RunKeepsRole(reviewer, Reviewer, w.answers(|work.runs|));
        if work.tests != FailedScan {
          assert Build(free, w, maxRepairs).runs[|work.runs|].role == Reviewer;
        }
      }
    }
  }

  // -- how a build grows ---------------------------------------------------------------------------------

  lemma {:induction false} RepairsGrow(w: World, implementer: Runtime, start: Work, k: nat, n: nat)
    requires k <= n
    ensures Repaired(w, implementer, start, k).runs <= Repaired(w, implementer, start, n).runs
  {
    hide RunOf;
    if k < n {
      RepairsGrow(w, implementer, start, k, n - 1);
    }
  }

  /** What has run at each point of a build is part of what runs in the end. */
  lemma StepsGrow(implementer: Runtime, reviewer: Runtime, w: World, maxRepairs: nat)
    ensures var all, first := Steps(implementer, reviewer, w, maxRepairs).runs, First(implementer, w);
            && [first] <= all
            && (first.ok && w.changes(0) != [] ==>
                  var work := Worked(implementer, w, maxRepairs);
                  && work.runs <= all
                  && all == if work.tests == FailedScan then work.runs
                            else work.runs + [RunOf(reviewer, Reviewer, w.answers(|work.runs|))])
  {
    hide RunOf;
    RepairsGrow(w, implementer, Work([First(implementer, w)], w.changes(0), 1, w.tests(0), 1, false), 0, maxRepairs);
  }

  lemma {:induction false} NoMoreRepairs(w: World, implementer: Runtime, start: Work, k: nat, n: nat)
    requires k <= n
    requires var p := Repaired(w, implementer, start, k); k == n || p.gaveUp || p.tests != FailedScan
    ensures Repaired(w, implementer, start, n) == Repaired(w, implementer, start, k)
  {
    if k < n {
      NoMoreRepairs(w, implementer, start, k, n - 1);
    }
  }
}
