/** What each answer a task awaits leaves of its build, in the words of the source: states, errors and events. */
module Outcomes {
  import opened Common
  import opened EventLog
  import opened Progress
  import opened Builds
  import opened BuildTask
  import opened LogLaws
  import opened TaskLaws

  /** The stretch ends the build, and its terminal event tells the record `r`. */
  predicate EndsAs(s: Stretch, r: Record) {
    && s.task.phase == Finished(false) && s.task.record == r
    && s.out != [] && s.out[|s.out| - 1].BuildTerminal? && Tells(s.out[|s.out| - 1].detail, r)
  }

  /** The stretch resubmits the build: the log says why, and the record starts over. */
  predicate Retries(s: Stretch, r: Record) {
    && s.task.phase.RetryNap? && s.out == [InfrastructureRetry(r.executionId, r.error)]
    && s.task.record.executionId == "" && s.task.record.state == Queued && s.task.record.error == ""
    && s.task.record.phaseDetail == RETRY_DETAIL
  }

  /** A casualty of the infrastructure that its owner still wants. */
  ghost predicate IsCasualty(es: seq<Event>, id: string, r: Record) {
    r.state == Stopped && NamesControlPlane(r.error) && ControlState(es, id) != Stopping
  }

  lemma ConcludeOutcome(es: seq<Event>, id: string, t: Task, r: Record)
    requires !HasTerminal(es, id)
    ensures if IsCasualty(es, id, r) then Retries(Conclude(es, id, t, r), r) else EndsAs(Conclude(es, id, t, r), r)
  {
    hide RetryableStop, NamesControlPlane;
    RetryableIff(r);
  }

  lemma SameRequest(es: seq<Event>, id: string, t: Task, a: Answer, limits: Limits, now: Time)
    requires !t.phase.Finished?
    ensures Advance(es, id, t, a, limits, now).task.request == t.request
  {
    hide Replay, Polled, IsStalled, ReportDue, RetryableStop, ControlState;
  }

  // -- before monitoring ---------------------------------------------------------------------------

  /** Whatever a task awaits, an unexpected exception ends the build as failed, without an execution. */
  lemma CrashOutcome(es: seq<Event>, id: string, t: Task, a: Answer, limits: Limits, now: Time)
    requires !HasTerminal(es, id) && !t.phase.Finished? && a.raised
    ensures var s := Advance(es, id, t, a, limits, now);
            && EndsAs(s, s.task.record) && s.task.record.state == Failed && s.task.record.error == CRASH_NOTE
            && s.task.record.executionId == ""
  {
  }

  /** A scoped build ends in the state its outcome maps to, unless its owner stopped it meanwhile. */
  lemma ScopedOutcome(es: seq<Event>, id: string, t: Task, a: Answer, limits: Limits, now: Time)
    requires !HasTerminal(es, id) && !a.raised
    ensures t.phase.ScopedWork? ==>
              var s, stopped := Advance(es, id, t, a, limits, now), ControlState(es, id) == Stopping;
              && s.task.phase.ScopedReport?
              && s.task.record == t.record.(state := if stopped then Stopped else a.scopedState,
                                            error := if stopped then STOP_NOTE else t.record.error)
              && s.out == [BuildStatus(s.task.record.state, t.record.phaseDetail, t.record.prUrl)]
    ensures t.phase.ScopedReport? ==> EndsAs(Advance(es, id, t, a, limits, now), t.record)
  {
  }

  /** Where no harness has headroom a submission ends as blocked. */
  lemma BlockedOutcome(es: seq<Event>, id: string, t: Task, a: Answer, limits: Limits, now: Time)
    requires !HasTerminal(es, id) && !a.raised && !a.admitted
    requires t.phase.RetryNap? || (t.phase.Created? && t.request.pipeline != Scoped && Outstanding(es, id) == "")
    ensures var s := Advance(es, id, t, a, limits, now);
            && EndsAs(s, s.task.record) && s.task.record.state == Blocked && s.task.record.state.Terminal()
            && s.task.record.error == BLOCKED_NOTE
            && s.task.record.executionId == "" && s.out[0] == BuildBlocked(BLOCKED_NOTE)
  {
    ReplayOfUnended(es, id, now);
  }

  /** A scoped build begins executing, and one that was stopped while it waited ends as stopped. */
  lemma ScopedBegins(es: seq<Event>, id: string, t: Task, a: Answer, limits: Limits, now: Time)
    requires !HasTerminal(es, id) && !a.raised && t.phase.Created? && t.request.pipeline == Scoped
    ensures var s := Advance(es, id, t, a, limits, now);
            && s.task.record.executionId == ""
            && (ControlState(es, id) == Stopping ==>
                  EndsAs(s, s.task.record) && s.task.record.state == Stopped && s.task.record.phaseDetail == STOP_NOTE)
            && (ControlState(es, id) != Stopping ==>
                  s.out == [] && s.task.phase.ScopedWork? && s.task.record.state == Executing)
  {
  }

  /** What the control plane answers to a submission: an execution is monitored under its id as planned, and a refusal or an
      answer without an id fails the build. */
  lemma SubmissionOutcome(es: seq<Event>, id: string, t: Task, a: Answer, limits: Limits, now: Time)
    requires !HasTerminal(es, id) && !a.raised && t.phase.Submitting?
    ensures var s := Advance(es, id, t, a, limits, now);
            match a.submission
            case Refused(why) => EndsAs(s, t.record.(state := Failed, error := why))
            case Accepted(x) =>
              if x == "" then EndsAs(s, t.record.(state := Failed, error := NO_ID_NOTE))
              else
                && s.task.phase.Announcing? && s.task.record == t.record.(executionId := x, state := Planning)
                && s.out == [BuildStarted(x), BuildStatus(Planning, t.record.phaseDetail, t.record.prUrl)]
  {
    hide NamesControlPlane, RetryableStop;
    match a.submission
    case Refused(why) => ConcludeOutcome(es, id, t, t.record.(state := Failed, error := why));
    case Accepted(x) => ConcludeOutcome(es, id, t, t.record.(state := Failed, error := NO_ID_NOTE));
  }

  // -- the monitoring loop ---------------------------------------------------------------------------

  /** The wall-clock deadline of a build that enters the loop at `now`, in hours. */
  function DeadlineFrom(request: Request, now: real): Option<real> {
    if request.maxHours > 0.0 then Some(now + request.maxHours * 3600.0) else None
  }

  predicate Overran(deadline: Option<real>, now: real) {
    deadline.Some? && now > deadline.value
  }

  predicate AtTheTop(p: Phase) {
    p.Announcing? || p.Napping?
  }

  /** The deadline that holds at the top of the loop: it is set when the loop is entered and never again. */
  function DeadlineAtTop(t: Task, now: real): Option<real> {
    if t.phase.Announcing? then DeadlineFrom(t.request, now) else t.deadline
  }

  /** What the top of the loop decides: an owner's stop cancels the execution, a pause is announced once, and an
      unpaused build is resumed and then polled, or cancelled once it has overrun its deadline. */
  lemma TopOutcome(es: seq<Event>, id: string, t: Task, a: Answer, limits: Limits, now: Time)
    requires AtTheTop(t.phase) && !a.raised
    ensures var s, r, paused := Advance(es, id, t, a, limits, now), t.record, t.record.state == Paused;
            var r2 := s.task.record;
            && s.task.deadline == DeadlineAtTop(t, now) && r2.executionId == r.executionId
            && s.task.lastState == (if t.phase.Announcing? then r.state else t.lastState)
            && s.task.lastStatusAt == (if t.phase.Announcing? then 0.0 else t.lastStatusAt)
            && r2.error == r.error && r2.prUrl == r.prUrl
            && match ControlState(es, id)
               case Stopping => s.task.phase == Cancelling(OwnerStop) && r2 == r && s.out == []
               case Pausing =>
                 if paused then s.task.phase == Napping && r2 == r && s.out == []
                 else s.task.phase == PauseReport && r2.state == Paused && r2.phaseDetail == PAUSE_NOTE
                      && s.out == [BuildPaused, BuildStatus(Paused, PAUSE_NOTE, r.prUrl)]
               case Running =>
                 && r2.state == (if paused then Executing else r.state) && r2.phaseDetail == r.phaseDetail
                 && s.out == (if paused then [BuildResumed] else [])
                 && s.task.phase == if Overran(DeadlineAtTop(t, now), now) then Cancelling(Deadline) else Polling
  {
    hide ControlState;
  }

  /** The watchdog's condition on a record that is not terminal. */
  predicate Silent(r: Record, limits: Limits, now: real) {
    !r.state.Terminal() && limits.noProgressS > 0.0 && now >= r.lastProgressAt + limits.noProgressS
  }

  /** What a poll leads to: the state the answer puts the build in; then the watchdog, or a status report when the state
      changed or none was posted for an interval, or the end of the loop. The loop is left exactly by a terminal state
      and by the watchdog. */
  lemma PollOutcome(es: seq<Event>, id: string, t: Task, a: Answer, limits: Limits, now: Time)
    requires t.phase.Polling? && !a.raised && t.record.executionId != ""
    ensures var s := Advance(es, id, t, a, limits, now);
            var r2, due := s.task.record, s.task.record.state != t.lastState || now >= t.lastStatusAt + limits.statusIntervalS;
            && r2 == (match a.reply case Some(body) => Updated(t.record, body, now) case None => t.record)
            && r2.executionId == t.record.executionId && s.task.deadline == t.deadline
            && s.task.lastState == t.lastState && s.task.lastStatusAt == t.lastStatusAt
            && (a.reply.None? ==> r2.state == t.record.state)
            && (a.reply.Some? ==> forall x :: PutsIn(a.reply.value, x) ==> r2.state == x)
            && (a.reply.Some? && (forall x :: !PutsIn(a.reply.value, x)) ==> r2.state == t.record.state)
            && s.task.phase == (if Silent(r2, limits, now) then Cancelling(Stall)
                                else if due then Reporting
                                else if r2.state.Terminal() then FinalReport else Napping)
            && s.out == if Posting(s.task.phase) then [BuildStatus(r2.state, r2.phaseDetail, r2.prUrl)] else []
  {
    hide Updated, PutsIn;
    if a.reply.Some? {
      UpdatedFields(t.record, a.reply.value, now);
      AnswerSetsState(t.record, a.reply.value, now);
    }
  }

  /** After the report of an iteration, which is remembered, the loop goes on or ends. */
  lemma ReportOutcome(es: seq<Event>, id: string, t: Task, a: Answer, limits: Limits, now: Time)
    requires (t.phase.Reporting? || t.phase.PauseReport?) && !a.raised
    ensures var s := Advance(es, id, t, a, limits, now);
            && s.task.record == t.record && s.task.deadline == t.deadline
            && s.task.lastState == (if t.phase.Reporting? then t.record.state else t.lastState)
            && s.task.lastStatusAt == (if t.phase.Reporting? then now else t.lastStatusAt)
            && s.task.phase == (if t.phase.Reporting? && t.record.state.Terminal() then FinalReport else Napping)
            && s.out == if s.task.phase.FinalReport?
                        then [BuildStatus(t.record.state, t.record.phaseDetail, t.record.prUrl)] else []
  {
  }

  /** The state in which a build is cut off. */
  function CutOffState(why: Why): BuildState {
    if why.OwnerStop? then Stopped else Failed
  }

  function CutOffCause(why: Why): Payload {
    match why
    case OwnerStop => BuildStopped
    case Deadline => DeadlineExceeded
    case Stall => NoProgressTimeout
  }

  /** Once the execution is cancelled the build is out of the loop: stopped on its owner's word, failed otherwise, with the
      cause in the log and in the record. */
  lemma CutOffOutcome(es: seq<Event>, id: string, t: Task, a: Answer, limits: Limits, now: Time)
    requires t.phase.Cancelling? && !a.raised
    ensures var s, r, why := Advance(es, id, t, a, limits, now), t.record, t.phase.why;
            var r2 := s.task.record;
            && s.task.phase.FinalReport? && s.task.deadline == t.deadline
            && r2.state == CutOffState(why) && r2.executionId == r.executionId && r2.prUrl == r.prUrl
            && r2.error == (match why case OwnerStop => r.error case Deadline => DEADLINE_NOTE case Stall => STALL_NOTE)
            && r2.phaseDetail ==
               (match why case OwnerStop => STOP_NOTE case Deadline => r.phaseDetail case Stall => STALL_NOTE)
            && s.out == [CutOffCause(why), BuildStatus(r2.state, r2.phaseDetail, r2.prUrl)]
  {
  }

  /** After the loop: an infrastructure casualty is resubmitted, anything else ends as its record says. */
  lemma FinalOutcome(es: seq<Event>, id: string, t: Task, a: Answer, limits: Limits, now: Time)
    requires !HasTerminal(es, id) && t.phase.FinalReport? && !a.raised
    ensures var s := Advance(es, id, t, a, limits, now);
            if IsCasualty(es, id, t.record) then Retries(s, t.record) else EndsAs(s, t.record)
  {
    ConcludeOutcome(es, id, t, t.record);
  }
}
