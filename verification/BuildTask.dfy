/** The coroutine that carries one build from dispatch to its terminal event, as a state machine whose steps are the
    stretches of code between two awaits. */
module BuildTask {
  import opened Common
  import opened EventLog
  import opened Progress
  import opened Builds

  datatype Why = OwnerStop | Deadline | Stall

  /** What a task is waiting for. */
  datatype Phase =
    | Created              // the event loop, to run for the first time
    | ScopedWork           // the in-process scoped build
    | ScopedReport         // the status post of a scoped build
    | Submitting           // the control plane, to accept the execution
    | Announcing           // the status post before monitoring starts
    | Polling              // the execution's state
    | Cancelling(why: Why) // the control plane, to cancel the execution
    | Reporting            // the status post of an iteration
    | PauseReport          // the status post of a pause
    | Napping              // the poll interval
    | FinalReport          // the status post after the loop
    | RetryNap             // the delay before a resubmission
    | Finished(cancelled: bool)

  datatype Task = Task(
    request: Request,
    phase: Phase,
    record: Record,
    deadline: Option<real>,
    lastState: BuildState,
    lastStatusAt: real)

  datatype Submission = Accepted(executionId: string) | Refused(why: string)

  /** What the awaited operation hands back; each phase reads the part meant for it. */
  datatype Answer = Answer(
    raised: bool,                          // the await raised an unexpected exception
    admitted: bool,                        // some harness has headroom for a submission
    submission: Submission,
    reply: Option<map<string, Json>>,
    scopedState: BuildState)               // the terminal state a scoped outcome maps to

  /** A stretch: the events it appends for its build, and the task afterwards. */
  datatype Stretch = Stretch(out: seq<Payload>, task: Task)

  predicate HasTerminal(es: seq<Event>, id: string) {
    es != [] && ((es[|es| - 1].buildId == id && es[|es| - 1].payload.BuildTerminal?) || HasTerminal(es[..|es| - 1], id))
  }

  function TerminalEvent(es: seq<Event>, id: string, r: Record): seq<Payload> {
    if HasTerminal(es, id) then [] else [BuildTerminal(DetailOf(r))]
  }

  function Close(es: seq<Event>, id: string, t: Task, r: Record): Stretch {
    Stretch(TerminalEvent(es, id, r), t.(record := r, phase := Finished(false)))
  }

  /** After monitoring: resubmit an infrastructure casualty, otherwise record the terminal event. */
  function Conclude(es: seq<Event>, id: string, t: Task, r: Record): Stretch {
    if RetryableStop(r) && ControlState(es, id) != Stopping then
      Stretch([InfrastructureRetry(r.executionId, r.error)],
              t.(record := r.(executionId := "", state := Queued, error := "", phaseDetail := RETRY_DETAIL),
                 phase := RetryNap))
    else Close(es, id, t, r)
  }

  function Announce(t: Task, r: Record, before: seq<Payload>): Stretch {
    Stretch(before + [StatusOf(r)], t.(record := r, phase := Announcing))
  }

  const BLOCKED_NOTE := "blocked"
  const NO_ID_NOTE := "no execution id"

  function BeginSubmission(es: seq<Event>, id: string, t: Task, now: real, admitted: bool): Stretch {
    if admitted then Stretch([BuildSubmitted], t.(record := Blank(now), phase := Submitting))
    else
      var r := Blank(now).(state := Blocked, error := BLOCKED_NOTE);
      var close := Close(es, id, t, r);
      Stretch([BuildBlocked(r.error)] + close.out, close.task)
  }

  /** First stretch of a queued build: resume what the log shows outstanding, otherwise submit. */
  function Begin(es: seq<Event>, id: string, t: Task, now: real, admitted: bool): Stretch {
    if t.request.pipeline == Scoped then
      var r := Blank(now).(state := Executing);
      if ControlState(es, id) == Stopping then Close(es, id, t, OwnerStopped(r))
      else Stretch([], t.(record := r, phase := ScopedWork))
    else
      var loaded := LoadBuild(es, id, now);
      if loaded.None? || loaded.value.executionId == "" then BeginSubmission(es, id, t, now, admitted)
      else if !loaded.value.state.Terminal() then Announce(t, loaded.value, [])
      else Conclude(es, id, t, loaded.value)
  }

  function SubmissionAnswered(es: seq<Event>, id: string, t: Task, s: Submission): Stretch {
    match s
    case Refused(why) => Conclude(es, id, t, t.record.(state := Failed, error := why))
    case Accepted(x) =>
      if x == "" then Conclude(es, id, t, t.record.(state := Failed, error := NO_ID_NOTE))
      else Announce(t, t.record.(executionId := x, state := Planning), [BuildStarted(x)])
  }

  /** From the top of the loop to the next await. */
  function Iteration(es: seq<Event>, id: string, t: Task, now: real): Stretch {
    match LoopTop(t.record, ControlState(es, id), t.deadline, now)
    case StopNow => Stretch([], t.(phase := Cancelling(OwnerStop)))
    case AnnouncePause(r, out) => Stretch(out, t.(record := r, phase := PauseReport))
    case StayPaused => Stretch([], t.(phase := Napping))
    case Overdue(r, out) => Stretch(out, t.(record := r, phase := Cancelling(Deadline)))
    case Poll(r, out) => Stretch(out, t.(record := r, phase := Polling))
  }

  function EndIteration(t: Task): Stretch {
    if t.record.state.Terminal() then Stretch([StatusOf(t.record)], t.(phase := FinalReport))
    else Stretch([], t.(phase := Napping))
  }

  function PollAnswered(t: Task, reply: Option<map<string, Json>>, limits: Limits, now: real): Stretch {
    var t1 := t.(record := Polled(t.record, reply, now));
    if IsStalled(t1.record, limits, now) then Stretch([], t1.(phase := Cancelling(Stall)))
    else if ReportDue(t1.record, t.lastState, t.lastStatusAt, limits, now) then
      Stretch([StatusOf(t1.record)], t1.(phase := Reporting))
    else EndIteration(t1)
  }

  function Cancelled(t: Task, why: Why): Stretch {
    var (r, note) := match why
      case OwnerStop => (OwnerStopped(t.record), BuildStopped)
      case Deadline => (PastDeadline(t.record), DeadlineExceeded)
      case Stall => (StalledOut(t.record), NoProgressTimeout);
    Stretch([note, StatusOf(r)], t.(record := r, phase := FinalReport))
  }

  function ScopedDone(es: seq<Event>, id: string, t: Task, state: BuildState): Stretch {
    var r := if ControlState(es, id) == Stopping then t.record.(state := Stopped, error := STOP_NOTE)
             else t.record.(state := state);
    Stretch([StatusOf(r)], t.(record := r, phase := ScopedReport))
  }

  const CRASH_NOTE := "scheduler failure"

  /** Entering the monitoring loop sets the wall-clock deadline and the reporting state. */
  function Armed(t: Task, now: real): Task {
    t.(deadline := if t.request.maxHours > 0.0 then Some(now + t.request.maxHours * 3600.0) else None,
       lastState := t.record.state, lastStatusAt := 0.0)
  }

  /** The stretch a task runs when what it awaits answers at `now`. */
  function Advance(es: seq<Event>, id: string, t: Task, a: Answer, limits: Limits, now: real): Stretch
    requires !t.phase.Finished?
  {
    if a.raised then Close(es, id, t, Blank(now).(state := Failed, error := CRASH_NOTE))
    else
      match t.phase
      case Created => Begin(es, id, t, now, a.admitted)
      case ScopedWork => ScopedDone(es, id, t, a.scopedState)
      case ScopedReport => Close(es, id, t, t.record)
      case Submitting => SubmissionAnswered(es, id, t, a.submission)
      case Announcing => Iteration(es, id, Armed(t, now), now)
      case Polling => PollAnswered(t, a.reply, limits, now)
      case Cancelling(why) => Cancelled(t, why)
      case Reporting => EndIteration(t.(lastState := t.record.state, lastStatusAt := now))
      case PauseReport => Stretch([], t.(phase := Napping))
      case Napping => Iteration(es, id, t, now)
      case FinalReport => Conclude(es, id, t, t.record)
      case RetryNap => BeginSubmission(es, id, t, now, a.admitted)
  }

  function Dispatched(request: Request): Task {
    Task(request, Created, Blank(0.0), None, Queued, 0.0)
  }

  /** The log after a stretch of build `id` at `now`. */
  function Append(es: seq<Event>, id: string, out: seq<Payload>, now: Time): seq<Event> {
    if out == [] then es
    else Append(es, id, out[..|out| - 1], now) + [Event(now, id, out[|out| - 1])]
  }

  lemma {:induction false} AppendShape(es: seq<Event>, id: string, out: seq<Payload>, now: Time)
    ensures var r := Append(es, id, out, now);
            && |r| == |es| + |out| && r[..|es|] == es
            && forall k :: |es| <= k < |r| ==> r[k] == Event(now, id, out[k - |es|])
  {
    if out != [] {
      AppendShape(es, id, out[..|out| - 1], now);
    }
  }
}
