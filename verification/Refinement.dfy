/** The coroutine and the loop are the same program: run without interruption, the stretches between two visits to the
    top of the loop amount to one iteration of the monitoring loop. */
module Refinement {
  import opened Common
  import opened EventLog
  import opened Progress
  import opened Builds
  import opened BuildTask

  function Then(a: Stretch, b: Stretch): Stretch {
    Stretch(a.out + b.out, b.task)
  }

  function AfterAnswer(s: Stretch, t: Tick): Stretch {
    match s.task.phase
    case Cancelling(why) => Then(s, Cancelled(s.task, why))
    case Reporting => Then(s, EndIteration(s.task.(lastState := s.task.record.state, lastStatusAt := t.reportedAt)))
    case _ => s
  }

  /** The stretches of one iteration, end to end; only the first reads the log. */
  function WholeIteration(es: seq<Event>, id: string, task: Task, t: Tick, limits: Limits): Stretch {
    var s := Iteration(es, id, task, t.topAt);
    if s.task.phase.Polling? then AfterAnswer(Then(s, PollAnswered(s.task, t.reply, limits, t.polledAt)), t)
    else AfterAnswer(s, t)
  }

  function MonitorOf(task: Task, out: seq<Payload>): Monitor {
    Monitor(task.record, task.lastState, task.lastStatusAt, false, out)
  }

  ghost predicate Agree(s: Stretch, m: Monitor) {
    && s.out == m.out && s.task.record == m.record
    && (s.task.phase.FinalReport? <==> m.finished)
    && (!m.finished ==> s.task.lastState == m.lastState && s.task.lastStatusAt == m.lastStatusAt
                        && (s.task.phase.PauseReport? || s.task.phase.Napping?))
  }

  lemma AnswerRefines(task: Task, out: seq<Payload>, t: Tick, limits: Limits)
    ensures Agree(AfterAnswer(Then(Stretch(out, task), PollAnswered(task, t.reply, limits, t.polledAt)), t),
                  AfterPoll(MonitorOf(task, out).(record := Polled(task.record, t.reply, t.polledAt)), t, limits))
  {
    hide Polled;
    var task1 := task.(record := Polled(task.record, t.reply, t.polledAt));
    if IsStalled(task1.record, limits, t.polledAt) {
      assert out + [] + [NoProgressTimeout, StatusOf(StalledOut(task1.record))]
             == out + [NoProgressTimeout] + [StatusOf(StalledOut(task1.record))];
    } else if ReportDue(task1.record, task.lastState, task.lastStatusAt, limits, t.polledAt) {
      assert out + [StatusOf(task1.record)] + [] == out + [StatusOf(task1.record)];
    } else {
      assert out + [] == out;
    }
  }

  /** One uninterrupted iteration of the coroutine posts the same events and leaves the same record as one pass through
      the loop body. */
  lemma StretchesRefineIteration(es: seq<Event>, id: string, task: Task, t: Tick, limits: Limits)
    requires t.control == ControlState(es, id)
    ensures Agree(WholeIteration(es, id, task, t, limits), Iterate(MonitorOf(task, []), t, task.deadline, limits))
  {
    hide Polled, AfterPoll, PollAnswered;
    match LoopTop(task.record, t.control, task.deadline, t.topAt)
    case StopNow =>
    case AnnouncePause(r, out) => assert [] + out == out;
    case StayPaused =>
    case Overdue(r, out) =>
      assert out + [DeadlineExceeded, StatusOf(PastDeadline(r))] == [] + out + [DeadlineExceeded] + [StatusOf(PastDeadline(r))];
    case Poll(r, out) =>
      assert [] + out == out;
      AnswerRefines(task.(record := r, phase := Polling), out, t, limits);
  }
}
