/** Every stretch of a build's task has a fixed shape, whatever the log says; and if the task was in step with the
    execution the log shows, it stays so. */
module TaskLaws {
  import opened Common
  import opened EventLog
  import opened Progress
  import opened Builds
  import opened BuildTask
  import opened Scheduler
  import opened LogLaws

  // -- the shape of a stretch ------------------------------------------------------------------

  /** A status is being posted. */
  predicate Posting(p: Phase) {
    p.Announcing? || p.Reporting? || p.PauseReport? || p.FinalReport?
  }

  /** A stretch never queues and never signals, and starts only what was submitted. */
  predicate MayPost(t: Task, p: Payload) {
    !IsControl(p) && !p.BuildEnqueued? && (p.BuildStarted? ==> t.phase.Submitting? && p.executionId != "")
  }

  /** A terminal event tells what the record holds. */
  predicate Tells(d: Detail, r: Record) {
    && d.state == r.state && d.executionId == r.executionId && d.phaseDetail == r.phaseDetail
    && d.prUrl == r.prUrl && d.error == r.error
  }

  /** What every stretch of `t` looks like: a terminal event comes last, is there iff the task is done and tells the
      task's record; a task that awaits the control plane has just noted its submission, and one that posts a status has
      just logged it. */
  ghost predicate Shaped(t: Task, s: Stretch) {
    && (forall p :: p in s.out ==> MayPost(t, p))
    && (s.out != [] ==> forall p :: p in s.out[..|s.out| - 1] ==> !p.BuildTerminal?)
    && (s.task.phase == Finished(false) <==> s.out != [] && s.out[|s.out| - 1].BuildTerminal?)
    && (s.task.phase == Finished(false) ==> Tells(s.out[|s.out| - 1].detail, s.task.record))
    && s.task.phase != Finished(true)
    && (s.task.phase.Submitting? ==> s.out != [] && s.out[|s.out| - 1] == BuildSubmitted)
    && (Posting(s.task.phase) ==> s.out != [] && s.out[|s.out| - 1] == StatusOf(s.task.record))
  }

  /** A stretch that posts one event. */
  lemma OneEventShaped(t: Task, p: Payload, t1: Task)
    requires MayPost(t, p) && (p.BuildTerminal? <==> t1.phase == Finished(false)) && t1.phase != Finished(true)
    requires t1.phase == Finished(false) ==> Tells(p.detail, t1.record)
    requires t1.phase.Submitting? ==> p == BuildSubmitted
    requires Posting(t1.phase) ==> p == StatusOf(t1.record)
    ensures Shaped(t, Stretch([p], t1))
  {
    assert [p][..0] == [];
  }

  lemma ConcludeShaped(es: seq<Event>, id: string, t: Task, r: Record)
    requires !HasTerminal(es, id)
    ensures Shaped(t, Conclude(es, id, t, r)) && Shaped(t, Close(es, id, t, r))
  {
    hide Shaped, RetryableStop, ControlState;
    OneEventShaped(t, BuildTerminal(DetailOf(r)), t.(record := r, phase := Finished(false)));
    OneEventShaped(t, InfrastructureRetry(r.executionId, r.error),
                   t.(record := r.(executionId := "", state := Queued, error := "", phaseDetail := RETRY_DETAIL),
                      phase := RetryNap));
  }

  lemma BeginSubmissionShaped(es: seq<Event>, id: string, t: Task, now: Time, admitted: bool)
    requires !HasTerminal(es, id)
    ensures Shaped(t, BeginSubmission(es, id, t, now, admitted))
  {
    if admitted {
      OneEventShaped(t, BuildSubmitted, t.(record := Blank(now), phase := Submitting));
    } else {
      var r := Blank(now).(state := Blocked, error := BLOCKED_NOTE);
      assert BeginSubmission(es, id, t, now, admitted).out == [BuildBlocked(r.error), BuildTerminal(DetailOf(r))];
    }
  }

  lemma AnnounceShaped(t: Task, r: Record)
    ensures Shaped(t, Announce(t, r, []))
    ensures t.phase.Submitting? && r.executionId != "" ==> Shaped(t, Announce(t, r, [BuildStarted(r.executionId)]))
  {
    assert [] + [StatusOf(r)] == [StatusOf(r)];
    assert [BuildStarted(r.executionId)] + [StatusOf(r)] == [BuildStarted(r.executionId), StatusOf(r)];
  }

  lemma StartingShaped(es: seq<Event>, id: string, t: Task, a: Answer, limits: Limits, now: Time)
    requires !HasTerminal(es, id) && Starting(t.phase) && !a.raised
    ensures Shaped(t, Advance(es, id, t, a, limits, now))
  {
    hide BeginSubmission, Conclude, Replay;
    match t.phase
    case Created => BeginShaped(es, id, t, now, a.admitted);
    case ScopedWork =>
    case ScopedReport => ConcludeShaped(es, id, t, t.record);
    case Submitting => SubmissionShaped(es, id, t, a.submission);
    case RetryNap => BeginSubmissionShaped(es, id, t, now, a.admitted);
  }

  lemma BeginShaped(es: seq<Event>, id: string, t: Task, now: Time, admitted: bool)
    requires !HasTerminal(es, id)
    ensures Shaped(t, Begin(es, id, t, now, admitted))
  {
    hide BeginSubmission, Conclude, Announce, Close, Replay, Shaped;
    if t.request.pipeline == Scoped {
      var r := Blank(now).(state := Executing);
      ConcludeShaped(es, id, t, OwnerStopped(r));
      SilentShaped(t, t.(record := r, phase := ScopedWork));
    } else {
      var loaded := LoadBuild(es, id, now);
      BeginSubmissionShaped(es, id, t, now, admitted);
      if loaded.Some? {
        AnnounceShaped(t, loaded.value);
        ConcludeShaped(es, id, t, loaded.value);
      }
    }
  }

  lemma SilentShaped(t: Task, t1: Task)
    requires !t1.phase.Finished? && !t1.phase.Submitting? && !Posting(t1.phase)
    ensures Shaped(t, Stretch([], t1))
  {
  }

  lemma SubmissionShaped(es: seq<Event>, id: string, t: Task, s: Submission)
    requires !HasTerminal(es, id) && t.phase.Submitting?
    ensures Shaped(t, SubmissionAnswered(es, id, t, s))
  {
    hide Conclude, Announce, Shaped;
    match s
    case Refused(why) => ConcludeShaped(es, id, t, t.record.(state := Failed, error := why));
    case Accepted(x) =>
      ConcludeShaped(es, id, t, t.record.(state := Failed, error := NO_ID_NOTE));
      AnnounceShaped(t, t.record.(executionId := x, state := Planning));
  }

  lemma IterationShaped(es: seq<Event>, id: string, t0: Task, t: Task, now: Time)
    ensures Shaped(t0, Iteration(es, id, t, now))
  {
  }

  lemma PollShaped(t: Task, reply: Option<map<string, Json>>, limits: Limits, now: Time)
    ensures Shaped(t, PollAnswered(t, reply, limits, now))
  {
    hide Polled, IsStalled, ReportDue;
  }

  lemma MonitoringShaped(es: seq<Event>, id: string, t: Task, a: Answer, limits: Limits, now: Time)
    requires !HasTerminal(es, id) && !Starting(t.phase) && !t.phase.Finished? && !a.raised
    ensures Shaped(t, Advance(es, id, t, a, limits, now))
  {
    hide Iteration, PollAnswered, Conclude;
    match t.phase
    case Announcing => IterationShaped(es, id, t, Armed(t, now), now);
    case Polling => PollShaped(t, a.reply, limits, now);
    case Cancelling(_) =>
    case Reporting =>
    case PauseReport =>
    case Napping => IterationShaped(es, id, t, t, now);
    case FinalReport => ConcludeShaped(es, id, t, t.record);
  }

  /** Every stretch has the shape, whatever the log shows and in whatever order it was read. */
  lemma AdvanceShaped(es: seq<Event>, id: string, t: Task, a: Answer, limits: Limits, now: Time)
    requires !HasTerminal(es, id) && !t.phase.Finished?
    ensures Shaped(t, Advance(es, id, t, a, limits, now))
  {
    hide Shaped, Conclude;
    if a.raised {
      ConcludeShaped(es, id, t, Blank(now).(state := Failed, error := CRASH_NOTE));
    } else if Starting(t.phase) {
      StartingShaped(es, id, t, a, limits, now);
    } else {
      MonitoringShaped(es, id, t, a, limits, now);
    }
  }

  predicate Starting(p: Phase) {
    p.Created? || p.ScopedWork? || p.ScopedReport? || p.Submitting? || p.RetryNap?
  }

  // -- the execution a task works on -------------------------------------------------------------

  /** Events that no reading of execution, queue or control depends on. */
  predicate Quiet(p: Payload) {
    !p.BuildStarted? && !p.InfrastructureRetry? && !p.BuildTerminal? && !p.BuildEnqueued? && !p.BuildSubmitted? && !IsControl(p)
  }

  /** The live record and the log agree about the execution. */
  ghost predicate InStep(es: seq<Event>, id: string, r: Record) {
    r.executionId == Outstanding(es, id) && r.executionId != ""
  }

  /** What holds of a task at each await. */
  ghost predicate TaskSound(es: seq<Event>, id: string, t: Task) {
    match t.phase
    case Created => true
    case ScopedWork => t.request.pipeline == Scoped && t.record.executionId == ""
    case ScopedReport => t.request.pipeline == Scoped && t.record.executionId == ""
    case Submitting => t.record.executionId == "" && Outstanding(es, id) == "" && t.record.state == Queued
    case RetryNap => t.record.executionId == "" && Outstanding(es, id) == ""
    case Announcing => InStep(es, id, t.record) && !t.record.state.Terminal()
    case Polling => InStep(es, id, t.record) && !t.record.state.Terminal()
    case Cancelling(_) => InStep(es, id, t.record) && !t.record.state.Terminal()
    case Reporting => InStep(es, id, t.record)
    case PauseReport => InStep(es, id, t.record) && t.record.state == Paused
    case Napping => InStep(es, id, t.record) && !t.record.state.Terminal()
    case FinalReport => InStep(es, id, t.record) && t.record.state.Terminal()
    case Finished(_) => true
  }

  /** Every event of a stretch obeys the law of executions when it is appended. */
  ghost predicate Obeys(es: seq<Event>, id: string, out: seq<Payload>, now: Time) {
    out == []
    || (Obeys(es, id, out[..|out| - 1], now)
        && LawfulNext(Append(es, id, out[..|out| - 1], now), Event(now, id, out[|out| - 1]), id))
  }

  ghost predicate StretchSound(es: seq<Event>, id: string, s: Stretch, now: Time) {
    Obeys(es, id, s.out, now) && TaskSound(Append(es, id, s.out, now), id, s.task)
  }

  lemma ObeysSnoc(es: seq<Event>, id: string, out: seq<Payload>, p: Payload, now: Time)
    requires Obeys(es, id, out, now) && LawfulNext(Append(es, id, out, now), Event(now, id, p), id)
    ensures Obeys(es, id, out + [p], now)
    ensures Append(es, id, out + [p], now) == Append(es, id, out, now) + [Event(now, id, p)]
  {
    assert (out + [p])[..|out|] == out;
  }

  lemma QuietNext(es: seq<Event>, id: string, p: Payload, now: Time)
    requires Quiet(p)
    ensures LawfulNext(es, Event(now, id, p), id) && Outstanding(es + [Event(now, id, p)], id) == Outstanding(es, id)
  {
    ReadingsSnoc(es, Event(now, id, p), id);
  }

  lemma {:induction false} AppendQuiet(es: seq<Event>, id: string, out: seq<Payload>, now: Time)
    requires forall p :: p in out ==> Quiet(p)
    ensures Obeys(es, id, out, now) && Outstanding(Append(es, id, out, now), id) == Outstanding(es, id)
  {
    hide Quiet, LawfulNext, Outstanding;
    if out != [] {
      var init, p := out[..|out| - 1], out[|out| - 1];
      assert p in out;
      AppendQuiet(es, id, init, now);
      QuietNext(Append(es, id, init, now), id, p, now);
    }
  }

  /** One event that matters, and quiet ones after it. */
  lemma {:induction false} AppendFirst(es: seq<Event>, id: string, p: Payload, rest: seq<Payload>, now: Time)
    requires LawfulNext(es, Event(now, id, p), id) && forall q :: q in rest ==> Quiet(q)
    ensures Obeys(es, id, [p] + rest, now)
    ensures Outstanding(Append(es, id, [p] + rest, now), id) == Outstanding(es + [Event(now, id, p)], id)
  {
    hide Quiet, LawfulNext, Outstanding;
    if rest == [] {
      ObeysSnoc(es, id, [], p, now);
      assert [p] + rest == [] + [p];
    } else {
      var init, q := rest[..|rest| - 1], rest[|rest| - 1];
      assert q in rest;
      AppendFirst(es, id, p, init, now);
      QuietNext(Append(es, id, [p] + init, now), id, q, now);
      ObeysSnoc(es, id, [p] + init, q, now);
      assert [p] + rest == ([p] + init) + [q];
    }
  }

  lemma QuietStretch(es: seq<Event>, id: string, s: Stretch, now: Time)
    requires forall p :: p in s.out ==> Quiet(p)
    requires TaskSound(es, id, s.task)
    ensures StretchSound(es, id, s, now)
  {
    AppendQuiet(es, id, s.out, now);
  }

  lemma CloseSound(es: seq<Event>, id: string, t: Task, r: Record, now: Time)
    requires !HasTerminal(es, id)
    requires r.executionId == "" || r.executionId == Outstanding(es, id)
    ensures StretchSound(es, id, Close(es, id, t, r), now)
  {
    assert [BuildTerminal(DetailOf(r))] + [] == [BuildTerminal(DetailOf(r))];
    AppendFirst(es, id, BuildTerminal(DetailOf(r)), [], now);
  }

  /** Resubmitting an infrastructure casualty, or ending the build: it is resubmitted iff it was stopped under an error
      that names the control plane and its owner has not stopped it, and otherwise its terminal event tells its record. */
  lemma ConcludeSound(es: seq<Event>, id: string, t: Task, r: Record, now: Time)
    requires !HasTerminal(es, id)
    requires r.executionId == Outstanding(es, id) && (RetryableStop(r) ==> r.executionId != "")
    ensures StretchSound(es, id, Conclude(es, id, t, r), now)
    ensures var s := Conclude(es, id, t, r);
            if r.state == Stopped && NamesControlPlane(r.error) && ControlState(es, id) != Stopping
            then s.task.phase.RetryNap? && s.out == [InfrastructureRetry(r.executionId, r.error)]
            else s.task.phase == Finished(false) && |s.out| == 1 && s.out[0].BuildTerminal? && Tells(s.out[0].detail, r)
  {
    hide RetryableStop, NamesControlPlane;
    RetryableIff(r);
    if RetryableStop(r) && ControlState(es, id) != Stopping {
      var p := InfrastructureRetry(r.executionId, r.error);
      assert [p] + [] == [p];
      AppendFirst(es, id, p, [], now);
      ReadingsSnoc(es, Event(now, id, p), id);
    } else {
      CloseSound(es, id, t, r, now);
    }
  }

  lemma BeginSubmissionSound(es: seq<Event>, id: string, t: Task, now: Time, admitted: bool)
    requires !HasTerminal(es, id) && Outstanding(es, id) == ""
    ensures StretchSound(es, id, BeginSubmission(es, id, t, now, admitted), now)
  {
    if admitted {
      assert [BuildSubmitted] + [] == [BuildSubmitted];
      AppendFirst(es, id, BuildSubmitted, [], now);
      ReadingsSnoc(es, Event(now, id, BuildSubmitted), id);
    } else {
      var r := Blank(now).(state := Blocked, error := BLOCKED_NOTE);
      var out := [BuildBlocked(r.error), BuildTerminal(DetailOf(r))];
      assert BeginSubmission(es, id, t, now, admitted).out == out;
      AppendQuiet(es, id, [BuildBlocked(r.error)], now);
      assert out[..1] == [BuildBlocked(r.error)];
    }
  }

  lemma BeginSound(es: seq<Event>, id: string, t: Task, now: Time, admitted: bool)
    requires !HasTerminal(es, id) && (Outstanding(es, id) != "" ==> Submitted(es, id))
    ensures StretchSound(es, id, Begin(es, id, t, now, admitted), now)
  {
    hide StretchSound, BeginSubmission, Conclude, Close, Replay, HasTerminal, Outstanding;
    ReplayOfUnended(es, id, now);
    if t.request.pipeline == Scoped {
      var r := Blank(now).(state := Executing);
      CloseSound(es, id, t, OwnerStopped(r), now);
      QuietStretch(es, id, Stretch([], t.(record := r, phase := ScopedWork)), now);
    } else {
      var loaded := LoadBuild(es, id, now);
      if loaded.None? || loaded.value.executionId == "" {
        BeginSubmissionSound(es, id, t, now, admitted);
      } else if !loaded.value.state.Terminal() {
        AnnounceSound(es, id, t, loaded.value, now);
      } else {
        ConcludeSound(es, id, t, loaded.value, now);
      }
    }
  }

  lemma AnnounceSound(es: seq<Event>, id: string, t: Task, r: Record, now: Time)
    requires InStep(es, id, r) && !r.state.Terminal()
    ensures StretchSound(es, id, Announce(t, r, []), now)
  {
    assert [] + [StatusOf(r)] == [StatusOf(r)];
    QuietStretch(es, id, Announce(t, r, []), now);
  }

  lemma AcceptedSound(es: seq<Event>, id: string, t: Task, x: string, now: Time)
    requires Outstanding(es, id) == "" && x != ""
    ensures var r := t.record.(executionId := x, state := Planning);
            StretchSound(es, id, Announce(t, r, [BuildStarted(x)]), now)
  {
    var r := t.record.(executionId := x, state := Planning);
    AppendFirst(es, id, BuildStarted(x), [StatusOf(r)], now);
    ReadingsSnoc(es, Event(now, id, BuildStarted(x)), id);
  }

  lemma SubmissionSound(es: seq<Event>, id: string, t: Task, s: Submission, now: Time)
    requires !HasTerminal(es, id) && TaskSound(es, id, t) && t.phase.Submitting?
    ensures StretchSound(es, id, SubmissionAnswered(es, id, t, s), now)
  {
    hide StretchSound, Conclude, Announce, Outstanding;
    match s
    case Refused(why) => ConcludeSound(es, id, t, t.record.(state := Failed, error := why), now);
    case Accepted(x) =>
      if x == "" {
        ConcludeSound(es, id, t, t.record.(state := Failed, error := NO_ID_NOTE), now);
      } else {
        AcceptedSound(es, id, t, x, now);
      }
  }

  lemma IterationSound(es: seq<Event>, id: string, t: Task, now: Time)
    requires InStep(es, id, t.record) && !t.record.state.Terminal()
    ensures StretchSound(es, id, Iteration(es, id, t, now), now)
  {
    hide Outstanding, StretchSound, ControlState;
    QuietStretch(es, id, Iteration(es, id, t, now), now);
  }

  lemma EndIterationSound(es: seq<Event>, id: string, t: Task, now: Time)
    requires InStep(es, id, t.record)
    ensures StretchSound(es, id, EndIteration(t), now)
  {
    hide Outstanding, StretchSound;
    QuietStretch(es, id, EndIteration(t), now);
  }

  lemma PollSound(es: seq<Event>, id: string, t: Task, reply: Option<map<string, Json>>, limits: Limits, now: Time)
    requires InStep(es, id, t.record)
    ensures StretchSound(es, id, PollAnswered(t, reply, limits, now), now)
  {
    hide Outstanding, StretchSound, Updated, ReportDue;
    if reply.Some? {
      UpdatedFields(t.record, reply.value, now);
    }
    QuietStretch(es, id, PollAnswered(t, reply, limits, now), now);
  }

  lemma CancelledSound(es: seq<Event>, id: string, t: Task, why: Why, now: Time)
    requires InStep(es, id, t.record)
    ensures StretchSound(es, id, Cancelled(t, why), now)
  {
    hide Outstanding, StretchSound;
    QuietStretch(es, id, Cancelled(t, why), now);
  }

  lemma StartingSound(es: seq<Event>, id: string, t: Task, a: Answer, limits: Limits, now: Time)
    requires !HasTerminal(es, id) && (Outstanding(es, id) != "" ==> Submitted(es, id))
    requires TaskSound(es, id, t) && Starting(t.phase) && !a.raised
    ensures StretchSound(es, id, Advance(es, id, t, a, limits, now), now)
  {
    hide StretchSound, Outstanding, Begin, BeginSubmission, SubmissionAnswered, Close, ControlState;
    match t.phase
    case Created => BeginSound(es, id, t, now, a.admitted);
    case ScopedWork => QuietStretch(es, id, ScopedDone(es, id, t, a.scopedState), now);
    case ScopedReport => CloseSound(es, id, t, t.record, now);
    case Submitting => SubmissionSound(es, id, t, a.submission, now);
    case RetryNap => BeginSubmissionSound(es, id, t, now, a.admitted);
  }

  lemma MonitoringSound(es: seq<Event>, id: string, t: Task, a: Answer, limits: Limits, now: Time)
    requires !HasTerminal(es, id)
    requires TaskSound(es, id, t) && !Starting(t.phase) && !t.phase.Finished? && !a.raised
    ensures StretchSound(es, id, Advance(es, id, t, a, limits, now), now)
  {
    hide StretchSound, Outstanding, Iteration, PollAnswered, EndIteration, Cancelled, Conclude;
    match t.phase
    case Announcing => IterationSound(es, id, Armed(t, now), now);
    case Polling => PollSound(es, id, t, a.reply, limits, now);
    case Cancelling(why) => CancelledSound(es, id, t, why, now);
    case Reporting => EndIterationSound(es, id, t.(lastState := t.record.state, lastStatusAt := now), now);
    case PauseReport => QuietStretch(es, id, Stretch([], t.(phase := Napping)), now);
    case Napping => IterationSound(es, id, t, now);
    case FinalReport => ConcludeSound(es, id, t, t.record, now);
  }

  /** Whatever an awaited operation answers, the stretch that follows starts an execution only when none is outstanding,
      gives up only the outstanding one, and leaves the task in step with what the log then shows. */
  lemma AdvanceSound(es: seq<Event>, id: string, t: Task, a: Answer, limits: Limits, now: Time)
    requires !HasTerminal(es, id) && (Outstanding(es, id) != "" ==> Submitted(es, id))
    requires TaskSound(es, id, t) && !t.phase.Finished?
    ensures StretchSound(es, id, Advance(es, id, t, a, limits, now), now)
  {
    hide StretchSound, TaskSound, Outstanding;
    if a.raised {
      CloseSound(es, id, t, Blank(now).(state := Failed, error := CRASH_NOTE), now);
    } else if Starting(t.phase) {
      StartingSound(es, id, t, a, limits, now);
    } else {
      MonitoringSound(es, id, t, a, limits, now);
    }
  }
}
