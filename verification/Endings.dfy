/** How builds end over whole runs: what an answer reports is what the log and the dashboard show in the end. */
module Endings {
  import opened Common
  import opened EventLog
  import opened Progress
  import opened Builds
  import opened BuildTask
  import opened Scheduler
  import opened LogLaws
  import opened Readings
  import opened TaskLaws
  import opened QueueLaws
  import opened Fleet
  import opened Runs
  import opened Recovery
  import opened OwnerStop
  import opened Outcomes

  // -- what a terminal event shows ----------------------------------------------------------------

  /** The dashboard shows the build as ended, with what the record holds. */
  ghost predicate ShownAs(q: Queue, id: string, r: Record) {
    var shown := SnapshotOf(ByTime(q.log), q.tasks, id);
    shown.Final? && Tells(shown.detail, r)
  }

  lemma {:induction false} NoEndings(es: seq<Event>, id: string)
    requires !HasTerminal(es, id)
    ensures Select(es, EndingsOf(id)) == []
  {
    if es != [] {
      NoEndings(es[..|es| - 1], id);
    }
  }

  /** The only terminal event of a build is the one the dashboard shows, wherever its stamp puts it. */
  lemma OnlyEndingShows(log: seq<Event>, e: Event, id: string)
    requires !HasTerminal(log, id) && e.buildId == id && e.payload.BuildTerminal?
    ensures TerminalDetail(ByTime(log + [e]), id) == Some(e.payload.detail)
  {
    hide ByTime;
    var topic := EndingsOf(id);
    NoEndings(log, id);
    SelectByTime(log + [e], topic);
    SelectSnoc(log, e, topic);
    assert [] + [e] == [e];
    ReadOne(e);
    DetailFromEndings(ByTime(log + [e]), id);
    assert [e][..0] == [];
  }

  lemma UnendedBeforeTheEnd(log: seq<Event>, id: string, t: Task, s: Stretch, now: Time)
    requires Proper(log) && Enqueued(log, id) && !HasTerminal(log, id) && Shaped(t, s)
    requires (t.phase.Submitting? ==> Submitted(log, id)) && s.out != []
    ensures !HasTerminal(Append(log, id, s.out[..|s.out| - 1], now), id)
  {
    forall p | p in s.out[..|s.out| - 1] ensures MayPost(t, p) && !p.BuildTerminal? {
      assert p in s.out;
    }
    AppendProper(log, id, t, s.out[..|s.out| - 1], now);
  }

  /** A stretch that ends a build makes the dashboard show the task's record. */
  lemma EndingShows(q: Queue, id: string, s: Stretch, now: Time)
    requires Sound(q) && InFlight(q, id) && Shaped(q.tasks[id], s) && s.task.phase == Finished(false)
    ensures ShownAs(WithStretch(q, id, s, now), id, s.task.record)
  {
    assert Tracks(q.log, q.unreadable, id, q.tasks[id]);
    hide Tracks, Sound, MayPost, Tells;
    var init, p := s.out[..|s.out| - 1], s.out[|s.out| - 1];
    UnendedBeforeTheEnd(q.log, id, q.tasks[id], s, now);
    OnlyEndingShows(Append(q.log, id, init, now), Event(now, id, p), id);
  }

  /** An ended build's dashboard entry does not change in one more step. */
  lemma StillShown(f: Fleet, m: Move, id: string, r: Record)
    requires FleetInv(f) && HasTerminal(f.queue.log, id) && ShownAs(f.queue, id, r)
    ensures ShownAs(Do(f, m).queue, id, r) && HasTerminal(Do(f, m).queue.log, id)
  {
    hide SnapshotOf, Sound, Stepped;
    FinalSnapshotStays(f, [m], id);
    assert [m][..0] == [];
    DoGrows(f, m);
    StillTrue(f.queue.log, Do(f, m).queue.log, id);
  }

  lemma DoGrows(f: Fleet, m: Move)
    requires FleetInv(f)
    ensures f.queue.log <= Do(f, m).queue.log
  {
    hide Stepped;
    StepGrows(f.queue, m.step, f.limits, m.at);
  }

  // -- a task nobody disturbs -----------------------------------------------------------------------

  /** The step neither crashes the process, nor cancels the build's task, nor answers it with an exception. */
  predicate Spares(s: Step, id: string) {
    && !s.Restart? && !(s.Cancel? && s.id == id)
    && (s.Resume? && s.id == id ==> !s.answer.raised)
  }

  predicate Answers(s: Step, id: string) {
    s.Resume? && s.id == id
  }

  /** A step that spares the task of a build and does not answer it leaves it as it is. */
  lemma OthersLeaveAlone(q: Queue, s: Step, limits: Limits, now: Time, id: string)
    requires Sound(q) && InFlight(q, id) && Spares(s, id) && !Answers(s, id)
    ensures var q2 := Stepped(q, s, limits, now); InFlight(q2, id) && q2.tasks[id] == q.tasks[id]
  {
    hide RunOnce, Advance, SnapshotOf;
    if s.Pass? {
      hide Sound, Pending, Reaped, Tracks;
      PassFillsSlots(q, now);
      ReapedAreRunning(q.tasks);
    }
  }

  /** The task is on its way out with record `r`. */
  ghost predicate Leaving(t: Task, r: Record) {
    && t.record == r
    && (t.phase.ScopedReport?
        || (r.state.Terminal() && !(r.state == Stopped && NamesControlPlane(r.error))
            && (t.phase.Reporting? || t.phase.FinalReport?)))
  }

  /** How many answers a task on its way out still takes. */
  function ToGo(p: Phase): nat {
    if p.Reporting? then 2 else 1
  }

  lemma LeavingAnswered(es: seq<Event>, id: string, t: Task, a: Answer, limits: Limits, now: Time, r: Record)
    requires !HasTerminal(es, id) && Leaving(t, r) && !a.raised
    ensures var s := Advance(es, id, t, a, limits, now);
            EndsAs(s, r) || (t.phase.Reporting? && s.task.phase.FinalReport? && Leaving(s.task, r))
  {
    hide Tells, NamesControlPlane, ControlState, Advance;
    match t.phase
    case ScopedReport => ScopedOutcome(es, id, t, a, limits, now);
    case Reporting => ReportOutcome(es, id, t, a, limits, now);
    case FinalReport => FinalOutcome(es, id, t, a, limits, now);
  }

  /** On its way out after some answers, or shown as ended. */
  ghost predicate OnItsWay(q: Queue, id: string, r: Record, answers: nat, before: nat) {
    || (HasTerminal(q.log, id) && ShownAs(q, id, r))
    || (InFlight(q, id) && Leaving(q.tasks[id], r) && ToGo(q.tasks[id].phase) + answers <= before)
  }

  lemma OwnAnswerLeaves(q: Queue, id: string, a: Answer, limits: Limits, now: Time, r: Record, answers: nat, before: nat)
    requires Sound(q) && InFlight(q, id) && Leaving(q.tasks[id], r) && !a.raised
    requires ToGo(q.tasks[id].phase) + answers <= before
    ensures OnItsWay(Resumption(q, id, a, limits, now), id, r, answers + 1, before)
  {
    hide Advance, Leaving, Shaped, Tells, ShownAs, Sound;
    var s := Advance(ByTime(q.log), id, q.tasks[id], a, limits, now);
    RunningIsUnended(q, id);
    LeavingAnswered(ByTime(q.log), id, q.tasks[id], a, limits, now, r);
    ResumeShaped(q, id, a, limits, now);
    if EndsAs(s, r) {
      EndingShows(q, id, s, now);
      ShownIsEnded(WithStretch(q, id, s, now), id, r);
    }
  }

  lemma RunningIsUnended(q: Queue, id: string)
    requires Sound(q) && InFlight(q, id)
    ensures !HasTerminal(q.log, id) && !HasTerminal(ByTime(q.log), id)
  {
    assert Tracks(q.log, q.unreadable, id, q.tasks[id]);
    OrderFree(q.log, id);
  }

  lemma ShownIsEnded(q: Queue, id: string, r: Record)
    requires ShownAs(q, id, r)
    ensures HasTerminal(q.log, id)
  {
    DefinitionsAgree(ByTime(q.log), id);
    OrderFree(q.log, id);
  }

  lemma StepOnItsWay(f: Fleet, m: Move, id: string, r: Record, answers: nat, before: nat)
    requires FleetInv(f) && Spares(m.step, id) && OnItsWay(f.queue, id, r, answers, before)
    ensures OnItsWay(Do(f, m).queue, id, r, answers + if Answers(m.step, id) then 1 else 0, before)
  {
    hide Leaving, Tells, ShownAs, Sound, Stepped;
    if HasTerminal(f.queue.log, id) && ShownAs(f.queue, id, r) {
      StillShown(f, m, id, r);
    } else if Answers(m.step, id) {
      OwnAnswerLeaves(f.queue, id, m.step.answer, f.limits, m.at, r, answers, before);
      ResumeSteps(f.queue, id, m.step.answer, f.limits, m.at);
    } else {
      OthersLeaveAlone(f.queue, m.step, f.limits, m.at, id);
    }
  }

  lemma ResumeSteps(q: Queue, id: string, a: Answer, limits: Limits, now: Time)
    requires InFlight(q, id)
    ensures Stepped(q, Resume(id, a), limits, now) == Resumption(q, id, a, limits, now)
  {
    hide RunOnce, Resumption, Enqueue;
  }

  lemma {:induction false} StaysOnItsWay(f: Fleet, moves: seq<Move>, id: string, r: Record, before: nat)
    requires FleetInv(f) && OnItsWay(f.queue, id, r, 0, before)
    requires forall m :: m in moves ==> Spares(m.step, id)
    ensures OnItsWay(Run(f, moves).queue, id, r, Resumes(moves, id), before)
  {
    hide Do, OnItsWay, Spares, Sound;
    if moves != [] {
      var init, m := moves[..|moves| - 1], moves[|moves| - 1];
      assert m in moves;
      StaysOnItsWay(f, init, id, r, before);
      EveryRunIsSound(f, init);
      StepOnItsWay(Run(f, init), m, id, r, Resumes(init, id), before);
    }
  }

  /** A build on its way out ends as its record says, whatever happens to other builds meanwhile: after at most two more
      answers the log holds its terminal event and the dashboard shows the state, execution, detail, pull request and
      error of that record. */
  lemma LeavesAsRecorded(f: Fleet, moves: seq<Move>, id: string, r: Record)
    requires FleetInv(f) && InFlight(f.queue, id) && Leaving(f.queue.tasks[id], r)
    requires forall m :: m in moves ==> Spares(m.step, id)
    requires Resumes(moves, id) >= ToGo(f.queue.tasks[id].phase)
    ensures HasTerminal(Run(f, moves).queue.log, id) && ShownAs(Run(f, moves).queue, id, r)
  {
    hide Leaving, ShownAs, Sound, Run;
    StaysOnItsWay(f, moves, id, r, ToGo(f.queue.tasks[id].phase));
  }

  // -- which executions are monitored -----------------------------------------------------------------

  predicate InLoop(p: Phase) {
    p.Polling? || p.Cancelling? || p.Reporting? || p.PauseReport? || p.Napping? || p.FinalReport?
  }

  /** A monitored task has an execution; the loop holds no terminal state, and what is left of it holds only one. */
  predicate Fits(t: Task) {
    && (Monitored(t.phase) ==> t.record.executionId != "")
    && (t.phase.Announcing? || t.phase.Polling? || t.phase.Cancelling? || t.phase.PauseReport? || t.phase.Napping?
        ==> !t.record.state.Terminal())
    && (t.phase.FinalReport? ==> t.record.state.Terminal())
  }

  lemma StaysFit(es: seq<Event>, id: string, t: Task, a: Answer, limits: Limits, now: Time)
    requires !HasTerminal(es, id) && !t.phase.Finished? && Fits(t)
    ensures Fits(Advance(es, id, t, a, limits, now).task)
  {
    hide Advance, NamesControlPlane, Tells, Updated, ControlState;
    if a.raised {
      CrashOutcome(es, id, t, a, limits, now);
    } else if Starting(t.phase) {
      StartStaysFit(es, id, t, a, limits, now);
    } else {
      match t.phase
      case Announcing => TopOutcome(es, id, t, a, limits, now);
      case Polling => PollOutcome(es, id, t, a, limits, now);
      case Cancelling(_) => CutOffOutcome(es, id, t, a, limits, now);
      case Reporting => ReportOutcome(es, id, t, a, limits, now);
      case PauseReport => ReportOutcome(es, id, t, a, limits, now);
      case Napping => TopOutcome(es, id, t, a, limits, now);
      case FinalReport => FinalOutcome(es, id, t, a, limits, now);
    }
  }

  lemma StartStaysFit(es: seq<Event>, id: string, t: Task, a: Answer, limits: Limits, now: Time)
    requires !HasTerminal(es, id) && Starting(t.phase) && !a.raised
    ensures Fits(Advance(es, id, t, a, limits, now).task)
    ensures !InLoop(Advance(es, id, t, a, limits, now).task.phase)
  {
    hide NamesControlPlane, ControlState, Tells, Begin, BeginSubmission, SubmissionAnswered, Conclude;
    match t.phase
    case Created => BeginStaysFit(es, id, t, now, a.admitted);
    case ScopedWork =>
    case ScopedReport =>
    case Submitting => SubmissionOutcome(es, id, t, a, limits, now);
    case RetryNap => SubmissionBegins(es, id, t, now, a.admitted);
  }

  lemma SubmissionBegins(es: seq<Event>, id: string, t: Task, now: Time, admitted: bool)
    ensures var p := BeginSubmission(es, id, t, now, admitted).task.phase; p.Submitting? || p.Finished?
  {
  }

  lemma BeginStaysFit(es: seq<Event>, id: string, t: Task, now: Time, admitted: bool)
    requires !HasTerminal(es, id)
    ensures Fits(Begin(es, id, t, now, admitted).task) && !InLoop(Begin(es, id, t, now, admitted).task.phase)
  {
    hide BeginSubmission, Conclude, ControlState, Replay, NamesControlPlane, Tells;
    SubmissionBegins(es, id, t, now, admitted);
    var loaded := LoadBuild(es, id, now);
    if loaded.Some? {
      ConcludeOutcome(es, id, t, loaded.value);
    }
  }

  ghost predicate AllFit(q: Queue) {
    forall id :: id in q.tasks ==> Fits(q.tasks[id])
  }

  lemma ResumeStaysFit(q: Queue, id: string, a: Answer, limits: Limits, now: Time)
    requires Sound(q) && AllFit(q) && InFlight(q, id)
    ensures AllFit(Resumption(q, id, a, limits, now))
  {
    hide Advance, Fits, Sound;
    RunningIsUnended(q, id);
    StaysFit(ByTime(q.log), id, q.tasks[id], a, limits, now);
  }

  lemma PassStaysFit(q: Queue, now: Time)
    requires Sound(q) && AllFit(q)
    ensures AllFit(RunOnce(q, now))
  {
    hide RunOnce, Reaped, Pending;
    PassFillsSlots(q, now);
    ReapedAreRunning(q.tasks);
  }

  lemma StepStaysFit(q: Queue, s: Step, limits: Limits, now: Time)
    requires Sound(q) && AllFit(q)
    ensures AllFit(Stepped(q, s, limits, now))
  {
    hide RunOnce, Resumption, SnapshotOf, Sound;
    match s
    case Pass => PassStaysFit(q, now);
    case Resume(id, a) =>
      if InFlight(q, id) {
        ResumeStaysFit(q, id, a, limits, now);
      }
    case _ =>
  }

  /** Every run, under any clock, monitors only builds that have an execution and have not ended. */
  lemma {:induction false} EveryRunStaysFit(f: Fleet, moves: seq<Move>)
    requires FleetInv(f) && AllFit(f.queue)
    ensures AllFit(Run(f, moves).queue)
  {
    hide Stepped, AllFit, Sound;
    if moves != [] {
      var init, m := moves[..|moves| - 1], moves[|moves| - 1];
      EveryRunStaysFit(f, init);
      EveryRunIsSound(f, init);
      StepStaysFit(Run(f, init).queue, m.step, Run(f, init).limits, m.at);
    }
  }

  // -- the end an answer reports is the end that is shown ------------------------------------------------

  lemma ResumeAnswers(f: Fleet, id: string, a: Answer, at: Time)
    requires FleetInv(f) && InFlight(f.queue, id)
    ensures var g := Do(f, Move(Resume(id, a), at));
            && FleetInv(g) && id in g.queue.tasks
            && g.queue.tasks[id] == Advance(ByTime(f.queue.log), id, f.queue.tasks[id], a, f.limits, at).task
            && !HasTerminal(ByTime(f.queue.log), id)
  {
    hide Advance, Sound, RunOnce, Enqueue;
    RunningIsUnended(f.queue, id);
    DoKeeps(f, Move(Resume(id, a), at));
  }

  /** A poll answered with an end takes the build out of the loop in the state that was reported, and nothing but a
      crash, a cancellation or an exception keeps that from being what the log and the dashboard show after two more
      answers. The one exception is a cancellation in the control plane's name, which may be resubmitted. */
  lemma ReportedEndIsShown(f: Fleet, id: string, a: Answer, at: Time, moves: seq<Move>, body: map<string, Json>,
                           s: BuildState)
    requires FleetInv(f) && AllFit(f.queue) && InFlight(f.queue, id) && f.queue.tasks[id].phase.Polling?
    requires !a.raised && a.reply == Some(body) && PutsIn(body, s) && s in {Complete, Failed, Stopped}
    requires forall m :: m in moves ==> Spares(m.step, id)
    ensures var g := Do(f, Move(Resume(id, a), at));
            var t, r := g.queue.tasks[id], f.queue.tasks[id].record;
            && (t.phase.Reporting? || t.phase.FinalReport?) && t.record.state == s
            && t.record.executionId == r.executionId
            && (Resumes(moves, id) >= 2 && !(s == Stopped && NamesControlPlane(t.record.error)) ==>
                  HasTerminal(Run(g, moves).queue.log, id) && ShownAs(Run(g, moves).queue, id, t.record))
  {
    assert Fits(f.queue.tasks[id]);
    hide Advance, Updated, PutsIn, NamesControlPlane, ShownAs, Sound, Run, Do, AllFit;
    var g := Do(f, Move(Resume(id, a), at));
    ResumeAnswers(f, id, a, at);
    PollOutcome(ByTime(f.queue.log), id, f.queue.tasks[id], a, f.limits, at);
    var t := g.queue.tasks[id];
    if Resumes(moves, id) >= 2 && !(s == Stopped && NamesControlPlane(t.record.error)) {
      LeavesAsRecorded(g, moves, id, t.record);
    }
  }

  /** A poll answered otherwise, or not at all, keeps the build in the loop unless the watchdog ends it. */
  lemma OtherAnswersStay(f: Fleet, id: string, a: Answer, at: Time)
    requires FleetInv(f) && AllFit(f.queue) && InFlight(f.queue, id) && f.queue.tasks[id].phase.Polling? && !a.raised
    requires a.reply.Some? ==> forall s :: PutsIn(a.reply.value, s) ==> s !in {Complete, Failed, Stopped}
    ensures var t := Do(f, Move(Resume(id, a), at)).queue.tasks[id];
            && !t.record.state.Terminal() && t.record.executionId == f.queue.tasks[id].record.executionId
            && (t.phase == Cancelling(Stall) <==>
                  f.limits.noProgressS > 0.0 && at >= t.record.lastProgressAt + f.limits.noProgressS)
            && (t.phase != Cancelling(Stall) ==> t.phase.Reporting? || t.phase.Napping?)
  {
    assert Fits(f.queue.tasks[id]);
    hide Advance, Updated, PutsIn, Sound, AllFit, Do;
    ResumeAnswers(f, id, a, at);
    PollOutcome(ByTime(f.queue.log), id, f.queue.tasks[id], a, f.limits, at);
  }

  /** A build that is cut off ends stopped on its owner's word and failed otherwise. */
  lemma CutOffIsShown(f: Fleet, id: string, a: Answer, at: Time, moves: seq<Move>)
    requires FleetInv(f) && InFlight(f.queue, id) && f.queue.tasks[id].phase.Cancelling? && !a.raised
    requires forall m :: m in moves ==> Spares(m.step, id)
    ensures var g, t0 := Do(f, Move(Resume(id, a), at)), f.queue.tasks[id];
            var r := g.queue.tasks[id].record;
            && r.state == (if t0.phase.why.OwnerStop? then Stopped else Failed) && r.executionId == t0.record.executionId
            && (Resumes(moves, id) >= 1 && !(r.state == Stopped && NamesControlPlane(r.error)) ==>
                  HasTerminal(Run(g, moves).queue.log, id) && ShownAs(Run(g, moves).queue, id, r))
  {
    hide Advance, NamesControlPlane, ShownAs, Sound, Run, Do;
    var g := Do(f, Move(Resume(id, a), at));
    ResumeAnswers(f, id, a, at);
    CutOffOutcome(ByTime(f.queue.log), id, f.queue.tasks[id], a, f.limits, at);
    var r := g.queue.tasks[id].record;
    if Resumes(moves, id) >= 1 && !(r.state == Stopped && NamesControlPlane(r.error)) {
      LeavesAsRecorded(g, moves, id, r);
    }
  }

  /** A scoped build ends in the state its outcome maps to, or as stopped if its owner's stop was in force when the
      outcome came. */
  lemma ScopedOutcomeIsShown(f: Fleet, id: string, a: Answer, at: Time, moves: seq<Move>)
    requires FleetInv(f) && InFlight(f.queue, id) && f.queue.tasks[id].phase.ScopedWork? && !a.raised
    requires forall m :: m in moves ==> Spares(m.step, id)
    ensures var g := Do(f, Move(Resume(id, a), at));
            var r := g.queue.tasks[id].record;
            && r.state == (if IsStopped(f.queue, id) then Stopped else a.scopedState)
            && (Resumes(moves, id) >= 1 ==>
                  HasTerminal(Run(g, moves).queue.log, id) && ShownAs(Run(g, moves).queue, id, r))
  {
    hide Advance, ShownAs, Sound, Run, Do, ControlState, NamesControlPlane;
    var g := Do(f, Move(Resume(id, a), at));
    ResumeAnswers(f, id, a, at);
    ScopedOutcome(ByTime(f.queue.log), id, f.queue.tasks[id], a, f.limits, at);
    if Resumes(moves, id) >= 1 {
      LeavesAsRecorded(g, moves, id, g.queue.tasks[id].record);
    }
  }

  /** What monitoring leaves is resubmitted iff it was stopped under an error that names the control plane and no owner's
      stop is in force; anything else ends at once, as the record says. */
  lemma ResubmittedIff(f: Fleet, id: string, a: Answer, at: Time)
    requires FleetInv(f) && InFlight(f.queue, id) && f.queue.tasks[id].phase.FinalReport? && !a.raised
    ensures var g, r := Do(f, Move(Resume(id, a), at)), f.queue.tasks[id].record;
            && (g.queue.tasks[id].phase.RetryNap? <==>
                  r.state == Stopped && NamesControlPlane(r.error) && !IsStopped(f.queue, id))
            && (g.queue.tasks[id].phase.RetryNap? ==> g.queue.tasks[id].record.executionId == "")
            && (!g.queue.tasks[id].phase.RetryNap? ==> HasTerminal(g.queue.log, id) && ShownAs(g.queue, id, r))
  {
    hide Advance, ShownAs, Sound, NamesControlPlane, ControlState, Tells, RunOnce, Enqueue, Shaped;
    var q, es := f.queue, ByTime(f.queue.log);
    var s := Advance(es, id, q.tasks[id], a, f.limits, at);
    RunningIsUnended(q, id);
    FinalOutcome(es, id, q.tasks[id], a, f.limits, at);
    ResumeShaped(q, id, a, f.limits, at);
    if EndsAs(s, q.tasks[id].record) {
      EndingShows(q, id, s, at);
      ShownIsEnded(WithStretch(q, id, s, at), id, q.tasks[id].record);
    }
  }

  // -- whatever ends a build ----------------------------------------------------------------------------

  /** A task that came to its end has left its record on the dashboard. */
  ghost predicate EndShown(q: Queue, id: string) {
    id in q.tasks && q.tasks[id].phase == Finished(false) ==> ShownAs(q, id, q.tasks[id].record)
  }

  lemma OwnEndShown(q: Queue, id: string, a: Answer, limits: Limits, now: Time)
    requires Sound(q) && InFlight(q, id)
    ensures EndShown(Resumption(q, id, a, limits, now), id)
  {
    hide Advance, Shaped, ShownAs, Sound;
    ResumeShaped(q, id, a, limits, now);
    var s := Advance(ByTime(q.log), id, q.tasks[id], a, limits, now);
    if s.task.phase == Finished(false) {
      EndingShows(q, id, s, now);
    }
  }

  /** After a pass no task is at its end. */
  lemma PassLeavesNoEnded(q: Queue, now: Time, id: string)
    requires Sound(q) && id in RunOnce(q, now).tasks
    ensures !RunOnce(q, now).tasks[id].phase.Finished?
  {
    hide RunOnce, Reaped, Pending;
    PassFillsSlots(q, now);
    ReapedAreRunning(q.tasks);
  }

  /** A step that does not answer the task neither brings it to its end nor changes its record there. */
  lemma EndsOnlyByAnswer(q: Queue, s: Step, limits: Limits, now: Time, id: string)
    requires Sound(q) && !(Answers(s, id) && InFlight(q, id))
    ensures var q2 := Stepped(q, s, limits, now);
            id in q2.tasks && q2.tasks[id].phase == Finished(false) ==>
              id in q.tasks && q.tasks[id].phase == Finished(false) && q2.tasks[id].record == q.tasks[id].record
  {
    hide RunOnce, Advance, SnapshotOf, Sound;
    if s.Pass? && id in RunOnce(q, now).tasks {
      PassLeavesNoEnded(q, now, id);
    }
  }

  lemma DoEndShown(f: Fleet, m: Move, id: string)
    requires FleetInv(f) && EndShown(f.queue, id)
    ensures EndShown(Do(f, m).queue, id)
  {
    hide ShownAs, Sound, Stepped;
    if Answers(m.step, id) && InFlight(f.queue, id) {
      OwnEndShown(f.queue, id, m.step.answer, f.limits, m.at);
      ResumeSteps(f.queue, id, m.step.answer, f.limits, m.at);
    } else {
      EndsOnlyByAnswer(f.queue, m.step, f.limits, m.at, id);
      if id in f.queue.tasks && f.queue.tasks[id].phase == Finished(false) {
        ShownIsEnded(f.queue, id, f.queue.tasks[id].record);
        StillShown(f, m, id, f.queue.tasks[id].record);
      }
    }
  }

  /** Over every run and whatever brought a task to its end, exceptions included, the log and the dashboard show the state,
      execution, detail, pull request and error of its record. */
  lemma {:induction false} EndedTaskIsShown(f: Fleet, moves: seq<Move>, id: string)
    requires FleetInv(f) && EndShown(f.queue, id)
    ensures EndShown(Run(f, moves).queue, id)
  {
    hide Do, EndShown, Sound;
    if moves != [] {
      EndedTaskIsShown(f, moves[..|moves| - 1], id);
      EveryRunIsSound(f, moves[..|moves| - 1]);
      DoEndShown(Run(f, moves[..|moves| - 1]), moves[|moves| - 1], id);
    }
  }

  /** While a build has not ended, the dashboard shows the record of its task from the first status post on, in the pause
      before a resubmission too, and otherwise what the log replays to. */
  lemma LiveRecordIsShown(f: Fleet, moves: seq<Move>, id: string)
    requires FleetInv(f)
    ensures var q := Run(f, moves).queue;
            var shown, replayed := SnapshotOf(ByTime(q.log), q.tasks, id), Replay(ByTime(q.log), id, 0.0);
            var watched := InFlight(q, id) && (Monitored(q.tasks[id].phase) || q.tasks[id].phase.RetryNap?);
            && (watched ==> shown.Live? && Tells(shown.detail, q.tasks[id].record))
            && (!watched && Submitted(q.log, id) && !HasTerminal(q.log, id) ==> shown.Live? && Tells(shown.detail, replayed))
  {
    hide Run, Replay, Sound;
    EveryRunIsSound(f, moves);
    var q := Run(f, moves).queue;
    DefinitionsAgree(ByTime(q.log), id);
    OrderFree(q.log, id);
    if InFlight(q, id) {
      RunningIsUnended(q, id);
    }
  }

  /** A task that is cancelled ends nothing: nothing is written, and unless its owner stopped the build, the next pass
      starts it afresh, on whatever execution the log shows. */
  lemma CancelledStartsOver(f: Fleet, id: string, at: Time, now: Time)
    requires FleetInv(f) && Orderly(f.queue) && InFlight(f.queue, id) && !IsStopped(f.queue, id)
    ensures var q1 := Do(f, Move(Cancel(id), at)).queue;
            var q2 := RunOnce(q1, now);
            q1.log == f.queue.log && id in q2.tasks && q2.tasks[id] == Dispatched(RequestFor(ByTime(q2.log), id))
  {
    hide RunOnce, Pending, IsStopped, Advance, Enqueue, Reaped;
    var q, q1 := f.queue, Do(f, Move(Cancel(id), at)).queue;
    DoKeeps(f, Move(Cancel(id), at));
    assert q1.tasks.Keys == q.tasks.Keys;
    NothingQueued(q, q1, Pass);
    MovedOrderly(q, q1, Pass);
    assert Tracks(q.log, q.unreadable, id, q.tasks[id]);
    PendingIff(q1);
    AheadAreTracked(q1, id);
    SameStop(q, q1, id);
    SparedIsDispatched(q1, now, id, Ahead(Pending(q1), id));
    PassFillsSlots(q1, now);
    ReapedAreRunning(q1.tasks);
  }

  lemma SameStop(q: Queue, q1: Queue, id: string)
    requires q1.log == q.log
    ensures IsStopped(q1, id) <==> IsStopped(q, id)
  {
  }

  lemma AheadAreTracked(q: Queue, id: string)
    requires Sound(q) && Orderly(q) && id in q.tasks && id in Pending(q)
    ensures |Ahead(Pending(q), id)| < q.maxConcurrent
  {
    hide Pending, Tracks;
    var p := Pending(q);
    PendingIff(q);
    var i :| 0 <= i < |p| && p[i] == id;
    AheadAt(p, i);
    PrefixedAt(p, q.tasks.Keys, i);
    DistinctCardinality(p[..i + 1]);
    DistinctCardinality(p[..i]);
    SubsetSize(Elements(p[..i + 1]), q.tasks.Keys);
    assert |q.tasks.Keys| == |q.tasks|;
  }

  /** A pass ends the builds it cannot read as failed and the stopped ones as stopped, and says why. */
  ghost predicate PassVerdict(unreadable: set<string>, e: Event) {
    && e.payload.BuildTerminal?
    && if e.buildId in unreadable then e.payload.detail == Detail(Failed, "", "", "", PAYLOAD_NOTE)
       else e.payload.detail == Detail(Stopped, "", STOP_NOTE, "", "")
  }

  ghost predicate PassVerdicts(unreadable: set<string>, ext: seq<Event>) {
    forall e :: e in ext ==> PassVerdict(unreadable, e)
  }

  lemma {:induction false} RejectionVerdicts(part: seq<Event>, all: seq<Event>, unreadable: set<string>, now: Time)
    ensures PassVerdicts(unreadable, Rejections(part, all, unreadable, now))
  {
    if part != [] {
      RejectionVerdicts(part[..|part| - 1], all, unreadable, now);
    }
  }

  lemma {:induction false} StopVerdicts(log: seq<Event>, ids: seq<string>, tasks: map<string, Task>, now: Time,
                                        unreadable: set<string>)
    requires forall id :: id in ids ==> id !in unreadable
    ensures var later := StopQueued(log, ids, tasks, now);
            log <= later && PassVerdicts(unreadable, later[|log|..])
  {
    hide ByTime, ControlState, HasTerminal;
    if ids == [] {
      assert log[|log|..] == [];
    } else {
      var init := ids[..|ids| - 1];
      StopVerdicts(log, init, tasks, now, unreadable);
      var before, later := StopQueued(log, init, tasks, now), StopQueued(log, ids, tasks, now);
      assert ids[|ids| - 1] in ids;
      if later != before {
        var e := later[|later| - 1];
        assert later == before + [e] && later[|log|..] == before[|log|..] + [e];
      }
    }
  }

  lemma WriteOffVerdicts(q: Queue, now: Time)
    ensures var later := WriteOff(q, now).log; q.log <= later && PassVerdicts(q.unreadable, later[|q.log|..])
  {
    var es := ByTime(q.log);
    RejectionVerdicts(es, es, q.unreadable, now);
    assert (q.log + Rejections(es, es, q.unreadable, now))[|q.log|..] == Rejections(es, es, q.unreadable, now);
  }

  lemma PassVerdictsOnly(q: Queue, now: Time)
    requires Proper(q.log)
    ensures var later := RunOnce(q, now).log; q.log <= later && PassVerdicts(q.unreadable, later[|q.log|..])
  {
    hide WriteOff, Pending, StopQueued, Reaped, StartTasks;
    var q1 := WriteOff(q.(tasks := Reaped(q.tasks)), now);
    WriteOffVerdicts(q.(tasks := Reaped(q.tasks)), now);
    PendingIff(q);
    StopVerdicts(q1.log, Pending(q), Reaped(q.tasks), now, q.unreadable);
    SecondReadIsClean(q, now);
    KeepsSettings(q, now);
    var later := EndStops(q, now).log;
    assert EndStops(q, now).log == StopQueued(q1.log, Pending(q), Reaped(q.tasks), now);
    assert later[|q.log|..] == q1.log[|q.log|..] + later[|q1.log|..];
  }

  /** What the dashboard shows of a build that a pass ends: failed if its queue item could not be read, and stopped if its
      owner stopped it while it waited. */
  lemma PassEndIsShown(q: Queue, now: Time, id: string)
    requires Sound(q) && !HasTerminal(q.log, id) && HasTerminal(RunOnce(q, now).log, id)
    ensures var q2 := RunOnce(q, now);
            var shown := SnapshotOf(ByTime(q2.log), q2.tasks, id);
            && shown.Final? && shown.detail.executionId == "" && shown.detail.prUrl == ""
            && if id in q.unreadable then shown.detail.state == Failed && shown.detail.error == PAYLOAD_NOTE
               else shown.detail.state == Stopped && shown.detail.phaseDetail == STOP_NOTE && IsStopped(q, id)
  {
    hide RunOnce, PassVerdict, Pending;
    var q2 := RunOnce(q, now);
    PassEnds(q, now);
    PassVerdictsOnly(q, now);
    OrderFree(q2.log, id);
    var e := TerminalEventOf(ByTime(q2.log), id);
    ReadKeepsEvents(q2.log);
    assert e in multiset(ByTime(q2.log));
    assert e in multiset(q2.log);
    OldOrNew(q.log, q2.log, e, id);
    assert PassVerdict(q.unreadable, e);
    VerdictMeans(q.unreadable, e);
  }

  lemma VerdictMeans(unreadable: set<string>, e: Event)
    requires PassVerdict(unreadable, e)
    ensures e.payload.BuildTerminal? && e.payload.detail.executionId == "" && e.payload.detail.prUrl == ""
    ensures if e.buildId in unreadable then e.payload.detail.state == Failed && e.payload.detail.error == PAYLOAD_NOTE
            else e.payload.detail.state == Stopped && e.payload.detail.phaseDetail == STOP_NOTE
  {
  }

  lemma OldOrNew(log: seq<Event>, later: seq<Event>, e: Event, id: string)
    requires log <= later && e in later && !HasTerminal(log, id) && e.buildId == id && e.payload.BuildTerminal?
    ensures e in later[|log|..]
  {
    var k :| 0 <= k < |later| && later[k] == e;
    if k < |log| {
      PresentAt(log, id, k);
    } else {
      assert later[|log|..][k - |log|] == e;
    }
  }

  lemma {:induction false} TerminalEventOf(es: seq<Event>, id: string) returns (e: Event)
    requires HasTerminal(es, id)
    ensures e in es && e.buildId == id && e.payload.BuildTerminal? && TerminalDetail(es, id) == Some(e.payload.detail)
  {
    var last := es[|es| - 1];
    if last.buildId == id && last.payload.BuildTerminal? {
      e := last;
    } else {
      e := TerminalEventOf(es[..|es| - 1], id);
    }
  }

  // -- when a build is cut off by its deadline ------------------------------------------------------------

  /** The deadline of a task in the loop was set by the stretch that entered it. */
  lemma DeadlineKept(es: seq<Event>, id: string, t: Task, a: Answer, limits: Limits, now: Time)
    requires !HasTerminal(es, id) && !t.phase.Finished?
    ensures var t2 := Advance(es, id, t, a, limits, now).task;
            InLoop(t2.phase) ==>
              if t.phase.Announcing? then t2.deadline == DeadlineFrom(t.request, now)
              else InLoop(t.phase) && t2.deadline == t.deadline
  {
    hide Advance, NamesControlPlane, Tells, Updated, ControlState;
    if a.raised {
      CrashOutcome(es, id, t, a, limits, now);
    } else if Starting(t.phase) {
      StartStaysFit(es, id, t, a, limits, now);
    } else {
      LoopKeepsDeadline(es, id, t, a, limits, now);
    }
  }

  lemma LoopKeepsDeadline(es: seq<Event>, id: string, t: Task, a: Answer, limits: Limits, now: Time)
    requires !HasTerminal(es, id) && !t.phase.Finished? && !Starting(t.phase) && !a.raised
    ensures var t2 := Advance(es, id, t, a, limits, now).task;
            InLoop(t2.phase) ==> t2.deadline == if t.phase.Announcing? then DeadlineFrom(t.request, now) else t.deadline
  {
    hide Polled, IsStalled, ReportDue, ControlState, Conclude;
    match t.phase
    case FinalReport => ConcludeOutcome(es, id, t, t.record);
    case _ =>
  }

  /** The task of a build is answered on the status post before monitoring: it enters the loop. */
  ghost predicate Enters(q: Queue, s: Step, id: string) {
    Answers(s, id) && InFlight(q, id) && q.tasks[id].phase.Announcing?
  }

  /** When the build entered the loop for the last time. */
  ghost function EnteredAt(f: Fleet, moves: seq<Move>, id: string): Option<Time> {
    if moves == [] then None
    else
      var init, m := moves[..|moves| - 1], moves[|moves| - 1];
      if Enters(Run(f, init).queue, m.step, id) then Some(m.at) else EnteredAt(f, init, id)
  }

  ghost predicate DeadlineInv(q: Queue, id: string, entered: Option<Time>) {
    id in q.tasks && InLoop(q.tasks[id].phase) ==>
      entered.Some? && q.tasks[id].deadline == DeadlineFrom(q.tasks[id].request, entered.value)
  }

  lemma StepKeepsDeadline(f: Fleet, m: Move, id: string, entered: Option<Time>)
    requires FleetInv(f) && DeadlineInv(f.queue, id, entered)
    ensures DeadlineInv(Do(f, m).queue, id, if Enters(f.queue, m.step, id) then Some(m.at) else entered)
  {
    hide Sound, Advance, RunOnce, SnapshotOf, DeadlineFrom;
    if Answers(m.step, id) && InFlight(f.queue, id) {
      ResumeAnswers(f, id, m.step.answer, m.at);
      DeadlineKept(ByTime(f.queue.log), id, f.queue.tasks[id], m.step.answer, f.limits, m.at);
      SameRequest(ByTime(f.queue.log), id, f.queue.tasks[id], m.step.answer, f.limits, m.at);
    } else if m.step.Pass? && id in RunOnce(f.queue, m.at).tasks {
      PassRunsOnOrStarts(f.queue, m.at, id);
    }
  }

  lemma PassRunsOnOrStarts(q: Queue, now: Time, id: string)
    requires Sound(q) && id in RunOnce(q, now).tasks
    ensures var t := RunOnce(q, now).tasks[id];
            (id in q.tasks && t == q.tasks[id]) || t == Dispatched(RequestFor(ByTime(RunOnce(q, now).log), id))
  {
    hide RunOnce, Reaped, Pending, RequestFor;
    PassFillsSlots(q, now);
    ReapedAreRunning(q.tasks);
  }

  lemma {:induction false} EveryRunKeepsDeadlines(f: Fleet, moves: seq<Move>, id: string)
    requires FleetInv(f) && id !in f.queue.tasks
    ensures DeadlineInv(Run(f, moves).queue, id, EnteredAt(f, moves, id))
  {
    hide Do, DeadlineInv, Sound, Enters;
    if moves == [] {
      NotInLoop(f.queue, id);
    } else {
      var init, m := moves[..|moves| - 1], moves[|moves| - 1];
      EveryRunKeepsDeadlines(f, init, id);
      EveryRunIsSound(f, init);
      StepKeepsDeadline(Run(f, init), m, id, EnteredAt(f, init, id));
    }
  }

  lemma NotInLoop(q: Queue, id: string)
    requires id !in q.tasks
    ensures DeadlineInv(q, id, None)
  {
  }

  /** When a build is cut off by its deadline: over every run, at the top of an iteration, exactly when it is neither
      stopped nor paused, its request sets a limit, and more hours than that have passed on the clock since it last
      entered the loop. */
  lemma CutOffByDeadlineIff(f: Fleet, moves: seq<Move>, id: string, a: Answer, at: Time)
    requires FleetInv(f) && id !in f.queue.tasks && !a.raised
    requires InFlight(Run(f, moves).queue, id) && Run(f, moves).queue.tasks[id].phase.Napping?
    ensures var q := Run(f, moves).queue;
            var entered, hours := EnteredAt(f, moves, id), q.tasks[id].request.maxHours;
            var t2 := Do(Run(f, moves), Move(Resume(id, a), at)).queue.tasks[id];
            && entered.Some?
            && (t2.phase == Cancelling(Deadline) <==>
                  && ControlState(ByTime(q.log), id) == Running
                  && hours > 0.0 && at - entered.value > hours * 3600.0)
  {
    hide Run, Sound, Advance, Do, ControlState;
    EveryRunIsSound(f, moves);
    EveryRunKeepsDeadlines(f, moves, id);
    var g := Run(f, moves);
    ResumeAnswers(g, id, a, at);
    TopOutcome(ByTime(g.queue.log), id, g.queue.tasks[id], a, g.limits, at);
  }

  // -- what was queued is what runs -------------------------------------------------------------------------

  /** What the dashboard says was asked for. */
  function Asked(s: Snapshot): Option<Request> {
    match s
    case Unknown => None
    case Waiting(item) => Some(item)
    case Live(_, request) => request
    case Final(_, request) => request
  }

  /** The build was queued with this request, and its task works on nothing else. */
  ghost predicate WorksOn(q: Queue, id: string, request: Request) {
    && RequestOf(ByTime(q.log), id) == Some(request)
    && (id in q.tasks ==> q.tasks[id].request == request)
  }

  lemma {:induction false} NoItems(es: seq<Event>, id: string)
    requires !Enqueued(es, id)
    ensures Select(es, ItemsOf(id)) == []
  {
    if es != [] {
      NoItems(es[..|es| - 1], id);
    }
  }

  lemma OnlyItemCounts(log: seq<Event>, id: string, request: Request, now: Time)
    requires !Enqueued(log, id)
    ensures RequestOf(ByTime(log + [Event(now, id, BuildEnqueued(request))]), id) == Some(request)
  {
    hide ByTime;
    var e, topic := Event(now, id, BuildEnqueued(request)), ItemsOf(id);
    NoItems(log, id);
    SelectByTime(log + [e], topic);
    SelectSnoc(log, e, topic);
    assert [] + [e] == [e];
    ReadOne(e);
    RequestFromItems(ByTime(log + [e]), id);
    assert [e][..0] == [];
  }

  lemma RequestStands(log: seq<Event>, later: seq<Event>, id: string)
    requires log <= later && Proper(later) && Enqueued(log, id)
    ensures RequestOf(ByTime(later), id) == RequestOf(ByTime(log), id)
  {
    hide Covers;
    var ext := later[|log|..];
    assert later == log + ext;
    forall e | e in ext ensures !Covers(ItemsOf(id), e) {
      var k :| 0 <= k < |ext| && ext[k] == e;
      NotQueuedAgain(log, later, |log| + k, id);
    }
    ReadBeside(log, ext, ItemsOf(id));
    RequestFromItems(ByTime(log), id);
    RequestFromItems(ByTime(later), id);
  }

  lemma NotQueuedAgain(log: seq<Event>, later: seq<Event>, k: nat, id: string)
    requires k < |later| && log <= later[..k] && Proper(later) && Enqueued(log, id)
    ensures !Covers(ItemsOf(id), later[k])
  {
    ProperAt(later, k);
    StillTrue(log, later[..k], id);
  }

  lemma StepWorksOn(f: Fleet, m: Move, id: string, request: Request)
    requires FleetInv(f) && WorksOn(f.queue, id, request)
    ensures WorksOn(Do(f, m).queue, id, request)
  {
    hide Sound, Advance, RunOnce, SnapshotOf, Stepped;
    var q, q2 := f.queue, Do(f, m).queue;
    DefinitionsAgree(ByTime(q.log), id);
    OrderFree(q.log, id);
    DoGrows(f, m);
    DoKeeps(f, m);
    SoundIsProper(q2);
    RequestStands(q.log, q2.log, id);
    SameTaskRequest(q, m.step, f.limits, m.at, id, request);
  }

  lemma SoundIsProper(q: Queue)
    requires Sound(q)
    ensures Proper(q.log)
  {
  }

  lemma SameTaskRequest(q: Queue, s: Step, limits: Limits, now: Time, id: string, request: Request)
    requires Sound(q) && WorksOn(q, id, request) && RequestOf(ByTime(Stepped(q, s, limits, now).log), id) == Some(request)
    ensures var q2 := Stepped(q, s, limits, now); id in q2.tasks ==> q2.tasks[id].request == request
  {
    hide Sound, Advance, RunOnce, SnapshotOf, RequestOf, ByTime;
    if Answers(s, id) && InFlight(q, id) {
      SameRequest(ByTime(q.log), id, q.tasks[id], s.answer, limits, now);
    } else if s.Pass? && id in RunOnce(q, now).tasks {
      PassRunsOnOrStarts(q, now, id);
    }
  }

  lemma {:induction false} EveryRunWorksOn(f: Fleet, moves: seq<Move>, id: string, request: Request)
    requires FleetInv(f) && WorksOn(f.queue, id, request)
    ensures WorksOn(Run(f, moves).queue, id, request)
  {
    hide Do, WorksOn, Sound;
    if moves != [] {
      EveryRunWorksOn(f, moves[..|moves| - 1], id, request);
      EveryRunIsSound(f, moves[..|moves| - 1]);
      StepWorksOn(Run(f, moves[..|moves| - 1]), moves[|moves| - 1], id, request);
    }
  }

  /** What was queued is what runs: whatever happens after a build was queued, crashes included, every task of it works on
      exactly the request it was queued with, and that is the one the dashboard shows. */
  lemma RunsWhatWasQueued(f: Fleet, id: string, request: Request, at: Time, moves: seq<Move>)
    requires FleetInv(f) && id != "" && SnapshotOf(ByTime(f.queue.log), f.queue.tasks, id) == Unknown
    ensures var q := Run(Do(f, Move(Submit(id, request), at)), moves).queue;
            && (id in q.tasks ==> q.tasks[id].request == request)
            && Asked(SnapshotOf(ByTime(q.log), q.tasks, id)) == Some(request)
  {
    var g := Do(f, Move(Submit(id, request), at));
    UnknownIff(f.queue, id);
    QueuedAs(f, id, request, at);
    hide Run, Do, RunOnce, Advance, Sound;
    DoKeeps(f, Move(Submit(id, request), at));
    EveryRunWorksOn(g, moves, id, request);
    ShownAsAsked(Run(g, moves).queue, id, request);
  }

  lemma QueuedAs(f: Fleet, id: string, request: Request, at: Time)
    requires FleetInv(f) && id != "" && SnapshotOf(ByTime(f.queue.log), f.queue.tasks, id) == Unknown
    requires !Enqueued(f.queue.log, id)
    ensures WorksOn(Do(f, Move(Submit(id, request), at)).queue, id, request)
  {
    hide RunOnce, Advance, SnapshotOf, RequestOf, ByTime;
    OnlyItemCounts(f.queue.log, id, request, at);
    TrackedWasQueued(f.queue, id);
  }

  lemma TrackedWasQueued(q: Queue, id: string)
    requires Sound(q)
    ensures id in q.tasks ==> Enqueued(q.log, id)
  {
  }

  lemma ShownAsAsked(q: Queue, id: string, request: Request)
    requires WorksOn(q, id, request)
    ensures Asked(SnapshotOf(ByTime(q.log), q.tasks, id)) == Some(request)
  {
    hide RequestOf, ByTime, Replay;
  }
}
