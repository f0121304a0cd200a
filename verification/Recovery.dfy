/** A crash loses no execution, as long as the clock did not step back between the build's own starts and retries; and
    exactly what happens when it did. */
module Recovery {
  import opened Common
  import opened EventLog
  import opened Progress
  import opened Builds
  import opened BuildTask
  import opened Scheduler
  import opened LogLaws
  import opened Readings
  import opened TaskLaws
  import opened QueueLaws
  import opened Fleet
  import opened Runs

  // -- one build in step with the log ------------------------------------------------------------

  /** What a run keeps for one build while its starts and retries carry stamps in order. */
  ghost predicate BuildInv(q: Queue, id: string) {
    && InOrder(q.log, ExecutionOf(id)) && Lawful(q.log, id)
    && (id in q.tasks ==> TaskSound(q.log, id, q.tasks[id]))
  }

  /** Events that say nothing about the executions of `id`. */
  ghost predicate Aside(e: Event, id: string) {
    !Covers(ExecutionOf(id), e) && (e.buildId == id && e.payload.BuildTerminal? ==> e.payload.detail.executionId == "")
  }

  lemma {:induction false} AsideKeeps(es: seq<Event>, ext: seq<Event>, id: string)
    requires forall e :: e in ext ==> Aside(e, id)
    ensures Outstanding(es + ext, id) == Outstanding(es, id)
    ensures Lawful(es, id) ==> Lawful(es + ext, id)
  {
    if ext == [] {
      assert es + ext == es;
    } else {
      var init, e := ext[..|ext| - 1], ext[|ext| - 1];
      assert e in ext;
      AsideKeeps(es, init, id);
      assert es + ext == (es + init) + [e];
      ReadingsSnoc(es + init, e, id);
      LawfulSnoc(es + init, e, id);
    }
  }

  lemma SameExecution(es: seq<Event>, es2: seq<Event>, id: string, t: Task)
    requires Outstanding(es2, id) == Outstanding(es, id)
    ensures TaskSound(es2, id, t) <==> TaskSound(es, id, t)
  {
  }

  /** A step in which other things happen. */
  lemma AsideStep(q: Queue, q2: Queue, id: string)
    requires BuildInv(q, id) && q.log <= q2.log && InOrder(q2.log, ExecutionOf(id))
    requires forall e :: e in q2.log[|q.log|..] ==> Aside(e, id)
    requires id in q2.tasks ==>
               (id in q.tasks && q2.tasks[id] == q.tasks[id]) || q2.tasks[id].phase.Created? || q2.tasks[id].phase.Finished?
    ensures BuildInv(q2, id)
  {
    hide InOrder, Aside;
    assert q2.log == q.log + q2.log[|q.log|..];
    AsideKeeps(q.log, q2.log[|q.log|..], id);
    if id in q2.tasks && id in q.tasks {
      SameExecution(q.log, q2.log, id, q.tasks[id]);
    }
  }

  lemma {:induction false} ObeysElsewhere(es: seq<Event>, log: seq<Event>, id: string, out: seq<Payload>, now: Time)
    requires Outstanding(es, id) == Outstanding(log, id) && Obeys(es, id, out, now)
    ensures Outstanding(Append(es, id, out, now), id) == Outstanding(Append(log, id, out, now), id)
    ensures Lawful(log, id) ==> Lawful(Append(log, id, out, now), id)
  {
    if out != [] {
      var init, e := out[..|out| - 1], Event(now, id, out[|out| - 1]);
      ObeysElsewhere(es, log, id, init, now);
      ReadingsSnoc(Append(es, id, init, now), e, id);
      ReadingsSnoc(Append(log, id, init, now), e, id);
      LawfulSnoc(Append(log, id, init, now), e, id);
    }
  }

  lemma OwnStep(q: Queue, id: string, a: Answer, limits: Limits, now: Time)
    requires Sound(q) && BuildInv(q, id) && InFlight(q, id)
    requires InOrder(Resumption(q, id, a, limits, now).log, ExecutionOf(id))
    ensures BuildInv(Resumption(q, id, a, limits, now), id)
  {
    hide Advance, InOrder, TaskSound, Obeys;
    var es, t := ByTime(q.log), q.tasks[id];
    var s := Advance(es, id, t, a, limits, now);
    ReadOutstanding(q.log, id);
    OrderFree(q.log, id);
    SameExecution(q.log, es, id, t);
    OutstandingNeedsSubmission(q.log, id);
    AdvanceSound(es, id, t, a, limits, now);
    ObeysElsewhere(es, q.log, id, s.out, now);
    SameExecution(Append(es, id, s.out, now), Append(q.log, id, s.out, now), id, s.task);
  }

  lemma OutstandingNeedsSubmission(log: seq<Event>, id: string)
    requires Proper(log)
    ensures Outstanding(log, id) != "" ==> Submitted(log, id)
    ensures Outstanding(ByTime(log), id) != "" ==> Submitted(ByTime(log), id)
  {
    OrderFree(log, id);
    if Outstanding(log, id) != "" {
      OutstandingWasStarted(log, id);
      StartedWasSubmitted(log, id);
    }
    if Outstanding(ByTime(log), id) != "" {
      OutstandingWasStarted(ByTime(log), id);
      StartedWasSubmitted(log, id);
    }
  }

  lemma ResumeInStep(q: Queue, x: string, a: Answer, limits: Limits, now: Time, id: string)
    requires Sound(q) && BuildInv(q, id) && InFlight(q, x)
    requires InOrder(Resumption(q, x, a, limits, now).log, ExecutionOf(id))
    ensures BuildInv(Resumption(q, x, a, limits, now), id)
  {
    hide Advance, InOrder, BuildInv, Sound;
    if x == id {
      OwnStep(q, id, a, limits, now);
    } else {
      var s := Advance(ByTime(q.log), x, q.tasks[x], a, limits, now);
      StretchAppends(q, x, s, now);
      AsideStep(q, WithStretch(q, x, s, now), id);
    }
  }

  lemma PassInStep(q: Queue, now: Time, id: string)
    requires Sound(q) && BuildInv(q, id) && InOrder(RunOnce(q, now).log, ExecutionOf(id))
    ensures BuildInv(RunOnce(q, now), id)
  {
    hide RunOnce, InOrder, BuildInv, Reaped, Pending;
    var q2 := RunOnce(q, now);
    PassEnds(q, now);
    PassFillsSlots(q, now);
    ReapedAreRunning(q.tasks);
    EndsAppend(q.log, q2.log);
    AsideStep(q, q2, id);
  }

  lemma StepInStep(q: Queue, s: Step, limits: Limits, now: Time, id: string)
    requires Sound(q) && BuildInv(q, id) && InOrder(Stepped(q, s, limits, now).log, ExecutionOf(id))
    ensures BuildInv(Stepped(q, s, limits, now), id)
  {
    hide RunOnce, Resumption, SnapshotOf, InOrder, BuildInv, Sound;
    match s
    case Pass => PassInStep(q, now, id);
    case Resume(x, answer) =>
      if InFlight(q, x) {
        ResumeInStep(q, x, answer, limits, now, id);
      }
    case _ => AsideStep(q, Stepped(q, s, limits, now), id);
  }

  /** Over every run in which the starts and retries of a build carry stamps in order, whatever other stamps are, the
      build's task stays in step with the log and at most one execution is outstanding at a time. */
  lemma {:induction false} EveryRunStaysInStep(f: Fleet, moves: seq<Move>, id: string)
    requires FleetInv(f) && BuildInv(f.queue, id) && InOrder(Run(f, moves).queue.log, ExecutionOf(id))
    ensures BuildInv(Run(f, moves).queue, id)
  {
    hide Stepped, InOrder, BuildInv, Sound;
    if moves != [] {
      RunSplits(f, moves);
      EveryRunStaysInStep(f, moves[..|moves| - 1], id);
      StepInStep(Run(f, moves[..|moves| - 1]).queue, moves[|moves| - 1].step, f.limits, moves[|moves| - 1].at, id);
    }
  }

  // -- what the log replays to ----------------------------------------------------------------------

  predicate Monitored(p: Phase) {
    p.Announcing? || p.Polling? || p.Cancelling? || p.Reporting? || p.PauseReport? || p.Napping? || p.FinalReport?
  }

  /** Recovery refinement: at every await of a monitored build, rebuilding the record from the log gives the live
      execution. */
  lemma LogMatchesLiveRecord(f: Fleet, moves: seq<Move>, id: string, now: real)
    requires FleetInv(f) && BuildInv(f.queue, id) && InOrder(Run(f, moves).queue.log, ExecutionOf(id))
    ensures var q := Run(f, moves).queue;
            id in q.tasks && Monitored(q.tasks[id].phase) ==>
              var replayed := LoadBuild(ByTime(q.log), id, now);
              replayed.Some? && replayed.value.executionId == q.tasks[id].record.executionId == Outstanding(q.log, id)
  {
    hide Run, Replay, InOrder;
    var q := Run(f, moves).queue;
    EveryRunIsSound(f, moves);
    EveryRunStaysInStep(f, moves, id);
    if id in q.tasks && Monitored(q.tasks[id].phase) {
      assert Tracks(q.log, q.unreadable, id, q.tasks[id]);
      OrderFree(q.log, id);
      ReadOutstanding(q.log, id);
      OutstandingNeedsSubmission(q.log, id);
      ReplayOfUnended(ByTime(q.log), id, now);
    }
  }

  /** While a status is being posted it is the log's last word on the build. */
  ghost predicate PostedInv(q: Queue, id: string) {
    id in q.tasks && Posting(q.tasks[id].phase) ==>
      var r := q.tasks[id].record;
      LastWord(ByTime(q.log), id) == Some(BuildStatus(r.state, r.phaseDetail, r.prUrl))
  }

  lemma PostedBeside(q: Queue, q2: Queue, id: string)
    requires PostedInv(q, id) && q.log <= q2.log
    requires InFlight(q, id) ==> forall e :: e in q2.log[|q.log|..] ==> !Covers(StatesOf(id), e)
    requires id in q2.tasks ==>
               (id in q.tasks && q2.tasks[id] == q.tasks[id]) || q2.tasks[id].phase.Created? || q2.tasks[id].phase.Finished?
    ensures PostedInv(q2, id)
  {
    hide Covers;
    if InFlight(q, id) {
      assert q2.log == q.log + q2.log[|q.log|..];
      WordBeside(q.log, q2.log[|q.log|..], id);
    }
  }

  lemma ResumePosted(q: Queue, x: string, a: Answer, limits: Limits, now: Time, id: string)
    requires Sound(q) && PostedInv(q, id) && InFlight(q, x)
    requires InOrder(Resumption(q, x, a, limits, now).log, StatesOf(id))
    ensures PostedInv(Resumption(q, x, a, limits, now), id)
  {
    hide Advance, InOrder, Sound, ByTime;
    var s := Advance(ByTime(q.log), x, q.tasks[x], a, limits, now);
    if x == id {
      ResumeShaped(q, x, a, limits, now);
      ReadWord(WithStretch(q, x, s, now).log, id);
    } else {
      StretchAppends(q, x, s, now);
      PostedBeside(q, WithStretch(q, x, s, now), id);
    }
  }

  lemma PassPosted(q: Queue, now: Time, id: string)
    requires Sound(q) && PostedInv(q, id)
    ensures PostedInv(RunOnce(q, now), id)
  {
    hide RunOnce, PostedInv, Reaped, Pending;
    var q2 := RunOnce(q, now);
    PassEnds(q, now);
    PassFillsSlots(q, now);
    ReapedAreRunning(q.tasks);
    EndsAppend(q.log, q2.log);
    if InFlight(q, id) {
      PassSparesRunning(q, now, id);
      NotItsEnding(q.log, q2.log, id);
    }
    PostedBeside(q, q2, id);
  }

  lemma NotItsEnding(log: seq<Event>, later: seq<Event>, id: string)
    requires Ends(log, later) && !HasTerminal(later, id)
    ensures forall e :: e in later[|log|..] ==> !Covers(StatesOf(id), e)
  {
    EndsAppend(log, later);
    forall e | e in later[|log|..] ensures !Covers(StatesOf(id), e) {
      var k :| 0 <= k < |later[|log|..]| && later[|log|..][k] == e;
      PresentAt(later, id, |log| + k);
    }
  }

  lemma StepPosted(q: Queue, s: Step, limits: Limits, now: Time, id: string)
    requires Sound(q) && PostedInv(q, id) && InOrder(Stepped(q, s, limits, now).log, StatesOf(id))
    ensures PostedInv(Stepped(q, s, limits, now), id)
  {
    hide RunOnce, Resumption, SnapshotOf, InOrder, PostedInv, Sound;
    match s
    case Pass => PassPosted(q, now, id);
    case Resume(x, answer) =>
      if InFlight(q, x) {
        ResumePosted(q, x, answer, limits, now, id);
      }
    case _ => PostedBeside(q, Stepped(q, s, limits, now), id);
  }

  lemma {:induction false} EveryRunStaysPosted(f: Fleet, moves: seq<Move>, id: string)
    requires FleetInv(f) && PostedInv(f.queue, id) && InOrder(Run(f, moves).queue.log, StatesOf(id))
    ensures PostedInv(Run(f, moves).queue, id)
  {
    hide Stepped, InOrder, PostedInv, Sound;
    if moves != [] {
      RunSplits(f, moves);
      EveryRunStaysPosted(f, moves[..|moves| - 1], id);
      StepPosted(Run(f, moves[..|moves| - 1]).queue, moves[|moves| - 1].step, f.limits, moves[|moves| - 1].at, id);
    }
  }

  /** Whenever a status is being posted, the last one after monitoring included, rebuilding the record from the log gives
      the live state, and the live phase detail and pull request unless they are empty, over every run in which what sets
      the build's state carries stamps in order. */
  lemma LogMatchesLiveState(f: Fleet, moves: seq<Move>, id: string, now: real)
    requires FleetInv(f) && PostedInv(f.queue, id) && InOrder(Run(f, moves).queue.log, StatesOf(id))
    ensures var q := Run(f, moves).queue;
            id in q.tasks && Posting(q.tasks[id].phase) ==>
              var live, replayed := q.tasks[id].record, Replay(ByTime(q.log), id, now);
              && replayed.state == live.state
              && (live.phaseDetail != "" ==> replayed.phaseDetail == live.phaseDetail)
              && (live.prUrl != "" ==> replayed.prUrl == live.prUrl)
  {
    hide Run, Replay, InOrder, LastWord, DetailIn, UrlIn, ErrorIn, ByTime, Sound;
    EveryRunStaysPosted(f, moves, id);
    var q := Run(f, moves).queue;
    ReplayIsLatest(ByTime(q.log), id, now);
    if id in q.tasks && Posting(q.tasks[id].phase) {
      var r := q.tasks[id].record;
      StatusSays(ByTime(q.log), id, r.state, r.phaseDetail, r.prUrl);
    }
  }

  /** And once a build has ended, it gives what the terminal event told. */
  lemma LogMatchesTheEnd(log: seq<Event>, id: string, d: Detail, now: real)
    requires LastWord(log, id) == Some(BuildTerminal(d)) && InOrder(log, StatesOf(id))
    ensures var replayed := Replay(ByTime(log), id, now);
            && replayed.state == d.state && replayed.phaseDetail == d.phaseDetail
            && replayed.prUrl == d.prUrl && replayed.error == d.error
  {
    hide Replay, InOrder, LastWord, DetailIn, UrlIn, ErrorIn, ByTime;
    ReadWord(log, id);
    ReplayIsLatest(ByTime(log), id, now);
    EndingSays(ByTime(log), id, d);
  }

  /** Whoever is asked, the running task or the log, the dashboard shows the outstanding execution of a build. */
  lemma SnapshotShowsTheExecution(f: Fleet, moves: seq<Move>, id: string)
    requires FleetInv(f) && BuildInv(f.queue, id) && InOrder(Run(f, moves).queue.log, ExecutionOf(id))
    ensures var q := Run(f, moves).queue;
            Outstanding(q.log, id) != "" && !HasTerminal(q.log, id) ==>
              var shown := SnapshotOf(ByTime(q.log), q.tasks, id);
              shown.Live? && shown.detail.executionId == Outstanding(q.log, id)
  {
    hide Run, InOrder, Sound, BuildInv, SnapshotOf, Outstanding, HasTerminal;
    EveryRunIsSound(f, moves);
    EveryRunStaysInStep(f, moves, id);
    SnapshotInStep(Run(f, moves).queue, id);
  }

  lemma SnapshotInStep(q: Queue, id: string)
    requires Sound(q) && BuildInv(q, id)
    ensures Outstanding(q.log, id) != "" && !HasTerminal(q.log, id) ==>
              var shown := SnapshotOf(ByTime(q.log), q.tasks, id);
              shown.Live? && shown.detail.executionId == Outstanding(q.log, id)
  {
    hide Replay, InOrder, ByTime, Outstanding, HasTerminal, Submitted;
    if Outstanding(q.log, id) != "" && !HasTerminal(q.log, id) {
      OrderFree(q.log, id);
      ReadOutstanding(q.log, id);
      OutstandingNeedsSubmission(q.log, id);
      DefinitionsAgree(ByTime(q.log), id);
      ReplayOfUnended(ByTime(q.log), id, 0.0);
    }
  }

  // -- submitting -----------------------------------------------------------------------------------

  /** When a stretch submits: never behind an execution the log shows as outstanding, and never because of the control
      signal. */
  lemma SubmitsIff(es: seq<Event>, id: string, t: Task, a: Answer, limits: Limits, now: Time)
    requires !HasTerminal(es, id) && (Outstanding(es, id) != "" ==> Submitted(es, id)) && !t.phase.Finished?
    ensures BuildSubmitted in Advance(es, id, t, a, limits, now).out <==>
            && !a.raised && a.admitted
            && (t.phase.RetryNap? || (t.phase.Created? && t.request.pipeline != Scoped && Outstanding(es, id) == ""))
  {
    hide Begin, Iteration, PollAnswered, Conclude, SubmissionAnswered;
    if !a.raised {
      if t.phase.Created? {
        ReplayOfUnended(es, id, now);
        BeginSubmits(es, id, t, now, a.admitted);
      } else if Starting(t.phase) {
        StartingSubmits(es, id, t, a, limits, now);
      } else {
        MonitoringSubmitsNothing(es, id, t, a, limits, now);
      }
    }
  }

  lemma BeginSubmits(es: seq<Event>, id: string, t: Task, now: Time, admitted: bool)
    requires Replay(es, id, now).executionId == Outstanding(es, id)
    requires Outstanding(es, id) != "" ==> Submitted(es, id)
    ensures BuildSubmitted in Begin(es, id, t, now, admitted).out <==>
            admitted && t.request.pipeline != Scoped && Outstanding(es, id) == ""
  {
  }

  lemma StartingSubmits(es: seq<Event>, id: string, t: Task, a: Answer, limits: Limits, now: Time)
    requires Starting(t.phase) && !t.phase.Created? && !a.raised
    ensures BuildSubmitted in Advance(es, id, t, a, limits, now).out <==> a.admitted && t.phase.RetryNap?
  {
    match t.phase
    case ScopedWork =>
    case ScopedReport =>
    case Submitting =>
    case RetryNap =>
  }

  lemma MonitoringSubmitsNothing(es: seq<Event>, id: string, t: Task, a: Answer, limits: Limits, now: Time)
    requires !Starting(t.phase) && !t.phase.Finished? && !a.raised
    ensures BuildSubmitted !in Advance(es, id, t, a, limits, now).out
  {
    hide Polled, RetryableStop;
    match t.phase
    case Announcing =>
    case Polling =>
    case Cancelling(_) =>
    case Reporting =>
    case PauseReport =>
    case Napping =>
    case FinalReport =>
  }

  // -- a crash ---------------------------------------------------------------------------------------

  /** The stretch goes on with execution `x`: it monitors it, or concludes it if the log shows it done. */
  ghost predicate GoesOnWith(es: seq<Event>, id: string, t: Task, s: Stretch, now: Time, x: string) {
    var r := Replay(es, id, now);
    r.executionId == x && s == if r.state.Terminal() then Conclude(es, id, t, r) else Announce(t, r, [])
  }

  /** The first stretch of a full build submits iff a harness has headroom and the log shows nothing outstanding;
      otherwise it goes on with the very execution the log shows. */
  lemma RestartResumesTheExecution(es: seq<Event>, id: string, request: Request, a: Answer, limits: Limits, now: Time)
    requires !HasTerminal(es, id) && (Outstanding(es, id) != "" ==> Submitted(es, id))
    requires request.pipeline != Scoped && !a.raised
    ensures var s := Advance(es, id, Dispatched(request), a, limits, now);
            && (BuildSubmitted in s.out <==> a.admitted && Outstanding(es, id) == "")
            && forall x :: x != "" ==> (GoesOnWith(es, id, Dispatched(request), s, now, x) <==> Outstanding(es, id) == x)
  {
    hide Conclude, Announce, BeginSubmission, Replay;
    SubmitsIff(es, id, Dispatched(request), a, limits, now);
    ReplayOfUnended(es, id, now);
  }

  /** The queue after the process died, came back and made its first pass. */
  function Revived(q: Queue, max: int, unreadable: set<string>, limits: Limits, now: Time): Queue {
    RunOnce(Stepped(q, Restart(max, unreadable), limits, now), now)
  }

  lemma RestartForgetsTasks(q: Queue, max: int, unreadable: set<string>, limits: Limits, now: Time)
    requires Sound(q)
    ensures var q1 := Stepped(q, Restart(max, unreadable), limits, now);
            Sound(q1) && q1.log == q.log && q1.tasks == map[] && Reaped(q1.tasks) == map[]
  {
    hide RunOnce, Resumption, SnapshotOf;
    StepKeeps(q, Restart(max, unreadable), limits, now);
  }

  lemma EndsKeepReading(log: seq<Event>, later: seq<Event>, id: string)
    requires Ends(log, later)
    ensures Outstanding(ByTime(later), id) == Outstanding(ByTime(log), id)
  {
    EndsAppend(log, later);
    ReadBeside(log, later[|log|..], ExecutionOf(id));
    OutstandingFromExecutions(ByTime(log), id);
    OutstandingFromExecutions(ByTime(later), id);
  }

  /** After a crash every dispatched build starts afresh, on the executions the log showed at the crash. */
  lemma RevivedTasksAreFresh(q: Queue, max: int, unreadable: set<string>, limits: Limits, now: Time, id: string)
    requires Sound(q) && id in Revived(q, max, unreadable, limits, now).tasks
    ensures var q2 := Revived(q, max, unreadable, limits, now);
            && Sound(q2) && Ends(q.log, q2.log) && !HasTerminal(q2.log, id)
            && Outstanding(ByTime(q2.log), id) == Outstanding(ByTime(q.log), id)
            && q2.tasks[id] == Dispatched(RequestFor(ByTime(q2.log), id))
  {
    hide RunOnce, Stepped, Pending, Reaped;
    var q1 := Stepped(q, Restart(max, unreadable), limits, now);
    RestartForgetsTasks(q, max, unreadable, limits, now);
    PassKeeps(q1, now);
    PassEnds(q1, now);
    PassFillsSlots(q1, now);
    EndsKeepReading(q1.log, RunOnce(q1, now).log, id);
    assert Tracks(RunOnce(q1, now).log, RunOnce(q1, now).unreadable, id, RunOnce(q1, now).tasks[id]);
  }

  /** The first stretch of a freshly dispatched build. */
  function FirstStretch(q: Queue, id: string, a: Answer, limits: Limits, now: Time): Stretch {
    Advance(ByTime(q.log), id, Dispatched(RequestFor(ByTime(q.log), id)), a, limits, now)
  }

  lemma FirstStretchReads(q: Queue, max: int, unreadable: set<string>, limits: Limits, now: Time, id: string, a: Answer)
    requires Sound(q) && id in Revived(q, max, unreadable, limits, now).tasks && !a.raised
    requires Revived(q, max, unreadable, limits, now).tasks[id].request.pipeline != Scoped
    ensures var q2 := Revived(q, max, unreadable, limits, now);
            var s := FirstStretch(q2, id, a, limits, now);
            && q2.tasks[id] == Dispatched(RequestFor(ByTime(q2.log), id))
            && (BuildSubmitted in s.out <==> a.admitted && Outstanding(ByTime(q.log), id) == "")
            && forall x :: x != "" ==>
                 (GoesOnWith(ByTime(q2.log), id, q2.tasks[id], s, now, x) <==> Outstanding(ByTime(q.log), id) == x)
  {
    hide Revived, Advance, GoesOnWith;
    var q2 := Revived(q, max, unreadable, limits, now);
    RevivedTasksAreFresh(q, max, unreadable, limits, now, id);
    OrderFree(q2.log, id);
    OutstandingNeedsSubmission(q2.log, id);
    RestartResumesTheExecution(ByTime(q2.log), id, RequestFor(ByTime(q2.log), id), a, limits, now);
  }

  /** Recovery, exactly, under any clock: after a crash in any reachable state the build goes on with execution `x` iff
      the start of `x` is, among its starts and retries, the event with the latest stamp, the later written among
      equals. */
  lemma ResumesExecutionIff(q: Queue, max: int, unreadable: set<string>, limits: Limits, now: Time, id: string, a: Answer,
                            x: string)
    requires Sound(q) && id in Revived(q, max, unreadable, limits, now).tasks && !a.raised && x != ""
    requires Revived(q, max, unreadable, limits, now).tasks[id].request.pipeline != Scoped
    ensures var q2 := Revived(q, max, unreadable, limits, now);
            GoesOnWith(ByTime(q2.log), id, q2.tasks[id], FirstStretch(q2, id, a, limits, now), now, x) <==>
            exists k: nat :: ReadLast(q.log, ExecutionOf(id), k) && q.log[k].payload == BuildStarted(x)
  {
    hide Revived, Advance, GoesOnWith, ReadLast, FirstStretch;
    FirstStretchReads(q, max, unreadable, limits, now, id, a);
    OutstandingIff(q.log, id, x);
  }

  /** So after any run in which the build's starts and retries carry stamps in order, a crash resubmits it iff a harness
      has headroom and nothing was outstanding, and goes on with the execution the live record had if it was monitored. A
      crash while a submission was under way is a case of the first kind: the build is submitted a second time. */
  lemma CrashRecovery(f: Fleet, moves: seq<Move>, max: int, unreadable: set<string>, now: Time, id: string, a: Answer)
    requires FleetInv(f) && BuildInv(f.queue, id) && InOrder(Run(f, moves).queue.log, ExecutionOf(id)) && !a.raised
    requires id in Revived(Run(f, moves).queue, max, unreadable, f.limits, now).tasks
    requires Revived(Run(f, moves).queue, max, unreadable, f.limits, now).tasks[id].request.pipeline != Scoped
    ensures var q := Run(f, moves).queue;
            var q2 := Revived(q, max, unreadable, f.limits, now);
            var s := FirstStretch(q2, id, a, f.limits, now);
            && (BuildSubmitted in s.out <==> a.admitted && Outstanding(q.log, id) == "")
            && (id in q.tasks && Monitored(q.tasks[id].phase) ==>
                  && BuildSubmitted !in s.out
                  && GoesOnWith(ByTime(q2.log), id, q2.tasks[id], s, now, q.tasks[id].record.executionId))
            && (id in q.tasks && q.tasks[id].phase.Submitting? && a.admitted ==>
                  Submitted(q.log, id) && BuildSubmitted in s.out)
  {
    hide Run, Revived, Advance, GoesOnWith, FirstStretch, InOrder, ByTime, Outstanding, Submitted, HasTerminal;
    var q := Run(f, moves).queue;
    EveryRunIsSound(f, moves);
    EveryRunStaysInStep(f, moves, id);
    FirstStretchReads(q, max, unreadable, f.limits, now, id, a);
    ReadOutstanding(q.log, id);
    if id in q.tasks {
      assert TaskSound(q.log, id, q.tasks[id]) && Tracks(q.log, q.unreadable, id, q.tasks[id]);
    }
  }
}
