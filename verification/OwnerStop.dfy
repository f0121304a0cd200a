/** An owner's stop over whole runs: it is final exactly as long as no later signal withdraws it. */
module OwnerStop {
  import opened Common
  import opened EventLog
  import opened Progress
  import opened Builds
  import opened BuildTask
  import opened Scheduler
  import opened LogLaws
  import opened Readings
  import opened TaskLaws
  import opened QueueLaws
  import opened Fleet
  import opened Runs

  /** How many more answers a task of a stopped build can take. */
  function Rank(p: Phase): nat {
    match p
    case Finished(_) => 0
    case FinalReport => 1
    case ScopedReport => 1
    case ScopedWork => 2
    case Cancelling(_) => 2
    case Announcing => 3
    case Napping => 3
    case Reporting => 4
    case PauseReport => 4
    case Submitting => 4
    case Polling => 5
    case RetryNap => 5
    case Created => 5
  }

  function RankIn(q: Queue, id: string): nat {
    if id in q.tasks then Rank(q.tasks[id].phase) else 0
  }

  /** A stretch under a stop. */
  ghost predicate WindsDown(t: Task, s: Stretch) {
    && Rank(s.task.phase) < Rank(t.phase)
    && !s.task.phase.Polling? && !s.task.phase.RetryNap?
    && forall p :: p in s.out ==> !p.InfrastructureRetry?
  }

  lemma ConcludeWindsDown(es: seq<Event>, id: string, t: Task, r: Record)
    requires ControlState(es, id) == Stopping && Rank(t.phase) > 0
    ensures WindsDown(t, Conclude(es, id, t, r))
  {
  }

  lemma StartingWindsDown(es: seq<Event>, id: string, t: Task, a: Answer, limits: Limits, now: Time)
    requires ControlState(es, id) == Stopping && Starting(t.phase) && !a.raised
    ensures WindsDown(t, Advance(es, id, t, a, limits, now))
  {
    match t.phase
    case Created => BeginWindsDown(es, id, t, now, a.admitted);
    case ScopedWork =>
    case ScopedReport =>
    case Submitting => SubmissionWindsDown(es, id, t, a.submission);
    case RetryNap =>
  }

  lemma BeginWindsDown(es: seq<Event>, id: string, t: Task, now: Time, admitted: bool)
    requires ControlState(es, id) == Stopping && t.phase.Created?
    ensures WindsDown(t, Begin(es, id, t, now, admitted))
  {
    var loaded := LoadBuild(es, id, now);
    if loaded.Some? {
      ConcludeWindsDown(es, id, t, loaded.value);
    }
  }

  lemma SubmissionWindsDown(es: seq<Event>, id: string, t: Task, s: Submission)
    requires ControlState(es, id) == Stopping && t.phase.Submitting?
    ensures WindsDown(t, SubmissionAnswered(es, id, t, s))
  {
    match s
    case Refused(why) => ConcludeWindsDown(es, id, t, t.record.(state := Failed, error := why));
    case Accepted(x) =>
      if x == "" {
        ConcludeWindsDown(es, id, t, t.record.(state := Failed, error := NO_ID_NOTE));
      }
  }

  lemma PollWindsDown(t: Task, reply: Option<map<string, Json>>, limits: Limits, now: Time)
    requires t.phase.Polling?
    ensures WindsDown(t, PollAnswered(t, reply, limits, now))
  {
    hide Polled, IsStalled, ReportDue;
  }

  lemma MonitoringWindsDown(es: seq<Event>, id: string, t: Task, a: Answer, limits: Limits, now: Time)
    requires ControlState(es, id) == Stopping && !Starting(t.phase) && !t.phase.Finished? && !a.raised
    ensures WindsDown(t, Advance(es, id, t, a, limits, now))
  {
    match t.phase
    case Announcing =>
    case Polling => PollWindsDown(t, a.reply, limits, now);
    case Cancelling(_) =>
    case Reporting =>
    case PauseReport =>
    case Napping =>
    case FinalReport => ConcludeWindsDown(es, id, t, t.record);
  }

  /** Under a stop every answer brings the task nearer its end: it never polls again, never retries, and takes at most
      five more answers. */
  lemma StopWindsDown(es: seq<Event>, id: string, t: Task, a: Answer, limits: Limits, now: Time)
    requires ControlState(es, id) == Stopping && !t.phase.Finished?
    ensures WindsDown(t, Advance(es, id, t, a, limits, now))
  {
    if !a.raised {
      if Starting(t.phase) {
        StartingWindsDown(es, id, t, a, limits, now);
      } else {
        MonitoringWindsDown(es, id, t, a, limits, now);
      }
    }
  }

  // -- one step --------------------------------------------------------------------------------

  /** The build is stopped: the signal read last is a stop. */
  predicate IsStopped(q: Queue, id: string) {
    ControlState(ByTime(q.log), id) == Stopping
  }

  /** The step does not withdraw a stop of `id`. */
  predicate KeepsStop(s: Step, id: string) {
    s.Signal? && s.id == id ==> !s.signal.ControlPause? && !s.signal.ControlResume?
  }

  function Retries(es: seq<Event>, id: string): nat {
    if es == [] then 0 else Retries(es[..|es| - 1], id) + if RetryOf(es[|es| - 1], id) then 1 else 0
  }

  lemma {:induction false} NoMoreRetries(es: seq<Event>, ext: seq<Event>, id: string)
    requires forall e :: e in ext ==> !RetryOf(e, id)
    ensures Retries(es + ext, id) == Retries(es, id)
  {
    if ext == [] {
      assert es + ext == es;
    } else {
      var init := ext[..|ext| - 1];
      assert ext[|ext| - 1] in ext;
      NoMoreRetries(es, init, id);
      assert (es + ext)[..|es + ext| - 1] == es + init;
    }
  }

  /** What a step leaves of a stopped build. */
  ghost predicate StillStopped(q: Queue, q2: Queue, id: string, answered: bool) {
    && IsStopped(q2, id)
    && Retries(q2.log, id) == Retries(q.log, id)
    && (id in q2.tasks ==> id in q.tasks)
    && (id in q2.tasks && q2.tasks[id].phase.Polling? ==> q.tasks[id].phase.Polling?)
    && RankIn(q2, id) <= RankIn(q, id)
    && (answered ==> RankIn(q2, id) == 0 || RankIn(q2, id) < RankIn(q, id))
  }

  /** Events that are no signals of the build leave its stop in force, wherever their stamps put them. */
  lemma StopBeside(q: Queue, q2: Queue, id: string)
    requires IsStopped(q, id) && q.log <= q2.log
    requires forall e :: e in q2.log[|q.log|..] ==> !Covers(SignalsOf(id), e) && !RetryOf(e, id)
    ensures IsStopped(q2, id) && Retries(q2.log, id) == Retries(q.log, id)
  {
    hide Covers;
    var ext := q2.log[|q.log|..];
    assert q2.log == q.log + ext;
    ControlBeside(q.log, ext, id);
    NoMoreRetries(q.log, ext, id);
  }

  /** So does another stop. */
  lemma PostStillStopped(q: Queue, id: string, x: string, p: Payload, now: Time)
    requires IsStopped(q, id) && !p.InfrastructureRetry?
    requires x == id ==> !p.ControlPause? && !p.ControlResume?
    ensures StillStopped(q, Post(q, x, p, now), id, false)
  {
    hide ControlState, ByTime;
    if x == id && p.ControlStop? {
      SignalEffect(q.log, id, p, now);
      NoMoreRetries(q.log, [Event(now, x, p)], id);
    } else {
      StopBeside(q, Post(q, x, p, now), id);
    }
  }

  lemma StretchStillStopped(q: Queue, x: string, s: Stretch, now: Time, id: string)
    requires InFlight(q, x) && IsStopped(q, id) && Shaped(q.tasks[x], s)
    requires x == id ==> WindsDown(q.tasks[x], s)
    ensures StillStopped(q, WithStretch(q, x, s, now), id, x == id)
  {
    hide IsStopped;
    StretchAppends(q, x, s, now);
    StopBeside(q, WithStretch(q, x, s, now), id);
  }

  lemma ResumeStillStopped(q: Queue, x: string, a: Answer, limits: Limits, now: Time, id: string)
    requires Sound(q) && InFlight(q, x) && IsStopped(q, id)
    ensures StillStopped(q, Resumption(q, x, a, limits, now), id, x == id)
  {
    hide Advance, Shaped, WindsDown, StillStopped, Sound;
    ResumeShaped(q, x, a, limits, now);
    if x == id {
      StopWindsDown(ByTime(q.log), id, q.tasks[id], a, limits, now);
    }
    StretchStillStopped(q, x, Advance(ByTime(q.log), x, q.tasks[x], a, limits, now), now, id);
  }

  /** A pass never starts a stopped build; it ends it if no task holds it. */
  lemma PassAndStopped(q: Queue, now: Time, id: string)
    requires Sound(q) && IsStopped(q, id) && !InFlight(q, id)
    ensures id !in RunOnce(q, now).tasks
    ensures id != "" && Enqueued(q.log, id) ==> HasTerminal(RunOnce(q, now).log, id)
  {
    hide RunOnce, Pending, Reaped;
    var q2 := RunOnce(q, now);
    PassEnds(q, now);
    PassSettings(q, now);
    PassFillsSlots(q, now);
    PendingIff(q2);
    ReapedAreRunning(q.tasks);
    EndsReadings(q.log, q2.log, id);
    if id != "" && Enqueued(q.log, id) && !HasTerminal(q.log, id) {
      assert EndedByPass(q, id);
    }
  }

  lemma PassStillStopped(q: Queue, now: Time, id: string)
    requires Sound(q) && IsStopped(q, id)
    ensures StillStopped(q, RunOnce(q, now), id, false)
  {
    hide RunOnce, Pending, Reaped, IsStopped;
    var q2 := RunOnce(q, now);
    PassEnds(q, now);
    EndsAppend(q.log, q2.log);
    StopBeside(q, q2, id);
    if InFlight(q, id) {
      PassFillsSlots(q, now);
      ReapedAreRunning(q.tasks);
    } else {
      PassAndStopped(q, now, id);
    }
  }

  lemma StepStillStopped(q: Queue, s: Step, limits: Limits, now: Time, id: string)
    requires Sound(q) && IsStopped(q, id) && KeepsStop(s, id)
    ensures StillStopped(q, Stepped(q, s, limits, now), id, s.Resume? && s.id == id)
  {
    hide RunOnce, Resumption, SnapshotOf, IsStopped;
    match s
    case Submit(x, request) => PostStillStopped(q, id, x, BuildEnqueued(request), now);
    case Pass => PassStillStopped(q, now, id);
    case Resume(x, answer) =>
      if InFlight(q, x) {
        ResumeStillStopped(q, x, answer, limits, now, id);
      }
    case Cancel(x) => StopBeside(q, Stepped(q, s, limits, now), id);
    case Signal(x, p) =>
      if IsControl(p) {
        PostStillStopped(q, id, x, p, now);
      }
    case Note(x, p) =>
      if Foreign(p) {
        PostStillStopped(q, id, x, p, now);
      }
    case Restart(_, _) => StopBeside(q, Stepped(q, s, limits, now), id);
  }

  // -- whole runs ----------------------------------------------------------------------------------

  function Resumes(moves: seq<Move>, id: string): nat {
    if moves == [] then 0
    else
      var m := moves[|moves| - 1];
      Resumes(moves[..|moves| - 1], id) + if m.step.Resume? && m.step.id == id then 1 else 0
  }

  /** What a stop means after `answers` more answers. */
  ghost predicate StopHolds(q: Queue, q2: Queue, id: string, answers: nat) {
    && IsStopped(q2, id)
    && Retries(q2.log, id) == Retries(q.log, id)
    && (id in q2.tasks ==> id in q.tasks)
    && (id in q2.tasks && q2.tasks[id].phase.Polling? ==> q.tasks[id].phase.Polling?)
    && (RankIn(q2, id) == 0 || RankIn(q2, id) + answers <= RankIn(q, id))
  }

  lemma DoStillStopped(g: Fleet, m: Move, id: string)
    requires FleetInv(g) && IsStopped(g.queue, id) && KeepsStop(m.step, id)
    ensures StillStopped(g.queue, Do(g, m).queue, id, m.step.Resume? && m.step.id == id)
  {
    hide Stepped, IsStopped, StillStopped;
    StepStillStopped(g.queue, m.step, g.limits, m.at, id);
  }

  /** An owner's stop that is in force is final while nobody pauses or resumes the build: over every such run, under any
      clock, it stays stopped, is never retried, no pass starts it, no poll is begun, and each answer its task gets brings
      it nearer the end. */
  lemma {:induction false} OwnerStopIsFinal(f: Fleet, moves: seq<Move>, id: string)
    requires FleetInv(f) && IsStopped(f.queue, id)
    requires forall m :: m in moves ==> KeepsStop(m.step, id)
    ensures StopHolds(f.queue, Run(f, moves).queue, id, Resumes(moves, id))
  {
    hide Do, IsStopped;
    if moves != [] {
      var init, m := moves[..|moves| - 1], moves[|moves| - 1];
      assert m in moves;
      OwnerStopIsFinal(f, init, id);
      EveryRunIsSound(f, init);
      DoStillStopped(Run(f, init), m, id);
    }
  }

  lemma WoundDown(q: Queue, q2: Queue, id: string, answers: nat)
    requires StopHolds(q, q2, id, answers) && answers >= RankIn(q, id)
    ensures !InFlight(q2, id) && RankIn(q, id) <= 5
  {
  }

  /** And it does end the build: after at most five answers to its task and one pass it has its terminal event. */
  lemma StopEndsTheBuild(f: Fleet, moves: seq<Move>, at: Time, id: string)
    requires FleetInv(f) && IsStopped(f.queue, id) && id != "" && Enqueued(f.queue.log, id)
    requires forall m :: m in moves ==> KeepsStop(m.step, id)
    requires Resumes(moves, id) >= RankIn(f.queue, id)
    ensures RankIn(f.queue, id) <= 5
    ensures HasTerminal(Run(f, moves + [Move(Pass, at)]).queue.log, id)
  {
    hide RunOnce, Run, Sound, IsStopped;
    var g := Run(f, moves);
    OwnerStopIsFinal(f, moves, id);
    WoundDown(f.queue, g.queue, id, Resumes(moves, id));
    EveryRunIsSound(f, moves);
    RunGrows(f, moves);
    StillTrue(f.queue.log, g.queue.log, id);
    RunPass(f, moves, at);
    PassAndStopped(g.queue, at, id);
  }

  /** What brings a stop into force, exactly: written at `at` it is in force iff no signal of the build carries a later
      stamp or the build was stopped already, and then it is final. */
  lemma StopInForce(f: Fleet, at: Time, moves: seq<Move>, id: string)
    requires FleetInv(f)
    requires forall m :: m in moves ==> KeepsStop(m.step, id)
    ensures var g := Do(f, Move(Signal(id, ControlStop), at));
            && (IsStopped(g.queue, id) <==> NoneLater(f.queue.log, SignalsOf(id), at) || IsStopped(f.queue, id))
            && (IsStopped(g.queue, id) ==> StopHolds(g.queue, Run(g, moves).queue, id, Resumes(moves, id)))
  {
    hide Run, Covers, NoneLater, ControlState, ByTime;
    var g := Do(f, Move(Signal(id, ControlStop), at));
    DoKeeps(f, Move(Signal(id, ControlStop), at));
    SignalEffect(f.queue.log, id, ControlStop, at);
    if IsStopped(g.queue, id) {
      OwnerStopIsFinal(g, moves, id);
    }
  }

  // -- what withdraws a stop --------------------------------------------------------------------------

  /** A pause or a resume stamped no earlier than the other signals of the build withdraws a stop: the next pass
      dispatches the build like any other if fewer than `maxConcurrent` builds are ahead of it. */
  lemma LaterSignalWithdrawsStop(q: Queue, now: Time, id: string, signal: Payload)
    requires Sound(q) && Orderly(q) && IsPending(q.log, q.unreadable, id)
    requires signal.ControlPause? || signal.ControlResume?
    requires NoneLater(q.log, SignalsOf(id), now)
    requires |Ahead(Pending(q), id)| < q.maxConcurrent
    ensures var q1 := Post(q, id, signal, now); !IsStopped(q1, id) && id in RunOnce(q1, now).tasks
  {
    hide RunOnce, Pending, NoneLater;
    var q1 := Post(q, id, signal, now);
    EventKeeps(q, Event(now, id, signal));
    SignalEffect(q.log, id, signal, now);
    NothingQueued(q, q1, Pass);
    MovedOrderly(q, q1, Pass);
    PendingIff(q);
    FactsSnoc(q.log, Event(now, id, signal), id);
    MovedAhead(Pending(q), Pending(q1), q1.log, Pass, id);
    SparedIsDispatched(q1, now, id, Ahead(Pending(q), id));
  }

  /** A pending build that is not stopped is dispatched by the next pass if few enough builds are ahead of it. */
  lemma SparedIsDispatched(q: Queue, now: Time, id: string, ahead: set<string>)
    requires Sound(q) && Orderly(q) && IsPending(q.log, q.unreadable, id) && !IsStopped(q, id)
    requires Ahead(Pending(q), id) <= ahead && |ahead| < q.maxConcurrent
    ensures id in RunOnce(q, now).tasks
  {
    hide RunOnce, Pending, ControlState;
    var q2 := RunOnce(q, now);
    PassEnds(q, now);
    PassSettings(q, now);
    PendingIff(q);
    PassMoves(q, now, Pass);
    MovedAhead(Pending(q), Pending(q2), q2.log, Pass, id);
    SubsetSize(Ahead(Pending(q2), id), ahead);
    TrackedIffOldest(q, now, id);
  }
}
