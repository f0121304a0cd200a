/** A build is shown as complete only if some answer said so: over every run, crashes and any clock included. */
module Completion {
  import opened Common
  import opened EventLog
  import opened Progress
  import opened Builds
  import opened BuildTask
  import opened Scheduler
  import opened LogLaws
  import opened Readings
  import opened TaskLaws
  import opened QueueLaws
  import opened Fleet
  import opened Runs
  import opened Recovery
  import opened OwnerStop
  import opened Outcomes
  import opened Endings

  predicate SaysComplete(p: Payload) {
    (p.BuildStatus? && p.state == Complete) || (p.BuildTerminal? && p.detail.state == Complete)
  }

  /** Some event claims that the build is complete. */
  predicate Claims(es: seq<Event>, id: string) {
    es != [] && ((es[|es| - 1].buildId == id && SaysComplete(es[|es| - 1].payload)) || Claims(es[..|es| - 1], id))
  }

  lemma ClaimsSnoc(es: seq<Event>, e: Event, id: string)
    ensures Claims(es + [e], id) <==> Claims(es, id) || (e.buildId == id && SaysComplete(e.payload))
  {
    assert (es + [e])[..|es|] == es;
  }

  lemma {:induction false} ClaimsInsert(es: seq<Event>, e: Event, id: string)
    ensures Claims(InsertByTime(es, e), id) <==> Claims(es, id) || (e.buildId == id && SaysComplete(e.payload))
  {
    if es != [] && es[|es| - 1].ts > e.ts {
      ClaimsInsert(es[..|es| - 1], e, id);
      ClaimsSnoc(InsertByTime(es[..|es| - 1], e), es[|es| - 1], id);
    } else {
      ClaimsSnoc(es, e, id);
    }
  }

  lemma {:induction false} ClaimsOrderFree(log: seq<Event>, id: string)
    ensures Claims(ByTime(log), id) <==> Claims(log, id)
  {
    hide InsertByTime;
    if log != [] {
      ClaimsOrderFree(log[..|log| - 1], id);
      ClaimsInsert(ByTime(log[..|log| - 1]), log[|log| - 1], id);
    }
  }

  lemma {:induction false} ClaimsBeside(es: seq<Event>, ext: seq<Event>, id: string)
    requires forall e :: e in ext ==> e.buildId != id || !SaysComplete(e.payload)
    ensures Claims(es + ext, id) <==> Claims(es, id)
  {
    if ext == [] {
      assert es + ext == es;
    } else {
      var init, e := ext[..|ext| - 1], ext[|ext| - 1];
      assert e in ext;
      ClaimsBeside(es, init, id);
      assert es + ext == (es + init) + [e];
      ClaimsSnoc(es + init, e, id);
    }
  }

  /** A log replays to completion only if it claims it. */
  lemma {:induction false} ReplayedClaim(es: seq<Event>, id: string, now: real)
    requires Replay(es, id, now).state == Complete
    ensures Claims(es, id)
  {
    var init, e := es[..|es| - 1], es[|es| - 1];
    if e.buildId != id || !SaysComplete(e.payload) {
      ReplayedClaim(init, id, now);
    }
  }

  // -- one stretch -----------------------------------------------------------------------------------

  /** The answer says that the build is complete: the transport reports success and so does the reasoner's result, or the
      scoped build came out complete. */
  ghost predicate Vouches(t: Task, a: Answer) {
    || (t.phase.Polling? && a.reply.Some? && PutsIn(a.reply.value, Complete))
    || (t.phase.ScopedWork? && a.scopedState == Complete)
  }

  /** What a stretch shows of a build. */
  ghost predicate ShowsComplete(s: Stretch) {
    s.task.record.state == Complete || exists p :: p in s.out && SaysComplete(p)
  }

  lemma ConcludeShows(es: seq<Event>, id: string, t: Task, r: Record)
    ensures ShowsComplete(Conclude(es, id, t, r)) || ShowsComplete(Close(es, id, t, r)) ==> r.state == Complete
  {
    hide RetryableStop;
  }

  lemma BeginSubmissionShows(es: seq<Event>, id: string, t: Task, now: Time, admitted: bool)
    ensures !ShowsComplete(BeginSubmission(es, id, t, now, admitted))
  {
  }

  lemma BeginShows(es: seq<Event>, id: string, t: Task, now: Time, admitted: bool)
    ensures ShowsComplete(Begin(es, id, t, now, admitted)) ==> Claims(es, id)
  {
    hide ShowsComplete, BeginSubmission, Conclude, Close, Announce, Replay;
    var r := Blank(now).(state := Executing);
    ConcludeShows(es, id, t, OwnerStopped(r));
    QuietShows(t.(record := r, phase := ScopedWork), []);
    BeginSubmissionShows(es, id, t, now, admitted);
    var loaded := LoadBuild(es, id, now);
    if loaded.Some? {
      AnnounceShows(t, loaded.value, []);
      ConcludeShows(es, id, t, loaded.value);
      if loaded.value.state == Complete {
        ReplayedClaim(es, id, now);
      }
    }
  }

  lemma QuietShows(t: Task, out: seq<Payload>)
    requires forall p :: p in out ==> SaysComplete(p) ==> t.record.state == Complete
    ensures ShowsComplete(Stretch(out, t)) ==> t.record.state == Complete
  {
  }

  lemma AnnounceShows(t: Task, r: Record, before: seq<Payload>)
    requires forall p :: p in before ==> !SaysComplete(p)
    ensures ShowsComplete(Announce(t, r, before)) ==> r.state == Complete
  {
  }

  lemma SubmissionShows(es: seq<Event>, id: string, t: Task, s: Submission)
    ensures !ShowsComplete(SubmissionAnswered(es, id, t, s))
  {
    hide ShowsComplete, Conclude, Announce;
    match s
    case Refused(why) => ConcludeShows(es, id, t, t.record.(state := Failed, error := why));
    case Accepted(x) =>
      ConcludeShows(es, id, t, t.record.(state := Failed, error := NO_ID_NOTE));
      AnnounceShows(t, t.record.(executionId := x, state := Planning), [BuildStarted(x)]);
  }

  lemma IterationShows(es: seq<Event>, id: string, t: Task, now: Time)
    ensures ShowsComplete(Iteration(es, id, t, now)) ==> t.record.state == Complete
  {
    hide ControlState;
  }

  lemma PollShows(t: Task, reply: Option<map<string, Json>>, limits: Limits, now: Time)
    ensures ShowsComplete(PollAnswered(t, reply, limits, now)) ==>
              || t.record.state == Complete
              || (reply.Some? && PutsIn(reply.value, Complete))
  {
    hide Updated, IsStalled, ReportDue, PutsIn;
    if reply.Some? && t.record.state != Complete {
      UpdateFailsClosed(t.record, reply.value, now);
    }
  }

  lemma StartingShows(es: seq<Event>, id: string, t: Task, a: Answer, limits: Limits, now: Time)
    requires Starting(t.phase) && !a.raised
    ensures ShowsComplete(Advance(es, id, t, a, limits, now)) ==>
              t.record.state == Complete || Claims(es, id) || Vouches(t, a)
  {
    hide Begin, BeginSubmission, SubmissionAnswered, Close;
    match t.phase
    case Created => BeginShows(es, id, t, now, a.admitted);
    case ScopedWork =>
    case ScopedReport => ConcludeShows(es, id, t, t.record);
    case Submitting => SubmissionShows(es, id, t, a.submission);
    case RetryNap => BeginSubmissionShows(es, id, t, now, a.admitted);
  }

  lemma MonitoringShows(es: seq<Event>, id: string, t: Task, a: Answer, limits: Limits, now: Time)
    requires !Starting(t.phase) && !t.phase.Finished? && !a.raised
    ensures ShowsComplete(Advance(es, id, t, a, limits, now)) ==> t.record.state == Complete || Vouches(t, a)
  {
    hide Iteration, PollAnswered, Conclude, PutsIn;
    match t.phase
    case Announcing => IterationShows(es, id, Armed(t, now), now);
    case Polling => PollShows(t, a.reply, limits, now);
    case Cancelling(_) =>
    case Reporting =>
    case PauseReport =>
    case Napping => IterationShows(es, id, t, now);
    case FinalReport => ConcludeShows(es, id, t, t.record);
  }

  /** A stretch shows completion only if it was shown before or the answer vouches for it. */
  lemma AdvanceShows(es: seq<Event>, id: string, t: Task, a: Answer, limits: Limits, now: Time)
    requires !t.phase.Finished?
    ensures ShowsComplete(Advance(es, id, t, a, limits, now)) ==>
              t.record.state == Complete || Claims(es, id) || Vouches(t, a)
  {
    hide ShowsComplete, Close, Vouches;
    if a.raised {
      ConcludeShows(es, id, t, Blank(now).(state := Failed, error := CRASH_NOTE));
    } else if Starting(t.phase) {
      StartingShows(es, id, t, a, limits, now);
    } else {
      MonitoringShows(es, id, t, a, limits, now);
    }
  }

  // -- whole runs --------------------------------------------------------------------------------------

  /** The build is shown as complete somewhere: in the log or in its task's record. */
  ghost predicate ShownComplete(q: Queue, id: string) {
    Claims(q.log, id) || (id in q.tasks && q.tasks[id].record.state == Complete)
  }

  ghost predicate IsVouched(q: Queue, s: Step, id: string) {
    s.Resume? && s.id == id && InFlight(q, id) && Vouches(q.tasks[id], s.answer)
  }

  lemma StepBeside(q: Queue, q2: Queue, id: string)
    requires q.log <= q2.log
    requires forall e :: e in q2.log[|q.log|..] ==> e.buildId != id || !SaysComplete(e.payload)
    requires id in q2.tasks && q2.tasks[id].record.state == Complete ==>
               id in q.tasks && q.tasks[id].record.state == Complete
    ensures ShownComplete(q2, id) ==> ShownComplete(q, id)
  {
    assert q2.log == q.log + q2.log[|q.log|..];
    ClaimsBeside(q.log, q2.log[|q.log|..], id);
  }

  lemma ResumeShows(q: Queue, x: string, a: Answer, limits: Limits, now: Time, id: string)
    requires InFlight(q, x)
    ensures ShownComplete(Resumption(q, x, a, limits, now), id) ==>
              ShownComplete(q, id) || (x == id && Vouches(q.tasks[id], a))
  {
    hide Advance, Vouches, ByTime, Claims;
    var s := Advance(ByTime(q.log), x, q.tasks[x], a, limits, now);
    StretchAppends(q, x, s, now);
    if x == id {
      AdvanceShows(ByTime(q.log), id, q.tasks[id], a, limits, now);
      ClaimsOrderFree(q.log, id);
      if !ShowsComplete(s) {
        StepBeside(q, WithStretch(q, x, s, now), id);
      }
    } else {
      StepBeside(q, WithStretch(q, x, s, now), id);
    }
  }

  lemma PassShows(q: Queue, now: Time, id: string)
    requires Sound(q)
    ensures ShownComplete(RunOnce(q, now), id) ==> ShownComplete(q, id)
  {
    hide RunOnce, Pending, Reaped, Claims;
    var q2 := RunOnce(q, now);
    PassEnds(q, now);
    PassFillsSlots(q, now);
    ReapedAreRunning(q.tasks);
    EndsAppend(q.log, q2.log);
    StepBeside(q, q2, id);
  }

  lemma StepShows(q: Queue, s: Step, limits: Limits, now: Time, id: string)
    requires Sound(q)
    ensures ShownComplete(Stepped(q, s, limits, now), id) ==> ShownComplete(q, id) || IsVouched(q, s, id)
  {
    hide RunOnce, Resumption, SnapshotOf, Claims, Vouches;
    match s
    case Pass => PassShows(q, now, id);
    case Resume(x, answer) =>
      if InFlight(q, x) {
        ResumeShows(q, x, answer, limits, now, id);
      }
    case _ => StepBeside(q, Stepped(q, s, limits, now), id);
  }

  /** Somewhere along the run an answer to the build's task vouched for its completion. */
  ghost predicate VouchedAlong(f: Fleet, moves: seq<Move>, id: string) {
    moves != []
    && (IsVouched(Run(f, moves[..|moves| - 1]).queue, moves[|moves| - 1].step, id)
        || VouchedAlong(f, moves[..|moves| - 1], id))
  }

  /** Fail closed, over whole runs: whatever crashes, errors, signals and clocks lie on the way, a build that was not
      shown as complete is shown so, in the log, on the dashboard or in its task, only after an answer in which both the
      transport and the reasoner's own result reported success, or a scoped build that came out complete. */
  lemma {:induction false} CompleteOnlyWhenVouched(f: Fleet, moves: seq<Move>, id: string)
    requires FleetInv(f) && !ShownComplete(f.queue, id)
    ensures ShownComplete(Run(f, moves).queue, id) ==> VouchedAlong(f, moves, id)
  {
    hide Stepped, Sound, ShownComplete, IsVouched;
    if moves != [] {
      var init, m := moves[..|moves| - 1], moves[|moves| - 1];
      CompleteOnlyWhenVouched(f, init, id);
      RunSplits(f, moves);
      StepShows(Run(f, init).queue, m.step, f.limits, m.at, id);
    }
  }

  /** The log holds a terminal event of the build that says it is complete. */
  ghost predicate EndedComplete(log: seq<Event>, id: string) {
    exists e :: e in log && e.buildId == id && e.payload.BuildTerminal? && e.payload.detail.state == Complete
  }

  /** What the dashboard shows as complete is shown so in the log or the task; and it does show it: for good exactly when
      the build's terminal event says so, and before that exactly when the record of a monitored task does, or else the
      log replays to it. */
  lemma SnapshotIsShown(q: Queue, id: string)
    requires Sound(q)
    ensures var shown, t := SnapshotOf(ByTime(q.log), q.tasks, id), if id in q.tasks then Some(q.tasks[id]) else None;
            var watched := t.Some? && (Monitored(t.value.phase) || t.value.phase.RetryNap?);
            && ((shown.Final? || shown.Live?) && shown.detail.state == Complete ==> ShownComplete(q, id))
            && (shown.Final? && shown.detail.state == Complete <==> EndedComplete(q.log, id))
            && (watched ==> shown.Live? && (shown.detail.state == Complete <==> t.value.record.state == Complete))
            && (!watched && shown.Live? ==>
                  (shown.detail.state == Complete <==> Replay(ByTime(q.log), id, 0.0).state == Complete))
  {
    hide Claims, Replay, Sound;
    var es := ByTime(q.log);
    ClaimsOrderFree(q.log, id);
    DetailIsClaimed(es, id);
    if Replay(es, id, 0.0).state == Complete {
      ReplayedClaim(es, id, 0.0);
    }
    FinalIff(q, id);
    LiveRecordIsShown(Fleet(q, Limits(0.0, 0.0)), [], id);
    DefinitionsAgree(es, id);
    OrderFree(q.log, id);
  }

  lemma FinalIff(q: Queue, id: string)
    requires Sound(q)
    ensures var d := TerminalDetail(ByTime(q.log), id);
            d.Some? && d.value.state == Complete <==> EndedComplete(q.log, id)
  {
    hide ByTime, Tracks;
    var es := ByTime(q.log);
    DefinitionsAgree(es, id);
    OrderFree(q.log, id);
    if HasTerminal(q.log, id) {
      var e := TerminalEventOf(es, id);
      ReadKeepsEvents(q.log);
      assert e in multiset(es);
      assert e in multiset(q.log);
      forall x | x in q.log && x.buildId == id && x.payload.BuildTerminal? ensures x == e {
        OneEnding(q.log, id, e, x);
      }
    } else {
      forall x | x in q.log && x.buildId == id && x.payload.BuildTerminal? ensures false {
        var k :| 0 <= k < |q.log| && q.log[k] == x;
        PresentAt(q.log, id, k);
      }
    }
  }

  lemma OneEnding(log: seq<Event>, id: string, e: Event, x: Event)
    requires Proper(log) && e in log && x in log && e.buildId == id && x.buildId == id
    requires e.payload.BuildTerminal? && x.payload.BuildTerminal?
    ensures x == e
  {
    var i :| 0 <= i < |log| && log[i] == e;
    var j :| 0 <= j < |log| && log[j] == x;
    OnceEach(log, id, i, j);
  }

  /** The converse of failing closed: once an answer vouches for a build, it ends complete and is shown so for good, unless
      a crash, a cancellation, an exception or the owner's stop of a scoped build comes between. */
  lemma VouchedIsShown(f: Fleet, id: string, a: Answer, at: Time, moves: seq<Move>, later: seq<Move>)
    requires FleetInv(f) && AllFit(f.queue) && InFlight(f.queue, id) && !a.raised && Vouches(f.queue.tasks[id], a)
    requires f.queue.tasks[id].phase.ScopedWork? ==> !IsStopped(f.queue, id)
    requires (forall m :: m in moves ==> Spares(m.step, id)) && Resumes(moves, id) >= 2
    ensures var q := Run(Run(Do(f, Move(Resume(id, a), at)), moves), later).queue;
            var shown := SnapshotOf(ByTime(q.log), q.tasks, id);
            shown.Final? && shown.detail.state == Complete
  {
    hide Run, Do, Sound, AllFit, PutsIn, SnapshotOf, IsStopped, NamesControlPlane;
    var g := Do(f, Move(Resume(id, a), at));
    ResumeAnswers(f, id, a, at);
    if f.queue.tasks[id].phase.Polling? {
      ReportedEndIsShown(f, id, a, at, moves, a.reply.value, Complete);
    } else {
      ScopedOutcomeIsShown(f, id, a, at, moves);
    }
    EveryRunIsSound(g, moves);
    FinalSnapshotStays(Run(g, moves), later, id);
  }

  /** In particular a build whose loop ended complete ends complete. */
  lemma CompleteLoopIsShown(f: Fleet, id: string, a: Answer, at: Time, moves: seq<Move>)
    requires FleetInv(f) && InFlight(f.queue, id) && f.queue.tasks[id].phase.FinalReport? && !a.raised
    requires f.queue.tasks[id].record.state == Complete
    ensures var q := Run(Do(f, Move(Resume(id, a), at)), moves).queue;
            var shown := SnapshotOf(ByTime(q.log), q.tasks, id);
            shown.Final? && shown.detail.state == Complete
  {
    hide Run, Do, Sound, SnapshotOf, IsStopped, NamesControlPlane;
    ResubmittedIff(f, id, a, at);
    ResumeAnswers(f, id, a, at);
    FinalSnapshotStays(Do(f, Move(Resume(id, a), at)), moves, id);
  }

  lemma {:induction false} DetailIsClaimed(es: seq<Event>, id: string)
    ensures TerminalDetail(es, id).Some? && TerminalDetail(es, id).value.state == Complete ==> Claims(es, id)
  {
    if es != [] {
      DetailIsClaimed(es[..|es| - 1], id);
    }
  }
}
