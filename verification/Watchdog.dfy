/** The watchdog over whole runs: a monitored build whose answers show nothing new is caught, and when. */
module Watchdog {
  import opened Common
  import opened EventLog
  import opened Progress
  import opened Builds
  import opened BuildTask
  import opened Scheduler
  import opened LogLaws
  import opened QueueLaws
  import opened Fleet

  /** The task goes round the monitoring loop. */
  predicate Looping(t: Task) {
    && (t.phase.Announcing? || t.phase.Polling? || t.phase.Reporting? || t.phase.PauseReport? || t.phase.Napping?)
    && !t.record.state.Terminal()
  }

  predicate InLoop(q: Queue, id: string) {
    id in q.tasks && Looping(q.tasks[id])
  }

  /** A build in the loop that showed projection `fp` last, something new last at `since`. */
  predicate Watched(q: Queue, id: string, fp: Json, since: real) {
    InLoop(q, id) && q.tasks[id].record.fingerprint == Some(fp) && q.tasks[id].record.lastProgressAt == since
  }

  /** If the step answers a poll of the build, the answer shows nothing new. */
  predicate NoNewsIn(s: Step, id: string, fp: Json) {
    s.Resume? && s.id == id && s.answer.reply.Some? ==> Fingerprint(s.answer.reply.value) == fp
  }

  predicate IsPoll(q: Queue, s: Step, id: string) {
    s.Resume? && s.id == id && id in q.tasks && q.tasks[id].phase.Polling?
  }

  // -- one step ------------------------------------------------------------------------------------

  lemma IterationKeepsClock(es: seq<Event>, id: string, t: Task, now: Time)
    ensures var r := Iteration(es, id, t, now).task.record;
            r.fingerprint == t.record.fingerprint && r.lastProgressAt == t.record.lastProgressAt
  {
    hide ControlState;
  }

  lemma PollAnsweredSilently(t: Task, reply: Option<map<string, Json>>, limits: Limits, now: Time, fp: Json)
    requires t.record.fingerprint == Some(fp) && limits.noProgressS > 0.0
    requires reply.Some? ==> Fingerprint(reply.value) == fp
    ensures var t2 := PollAnswered(t, reply, limits, now).task;
            && t2.record.fingerprint == Some(fp) && t2.record.lastProgressAt == t.record.lastProgressAt
            && (Looping(t2) ==> now < t.record.lastProgressAt + limits.noProgressS)
  {
    hide Polled, ReportDue;
    PollWithoutNews(t.record, reply, now, fp);
  }

  lemma AdvanceWatched(es: seq<Event>, id: string, t: Task, a: Answer, limits: Limits, now: Time, fp: Json)
    requires Looping(t) && t.record.fingerprint == Some(fp) && limits.noProgressS > 0.0
    requires a.reply.Some? ==> Fingerprint(a.reply.value) == fp
    ensures var t2 := Advance(es, id, t, a, limits, now).task;
            Looping(t2) ==>
              && t2.record.fingerprint == Some(fp) && t2.record.lastProgressAt == t.record.lastProgressAt
              && (t.phase.Polling? ==> now < t.record.lastProgressAt + limits.noProgressS)
  {
    hide Iteration, PollAnswered;
    if !a.raised {
      match t.phase
      case Announcing => IterationKeepsClock(es, id, Armed(t, now), now);
      case Polling => PollAnsweredSilently(t, a.reply, limits, now, fp);
      case Napping => IterationKeepsClock(es, id, t, now);
      case _ =>
    }
  }

  lemma PassKeepsTask(q: Queue, now: Time, id: string)
    requires Sound(q) && InFlight(q, id)
    ensures id in RunOnce(q, now).tasks && RunOnce(q, now).tasks[id] == q.tasks[id]
  {
    hide RunOnce, Pending, Reaped;
    PassFillsSlots(q, now);
    ReapedAreRunning(q.tasks);
  }

  /** No step without news moves the progress clock, and a poll that is survived came before the limit. */
  lemma StepWatched(q: Queue, s: Step, limits: Limits, now: Time, id: string, fp: Json, since: real)
    requires Sound(q) && Watched(q, id, fp, since) && NoNewsIn(s, id, fp) && limits.noProgressS > 0.0
    ensures var q2 := Stepped(q, s, limits, now);
            InLoop(q2, id) ==>
              && Watched(q2, id, fp, since)
              && (IsPoll(q, s, id) ==> now < since + limits.noProgressS)
  {
    hide RunOnce, Advance, SnapshotOf;
    match s
    case Pass => PassKeepsTask(q, now, id);
    case Resume(x, answer) =>
      if x == id {
        AdvanceWatched(ByTime(q.log), id, q.tasks[id], answer, limits, now, fp);
      }
    case _ =>
  }

  // -- whole runs -------------------------------------------------------------------------------------

  /** The build never leaves the loop on the way. */
  ghost predicate StaysInLoop(f: Fleet, moves: seq<Move>, id: string) {
    InLoop(Run(f, moves).queue, id) && (moves == [] || StaysInLoop(f, moves[..|moves| - 1], id))
  }

  /** When the build was last polled. */
  function LastPoll(f: Fleet, moves: seq<Move>, id: string, start: real): real {
    if moves == [] then start
    else
      var init, m := moves[..|moves| - 1], moves[|moves| - 1];
      if IsPoll(Run(f, init).queue, m.step, id) then m.at else LastPoll(f, init, id, start)
  }

  ghost predicate NoNewsAmong(moves: seq<Move>, id: string, fp: Json) {
    forall m :: m in moves ==> NoNewsIn(m.step, id, fp)
  }

  /** Over every run in which no answer shows anything new, a build that is still in the loop has not moved its progress
      clock, and every poll since was answered before the limit. */
  lemma {:induction false} SilenceIsSurvivedOnlyBeforeTheLimit(f: Fleet, moves: seq<Move>, id: string, fp: Json,
                                                               since: real)
    requires FleetInv(f) && Watched(f.queue, id, fp, since) && f.limits.noProgressS > 0.0
    requires NoNewsAmong(moves, id, fp) && StaysInLoop(f, moves, id)
    ensures Watched(Run(f, moves).queue, id, fp, since)
    ensures LastPoll(f, moves, id, since) < since + f.limits.noProgressS
    ensures Run(f, moves).limits == f.limits
  {
    hide Stepped, Sound, Watched;
    if moves != [] {
      var init, m := moves[..|moves| - 1], moves[|moves| - 1];
      assert m in moves;
      EveryRunIsSound(f, init);
      SilenceIsSurvivedOnlyBeforeTheLimit(f, init, id, fp, since);
      StepWatched(Run(f, init).queue, m.step, f.limits, m.at, id, fp, since);
    }
  }

  /** So the first poll at or past the limit takes the build out of the loop; and if polls are at most `gap` apart, that
      poll comes before the limit and one gap have passed since the last news. */
  lemma WatchdogCatches(f: Fleet, moves: seq<Move>, poll: Move, id: string, fp: Json, since: real, gap: real)
    requires FleetInv(f) && Watched(f.queue, id, fp, since) && f.limits.noProgressS > 0.0
    requires NoNewsAmong(moves + [poll], id, fp) && StaysInLoop(f, moves, id)
    requires IsPoll(Run(f, moves).queue, poll.step, id)
    requires poll.at <= LastPoll(f, moves, id, since) + gap
    ensures poll.at < since + f.limits.noProgressS + gap
    ensures poll.at >= since + f.limits.noProgressS ==>
              && !InLoop(Run(f, moves + [poll]).queue, id)
              && (StillGoing(Run(f, moves).queue.tasks[id], poll) ==>
                    var q2 := Run(f, moves + [poll]).queue; id in q2.tasks && q2.tasks[id].phase == Cancelling(Stall))
  {
    hide Stepped, Sound, Watched, InLoop, StillGoing;
    assert forall m :: m in moves ==> m in moves + [poll];
    assert poll in moves + [poll];
    assert (moves + [poll])[..|moves|] == moves;
    EveryRunIsSound(f, moves);
    SilenceIsSurvivedOnlyBeforeTheLimit(f, moves, id, fp, since);
    StepWatched(Run(f, moves).queue, poll.step, f.limits, poll.at, id, fp, since);
    if poll.at >= since + f.limits.noProgressS {
      StalledPoll(Run(f, moves).queue, poll, f.limits, id, fp, since);
    }
  }

  /** The answer neither failed nor reported an end. */
  predicate StillGoing(t: Task, poll: Move)
    requires poll.step.Resume?
  {
    !poll.step.answer.raised && !Polled(t.record, poll.step.answer.reply, poll.at).state.Terminal()
  }

  lemma StalledPoll(q: Queue, poll: Move, limits: Limits, id: string, fp: Json, since: real)
    requires Watched(q, id, fp, since) && IsPoll(q, poll.step, id) && NoNewsIn(poll.step, id, fp)
    requires limits.noProgressS > 0.0 && poll.at >= since + limits.noProgressS
    ensures StillGoing(q.tasks[id], poll) ==>
              var q2 := Stepped(q, poll.step, limits, poll.at); id in q2.tasks && q2.tasks[id].phase == Cancelling(Stall)
  {
    hide Polled;
    PollWithoutNews(q.tasks[id].record, poll.step.answer.reply, poll.at, fp);
  }
}
