/** The whole system: a scheduler, the tasks it runs, the people who signal them and the crashes in between, as one
    transition system over the log. Every run keeps the invariant below, whatever the clock does. */
module Fleet {
  import opened Common
  import opened EventLog
  import opened Builds
  import opened BuildTask
  import opened Scheduler
  import opened LogLaws
  import opened Readings
  import opened TaskLaws
  import opened QueueLaws

  datatype Fleet = Fleet(queue: Queue, limits: Limits)

  datatype Step =
    | Submit(id: string, request: Request)              // a build is queued
    | Pass                                              // the scheduler looks at its queue
    | Resume(id: string, answer: Answer)                // what a task awaits has answered
    | Cancel(id: string)                                // a task is cancelled at its await
    | Signal(id: string, signal: Payload)               // the owner stops, pauses or resumes a build
    | Note(id: string, note: Payload)                   // somebody else writes to the log
    | Restart(max: int, unreadable: set<string>)        // the process dies and comes back, perhaps with other settings

  /** A step and the time the clock shows; nothing says that the clock goes forward. */
  datatype Move = Move(step: Step, at: Time)

  predicate InFlight(q: Queue, id: string) {
    id in q.tasks && !q.tasks[id].phase.Finished?
  }

  /** Events of other components: nothing about builds depends on them. */
  predicate Foreign(p: Payload) {
    p.Unrelated? || p.RateLimited? || p.RateLimitCleared?
  }

  function Resumption(q: Queue, id: string, a: Answer, limits: Limits, now: Time): Queue
    requires InFlight(q, id)
  {
    WithStretch(q, id, Advance(ByTime(q.log), id, q.tasks[id], a, limits, now), now)
  }

  function WithStretch(q: Queue, id: string, s: Stretch, now: Time): Queue {
    q.(log := Append(q.log, id, s.out, now), tasks := q.tasks[id := s.task])
  }

  function Post(q: Queue, id: string, p: Payload, now: Time): Queue {
    q.(log := q.log + [Event(now, id, p)])
  }

  /** The queue after a step; a step that cannot happen changes nothing. */
  function Stepped(q: Queue, s: Step, limits: Limits, now: Time): Queue {
    match s
    case Submit(id, request) =>
      if id == "" || Enqueue(q, id, request, now).None? then q else Enqueue(q, id, request, now).value
    case Pass => RunOnce(q, now)
    case Resume(id, answer) => if InFlight(q, id) then Resumption(q, id, answer, limits, now) else q
    case Cancel(id) => if InFlight(q, id) then q.(tasks := q.tasks[id := q.tasks[id].(phase := Finished(true))]) else q
    case Signal(id, p) => if IsControl(p) then Post(q, id, p, now) else q
    case Note(id, p) => if Foreign(p) then Post(q, id, p, now) else q
    case Restart(max, unreadable) => Queue(q.log, map[], if max < 1 then 1 else max, unreadable)
  }

  function Do(f: Fleet, m: Move): Fleet {
    Fleet(Stepped(f.queue, m.step, f.limits, m.at), f.limits)
  }

  function Run(f: Fleet, moves: seq<Move>): Fleet {
    if moves == [] then f else Do(Run(f, moves[..|moves| - 1]), moves[|moves| - 1])
  }

  function Start(max: int, unreadable: set<string>, limits: Limits): Fleet {
    Fleet(Queue([], map[], if max < 1 then 1 else max, unreadable), limits)
  }

  /** What every run keeps: builds are queued once, end once and start only when submitted; at most `maxConcurrent` are
      tracked; a running one was queued and has not ended, and one that finished on its own has. */
  ghost predicate Sound(q: Queue) {
    && Proper(q.log)
    && |q.tasks| <= q.maxConcurrent && q.maxConcurrent >= 1
    && forall id :: id in q.tasks ==> Tracks(q.log, q.unreadable, id, q.tasks[id])
  }

  ghost predicate FleetInv(f: Fleet) {
    Sound(f.queue)
  }

  // -- posting one event ----------------------------------------------------------------

  lemma TracksBeside(log: seq<Event>, e: Event, unreadable: set<string>, id: string, t: Task)
    requires Tracks(log, unreadable, id, t) && !e.payload.BuildTerminal?
    ensures Tracks(log + [e], unreadable, id, t)
  {
    FactsSnoc(log, e, id);
  }

  lemma EventKeeps(q: Queue, e: Event)
    requires Sound(q) && ProperNext(q.log, e) && !e.payload.BuildTerminal?
    ensures Sound(q.(log := q.log + [e]))
  {
    ProperSnoc(q.log, e);
    forall x | x in q.tasks ensures Tracks(q.log + [e], q.unreadable, x, q.tasks[x]) {
      TracksBeside(q.log, e, q.unreadable, x, q.tasks[x]);
    }
  }

  /** A fresh id is one nothing was ever queued, submitted or ended for and no task works on. */
  lemma UnknownIff(q: Queue, id: string)
    ensures SnapshotOf(ByTime(q.log), q.tasks, id) == Unknown <==>
            !Enqueued(q.log, id) && !HasTerminal(q.log, id) && !Submitted(q.log, id) && !Active(q.tasks, id)
  {
    hide Replay;
    DefinitionsAgree(ByTime(q.log), id);
    OrderFree(q.log, id);
  }

  lemma SubmitKeeps(q: Queue, id: string, request: Request, now: Time)
    requires Sound(q) && id != "" && SnapshotOf(ByTime(q.log), q.tasks, id) == Unknown
    ensures Sound(Post(q, id, BuildEnqueued(request), now))
  {
    hide Sound, SnapshotOf;
    UnknownIff(q, id);
    EventKeeps(q, Event(now, id, BuildEnqueued(request)));
  }

  // -- resuming a task -------------------------------------------------------------------

  lemma {:induction false} AppendProper(log: seq<Event>, id: string, t: Task, out: seq<Payload>, now: Time)
    requires Proper(log) && Enqueued(log, id) && !HasTerminal(log, id)
    requires t.phase.Submitting? ==> Submitted(log, id)
    requires forall p :: p in out ==> MayPost(t, p) && !p.BuildTerminal?
    ensures var after := Append(log, id, out, now);
            Proper(after) && Enqueued(after, id) && !HasTerminal(after, id) && (Submitted(log, id) ==> Submitted(after, id))
  {
    if out != [] {
      var init, p := out[..|out| - 1], out[|out| - 1];
      assert p in out;
      AppendProper(log, id, t, init, now);
      ProperSnoc(Append(log, id, init, now), Event(now, id, p));
      FactsSnoc(Append(log, id, init, now), Event(now, id, p), id);
    }
  }

  /** What a stretch leaves of its own build. */
  lemma StretchProper(log: seq<Event>, id: string, t: Task, s: Stretch, now: Time)
    requires Proper(log) && Enqueued(log, id) && !HasTerminal(log, id) && Shaped(t, s)
    requires t.phase.Submitting? ==> Submitted(log, id)
    ensures var after := Append(log, id, s.out, now);
            && Proper(after) && Enqueued(after, id)
            && (HasTerminal(after, id) <==> s.task.phase == Finished(false))
            && (s.task.phase.Submitting? ==> Submitted(after, id))
  {
    if s.out != [] {
      var init, p := s.out[..|s.out| - 1], s.out[|s.out| - 1];
      assert p in s.out;
      AppendProper(log, id, t, init, now);
      ProperSnoc(Append(log, id, init, now), Event(now, id, p));
      FactsSnoc(Append(log, id, init, now), Event(now, id, p), id);
    }
  }

  /** A stretch of one build leaves every other build alone. */
  lemma {:induction false} StretchElsewhere(log: seq<Event>, id: string, out: seq<Payload>, now: Time, x: string)
    requires x != id
    ensures var after := Append(log, id, out, now);
            && (HasTerminal(after, x) <==> HasTerminal(log, x)) && (Enqueued(after, x) <==> Enqueued(log, x))
            && (Submitted(after, x) <==> Submitted(log, x))
  {
    if out != [] {
      var init := out[..|out| - 1];
      StretchElsewhere(log, id, init, now, x);
      FactsSnoc(Append(log, id, init, now), Event(now, id, out[|out| - 1]), x);
    }
  }

  lemma StretchKeeps(q: Queue, id: string, s: Stretch, now: Time)
    requires Sound(q) && InFlight(q, id) && Shaped(q.tasks[id], s)
    ensures Sound(WithStretch(q, id, s, now))
  {
    hide Shaped, Tracks, Append;
    var q2 := WithStretch(q, id, s, now);
    OwnStretch(q, id, s, now);
    forall x | x in q2.tasks ensures Tracks(q2.log, q.unreadable, x, q2.tasks[x]) {
      if x != id {
        TracksElsewhere(q.log, id, s.out, now, q.unreadable, x, q.tasks[x]);
      }
    }
    assert q2.tasks.Keys == q.tasks.Keys;
    assert |q2.tasks.Keys| == |q2.tasks| && |q.tasks.Keys| == |q.tasks|;
  }

  lemma OwnStretch(q: Queue, id: string, s: Stretch, now: Time)
    requires Proper(q.log) && InFlight(q, id) && Shaped(q.tasks[id], s)
    requires Tracks(q.log, q.unreadable, id, q.tasks[id])
    ensures Proper(Append(q.log, id, s.out, now)) && Tracks(Append(q.log, id, s.out, now), q.unreadable, id, s.task)
  {
    hide Shaped;
    StretchProper(q.log, id, q.tasks[id], s, now);
    NeverCancelled(q.tasks[id], s);
  }

  lemma TracksElsewhere(log: seq<Event>, id: string, out: seq<Payload>, now: Time, unreadable: set<string>, x: string,
                        t: Task)
    requires x != id && Tracks(log, unreadable, x, t)
    ensures Tracks(Append(log, id, out, now), unreadable, x, t)
  {
    StretchElsewhere(log, id, out, now, x);
  }

  lemma NeverCancelled(t: Task, s: Stretch)
    requires Shaped(t, s)
    ensures s.task.phase.Finished? ==> s.task.phase == Finished(false)
  {
  }

  lemma ResumeShaped(q: Queue, id: string, a: Answer, limits: Limits, now: Time)
    requires Sound(q) && InFlight(q, id)
    ensures Shaped(q.tasks[id], Advance(ByTime(q.log), id, q.tasks[id], a, limits, now))
  {
    hide Shaped;
    OrderFree(q.log, id);
    AdvanceShaped(ByTime(q.log), id, q.tasks[id], a, limits, now);
  }

  lemma ResumeKeeps(q: Queue, id: string, a: Answer, limits: Limits, now: Time)
    requires Sound(q) && InFlight(q, id)
    ensures Sound(Resumption(q, id, a, limits, now))
  {
    hide Shaped, Sound, Advance;
    ResumeShaped(q, id, a, limits, now);
    StretchKeeps(q, id, Advance(ByTime(q.log), id, q.tasks[id], a, limits, now), now);
  }

  // -- cancelling --------------------------------------------------------------------------

  lemma CancelKeeps(q: Queue, id: string)
    requires Sound(q) && InFlight(q, id)
    ensures Sound(q.(tasks := q.tasks[id := q.tasks[id].(phase := Finished(true))]))
  {
    var q2 := q.(tasks := q.tasks[id := q.tasks[id].(phase := Finished(true))]);
    assert q2.tasks.Keys == q.tasks.Keys;
    assert |q2.tasks.Keys| == |q2.tasks| && |q.tasks.Keys| == |q.tasks|;
    forall x | x in q2.tasks ensures Tracks(q.log, q.unreadable, x, q2.tasks[x]) {
      assert Tracks(q.log, q.unreadable, x, q.tasks[x]);
    }
  }

  // -- a scheduling pass ---------------------------------------------------------------------

  /** A build a pass leaves tracked: either its task ran on, or it is pending and dispatched afresh. */
  lemma PassTracks(q: Queue, now: Time, id: string)
    requires Sound(q) && id in RunOnce(q, now).tasks
    ensures Tracks(RunOnce(q, now).log, q.unreadable, id, RunOnce(q, now).tasks[id])
  {
    hide RunOnce, Pending, Reaped;
    var after := RunOnce(q, now);
    PassEnds(q, now);
    PassSettings(q, now);
    PassFillsSlots(q, now);
    PendingIff(after);
    ReapedAreRunning(q.tasks);
    if id in Reaped(q.tasks) {
      assert Tracks(q.log, q.unreadable, id, q.tasks[id]);
      EndsReadings(q.log, after.log, id);
      PassSparesRunning(q, now, id);
    }
  }

  lemma PassKeeps(q: Queue, now: Time)
    requires Sound(q)
    ensures Sound(RunOnce(q, now))
  {
    hide RunOnce, Pending, Reaped, Tracks;
    PassEnds(q, now);
    PassSettings(q, now);
    PassFillsSlots(q, now);
    ReapedAreRunning(q.tasks);
    forall id | id in RunOnce(q, now).tasks
      ensures Tracks(RunOnce(q, now).log, q.unreadable, id, RunOnce(q, now).tasks[id])
    {
      PassTracks(q, now, id);
    }
  }

  // -- whole runs --------------------------------------------------------------------------------

  lemma StepKeeps(q: Queue, s: Step, limits: Limits, now: Time)
    requires Sound(q)
    ensures Sound(Stepped(q, s, limits, now))
  {
    hide RunOnce, Resumption, SnapshotOf;
    match s
    case Submit(id, request) =>
      if id != "" && SnapshotOf(ByTime(q.log), q.tasks, id) == Unknown {
        SubmitKeeps(q, id, request, now);
      }
    case Pass => PassKeeps(q, now);
    case Resume(id, answer) =>
      if InFlight(q, id) {
        ResumeKeeps(q, id, answer, limits, now);
      }
    case Cancel(id) =>
      if InFlight(q, id) {
        CancelKeeps(q, id);
      }
    case Signal(id, p) => EventKeepsIf(q, id, p, now);
    case Note(id, p) => EventKeepsIf(q, id, p, now);
    case Restart(_, _) =>
  }

  lemma EventKeepsIf(q: Queue, id: string, p: Payload, now: Time)
    requires Sound(q)
    ensures IsControl(p) || Foreign(p) ==> Sound(Post(q, id, p, now))
  {
    hide Sound;
    if IsControl(p) || Foreign(p) {
      EventKeeps(q, Event(now, id, p));
    }
  }

  lemma DoKeeps(f: Fleet, m: Move)
    requires FleetInv(f)
    ensures FleetInv(Do(f, m))
  {
    hide Stepped;
    StepKeeps(f.queue, m.step, f.limits, m.at);
  }

  /** Every run, whatever the interleaving of queueing, passes, answers, cancellations, signals and restarts and whatever
      the clock shows at each of them, keeps the invariant. */
  lemma {:induction false} EveryRunIsSound(f: Fleet, moves: seq<Move>)
    requires FleetInv(f)
    ensures FleetInv(Run(f, moves))
  {
    hide Do, FleetInv;
    if moves != [] {
      EveryRunIsSound(f, moves[..|moves| - 1]);
      DoKeeps(Run(f, moves[..|moves| - 1]), moves[|moves| - 1]);
    }
  }

  /** Only a restart changes the settings; it takes the new ones, forgets every task and keeps the log. */
  lemma RestartSetsLimit(f: Fleet, m: Move)
    ensures var q, q2 := f.queue, Do(f, m).queue;
            match m.step
            case Restart(max, unreadable) =>
              q2.log == q.log && q2.tasks == map[] && q2.unreadable == unreadable
              && q2.maxConcurrent >= 1 && (max >= 1 ==> q2.maxConcurrent == max)
            case _ => q2.maxConcurrent == q.maxConcurrent && q2.unreadable == q.unreadable
  {
    hide RunOnce, Advance, SnapshotOf;
    if m.step.Pass? {
      PassSettings(f.queue, m.at);
    }
  }

  /** Two events of one build that are both queue items or both endings. */
  ghost predicate SameKind(log: seq<Event>, i: int, j: int) {
    && 0 <= i < |log| && 0 <= j < |log| && log[i].buildId == log[j].buildId
    && (log[i].payload.BuildEnqueued? <==> log[j].payload.BuildEnqueued?)
    && (log[i].payload.BuildTerminal? <==> log[j].payload.BuildTerminal?)
  }

  /** The whole-run safety of the scheduler, from a fresh start and under any clock: the concurrency limit holds, and
      every build is queued at most once and ends at most once. */
  lemma SafeFromTheStart(max: int, unreadable: set<string>, limits: Limits, moves: seq<Move>)
    ensures var q := Run(Start(max, unreadable, limits), moves).queue;
            && FleetInv(Run(Start(max, unreadable, limits), moves))
            && |q.tasks| <= q.maxConcurrent
            && (forall i, j :: SameKind(q.log, i, j) && q.log[i].payload.BuildEnqueued? ==> i == j)
            && (forall i, j :: SameKind(q.log, i, j) && q.log[i].payload.BuildTerminal? ==> i == j)
  {
    hide Run;
    StartsSound(max, unreadable, limits);
    EveryRunIsSound(Start(max, unreadable, limits), moves);
    var q := Run(Start(max, unreadable, limits), moves).queue;
    forall i, j | SameKind(q.log, i, j) && (q.log[i].payload.BuildEnqueued? || q.log[i].payload.BuildTerminal?)
      ensures i == j
    {
      OnceEach(q.log, q.log[i].buildId, i, j);
    }
  }

  lemma StartsSound(max: int, unreadable: set<string>, limits: Limits)
    ensures FleetInv(Start(max, unreadable, limits))
  {
  }
}
