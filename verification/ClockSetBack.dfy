/** Two runs of the fleet in which the clock is set back: one loses an owner's stop, the other a running execution. */
module ClockSetBack {
  import opened Common
  import opened EventLog
  import opened Progress
  import opened Builds
  import opened BuildTask
  import opened Scheduler
  import opened LogLaws
  import opened Readings
  import opened TaskLaws
  import opened QueueLaws
  import opened Fleet
  import opened Runs
  import opened Recovery
  import opened OwnerStop

  /** A run, move by move. */
  lemma RunAt(f: Fleet, moves: seq<Move>, k: nat)
    requires k < |moves|
    ensures Run(f, moves[..k + 1]) == Do(Run(f, moves[..k]), moves[k])
  {
    hide Do;
    assert moves[..k + 1][..k] == moves[..k];
  }

  // -- a queued build ----------------------------------------------------------------------------------

  function Item(id: string, request: Request, at: Time): Event {
    Event(at, id, BuildEnqueued(request))
  }

  /** A fleet that has just taken in its first build. */
  function FirstBuild(limits: Limits, id: string, request: Request, at: Time): Fleet {
    Fleet(Queue([Item(id, request, at)], map[], 1, {}), limits)
  }

  lemma FirstSubmit(limits: Limits, id: string, request: Request, at: Time)
    requires id != ""
    ensures Do(Start(1, {}, limits), Move(Submit(id, request), at)) == FirstBuild(limits, id, request, at)
    ensures FleetInv(FirstBuild(limits, id, request, at))
  {
    hide SnapshotOf, RunOnce, Resumption;
    var f := Start(1, {}, limits);
    StartsSound(1, {}, limits);
    UnknownIff(f.queue, id);
    assert [] + [Item(id, request, at)] == [Item(id, request, at)];
    DoKeeps(f, Move(Submit(id, request), at));
  }

  /** With one build queued and none tracked, a pass dispatches it unless it is stopped. */
  lemma OnlyBuildIsDispatched(q: Queue, id: string, at: Time)
    requires Sound(q) && q.tasks == map[] && IsPending(q.log, q.unreadable, id) && !IsStopped(q, id)
    requires forall x :: Enqueued(q.log, x) ==> x == id
    ensures var q2 := RunOnce(q, at);
            && Sound(q2) && Ends(q.log, q2.log)
            && id in q2.tasks && q2.tasks[id] == Dispatched(RequestFor(ByTime(q2.log), id))
  {
    hide RunOnce, Pending, Reaped, IsStopped;
    NobodyAhead(q, id);
    NothingTracked(Pending(q));
    SparedIsDispatched(q, at, id, {});
    PassEnds(q, at);
    PassKeeps(q, at);
    PassFillsSlots(q, at);
    ReapedAreRunning(q.tasks);
  }

  lemma NobodyAhead(q: Queue, id: string)
    requires forall x :: Enqueued(q.log, x) ==> x == id
    ensures Ahead(Pending(q), id) == {}
  {
    hide Pending;
    var p := Pending(q);
    PendingIff(q);
    AheadArePending(p, id);
    if id in p {
      var i :| 0 <= i < |p| && p[i] == id;
      AheadAt(p, i);
    }
  }

  lemma ItemReadings(id: string, request: Request, at: Time, x: string)
    ensures var log := [Item(id, request, at)];
            && (Enqueued(log, x) <==> x == id) && !HasTerminal(log, x) && !Submitted(log, x) && !Started(log, x)
            && ControlState(log, x) == Running && ByTime(log) == log
  {
    var e := Item(id, request, at);
    assert [] + [e] == [e];
    FactsSnoc([], e, x);
    ReadOne(e);
  }

  // -- a stop is lost ------------------------------------------------------------------------------------

  /** The owner resumes a build, the clock is set back, the owner stops it. */
  function StopRun(id: string, request: Request, resumedAt: Time, stoppedAt: Time): seq<Move> {
    [Move(Submit(id, request), stoppedAt), Move(Signal(id, ControlResume), resumedAt),
     Move(Signal(id, ControlStop), stoppedAt)]
  }

  lemma AfterSignals(limits: Limits, id: string, request: Request, resumedAt: Time, stoppedAt: Time)
    requires id != ""
    ensures var item := Item(id, request, stoppedAt);
            Run(Start(1, {}, limits), StopRun(id, request, resumedAt, stoppedAt)) ==
            FirstBuild(limits, id, request, stoppedAt).(queue :=
              Post(Post(FirstBuild(limits, id, request, stoppedAt).queue, id, ControlResume, resumedAt), id, ControlStop, stoppedAt))
  {
    hide RunOnce, Resumption, SnapshotOf, Start;
    var moves, f := StopRun(id, request, resumedAt, stoppedAt), Start(1, {}, limits);
    FirstSubmit(limits, id, request, stoppedAt);
    RunAt(f, moves, 0);
    RunAt(f, moves, 1);
    RunAt(f, moves, 2);
    assert moves[..0] == [] && moves[..3] == moves;
  }

  /** The stop was written last, and the build still reads as running: the next pass dispatches it. */
  lemma StopCanBeLost(limits: Limits, id: string, request: Request, resumedAt: Time, stoppedAt: Time, passAt: Time)
    requires id != "" && stoppedAt < resumedAt
    ensures var f := Run(Start(1, {}, limits), StopRun(id, request, resumedAt, stoppedAt));
            && ControlState(f.queue.log, id) == Stopping && ControlState(ByTime(f.queue.log), id) == Running
            && id in Do(f, Move(Pass, passAt)).queue.tasks
  {
    hide Run, RunOnce, ControlState, ByTime, Start;
    var q := FirstBuild(limits, id, request, stoppedAt).queue;
    var q1 := Post(q, id, ControlResume, resumedAt);
    var q2 := Post(q1, id, ControlStop, stoppedAt);
    AfterSignals(limits, id, request, resumedAt, stoppedAt);
    FirstSubmit(limits, id, request, stoppedAt);
    SignalsPosted(q, id, request, resumedAt, stoppedAt);
    OnlyBuildIsDispatched(q2, id, passAt);
  }

  lemma SignalsPosted(q: Queue, id: string, request: Request, resumedAt: Time, stoppedAt: Time)
    requires Sound(q) && q == Queue([Item(id, request, stoppedAt)], map[], 1, {}) && id != "" && stoppedAt < resumedAt
    ensures var q2 := Post(Post(q, id, ControlResume, resumedAt), id, ControlStop, stoppedAt);
            && Sound(q2) && IsPending(q2.log, {}, id) && (forall x :: Enqueued(q2.log, x) ==> x == id)
            && ControlState(q2.log, id) == Stopping && ControlState(ByTime(q2.log), id) == Running
  {
    hide ByTime, Sound;
    var e1, e2 := Event(resumedAt, id, ControlResume), Event(stoppedAt, id, ControlStop);
    EventKeeps(q, e1);
    EventKeeps(Post(q, id, ControlResume, resumedAt), e2);
    forall x
      ensures Enqueued(q.log + [e1] + [e2], x) <==> x == id
      ensures !HasTerminal(q.log + [e1] + [e2], x)
    {
      ItemReadings(id, request, stoppedAt, x);
      FactsSnoc(q.log, e1, x);
      FactsSnoc(q.log + [e1], e2, x);
    }
    ReadingsSnoc(q.log + [e1], e2, id);
    ItemReadings(id, request, stoppedAt, id);
    SignalEffect(q.log, id, ControlResume, resumedAt);
    NoneLaterMeans(q.log, SignalsOf(id), resumedAt);
    SignalEffect(q.log + [e1], id, ControlStop, stoppedAt);
    NoneLaterMeans(q.log + [e1], SignalsOf(id), stoppedAt);
    assert Covers(SignalsOf(id), (q.log + [e1])[1]);
  }

  // -- an execution is lost --------------------------------------------------------------------------------

  /** An answer that shows an execution cancelled by the control plane because an agent node went away. */
  predicate Casualty(body: map<string, Json>) {
    && ReportedState(body) == Some(Stopped) && Truthy(Get(body, "error"))
    && RetryableStop(Updated(Blank(0.0), body, 0.0))
  }

  lemma CasualtyIsRetryable(r: Record, body: map<string, Json>, now: real)
    requires Casualty(body)
    ensures RetryableStop(Updated(r, body, now)) && Updated(r, body, now).state == Stopped
  {
    hide ReportedState, ReportsSuccess, StatusText, Clip, Joined, Fingerprint, Truthy, Get, ResultOf, Contains;
    assert Updated(r, body, now).error == Updated(Blank(0.0), body, 0.0).error;
    UpdatedFields(r, body, now);
  }

  function Admit(): Answer {
    Answer(false, true, Refused(""), None, Queued)
  }

  function Accept(x: string): Answer {
    Answer(false, true, Accepted(x), None, Queued)
  }

  function Reply(body: map<string, Json>): Answer {
    Answer(false, true, Refused(""), Some(body), Queued)
  }

  // How each answer moves the task while the build is running and has not ended.

  lemma AdmissionMoves(es: seq<Event>, id: string, t: Task, limits: Limits, now: Time)
    requires !HasTerminal(es, id) && (t.phase.RetryNap? || (t.phase.Created? && Outstanding(es, id) == ""))
    requires t.request.pipeline != Scoped
    ensures Advance(es, id, t, Admit(), limits, now) ==
            Stretch([BuildSubmitted], t.(record := Blank(now), phase := Submitting))
  {
    hide Replay, Conclude, Announce;
    ReplayOfUnended(es, id, now);
  }

  lemma AcceptanceMoves(es: seq<Event>, id: string, t: Task, x: string, limits: Limits, now: Time)
    requires t.phase.Submitting? && x != ""
    ensures var r := t.record.(executionId := x, state := Planning);
            Advance(es, id, t, Accept(x), limits, now) ==
            Stretch([BuildStarted(x)] + [StatusOf(r)], t.(record := r, phase := Announcing))
  {
  }

  lemma PollMoves(es: seq<Event>, id: string, t: Task, limits: Limits, now: Time)
    requires t.phase.Announcing? && t.record.state == Planning && ControlState(es, id) == Running
    ensures Advance(es, id, t, Admit(), limits, now) == Stretch([], Armed(t, now).(phase := Polling))
  {
    hide ControlState;
  }

  lemma CasualtyMoves(es: seq<Event>, id: string, t: Task, body: map<string, Json>, limits: Limits, now: Time)
    requires t.phase.Polling? && t.record.executionId != "" && t.lastState == Planning && Casualty(body)
    ensures var r := Updated(t.record, body, now);
            && Advance(es, id, t, Reply(body), limits, now) == Stretch([StatusOf(r)], t.(record := r, phase := Reporting))
            && RetryableStop(r) && r.executionId == t.record.executionId
  {
    hide Updated, Casualty, RetryableStop;
    CasualtyIsRetryable(t.record, body, now);
    UpdatedFields(t.record, body, now);
  }

  lemma ReportMoves(es: seq<Event>, id: string, t: Task, limits: Limits, now: Time)
    requires RetryableStop(t.record) && ControlState(es, id) == Running
    ensures t.phase.Reporting? ==>
              Advance(es, id, t, Admit(), limits, now) ==
              Stretch([StatusOf(t.record)], t.(lastState := t.record.state, lastStatusAt := now, phase := FinalReport))
    ensures t.phase.FinalReport? ==>
              var r := t.record.(executionId := "", state := Queued, error := "", phaseDetail := RETRY_DETAIL);
              Advance(es, id, t, Admit(), limits, now) ==
              Stretch([InfrastructureRetry(t.record.executionId, t.record.error)], t.(record := r, phase := RetryNap))
  {
    hide ControlState, Contains, Lower;
  }

  // -- what a stretch leaves of the readings ------------------------------------------------------------------

  lemma NoneLaterAfter(log: seq<Event>, ext: seq<Event>, topic: Topic, now: Time)
    requires forall e :: e in ext && Covers(topic, e) ==> e.ts <= now
    ensures NoneLater(log + ext, topic, now) <==> NoneLater(log, topic, now)
  {
    hide Covers;
    NoneLaterMeans(log, topic, now);
    NoneLaterMeans(log + ext, topic, now);
    assert forall k :: 0 <= k < |log| ==> (log + ext)[k] == log[k];
    assert forall k :: |log| <= k < |log + ext| ==> (log + ext)[k] == ext[k - |log|] && ext[k - |log|] in ext;
  }

  /** A stretch appends events of its build, stamped when it runs. */
  lemma StretchStamps(q: Queue, id: string, s: Stretch, now: Time)
    ensures var log2 := Append(q.log, id, s.out, now);
            && q.log <= log2 && log2 == q.log + log2[|q.log|..]
            && forall e :: e in log2[|q.log|..] ==> e.buildId == id && e.ts == now && e.payload in s.out
  {
    var log2 := Append(q.log, id, s.out, now);
    AppendShape(q.log, id, s.out, now);
    forall e | e in log2[|q.log|..] ensures e.buildId == id && e.ts == now && e.payload in s.out {
      var k :| 0 <= k < |log2[|q.log|..]| && log2[|q.log|..][k] == e;
      assert s.out[k] in s.out;
    }
  }

  lemma OutstandingBeside(log: seq<Event>, ext: seq<Event>, id: string)
    requires forall e :: e in ext ==> !Covers(ExecutionOf(id), e)
    ensures Outstanding(ByTime(log + ext), id) == Outstanding(ByTime(log), id)
  {
    hide Covers;
    ReadBeside(log, ext, ExecutionOf(id));
    OutstandingFromExecutions(ByTime(log), id);
    OutstandingFromExecutions(ByTime(log + ext), id);
  }

  lemma RequestBeside(log: seq<Event>, ext: seq<Event>, id: string)
    requires forall e :: e in ext ==> !Covers(ItemsOf(id), e)
    ensures RequestFor(ByTime(log + ext), id) == RequestFor(ByTime(log), id)
  {
    hide Covers;
    ReadBeside(log, ext, ItemsOf(id));
    RequestFromItems(ByTime(log), id);
    RequestFromItems(ByTime(log + ext), id);
  }

  /** The only build of a fleet, under way, never signalled; its starts and retries are stamped at `late` at the latest. */
  ghost predicate UnderWay(q: Queue, id: string, request: Request, late: Time) {
    && Sound(q) && InFlight(q, id) && q.tasks[id].request == request && request.pipeline != Scoped
    && q.maxConcurrent == 1 && q.unreadable == {}
    && ControlState(ByTime(q.log), id) == Running && NoneLater(q.log, ExecutionOf(id), late)
    && (forall x :: Enqueued(q.log, x) ==> x == id) && RequestFor(ByTime(q.log), id) == request
  }

  lemma {:induction false} QueuesNothing(log: seq<Event>, ext: seq<Event>, x: string)
    requires forall e :: e in ext ==> !e.payload.BuildEnqueued?
    ensures Enqueued(log + ext, x) <==> Enqueued(log, x)
  {
    if ext == [] {
      assert log + ext == log;
    } else {
      var init, e := ext[..|ext| - 1], ext[|ext| - 1];
      assert e in ext;
      QueuesNothing(log, init, x);
      assert log + ext == (log + init) + [e];
      FactsSnoc(log + init, e, x);
    }
  }

  lemma GoesOnUnderWay(q: Queue, id: string, request: Request, a: Answer, limits: Limits, at: Time, late: Time)
    requires UnderWay(q, id, request, late) && at <= late
    requires var t := Advance(ByTime(q.log), id, q.tasks[id], a, limits, at).task; !t.phase.Finished? && t.request == request
    ensures UnderWay(Resumption(q, id, a, limits, at), id, request, late)
  {
    hide Advance, Sound, ByTime, NoneLater, ControlState, Enqueued, RequestFor, Shaped;
    var s := Advance(ByTime(q.log), id, q.tasks[id], a, limits, at);
    ResumeKeeps(q, id, a, limits, at);
    ResumeShaped(q, id, a, limits, at);
    StretchStamps(q, id, s, at);
    var log2 := Append(q.log, id, s.out, at);
    var ext := log2[|q.log|..];
    ShapedIsTame(q.tasks[id], s);
    ControlBeside(q.log, ext, id);
    RequestBeside(q.log, ext, id);
    NoneLaterAfter(q.log, ext, ExecutionOf(id), late);
    forall x ensures Enqueued(log2, x) <==> Enqueued(q.log, x) {
      QueuesNothing(q.log, ext, x);
    }
  }

  lemma ShapedIsTame(t: Task, s: Stretch)
    requires Shaped(t, s)
    ensures forall p :: p in s.out ==> !IsControl(p) && !p.BuildEnqueued?
  {
  }

  /** A stretch that starts and gives up nothing. */
  lemma SameExecutions(q: Queue, id: string, s: Stretch, at: Time)
    requires forall p :: p in s.out ==> !p.BuildStarted? && !p.InfrastructureRetry?
    ensures var log2 := Append(q.log, id, s.out, at);
            && Outstanding(ByTime(log2), id) == Outstanding(ByTime(q.log), id)
            && forall t: Time :: NoneLater(log2, ExecutionOf(id), t) <==> NoneLater(q.log, ExecutionOf(id), t)
  {
    hide ByTime, Outstanding, NoneLater;
    StretchStamps(q, id, s, at);
    var log2 := Append(q.log, id, s.out, at);
    OutstandingBeside(q.log, log2[|q.log|..], id);
    forall t: Time ensures NoneLater(log2, ExecutionOf(id), t) <==> NoneLater(q.log, ExecutionOf(id), t) {
      NoneLaterAfter(q.log, log2[|q.log|..], ExecutionOf(id), t);
    }
  }

  /** The log shows execution `x`, and `newest` says whether no start or retry is stamped later than `early`. */
  ghost predicate Shows(q: Queue, id: string, x: string, early: Time, newest: bool) {
    Outstanding(ByTime(q.log), id) == x && (NoneLater(q.log, ExecutionOf(id), early) <==> newest)
  }

  lemma StartShows(q: Queue, id: string, s: Stretch, x: string, status: Payload, early: Time, before: string, newest: bool)
    requires Shows(q, id, before, early, newest) && s.out == [BuildStarted(x)] + [status] && status.BuildStatus?
    ensures var q2 := WithStretch(q, id, s, early);
            Shows(q2, id, if newest then x else before, early, newest) && Outstanding(q2.log, id) == x
  {
    hide ByTime, NoneLater;
    var e, e2 := Event(early, id, BuildStarted(x)), Event(early, id, status);
    AppendTwo(q.log, id, BuildStarted(x), status, early);
    StartEffect(q.log, id, x, early);
    NoneLaterAfter(q.log, [e], ExecutionOf(id), early);
    OutstandingBeside(q.log + [e], [e2], id);
    NoneLaterAfter(q.log + [e], [e2], ExecutionOf(id), early);
    ReadingsSnoc(q.log, e, id);
    ReadingsSnoc(q.log + [e], e2, id);
  }

  lemma AppendTwo(log: seq<Event>, id: string, p: Payload, p2: Payload, now: Time)
    ensures Append(log, id, [p] + [p2], now) == log + [Event(now, id, p)] + [Event(now, id, p2)]
    ensures Append(log, id, [p], now) == log + [Event(now, id, p)]
  {
    AppendShape(log, id, [p] + [p2], now);
    AppendShape(log, id, [p], now);
    assert Append(log, id, [p] + [p2], now)[..|log|] == log && Append(log, id, [p], now)[..|log|] == log;
  }

  lemma RetryShows(q: Queue, id: string, s: Stretch, x: string, why: string, early: Time, late: Time)
    requires early < late && NoneLater(q.log, ExecutionOf(id), late) && s.out == [InfrastructureRetry(x, why)]
    ensures Shows(WithStretch(q, id, s, late), id, "", early, false)
  {
    hide ByTime, NoneLater, Select, Outstanding;
    var e := Event(late, id, InfrastructureRetry(x, why));
    assert Covers(ExecutionOf(id), e);
    AppendTwo(q.log, id, InfrastructureRetry(x, why), InfrastructureRetry(x, why), late);
    ReadLastAfter(q.log, e, ExecutionOf(id));
    LastExecutionCounts(ByTime(q.log + [e]), id);
    NoneLaterMeans(q.log + [e], ExecutionOf(id), early);
    assert (q.log + [e])[|q.log|] == e;
  }

  // -- the stages of the run ------------------------------------------------------------------------------------

  lemma AdmissionStage(q: Queue, id: string, request: Request, limits: Limits, early: Time, late: Time, newest: bool)
    requires UnderWay(q, id, request, late) && early <= late && Shows(q, id, "", early, newest)
    requires q.tasks[id].phase.Created? || q.tasks[id].phase.RetryNap?
    ensures var q2 := Resumption(q, id, Admit(), limits, early);
            UnderWay(q2, id, request, late) && Shows(q2, id, "", early, newest) && q2.tasks[id].phase.Submitting?
  {
    hide Advance, ByTime, NoneLater, Outstanding;
    assert Tracks(q.log, q.unreadable, id, q.tasks[id]);
    OrderFree(q.log, id);
    AdmissionMoves(ByTime(q.log), id, q.tasks[id], limits, early);
    SameExecutions(q, id, Advance(ByTime(q.log), id, q.tasks[id], Admit(), limits, early), early);
    GoesOnUnderWay(q, id, request, Admit(), limits, early, late);
  }

  lemma AcceptanceStage(q: Queue, id: string, request: Request, x: string, limits: Limits, early: Time, late: Time,
                        newest: bool)
    requires UnderWay(q, id, request, late) && early <= late && Shows(q, id, "", early, newest)
    requires q.tasks[id].phase.Submitting? && x != ""
    ensures var q2 := Resumption(q, id, Accept(x), limits, early);
            && UnderWay(q2, id, request, late) && Shows(q2, id, if newest then x else "", early, newest)
            && q2.tasks[id].phase.Announcing? && q2.tasks[id].record.executionId == x
            && q2.tasks[id].record.state == Planning && Outstanding(q2.log, id) == x
  {
    hide Advance, ByTime, NoneLater, Outstanding, Shows;
    var s := Advance(ByTime(q.log), id, q.tasks[id], Accept(x), limits, early);
    AcceptanceMoves(ByTime(q.log), id, q.tasks[id], x, limits, early);
    StartShows(q, id, s, x, StatusOf(s.task.record), early, "", newest);
    GoesOnUnderWay(q, id, request, Accept(x), limits, early, late);
  }

  lemma PollStage(q: Queue, id: string, request: Request, x: string, limits: Limits, early: Time, late: Time)
    requires UnderWay(q, id, request, late) && early <= late && x != ""
    requires var t := q.tasks[id]; t.phase.Announcing? && t.record.state == Planning && t.record.executionId == x
    ensures var q2 := Resumption(q, id, Admit(), limits, early);
            && UnderWay(q2, id, request, late)
            && q2.tasks[id].phase.Polling? && q2.tasks[id].record.executionId == x && q2.tasks[id].lastState == Planning
  {
    hide Advance, ByTime, NoneLater, ControlState;
    PollMoves(ByTime(q.log), id, q.tasks[id], limits, early);
    GoesOnUnderWay(q, id, request, Admit(), limits, early, late);
  }

  lemma CasualtyStage(q: Queue, id: string, request: Request, body: map<string, Json>, limits: Limits, early: Time,
                      late: Time)
    requires UnderWay(q, id, request, late) && early <= late && Casualty(body)
    requires var t := q.tasks[id]; t.phase.Polling? && t.record.executionId != "" && t.lastState == Planning
    ensures var q2 := Resumption(q, id, Reply(body), limits, early);
            UnderWay(q2, id, request, late) && q2.tasks[id].phase.Reporting? && RetryableStop(q2.tasks[id].record)
  {
    hide Advance, ByTime, NoneLater, ControlState, Casualty, RetryableStop, Updated;
    CasualtyMoves(ByTime(q.log), id, q.tasks[id], body, limits, early);
    GoesOnUnderWay(q, id, request, Reply(body), limits, early, late);
  }

  lemma ReportStage(q: Queue, id: string, request: Request, limits: Limits, early: Time, late: Time)
    requires UnderWay(q, id, request, late) && early <= late
    requires q.tasks[id].phase.Reporting? && RetryableStop(q.tasks[id].record)
    ensures var q2 := Resumption(q, id, Admit(), limits, early);
            UnderWay(q2, id, request, late) && q2.tasks[id].phase.FinalReport? && RetryableStop(q2.tasks[id].record)
  {
    hide Advance, ByTime, NoneLater, ControlState, RetryableStop;
    ReportMoves(ByTime(q.log), id, q.tasks[id], limits, early);
    GoesOnUnderWay(q, id, request, Admit(), limits, early, late);
  }

  lemma RetryStage(q: Queue, id: string, request: Request, limits: Limits, early: Time, late: Time)
    requires UnderWay(q, id, request, late) && early < late
    requires q.tasks[id].phase.FinalReport? && RetryableStop(q.tasks[id].record)
    ensures var q2 := Resumption(q, id, Admit(), limits, late);
            UnderWay(q2, id, request, late) && Shows(q2, id, "", early, false) && q2.tasks[id].phase.RetryNap?
  {
    hide Advance, ByTime, NoneLater, ControlState, RetryableStop, Shows;
    var t := q.tasks[id];
    ReportMoves(ByTime(q.log), id, t, limits, late);
    RetryShows(q, id, Advance(ByTime(q.log), id, t, Admit(), limits, late), t.record.executionId, t.record.error, early, late);
    GoesOnUnderWay(q, id, request, Admit(), limits, late, late);
  }

  lemma DispatchStage(limits: Limits, id: string, request: Request, early: Time, late: Time)
    requires id != "" && request.pipeline != Scoped && early <= late
    ensures var q := RunOnce(FirstBuild(limits, id, request, early).queue, early);
            UnderWay(q, id, request, late) && Shows(q, id, "", early, true) && q.tasks[id].phase.Created?
  {
    hide RunOnce, ByTime, NoneLater;
    var q0 := FirstBuild(limits, id, request, early).queue;
    FirstSubmit(limits, id, request, early);
    forall x ensures Enqueued(q0.log, x) <==> x == id {
      ItemReadings(id, request, early, x);
    }
    ItemReadings(id, request, early, id);
    OnlyBuildIsDispatched(q0, id, early);
    PassSettings(q0, early);
    EndedReadings(q0, RunOnce(q0, early), id, request, early, late);
  }

  lemma EndedReadings(q0: Queue, q: Queue, id: string, request: Request, early: Time, late: Time)
    requires q0.log == [Item(id, request, early)] && Ends(q0.log, q.log) && early <= late
    ensures ControlState(ByTime(q.log), id) == Running && Shows(q, id, "", early, true)
    ensures NoneLater(q.log, ExecutionOf(id), late) && RequestFor(ByTime(q.log), id) == request
    ensures forall x :: Enqueued(q.log, x) ==> x == id
  {
    hide ByTime;
    ItemReadings(id, request, early, id);
    EndsAppend(q0.log, q.log);
    var ext := q.log[|q0.log|..];
    EndsControl(q0.log, q.log, id);
    EndsKeepReading(q0.log, q.log, id);
    RequestBeside(q0.log, ext, id);
    NoneLaterAfter(q0.log, ext, ExecutionOf(id), early);
    NoneLaterAfter(q0.log, ext, ExecutionOf(id), late);
    forall x | Enqueued(q.log, x) ensures x == id {
      EndsReadings(q0.log, q.log, x);
      ItemReadings(id, request, early, x);
    }
  }

  // -- the run ----------------------------------------------------------------------------------------------------

  /** A build is submitted and its execution given up at `late`; then the clock is set back to `early` and the next
      execution starts. */
  function LosingRun(id: string, request: Request, body: map<string, Json>, early: Time, late: Time): seq<Move> {
    [Move(Submit(id, request), early), Move(Pass, early),
     Move(Resume(id, Admit()), early), Move(Resume(id, Accept("x1")), early), Move(Resume(id, Admit()), early),
     Move(Resume(id, Reply(body)), early), Move(Resume(id, Admit()), early), Move(Resume(id, Admit()), late),
     Move(Resume(id, Admit()), early), Move(Resume(id, Accept("x2")), early)]
  }

  lemma ResumeMove(f: Fleet, id: string, a: Answer, at: Time)
    requires InFlight(f.queue, id)
    ensures Do(f, Move(Resume(id, a), at)) == f.(queue := Resumption(f.queue, id, a, f.limits, at))
  {
    hide RunOnce, Resumption;
  }

  /** After four moves the first execution has started. */
  lemma FirstHalf(limits: Limits, id: string, request: Request, body: map<string, Json>, early: Time, late: Time)
    requires id != "" && request.pipeline != Scoped && early <= late
    ensures var f := Run(Start(1, {}, limits), LosingRun(id, request, body, early, late)[..4]);
            && f.limits == limits && UnderWay(f.queue, id, request, late)
            && f.queue.tasks[id].phase.Announcing? && f.queue.tasks[id].record.state == Planning
            && f.queue.tasks[id].record.executionId == "x1"
  {
    hide Do, RunOnce, Resumption, UnderWay, Shows, Start;
    var moves, f0 := LosingRun(id, request, body, early, late), Start(1, {}, limits);
    RunAt(f0, moves, 0);
    FirstSubmit(limits, id, request, early);
    RunAt(f0, moves, 1);
    PassMove(FirstBuild(limits, id, request, early), early);
    DispatchStage(limits, id, request, early, late);
    var f2 := Run(f0, moves[..2]);
    RunAt(f0, moves, 2);
    Flies(f2.queue, id, request, late);
    ResumeMove(f2, id, Admit(), early);
    AdmissionStage(f2.queue, id, request, limits, early, late, true);
    var f3 := Run(f0, moves[..3]);
    RunAt(f0, moves, 3);
    Flies(f3.queue, id, request, late);
    ResumeMove(f3, id, Accept("x1"), early);
    AcceptanceStage(f3.queue, id, request, "x1", limits, early, late, true);
  }

  lemma PassMove(f: Fleet, at: Time)
    ensures Do(f, Move(Pass, at)) == f.(queue := RunOnce(f.queue, at))
  {
    hide RunOnce, Resumption;
  }

  lemma Flies(q: Queue, id: string, request: Request, late: Time)
    requires UnderWay(q, id, request, late)
    ensures InFlight(q, id)
  {
  }

  /** After eight it has been given up. */
  lemma SecondHalf(limits: Limits, id: string, request: Request, body: map<string, Json>, early: Time, late: Time)
    requires id != "" && request.pipeline != Scoped && early < late && Casualty(body)
    ensures var f := Run(Start(1, {}, limits), LosingRun(id, request, body, early, late)[..8]);
            && f.limits == limits && UnderWay(f.queue, id, request, late) && Shows(f.queue, id, "", early, false)
            && f.queue.tasks[id].phase.RetryNap?
  {
    hide Do, Resumption, UnderWay, Shows, Start, Casualty, RetryableStop;
    var moves, f0 := LosingRun(id, request, body, early, late), Start(1, {}, limits);
    FirstHalf(limits, id, request, body, early, late);
    var f4 := Run(f0, moves[..4]);
    RunAt(f0, moves, 4);
    Flies(f4.queue, id, request, late);
    ResumeMove(f4, id, Admit(), early);
    PollStage(f4.queue, id, request, "x1", limits, early, late);
    var f5 := Run(f0, moves[..5]);
    RunAt(f0, moves, 5);
    Flies(f5.queue, id, request, late);
    ResumeMove(f5, id, Reply(body), early);
    CasualtyStage(f5.queue, id, request, body, limits, early, late);
    var f6 := Run(f0, moves[..6]);
    RunAt(f0, moves, 6);
    Flies(f6.queue, id, request, late);
    ResumeMove(f6, id, Admit(), early);
    ReportStage(f6.queue, id, request, limits, early, late);
    var f7 := Run(f0, moves[..7]);
    RunAt(f0, moves, 7);
    Flies(f7.queue, id, request, late);
    ResumeMove(f7, id, Admit(), late);
    RetryStage(f7.queue, id, request, limits, early, late);
  }

  lemma LastMoves(limits: Limits, id: string, request: Request, body: map<string, Json>, early: Time, late: Time)
    requires id != "" && request.pipeline != Scoped && early < late && Casualty(body)
    ensures var f := Run(Start(1, {}, limits), LosingRun(id, request, body, early, late));
            && f.limits == limits && UnderWay(f.queue, id, request, late) && Shows(f.queue, id, "", early, false)
            && f.queue.tasks[id].phase.Announcing? && f.queue.tasks[id].record.executionId == "x2"
            && Outstanding(f.queue.log, id) == "x2"
  {
    hide Do, Resumption, UnderWay, Shows, Start, Casualty;
    var moves, f0 := LosingRun(id, request, body, early, late), Start(1, {}, limits);
    SecondHalf(limits, id, request, body, early, late);
    var f8 := Run(f0, moves[..8]);
    RunAt(f0, moves, 8);
    Flies(f8.queue, id, request, late);
    ResumeMove(f8, id, Admit(), early);
    AdmissionStage(f8.queue, id, request, limits, early, late, false);
    var f9 := Run(f0, moves[..9]);
    RunAt(f0, moves, 9);
    Flies(f9.queue, id, request, late);
    ResumeMove(f9, id, Accept("x2"), early);
    AcceptanceStage(f9.queue, id, request, "x2", limits, early, late, false);
    assert moves[..10] == moves;
  }

  /** Execution `x2` is running, its task monitors it and its start was written last; but the log as read shows none. So
      after a crash the build is dispatched again and submitted a third time. */
  lemma ExecutionCanBeLost(limits: Limits, id: string, request: Request, body: map<string, Json>, early: Time, late: Time,
                           at: Time)
    requires id != "" && request.pipeline != Scoped && early < late && Casualty(body)
    ensures var q := Run(Start(1, {}, limits), LosingRun(id, request, body, early, late)).queue;
            && id in q.tasks && Monitored(q.tasks[id].phase) && q.tasks[id].record.executionId == "x2"
            && Outstanding(q.log, id) == "x2" && Outstanding(ByTime(q.log), id) == ""
            && var q2 := Revived(q, 1, {}, limits, at);
               id in q2.tasks && BuildSubmitted in FirstStretch(q2, id, Admit(), limits, at).out
  {
    hide Run, Revived, FirstStretch, Start, Casualty, ByTime, Outstanding, NoneLater;
    var q := Run(Start(1, {}, limits), LosingRun(id, request, body, early, late)).queue;
    LastMoves(limits, id, request, body, early, late);
    RevivedAgain(q, id, request, limits, at, late);
    FirstStretchReads(q, 1, {}, limits, at, id, Admit());
  }

  lemma RevivedAgain(q: Queue, id: string, request: Request, limits: Limits, at: Time, late: Time)
    requires UnderWay(q, id, request, late)
    ensures var q2 := Revived(q, 1, {}, limits, at); id in q2.tasks && q2.tasks[id].request == request
  {
    hide RunOnce, ByTime, NoneLater, ControlState, Resumption, SnapshotOf;
    var q1 := Stepped(q, Restart(1, {}), limits, at);
    RestartForgetsTasks(q, 1, {}, limits, at);
    assert Tracks(q.log, q.unreadable, id, q.tasks[id]);
    OnlyBuildIsDispatched(q1, id, at);
    EndsAppend(q1.log, RunOnce(q1, at).log);
    RequestBeside(q1.log, RunOnce(q1, at).log[|q1.log|..], id);
  }

  lemma LowerCaseStays(s: string)
    requires forall c :: c in s ==> !('A' <= c <= 'Z')
    ensures Lower(s) == s
  {
    assert forall i :: 0 <= i < |s| ==> s[i] in s && Lower(s)[i] == LowerChar(s[i]);
  }

  lemma MarkerIsLowerCase()
    ensures Lower(MARKERS[0]) == MARKERS[0]
  {
    LowerCaseStays(MARKERS[0]);
  }

  function Cancellation(): map<string, Json> {
    map["status" := Str("cancelled"), "error" := Str(MARKERS[0])]
  }

  lemma CancellationReads()
    ensures ReportedState(Cancellation()) == Some(Stopped)
    ensures Get(Cancellation(), "error") == Str(MARKERS[0]) && Get(Cancellation(), "status_reason") == Null
    ensures ResultOf(Cancellation()) == Obj(map[])
  {
    LowerCaseStays("cancelled");
    assert Get(Cancellation(), "status") == Str("cancelled");
  }

  /** There are such answers. */
  lemma CancellationIsCasualty()
    ensures Casualty(Cancellation())
  {
    hide Cancellation, ReportedState, ResultOf, Lower;
    var body, u := Cancellation(), Updated(Blank(0.0), Cancellation(), 0.0);
    CancellationReads();
    MarkerIsLowerCase();
    UpdatedFields(Blank(0.0), body, 0.0);
    ErrorTaken(body, MARKERS[0]);
    assert OccursAt(MARKERS[0], 0, MARKERS[0]);
  }

  /** A response whose only reason is one short error text. */
  lemma ErrorTaken(body: map<string, Json>, why: string)
    requires Get(body, "error") == Str(why) && Get(body, "status_reason") == Null && ResultOf(body) == Obj(map[])
    requires 0 < |why| <= 400
    ensures Updated(Blank(0.0), body, 0.0).error == why
  {
    hide ReportedState, ResultOf, StatusText, ReportsSuccess, WithOutcome, WithProgress;
    var parts := [Str(why), Null, Null];
    FilterSnoc([], Str(why));
    FilterSnoc([] + [Str(why)], Null);
    FilterSnoc([] + [Str(why)] + [Null], Null);
    assert parts == [] + [Str(why)] + [Null] + [Null];
    assert [] + [Str(why)] == [Str(why)];
  }

  lemma FilterSnoc(s: seq<Json>, v: Json)
    ensures Filter(s + [v], Truthy) == Filter(s, Truthy) + if Truthy(v) then [v] else []
  {
    assert (s + [v])[..|s|] == s;
  }
}
