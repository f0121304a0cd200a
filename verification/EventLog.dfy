/** The append-only event log and the values its events carry. */
module EventLog {
  import opened Common
  import RoutingPolicy

  datatype BuildState =
    | Queued | Planning | Executing | Verifying | Gating
    | Complete | Failed | Paused | Stopped | Blocked
  {
    predicate Terminal() {
      Complete? || Failed? || Stopped? || Blocked?
    }
  }

  /** Which pipeline a queue item asked for. */
  datatype Pipeline = Scoped | Fast | Full

  datatype Request = Request(goal: string, repoUrl: string, pipeline: Pipeline, maxHours: real,
                             policy: RoutingPolicy.Policy)

  /** What a terminal event stores about a build. Elapsed and stalled seconds are presentation and left out. */
  datatype Detail = Detail(state: BuildState, executionId: string, phaseDetail: string, prUrl: string, error: string)

  datatype Payload =
    | BuildEnqueued(request: Request)
    | BuildTerminal(detail: Detail)
    | InfrastructureRetry(priorExecutionId: string, reason: string)
    | BuildSubmitted
    | BuildStarted(executionId: string)
    | BuildBlocked(why: string)
    | BuildStatus(state: BuildState, phaseDetail: string, prUrl: string)
    | BuildPaused
    | BuildResumed
    | BuildStopped
    | DeadlineExceeded
    | NoProgressTimeout
    | ControlPause
    | ControlResume
    | ControlStop
    | RateLimited(runtime: Runtime)
    | RateLimitCleared(runtime: Runtime)
    | Unrelated(note: string)

  /** `buildId == ""` stands for an event that belongs to no build. */
  datatype Event = Event(ts: Time, buildId: string, payload: Payload)

  predicate IsControl(p: Payload) {
    p.ControlPause? || p.ControlResume? || p.ControlStop?
  }

  /** Timestamps never step back along the log. */
  ghost predicate Monotone(log: seq<Event>) {
    |log| < 2 || (log[|log| - 2].ts <= log[|log| - 1].ts && Monotone(log[..|log| - 1]))
  }

  lemma {:induction false} MonotoneMeans(log: seq<Event>, i: nat, j: nat)
    requires Monotone(log) && i <= j < |log|
    ensures log[i].ts <= log[j].ts
  {
    if j < |log| - 1 {
      MonotoneMeans(log[..|log| - 1], i, j);
    } else if i < j {
      MonotoneMeans(log[..|log| - 1], i, j - 1);
    }
  }

  /** `e` placed after every event that is not later than it. */
  function InsertByTime(es: seq<Event>, e: Event): seq<Event> {
    if es == [] || es[|es| - 1].ts <= e.ts then es + [e]
    else InsertByTime(es[..|es| - 1], e) + [es[|es| - 1]]
  }

  /** The order in which the ledger reads events back: by timestamp, insertion order among equals. */
  function ByTime(log: seq<Event>): seq<Event> {
    if log == [] then [] else InsertByTime(ByTime(log[..|log| - 1]), log[|log| - 1])
  }

  lemma MonotoneSnoc(es: seq<Event>, e: Event)
    ensures Monotone(es + [e]) <==> Monotone(es) && (es == [] || es[|es| - 1].ts <= e.ts)
  {
    assert (es + [e])[..|es|] == es;
  }

  lemma {:induction false} InsertKeepsOrder(es: seq<Event>, e: Event)
    requires Monotone(es)
    ensures var r := InsertByTime(es, e);
            && Monotone(r) && r != []
            && r[|r| - 1] == if es == [] || es[|es| - 1].ts <= e.ts then e else es[|es| - 1]
  {
    hide Monotone;
    if es == [] || es[|es| - 1].ts <= e.ts {
      MonotoneSnoc(es, e);
    } else {
      var init, last := es[..|es| - 1], es[|es| - 1];
      assert es == init + [last];
      MonotoneSnoc(init, last);
      InsertKeepsOrder(init, e);
      MonotoneSnoc(InsertByTime(init, e), last);
    }
  }

  lemma {:induction false} InsertKeepsEvents(es: seq<Event>, e: Event)
    ensures multiset(InsertByTime(es, e)) == multiset(es) + multiset{e}
  {
    if es != [] && es[|es| - 1].ts > e.ts {
      InsertKeepsEvents(es[..|es| - 1], e);
      assert es == es[..|es| - 1] + [es[|es| - 1]];
    }
  }

  lemma {:induction false} ReadIsMonotone(log: seq<Event>)
    ensures Monotone(ByTime(log))
  {
    if log != [] {
      ReadIsMonotone(log[..|log| - 1]);
      InsertKeepsOrder(ByTime(log[..|log| - 1]), log[|log| - 1]);
    }
  }

  lemma {:induction false} ReadKeepsEvents(log: seq<Event>)
    ensures multiset(ByTime(log)) == multiset(log)
  {
    if log != [] {
      var init, last := log[..|log| - 1], log[|log| - 1];
      assert log == init + [last];
      ReadKeepsEvents(init);
      InsertKeepsEvents(ByTime(init), last);
    }
  }

  /** Reading back is sorted by time, whatever the clock did, and loses nothing. */
  lemma ByTimeSorted(log: seq<Event>)
    ensures forall i, j :: 0 <= i <= j < |ByTime(log)| ==> ByTime(log)[i].ts <= ByTime(log)[j].ts
    ensures multiset(ByTime(log)) == multiset(log)
  {
    ReadKeepsEvents(log);
    ReadIsMonotone(log);
    forall i, j | 0 <= i <= j < |ByTime(log)| ensures ByTime(log)[i].ts <= ByTime(log)[j].ts {
      MonotoneMeans(ByTime(log), i, j);
    }
  }

  lemma InsertLast(es: seq<Event>, e: Event)
    requires es == [] || es[|es| - 1].ts <= e.ts
    ensures InsertByTime(es, e) == es + [e]
  {
  }

  /** Events are read in the order they were written iff no stamp steps back. */
  lemma {:induction false} ByTimeIffMonotone(log: seq<Event>)
    ensures ByTime(log) == log <==> Monotone(log)
  {
    ReadIsMonotone(log);
    if log != [] && Monotone(log) {
      var init, last := log[..|log| - 1], log[|log| - 1];
      ByTimeIffMonotone(init);
      InsertLast(init, last);
      assert log == init + [last];
    }
  }

  // -- parts of the log ---------------------------------------------------------------------

  /** The events one question about the log is answered from. */
  datatype Topic =
    | SignalsOf(id: string)     // the control signals of a build
    | ExecutionOf(id: string)   // its executions started and given up
    | StatesOf(id: string)      // what sets its state on replay
    | ItemsOf(id: string)       // its queue items
    | EndingsOf(id: string)     // its terminal events
    | QueueItems                // the queue items of every build
    | Stamped(at: Time)         // what was written at one instant

  predicate Covers(topic: Topic, e: Event) {
    match topic
    case SignalsOf(id) => e.buildId == id && IsControl(e.payload)
    case ExecutionOf(id) => e.buildId == id && (e.payload.BuildStarted? || e.payload.InfrastructureRetry?)
    case StatesOf(id) =>
      e.buildId == id
      && (e.payload.BuildStopped? || e.payload.BuildPaused? || e.payload.BuildResumed? || e.payload.BuildStatus?
          || e.payload.InfrastructureRetry? || e.payload.BuildTerminal?)
    case ItemsOf(id) => e.buildId == id && e.payload.BuildEnqueued?
    case EndingsOf(id) => e.buildId == id && e.payload.BuildTerminal?
    case QueueItems => e.payload.BuildEnqueued?
    case Stamped(at) => e.ts == at
  }

  function Select(es: seq<Event>, topic: Topic): seq<Event> {
    if es == [] then []
    else
      var rest, e := Select(es[..|es| - 1], topic), es[|es| - 1];
      if Covers(topic, e) then rest + [e] else rest
  }

  lemma SelectSnoc(es: seq<Event>, e: Event, topic: Topic)
    ensures Select(es + [e], topic) == if Covers(topic, e) then Select(es, topic) + [e] else Select(es, topic)
  {
    assert (es + [e])[..|es|] == es;
  }

  lemma {:induction false} SelectConcat(es: seq<Event>, ext: seq<Event>, topic: Topic)
    ensures Select(es + ext, topic) == Select(es, topic) + Select(ext, topic)
  {
    if ext == [] {
      assert es + ext == es;
    } else {
      var init, e := ext[..|ext| - 1], ext[|ext| - 1];
      SelectConcat(es, init, topic);
      assert es + ext == (es + init) + [e];
      SelectSnoc(es + init, e, topic);
    }
  }

  lemma {:induction false} SelectNone(es: seq<Event>, topic: Topic)
    requires forall e :: e in es ==> !Covers(topic, e)
    ensures Select(es, topic) == []
  {
    if es != [] {
      assert es[|es| - 1] in es;
      SelectNone(es[..|es| - 1], topic);
    }
  }

  lemma {:induction false} SelectNotLater(es: seq<Event>, topic: Topic)
    requires Monotone(es)
    ensures var s := Select(es, topic); s != [] ==> s[|s| - 1].ts <= es[|es| - 1].ts
  {
    if es != [] && !Covers(topic, es[|es| - 1]) {
      SelectNotLater(es[..|es| - 1], topic);
    }
  }

  lemma SelectInsertLast(es: seq<Event>, e: Event, topic: Topic)
    requires Monotone(es) && (es == [] || es[|es| - 1].ts <= e.ts)
    ensures Select(es + [e], topic) == if Covers(topic, e) then InsertByTime(Select(es, topic), e) else Select(es, topic)
  {
    hide Covers, Monotone;
    SelectSnoc(es, e, topic);
    SelectNotLater(es, topic);
    InsertLast(Select(es, topic), e);
  }

  lemma SelectInsertBefore(es: seq<Event>, last: Event, e: Event, topic: Topic)
    requires last.ts > e.ts
    requires Select(InsertByTime(es, e), topic) ==
             if Covers(topic, e) then InsertByTime(Select(es, topic), e) else Select(es, topic)
    ensures Select(InsertByTime(es + [last], e), topic) ==
            if Covers(topic, e) then InsertByTime(Select(es + [last], topic), e) else Select(es + [last], topic)
  {
    hide Covers, Select, InsertByTime;
    InsertBefore(es, last, e);
    SelectSnoc(es, last, topic);
    SelectSnoc(InsertByTime(es, e), last, topic);
    if Covers(topic, last) {
      InsertBefore(Select(es, topic), last, e);
    }
  }

  lemma {:induction false} SelectInsert(es: seq<Event>, e: Event, topic: Topic)
    requires Monotone(es)
    ensures Select(InsertByTime(es, e), topic) ==
            if Covers(topic, e) then InsertByTime(Select(es, topic), e) else Select(es, topic)
  {
    hide Covers, Select;
    if es == [] || es[|es| - 1].ts <= e.ts {
      SelectInsertLast(es, e, topic);
    } else {
      var init, last := es[..|es| - 1], es[|es| - 1];
      SelectInsert(init, e, topic);
      assert es == init + [last];
      SelectInsertBefore(init, last, e, topic);
    }
  }

  lemma InsertBefore(es: seq<Event>, last: Event, e: Event)
    requires last.ts > e.ts
    ensures InsertByTime(es + [last], e) == InsertByTime(es, e) + [last]
  {
    assert (es + [last])[..|es|] == es;
  }

  lemma ReadSnoc(log: seq<Event>, e: Event)
    ensures ByTime(log + [e]) == InsertByTime(ByTime(log), e)
  {
    assert (log + [e])[..|log|] == log;
  }

  /** Selecting what was read is reading what was selected: events of other topics play no part. */
  lemma {:induction false} SelectByTime(log: seq<Event>, topic: Topic)
    ensures Select(ByTime(log), topic) == ByTime(Select(log, topic))
  {
    hide Covers, InsertByTime;
    if log != [] {
      var init, last := log[..|log| - 1], log[|log| - 1];
      SelectByTime(init, topic);
      ReadIsMonotone(init);
      SelectInsert(ByTime(init), last, topic);
      ReadSnoc(Select(init, topic), last);
    }
  }

  /** The events of a topic are in stamp order. */
  ghost predicate InOrder(log: seq<Event>, topic: Topic) {
    Monotone(Select(log, topic))
  }

  /** A topic is read in the order it was written iff its own stamps never step back. */
  lemma ReadInOrderIff(log: seq<Event>, topic: Topic)
    ensures Select(ByTime(log), topic) == Select(log, topic) <==> InOrder(log, topic)
  {
    SelectByTime(log, topic);
    ByTimeIffMonotone(Select(log, topic));
  }

  lemma NothingInOrder()
    ensures Monotone([])
  {
  }

  lemma {:induction false} StampedInOrder(log: seq<Event>, at: Time)
    ensures InOrder(log, Stamped(at))
    ensures var s := Select(log, Stamped(at)); s != [] ==> s[|s| - 1].ts == at
  {
    hide Monotone;
    if log == [] {
      NothingInOrder();
    } else {
      var s, e := Select(log[..|log| - 1], Stamped(at)), log[|log| - 1];
      StampedInOrder(log[..|log| - 1], at);
      assert Select(log, Stamped(at)) == if e.ts == at then s + [e] else s;
      if e.ts == at {
        MonotoneSnoc(s, e);
      }
    }
  }

  /** Events of one instant are read in the order they were written. */
  lemma ByTimeIsStable(log: seq<Event>, at: Time)
    ensures Select(ByTime(log), Stamped(at)) == Select(log, Stamped(at))
  {
    StampedInOrder(log, at);
    ReadInOrderIff(log, Stamped(at));
  }

  lemma {:induction false} MonotonePrefix(s: seq<Event>, later: seq<Event>)
    requires s <= later && Monotone(later)
    ensures Monotone(s)
  {
    if |s| < |later| {
      MonotonePrefix(s, later[..|later| - 1]);
    } else {
      assert s == later;
    }
  }

  /** What is in order in a log was in order in every shorter one. */
  lemma EarlierInOrder(log: seq<Event>, later: seq<Event>, topic: Topic)
    requires log <= later && InOrder(later, topic)
    ensures InOrder(log, topic)
  {
    assert later == log + later[|log|..];
    SelectConcat(log, later[|log|..], topic);
    MonotonePrefix(Select(log, topic), Select(later, topic));
  }

  // -- the event of a topic that is read last -------------------------------------------------

  /** Event `k` is the one read last: no event of the topic has a later stamp, and none of the same stamp was written
      after it. */
  ghost predicate ReadLast(log: seq<Event>, topic: Topic, k: nat) {
    && k < |log| && Covers(topic, log[k])
    && forall j :: 0 <= j < |log| && Covers(topic, log[j]) ==> log[j].ts < log[k].ts || (log[j].ts == log[k].ts && j <= k)
  }

  lemma ReadLastSnoc(log: seq<Event>, e: Event, topic: Topic, k: nat)
    requires ReadLast(log, topic, k)
    ensures if Covers(topic, e) && log[k].ts <= e.ts then ReadLast(log + [e], topic, |log|)
            else ReadLast(log + [e], topic, k)
  {
  }

  lemma {:induction false} NothingSelected(log: seq<Event>, topic: Topic)
    ensures Select(log, topic) == [] <==> forall j :: 0 <= j < |log| ==> !Covers(topic, log[j])
  {
    if log != [] {
      NothingSelected(log[..|log| - 1], topic);
      assert forall j :: 0 <= j < |log| - 1 ==> log[..|log| - 1][j] == log[j];
    }
  }

  /** It is indeed read last. */
  lemma {:induction false} LastRead(log: seq<Event>, topic: Topic) returns (k: nat)
    requires Select(log, topic) != []
    ensures k < |log| && ReadLast(log, topic, k)
    ensures var s := ByTime(Select(log, topic)); s != [] && s[|s| - 1] == log[k]
  {
    hide Covers, InsertByTime, ReadLast, ByTime;
    var init, e := log[..|log| - 1], log[|log| - 1];
    var s := Select(init, topic);
    assert log == init + [e];
    assert Select(log, topic) == if Covers(topic, e) then s + [e] else s;
    if !Covers(topic, e) {
      k := LastRead(init, topic);
      ReadLastSnoc(init, e, topic, k);
    } else if s == [] {
      k := |init|;
      FirstRead(init, e, topic);
      assert s + [e] == [e];
      ReadOne(e);
    } else {
      var k0 := LastRead(init, topic);
      ReadLastSnoc(init, e, topic, k0);
      InsertedLast(s, e);
      k := if init[k0].ts <= e.ts then |init| else k0;
    }
  }

  lemma InsertedLast(s: seq<Event>, e: Event)
    requires s != []
    ensures var r, r0 := ByTime(s + [e]), ByTime(s);
            r != [] && r0 != [] && r[|r| - 1] == if r0[|r0| - 1].ts <= e.ts then e else r0[|r0| - 1]
  {
    hide InsertByTime;
    ReadSnoc(s, e);
    ReadIsMonotone(s);
    InsertKeepsOrder(ByTime(s), e);
    ReadKeepsEvents(s);
    assert s[0] in multiset(ByTime(s));
  }

  lemma ReadOne(e: Event)
    ensures ByTime([e]) == [e]
  {
    assert [e][..0] == [];
  }

  lemma FirstRead(log: seq<Event>, e: Event, topic: Topic)
    requires Select(log, topic) == [] && Covers(topic, e)
    ensures ReadLast(log + [e], topic, |log|)
  {
    NothingSelected(log, topic);
  }
}
