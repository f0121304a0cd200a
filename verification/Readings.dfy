/** Which questions about the log depend on the order it is read in, and on the stamps of which events. */
module Readings {
  import opened Common
  import opened EventLog
  import opened Builds
  import opened BuildTask
  import opened Scheduler
  import opened LogLaws

  // -- what no clock can change ----------------------------------------------------------------

  lemma {:induction false} InsertFacts(es: seq<Event>, e: Event, id: string)
    ensures var r := InsertByTime(es, e);
            && (HasTerminal(r, id) <==> HasTerminal(es, id) || (e.buildId == id && e.payload.BuildTerminal?))
            && (Enqueued(r, id) <==> Enqueued(es, id) || IsEnqueue(e, id))
            && (Submitted(r, id) <==> Submitted(es, id) || (e.buildId == id && e.payload.BuildSubmitted?))
            && (Started(r, id) <==> Started(es, id) || StartOf(e, id))
  {
    if es != [] && es[|es| - 1].ts > e.ts {
      var init, last := es[..|es| - 1], es[|es| - 1];
      InsertFacts(init, e, id);
      FactsSnoc(InsertByTime(init, e), last, id);
    } else {
      FactsSnoc(es, e, id);
    }
  }

  lemma FactsSnoc(es: seq<Event>, e: Event, id: string)
    ensures var r := es + [e];
            && (HasTerminal(r, id) <==> HasTerminal(es, id) || (e.buildId == id && e.payload.BuildTerminal?))
            && (Enqueued(r, id) <==> Enqueued(es, id) || IsEnqueue(e, id))
            && (Submitted(r, id) <==> Submitted(es, id) || (e.buildId == id && e.payload.BuildSubmitted?))
            && (Started(r, id) <==> Started(es, id) || StartOf(e, id))
  {
    assert (es + [e])[..|es|] == es;
  }

  /** Whether a build was queued, submitted, started or ended does not depend on the order of reading. */
  lemma {:induction false} OrderFree(log: seq<Event>, id: string)
    ensures HasTerminal(ByTime(log), id) <==> HasTerminal(log, id)
    ensures Enqueued(ByTime(log), id) <==> Enqueued(log, id)
    ensures Submitted(ByTime(log), id) <==> Submitted(log, id)
    ensures Started(ByTime(log), id) <==> Started(log, id)
  {
    hide InsertByTime;
    if log != [] {
      var init, e := log[..|log| - 1], log[|log| - 1];
      OrderFree(init, id);
      InsertFacts(ByTime(init), e, id);
    }
  }

  lemma TerminalOrderFree(log: seq<Event>)
    ensures forall id :: HasTerminal(ByTime(log), id) <==> HasTerminal(log, id)
  {
    forall id ensures HasTerminal(ByTime(log), id) <==> HasTerminal(log, id) {
      OrderFree(log, id);
    }
  }

  /** No build is queued twice. */
  ghost predicate QueuedOnce(es: seq<Event>) {
    es == []
    || (QueuedOnce(es[..|es| - 1])
        && (es[|es| - 1].payload.BuildEnqueued? ==> !Enqueued(es[..|es| - 1], es[|es| - 1].buildId)))
  }

  lemma QueuedOnceSnoc(es: seq<Event>, e: Event)
    ensures QueuedOnce(es + [e]) <==> QueuedOnce(es) && (e.payload.BuildEnqueued? ==> !Enqueued(es, e.buildId))
  {
    assert (es + [e])[..|es|] == es;
  }

  lemma {:induction false} InsertQueuedOnce(es: seq<Event>, e: Event)
    requires QueuedOnce(es) && (e.payload.BuildEnqueued? ==> !Enqueued(es, e.buildId))
    ensures QueuedOnce(InsertByTime(es, e))
  {
    if es != [] && es[|es| - 1].ts > e.ts {
      var init, last := es[..|es| - 1], es[|es| - 1];
      InsertQueuedOnce(init, e);
      InsertFacts(init, e, last.buildId);
      QueuedOnceSnoc(InsertByTime(init, e), last);
    } else {
      QueuedOnceSnoc(es, e);
    }
  }

  lemma {:induction false} ReadQueuedOnce(log: seq<Event>)
    requires Proper(log)
    ensures QueuedOnce(ByTime(log))
  {
    hide InsertByTime;
    if log != [] {
      var init, e := log[..|log| - 1], log[|log| - 1];
      ReadQueuedOnce(init);
      OrderFree(init, e.buildId);
      InsertQueuedOnce(ByTime(init), e);
    }
  }

  // -- what depends on the order of one topic -----------------------------------------------------

  lemma {:induction false} ControlFromSignals(es: seq<Event>, id: string)
    ensures ControlState(es, id) == ControlState(Select(es, SignalsOf(id)), id)
  {
    if es != [] {
      var init, e := es[..|es| - 1], es[|es| - 1];
      ControlFromSignals(init, id);
      if Covers(SignalsOf(id), e) {
        assert (Select(init, SignalsOf(id)) + [e])[..|Select(init, SignalsOf(id))|] == Select(init, SignalsOf(id));
      }
    }
  }

  lemma {:induction false} OutstandingFromExecutions(es: seq<Event>, id: string)
    ensures Outstanding(es, id) == Outstanding(Select(es, ExecutionOf(id)), id)
  {
    if es != [] {
      OutstandingFromExecutions(es[..|es| - 1], id);
    }
  }

  /** The last event that sets a build's state on replay. */
  function LastWord(es: seq<Event>, id: string): Option<Payload> {
    if es == [] then None
    else if Covers(StatesOf(id), es[|es| - 1]) then Some(es[|es| - 1].payload)
    else LastWord(es[..|es| - 1], id)
  }

  function StateIn(es: seq<Event>, id: string): BuildState {
    match LastWord(es, id)
    case None => Queued
    case Some(p) =>
      match p
      case BuildStatus(state, _, _) => state
      case BuildTerminal(d) => d.state
      case BuildStopped => Stopped
      case BuildPaused => Paused
      case BuildResumed => Executing
      case _ => Queued
  }

  /** What the log says last about a build's progress, if it says anything. */
  function DetailIn(es: seq<Event>, id: string): string {
    if es == [] then ""
    else
      var e, before := es[|es| - 1], DetailIn(es[..|es| - 1], id);
      if e.buildId != id then before
      else
        match e.payload
        case BuildStatus(_, detail, _) => if detail == "" then before else detail
        case BuildTerminal(d) => d.phaseDetail
        case InfrastructureRetry(_, _) => RETRY_DETAIL
        case _ => before
  }

  /** The pull request it names last. */
  function UrlIn(es: seq<Event>, id: string): string {
    if es == [] then ""
    else
      var e, before := es[|es| - 1], UrlIn(es[..|es| - 1], id);
      if e.buildId != id then before
      else
        match e.payload
        case BuildStatus(_, _, url) => if url == "" then before else url
        case BuildTerminal(d) => d.prUrl
        case _ => before
  }

  /** The error it ended with, unless it was resubmitted since. */
  function ErrorIn(es: seq<Event>, id: string): string {
    if es == [] then ""
    else
      var e, before := es[|es| - 1], ErrorIn(es[..|es| - 1], id);
      if e.buildId == id && e.payload.BuildTerminal? then e.payload.detail.error
      else if e.buildId == id && e.payload.InfrastructureRetry? then ""
      else before
  }

  /** A rebuilt record holds, field by field, what the log says last about that field. */
  lemma {:induction false} ReplayIsLatest(es: seq<Event>, id: string, now: real)
    ensures var r := Replay(es, id, now);
            && r.state == StateIn(es, id) && r.phaseDetail == DetailIn(es, id)
            && r.prUrl == UrlIn(es, id) && r.error == ErrorIn(es, id)
  {
    if es != [] {
      ReplayIsLatest(es[..|es| - 1], id, now);
    }
  }

  /** What a status says is what the log says last, as far as it says anything. */
  lemma {:induction false} StatusSays(es: seq<Event>, id: string, state: BuildState, detail: string, url: string)
    requires LastWord(es, id) == Some(BuildStatus(state, detail, url))
    ensures detail != "" ==> DetailIn(es, id) == detail
    ensures url != "" ==> UrlIn(es, id) == url
  {
    if es != [] && !Covers(StatesOf(id), es[|es| - 1]) {
      StatusSays(es[..|es| - 1], id, state, detail, url);
    }
  }

  /** A terminal event that is the last word on a build says everything. */
  lemma {:induction false} EndingSays(es: seq<Event>, id: string, d: Detail)
    requires LastWord(es, id) == Some(BuildTerminal(d))
    ensures DetailIn(es, id) == d.phaseDetail && UrlIn(es, id) == d.prUrl && ErrorIn(es, id) == d.error
  {
    if es != [] && !Covers(StatesOf(id), es[|es| - 1]) {
      EndingSays(es[..|es| - 1], id, d);
    }
  }

  lemma {:induction false} WordFromStates(es: seq<Event>, id: string)
    ensures LastWord(es, id) == LastWord(Select(es, StatesOf(id)), id)
  {
    if es != [] {
      WordFromStates(es[..|es| - 1], id);
    }
  }

  lemma {:induction false} DetailFromEndings(es: seq<Event>, id: string)
    ensures TerminalDetail(es, id) == TerminalDetail(Select(es, EndingsOf(id)), id)
  {
    if es != [] {
      DetailFromEndings(es[..|es| - 1], id);
    }
  }

  lemma {:induction false} RequestFromItems(es: seq<Event>, id: string)
    ensures RequestOf(es, id) == RequestOf(Select(es, ItemsOf(id)), id)
  {
    if es != [] {
      RequestFromItems(es[..|es| - 1], id);
    }
  }

  lemma {:induction false} PendingFromItems(part: seq<Event>, all: seq<Event>, unreadable: set<string>)
    ensures PendingIn(part, all, unreadable) == PendingIn(Select(part, QueueItems), all, unreadable)
  {
    if part != [] {
      var init, e := part[..|part| - 1], part[|part| - 1];
      PendingFromItems(init, all, unreadable);
      if Covers(QueueItems, e) {
        assert (Select(init, QueueItems) + [e])[..|Select(init, QueueItems)|] == Select(init, QueueItems);
      }
    }
  }

  /** Events of other topics change nothing about a topic, wherever their stamps put them. */
  lemma ReadBeside(log: seq<Event>, ext: seq<Event>, topic: Topic)
    requires forall e :: e in ext ==> !Covers(topic, e)
    ensures Select(ByTime(log + ext), topic) == Select(ByTime(log), topic)
  {
    hide Covers;
    SelectByTime(log, topic);
    SelectByTime(log + ext, topic);
    SelectConcat(log, ext, topic);
    SelectNone(ext, topic);
    assert Select(log, topic) + [] == Select(log, topic);
  }

  lemma ControlBeside(log: seq<Event>, ext: seq<Event>, id: string)
    requires forall e :: e in ext ==> !Covers(SignalsOf(id), e)
    ensures ControlState(ByTime(log + ext), id) == ControlState(ByTime(log), id)
  {
    hide Covers;
    ReadBeside(log, ext, SignalsOf(id));
    ControlFromSignals(ByTime(log), id);
    ControlFromSignals(ByTime(log + ext), id);
  }

  lemma WordBeside(log: seq<Event>, ext: seq<Event>, id: string)
    requires forall e :: e in ext ==> !Covers(StatesOf(id), e)
    ensures LastWord(ByTime(log + ext), id) == LastWord(ByTime(log), id)
  {
    hide Covers;
    ReadBeside(log, ext, StatesOf(id));
    WordFromStates(ByTime(log), id);
    WordFromStates(ByTime(log + ext), id);
  }

  lemma ReadOutstanding(log: seq<Event>, id: string)
    requires InOrder(log, ExecutionOf(id))
    ensures Outstanding(ByTime(log), id) == Outstanding(log, id)
  {
    hide Covers;
    ReadInOrderIff(log, ExecutionOf(id));
    OutstandingFromExecutions(log, id);
    OutstandingFromExecutions(ByTime(log), id);
  }

  lemma ReadWord(log: seq<Event>, id: string)
    requires InOrder(log, StatesOf(id))
    ensures LastWord(ByTime(log), id) == LastWord(log, id)
  {
    hide Covers;
    ReadInOrderIff(log, StatesOf(id));
    WordFromStates(log, id);
    WordFromStates(ByTime(log), id);
  }

  // -- when a signal counts, and which execution a restart finds -----------------------------------

  function SignalAsks(p: Payload): Control {
    match p
    case ControlStop => Stopping
    case ControlPause => Pausing
    case _ => Running
  }

  /** What the last of some control signals asks. */
  function LastControl(signals: seq<Event>): Control {
    if signals == [] then Running else SignalAsks(signals[|signals| - 1].payload)
  }

  /** The execution the last of some starts and retries leaves outstanding. */
  function LastExecution(es: seq<Event>): string {
    if es == [] || !es[|es| - 1].payload.BuildStarted? then "" else es[|es| - 1].payload.executionId
  }

  lemma LastSignalCounts(es: seq<Event>, id: string)
    ensures ControlState(es, id) == LastControl(Select(es, SignalsOf(id)))
  {
    ControlFromSignals(es, id);
    LastSelected(es, SignalsOf(id));
  }

  lemma LastExecutionCounts(es: seq<Event>, id: string)
    ensures Outstanding(es, id) == LastExecution(Select(es, ExecutionOf(id)))
  {
    OutstandingFromExecutions(es, id);
    LastSelected(es, ExecutionOf(id));
  }

  lemma {:induction false} LastSelected(es: seq<Event>, topic: Topic)
    ensures var s := Select(es, topic); s != [] ==> Covers(topic, s[|s| - 1])
  {
    hide Covers;
    if es != [] {
      LastSelected(es[..|es| - 1], topic);
    }
  }

  lemma ReadLastIsUnique(log: seq<Event>, topic: Topic, j: nat, k: nat)
    requires ReadLast(log, topic, j) && ReadLast(log, topic, k)
    ensures j == k
  {
  }

  /** An owner's stop is in force iff it is the signal with the latest stamp, the later written among equals; when it was
      written does not count. */
  lemma StopInForceIff(log: seq<Event>, id: string)
    ensures ControlState(ByTime(log), id) == Stopping <==>
            exists k: nat :: ReadLast(log, SignalsOf(id), k) && log[k].payload.ControlStop?
  {
    hide Covers, ReadLast;
    var topic := SignalsOf(id);
    SelectByTime(log, topic);
    LastSignalCounts(ByTime(log), id);
    if Select(log, topic) != [] {
      var k := LastRead(log, topic);
      forall j: nat | ReadLast(log, topic, j) ensures j == k {
        ReadLastIsUnique(log, topic, j, k);
      }
    } else {
      NothingReadLast(log, topic);
    }
  }

  lemma NothingReadLast(log: seq<Event>, topic: Topic)
    requires Select(log, topic) == []
    ensures forall k: nat :: !ReadLast(log, topic, k)
    ensures ByTime(Select(log, topic)) == []
  {
    NothingSelected(log, topic);
  }

  /** The log shows an execution as outstanding iff its start is, among the starts and retries of the build, the event
      with the latest stamp, the later written among equals. */
  lemma OutstandingIff(log: seq<Event>, id: string, x: string)
    requires x != ""
    ensures Outstanding(ByTime(log), id) == x <==>
            exists k: nat :: ReadLast(log, ExecutionOf(id), k) && log[k].payload == BuildStarted(x)
  {
    hide Covers, ReadLast;
    var topic := ExecutionOf(id);
    SelectByTime(log, topic);
    LastExecutionCounts(ByTime(log), id);
    if Select(log, topic) != [] {
      var k := LastRead(log, topic);
      forall j: nat | ReadLast(log, topic, j) ensures j == k {
        ReadLastIsUnique(log, topic, j, k);
      }
    } else {
      NothingReadLast(log, topic);
    }
  }

  /** No event of the topic is stamped later than `now`. */
  predicate NoneLater(log: seq<Event>, topic: Topic, now: Time) {
    log == [] || (NoneLater(log[..|log| - 1], topic, now) && (Covers(topic, log[|log| - 1]) ==> log[|log| - 1].ts <= now))
  }

  lemma {:induction false} NoneLaterMeans(log: seq<Event>, topic: Topic, now: Time)
    ensures NoneLater(log, topic, now) <==> forall k :: 0 <= k < |log| && Covers(topic, log[k]) ==> log[k].ts <= now
  {
    hide Covers;
    if log != [] {
      var init := log[..|log| - 1];
      NoneLaterMeans(init, topic, now);
      assert forall k :: 0 <= k < |init| ==> init[k] == log[k];
    }
  }

  lemma ReadNothing()
    ensures ByTime([]) == []
  {
  }

  /** What is read last once one more event of the topic was written. */
  lemma ReadLastAfter(log: seq<Event>, e: Event, topic: Topic)
    requires Covers(topic, e)
    ensures var r, r0 := Select(ByTime(log + [e]), topic), Select(ByTime(log), topic);
            && r != []
            && (r0 == [] ==> NoneLater(log, topic, e.ts))
            && (NoneLater(log, topic, e.ts) ==> r[|r| - 1] == e)
            && (!NoneLater(log, topic, e.ts) ==> r0 != [] && r[|r| - 1] == r0[|r0| - 1])
  {
    hide Covers, ByTime, ReadLast;
    var s := Select(log, topic);
    SelectByTime(log, topic);
    SelectByTime(log + [e], topic);
    SelectSnoc(log, e, topic);
    if s == [] {
      NothingSelected(log, topic);
      NoneLaterMeans(log, topic, e.ts);
      assert s + [e] == [e];
      ReadOne(e);
      ReadNothing();
    } else {
      var k := LastRead(log, topic);
      InsertedLast(s, e);
      LatestStamp(log, topic, k, e.ts);
    }
  }

  /** What only depends on the last event. */
  lemma SameLast(r: seq<Event>, r0: seq<Event>, e: Event, newest: bool)
    requires r != [] && r[|r| - 1] == if newest || r0 == [] then e else r0[|r0| - 1]
    ensures LastControl(r) == if newest || r0 == [] then SignalAsks(e.payload) else LastControl(r0)
    ensures e.payload.BuildStarted? ==>
              LastExecution(r) == if newest || r0 == [] then e.payload.executionId else LastExecution(r0)
  {
  }

  /** What the last event says once one more event of the topic was written. */
  lemma LastAfter(log: seq<Event>, e: Event, topic: Topic)
    requires Covers(topic, e)
    ensures LastControl(Select(ByTime(log + [e]), topic)) ==
            if NoneLater(log, topic, e.ts) then SignalAsks(e.payload) else LastControl(Select(ByTime(log), topic))
    ensures e.payload.BuildStarted? ==>
              LastExecution(Select(ByTime(log + [e]), topic)) ==
              if NoneLater(log, topic, e.ts) then e.payload.executionId else LastExecution(Select(ByTime(log), topic))
  {
    hide Covers, ByTime, NoneLater, Select, LastControl, LastExecution;
    ReadLastAfter(log, e, topic);
    SameLast(Select(ByTime(log + [e]), topic), Select(ByTime(log), topic), e, NoneLater(log, topic, e.ts));
  }

  lemma LatestStamp(log: seq<Event>, topic: Topic, k: nat, now: Time)
    requires ReadLast(log, topic, k)
    ensures NoneLater(log, topic, now) <==> log[k].ts <= now
  {
    NoneLaterMeans(log, topic, now);
  }

  /** A signal written at `now` takes effect iff no signal of the build carries a later stamp; otherwise it changes
      nothing. */
  lemma SignalEffect(log: seq<Event>, id: string, p: Payload, now: Time)
    requires IsControl(p)
    ensures ControlState(ByTime(log + [Event(now, id, p)]), id) ==
            if NoneLater(log, SignalsOf(id), now) then SignalAsks(p) else ControlState(ByTime(log), id)
  {
    var e := Event(now, id, p);
    assert Covers(SignalsOf(id), e);
    hide Covers, ControlState, ByTime, NoneLater, Select, LastControl, IsControl;
    LastAfter(log, e, SignalsOf(id));
    LastSignalCounts(ByTime(log), id);
    LastSignalCounts(ByTime(log + [e]), id);
  }

  /** An execution started at `now` is the one a restart finds iff no start or retry of the build carries a later
      stamp; otherwise a restart finds what it would have found before. */
  lemma StartEffect(log: seq<Event>, id: string, x: string, now: Time)
    ensures Outstanding(ByTime(log + [Event(now, id, BuildStarted(x))]), id) ==
            if NoneLater(log, ExecutionOf(id), now) then x else Outstanding(ByTime(log), id)
  {
    var e := Event(now, id, BuildStarted(x));
    assert Covers(ExecutionOf(id), e);
    hide Covers, Outstanding, ByTime, NoneLater, Select, LastExecution;
    LastAfter(log, e, ExecutionOf(id));
    LastExecutionCounts(ByTime(log), id);
    LastExecutionCounts(ByTime(log + [e]), id);
  }
}
