/** Dispatching a request along its chain: failover between whole answers, and failover up to the first byte of a
    stream. */
module Dispatch {
  import opened Common
  import EventLog
  import opened Failures
  import opened LedgerModel

  datatype Target = Target(backend: string, ref: string)

  /** What the ledger is told about one call; `attempt` is the position in the chain, counted from one. */
  function Record(t: Target, ok: bool, failure: Option<FailureKind>, cost: real, attempt: nat, at: Time): Call {
    Call(at, Routed(t.backend), t.ref, ok, failure, cost, attempt)
  }

  datatype Failed = Failed(target: Target, failure: Option<FailureKind>)

  datatype Note =
    | FailoverSuccess(servedBy: Target, attempts: seq<Failed>)
    | FatalFailure(attempts: seq<Failed>)
    | RouteExhausted(attempts: seq<Failed>)
    | Rediscovered
    | StreamExhausted

  /** A backend's whole answer, and when it is recorded. */
  datatype Reply = Reply(ok: bool, failure: Option<FailureKind>, cost: real, at: Time)

  datatype Outcome =
    | Served(target: Target, attempt: nat)
    | Fatal(failure: FailureKind, attempts: seq<Failed>)
    | Exhausted(attempts: seq<Failed>)

  // -- whole answers ---------------------------------------------------------------------

  /** Where the loop stands; `outcome` is set once it has returned. */
  datatype Progress = Progress(records: seq<Call>, notes: seq<Note>, attempts: seq<Failed>, outcome: Option<Outcome>)

  predicate StopsRetrying(r: Reply) {
    r.failure.Some? && r.failure.value.NonRetryable()
  }

  /** One live entry of the chain answers. */
  function Answered(p: Progress, t: Target, attempt: nat, r: Reply): Progress {
    var p1 := p.(records := p.records + [Record(t, r.ok, r.failure, r.cost, attempt, r.at)]);
    if r.ok then
      p1.(notes := p.notes + if attempt > 1 then [FailoverSuccess(t, p.attempts)] else [],
          outcome := Some(Served(t, attempt)))
    else
      var attempts := p.attempts + [Failed(t, r.failure)];
      if StopsRetrying(r) then
        p1.(attempts := attempts, notes := p.notes + [FatalFailure(attempts)],
            outcome := Some(Fatal(r.failure.value, attempts)))
      else
        p1.(attempts := attempts, notes := p.notes + if r.failure == Some(ConnectionError) then [Rediscovered] else [])
  }

  /** The loop after the first `k` entries. */
  function After(chain: seq<Target>, live: set<string>, replies: seq<Reply>, k: nat): Progress
    requires k <= |chain| == |replies|
  {
    if k == 0 then Progress([], [], [], None)
    else
      var p := After(chain, live, replies, k - 1);
      if p.outcome.Some? || chain[k - 1].backend !in live then p else Answered(p, chain[k - 1], k, replies[k - 1])
  }

  /** The first live entry whose reply ends the loop, or the length of the chain. */
  function StopAt(chain: seq<Target>, live: set<string>, replies: seq<Reply>, from: nat): (i: nat)
    requires from <= |chain| == |replies|
    ensures from <= i <= |chain|
    ensures i < |chain| ==> chain[i].backend in live && (replies[i].ok || StopsRetrying(replies[i]))
    ensures forall j :: from <= j < i && chain[j].backend in live ==> !replies[j].ok && !StopsRetrying(replies[j])
    decreases |chain| - from
  {
    if from == |chain| || (chain[from].backend in live && (replies[from].ok || StopsRetrying(replies[from]))) then from
    else StopAt(chain, live, replies, from + 1)
  }

  /** The record of entry `k`, counted from one. */
  function CallOf(chain: seq<Target>, replies: seq<Reply>, k: nat): Call
    requires 1 <= k <= |chain| == |replies|
  {
    var r := replies[k - 1];
    Record(chain[k - 1], r.ok, r.failure, r.cost, k, r.at)
  }

  /** One record per live entry among the first `k`, in chain order, numbered by position. */
  function RecordsOf(chain: seq<Target>, live: set<string>, replies: seq<Reply>, k: nat): seq<Call>
    requires k <= |chain| == |replies|
  {
    if k == 0 then []
    else
      RecordsOf(chain, live, replies, k - 1)
      + if chain[k - 1].backend in live then [CallOf(chain, replies, k)] else []
  }

  /** The live entries among the first `k`, with how each failed. */
  function FailuresOf(chain: seq<Target>, live: set<string>, replies: seq<Reply>, k: nat): seq<Failed>
    requires k <= |chain| == |replies|
  {
    if k == 0 then []
    else
      FailuresOf(chain, live, replies, k - 1)
      + if chain[k - 1].backend in live then [Failed(chain[k - 1], replies[k - 1].failure)] else []
  }

  /** How many of the first `k` entries could not be reached. */
  function Lost(chain: seq<Target>, live: set<string>, replies: seq<Reply>, k: nat): nat
    requires k <= |chain| == |replies|
  {
    if k == 0 then 0
    else
      Lost(chain, live, replies, k - 1)
      + if chain[k - 1].backend in live && replies[k - 1].failure == Some(ConnectionError) then 1 else 0
  }

  function Rediscoveries(n: nat): seq<Note> {
    seq(n, _ => Rediscovered)
  }

  lemma {:induction false} BeforeTheStop(chain: seq<Target>, live: set<string>, replies: seq<Reply>, k: nat)
    requires k <= |chain| == |replies| && k <= StopAt(chain, live, replies, 0)
    ensures var p := After(chain, live, replies, k);
            && p.outcome.None? && p.records == RecordsOf(chain, live, replies, k)
            && p.attempts == FailuresOf(chain, live, replies, k)
            && p.notes == Rediscoveries(Lost(chain, live, replies, k))
  {
    if k > 0 {
      BeforeTheStop(chain, live, replies, k - 1);
    }
  }

  lemma {:induction false} AfterTheStop(chain: seq<Target>, live: set<string>, replies: seq<Reply>, k: nat)
    requires k <= |chain| == |replies| && StopAt(chain, live, replies, 0) < k
    ensures var i := StopAt(chain, live, replies, 0);
            After(chain, live, replies, k) == Answered(After(chain, live, replies, i), chain[i], i + 1, replies[i])
  {
    var i := StopAt(chain, live, replies, 0);
    if k > i + 1 {
      AfterTheStop(chain, live, replies, k - 1);
    } else {
      BeforeTheStop(chain, live, replies, i);
    }
  }

  /** The failover protocol: backends are called in chain order, each live entry once and recorded once with its
      position, up to and including the first success or non-retryable failure and never beyond it; and that entry
      decides the outcome. Backends are looked for again once per entry that could not be reached, and what is reported
      last is the failover, or the fatal failure, with every attempt before it. */
  lemma FailoverProtocol(chain: seq<Target>, live: set<string>, replies: seq<Reply>)
    requires |chain| == |replies|
    ensures var i, p := StopAt(chain, live, replies, 0), After(chain, live, replies, |chain|);
            && p.records == RecordsOf(chain, live, replies, Min(i + 1, |chain|))
            && (i == |chain| <==> p.outcome.None?)
            && (i < |chain| && replies[i].ok ==> p.outcome == Some(Served(chain[i], i + 1)))
            && (i < |chain| && !replies[i].ok ==>
                  p.outcome == Some(Fatal(replies[i].failure.value, FailuresOf(chain, live, replies, i + 1))))
            && p.notes == Rediscoveries(Lost(chain, live, replies, i))
                          + if i == |chain| || (i == 0 && replies[i].ok) then []
                            else if replies[i].ok then [FailoverSuccess(chain[i], FailuresOf(chain, live, replies, i))]
                            else [FatalFailure(FailuresOf(chain, live, replies, i + 1))]
  {
    var i := StopAt(chain, live, replies, 0);
    BeforeTheStop(chain, live, replies, i);
    if i < |chain| {
      AfterTheStop(chain, live, replies, |chain|);
    }
  }

  /** Which failures end a request: after a live entry fails, the next one is tried unless the failure is one of these
      four. */
  lemma FailsOverIff(chain: seq<Target>, live: set<string>, replies: seq<Reply>, i: nat, kind: FailureKind)
    requires i < |chain| == |replies| && chain[i].backend in live && After(chain, live, replies, i).outcome.None?
    requires !replies[i].ok && replies[i].failure == Some(kind)
    ensures After(chain, live, replies, i + 1).outcome.None? <==>
            kind !in {AuthError, ModelNotFound, BadRequest, RequestCancelled}
  {
    NonRetryableIff(kind);
  }

  /** The record names the live entry at its position, among the first `k`, and says what it answered. */
  predicate AtItsPosition(c: Call, chain: seq<Target>, live: set<string>, replies: seq<Reply>, k: nat)
    requires |chain| == |replies|
  {
    && 1 <= c.attempt <= k <= |chain| && chain[c.attempt - 1].backend in live
    && c.source == Routed(chain[c.attempt - 1].backend) && c.modelRef == chain[c.attempt - 1].ref
    && var r := replies[c.attempt - 1];
    c.ok == r.ok && c.failureKind == r.failure && c.costUsd == r.cost && c.ts == r.at
  }

  /** Positions in the ledger only go up, so no entry is ever recorded twice. */
  lemma {:induction false} PositionsIncrease(chain: seq<Target>, live: set<string>, replies: seq<Reply>, k: nat)
    requires k <= |chain| == |replies|
    ensures var records := RecordsOf(chain, live, replies, k);
            && (forall r :: r in records ==> AtItsPosition(r, chain, live, replies, k))
            && (forall i, j :: 0 <= i < j < |records| ==> records[i].attempt < records[j].attempt)
  {
    if k > 0 {
      PositionsIncrease(chain, live, replies, k - 1);
      var before := RecordsOf(chain, live, replies, k - 1);
      var last := CallOf(chain, replies, k);
      var records := RecordsOf(chain, live, replies, k);
      assert records == before + if chain[k - 1].backend in live then [last] else [];
      forall r | r in records ensures AtItsPosition(r, chain, live, replies, k) {
        if r in before {
          assert AtItsPosition(r, chain, live, replies, k - 1);
        } else {
          assert r == last && chain[k - 1].backend in live;
        }
      }
      forall i, j | 0 <= i < j < |records| ensures records[i].attempt < records[j].attempt {
        assert before[i] in before && records[i] == before[i];
        assert AtItsPosition(before[i], chain, live, replies, k - 1);
      }
    }
  }

  lemma {:induction false} NothingFailedIffNothingLive(chain: seq<Target>, live: set<string>, replies: seq<Reply>,
                                                       k: nat)
    requires k <= |chain| == |replies|
    ensures FailuresOf(chain, live, replies, k) == [] <==> forall j :: 0 <= j < k ==> chain[j].backend !in live
  {
    if k > 0 {
      NothingFailedIffNothingLive(chain, live, replies, k - 1);
    }
  }

  /** A failover is reported exactly when an entry other than the first served. The report can be empty: when every
      earlier entry's backend is gone, nothing failed over from anything, and it is reported all the same. */
  lemma FailoverReportedIff(chain: seq<Target>, live: set<string>, replies: seq<Reply>)
    requires |chain| == |replies| && StopAt(chain, live, replies, 0) < |chain|
    requires replies[StopAt(chain, live, replies, 0)].ok
    ensures var i, p := StopAt(chain, live, replies, 0), After(chain, live, replies, |chain|);
            && (i > 0 <==> exists n :: n in p.notes && n.FailoverSuccess?)
            && (forall n :: n in p.notes && n.FailoverSuccess? ==>
                  n.servedBy == chain[i]
                  && (n.attempts == [] <==> forall j :: 0 <= j < i ==> chain[j].backend !in live))
  {
    hide After, StopAt, FailuresOf, Lost;
    var i, p := StopAt(chain, live, replies, 0), After(chain, live, replies, |chain|);
    FailoverProtocol(chain, live, replies);
    NothingFailedIffNothingLive(chain, live, replies, i);
    var before := Rediscoveries(Lost(chain, live, replies, i));
    assert forall n :: n in before ==> n.Rediscovered?;
    if i > 0 {
      var last := FailoverSuccess(chain[i], FailuresOf(chain, live, replies, i));
      assert p.notes == before + [last] && last in p.notes;
      assert forall n :: n in p.notes ==> n in before || n == last;
    } else {
      assert p.notes == before;
    }
  }

  // -- streams ---------------------------------------------------------------------------------

  /** How a backend's stream opens: it may end at once, report an error, or announce that it has started. A backend that
      cannot stream at all is skipped like one that ends at once. */
  datatype Opening = EndsAtOnce | OpensWithError(failure: FailureKind, at: Time) | Starts

  /** A chunk, or the accounting at the end. */
  datatype Item = Chunk(text: string) | Done(cost: real, at: Time)

  /** A backend's stream: the items after the announcement, and when it then breaks off with an exception, if it does. */
  datatype Stream = Stream(opening: Opening, items: seq<Item>, brokeOff: Option<Time>)

  datatype Streaming = Streaming(records: seq<Call>, committed: Option<nat>, broke: bool)

  const STREAM_ERROR := OtherFailure("stream_error")

  /** The search for a candidate that starts, over the first `k` entries. */
  function Opened(chain: seq<Target>, live: set<string>, streams: seq<Stream>, k: nat): Streaming
    requires k <= |chain| == |streams|
  {
    if k == 0 then Streaming([], None, false)
    else
      var s, t := Opened(chain, live, streams, k - 1), chain[k - 1];
      if s.committed.Some? || s.broke || t.backend !in live then s
      else
        match streams[k - 1].opening
        case EndsAtOnce => s
        case OpensWithError(f, at) =>
          s.(records := s.records + [Record(t, false, Some(f), 0.0, k, at)], broke := f.NonRetryable())
        case Starts => s.(committed := Some(k - 1))
  }

  function ChunksOf(items: seq<Item>): seq<string> {
    if items == [] then []
    else ChunksOf(items[..|items| - 1]) + match items[|items| - 1] case Chunk(text) => [text] case Done(_, _) => []
  }

  function RecordsOfBody(items: seq<Item>, t: Target, attempt: nat): seq<Call> {
    if items == [] then []
    else
      RecordsOfBody(items[..|items| - 1], t, attempt)
      + match items[|items| - 1] case Chunk(_) => [] case Done(cost, at) => [Record(t, true, None, cost, attempt, at)]
  }

  const BROKEN_CHUNK := "interrupted"

  /** What the client is sent from a committed stream. */
  function Sent(s: Stream): seq<string> {
    ChunksOf(s.items) + if s.brokeOff.Some? then [BROKEN_CHUNK] else []
  }

  function RecordedBody(s: Stream, t: Target, attempt: nat): seq<Call> {
    RecordsOfBody(s.items, t, attempt)
    + if s.brokeOff.Some? then [Record(t, false, Some(STREAM_ERROR), 0.0, attempt, s.brokeOff.value)] else []
  }

  /** Why an entry before the committed one sent nothing. */
  predicate SentNothing(live: set<string>, t: Target, s: Stream) {
    t.backend !in live || s.opening.EndsAtOnce? || (s.opening.OpensWithError? && !s.opening.failure.NonRetryable())
  }

  lemma {:induction false} SearchState(chain: seq<Target>, live: set<string>, streams: seq<Stream>, k: nat)
    requires k <= |chain| == |streams|
    ensures var s := Opened(chain, live, streams, k);
            && (s.committed.Some? ==>
                  && !s.broke && s.committed.value < k
                  && chain[s.committed.value].backend in live && streams[s.committed.value].opening.Starts?
                  && forall j :: 0 <= j < s.committed.value ==> SentNothing(live, chain[j], streams[j]))
            && (s.committed.None? && !s.broke ==> forall j :: 0 <= j < k ==> SentNothing(live, chain[j], streams[j]))
  {
    if k > 0 {
      SearchState(chain, live, streams, k - 1);
    }
  }

  /** The record of an entry whose stream opened with an error. */
  predicate RecordsOpening(c: Call, chain: seq<Target>, live: set<string>, streams: seq<Stream>, k: nat)
    requires |chain| == |streams|
  {
    && 1 <= c.attempt <= k <= |chain| && chain[c.attempt - 1].backend in live
    && var t, o := chain[c.attempt - 1], streams[c.attempt - 1].opening;
    o.OpensWithError? && c == Call(o.at, Routed(t.backend), t.ref, false, Some(o.failure), 0.0, c.attempt)
  }

  /** Every entry before `to` that opened with an error is recorded. */
  ghost predicate AllRecorded(records: seq<Call>, chain: seq<Target>, live: set<string>, streams: seq<Stream>, to: nat)
    requires to <= |chain| == |streams|
  {
    forall j :: 0 <= j < to && chain[j].backend in live && streams[j].opening.OpensWithError? ==>
      exists c :: c in records && c.attempt == j + 1
  }

  lemma OneMoreRecorded(records: seq<Call>, c: Call, chain: seq<Target>, live: set<string>, streams: seq<Stream>, k: nat)
    requires k < |chain| == |streams| && AllRecorded(records, chain, live, streams, k) && c.attempt == k + 1
    ensures AllRecorded(records + [c], chain, live, streams, k + 1)
  {
    assert c in records + [c] && forall x :: x in records ==> x in records + [c];
  }

  /** The failure is one that another entry would not help. */
  predicate EndsSearch(failure: Option<FailureKind>) {
    failure in {Some(AuthError), Some(ModelNotFound), Some(BadRequest), Some(RequestCancelled)}
  }

  /** What the search records: failures to open, each under its own entry; one for every entry it passed over with an
      error; and it is broken off by one of the four failures that another entry would not help, and by nothing else. */
  lemma {:induction false} OpeningsRecorded(chain: seq<Target>, live: set<string>, streams: seq<Stream>, k: nat)
    requires k <= |chain| == |streams|
    ensures var s := Opened(chain, live, streams, k);
            && (forall c :: c in s.records ==> RecordsOpening(c, chain, live, streams, k))
            && (s.committed.Some? ==> s.committed.value < k && AllRecorded(s.records, chain, live, streams, s.committed.value))
            && (s.committed.None? && !s.broke ==> AllRecorded(s.records, chain, live, streams, k))
            && (s.broke <==> s.records != [] && EndsSearch(s.records[|s.records| - 1].failureKind))
  {
    if k > 0 {
      var before, t := Opened(chain, live, streams, k - 1), chain[k - 1];
      OpeningsRecorded(chain, live, streams, k - 1);
      forall c | RecordsOpening(c, chain, live, streams, k - 1) ensures RecordsOpening(c, chain, live, streams, k) {
      }
      hide RecordsOpening, AllRecorded, EndsSearch;
      if before.committed.None? && !before.broke {
        var o := streams[k - 1].opening;
        if t.backend in live && o.OpensWithError? {
          var c := Record(t, false, Some(o.failure), 0.0, k, o.at);
          OpeningIsRecorded(chain, live, streams, k);
          OneMoreRecorded(before.records, c, chain, live, streams, k - 1);
        } else if t.backend !in live || o.EndsAtOnce? {
          NothingToRecord(before.records, chain, live, streams, k - 1);
        }
      }
    }
  }

  lemma OpeningIsRecorded(chain: seq<Target>, live: set<string>, streams: seq<Stream>, k: nat)
    requires 1 <= k <= |chain| == |streams| && chain[k - 1].backend in live && streams[k - 1].opening.OpensWithError?
    ensures var o := streams[k - 1].opening;
            && RecordsOpening(Record(chain[k - 1], false, Some(o.failure), 0.0, k, o.at), chain, live, streams, k)
            && (o.failure.NonRetryable() <==> EndsSearch(Some(o.failure)))
  {
    NonRetryableIff(streams[k - 1].opening.failure);
  }

  lemma NothingToRecord(records: seq<Call>, chain: seq<Target>, live: set<string>, streams: seq<Stream>, k: nat)
    requires k < |chain| == |streams| && AllRecorded(records, chain, live, streams, k)
    requires chain[k].backend !in live || streams[k].opening.EndsAtOnce?
    ensures AllRecorded(records, chain, live, streams, k + 1)
  {
  }

  /** The streaming protocol: every byte the client gets comes from one candidate, and every entry before it ended or
      failed before its first chunk. */
  lemma OneCandidatePerStream(chain: seq<Target>, live: set<string>, streams: seq<Stream>)
    requires |chain| == |streams|
    ensures var s := Opened(chain, live, streams, |chain|);
            && (s.committed.Some? ==>
                  var c := s.committed.value;
                  && c < |chain| && chain[c].backend in live && streams[c].opening.Starts?
                  && forall j :: 0 <= j < c ==> SentNothing(live, chain[j], streams[j]))
            && (s.committed.Some? <==>
                  exists c :: 0 <= c < |chain| && chain[c].backend in live && streams[c].opening.Starts?
                              && forall j :: 0 <= j < c ==> SentNothing(live, chain[j], streams[j]))
  {
    SearchState(chain, live, streams, |chain|);
    var s := Opened(chain, live, streams, |chain|);
    if c :| 0 <= c < |chain| && chain[c].backend in live && streams[c].opening.Starts?
            && forall j :: 0 <= j < c ==> SentNothing(live, chain[j], streams[j])
    {
      CommitsTo(chain, live, streams, c, |chain|);
    }
  }

  lemma {:induction false} CommitsTo(chain: seq<Target>, live: set<string>, streams: seq<Stream>, c: nat, k: nat)
    requires c < k <= |chain| == |streams|
    requires chain[c].backend in live && streams[c].opening.Starts?
    requires forall j :: 0 <= j < c ==> SentNothing(live, chain[j], streams[j])
    ensures Opened(chain, live, streams, k).committed == Some(c)
  {
    if k - 1 > c {
      CommitsTo(chain, live, streams, c, k - 1);
    } else {
      StillSearching(chain, live, streams, c);
    }
  }

  lemma {:induction false} StillSearching(chain: seq<Target>, live: set<string>, streams: seq<Stream>, k: nat)
    requires k <= |chain| == |streams|
    requires forall j :: 0 <= j < k ==> SentNothing(live, chain[j], streams[j])
    ensures Opened(chain, live, streams, k).committed.None? && !Opened(chain, live, streams, k).broke
  {
    if k > 0 {
      StillSearching(chain, live, streams, k - 1);
    }
  }

  /** A stream that ends with its accounting is recorded once as a success; one that breaks off first is recorded once
      as a failure and ends with one error chunk; one that just stops is not recorded at all. */
  lemma {:induction false} BodyRecordedOnce(items: seq<Item>, t: Target, attempt: nat, cost: real, at: Time)
    requires forall i :: 0 <= i < |items| ==> items[i].Chunk?
    ensures var s := Stream(Starts, items + [Done(cost, at)], None);
            && RecordedBody(s, t, attempt) == [Call(at, Routed(t.backend), t.ref, true, None, cost, attempt)]
            && Sent(s) == TextsOf(items)
    ensures var s := Stream(Starts, items, Some(at));
            && RecordedBody(s, t, attempt)
               == [Call(at, Routed(t.backend), t.ref, false, Some(OtherFailure("stream_error")), 0.0, attempt)]
            && Sent(s) == TextsOf(items) + [BROKEN_CHUNK]
    ensures var s := Stream(Starts, items, None); RecordedBody(s, t, attempt) == [] && Sent(s) == TextsOf(items)
  {
    ChunksRecordNothing(items, t, attempt);
    ChunksAreTexts(items);
    assert (items + [Done(cost, at)])[..|items|] == items;
  }

  /** The texts of some chunks. */
  function TextsOf(items: seq<Item>): (texts: seq<string>)
    requires forall i :: 0 <= i < |items| ==> items[i].Chunk?
  {
    seq(|items|, i requires 0 <= i < |items| => items[i].text)
  }

  lemma {:induction false} ChunksAreTexts(items: seq<Item>)
    requires forall i :: 0 <= i < |items| ==> items[i].Chunk?
    ensures ChunksOf(items) == TextsOf(items)
  {
    if items != [] {
      ChunksAreTexts(items[..|items| - 1]);
      assert TextsOf(items) == TextsOf(items[..|items| - 1]) + [items[|items| - 1].text];
    }
  }

  lemma {:induction false} ChunksRecordNothing(items: seq<Item>, t: Target, attempt: nat)
    requires forall i :: 0 <= i < |items| ==> items[i].Chunk?
    ensures RecordsOfBody(items, t, attempt) == []
  {
    if items != [] {
      ChunksRecordNothing(items[..|items| - 1], t, attempt);
    }
  }

  // -- a pinned model ------------------------------------------------------------------------------

  /** A pin names one model; it is served by the named backend if that is registered, else by the first backend that has
      the model installed, and never by another model. */
  function PinnedChain(live: set<string>, installed: seq<(string, set<string>)>, pin: Target): (chain: seq<Target>)
    ensures |chain| <= 1 && forall t :: t in chain ==> t.ref == pin.ref
    ensures chain == [] <==> (pin.backend == "" || pin.backend !in live) && forall x :: x in installed ==> pin.ref !in x.1
  {
    if pin.backend != "" && pin.backend in live then [pin]
    else if installed == [] then []
    else if pin.ref in installed[0].1 then [Target(installed[0].0, pin.ref)]
    else
      assert installed == [installed[0]] + installed[1..];
      PinnedChain(live, installed[1..], pin)
  }

  // -- what the ledger makes of the records ------------------------------------------------------------

  lemma {:induction false} RecordsGrow(chain: seq<Target>, live: set<string>, replies: seq<Reply>, k: nat, n: nat)
    requires k <= n <= |chain| == |replies|
    ensures After(chain, live, replies, k).records <= After(chain, live, replies, n).records
  {
    if k < n {
      RecordsGrow(chain, live, replies, k, n - 1);
    }
  }

  lemma {:induction false} OpeningsGrow(chain: seq<Target>, live: set<string>, streams: seq<Stream>, k: nat, n: nat)
    requires k <= n <= |chain| == |streams|
    ensures Opened(chain, live, streams, k).records <= Opened(chain, live, streams, n).records
  {
    if k < n {
      OpeningsGrow(chain, live, streams, k, n - 1);
    }
  }

  /** Recording entry `k` raised, counted from zero: everything before it was recorded, and its backend had answered. */
  ghost predicate RaisedAt(h: seq<Attempt>, chain: seq<Target>, live: set<string>, replies: seq<Reply>, k: nat) {
    && k < |chain| == |replies| && chain[k].backend in live
    && var done := After(chain, live, replies, k);
    && done.outcome.None?
    && Recorded(h, done.records) == |done.records|
    && Raises(h + AttemptsOf(done.records), CallOf(chain, replies, k + 1))
  }

  /** An exception while recording happens at one entry at most, and it is the first record that raises. */
  lemma RaisedAtMeans(h: seq<Attempt>, chain: seq<Target>, live: set<string>, replies: seq<Reply>, k: nat)
    requires RaisedAt(h, chain, live, replies, k)
    ensures var wanted := After(chain, live, replies, |chain|).records;
            && After(chain, live, replies, k).records <= wanted
            && Recorded(h, wanted) == |After(chain, live, replies, k).records| < |wanted|
  {
    var done, wanted := After(chain, live, replies, k).records, After(chain, live, replies, |chain|).records;
    RecordsGrow(chain, live, replies, k + 1, |chain|);
    assert After(chain, live, replies, k + 1).records == done + [CallOf(chain, replies, k + 1)];
    RecordedSnoc(h, done, CallOf(chain, replies, k + 1));
    RecordedStops(h, done + [CallOf(chain, replies, k + 1)], wanted);
  }

  /** A stream's opening error is the next record of the search. */
  lemma OpeningRecord(chain: seq<Target>, live: set<string>, streams: seq<Stream>, k: nat)
    requires k < |chain| == |streams| && chain[k].backend in live && streams[k].opening.OpensWithError?
    requires Opened(chain, live, streams, k).committed.None? && !Opened(chain, live, streams, k).broke
    ensures var o := streams[k].opening;
            Opened(chain, live, streams, k).records + [Record(chain[k], false, Some(o.failure), 0.0, k + 1, o.at)]
            <= Opened(chain, live, streams, |chain|).records
  {
    OpeningsGrow(chain, live, streams, k + 1, |chain|);
  }

  // -- the gateway object -----------------------------------------------------------------------------

  class Gateway {
    const live: set<string>
    const ledger: Ledger
    var notes: seq<Note>

    constructor (live: set<string>, ledger: Ledger)
      ensures this.live == live && this.ledger == ledger && notes == []
    {
      this.live, this.ledger, notes := live, ledger, [];
    }

    /** Record one more call of a request. */
    method Write(call: Call, ghost h: seq<Attempt>, ghost before: seq<Call>, ghost events: seq<EventLog.Event>,
                 ghost calls: seq<Call>)
      returns (raised: bool)
      requires Wrote(ledger, h, before, events, calls)
      modifies ledger
      ensures raised ==> WriteBroke(ledger, h, before, events, calls, call)
      ensures !raised ==> Wrote(ledger, h, before, events, calls + [call])
    {
      hide Recorded, Raises, AttemptsOf;
      RecordedSnoc(h, calls, call);
      raised := ledger.RecordCall(call);
    }

    /** One live entry of the chain has answered: record the call, then decide whether to go on. */
    method TakeReply(t: Target, attempt: nat, r: Reply, attempts: seq<Failed>, ghost h: seq<Attempt>,
                     ghost before: seq<Call>, ghost events: seq<EventLog.Event>, ghost calls: seq<Call>)
      returns (exit: Exit<Option<Outcome>>, failed: seq<Failed>)
      requires Wrote(ledger, h, before, events, calls)
      modifies this`notes, ledger
      ensures var call := Record(t, r.ok, r.failure, r.cost, attempt, r.at);
              && (exit.Raised? ==> WriteBroke(ledger, h, before, events, calls, call) && notes == old(notes))
              && (exit.Returned? ==> Wrote(ledger, h, before, events, calls + [call]))
      ensures var p := Answered(Progress([], [], attempts, None), t, attempt, r);
              exit.Returned? ==> exit.value == p.outcome && failed == p.attempts && notes == old(notes) + p.notes
    {
      hide Wrote, WriteBroke;
      failed := attempts;
      var raised := Write(Record(t, r.ok, r.failure, r.cost, attempt, r.at), h, before, events, calls);
      if raised {
        return Raised, failed;
      }
      if r.ok {
        if attempt > 1 {
          notes := notes + [FailoverSuccess(t, attempts)];
        }
        return Returned(Some(Served(t, attempt))), failed;
      }
      failed := failed + [Failed(t, r.failure)];
      if StopsRetrying(r) {
        notes := notes + [FatalFailure(failed)];
        return Returned(Some(Fatal(r.failure.value, failed))), failed;
      }
      if r.failure == Some(ConnectionError) {
        notes := notes + [Rediscovered];
      }
      exit := Returned(None);
    }

    /** Answer a request whole; `replies` is what each entry of the chain would answer. Every call that was made is
        recorded, in order, and the request fails as a whole when recording one raises. */
    method Complete(chain: seq<Target>, replies: seq<Reply>) returns (exit: Exit<Outcome>)
      requires |chain| == |replies| && ledger.Valid()
      modifies this`notes, ledger
      ensures var h, wanted := old(ledger.attempts), After(chain, live, replies, |chain|).records;
              && Accounted(ledger, h, old(ledger.calls), old(ledger.events), wanted)
              && (exit.Returned? <==> Recorded(h, wanted) == |wanted|)
      ensures var p := After(chain, live, replies, |chain|);
              exit.Returned? ==>
                if p.outcome.Some? then exit.value == p.outcome.value && notes == old(notes) + p.notes
                else exit.value == Exhausted(p.attempts) && notes == old(notes) + p.notes + [RouteExhausted(p.attempts)]
      ensures exit.Raised? ==> exists k :: 0 <= k < |chain| && RaisedAt(old(ledger.attempts), chain, live, replies, k)
                                           && notes == old(notes) + After(chain, live, replies, k).notes
    {
      hide Answered, Recorded, Wrote, WriteBroke, Accounted, RaisedAt;
      ghost var h, before, events := ledger.attempts, ledger.calls, ledger.events;
      var attempts: seq<Failed> := [];
      ghost var p := Progress([], [], [], None);
      NothingWritten(ledger);
      for i := 0 to |chain|
        invariant p == After(chain, live, replies, i) && p.outcome.None?
        invariant notes == old(notes) + p.notes && attempts == p.attempts
        invariant Wrote(ledger, h, before, events, p.records)
      {
        var t := chain[i];
        if t.backend in live {
          AnsweredOnce(p, t, i + 1, replies[i]);
          var taken;
          taken, attempts := TakeReply(t, i + 1, replies[i], attempts, h, before, events, p.records);
          if taken.Raised? {
            AnswerRaised(ledger, h, before, events, chain, live, replies, i);
            return Raised;
          }
          p := After(chain, live, replies, i + 1);
          if taken.value.Some? {
            Settled(chain, live, replies, i + 1, |chain|);
            WholeIsAccounted(ledger, h, before, events, p.records);
            return Returned(taken.value.value);
          }
        }
      }
      WholeIsAccounted(ledger, h, before, events, p.records);
      notes := notes + [RouteExhausted(attempts)];
      exit := Returned(Exhausted(attempts));
    }

    /** Look for a candidate that starts; what is returned is its place in the chain. */
    method OpenStream(chain: seq<Target>, streams: seq<Stream>) returns (exit: Exit<Option<nat>>)
      requires |chain| == |streams| && ledger.Valid()
      modifies ledger
      ensures var s, h := Opened(chain, live, streams, |chain|), old(ledger.attempts);
              && Accounted(ledger, h, old(ledger.calls), old(ledger.events), s.records)
              && (exit.Returned? <==> Recorded(h, s.records) == |s.records|)
              && (exit.Returned? ==> exit.value == s.committed)
    {
      hide Recorded, Wrote, WriteBroke, Accounted;
      ghost var h, before, events := ledger.attempts, ledger.calls, ledger.events;
      NothingWritten(ledger);
      var i := 0;
      var broke := false;
      while i < |chain| && !broke
        invariant 0 <= i <= |chain|
        invariant var s := Opened(chain, live, streams, i);
                  s.committed.None? && s.broke == broke && Wrote(ledger, h, before, events, s.records)
      {
        var t := chain[i];
        if t.backend in live {
          match streams[i].opening
          case EndsAtOnce =>
          case OpensWithError(f, at) =>
            var call := Record(t, false, Some(f), 0.0, i + 1, at);
            ghost var done := Opened(chain, live, streams, i).records;
            OpeningRecord(chain, live, streams, i);
            var raised := Write(call, h, before, events, done);
            if raised {
              BrokenIsAccounted(ledger, h, before, events, done, call, Opened(chain, live, streams, |chain|).records);
              return Raised;
            }
            broke := f.NonRetryable();
          case Starts =>
            Frozen(chain, live, streams, i + 1, |chain|);
            WholeIsAccounted(ledger, h, before, events, Opened(chain, live, streams, |chain|).records);
            return Returned(Some(i));
        }
        i := i + 1;
      }
      Frozen(chain, live, streams, i, |chain|);
      WholeIsAccounted(ledger, h, before, events, Opened(chain, live, streams, |chain|).records);
      exit := Returned(None);
    }

    /** Serve a stream; what is returned is what was sent, or None when no candidate could start one. The request fails
        as a whole when an opening error cannot be recorded. */
    method ServeStream(chain: seq<Target>, streams: seq<Stream>) returns (exit: Exit<Option<seq<string>>>)
      requires |chain| == |streams| && ledger.Valid()
      modifies this`notes, ledger
      ensures ledger.Valid() && ledger.events == old(ledger.events)
      ensures var s, h := Opened(chain, live, streams, |chain|), old(ledger.attempts);
              && (exit.Returned? <==> Recorded(h, s.records) == |s.records|)
              && (exit.Raised? ==>
                    Accounted(ledger, h, old(ledger.calls), old(ledger.events), s.records) && notes == old(notes))
              && (exit.Returned? ==>
                    match s.committed
                    case Some(c) =>
                      && c < |chain| && exit.value == Some(Sent(streams[c])) && notes == old(notes)
                      && ledger.calls == old(ledger.calls) + s.records + RecordedBody(streams[c], chain[c], c + 1)
                    case None =>
                      && exit.value == None && notes == old(notes) + [StreamExhausted]
                      && ledger.calls == old(ledger.calls) + s.records)
    {
      hide Recorded, RecordedBody, Sent, Opened;
      var start := OpenStream(chain, streams);
      if start.Raised? {
        return Raised;
      }
      SearchState(chain, live, streams, |chain|);
      if start.value.None? {
        notes := notes + [StreamExhausted];
        return Returned(None);
      }
      var c := start.value.value;
      var chunks := Body(streams[c], chain[c], c + 1);
      exit := Returned(Some(chunks));
    }

    /** The body of a committed stream; nothing in it can raise. */
    method Body(s: Stream, t: Target, attempt: nat) returns (chunks: seq<string>)
      requires ledger.Valid()
      modifies ledger
      ensures ledger.Valid() && ledger.events == old(ledger.events)
      ensures chunks == Sent(s) && ledger.calls == old(ledger.calls) + RecordedBody(s, t, attempt)
    {
      chunks := [];
      for i := 0 to |s.items|
        invariant ledger.Valid() && ledger.events == old(ledger.events)
        invariant chunks == ChunksOf(s.items[..i])
        invariant ledger.calls == old(ledger.calls) + RecordsOfBody(s.items[..i], t, attempt)
      {
        assert s.items[..i + 1][..i] == s.items[..i];
        match s.items[i]
        case Chunk(text) => chunks := chunks + [text];
        case Done(cost, at) => var _ := ledger.RecordCall(Record(t, true, None, cost, attempt, at));
      }
      assert s.items[..|s.items|] == s.items;
      if s.brokeOff.Some? {
        chunks := chunks + [BROKEN_CHUNK];
        var _ := ledger.RecordCall(Record(t, false, Some(STREAM_ERROR), 0.0, attempt, s.brokeOff.value));
      }
    }
  }

  lemma NothingWritten(ledger: Ledger)
    requires ledger.Valid()
    ensures Wrote(ledger, ledger.attempts, ledger.calls, ledger.events, [])
  {
  }

  /** The record of an entry that answered is the next one of the protocol. */
  lemma AnswerRaised(ledger: Ledger, h: seq<Attempt>, before: seq<Call>, events: seq<EventLog.Event>, chain: seq<Target>,
                     live: set<string>, replies: seq<Reply>, k: nat)
    requires k < |chain| == |replies| && chain[k].backend in live && After(chain, live, replies, k).outcome.None?
    requires WriteBroke(ledger, h, before, events, After(chain, live, replies, k).records, CallOf(chain, replies, k + 1))
    ensures var wanted := After(chain, live, replies, |chain|).records;
            && Accounted(ledger, h, before, events, wanted) && Recorded(h, wanted) < |wanted|
            && RaisedAt(h, chain, live, replies, k)
  {
    hide Recorded, Raises, AttemptsOf, Accounted;
    var done, call := After(chain, live, replies, k).records, CallOf(chain, replies, k + 1);
    RecordsGrow(chain, live, replies, k + 1, |chain|);
    AnsweredOnce(After(chain, live, replies, k), chain[k], k + 1, replies[k]);
    BrokenIsAccounted(ledger, h, before, events, done, call, After(chain, live, replies, |chain|).records);
  }

  /** What one answer adds does not depend on what came before, except for the attempts it reports. */
  lemma AnsweredOnce(p: Progress, t: Target, attempt: nat, r: Reply)
    ensures var q, one := Answered(p, t, attempt, r), Answered(Progress([], [], p.attempts, None), t, attempt, r);
            && q.records == p.records + [Record(t, r.ok, r.failure, r.cost, attempt, r.at)]
            && q.notes == p.notes + one.notes && q.attempts == one.attempts
            && (p.outcome.None? ==> q.outcome == one.outcome)
  {
  }

  lemma {:induction false} Settled(chain: seq<Target>, live: set<string>, replies: seq<Reply>, k: nat, n: nat)
    requires k <= n <= |chain| == |replies| && After(chain, live, replies, k).outcome.Some?
    ensures After(chain, live, replies, n) == After(chain, live, replies, k)
  {
    if k < n {
      Settled(chain, live, replies, k, n - 1);
    }
  }

  lemma {:induction false} Frozen(chain: seq<Target>, live: set<string>, streams: seq<Stream>, k: nat, n: nat)
    requires k <= n <= |chain| == |streams|
    requires k == n || Opened(chain, live, streams, k).committed.Some? || Opened(chain, live, streams, k).broke
    ensures Opened(chain, live, streams, n) == Opened(chain, live, streams, k)
  {
    if k < n {
      Frozen(chain, live, streams, k, n - 1);
    }
  }
}
