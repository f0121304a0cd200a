/** One build: its record, its control signals, its replay from the log, and the loop that monitors it. */
module Builds {
  import opened Common
  import opened EventLog
  import opened Progress

  // -- control signals --------------------------------------------------------

  datatype Control = Running | Pausing | Stopping

  /** The latest control signal for a build. */
  function ControlState(es: seq<Event>, id: string): Control {
    if es == [] then Running
    else
      var e := es[|es| - 1];
      if e.buildId == id && IsControl(e.payload) then
        match e.payload
        case ControlStop => Stopping
        case ControlPause => Pausing
        case _ => Running
      else ControlState(es[..|es| - 1], id)
  }

  /** Event `i` stops the build and no later one signals it. */
  ghost predicate NewestIsStop(es: seq<Event>, id: string, i: int) {
    && 0 <= i < |es| && es[i].buildId == id && es[i].payload.ControlStop?
    && forall j :: i < j < |es| && es[j].buildId == id ==> !IsControl(es[j].payload)
  }

  lemma NewestSnoc(es: seq<Event>, e: Event, id: string, i: int)
    ensures NewestIsStop(es + [e], id, i) <==>
            if e.buildId == id && IsControl(e.payload) then i == |es| && e.payload.ControlStop?
            else NewestIsStop(es, id, i)
  {
    var r := es + [e];
    assert r[|es|] == e && forall j :: 0 <= j < |es| ==> r[j] == es[j];
  }

  /** Only the newest signal counts: the build is stopped iff a stop is the newest one, so a later pause, no less than
      a later resume, withdraws the stop. */
  lemma {:induction false} StoppedIffNewestSignalIsStop(es: seq<Event>, id: string)
    ensures ControlState(es, id) == Stopping <==> exists i :: NewestIsStop(es, id, i)
  {
    hide NewestIsStop;
    if es == [] {
      NoneInNothing(id);
    } else {
      var init, e := es[..|es| - 1], es[|es| - 1];
      assert es == init + [e];
      StoppedIffNewestSignalIsStop(init, id);
      forall i ensures NewestIsStop(es, id, i) <==>
                       if e.buildId == id && IsControl(e.payload) then i == |init| && e.payload.ControlStop?
                       else NewestIsStop(init, id, i)
      {
        NewestSnoc(init, e, id, i);
      }
      assert e.buildId == id && e.payload.ControlStop? ==> NewestIsStop(es, id, |init|);
    }
  }

  lemma NoneInNothing(id: string)
    ensures forall i :: !NewestIsStop([], id, i)
  {
  }

  // -- the record -------------------------------------------------------------

  datatype Record = Record(
    state: BuildState,
    executionId: string,
    phaseDetail: string,
    prUrl: string,
    error: string,
    fingerprint: Option<Json>,
    lastProgressAt: real)

  function Blank(now: real): Record {
    Record(Queued, "", "", "", "", None, now)
  }

  function DetailOf(r: Record): Detail {
    Detail(r.state, r.executionId, r.phaseDetail, r.prUrl, r.error)
  }

  function StatusOf(r: Record): Payload {
    BuildStatus(r.state, r.phaseDetail, r.prUrl)
  }

  const RETRY_DETAIL := "retrying"

  function Either(a: string, b: string): string {
    if a != "" then a else b
  }

  /** What one logged event does to a record being rebuilt. */
  function ApplyEvent(r: Record, p: Payload): Record {
    match p
    case BuildStarted(x) => r.(executionId := x)
    case BuildStopped => r.(state := Stopped)
    case BuildPaused => r.(state := Paused)
    case BuildResumed => r.(state := Executing)
    case InfrastructureRetry(_, _) => r.(state := Queued, executionId := "", error := "", phaseDetail := RETRY_DETAIL)
    case BuildStatus(state, detail, prUrl) =>
      r.(state := state, phaseDetail := Either(detail, r.phaseDetail), prUrl := Either(prUrl, r.prUrl))
    case BuildTerminal(d) =>
      r.(state := d.state, phaseDetail := d.phaseDetail, prUrl := d.prUrl, error := d.error,
         executionId := Either(d.executionId, r.executionId))
    case _ => r
  }

  /** The record the log of a build amounts to. */
  function Replay(es: seq<Event>, id: string, now: real): Record {
    if es == [] then Blank(now)
    else
      var r, e := Replay(es[..|es| - 1], id, now), es[|es| - 1];
      if e.buildId == id then ApplyEvent(r, e.payload) else r
  }

  predicate Submitted(es: seq<Event>, id: string) {
    es != [] && ((es[|es| - 1].buildId == id && es[|es| - 1].payload.BuildSubmitted?) || Submitted(es[..|es| - 1], id))
  }

  function LoadBuild(es: seq<Event>, id: string, now: real): Option<Record> {
    if Submitted(es, id) then Some(Replay(es, id, now)) else None
  }

  /** The execution a build has outstanding: the last one started and not given up by an infrastructure retry. */
  function Outstanding(es: seq<Event>, id: string): string {
    if es == [] then ""
    else
      var e := es[|es| - 1];
      if e.buildId == id && e.payload.BuildStarted? then e.payload.executionId
      else if e.buildId == id && e.payload.InfrastructureRetry? then ""
      else Outstanding(es[..|es| - 1], id)
  }

  // -- applying an execution response ---------------------------------------------

  const QUEUED_STATUS: set<string> := {"pending", "queued"}
  const RUNNING_STATUS: set<string> := {"running", "in_progress"}
  const SUCCESS_STATUS: set<string> := {"completed", "success", "succeeded"}
  const CANCELLED_STATUS: set<string> := {"cancelled", "canceled"}
  const FAILURE_STATUS: set<string> := {"failed", "error"}

  function ResultOf(body: map<string, Json>): Json {
    Or(Or(Get(body, "result"), Get(body, "output")), Obj(map[]))
  }

  function StatusText(body: map<string, Json>): string {
    Lower(Text(Or(Get(body, "status"), Str(""))))
  }

  /** Success is what the reasoner's result says, not what the transport says. */
  predicate ReportsSuccess(body: map<string, Json>) {
    var result := ResultOf(body);
    result.Obj? && Get(result.fields, "success") == Bool(true)
  }

  /** The state a response asks for, if any. */
  function ReportedState(body: map<string, Json>): Option<BuildState> {
    var status := StatusText(body);
    if status in QUEUED_STATUS then Some(Queued)
    else if status in RUNNING_STATUS then Some(Executing)
    else if status in SUCCESS_STATUS then Some(if ReportsSuccess(body) then Complete else Failed)
    else if status in CANCELLED_STATUS then Some(Stopped)
    else if status in FAILURE_STATUS then Some(Failed)
    else None
  }

  const FAILURE_NOTE := "failed"

  function FailureText(body: map<string, Json>): string {
    var result := ResultOf(body);
    var fields := if result.Obj? then result.fields else map[];
    Clip(Text(Or(Or(Or(Get(fields, "error_message"), Get(fields, "error")), Get(fields, "summary")),
                 Str(FAILURE_NOTE))), 400)
  }

  function Joined(parts: seq<Json>): string {
    var kept := Filter(parts, Truthy);
    JoinTexts(kept)
  }

  function JoinTexts(parts: seq<Json>): string {
    if parts == [] then ""
    else if |parts| == 1 then Text(parts[0])
    else Text(parts[0]) + " | " + JoinTexts(parts[1..])
  }

  /** The semantic projection of one response. */
  function Fingerprint(body: map<string, Json>): Json {
    Stable(Obj(body))
  }

  function WithProgress(r: Record, body: map<string, Json>, now: real): Record {
    if r.fingerprint == Some(Fingerprint(body)) then r
    else r.(fingerprint := Some(Fingerprint(body)), lastProgressAt := now)
  }

  function WithResult(r: Record, result: Json): Record {
    if !result.Obj? then r
    else
      var url, summary := Get(result.fields, "pr_url"), Get(result.fields, "summary");
      r.(prUrl := if Truthy(url) then Text(url) else r.prUrl,
         phaseDetail := if Truthy(summary) then Clip(Text(summary), 300) else r.phaseDetail)
  }

  function WithOutcome(r: Record, body: map<string, Json>): Record {
    var failed := StatusText(body) in SUCCESS_STATUS && !ReportsSuccess(body);
    var r1 := if failed then r.(error := FailureText(body)) else r;
    match ReportedState(body)
    case Some(s) => r1.(state := s)
    case None => r1
  }

  function WithError(r: Record, body: map<string, Json>): Record {
    if !Truthy(Get(body, "error")) then r
    else
      var result := ResultOf(body);
      var detail := if result.Obj? then Get(result.fields, "detail") else Str("");
      r.(error := Clip(Joined([Get(body, "error"), Get(body, "status_reason"), detail]), 400))
  }

  /** One execution response applied to a record. */
  function Updated(r: Record, body: map<string, Json>, now: real): Record {
    WithError(WithOutcome(WithResult(WithProgress(r, body, now), ResultOf(body)), body), body)
  }

  /** A poll: nothing happens without an execution or without an answer. */
  function Polled(r: Record, reply: Option<map<string, Json>>, now: real): Record {
    if r.executionId == "" || reply.None? then r else Updated(r, reply.value, now)
  }

  lemma UpdatedFields(r: Record, body: map<string, Json>, now: real)
    ensures var u := Updated(r, body, now);
            && u.executionId == r.executionId
            && u.fingerprint == Some(Fingerprint(body))
            && u.lastProgressAt == (if r.fingerprint == Some(Fingerprint(body)) then r.lastProgressAt else now)
            && u.state == (match ReportedState(body) case Some(s) => s case None => r.state)
  {
    hide Fingerprint, ReportedState, FailureText, Joined, StatusText, ReportsSuccess;
  }

  // -- the answer in the control plane's words -------------------------------------------

  /** The answer holds something under the key. */
  predicate Holds(body: map<string, Json>, key: string) {
    key in body && !Nothing(body[key])
  }

  /** The reasoner's result is an object with these fields; it stands under `result`, or else under `output`, and an
      answer with neither has an empty one. */
  predicate ResultHolds(body: map<string, Json>, fields: map<string, Json>) {
    if Holds(body, "result") then body["result"] == Obj(fields)
    else if Holds(body, "output") then body["output"] == Obj(fields)
    else fields == map[]
  }

  /** The result says that the reasoner succeeded: `true` itself, not something that merely counts as true. */
  ghost predicate Succeeded(body: map<string, Json>) {
    exists fields :: ResultHolds(body, fields) && "success" in fields && fields["success"] == Bool(true)
  }

  /** The answer's status, in lower case, is this word. */
  predicate Says(body: map<string, Json>, word: string) {
    if Holds(body, "status") then Lower(Text(body["status"])) == word else word == ""
  }

  predicate SaysDone(body: map<string, Json>) {
    Says(body, "completed") || Says(body, "success") || Says(body, "succeeded")
  }

  /** The state an answer puts a build in. */
  ghost predicate PutsIn(body: map<string, Json>, s: BuildState) {
    match s
    case Queued => Says(body, "pending") || Says(body, "queued")
    case Executing => Says(body, "running") || Says(body, "in_progress")
    case Complete => SaysDone(body) && Succeeded(body)
    case Stopped => Says(body, "cancelled") || Says(body, "canceled")
    case Failed => Says(body, "failed") || Says(body, "error") || (SaysDone(body) && !Succeeded(body))
    case _ => false
  }

  lemma ResultIs(body: map<string, Json>, fields: map<string, Json>)
    ensures ResultHolds(body, fields) <==> ResultOf(body) == Obj(fields)
  {
    TruthyIff();
  }

  lemma SucceededIff(body: map<string, Json>)
    ensures Succeeded(body) <==> ReportsSuccess(body)
  {
    var result := ResultOf(body);
    forall fields ensures ResultHolds(body, fields) <==> result == Obj(fields) {
      ResultIs(body, fields);
    }
    if result.Obj? {
      assert ResultHolds(body, result.fields);
    }
  }

  lemma ReportedIff(body: map<string, Json>, s: BuildState)
    ensures PutsIn(body, s) <==> ReportedState(body) == Some(s)
  {
    hide Succeeded, ReportsSuccess, Nothing;
    TruthyIff();
    SucceededIff(body);
    var status := StatusText(body);
    assert forall word :: Says(body, word) <==> status == word;
    StatusSets(status);
  }

  lemma StatusSets(status: string)
    ensures status in QUEUED_STATUS <==> status == "pending" || status == "queued"
    ensures status in RUNNING_STATUS <==> status == "running" || status == "in_progress"
    ensures status in SUCCESS_STATUS <==> status == "completed" || status == "success" || status == "succeeded"
    ensures status in CANCELLED_STATUS <==> status == "cancelled" || status == "canceled"
    ensures status in FAILURE_STATUS <==> status == "failed" || status == "error"
  {
  }

  /** What an answer does to a build's state: each status word of the control plane puts it in the state that word
      stands for, a reported success counts only with the reasoner's own, and any other word leaves it alone. */
  lemma AnswerSetsState(r: Record, body: map<string, Json>, now: real)
    ensures forall s :: PutsIn(body, s) ==> Updated(r, body, now).state == s
    ensures (forall s :: !PutsIn(body, s)) ==> Updated(r, body, now).state == r.state
  {
    hide Updated, ReportedState, PutsIn;
    UpdatedFields(r, body, now);
    forall s ensures PutsIn(body, s) <==> ReportedState(body) == Some(s) {
      ReportedIff(body, s);
    }
  }

  /** One more part of a joined error text. */
  function Also(fields: map<string, Json>, key: string): string {
    if Holds(fields, key) then " | " + Text(fields[key]) else ""
  }

  /** How the reasoner explains a failure. */
  function Explanation(fields: map<string, Json>): string {
    if Holds(fields, "error_message") then Text(fields["error_message"])
    else if Holds(fields, "error") then Text(fields["error"])
    else if Holds(fields, "summary") then Text(fields["summary"])
    else "failed"
  }

  lemma Regrouped(a: string, b: string, c: string)
    ensures a + " | " + (b + " | " + c) == a + (" | " + b) + (" | " + c)
  {
  }

  lemma KeptParts(a: Json, b: Json, c: Json)
    requires Truthy(a)
    ensures Filter([a, b, c], Truthy) == [a] + (if Truthy(b) then [b] else []) + (if Truthy(c) then [c] else [])
  {
    assert [a, b, c][..2] == [a, b] && [a, b][..1] == [a] && [a][..0] == [];
    assert Filter([a], Truthy) == [a];
    assert Filter([a, b], Truthy) == [a] + (if Truthy(b) then [b] else []);
  }

  lemma JoinedParts(a: Json, b: Json, c: Json)
    requires Truthy(a)
    ensures Joined([a, b, c])
            == Text(a) + (if Truthy(b) then " | " + Text(b) else "") + (if Truthy(c) then " | " + Text(c) else "")
  {
    hide Filter, Truthy, Text, JoinTexts;
    KeptParts(a, b, c);
    var kept := [a] + (if Truthy(b) then [b] else []) + (if Truthy(c) then [c] else []);
    if Truthy(b) && Truthy(c) {
      JoinedThree(a, b, c);
      assert kept == [a, b, c];
    } else if Truthy(b) {
      JoinedTexts(a, b);
      assert kept == [a, b];
    } else if Truthy(c) {
      JoinedTexts(a, c);
      assert kept == [a, c];
    } else {
      JoinedTexts(a, b);
      assert kept == [a];
    }
  }

  lemma JoinedThree(a: Json, b: Json, c: Json)
    ensures JoinTexts([a, b, c]) == Text(a) + (" | " + Text(b)) + (" | " + Text(c))
  {
    hide Text;
    assert [a, b, c][1..] == [b, c];
    JoinedTexts(b, c);
    Regrouped(Text(a), Text(b), Text(c));
  }

  lemma JoinedTexts(a: Json, b: Json)
    ensures JoinTexts([a]) == Text(a) && JoinTexts([a, b]) == Text(a) + " | " + Text(b) == Text(a) + (" | " + Text(b))
  {
    assert [a, b][1..] == [b];
  }

  lemma FailureIsExplained(body: map<string, Json>, fields: map<string, Json>)
    requires ResultHolds(body, fields)
    ensures FailureText(body) == Clip(Explanation(fields), 400)
  {
    hide Nothing;
    TruthyIff();
    ResultIs(body, fields);
  }

  /** What an answer with a result object leaves in the other fields: the pull request and the summary are taken over if
      there are any; an error of the control plane is joined with its reason and the reasoner's detail, and otherwise a
      success the reasoner does not share is explained in the reasoner's words. */
  lemma AnswerSetsTexts(r: Record, body: map<string, Json>, now: real, fields: map<string, Json>)
    requires ResultHolds(body, fields)
    ensures var u := Updated(r, body, now);
            && u.prUrl == (if Holds(fields, "pr_url") then Text(fields["pr_url"]) else r.prUrl)
            && u.phaseDetail == (if Holds(fields, "summary") then Clip(Text(fields["summary"]), 300) else r.phaseDetail)
            && u.error ==
               if Holds(body, "error")
               then Clip(Text(body["error"]) + Also(body, "status_reason") + Also(fields, "detail"), 400)
               else if SaysDone(body) && !Succeeded(body) then Clip(Explanation(fields), 400) else r.error
  {
    hide Joined, FailureText, Explanation, Fingerprint, Succeeded, ReportedState, Nothing, ReportsSuccess;
    TruthyIff();
    ResultIs(body, fields);
    SucceededIff(body);
    StatusSets(StatusText(body));
    FailureIsExplained(body, fields);
    if Holds(body, "error") {
      JoinedParts(body["error"], Get(body, "status_reason"), Get(fields, "detail"));
    }
  }

  /** A build becomes complete only on the reasoner's own word, never on the transport's. */
  lemma UpdateFailsClosed(r: Record, body: map<string, Json>, now: real)
    requires r.state != Complete
    ensures Updated(r, body, now).state == Complete <==> PutsIn(body, Complete)
  {
    hide Updated, PutsIn;
    AnswerSetsState(r, body, now);
  }

  /** After an answer was applied, a second answer counts as progress exactly when it differs from the first in more
      than volatile keys. */
  lemma ProgressIffMoreThanHeartbeat(r: Record, first: map<string, Json>, second: map<string, Json>, t1: real, t2: real)
    requires t1 < t2 && r.lastProgressAt <= t1
    ensures Updated(Updated(r, first, t1), second, t2).lastProgressAt == t2 <==>
            !SameButVolatile(Obj(first), Obj(second))
  {
    hide Updated;
    UpdatedFields(r, first, t1);
    UpdatedFields(Updated(r, first, t1), second, t2);
    StableIffSameButVolatile(Obj(first), Obj(second));
  }

  // -- infrastructure stops ----------------------------------------------------

  const MARKERS: seq<string> := ["cancelled_by_control_plane", "canceled_by_control_plane"]

  /** The control plane cancelled the execution because an agent node went away. */
  predicate RetryableStop(r: Record) {
    r.state == Stopped && exists i | 0 <= i < |MARKERS| :: Contains(Lower(r.error), MARKERS[i])
  }

  /** The text names a cancellation by the control plane, in either spelling and any case. */
  ghost predicate NamesControlPlane(text: string) {
    Mentions(Lower(text), "cancelled_by_control_plane") || Mentions(Lower(text), "canceled_by_control_plane")
  }

  lemma RetryableIff(r: Record)
    ensures RetryableStop(r) <==> r.state == Stopped && NamesControlPlane(r.error)
  {
    hide Contains, Mentions, Lower;
    var text := Lower(r.error);
    assert MARKERS[0] == "cancelled_by_control_plane" && MARKERS[1] == "canceled_by_control_plane";
    ContainsIff(text, MARKERS[0]);
    ContainsIff(text, MARKERS[1]);
    assert (exists i | 0 <= i < |MARKERS| :: Contains(text, MARKERS[i]))
           <==> Contains(text, MARKERS[0]) || Contains(text, MARKERS[1]);
  }

  // -- one iteration of the monitoring loop ---------------------------------------

  datatype Limits = Limits(noProgressS: real, statusIntervalS: real)

  // Messages are abbreviated; nothing reads them back except the infrastructure markers above.
  const PAUSE_NOTE := "paused"
  const STOP_NOTE := "stopped"
  const STALL_NOTE := "stalled"
  const DEADLINE_NOTE := "deadline"

  /** What the top of the loop decides before anything is awaited. */
  datatype Decision =
    | StopNow
    | AnnouncePause(record: Record, out: seq<Payload>)
    | StayPaused
    | Overdue(record: Record, out: seq<Payload>)
    | Poll(record: Record, out: seq<Payload>)

  function Resumed(r: Record): Record {
    if r.state == Paused then r.(state := Executing) else r
  }

  function ResumeNote(r: Record): seq<Payload> {
    if r.state == Paused then [BuildResumed] else []
  }

  function LoopTop(r: Record, control: Control, deadline: Option<real>, now: real): Decision {
    match control
    case Stopping => StopNow
    case Pausing =>
      if r.state == Paused then StayPaused
      else
        var p := r.(state := Paused, phaseDetail := PAUSE_NOTE);
        AnnouncePause(p, [BuildPaused, StatusOf(p)])
    case Running =>
      if deadline.Some? && now > deadline.value then Overdue(Resumed(r), ResumeNote(r)) else Poll(Resumed(r), ResumeNote(r))
  }

  function OwnerStopped(r: Record): Record {
    r.(state := Stopped, phaseDetail := STOP_NOTE)
  }

  function PastDeadline(r: Record): Record {
    r.(state := Failed, error := DEADLINE_NOTE)
  }

  function StalledOut(r: Record): Record {
    r.(state := Failed, error := STALL_NOTE, phaseDetail := STALL_NOTE)
  }

  predicate IsStalled(r: Record, limits: Limits, now: real) {
    !r.state.Terminal() && limits.noProgressS > 0.0 && now - r.lastProgressAt >= limits.noProgressS
  }

  predicate ReportDue(r: Record, lastState: BuildState, lastStatusAt: real, limits: Limits, now: real) {
    r.state != lastState || now - lastStatusAt >= limits.statusIntervalS
  }

  /** Everything one iteration reads from outside: the control signal, the clock at each point, the poll's answer. */
  datatype Tick = Tick(control: Control, topAt: Time, reply: Option<map<string, Json>>, polledAt: Time, reportedAt: Time)

  datatype Monitor = Monitor(record: Record, lastState: BuildState, lastStatusAt: real, finished: bool, out: seq<Payload>)

  function Ended(m: Monitor, r: Record, why: seq<Payload>): Monitor {
    m.(record := r, finished := true, out := m.out + why + [StatusOf(r)])
  }

  function Iterate(m: Monitor, t: Tick, deadline: Option<real>, limits: Limits): Monitor
    requires !m.finished
  {
    match LoopTop(m.record, t.control, deadline, t.topAt)
    case StopNow => Ended(m, OwnerStopped(m.record), [BuildStopped])
    case AnnouncePause(r, out) => m.(record := r, out := m.out + out)
    case StayPaused => m
    case Overdue(r, out) => Ended(m.(out := m.out + out), PastDeadline(r), [DeadlineExceeded])
    case Poll(r, out) =>
      AfterPoll(m.(record := Polled(r, t.reply, t.polledAt), out := m.out + out), t, limits)
  }

  /** The rest of an iteration once the poll has been applied. */
  function AfterPoll(m: Monitor, t: Tick, limits: Limits): Monitor
    requires !m.finished
  {
    if IsStalled(m.record, limits, t.polledAt) then Ended(m, StalledOut(m.record), [NoProgressTimeout])
    else
      var reported := if ReportDue(m.record, m.lastState, m.lastStatusAt, limits, t.polledAt)
                      then m.(lastState := m.record.state, lastStatusAt := t.reportedAt, out := m.out + [StatusOf(m.record)])
                      else m;
      if m.record.state.Terminal() then Ended(reported, m.record, []) else reported
  }

  predicate IsOverdue(deadline: Option<real>, t: Tick) {
    deadline.Some? && t.topAt > deadline.value
  }

  /** When an iteration ends the loop and in which state: an owner's stop first, a pause never, then the wall-clock
      deadline before the poll, then the watchdog, then whatever terminal state the poll reported. */
  lemma IterationEndsIff(m: Monitor, t: Tick, deadline: Option<real>, limits: Limits)
    requires !m.finished
    ensures var n, r := Iterate(m, t, deadline, limits), Polled(Resumed(m.record), t.reply, t.polledAt);
            && (n.finished <==>
                  || t.control == Stopping
                  || (t.control == Running
                      && (IsOverdue(deadline, t) || IsStalled(r, limits, t.polledAt) || r.state.Terminal())))
            && (n.finished ==>
                  n.record.state == if t.control == Stopping then Stopped
                                    else if IsOverdue(deadline, t) || IsStalled(r, limits, t.polledAt) then Failed
                                    else r.state)
            && (t.control == Pausing ==> n.record.state == Paused && n.record.lastProgressAt == m.record.lastProgressAt)
            && (n.finished ==> |n.out| > 0 && n.out[|n.out| - 1] == StatusOf(n.record))
  {
    hide Polled;
  }

  function StartMonitor(r: Record): Monitor {
    if r.state.Terminal() then Monitor(r, r.state, 0.0, true, [StatusOf(r)]) else Monitor(r, r.state, 0.0, false, [])
  }

  /** The loop over a stretch of iterations, up to the one that ends it. */
  function Drive(m: Monitor, ticks: seq<Tick>, deadline: Option<real>, limits: Limits): Monitor {
    if ticks == [] then m
    else
      var d := Drive(m, ticks[..|ticks| - 1], deadline, limits);
      if d.finished then d else Iterate(d, ticks[|ticks| - 1], deadline, limits)
  }

  /** However the loop ends, its last word is the state it ended in. */
  lemma {:induction false} EndIsPostedLast(r: Record, ticks: seq<Tick>, deadline: Option<real>, limits: Limits)
    ensures var d := Drive(StartMonitor(r), ticks, deadline, limits);
            d.finished ==> d.out != [] && d.out[|d.out| - 1] == StatusOf(d.record)
  {
    hide Iterate;
    if ticks != [] {
      var init := ticks[..|ticks| - 1];
      EndIsPostedLast(r, init, deadline, limits);
      var d := Drive(StartMonitor(r), init, deadline, limits);
      if !d.finished {
        IterationEndsIff(d, ticks[|ticks| - 1], deadline, limits);
      }
    }
  }

  // -- the watchdog ----------------------------------------------------------------

  /** Every answer in the stretch shows the same semantic state, or there was no answer. */
  ghost predicate NoNews(ticks: seq<Tick>, fp: Json) {
    forall i :: 0 <= i < |ticks| && ticks[i].reply.Some? ==> Fingerprint(ticks[i].reply.value) == fp
  }

  lemma PollWithoutNews(r: Record, reply: Option<map<string, Json>>, now: real, fp: Json)
    requires r.fingerprint == Some(fp) && (reply.Some? ==> Fingerprint(reply.value) == fp)
    ensures Polled(r, reply, now).fingerprint == Some(fp) && Polled(r, reply, now).lastProgressAt == r.lastProgressAt
  {
    hide Updated;
    if r.executionId != "" && reply.Some? {
      UpdatedFields(r, reply.value, now);
    }
  }

  lemma AfterPollKeepsProgress(m: Monitor, t: Tick, limits: Limits)
    requires !m.finished
    ensures var n := AfterPoll(m, t, limits);
            && n.record.fingerprint == m.record.fingerprint && n.record.lastProgressAt == m.record.lastProgressAt
            && (n.finished <==> IsStalled(m.record, limits, t.polledAt) || m.record.state.Terminal())
  {
  }

  lemma IterateWithoutNews(m: Monitor, t: Tick, deadline: Option<real>, limits: Limits, fp: Json)
    requires !m.finished && m.record.fingerprint == Some(fp)
    requires t.reply.Some? ==> Fingerprint(t.reply.value) == fp
    ensures var n := Iterate(m, t, deadline, limits);
            && n.record.fingerprint == Some(fp) && n.record.lastProgressAt == m.record.lastProgressAt
            && (!n.finished && t.control == Running && limits.noProgressS > 0.0 ==>
                  t.polledAt < m.record.lastProgressAt + limits.noProgressS)
  {
    hide AfterPoll, Updated;
    match LoopTop(m.record, t.control, deadline, t.topAt)
    case Poll(r, out) =>
      PollWithoutNews(r, t.reply, t.polledAt, fp);
      AfterPollKeepsProgress(m.(record := Polled(r, t.reply, t.polledAt), out := m.out + out), t, limits);
    case _ =>
  }

  lemma {:induction false} ProgressClockStands(m: Monitor, ticks: seq<Tick>, deadline: Option<real>, limits: Limits,
                                               fp: Json)
    requires !m.finished && m.record.fingerprint == Some(fp)
    requires NoNews(ticks, fp)
    ensures Drive(m, ticks, deadline, limits).record.fingerprint == Some(fp)
    ensures Drive(m, ticks, deadline, limits).record.lastProgressAt == m.record.lastProgressAt
  {
    hide Iterate;
    if ticks != [] {
      var init := ticks[..|ticks| - 1];
      ProgressClockStands(m, init, deadline, limits, fp);
      var d := Drive(m, init, deadline, limits);
      if !d.finished {
        IterateWithoutNews(d, ticks[|ticks| - 1], deadline, limits, fp);
      }
    }
  }

  /** Watchdog: without news the progress clock never moves, and no unpaused poll at or past the limit is survived;
      so the loop ends within the limit plus one iteration. */
  lemma {:induction false} WatchdogTerminates(m: Monitor, ticks: seq<Tick>, deadline: Option<real>, limits: Limits,
                                              fp: Json)
    requires !m.finished && m.record.fingerprint == Some(fp)
    requires NoNews(ticks, fp)
    requires limits.noProgressS > 0.0
    requires !Drive(m, ticks, deadline, limits).finished
    ensures Drive(m, ticks, deadline, limits).record.lastProgressAt == m.record.lastProgressAt
    ensures forall i :: 0 <= i < |ticks| && ticks[i].control == Running ==>
              ticks[i].polledAt < m.record.lastProgressAt + limits.noProgressS
  {
    hide Iterate;
    ProgressClockStands(m, ticks, deadline, limits, fp);
    if ticks != [] {
      var init := ticks[..|ticks| - 1];
      ProgressClockStands(m, init, deadline, limits, fp);
      WatchdogTerminates(m, init, deadline, limits, fp);
      IterateWithoutNews(Drive(m, init, deadline, limits), ticks[|ticks| - 1], deadline, limits, fp);
      forall i | 0 <= i < |ticks| && ticks[i].control == Running
        ensures ticks[i].polledAt < m.record.lastProgressAt + limits.noProgressS
      {
        if i < |init| {
          assert ticks[i] == init[i];
        }
      }
    }
  }

  /** So the first unpaused poll at or past the limit ends the loop, if nothing ended it before. */
  lemma WatchdogEndsTheBuild(m: Monitor, ticks: seq<Tick>, deadline: Option<real>, limits: Limits, fp: Json, i: nat)
    requires !m.finished && m.record.fingerprint == Some(fp) && NoNews(ticks, fp) && limits.noProgressS > 0.0
    requires i < |ticks| && ticks[i].control == Running
    requires ticks[i].polledAt >= m.record.lastProgressAt + limits.noProgressS
    ensures Drive(m, ticks, deadline, limits).finished
  {
    hide Iterate;
    if !Drive(m, ticks, deadline, limits).finished {
      WatchdogTerminates(m, ticks, deadline, limits, fp);
      assert false;
    }
  }

  /** The projection the watchdog holds after a stretch: that of the last answer to an unpaused poll. */
  function LastProjection(start: Option<Json>, ticks: seq<Tick>): Option<Json> {
    if ticks == [] then start
    else
      var t := ticks[|ticks| - 1];
      if t.control == Running && t.reply.Some? then Some(Fingerprint(t.reply.value))
      else LastProjection(start, ticks[..|ticks| - 1])
  }

  /** The answer of iteration `k` shows something the previous answer did not. */
  predicate News(start: Option<Json>, ticks: seq<Tick>, k: nat)
    requires k < |ticks|
  {
    && ticks[k].control == Running && ticks[k].reply.Some?
    && LastProjection(start, ticks[..k]) != Some(Fingerprint(ticks[k].reply.value))
  }

  /** The time of the latest answer that showed something new. */
  function NewsClock(start: Option<Json>, clock: real, ticks: seq<Tick>): real {
    if ticks == [] then clock
    else if News(start, ticks, |ticks| - 1) then ticks[|ticks| - 1].polledAt
    else NewsClock(start, clock, ticks[..|ticks| - 1])
  }

  lemma NewsPrefix(start: Option<Json>, ticks: seq<Tick>, n: nat, k: nat)
    requires k < n <= |ticks|
    ensures News(start, ticks[..n], k) <==> News(start, ticks, k)
  {
    assert ticks[..n][..k] == ticks[..k];
  }

  /** `NewsClock` is what its name says: if `k` is the last iteration with news, it is the time of `k`'s poll. */
  lemma {:induction false} NewsClockIsLatest(start: Option<Json>, clock: real, ticks: seq<Tick>, k: nat)
    requires k < |ticks| && News(start, ticks, k)
    requires forall j :: k < j < |ticks| ==> !News(start, ticks, j)
    ensures NewsClock(start, clock, ticks) == ticks[k].polledAt
  {
    var n := |ticks| - 1;
    if k < n {
      forall j | k <= j < n ensures News(start, ticks[..n], j) <==> News(start, ticks, j) {
        NewsPrefix(start, ticks, n, j);
      }
      NewsClockIsLatest(start, clock, ticks[..n], k);
    }
  }

  lemma {:induction false} NewsClockStands(start: Option<Json>, clock: real, ticks: seq<Tick>)
    requires forall j :: 0 <= j < |ticks| ==> !News(start, ticks, j)
    ensures NewsClock(start, clock, ticks) == clock
  {
    if ticks != [] {
      var n := |ticks| - 1;
      forall j | 0 <= j < n ensures News(start, ticks[..n], j) <==> News(start, ticks, j) {
        NewsPrefix(start, ticks, n, j);
      }
      NewsClockStands(start, clock, ticks[..n]);
    }
  }

  lemma IteratePoll(m: Monitor, t: Tick, deadline: Option<real>, limits: Limits)
    requires !m.finished && m.record.executionId != ""
    requires !Iterate(m, t, deadline, limits).finished
    ensures var n := Iterate(m, t, deadline, limits);
            && n.record.executionId == m.record.executionId
            && n.record.fingerprint == LastProjection(m.record.fingerprint, [t])
            && n.record.lastProgressAt ==
               if t.control == Running && t.reply.Some? && m.record.fingerprint != Some(Fingerprint(t.reply.value))
               then t.polledAt else m.record.lastProgressAt
  {
    hide Updated, AfterPoll;
    assert [t][..0] == [];
    match LoopTop(m.record, t.control, deadline, t.topAt)
    case Poll(r, out) =>
      if t.reply.Some? {
        UpdatedFields(r, t.reply.value, t.polledAt);
      }
      AfterPollKeepsProgress(m.(record := Polled(r, t.reply, t.polledAt), out := m.out + out), t, limits);
      AfterPollKeepsExecution(m.(record := Polled(r, t.reply, t.polledAt), out := m.out + out), t, limits);
    case _ =>
  }

  lemma AfterPollKeepsExecution(m: Monitor, t: Tick, limits: Limits)
    requires !m.finished
    ensures AfterPoll(m, t, limits).record.executionId == m.record.executionId
  {
  }

  /** While a build is monitored, its progress clock is exactly the time of the latest answer that differed from the
      one before it, whatever pauses and lost answers lie in between. */
  lemma {:induction false} ProgressClockIsLatestNews(m: Monitor, ticks: seq<Tick>, deadline: Option<real>,
                                                     limits: Limits)
    requires !m.finished && m.record.executionId != ""
    requires !Drive(m, ticks, deadline, limits).finished
    ensures var r, fp := Drive(m, ticks, deadline, limits).record, m.record.fingerprint;
            && r.executionId == m.record.executionId
            && r.fingerprint == LastProjection(fp, ticks)
            && r.lastProgressAt == NewsClock(fp, m.record.lastProgressAt, ticks)
  {
    hide Iterate, Updated;
    if ticks != [] {
      var n := |ticks| - 1;
      ProgressClockIsLatestNews(m, ticks[..n], deadline, limits);
      IteratePoll(Drive(m, ticks[..n], deadline, limits), ticks[n], deadline, limits);
      assert [ticks[n]][..0] == [];
    }
  }

  /** The state a build is in after an unpaused poll that was answered, before the watchdog looks. */
  function AnsweredState(r: Record, body: map<string, Json>): BuildState {
    match ReportedState(body)
    case Some(s) => s
    case None => Resumed(r).state
  }

  function AnsweredProgress(r: Record, body: map<string, Json>, at: real): real {
    if r.fingerprint == Some(Fingerprint(body)) then r.lastProgressAt else at
  }

  lemma AnsweredIteration(m: Monitor, t: Tick, limits: Limits, body: map<string, Json>)
    requires !m.finished && m.record.executionId != ""
    requires t.control == Running && t.reply == Some(body)
    ensures var n := Iterate(m, t, None, limits);
            var s, at := AnsweredState(m.record, body), AnsweredProgress(m.record, body, t.polledAt);
            && n.record.executionId == m.record.executionId
            && n.record.fingerprint == Some(Fingerprint(body)) && n.record.lastProgressAt == at
            && (n.finished <==> s.Terminal() || (limits.noProgressS > 0.0 && t.polledAt - at >= limits.noProgressS))
            && (!n.finished ==> n.record.state == s)
            && (n.finished && !s.Terminal() ==> n.record.state == Failed && NoProgressTimeout in n.out)
  {
    hide Updated, AfterPoll;
    var r := Resumed(m.record);
    UpdatedFields(r, body, t.polledAt);
    AnsweredRest(m.(record := Updated(r, body, t.polledAt), out := m.out + ResumeNote(m.record)), t, limits);
  }

  lemma AnsweredRest(m: Monitor, t: Tick, limits: Limits)
    requires !m.finished
    ensures var n, s := AfterPoll(m, t, limits), m.record.state;
            && n.record.executionId == m.record.executionId
            && n.record.fingerprint == m.record.fingerprint && n.record.lastProgressAt == m.record.lastProgressAt
            && (n.finished <==> s.Terminal() || IsStalled(m.record, limits, t.polledAt))
            && (!n.finished ==> n.record.state == s)
            && (n.finished && !s.Terminal() ==> n.record.state == Failed && NoProgressTimeout in n.out)
  {
  }

  /** A pause longer than the limit ends the build on resume: the progress clock runs on while nothing is polled. */
  lemma PauseLongerThanLimitFails(m: Monitor, pauses: seq<Tick>, t: Tick, limits: Limits, body: map<string, Json>)
    requires !m.finished && m.record.executionId != "" && m.record.fingerprint == Some(Fingerprint(body))
    requires forall p :: p in pauses ==> p.control == Pausing
    requires t.control == Running && t.reply == Some(body) && ReportedState(body) == Some(Executing)
    requires limits.noProgressS > 0.0 && t.polledAt - m.record.lastProgressAt >= limits.noProgressS
    ensures var d := Drive(m, pauses + [t], None, limits);
            d.finished && d.record.state == Failed && NoProgressTimeout in d.out
  {
    hide Iterate, Updated;
    PausedStretch(m, pauses, limits);
    assert (pauses + [t])[..|pauses|] == pauses;
    AnsweredIteration(Drive(m, pauses, None, limits), t, limits, body);
  }

  lemma {:induction false} PausedStretch(m: Monitor, pauses: seq<Tick>, limits: Limits)
    requires !m.finished
    requires forall p :: p in pauses ==> p.control == Pausing
    ensures var d := Drive(m, pauses, None, limits);
            && !d.finished && d.record.executionId == m.record.executionId
            && d.record.fingerprint == m.record.fingerprint && d.record.lastProgressAt == m.record.lastProgressAt
  {
    hide Updated, AfterPoll;
    if pauses != [] {
      var init, p := pauses[..|pauses| - 1], pauses[|pauses| - 1];
      assert p in pauses;
      PausedStretch(m, init, limits);
    }
  }

  // What a response other than 200 is read as.
  const NO_BODY: map<string, Json> := map[]

  function RunningBody(): map<string, Json> {
    map["status" := Str("running")]
  }

  /** A control plane that answers every other poll with `a` and the others with `b`. */
  predicate Flapping(ticks: seq<Tick>, a: map<string, Json>, b: map<string, Json>) {
    forall i :: 0 <= i < |ticks| ==> ticks[i].control == Running && ticks[i].reply == Some(if i % 2 == 0 then a else b)
  }

  predicate KeepsGoing(body: map<string, Json>) {
    ReportedState(body).Some? ==> !ReportedState(body).value.Terminal()
  }

  lemma NewsIsSurvived(d: Monitor, t: Tick, limits: Limits, body: map<string, Json>)
    requires !d.finished && d.record.executionId != "" && !d.record.state.Terminal()
    requires t.control == Running && t.reply == Some(body) && KeepsGoing(body)
    requires d.record.fingerprint != Some(Fingerprint(body))
    ensures var n := Iterate(d, t, None, limits);
            && !n.finished && n.record.executionId != "" && !n.record.state.Terminal()
            && n.record.fingerprint == Some(Fingerprint(body)) && n.record.lastProgressAt == t.polledAt
  {
    hide Iterate, Updated;
    AnsweredIteration(d, t, limits, body);
  }

  /** Every answer of the stretch differs from the one before it and leaves the build going. */
  predicate AlwaysNews(start: Option<Json>, ticks: seq<Tick>) {
    forall i :: 0 <= i < |ticks| ==> IsNews(start, ticks, i)
  }

  predicate IsNews(start: Option<Json>, ticks: seq<Tick>, i: nat)
    requires i < |ticks|
  {
    && ticks[i].control == Running && ticks[i].reply.Some? && KeepsGoing(ticks[i].reply.value)
    && Some(Fingerprint(ticks[i].reply.value)) != ProjectionBefore(start, ticks, i)
  }

  function ProjectionBefore(start: Option<Json>, ticks: seq<Tick>, i: nat): Option<Json>
    requires i <= |ticks|
  {
    if i == 0 then start
    else if ticks[i - 1].reply.Some? then Some(Fingerprint(ticks[i - 1].reply.value)) else None
  }

  /** The watchdog only ever catches silence: a stretch of answers each unlike the last is survived, however slowly it
      is polled. */
  lemma {:induction false} NewsDefeatsWatchdog(m: Monitor, ticks: seq<Tick>, limits: Limits)
    requires !m.finished && m.record.executionId != "" && !m.record.state.Terminal()
    requires AlwaysNews(m.record.fingerprint, ticks)
    ensures var d := Drive(m, ticks, None, limits);
            && !d.finished && !d.record.state.Terminal() && d.record.executionId != ""
            && d.record.fingerprint == ProjectionBefore(m.record.fingerprint, ticks, |ticks|)
            && (ticks != [] ==> d.record.lastProgressAt == ticks[|ticks| - 1].polledAt)
  {
    hide Iterate, Updated;
    if ticks != [] {
      var n := |ticks| - 1;
      var start := m.record.fingerprint;
      assert forall i :: 0 <= i < n ==> (IsNews(start, ticks[..n], i) <==> IsNews(start, ticks, i));
      assert IsNews(start, ticks, n);
      NewsDefeatsWatchdog(m, ticks[..n], limits);
      NewsIsSurvived(Drive(m, ticks[..n], None, limits), ticks[n], limits, ticks[n].reply.value);
    }
  }

  lemma FlappingBodies()
    ensures Fingerprint(RunningBody()) != Fingerprint(NO_BODY)
    ensures KeepsGoing(RunningBody()) && KeepsGoing(NO_BODY)
  {
    assert Lower("status") == "status";
    assert Lower("running") == "running";
    assert "status" in Stable(Obj(RunningBody())).fields;
    assert "status" !in Stable(Obj(NO_BODY)).fields;
    assert Lower("") == "";
  }

  /** In particular a dead execution whose polls fail every other time is never caught: an error page is read as an
      empty body, and an empty body counts as news. */
  lemma ErrorPagesFeedWatchdog(m: Monitor, ticks: seq<Tick>, limits: Limits)
    requires !m.finished && m.record.executionId != "" && !m.record.state.Terminal()
    requires m.record.fingerprint == Some(Fingerprint(NO_BODY))
    requires Flapping(ticks, RunningBody(), NO_BODY)
    ensures !Drive(m, ticks, None, limits).finished
  {
    hide Iterate, Updated;
    FlappingBodies();
    FlappingIsNews(m.record.fingerprint, ticks, RunningBody(), NO_BODY);
    NewsDefeatsWatchdog(m, ticks, limits);
  }

  lemma FlappingIsNews(start: Option<Json>, ticks: seq<Tick>, a: map<string, Json>, b: map<string, Json>)
    requires Fingerprint(a) != Fingerprint(b) && KeepsGoing(a) && KeepsGoing(b)
    requires start == Some(Fingerprint(b)) && Flapping(ticks, a, b)
    ensures AlwaysNews(start, ticks)
  {
    forall i | 0 <= i < |ticks| ensures IsNews(start, ticks, i) {
      if i > 0 {
        assert ticks[i - 1].reply == Some(if i % 2 == 0 then b else a);
      }
    }
  }

  // -- the record object -------------------------------------------------------------

  class BuildRecord {
    var state: BuildState
    var executionId: string
    var phaseDetail: string
    var prUrl: string
    var error: string
    var fingerprint: Option<Json>
    var lastProgressAt: real

    function View(): Record
      reads this
    {
      Record(state, executionId, phaseDetail, prUrl, error, fingerprint, lastProgressAt)
    }

    constructor (now: real)
      ensures View() == Blank(now)
    {
      state, executionId, phaseDetail, prUrl, error := Queued, "", "", "", "";
      fingerprint, lastProgressAt := None, now;
    }

    method NoteProgress(body: map<string, Json>, now: real)
      modifies this`fingerprint, this`lastProgressAt
      ensures View() == WithProgress(old(View()), body, now)
    {
      var projection := Fingerprint(body);
      if fingerprint != Some(projection) {
        fingerprint, lastProgressAt := Some(projection), now;
      }
    }

    method NoteResult(result: Json)
      modifies this`prUrl, this`phaseDetail
      ensures View() == WithResult(old(View()), result)
    {
      if result.Obj? {
        var url, summary := Get(result.fields, "pr_url"), Get(result.fields, "summary");
        if Truthy(url) {
          prUrl := Text(url);
        }
        if Truthy(summary) {
          phaseDetail := Clip(Text(summary), 300);
        }
      }
    }

    method NoteOutcome(body: map<string, Json>)
      modifies this`state, this`error
      ensures View() == WithOutcome(old(View()), body)
      ensures forall s :: PutsIn(body, s) ==> state == s
      ensures (forall s :: !PutsIn(body, s)) ==> state == old(state)
    {
      hide PutsIn;
      forall s {
        ReportedIff(body, s);
      }
      if StatusText(body) in SUCCESS_STATUS && !ReportsSuccess(body) {
        error := FailureText(body);
      }
      var reported := ReportedState(body);
      if reported.Some? && reported.value != state {
        state := reported.value;
      }
    }

    method NoteError(body: map<string, Json>)
      modifies this`error
      ensures View() == WithError(old(View()), body)
    {
      if Truthy(Get(body, "error")) {
        var result := ResultOf(body);
        var detail := if result.Obj? then Get(result.fields, "detail") else Str("");
        error := Clip(Joined([Get(body, "error"), Get(body, "status_reason"), detail]), 400);
      }
    }

    /** Apply one execution response. */
    method UpdateFromExecution(body: map<string, Json>, now: real)
      modifies this
      ensures View() == Updated(old(View()), body, now)
      ensures forall s :: PutsIn(body, s) ==> state == s
      ensures (forall s :: !PutsIn(body, s)) ==> state == old(state)
    {
      AnswerSetsState(View(), body, now);
      NoteProgress(body, now);
      NoteResult(ResultOf(body));
      NoteOutcome(body);
      NoteError(body);
    }

    method Poll(reply: Option<map<string, Json>>, now: real)
      modifies this
      ensures View() == Polled(old(View()), reply, now)
    {
      if executionId != "" && reply.Some? {
        UpdateFromExecution(reply.value, now);
      }
    }

    /** After the poll: the watchdog, then the status report. */
    method AfterPolling(t: Tick, limits: Limits, lastState0: BuildState, lastStatusAt0: real, out0: seq<Payload>)
      returns (out: seq<Payload>, done: bool, lastState: BuildState, lastStatusAt: real)
      modifies this
      ensures AfterPoll(Monitor(old(View()), lastState0, lastStatusAt0, false, out0), t, limits)
              == Monitor(View(), lastState, lastStatusAt, done, if done then out + [StatusOf(View())] else out)
    {
      out, lastState, lastStatusAt := out0, lastState0, lastStatusAt0;
      if IsStalled(View(), limits, t.polledAt) {
        state, error, phaseDetail := Failed, STALL_NOTE, STALL_NOTE;
        out, done := out + [NoProgressTimeout], true;
        return;
      }
      if state != lastState || t.polledAt - lastStatusAt >= limits.statusIntervalS {
        out := out + [BuildStatus(state, phaseDetail, prUrl)];
        lastState, lastStatusAt := state, t.reportedAt;
      }
      assert out + [] == out;
      done := state.Terminal();
    }

    /** What an unpaused iteration does before it polls; `overdue` is the wall-clock deadline. */
    method BeforePolling(t: Tick, deadline: Option<real>, out0: seq<Payload>) returns (out: seq<Payload>, overdue: bool)
      requires t.control == Running
      modifies this`state
      ensures View() == Resumed(old(View())) && out == out0 + ResumeNote(old(View()))
      ensures overdue <==> deadline.Some? && t.topAt > deadline.value
    {
      out := out0;
      if state == Paused {
        state := Executing;
        out := out + [BuildResumed];
      }
      overdue := deadline.Some? && t.topAt > deadline.value;
    }

    /** One pass through the loop body; the status posted after the loop is not part of it. */
    method OneIteration(t: Tick, deadline: Option<real>, limits: Limits, lastState0: BuildState, lastStatusAt0: real,
                        out0: seq<Payload>)
      returns (out: seq<Payload>, done: bool, lastState: BuildState, lastStatusAt: real)
      modifies this
      ensures Iterate(Monitor(old(View()), lastState0, lastStatusAt0, false, out0), t, deadline, limits)
              == Monitor(View(), lastState, lastStatusAt, done, if done then out + [StatusOf(View())] else out)
    {
      hide AfterPoll, Polled;
      out, done, lastState, lastStatusAt := out0, false, lastState0, lastStatusAt0;
      if t.control == Stopping {
        state, phaseDetail := Stopped, STOP_NOTE;
        out, done := out + [BuildStopped], true;
        return;
      }
      if t.control == Pausing {
        if state != Paused {
          state, phaseDetail := Paused, PAUSE_NOTE;
          out := out + [BuildPaused, BuildStatus(state, phaseDetail, prUrl)];
        }
        return;
      }
      var overdue;
      out, overdue := BeforePolling(t, deadline, out);
      if overdue {
        state, error := Failed, DEADLINE_NOTE;
        out, done := out + [DeadlineExceeded], true;
        return;
      }
      Poll(t.reply, t.polledAt);
      out, done, lastState, lastStatusAt := AfterPolling(t, limits, lastState, lastStatusAt, out);
    }

    /** The monitoring loop, fed with what each iteration reads from outside; `done` is false when the build is still
        being monitored after the last of them. */
    method RunUntilDone(ticks: seq<Tick>, deadline: Option<real>, limits: Limits)
      returns (out: seq<Payload>, done: bool)
      modifies this
      ensures var d := Drive(StartMonitor(old(View())), ticks, deadline, limits);
              View() == d.record && out == d.out && done == d.finished
      ensures done ==> out != [] && out[|out| - 1] == StatusOf(View())
    {
      hide Iterate;
      EndIsPostedLast(View(), ticks, deadline, limits);
      ghost var start := StartMonitor(View());
      out, done := [], state.Terminal();
      var lastState, lastStatusAt := state, 0.0;
      var i := 0;
      while i < |ticks| && !done
        invariant 0 <= i <= |ticks|
        invariant Drive(start, ticks[..i], deadline, limits)
                  == Monitor(View(), lastState, lastStatusAt, done, if done then out + [StatusOf(View())] else out)
      {
        assert ticks[..i + 1][..i] == ticks[..i];
        out, done, lastState, lastStatusAt := OneIteration(ticks[i], deadline, limits, lastState, lastStatusAt, out);
        i := i + 1;
      }
      if done {
        out := out + [BuildStatus(state, phaseDetail, prUrl)];
      }
      assert ticks[..|ticks|] == ticks;
      DriveEndsOnce(start, ticks, i, deadline, limits);
    }
  }

  lemma {:induction false} DriveEndsOnce(m: Monitor, ticks: seq<Tick>, i: nat, deadline: Option<real>, limits: Limits)
    requires i <= |ticks| && (i < |ticks| ==> Drive(m, ticks[..i], deadline, limits).finished)
    ensures Drive(m, ticks, deadline, limits) == Drive(m, ticks[..i], deadline, limits)
  {
    if i < |ticks| {
      assert ticks[..|ticks| - 1][..i] == ticks[..i];
      DriveEndsOnce(m, ticks[..|ticks| - 1], i, deadline, limits);
    } else {
      assert ticks[..i] == ticks;
    }
  }

  /** Rebuild a record from the log, event by event. */
  method LoadBuildFromLog(es: seq<Event>, id: string, now: real) returns (rec: BuildRecord?)
    ensures rec == null <==> LoadBuild(es, id, now).None?
    ensures rec != null ==> fresh(rec) && LoadBuild(es, id, now) == Some(rec.View())
  {
    if !Submitted(es, id) {
      return null;
    }
    var r := new BuildRecord(now);
    for i := 0 to |es|
      invariant fresh(r) && r.View() == Replay(es[..i], id, now)
    {
      assert es[..i + 1][..i] == es[..i];
      if es[i].buildId == id {
        match es[i].payload
        case BuildStarted(x) => r.executionId := x;
        case BuildStopped => r.state := Stopped;
        case BuildPaused => r.state := Paused;
        case BuildResumed => r.state := Executing;
        case InfrastructureRetry(_, _) =>
          r.state, r.executionId, r.error, r.phaseDetail := Queued, "", "", RETRY_DETAIL;
        case BuildStatus(state, detail, prUrl) =>
          r.state := state;
          r.phaseDetail := Either(detail, r.phaseDetail);
          r.prUrl := Either(prUrl, r.prUrl);
        case BuildTerminal(d) =>
          r.state, r.phaseDetail, r.prUrl, r.error := d.state, d.phaseDetail, d.prUrl, d.error;
          r.executionId := Either(d.executionId, r.executionId);
        case _ =>
      }
    }
    assert es[..|es|] == es;
    rec := r;
  }
}
