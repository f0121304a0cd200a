/** The durable build queue: which builds are pending, and what one scheduling pass does. */
module Scheduler {
  import opened Common
  import opened EventLog
  import opened LedgerModel
  import RoutingPolicy
  import opened Builds
  import opened BuildTask

  // -- reading the queue off the log -----------------------------------------------

  predicate IsEnqueue(e: Event, id: string) {
    e.buildId == id && e.payload.BuildEnqueued?
  }

  predicate Enqueued(es: seq<Event>, id: string) {
    es != [] && (IsEnqueue(es[|es| - 1], id) || Enqueued(es[..|es| - 1], id))
  }

  /** The newest queue item of a build. */
  function RequestOf(es: seq<Event>, id: string): Option<Request> {
    if es == [] then None
    else if IsEnqueue(es[|es| - 1], id) then Some(es[|es| - 1].payload.request)
    else RequestOf(es[..|es| - 1], id)
  }

  /** The builds enqueued in `part`, first come first, that `all` shows no terminal event for and whose stored payload
      is readable. */
  function PendingIn(part: seq<Event>, all: seq<Event>, unreadable: set<string>): seq<string> {
    if part == [] then []
    else
      var rest, e := PendingIn(part[..|part| - 1], all, unreadable), part[|part| - 1];
      if e.payload.BuildEnqueued? && e.buildId != "" && !HasTerminal(all, e.buildId)
         && e.buildId !in unreadable && e.buildId !in rest
      then rest + [e.buildId] else rest
  }

  const PAYLOAD_NOTE := "invalid payload"
  const REJECTED := Detail(Failed, "", "", "", PAYLOAD_NOTE)

  /** The terminal events a pass writes for queue items it cannot read. */
  function Rejections(part: seq<Event>, all: seq<Event>, unreadable: set<string>, now: Time): seq<Event> {
    if part == [] then []
    else
      var rest, e := Rejections(part[..|part| - 1], all, unreadable, now), part[|part| - 1];
      if e.payload.BuildEnqueued? && e.buildId != "" && !HasTerminal(all, e.buildId) && e.buildId in unreadable
      then rest + [Event(now, e.buildId, BuildTerminal(REJECTED))] else rest
  }

  /** What the dashboard shows of a build. */
  datatype Snapshot =
    | Unknown
    | Waiting(item: Request)
    | Live(detail: Detail, request: Option<Request>)
    | Final(detail: Detail, request: Option<Request>)

  function TerminalDetail(es: seq<Event>, id: string): Option<Detail> {
    if es == [] then None
    else if es[|es| - 1].buildId == id && es[|es| - 1].payload.BuildTerminal? then Some(es[|es| - 1].payload.detail)
    else TerminalDetail(es[..|es| - 1], id)
  }

  /** The record the running task keeps for the dashboard. */
  predicate Active(tasks: map<string, Task>, id: string) {
    id in tasks && !tasks[id].phase.Created? && !tasks[id].phase.Submitting? && !tasks[id].phase.ScopedWork?
    && !tasks[id].phase.ScopedReport? && !tasks[id].phase.Finished?
  }

  function SnapshotOf(es: seq<Event>, tasks: map<string, Task>, id: string): Snapshot {
    var request := RequestOf(es, id);
    match TerminalDetail(es, id)
    case Some(d) => Final(d, request)
    case None =>
      if Active(tasks, id) then Live(DetailOf(tasks[id].record), request)
      else
        match LoadBuild(es, id, 0.0)
        case Some(r) => Live(DetailOf(r), request)
        case None => if request.Some? then Waiting(request.value) else Unknown
  }

  // -- one scheduling pass ------------------------------------------------------------

  datatype Queue = Queue(log: seq<Event>, tasks: map<string, Task>, maxConcurrent: nat, unreadable: set<string>)

  function Reaped(tasks: map<string, Task>): map<string, Task> {
    map id | id in tasks && !tasks[id].phase.Finished? :: tasks[id]
  }

  function Pending(q: Queue): seq<string> {
    var es := ByTime(q.log);
    PendingIn(es, es, q.unreadable)
  }

  /** Reading the pending builds also writes off the unreadable ones. */
  function WriteOff(q: Queue, now: Time): Queue {
    var es := ByTime(q.log);
    q.(log := q.log + Rejections(es, es, q.unreadable, now))
  }

  const STOPPED_DETAIL := Detail(Stopped, "", STOP_NOTE, "", "")

  /** `_record_terminal`: at most one terminal event per build. */
  function RecordTerminal(log: seq<Event>, id: string, d: Detail, now: Time): seq<Event> {
    if HasTerminal(ByTime(log), id) then log else log + [Event(now, id, BuildTerminal(d))]
  }

  function StopOne(log: seq<Event>, id: string, tasks: map<string, Task>, now: Time): seq<Event> {
    if id !in tasks && ControlState(ByTime(log), id) == Stopping then RecordTerminal(log, id, STOPPED_DETAIL, now)
    else log
  }

  function StopQueued(log: seq<Event>, ids: seq<string>, tasks: map<string, Task>, now: Time): seq<Event> {
    if ids == [] then log else StopOne(StopQueued(log, ids[..|ids| - 1], tasks, now), ids[|ids| - 1], tasks, now)
  }

  const NO_REQUEST := Request("", "", Scoped, 0.0, map[])

  function RequestFor(es: seq<Event>, id: string): Request {
    if RequestOf(es, id).Some? then RequestOf(es, id).value else NO_REQUEST
  }

  /** Dispatch the first untracked builds of `ids` until `max` are tracked. */
  function StartTasks(ids: seq<string>, tasks: map<string, Task>, max: nat, es: seq<Event>): map<string, Task> {
    if ids == [] then tasks
    else
      var before, id := StartTasks(ids[..|ids| - 1], tasks, max, es), ids[|ids| - 1];
      if |before| >= max || id in before then before else before[id := Dispatched(RequestFor(es, id))]
  }

  /** The first half of a pass: reap the ended tasks, read the queue, end what its owner stopped. */
  function EndStops(q: Queue, now: Time): Queue {
    var q1 := WriteOff(q.(tasks := Reaped(q.tasks)), now);
    q1.(log := StopQueued(q1.log, Pending(q), q1.tasks, now))
  }

  /** One pass of the scheduler; it runs without awaiting anything. */
  function RunOnce(q: Queue, now: Time): Queue {
    var q2 := EndStops(q, now);
    if |q2.tasks| >= q2.maxConcurrent then q2
    else
      var q3 := WriteOff(q2, now);
      q3.(tasks := StartTasks(Pending(q2), q3.tasks, q3.maxConcurrent, ByTime(q3.log)))
  }

  function Enqueue(q: Queue, id: string, request: Request, now: Time): Option<Queue> {
    if SnapshotOf(ByTime(q.log), q.tasks, id) != Unknown then None
    else Some(q.(log := q.log + [Event(now, id, BuildEnqueued(request))]))
  }

  /** Why a build is not queued. */
  datatype Refusal = KnownId | BadPolicy(why: RoutingPolicy.Rejection)

  // -- the scheduler object ---------------------------------------------------------------

  class BuildScheduler {
    const ledger: Ledger
    var tasks: map<string, Task>
    var maxConcurrent: nat
    // The queue items whose stored payload this version of the scheduler rejects.
    const unreadable: set<string>

    ghost function State(): Queue
      reads this, ledger
    {
      Queue(ledger.events, tasks, maxConcurrent, unreadable)
    }

    constructor (ledger: Ledger, maxConcurrent: int, unreadable: set<string>)
      ensures this.ledger == ledger
      ensures State() == Queue(ledger.events, map[], if maxConcurrent < 1 then 1 else maxConcurrent, unreadable)
    {
      this.ledger, this.unreadable := ledger, unreadable;
      this.tasks, this.maxConcurrent := map[], if maxConcurrent < 1 then 1 else maxConcurrent;
    }

    /** Queue a build under a fresh id, with the routing policy it is to run under: the one it names, or else the stored
        one. A known id is refused first, then a policy that cannot be applied; nothing is written then. */
    method EnqueueBuild(id: string, request: Request, named: Option<RoutingPolicy.Raw>, stored: RoutingPolicy.Raw,
                        subscriptionsOnly: bool, now: Time)
      returns (refusal: Option<Refusal>)
      modifies ledger`events
      ensures refusal == Some(KnownId) <==> SnapshotOf(ByTime(old(ledger.events)), tasks, id) != Unknown
      ensures var n := RoutingPolicy.PolicyOf(named, stored, subscriptionsOnly);
              && (refusal.Some? && refusal.value.BadPolicy? <==> refusal != Some(KnownId) && n.Rejected?)
              && (refusal.Some? && refusal.value.BadPolicy? ==> refusal.value.why == n.why)
              && (refusal.Some? ==> State() == old(State()))
              && (refusal.None? ==>
                    && RoutingPolicy.WellFormed(n.policy, subscriptionsOnly)
                    && Some(State()) == Enqueue(old(State()), id, request.(policy := n.policy), now))
      ensures named.None? ==> refusal.None? || refusal.value.KnownId?
    {
      if SnapshotOf(ByTime(ledger.events), tasks, id) != Unknown {
        return Some(KnownId);
      }
      RoutingPolicy.UnnamedPolicyIsAccepted(named, stored, subscriptionsOnly);
      var raw := if named.Some? then named.value else RoutingPolicy.AsRaw(RoutingPolicy.Load(stored, subscriptionsOnly));
      var n := RoutingPolicy.NormalizePolicy(raw, subscriptionsOnly);
      if n.Rejected? {
        return Some(BadPolicy(n.why));
      }
      ledger.RecordEvent(BuildEnqueued(request.(policy := n.policy)), id, now);
      refusal := None;
    }

    /** The dispatchable builds, oldest first. */
    method PendingRequests(now: Time) returns (ids: seq<string>)
      modifies ledger`events
      ensures ids == Pending(old(State()))
      ensures State() == WriteOff(old(State()), now)
    {
      var es := ByTime(ledger.events);
      ids := [];
      ghost var before := ledger.events;
      for i := 0 to |es|
        invariant ids == PendingIn(es[..i], es, unreadable)
        invariant ledger.events == before + Rejections(es[..i], es, unreadable, now)
        invariant tasks == old(tasks) && maxConcurrent == old(maxConcurrent)
      {
        assert es[..i + 1][..i] == es[..i];
        var e := es[i];
        if e.payload.BuildEnqueued? && e.buildId != "" && !HasTerminal(es, e.buildId) {
          if e.buildId in unreadable {
            ledger.RecordEvent(BuildTerminal(REJECTED), e.buildId, now);
          } else if e.buildId !in ids {
            ids := ids + [e.buildId];
          }
        }
      }
      assert es[..|es|] == es;
    }

    method RecordTerminalEvent(id: string, d: Detail, now: Time)
      modifies ledger`events
      ensures ledger.events == RecordTerminal(old(ledger.events), id, d, now)
    {
      if !HasTerminal(ByTime(ledger.events), id) {
        ledger.RecordEvent(BuildTerminal(d), id, now);
      }
    }

    /** Drop the tasks that have ended. */
    method Reap()
      modifies this`tasks
      ensures tasks == Reaped(old(tasks))
    {
      var left := tasks.Keys;
      var kept := map[];
      while left != {}
        invariant left <= tasks.Keys && tasks == old(tasks)
        invariant kept == map id | id in tasks && id !in left && !tasks[id].phase.Finished? :: tasks[id]
        decreases |left|
      {
        var id :| id in left;
        if !tasks[id].phase.Finished? {
          kept := kept[id := tasks[id]];
        }
        left := left - {id};
      }
      tasks := kept;
    }

    method EndIfStopped(id: string, now: Time)
      modifies ledger`events
      ensures ledger.events == StopOne(old(ledger.events), id, tasks, now)
    {
      if id !in tasks && ControlState(ByTime(ledger.events), id) == Stopping {
        RecordTerminalEvent(id, STOPPED_DETAIL, now);
      }
    }

    /** End the queued builds whose owner stopped them, without waiting for a slot. */
    method EndStopped(ids: seq<string>, now: Time)
      modifies ledger`events
      ensures ledger.events == StopQueued(old(ledger.events), ids, tasks, now)
    {
      for i := 0 to |ids|
        invariant ledger.events == StopQueued(old(ledger.events), ids[..i], tasks, now)
      {
        assert ids[..i + 1][..i] == ids[..i];
        EndIfStopped(ids[i], now);
      }
      assert ids[..|ids|] == ids;
    }

    /** Fill the free slots in queue order. */
    method Dispatch(ids: seq<string>)
      modifies this`tasks
      ensures tasks == StartTasks(ids, old(tasks), maxConcurrent, ByTime(ledger.events))
    {
      var es := ByTime(ledger.events);
      var slots := maxConcurrent - |tasks|;
      var i := 0;
      while i < |ids| && slots > 0
        invariant 0 <= i <= |ids|
        invariant tasks == StartTasks(ids[..i], old(tasks), maxConcurrent, es)
        invariant slots == maxConcurrent - |tasks|
      {
        assert ids[..i + 1][..i] == ids[..i];
        if ids[i] !in tasks {
          tasks := tasks[ids[i] := Dispatched(RequestFor(es, ids[i]))];
          slots := slots - 1;
        }
        i := i + 1;
      }
      FullStaysFull(ids, i, old(tasks), maxConcurrent, es);
      assert ids[..|ids|] == ids;
    }

    /** One scheduling pass. */
    method RunOncePass(now: Time)
      modifies this`tasks, ledger`events
      ensures State() == RunOnce(old(State()), now)
    {
      Reap();
      var pending := PendingRequests(now);
      EndStopped(pending, now);
      var slots := maxConcurrent - |tasks|;
      if slots <= 0 {
        return;
      }
      pending := PendingRequests(now);
      Dispatch(pending);
    }
  }

  lemma {:induction false} FullStaysFull(ids: seq<string>, i: nat, tasks: map<string, Task>, max: nat, es: seq<Event>)
    requires i <= |ids| && (i < |ids| ==> |StartTasks(ids[..i], tasks, max, es)| >= max)
    ensures StartTasks(ids, tasks, max, es) == StartTasks(ids[..i], tasks, max, es)
  {
    if i < |ids| {
      assert ids[..|ids| - 1][..i] == ids[..i];
      FullStaysFull(ids[..|ids| - 1], i, tasks, max, es);
    } else {
      assert ids[..i] == ids;
    }
  }
}
