/** What one scheduling pass does, in closed form: it writes off and ends what it must, and afterwards exactly the
    oldest pending builds are tracked. */
module QueueLaws {
  import opened Common
  import opened EventLog
  import opened Builds
  import opened BuildTask
  import opened Scheduler
  import opened LogLaws
  import opened Readings

  // -- the pending list ------------------------------------------------------------

  ghost predicate IsPending(log: seq<Event>, unreadable: set<string>, id: string) {
    id != "" && Enqueued(log, id) && !HasTerminal(log, id) && id !in unreadable
  }

  lemma {:induction false} PendingMembers(part: seq<Event>, all: seq<Event>, unreadable: set<string>)
    ensures Distinct(PendingIn(part, all, unreadable))
    ensures forall id :: id in PendingIn(part, all, unreadable) <==>
              id != "" && Enqueued(part, id) && !HasTerminal(all, id) && id !in unreadable
  {
    if part != [] {
      var init, e := part[..|part| - 1], part[|part| - 1];
      assert part == init + [e];
      PendingMembers(init, all, unreadable);
      forall id {
        EnqueuedSnoc(init, e, id);
      }
    }
  }

  /** The builds of `p` that `log` shows no ending of, in order. */
  function Unended(p: seq<string>, log: seq<Event>): seq<string> {
    if p == [] then []
    else Unended(p[..|p| - 1], log) + if HasTerminal(log, p[|p| - 1]) then [] else [p[|p| - 1]]
  }

  lemma UnendedSnoc(p: seq<string>, id: string, log: seq<Event>)
    ensures Unended(p + [id], log) == Unended(p, log) + if HasTerminal(log, id) then [] else [id]
  {
    assert (p + [id])[..|p|] == p;
  }

  lemma {:induction false} UnendedMembers(p: seq<string>, log: seq<Event>)
    ensures forall id :: id in Unended(p, log) <==> id in p && !HasTerminal(log, id)
  {
    if p != [] {
      assert p == p[..|p| - 1] + [p[|p| - 1]];
      UnendedMembers(p[..|p| - 1], log);
    }
  }

  lemma {:induction false} UnendedAll(p: seq<string>, log: seq<Event>)
    requires forall id :: id in p ==> !HasTerminal(log, id)
    ensures Unended(p, log) == p
  {
    if p != [] {
      UnendedAll(p[..|p| - 1], log);
      assert p == p[..|p| - 1] + [p[|p| - 1]];
    }
  }

  /** Terminal events only remove builds from the pending list; the order of the others stays. */
  lemma {:induction false} PendingShrinks(part: seq<Event>, all: seq<Event>, later: seq<Event>, unreadable: set<string>)
    requires forall id :: HasTerminal(all, id) ==> HasTerminal(later, id)
    ensures PendingIn(part, later, unreadable) == Unended(PendingIn(part, all, unreadable), later)
  {
    if part != [] {
      var init, e := part[..|part| - 1], part[|part| - 1];
      var p := PendingIn(init, all, unreadable);
      PendingShrinks(init, all, later, unreadable);
      UnendedMembers(p, later);
      UnendedSnoc(p, e.buildId, later);
    }
  }

  /** Tracked builds come first. */
  ghost predicate Prefixed(p: seq<string>, tracked: set<string>) {
    p == [] || (Prefixed(p[..|p| - 1], tracked) && (p[|p| - 1] in tracked ==> Elements(p) <= tracked))
  }

  lemma {:induction false} NothingTracked(p: seq<string>)
    ensures Prefixed(p, {})
  {
    if p != [] {
      NothingTracked(p[..|p| - 1]);
    }
  }

  lemma {:induction false} PrefixedAt(p: seq<string>, tracked: set<string>, j: nat)
    requires Prefixed(p, tracked) && j < |p| && p[j] in tracked
    ensures Elements(p[..j + 1]) <= tracked
  {
    if j < |p| - 1 {
      PrefixedAt(p[..|p| - 1], tracked, j);
      assert p[..|p| - 1][..j + 1] == p[..j + 1];
    } else {
      assert p[..j + 1] == p;
    }
  }

  lemma {:induction false} UnendedPrefixed(p: seq<string>, tracked: set<string>, log: seq<Event>)
    requires Prefixed(p, tracked)
    ensures Prefixed(Unended(p, log), tracked)
  {
    if p != [] {
      var init, last := p[..|p| - 1], p[|p| - 1];
      var u := Unended(init, log);
      UnendedPrefixed(init, tracked, log);
      UnendedMembers(p, log);
      if !HasTerminal(log, last) {
        assert Unended(p, log) == u + [last];
        assert (u + [last])[..|u|] == u;
        assert Elements(u + [last]) <= Elements(p);
      } else {
        assert Unended(p, log) == u;
      }
    }
  }

  lemma {:induction false} FrontIsPrefixed(p: seq<string>, k: nat)
    requires Distinct(p) && k <= |p|
    ensures Prefixed(p, Elements(p[..k]))
  {
    FrontPart(p, k, |p|);
    assert p[..|p|] == p;
  }

  lemma {:induction false} FrontPart(p: seq<string>, k: nat, n: nat)
    requires Distinct(p) && k <= |p| && n <= |p|
    ensures Prefixed(p[..n], Elements(p[..k]))
  {
    if n > 0 {
      FrontPart(p, k, n - 1);
      assert p[..n][..n - 1] == p[..n - 1];
      if p[n - 1] in p[..k] {
        var i :| 0 <= i < k && p[..k][i] == p[n - 1];
        assert i == n - 1;
        assert forall x :: x in p[..n] ==> x in p[..k];
      }
    }
  }

  lemma TrackedAreEarly(p: seq<string>, tracked: set<string>, j: nat)
    requires Distinct(p) && Prefixed(p, tracked) && j < |p| && p[j] in tracked
    ensures j < |tracked|
  {
    DistinctCardinality(p[..j + 1]);
    PrefixedAt(p, tracked, j);
    SubsetSize(Elements(p[..j + 1]), tracked);
  }

  /** The first `max` elements, or all of them. */
  function Oldest(p: seq<string>, max: nat): seq<string> {
    if |p| <= max then p else p[..max]
  }

  /** Which builds are tracked once the slots have been offered to `p` in order. */
  function KeysAfter(p: seq<string>, tracked: set<string>, max: nat): set<string> {
    if p == [] then tracked
    else
      var before, id := KeysAfter(p[..|p| - 1], tracked, max), p[|p| - 1];
      if |before| >= max || id in before then before else before + {id}
  }

  lemma {:induction false} StartKeys(p: seq<string>, tasks: map<string, Task>, max: nat, es: seq<Event>)
    ensures StartTasks(p, tasks, max, es).Keys == KeysAfter(p, tasks.Keys, max)
  {
    if p != [] {
      StartKeys(p[..|p| - 1], tasks, max, es);
      var before := StartTasks(p[..|p| - 1], tasks, max, es);
      assert |before| == |before.Keys|;
    }
  }

  /** As long as everything offered fits into `all`, everything offered is tracked. */
  lemma {:induction false} EarlyOnesFit(p: seq<string>, tracked: set<string>, all: set<string>, max: nat)
    requires forall id :: id in p ==> id in all
    requires tracked <= all && |all| <= max
    ensures KeysAfter(p, tracked, max) == tracked + Elements(p)
  {
    if p != [] {
      var init, id := p[..|p| - 1], p[|p| - 1];
      assert p == init + [id];
      EarlyOnesFit(init, tracked, all, max);
      var before := KeysAfter(init, tracked, max);
      if id !in before {
        SubsetSize(before + {id}, all);
      }
    }
  }

  lemma {:induction false} FullStaysTracked(p: seq<string>, k: nat, tracked: set<string>, max: nat)
    requires k <= |p| && |KeysAfter(p[..k], tracked, max)| >= max
    ensures KeysAfter(p, tracked, max) == KeysAfter(p[..k], tracked, max)
  {
    if k < |p| {
      assert p[..|p| - 1][..k] == p[..k];
      FullStaysTracked(p[..|p| - 1], k, tracked, max);
    } else {
      assert p[..k] == p;
    }
  }

  /** Filling the slots in order leaves exactly the oldest builds tracked, if those tracked before were among them. */
  lemma SlotsFillOldest(p: seq<string>, tracked: set<string>, max: nat)
    requires Distinct(p)
    requires tracked <= Elements(Oldest(p, max))
    ensures KeysAfter(p, tracked, max) == Elements(Oldest(p, max))
  {
    var oldest := Oldest(p, max);
    assert Distinct(oldest);
    DistinctCardinality(oldest);
    EarlyOnesFit(oldest, tracked, Elements(oldest), max);
    if |p| > max {
      FullStaysTracked(p, max, tracked, max);
    }
  }

  lemma {:induction false} StartKeepsTasks(p: seq<string>, tasks: map<string, Task>, max: nat, es: seq<Event>)
    ensures var after := StartTasks(p, tasks, max, es);
            && tasks.Keys <= after.Keys
            && (forall id :: id in tasks ==> after[id] == tasks[id])
            && (forall id :: id in after && id !in tasks ==> id in p && after[id] == Dispatched(RequestFor(es, id)))
  {
    if p != [] {
      StartKeepsTasks(p[..|p| - 1], tasks, max, es);
    }
  }

  /** Whatever was tracked before: a slot goes to a build only when every build listed before it is tracked, and a slot
      stays empty only when every listed build is tracked. */
  lemma {:induction false} SlotsGoInOrder(p: seq<string>, tracked: set<string>, max: nat, j: nat)
    requires Distinct(p) && j < |p|
    ensures var after := KeysAfter(p, tracked, max);
            && tracked <= after
            && (|after| < max ==> p[j] in after)
            && (p[j] in after && p[j] !in tracked ==> Elements(p[..j]) <= after)
  {
    var init, id := p[..|p| - 1], p[|p| - 1];
    assert p == init + [id];
    if |KeysAfter(init, tracked, max)| < max {
      forall i | 0 <= i < |init| ensures init[i] in KeysAfter(init, tracked, max) {
        SlotsGoInOrder(init, tracked, max, i);
      }
    }
    KeysGrow(init, tracked, max);
    if j < |init| {
      SlotsGoInOrder(init, tracked, max, j);
      assert init[..j] == p[..j];
    } else {
      assert p[..j] == init;
    }
  }

  lemma {:induction false} KeysGrow(p: seq<string>, tracked: set<string>, max: nat)
    ensures tracked <= KeysAfter(p, tracked, max) <= tracked + Elements(p)
  {
    if p != [] {
      KeysGrow(p[..|p| - 1], tracked, max);
    }
  }

  // -- the events of a pass --------------------------------------------------------------

  /** `later` is `log` and then terminal events of queued builds, one each, that name no execution and claim no success. */
  ghost predicate Ends(log: seq<Event>, later: seq<Event>) {
    && log <= later && Proper(later)
    && forall k :: |log| <= k < |later| ==> EndsQuietly(log, later[k])
  }

  ghost predicate EndsQuietly(log: seq<Event>, e: Event) {
    && e.payload.BuildTerminal? && e.payload.detail.executionId == "" && e.payload.detail.state != Complete
    && Enqueued(log, e.buildId) && !HasTerminal(log, e.buildId)
  }

  lemma EndsSnoc(log: seq<Event>, later: seq<Event>, id: string, d: Detail, now: Time)
    requires Ends(log, later) && !HasTerminal(later, id) && !HasTerminal(log, id) && Enqueued(log, id)
    requires Enqueued(later, id) && d.executionId == "" && d.state != Complete
    ensures Ends(log, later + [Event(now, id, BuildTerminal(d))])
  {
    ProperSnoc(later, Event(now, id, BuildTerminal(d)));
  }

  lemma EndsPrefix(log: seq<Event>, later: seq<Event>)
    requires Ends(log, later) && |later| > |log|
    ensures Ends(log, later[..|later| - 1])
  {
  }

  lemma {:induction false} EndsReadings(log: seq<Event>, later: seq<Event>, id: string)
    requires Ends(log, later)
    ensures Enqueued(later, id) <==> Enqueued(log, id)
    ensures HasTerminal(log, id) ==> HasTerminal(later, id)
    ensures Submitted(later, id) <==> Submitted(log, id)
    ensures Outstanding(later, id) == Outstanding(log, id)
  {
    if |later| > |log| {
      var init, e := later[..|later| - 1], later[|later| - 1];
      assert later == init + [e];
      EndsPrefix(log, later);
      EndsReadings(log, init, id);
      ReadingsSnoc(init, e, id);
    } else {
      assert later == log;
    }
  }

  /** Endings touch no control signal, whatever their stamps. */
  lemma EndsControl(log: seq<Event>, later: seq<Event>, id: string)
    requires Ends(log, later)
    ensures ControlState(ByTime(later), id) == ControlState(ByTime(log), id)
  {
    EndsAppend(log, later);
    ControlBeside(log, later[|log|..], id);
  }

  lemma EndsAppend(log: seq<Event>, later: seq<Event>)
    requires Ends(log, later)
    ensures later == log + later[|log|..]
    ensures forall e :: e in later[|log|..] ==> EndsQuietly(log, e)
  {
    hide HasTerminal, Proper, Enqueued;
    var ext := later[|log|..];
    forall e | e in ext ensures EndsQuietly(log, e) {
      var k :| 0 <= k < |ext| && ext[k] == e;
      assert later[|log| + k] == e;
    }
  }

  lemma {:induction false} TerminalConcat(log: seq<Event>, ext: seq<Event>, id: string)
    ensures HasTerminal(log + ext, id) <==> HasTerminal(log, id) || HasTerminal(ext, id)
  {
    if ext == [] {
      assert log + ext == log;
    } else {
      var init, e := ext[..|ext| - 1], ext[|ext| - 1];
      TerminalConcat(log, init, id);
      assert log + ext == (log + init) + [e];
      TerminalSnoc(log + init, e, id);
    }
  }

  lemma {:induction false} RejectedBuilds(part: seq<Event>, all: seq<Event>, unreadable: set<string>, now: Time,
                                          id: string)
    ensures HasTerminal(Rejections(part, all, unreadable, now), id) <==>
            id != "" && Enqueued(part, id) && !HasTerminal(all, id) && id in unreadable
  {
    if part != [] {
      var init, e := part[..|part| - 1], part[|part| - 1];
      RejectedBuilds(init, all, unreadable, now, id);
      assert part == init + [e];
      EnqueuedSnoc(init, e, id);
      var rest := Rejections(init, all, unreadable, now);
      TerminalSnoc(rest, Event(now, e.buildId, BuildTerminal(REJECTED)), id);
    }
  }

  /** `es` is a reading of `log`: perhaps in another order, but the same builds were queued, once each, and ended. */
  ghost predicate Reads(log: seq<Event>, es: seq<Event>) {
    && QueuedOnce(es)
    && (forall id :: Enqueued(es, id) <==> Enqueued(log, id))
    && (forall id :: HasTerminal(es, id) <==> HasTerminal(log, id))
  }

  lemma ByTimeReads(log: seq<Event>)
    requires Proper(log)
    ensures Reads(log, ByTime(log))
  {
    ReadQueuedOnce(log);
    forall id
      ensures Enqueued(ByTime(log), id) <==> Enqueued(log, id)
      ensures HasTerminal(ByTime(log), id) <==> HasTerminal(log, id)
    {
      OrderFree(log, id);
    }
  }

  lemma {:induction false} QueuedOnceAt(es: seq<Event>, k: nat)
    requires QueuedOnce(es) && k < |es| && es[k].payload.BuildEnqueued?
    ensures !Enqueued(es[..k], es[k].buildId) && Enqueued(es, es[k].buildId)
  {
    if k < |es| - 1 {
      QueuedOnceAt(es[..|es| - 1], k);
      assert es[..|es| - 1][..k] == es[..k];
    }
  }

  /** Rejecting one more queue item extends a log of endings. */
  lemma RejectOne(log: seq<Event>, es: seq<Event>, rest: seq<Event>, k: nat, unreadable: set<string>, now: Time)
    requires Reads(log, es) && k < |es| && rest == Rejections(es[..k], es, unreadable, now)
    requires Ends(log, log + rest)
    requires es[k].payload.BuildEnqueued? && es[k].buildId != "" && !HasTerminal(es, es[k].buildId)
    ensures Ends(log, log + (rest + [Event(now, es[k].buildId, BuildTerminal(REJECTED))]))
  {
    var id := es[k].buildId;
    QueuedOnceAt(es, k);
    RejectedBuilds(es[..k], es, unreadable, now, id);
    TerminalConcat(log, rest, id);
    EndsReadings(log, log + rest, id);
    EndsSnoc(log, log + rest, id, REJECTED, now);
    assert log + (rest + [Event(now, id, BuildTerminal(REJECTED))])
           == (log + rest) + [Event(now, id, BuildTerminal(REJECTED))];
  }

  lemma {:induction false} RejectionsEnd(log: seq<Event>, es: seq<Event>, k: nat, unreadable: set<string>, now: Time)
    requires Proper(log) && Reads(log, es) && k <= |es|
    ensures Ends(log, log + Rejections(es[..k], es, unreadable, now))
  {
    hide Reads;
    if k == 0 {
      assert log + [] == log;
    } else {
      RejectionsEnd(log, es, k - 1, unreadable, now);
      assert es[..k][..k - 1] == es[..k - 1];
      var e, rest := es[k - 1], Rejections(es[..k - 1], es, unreadable, now);
      if e.payload.BuildEnqueued? && e.buildId != "" && !HasTerminal(es, e.buildId) && e.buildId in unreadable {
        RejectOne(log, es, rest, k - 1, unreadable, now);
      }
    }
  }

  /** Reading the queue writes off exactly the unreadable builds. */
  lemma WriteOffEnds(q: Queue, now: Time)
    requires Proper(q.log)
    ensures var later := WriteOff(q, now).log;
            && Ends(q.log, later)
            && forall id :: HasTerminal(later, id) <==>
                 HasTerminal(q.log, id) || (id != "" && Enqueued(q.log, id) && id in q.unreadable)
  {
    var es := ByTime(q.log);
    ByTimeReads(q.log);
    assert es[..|es|] == es;
    RejectionsEnd(q.log, es, |es|, q.unreadable, now);
    forall id
      ensures HasTerminal(WriteOff(q, now).log, id) <==>
              HasTerminal(q.log, id) || (id != "" && Enqueued(q.log, id) && id in q.unreadable)
    {
      RejectedBuilds(es, es, q.unreadable, now, id);
      TerminalConcat(q.log, Rejections(es, es, q.unreadable, now), id);
    }
  }

  lemma {:induction false} NothingToReject(part: seq<Event>, all: seq<Event>, unreadable: set<string>, now: Time)
    requires forall id :: id != "" && Enqueued(part, id) && id in unreadable ==> HasTerminal(all, id)
    ensures Rejections(part, all, unreadable, now) == []
  {
    if part != [] {
      var init, e := part[..|part| - 1], part[|part| - 1];
      assert part == init + [e];
      forall id {
        EnqueuedSnoc(init, e, id);
      }
      NothingToReject(init, all, unreadable, now);
    }
  }

  lemma StopOneEnds(log0: seq<Event>, log: seq<Event>, id: string, tasks: map<string, Task>, now: Time)
    requires Ends(log0, log) && Enqueued(log0, id) && !HasTerminal(log0, id)
    ensures var later := StopOne(log, id, tasks, now);
            && Ends(log0, later)
            && forall x :: HasTerminal(later, x) <==>
                 HasTerminal(log, x) || (x == id && id !in tasks && ControlState(ByTime(log0), id) == Stopping)
  {
    OrderFree(log, id);
    EndsControl(log0, log, id);
    EndsReadings(log0, log, id);
    if id !in tasks && ControlState(ByTime(log), id) == Stopping && !HasTerminal(log, id) {
      EndsSnoc(log0, log, id, STOPPED_DETAIL, now);
      forall x {
        TerminalSnoc(log, Event(now, id, BuildTerminal(STOPPED_DETAIL)), x);
      }
    }
  }

  lemma {:induction false} StopQueuedEnds(log0: seq<Event>, log: seq<Event>, ids: seq<string>, tasks: map<string,
                                          Task>, now: Time)
    requires Ends(log0, log)
    requires forall id :: id in ids ==> Enqueued(log0, id) && !HasTerminal(log0, id)
    ensures Ends(log0, StopQueued(log, ids, tasks, now))
    ensures forall id :: HasTerminal(StopQueued(log, ids, tasks, now), id) <==>
              HasTerminal(log, id) || (id in ids && id !in tasks && ControlState(ByTime(log0), id) == Stopping)
  {
    if ids != [] {
      var init, id := ids[..|ids| - 1], ids[|ids| - 1];
      assert ids == init + [id];
      StopQueuedEnds(log0, log, init, tasks, now);
      StopOneEnds(log0, StopQueued(log, init, tasks, now), id, tasks, now);
    }
  }

  /** Which builds the first half of a pass ends. */
  ghost predicate EndedByPass(q: Queue, id: string) {
    || (id != "" && Enqueued(q.log, id) && id in q.unreadable)
    || (IsPending(q.log, q.unreadable, id) && id !in Reaped(q.tasks) && ControlState(ByTime(q.log), id) == Stopping)
  }

  /** The pending list, read off a log in whatever order, holds the pending builds. */
  lemma PendingIff(q: Queue)
    ensures Distinct(Pending(q))
    ensures forall id :: id in Pending(q) <==> IsPending(q.log, q.unreadable, id)
  {
    var es := ByTime(q.log);
    PendingMembers(es, es, q.unreadable);
    forall id ensures id in Pending(q) <==> IsPending(q.log, q.unreadable, id) {
      OrderFree(q.log, id);
    }
  }

  lemma FirstHalfEnds(q: Queue, now: Time)
    requires Proper(q.log)
    ensures Ends(q.log, EndStops(q, now).log)
    ensures forall id :: HasTerminal(EndStops(q, now).log, id) <==> HasTerminal(q.log, id) || EndedByPass(q, id)
  {
    hide ControlState;
    var q0 := q.(tasks := Reaped(q.tasks));
    WriteOffEnds(q0, now);
    PendingIff(q);
    StopQueuedEnds(q.log, WriteOff(q0, now).log, Pending(q), Reaped(q.tasks), now);
  }

  /** Once every unreadable build has ended, reading the queue writes nothing off. */
  lemma CleanRead(q: Queue, now: Time)
    requires forall id :: id != "" && Enqueued(q.log, id) && id in q.unreadable ==> HasTerminal(q.log, id)
    ensures WriteOff(q, now) == q
  {
    var es := ByTime(q.log);
    forall id | id != "" && Enqueued(es, id) && id in q.unreadable ensures HasTerminal(es, id) {
      OrderFree(q.log, id);
    }
    NothingToReject(es, es, q.unreadable, now);
    assert q.log + [] == q.log;
  }

  /** The second reading of the queue within a pass finds nothing left to write off. */
  lemma SecondReadIsClean(q: Queue, now: Time)
    requires Proper(q.log)
    ensures WriteOff(EndStops(q, now), now) == EndStops(q, now)
  {
    hide WriteOff;
    FirstHalfEnds(q, now);
    var q2 := EndStops(q, now);
    UnreadableEnded(q, q2.log);
    KeepsSettings(q, now);
    CleanRead(q2, now);
  }

  lemma KeepsSettings(q: Queue, now: Time)
    ensures EndStops(q, now).unreadable == q.unreadable && EndStops(q, now).maxConcurrent == q.maxConcurrent
    ensures EndStops(q, now).tasks == Reaped(q.tasks)
  {
  }

  lemma UnreadableEnded(q: Queue, log2: seq<Event>)
    requires Ends(q.log, log2)
    requires forall id :: EndedByPass(q, id) ==> HasTerminal(log2, id)
    ensures forall id :: id != "" && Enqueued(log2, id) && id in q.unreadable ==> HasTerminal(log2, id)
  {
    forall id | id != "" && Enqueued(log2, id) && id in q.unreadable ensures HasTerminal(log2, id) {
      EndsReadings(q.log, log2, id);
      assert EndedByPass(q, id);
    }
  }

  /** The log after a pass: it ends the unreadable builds and the stopped ones that no task holds, and nothing else. */
  lemma PassEnds(q: Queue, now: Time)
    requires Proper(q.log)
    ensures Ends(q.log, RunOnce(q, now).log)
    ensures forall id :: HasTerminal(RunOnce(q, now).log, id) <==> HasTerminal(q.log, id) || EndedByPass(q, id)
  {
    hide EndStops, WriteOff, EndedByPass;
    FirstHalfEnds(q, now);
    SecondReadIsClean(q, now);
  }

  lemma PassSettings(q: Queue, now: Time)
    ensures RunOnce(q, now).maxConcurrent == q.maxConcurrent && RunOnce(q, now).unreadable == q.unreadable
  {
    hide EndStops;
    KeepsSettings(q, now);
  }

  /** The pass starts tasks off the pending list it leaves behind, also when it returns early. */
  lemma PassStarts(q: Queue, now: Time)
    requires Proper(q.log)
    ensures var q2 := RunOnce(q, now);
            q2.tasks == StartTasks(Pending(q2), Reaped(q.tasks), q.maxConcurrent, ByTime(q2.log))
  {
    hide EndStops, WriteOff, Reaped;
    SecondReadIsClean(q, now);
    KeepsSettings(q, now);
    var q2 := RunOnce(q, now);
    if |Reaped(q.tasks)| >= q.maxConcurrent {
      assert Pending(q2)[..0] == [];
      FullStaysFull(Pending(q2), 0, Reaped(q.tasks), q.maxConcurrent, ByTime(q2.log));
    }
  }

  // -- what a pass leaves behind -----------------------------------------------------------------

  /** A tracked build was queued; while its task runs it has not ended, and what it awaits was noted. */
  ghost predicate Tracks(log: seq<Event>, unreadable: set<string>, id: string, t: Task) {
    && id != "" && Enqueued(log, id)
    && (!t.phase.Finished? ==> !HasTerminal(log, id) && id !in unreadable)
    && (t.phase == Finished(false) ==> HasTerminal(log, id))
    && (t.phase.Submitting? ==> Submitted(log, id))
  }

  /** The tasks `before` run on, and the others are builds of `p` dispatched afresh: none while an older one waits, and as
      many as there are slots. */
  ghost predicate Filled(p: seq<string>, before: map<string, Task>, after: map<string, Task>, max: nat, es: seq<Event>) {
    && (forall id :: id in before ==> id in after && after[id] == before[id])
    && (forall id :: id in after && id !in before ==> id in p && after[id] == Dispatched(RequestFor(es, id)))
    && (forall j :: 0 <= j < |p| && p[j] in after && p[j] !in before ==> Elements(p[..j]) <= after.Keys)
    && (|after| < max ==> Elements(p) <= after.Keys)
    && (|before| <= max ==> |after| <= max)
  }

  /** What a pass does with its slots. */
  ghost predicate FillsSlots(q: Queue, after: Queue) {
    Filled(Pending(after), Reaped(q.tasks), after.tasks, after.maxConcurrent, ByTime(after.log))
  }

  lemma {:induction false} StartsFit(p: seq<string>, tasks: map<string, Task>, max: nat, es: seq<Event>)
    requires |tasks| <= max
    ensures |StartTasks(p, tasks, max, es)| <= max
  {
    if p != [] {
      StartsFit(p[..|p| - 1], tasks, max, es);
    }
  }

  /** What a pass does with its slots, whatever was tracked before it and whatever the clock did. */
  lemma PassFillsSlots(q: Queue, now: Time)
    requires Proper(q.log)
    ensures FillsSlots(q, RunOnce(q, now))
  {
    hide RunOnce, Reaped, Pending, Filled, ByTime;
    var after := RunOnce(q, now);
    PassStarts(q, now);
    PassSettings(q, now);
    PendingIff(after);
    SlotsFilled(Pending(after), Reaped(q.tasks), after.maxConcurrent, ByTime(after.log));
  }

  lemma ReapedAreRunning(tasks: map<string, Task>)
    ensures forall id :: id in Reaped(tasks) <==> id in tasks && !tasks[id].phase.Finished?
    ensures forall id :: id in Reaped(tasks) ==> Reaped(tasks)[id] == tasks[id]
    ensures |Reaped(tasks)| <= |tasks|
  {
    SubsetSize(Reaped(tasks).Keys, tasks.Keys);
    assert |Reaped(tasks).Keys| == |Reaped(tasks)| && |tasks.Keys| == |tasks|;
  }

  lemma SlotsFilled(p: seq<string>, before: map<string, Task>, max: nat, es: seq<Event>)
    requires Distinct(p)
    ensures Filled(p, before, StartTasks(p, before, max, es), max, es)
  {
    hide StartTasks, KeysAfter;
    var after := StartTasks(p, before, max, es);
    StartKeys(p, before, max, es);
    StartKeepsTasks(p, before, max, es);
    assert |after.Keys| == |after|;
    forall j | 0 <= j < |p|
      ensures p[j] in after && p[j] !in before ==> Elements(p[..j]) <= after.Keys
      ensures |after| < max ==> p[j] in after
    {
      SlotsGoInOrder(p, before.Keys, max, j);
    }
    if |before| <= max {
      StartsFit(p, before, max, es);
    }
  }

  // -- the order of the queue --------------------------------------------------------------------

  /** Endings only remove builds from the list. */
  lemma EndsShrinksPending(q: Queue, later: Queue)
    requires Ends(q.log, later.log) && later.unreadable == q.unreadable
    ensures Pending(later) == Unended(Pending(q), later.log)
  {
    EndsAppend(q.log, later.log);
    forall id | HasTerminal(q.log, id) ensures HasTerminal(later.log, id) {
      EndsReadings(q.log, later.log, id);
    }
    PendingAfter(q, later);
  }

  /** Events that queue nothing only remove builds from the list, wherever their stamps put them. */
  lemma PendingAfter(q: Queue, later: Queue)
    requires q.log <= later.log && later.unreadable == q.unreadable
    requires forall e :: e in later.log[|q.log|..] ==> !e.payload.BuildEnqueued?
    requires forall id :: HasTerminal(q.log, id) ==> HasTerminal(later.log, id)
    ensures Pending(later) == Unended(Pending(q), later.log)
  {
    hide PendingIn;
    var es, es2 := ByTime(q.log), ByTime(later.log);
    assert later.log == q.log + later.log[|q.log|..];
    ReadBeside(q.log, later.log[|q.log|..], QueueItems);
    PendingFromItems(es2, es2, q.unreadable);
    PendingFromItems(es, es2, q.unreadable);
    TerminalOrderFree(q.log);
    TerminalOrderFree(later.log);
    PendingShrinks(es, es, es2, q.unreadable);
    SameUnended(Pending(q), es2, later.log);
  }

  lemma {:induction false} SameUnended(p: seq<string>, a: seq<Event>, b: seq<Event>)
    requires forall id :: HasTerminal(a, id) <==> HasTerminal(b, id)
    ensures Unended(p, a) == Unended(p, b)
  {
    if p != [] {
      SameUnended(p[..|p| - 1], a, b);
    }
  }

  /** The tracked builds are the oldest pending ones. */
  ghost predicate Orderly(q: Queue) {
    Prefixed(Pending(q), q.tasks.Keys)
  }

  /** After a pass exactly the oldest `maxConcurrent` builds that have not ended are tracked: no slot is wasted, none is
      exceeded, and no build overtakes an older one. */
  lemma PassTracksOldest(q: Queue, now: Time)
    requires Proper(q.log) && |q.tasks| <= q.maxConcurrent && Orderly(q)
    requires forall id :: id in q.tasks ==> Tracks(q.log, q.unreadable, id, q.tasks[id])
    ensures var after := RunOnce(q, now);
            after.tasks.Keys == Elements(Oldest(Pending(after), after.maxConcurrent))
  {
    hide RunOnce, Reaped, Pending;
    var after := RunOnce(q, now);
    PassEnds(q, now);
    PassSettings(q, now);
    PassStarts(q, now);
    TrackedStayOldest(q, after);
    PendingIff(after);
    StartKeys(Pending(after), Reaped(q.tasks), after.maxConcurrent, ByTime(after.log));
    SlotsFillOldest(Pending(after), Reaped(q.tasks).Keys, after.maxConcurrent);
  }

  /** A build whose task still runs is not ended by a pass. */
  lemma PassSparesRunning(q: Queue, now: Time, id: string)
    requires Proper(q.log) && id in Reaped(q.tasks) && Tracks(q.log, q.unreadable, id, q.tasks[id])
    ensures !HasTerminal(RunOnce(q, now).log, id)
  {
    PassEnds(q, now);
  }

  /** The builds whose tasks still run are among the oldest pending ones, before any new task is started. */
  lemma TrackedStayOldest(q: Queue, after: Queue)
    requires Orderly(q) && |q.tasks| <= q.maxConcurrent && after.maxConcurrent == q.maxConcurrent
    requires Ends(q.log, after.log) && after.unreadable == q.unreadable
    requires forall id :: HasTerminal(after.log, id) ==> HasTerminal(q.log, id) || EndedByPass(q, id)
    requires forall id :: id in q.tasks ==> Tracks(q.log, q.unreadable, id, q.tasks[id])
    ensures Reaped(q.tasks).Keys <= Elements(Oldest(Pending(after), after.maxConcurrent))
  {
    hide Pending;
    var p := Pending(after);
    EndsShrinksPending(q, after);
    UnendedPrefixed(Pending(q), q.tasks.Keys, after.log);
    PendingIff(after);
    assert |q.tasks.Keys| == |q.tasks|;
    forall id | id in Reaped(q.tasks) ensures id in Oldest(p, after.maxConcurrent) {
      assert Tracks(q.log, q.unreadable, id, q.tasks[id]);
      EndsReadings(q.log, after.log, id);
      assert id in p;
      var j :| 0 <= j < |p| && p[j] == id;
      TrackedAreEarly(p, q.tasks.Keys, j);
      assert Oldest(p, after.maxConcurrent)[j] == id;
    }
  }

  lemma FilledIsPrefixed(p: seq<string>, max: nat)
    requires Distinct(p)
    ensures Prefixed(p, Elements(Oldest(p, max)))
  {
    var oldest := Oldest(p, max);
    assert oldest == p[..|oldest|];
    FrontIsPrefixed(p, |oldest|);
  }
}
