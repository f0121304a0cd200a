/** What every run of the fleet promises: endings are final, and the queue is first come first served. */
module Runs {
  import opened Common
  import opened EventLog
  import opened Builds
  import opened BuildTask
  import opened Scheduler
  import opened LogLaws
  import opened Readings
  import opened TaskLaws
  import opened QueueLaws
  import opened Fleet

  // -- the log only grows ------------------------------------------------------------------

  /** What a stretch appends. */
  lemma StretchAppends(q: Queue, id: string, s: Stretch, now: Time)
    ensures var log2 := Append(q.log, id, s.out, now);
            && q.log <= log2 && log2 == q.log + log2[|q.log|..]
            && forall e :: e in log2[|q.log|..] ==> e.buildId == id && e.payload in s.out
  {
    var log2 := Append(q.log, id, s.out, now);
    AppendShape(q.log, id, s.out, now);
    forall e | e in log2[|q.log|..] ensures e.buildId == id && e.payload in s.out {
      var k :| 0 <= k < |log2[|q.log|..]| && log2[|q.log|..][k] == e;
      assert s.out[k] in s.out;
    }
  }

  lemma StepGrows(q: Queue, s: Step, limits: Limits, now: Time)
    requires Proper(q.log)
    ensures q.log <= Stepped(q, s, limits, now).log
  {
    hide RunOnce, Advance, SnapshotOf;
    match s
    case Pass => PassEnds(q, now);
    case Resume(id, answer) =>
      if InFlight(q, id) {
        StretchAppends(q, id, Advance(ByTime(q.log), id, q.tasks[id], answer, limits, now), now);
      }
    case _ =>
  }

  lemma {:induction false} RunGrows(f: Fleet, moves: seq<Move>)
    requires FleetInv(f)
    ensures f.queue.log <= Run(f, moves).queue.log
  {
    hide Stepped;
    if moves != [] {
      var init, m := moves[..|moves| - 1], moves[|moves| - 1];
      RunGrows(f, init);
      EveryRunIsSound(f, init);
      StepGrows(Run(f, init).queue, m.step, Run(f, init).limits, m.at);
    }
  }

  lemma {:induction false} StillTrue(es: seq<Event>, later: seq<Event>, id: string)
    requires es <= later
    ensures HasTerminal(es, id) ==> HasTerminal(later, id)
    ensures Enqueued(es, id) ==> Enqueued(later, id)
  {
    if |es| < |later| {
      StillTrue(es, later[..|later| - 1], id);
    } else {
      assert es == later;
    }
  }

  // -- endings are final --------------------------------------------------------------------

  lemma NotAgain(later: seq<Event>, k: nat, id: string)
    requires Proper(later) && k < |later| && HasTerminal(later[..k], id) && Enqueued(later[..k], id)
    ensures !Covers(EndingsOf(id), later[k]) && !Covers(ItemsOf(id), later[k])
  {
    ProperAt(later, k);
  }

  /** After its ending nothing queues or ends a build again. */
  lemma NothingAfterTheEnd(log: seq<Event>, later: seq<Event>, id: string)
    requires log <= later && Proper(later) && HasTerminal(log, id) && Enqueued(log, id)
    ensures later == log + later[|log|..]
    ensures forall e :: e in later[|log|..] ==> !Covers(EndingsOf(id), e) && !Covers(ItemsOf(id), e)
  {
    hide Covers, Proper, HasTerminal, Enqueued;
    var ext := later[|log|..];
    forall e | e in ext ensures !Covers(EndingsOf(id), e) && !Covers(ItemsOf(id), e) {
      var k :| 0 <= k < |ext| && ext[k] == e;
      StillTrue(log, later[..|log| + k], id);
      NotAgain(later, |log| + k, id);
    }
  }

  /** Once a build has ended, what the dashboard shows of it never changes again, whatever happens and whatever the
      clock does. */
  lemma FinalSnapshotStays(f: Fleet, moves: seq<Move>, id: string)
    requires FleetInv(f) && HasTerminal(f.queue.log, id)
    ensures var q, q2 := f.queue, Run(f, moves).queue;
            && SnapshotOf(ByTime(q2.log), q2.tasks, id) == SnapshotOf(ByTime(q.log), q.tasks, id)
            && SnapshotOf(ByTime(q.log), q.tasks, id).Final?
  {
    hide Run, Covers, Replay;
    var log, log2 := f.queue.log, Run(f, moves).queue.log;
    EveryRunIsSound(f, moves);
    RunGrows(f, moves);
    EndedWasQueued(log, id);
    NothingAfterTheEnd(log, log2, id);
    ReadBeside(log, log2[|log|..], EndingsOf(id));
    ReadBeside(log, log2[|log|..], ItemsOf(id));
    DetailFromEndings(ByTime(log), id);
    DetailFromEndings(ByTime(log2), id);
    RequestFromItems(ByTime(log), id);
    RequestFromItems(ByTime(log2), id);
    OrderFree(log, id);
    DefinitionsAgree(ByTime(log), id);
  }

  // -- first come, first served -----------------------------------------------------------------

  /** The builds before `id` in the queue. */
  ghost function Ahead(p: seq<string>, id: string): set<string> {
    if p == [] then {}
    else if p[|p| - 1] == id then Elements(p[..|p| - 1])
    else Ahead(p[..|p| - 1], id)
  }

  ghost function Left(ids: set<string>, log: seq<Event>): set<string> {
    set x | x in ids && !HasTerminal(log, x)
  }

  lemma AheadOfSnoc(p: seq<string>, x: string, id: string)
    ensures Ahead(p + [x], id) == if x == id then Elements(p) else Ahead(p, id)
  {
    assert (p + [x])[..|p|] == p;
  }

  lemma {:induction false} AheadOfUnended(p: seq<string>, id: string, log: seq<Event>)
    requires id in p && !HasTerminal(log, id)
    ensures Ahead(Unended(p, log), id) == Left(Ahead(p, id), log)
  {
    var init, last := p[..|p| - 1], p[|p| - 1];
    assert p == init + [last];
    UnendedMembers(init, log);
    UnendedSnoc(init, last, log);
    if HasTerminal(log, last) {
      assert Unended(p, log) == Unended(init, log);
    } else {
      AheadOfSnoc(Unended(init, log), last, id);
    }
    if last != id {
      AheadOfUnended(init, id, log);
    }
  }

  lemma {:induction false} AheadAt(p: seq<string>, i: nat)
    requires Distinct(p) && i < |p|
    ensures Ahead(p, p[i]) == Elements(p[..i])
  {
    if i < |p| - 1 {
      AheadAt(p[..|p| - 1], i);
      assert p[..|p| - 1][..i] == p[..i];
    }
  }

  /** A build is among the oldest `max` iff fewer than `max` are ahead of it. */
  lemma OldestIff(p: seq<string>, id: string, max: nat)
    requires Distinct(p) && id in p
    ensures id in Oldest(p, max) <==> |Ahead(p, id)| < max
  {
    var i :| 0 <= i < |p| && p[i] == id;
    AheadAt(p, i);
    DistinctCardinality(p[..i]);
    if i < max {
      assert Oldest(p, max)[i] == id;
    }
    if id in Oldest(p, max) {
      var k :| 0 <= k < |Oldest(p, max)| && Oldest(p, max)[k] == id;
      assert k == i;
    }
  }

  /** `p2` is `p` without the builds that have ended, perhaps with a newcomer at the end. */
  ghost predicate Moved(p: seq<string>, p2: seq<string>, log2: seq<Event>, s: Step) {
    var kept := Unended(p, log2);
    p2 == kept || (s.Submit? && s.id !in p && p2 == kept + [s.id])
  }

  ghost predicate QueueMoved(q: Queue, q2: Queue, s: Step) {
    Moved(Pending(q), Pending(q2), q2.log, s) && q2.unreadable == q.unreadable
  }

  /** A step that queues nothing. */
  lemma NothingQueued(q: Queue, q2: Queue, s: Step)
    requires q.log <= q2.log && q2.unreadable == q.unreadable
    requires forall e :: e in q2.log[|q.log|..] ==> !e.payload.BuildEnqueued?
    ensures QueueMoved(q, q2, s)
  {
    forall id | HasTerminal(q.log, id) ensures HasTerminal(q2.log, id) {
      StillTrue(q.log, q2.log, id);
    }
    PendingAfter(q, q2);
  }

  lemma ItemReadLast(log: seq<Event>, e: Event)
    requires e.payload.BuildEnqueued? && InOrder(log + [e], QueueItems)
    ensures Select(ByTime(log + [e]), QueueItems) == Select(ByTime(log), QueueItems) + [e]
  {
    assert Covers(QueueItems, e);
    hide Covers, InOrder, ByTime, Select;
    EarlierInOrder(log, log + [e], QueueItems);
    ReadInOrderIff(log, QueueItems);
    ReadInOrderIff(log + [e], QueueItems);
    SelectSnoc(log, e, QueueItems);
  }

  /** A build that is queued with a stamp no earlier than the other queue items goes to the end. */
  lemma NewcomerIsLast(q: Queue, e: Event)
    requires e.payload.BuildEnqueued? && e.buildId != "" && !Enqueued(q.log, e.buildId) && !HasTerminal(q.log, e.buildId)
    requires InOrder(q.log + [e], QueueItems)
    ensures Pending(q.(log := q.log + [e])) ==
            if e.buildId in q.unreadable then Pending(q) else Pending(q) + [e.buildId]
  {
    hide PendingIn, Covers;
    var q2 := q.(log := q.log + [e]);
    var es, es2 := ByTime(q.log), ByTime(q2.log);
    ItemReadLast(q.log, e);
    PendingFromItems(es2, es2, q.unreadable);
    PendingFromItems(es, es2, q.unreadable);
    SameEndings(q.log, e);
    PendingSnoc(Select(es, QueueItems), e, es2, q.unreadable);
    PendingShrinks(es, es, es2, q.unreadable);
    PendingIff(q);
    UnendedAll(Pending(q), es2);
    OrderFree(q2.log, e.buildId);
    FactsSnoc(q.log, e, e.buildId);
  }

  lemma SameEndings(log: seq<Event>, e: Event)
    requires !e.payload.BuildTerminal?
    ensures forall x :: HasTerminal(ByTime(log + [e]), x) <==> HasTerminal(ByTime(log), x)
    ensures forall x :: HasTerminal(ByTime(log), x) <==> HasTerminal(log, x)
  {
    forall x
      ensures HasTerminal(ByTime(log + [e]), x) <==> HasTerminal(ByTime(log), x)
      ensures HasTerminal(ByTime(log), x) <==> HasTerminal(log, x)
    {
      OrderFree(log, x);
      OrderFree(log + [e], x);
      FactsSnoc(log, e, x);
    }
  }

  lemma PendingSnoc(part: seq<Event>, e: Event, all: seq<Event>, unreadable: set<string>)
    ensures var rest := PendingIn(part, all, unreadable);
            PendingIn(part + [e], all, unreadable) ==
            if e.payload.BuildEnqueued? && e.buildId != "" && !HasTerminal(all, e.buildId)
               && e.buildId !in unreadable && e.buildId !in rest
            then rest + [e.buildId] else rest
  {
    assert (part + [e])[..|part|] == part;
  }

  lemma NewcomerMoves(q: Queue, s: Step, now: Time)
    requires s.Submit? && s.id != "" && !Enqueued(q.log, s.id) && !HasTerminal(q.log, s.id)
    requires InOrder(q.log + [Event(now, s.id, BuildEnqueued(s.request))], QueueItems)
    ensures QueueMoved(q, Post(q, s.id, BuildEnqueued(s.request), now), s)
  {
    hide Pending, InOrder, Enqueued, HasTerminal;
    var e := Event(now, s.id, BuildEnqueued(s.request));
    NewcomerIsLast(q, e);
    PendingIff(q);
    SameEndings(q.log, e);
    StillUnended(q, e);
  }

  lemma StillUnended(q: Queue, e: Event)
    requires !e.payload.BuildTerminal?
    ensures Unended(Pending(q), q.log + [e]) == Pending(q) && Unended(Pending(q), q.log) == Pending(q)
  {
    hide Pending;
    PendingIff(q);
    forall x ensures HasTerminal(q.log + [e], x) <==> HasTerminal(q.log, x) {
      FactsSnoc(q.log, e, x);
    }
    UnendedAll(Pending(q), q.log);
    UnendedAll(Pending(q), q.log + [e]);
  }

  lemma SubmitMoves(q: Queue, s: Step, limits: Limits, now: Time)
    requires s.Submit? && InOrder(Stepped(q, s, limits, now).log, QueueItems)
    ensures QueueMoved(q, Stepped(q, s, limits, now), s)
    ensures s.id in q.tasks && Enqueued(q.log, s.id) ==> Stepped(q, s, limits, now) == q
  {
    hide SnapshotOf, QueueMoved, InOrder, RunOnce, Advance;
    UnknownIff(q, s.id);
    if s.id != "" && SnapshotOf(ByTime(q.log), q.tasks, s.id) == Unknown {
      NewcomerMoves(q, s, now);
    } else {
      NothingQueued(q, q, s);
    }
  }

  lemma ResumeMoves(q: Queue, id: string, a: Answer, limits: Limits, now: Time, s: Step)
    requires Sound(q) && InFlight(q, id)
    ensures QueueMoved(q, Resumption(q, id, a, limits, now), s)
  {
    hide Advance;
    var stretch := Advance(ByTime(q.log), id, q.tasks[id], a, limits, now);
    ResumeShaped(q, id, a, limits, now);
    StretchAppends(q, id, stretch, now);
    NothingQueued(q, WithStretch(q, id, stretch, now), s);
  }

  lemma PassMoves(q: Queue, now: Time, s: Step)
    requires Proper(q.log)
    ensures QueueMoved(q, RunOnce(q, now), s)
  {
    hide RunOnce, Pending;
    PassEnds(q, now);
    PassSettings(q, now);
    EndsShrinksPending(q, RunOnce(q, now));
  }

  /** A step other than queueing a build only takes builds off the list, whatever the clock shows. */
  lemma OtherStepMoves(q: Queue, s: Step, limits: Limits, now: Time)
    requires Sound(q) && !s.Submit? && (s.Restart? ==> s.unreadable == q.unreadable)
    ensures QueueMoved(q, Stepped(q, s, limits, now), s)
  {
    hide RunOnce, Resumption, Pending;
    var q2 := Stepped(q, s, limits, now);
    match s
    case Pass => PassMoves(q, now, s);
    case Resume(id, answer) =>
      if InFlight(q, id) {
        ResumeMoves(q, id, answer, limits, now, s);
      } else {
        NothingQueued(q, q, s);
      }
    case _ => NothingQueued(q, q2, s);
  }

  lemma StepMoves(q: Queue, s: Step, limits: Limits, now: Time)
    requires Sound(q) && (s.Restart? ==> s.unreadable == q.unreadable)
    requires s.Submit? ==> InOrder(Stepped(q, s, limits, now).log, QueueItems)
    ensures QueueMoved(q, Stepped(q, s, limits, now), s)
  {
    hide Stepped, QueueMoved;
    if s.Submit? {
      SubmitMoves(q, s, limits, now);
    } else {
      OtherStepMoves(q, s, limits, now);
    }
  }

  lemma MovedAhead(p: seq<string>, p2: seq<string>, log2: seq<Event>, s: Step, id: string)
    requires Moved(p, p2, log2, s) && id in p
    ensures id in p2 <==> !HasTerminal(log2, id)
    ensures id in p2 ==> Ahead(p2, id) == Left(Ahead(p, id), log2)
  {
    UnendedMembers(p, log2);
    if !HasTerminal(log2, id) {
      AheadOfUnended(p, id, log2);
    }
    if s.Submit? && s.id !in p {
      AheadOfSnoc(Unended(p, log2), s.id, id);
    }
  }

  /** Restarts may change the concurrency limit but not which payloads are readable. */
  ghost predicate SameReader(moves: seq<Move>, unreadable: set<string>) {
    forall m :: m in moves && m.step.Restart? ==> m.step.unreadable == unreadable
  }

  lemma {:induction false} OrderKept(f: Fleet, moves: seq<Move>, id: string)
    requires FleetInv(f) && SameReader(moves, f.queue.unreadable) && id in Pending(f.queue)
    requires InOrder(Run(f, moves).queue.log, QueueItems)
    ensures var q, q2 := f.queue, Run(f, moves).queue;
            && q2.unreadable == q.unreadable
            && (id in Pending(q2) <==> !HasTerminal(q2.log, id))
            && (id in Pending(q2) ==> Ahead(Pending(q2), id) == Left(Ahead(Pending(q), id), q2.log))
  {
    hide Stepped, Pending, InOrder, QueueMoved, Sound;
    PendingIff(f.queue);
    if moves == [] {
      AheadArePending(Pending(f.queue), id);
    } else {
      var init, m := moves[..|moves| - 1], moves[|moves| - 1];
      assert m in moves;
      RunSplits(f, moves);
      OrderKept(f, init, id);
      StepMoves(Run(f, init).queue, m.step, f.limits, m.at);
      OrderAfter(f.queue, Run(f, init).queue, Run(f, moves).queue, m.step, id);
    }
  }

  /** The last move of a run, seen from the state before it. */
  lemma RunSplits(f: Fleet, moves: seq<Move>)
    requires FleetInv(f) && moves != []
    ensures var init, m := moves[..|moves| - 1], moves[|moves| - 1];
            var q, q2 := Run(f, init).queue, Run(f, moves).queue;
            && q2 == Stepped(q, m.step, f.limits, m.at) && q.log <= q2.log && Sound(q)
            && forall topic :: InOrder(q2.log, topic) ==> InOrder(q.log, topic)
  {
    hide Stepped, InOrder, Sound;
    var init, m := moves[..|moves| - 1], moves[|moves| - 1];
    EveryRunIsSound(f, init);
    SameLimits(f, init);
    SoundGrows(Run(f, init).queue, m.step, f.limits, m.at);
    forall topic | InOrder(Run(f, moves).queue.log, topic) ensures InOrder(Run(f, init).queue.log, topic) {
      EarlierInOrder(Run(f, init).queue.log, Run(f, moves).queue.log, topic);
    }
  }

  lemma SoundGrows(q: Queue, s: Step, limits: Limits, now: Time)
    requires Sound(q)
    ensures q.log <= Stepped(q, s, limits, now).log
  {
    hide Stepped;
    StepGrows(q, s, limits, now);
  }

  lemma {:induction false} SameLimits(f: Fleet, moves: seq<Move>)
    ensures Run(f, moves).limits == f.limits
  {
    hide Stepped;
    if moves != [] {
      SameLimits(f, moves[..|moves| - 1]);
    }
  }

  lemma {:induction false} AheadArePending(p: seq<string>, id: string)
    ensures forall x :: x in Ahead(p, id) ==> x in p
  {
    if p != [] {
      AheadArePending(p[..|p| - 1], id);
    }
  }

  lemma OrderAfter(q: Queue, q1: Queue, q2: Queue, s: Step, id: string)
    requires QueueMoved(q1, q2, s) && q1.log <= q2.log
    requires id in Pending(q1) <==> !HasTerminal(q1.log, id)
    requires id in Pending(q1) ==> Ahead(Pending(q1), id) == Left(Ahead(Pending(q), id), q1.log)
    ensures q2.unreadable == q1.unreadable
    ensures id in Pending(q2) <==> !HasTerminal(q2.log, id)
    ensures id in Pending(q2) ==> Ahead(Pending(q2), id) == Left(Ahead(Pending(q), id), q2.log)
  {
    hide Pending;
    PendingIff(q1);
    PendingIff(q2);
    forall x | HasTerminal(q1.log, x) ensures HasTerminal(q2.log, x) {
      StillTrue(q1.log, q2.log, x);
    }
    if id in Pending(q1) {
      MovedAhead(Pending(q1), Pending(q2), q2.log, s, id);
      assert Left(Left(Ahead(Pending(q), id), q1.log), q2.log) == Left(Ahead(Pending(q), id), q2.log);
    }
  }

  /** First come, first served, over whole runs in which builds are queued in stamp order, crashes and restarts included
      and whatever stamps other events carry: what is ahead of a build is exactly what was ahead of it and has not ended,
      so nothing ever overtakes it and every ending brings it forward. */
  lemma NobodyOvertakes(f: Fleet, moves: seq<Move>, id: string)
    requires FleetInv(f) && SameReader(moves, f.queue.unreadable) && IsPending(f.queue.log, f.queue.unreadable, id)
    requires InOrder(Run(f, moves).queue.log, QueueItems)
    ensures var q2 := Run(f, moves).queue;
            !HasTerminal(q2.log, id) ==> Ahead(Pending(q2), id) == Left(Ahead(Pending(f.queue), id), q2.log)
  {
    hide Run, Pending;
    PendingIff(f.queue);
    OrderKept(f, moves, id);
  }

  // -- the tracked builds are the oldest ----------------------------------------------------------

  lemma MovedOrderly(q: Queue, q2: Queue, s: Step)
    requires Orderly(q) && QueueMoved(q, q2, s) && q2.tasks.Keys == q.tasks.Keys
    requires s.Submit? && s.id in q.tasks ==> s.id !in Pending(q2) || s.id in Pending(q)
    ensures Orderly(q2)
  {
    hide Pending;
    var kept := Unended(Pending(q), q2.log);
    UnendedPrefixed(Pending(q), q.tasks.Keys, q2.log);
    if Pending(q2) != kept {
      assert (kept + [s.id])[..|kept|] == kept;
    }
  }

  lemma PassOrderly(q: Queue, now: Time)
    requires Sound(q) && Orderly(q)
    ensures Orderly(RunOnce(q, now))
  {
    hide RunOnce, Pending;
    var after := RunOnce(q, now);
    PassTracksOldest(q, now);
    PendingIff(after);
    FilledIsPrefixed(Pending(after), after.maxConcurrent);
  }

  lemma StepOrderly(q: Queue, s: Step, limits: Limits, now: Time)
    requires Sound(q) && Orderly(q)
    requires s.Submit? ==> InOrder(Stepped(q, s, limits, now).log, QueueItems)
    ensures Orderly(Stepped(q, s, limits, now))
  {
    hide RunOnce, Pending, Advance, SnapshotOf, InOrder;
    var q2 := Stepped(q, s, limits, now);
    match s
    case Submit(id, _) =>
      if id in q.tasks {
        assert Tracks(q.log, q.unreadable, id, q.tasks[id]);
      }
      SubmitMoves(q, s, limits, now);
      if q2 != q {
        MovedOrderly(q, q2, s);
      }
    case Pass => PassOrderly(q, now);
    case Resume(id, _) =>
      OtherStepMoves(q, s, limits, now);
      MovedOrderly(q, q2, s);
    case Restart(_, _) =>
      NothingTracked(Pending(q2));
      assert q2.tasks.Keys == {};
    case _ =>
      OtherStepMoves(q, s, limits, now);
      MovedOrderly(q, q2, s);
  }

  /** While builds are queued in stamp order, the tracked builds are the oldest pending ones at every moment of a run. */
  lemma {:induction false} EveryRunIsOrderly(f: Fleet, moves: seq<Move>)
    requires FleetInv(f) && Orderly(f.queue)
    requires InOrder(Run(f, moves).queue.log, QueueItems)
    ensures Orderly(Run(f, moves).queue)
  {
    hide Stepped, Orderly, InOrder, Sound;
    if moves != [] {
      RunSplits(f, moves);
      EveryRunIsOrderly(f, moves[..|moves| - 1]);
      StepOrderly(Run(f, moves[..|moves| - 1]).queue, moves[|moves| - 1].step, f.limits, moves[|moves| - 1].at);
    }
  }

  lemma TrackedIffOldest(q: Queue, now: Time, id: string)
    requires Sound(q) && Orderly(q)
    ensures var q2 := RunOnce(q, now);
            id in q2.tasks <==> id in Pending(q2) && |Ahead(Pending(q2), id)| < q2.maxConcurrent
  {
    hide RunOnce, Pending;
    var q2 := RunOnce(q, now);
    PassTracksOldest(q, now);
    PendingIff(q2);
    OldestTracked(q2.tasks.Keys, Pending(q2), q2.maxConcurrent, id);
  }

  lemma OldestTracked(keys: set<string>, p: seq<string>, max: nat, id: string)
    requires Distinct(p) && keys == Elements(Oldest(p, max))
    ensures id in keys <==> id in p && |Ahead(p, id)| < max
  {
    if id in p {
      OldestIff(p, id, max);
    }
  }

  /** When a build is dispatched: after any run in which builds are queued in stamp order and then a pass, a build that
      was waiting is tracked iff it has not ended and fewer than `maxConcurrent` of the builds once ahead of it have not
      ended. */
  lemma DispatchedIff(f: Fleet, moves: seq<Move>, at: Time, id: string)
    requires FleetInv(f) && Orderly(f.queue) && SameReader(moves, f.queue.unreadable)
    requires IsPending(f.queue.log, f.queue.unreadable, id) && InOrder(Run(f, moves).queue.log, QueueItems)
    ensures var q2 := Run(f, moves + [Move(Pass, at)]).queue;
            id in q2.tasks <==>
              !HasTerminal(q2.log, id) && |Left(Ahead(Pending(f.queue), id), q2.log)| < q2.maxConcurrent
  {
    hide RunOnce, Run, Pending, Orderly, InOrder, QueueMoved, IsPending, Sound;
    var q, q2 := Run(f, moves).queue, RunOnce(Run(f, moves).queue, at);
    RunPass(f, moves, at);
    EveryRunIsSound(f, moves);
    EveryRunIsOrderly(f, moves);
    PendingIff(f.queue);
    OrderKept(f, moves, id);
    PassGrows(q, at);
    PassMoves(q, at, Pass);
    OrderAfter(f.queue, q, q2, Pass, id);
    TrackedIffOldest(q, at, id);
  }

  lemma PassGrows(q: Queue, now: Time)
    requires Sound(q)
    ensures Proper(q.log) && q.log <= RunOnce(q, now).log
  {
    hide RunOnce;
    PassEnds(q, now);
  }

  lemma RunPass(f: Fleet, moves: seq<Move>, at: Time)
    ensures Run(f, moves + [Move(Pass, at)]).queue == RunOnce(Run(f, moves).queue, at)
  {
    hide RunOnce, Advance, Enqueue;
    assert (moves + [Move(Pass, at)])[..|moves|] == moves;
  }

  /** A build that is tracked then has only tracked builds ahead of it. */
  lemma NoneWaitsBehindATracked(f: Fleet, moves: seq<Move>, id: string)
    requires FleetInv(f) && Orderly(f.queue) && InOrder(Run(f, moves).queue.log, QueueItems)
    ensures var q := Run(f, moves).queue;
            id in q.tasks && id in Pending(q) ==> Ahead(Pending(q), id) <= q.tasks.Keys
  {
    hide Run, InOrder, Pending;
    EveryRunIsOrderly(f, moves);
    var q := Run(f, moves).queue;
    var p := Pending(q);
    PendingIff(q);
    if id in q.tasks && id in p {
      var i :| 0 <= i < |p| && p[i] == id;
      AheadAt(p, i);
      PrefixedAt(p, q.tasks.Keys, i);
      assert forall x :: x in p[..i] ==> x in p[..i + 1];
    }
  }
}
