/** What may be appended to the log when, and what that makes true of every log written that way. */
module LogLaws {
  import opened Common
  import opened EventLog
  import opened Builds
  import opened BuildTask
  import opened Scheduler

  predicate Started(es: seq<Event>, id: string) {
    es != [] && (StartOf(es[|es| - 1], id) || Started(es[..|es| - 1], id))
  }

  /** What each appended event obeys, given the events appended before it, whatever the clock does. */
  ghost predicate ProperNext(es: seq<Event>, e: Event) {
    var id := e.buildId;
    match e.payload
    case BuildEnqueued(_) => id != "" && !Enqueued(es, id)
    case BuildTerminal(_) => Enqueued(es, id) && !HasTerminal(es, id)
    case BuildStarted(x) => x != "" && Submitted(es, id)
    case _ => true
  }

  ghost predicate Proper(es: seq<Event>) {
    es == [] || (Proper(es[..|es| - 1]) && ProperNext(es[..|es| - 1], es[|es| - 1]))
  }

  /** What an event says about the executions of build `id`, given those before it. */
  ghost predicate LawfulNext(es: seq<Event>, e: Event, id: string) {
    e.buildId != id ||
    match e.payload
    case BuildStarted(x) => x != "" && Outstanding(es, id) == ""
    case InfrastructureRetry(x, _) => x != "" && x == Outstanding(es, id)
    case BuildTerminal(d) => d.executionId == "" || d.executionId == Outstanding(es, id)
    case _ => true
  }

  /** At most one execution of the build was outstanding at a time, and each was given up under its own name. */
  ghost predicate Lawful(es: seq<Event>, id: string) {
    es == [] || (Lawful(es[..|es| - 1], id) && LawfulNext(es[..|es| - 1], es[|es| - 1], id))
  }

  lemma ProperSnoc(es: seq<Event>, e: Event)
    ensures Proper(es + [e]) <==> Proper(es) && ProperNext(es, e)
  {
    assert (es + [e])[..|es|] == es;
  }

  lemma LawfulSnoc(es: seq<Event>, e: Event, id: string)
    ensures Lawful(es + [e], id) <==> Lawful(es, id) && LawfulNext(es, e, id)
  {
    assert (es + [e])[..|es|] == es;
  }

  lemma {:induction false} ProperAt(es: seq<Event>, i: nat)
    requires Proper(es) && i < |es|
    ensures Proper(es[..i]) && ProperNext(es[..i], es[i])
  {
    if i < |es| - 1 {
      ProperAt(es[..|es| - 1], i);
      assert es[..|es| - 1][..i] == es[..i];
    }
  }

  lemma {:induction false} LawfulAt(es: seq<Event>, id: string, i: nat)
    requires Lawful(es, id) && i < |es|
    ensures Lawful(es[..i], id) && LawfulNext(es[..i], es[i], id)
  {
    if i < |es| - 1 {
      LawfulAt(es[..|es| - 1], id, i);
      assert es[..|es| - 1][..i] == es[..i];
    }
  }

  // -- how the readings of the log move with one event ---------------------------------

  lemma ReadingsSnoc(es: seq<Event>, e: Event, id: string)
    ensures Submitted(es + [e], id) <==> Submitted(es, id) || (e.buildId == id && e.payload.BuildSubmitted?)
    ensures HasTerminal(es + [e], id) <==> HasTerminal(es, id) || (e.buildId == id && e.payload.BuildTerminal?)
    ensures Enqueued(es + [e], id) <==> Enqueued(es, id) || IsEnqueue(e, id)
    ensures Outstanding(es + [e], id) ==
            if e.buildId == id && e.payload.BuildStarted? then e.payload.executionId
            else if e.buildId == id && e.payload.InfrastructureRetry? then "" else Outstanding(es, id)
    ensures ControlState(es + [e], id) ==
            if e.buildId == id && IsControl(e.payload) then ControlState([e], id) else ControlState(es, id)
    ensures RequestOf(es + [e], id) == if IsEnqueue(e, id) then Some(e.payload.request) else RequestOf(es, id)
    ensures TerminalDetail(es + [e], id) ==
            if e.buildId == id && e.payload.BuildTerminal? then Some(e.payload.detail) else TerminalDetail(es, id)
  {
    assert (es + [e])[..|es|] == es;
  }

  lemma TerminalSnoc(es: seq<Event>, e: Event, id: string)
    ensures HasTerminal(es + [e], id) <==> HasTerminal(es, id) || (e.buildId == id && e.payload.BuildTerminal?)
  {
    assert (es + [e])[..|es|] == es;
  }

  lemma EnqueuedSnoc(es: seq<Event>, e: Event, id: string)
    ensures Enqueued(es + [e], id) <==> Enqueued(es, id) || IsEnqueue(e, id)
  {
    assert (es + [e])[..|es|] == es;
  }

  // -- consequences -------------------------------------------------------------------

  /** Recovery: what a log replays to is the outstanding execution. */
  lemma {:induction false} ReplayIsOutstanding(es: seq<Event>, id: string, now: real)
    requires Lawful(es, id)
    ensures Replay(es, id, now).executionId == Outstanding(es, id)
  {
    if es != [] {
      var init, e := es[..|es| - 1], es[|es| - 1];
      assert es == init + [e];
      LawfulSnoc(init, e, id);
      ReplayIsOutstanding(init, id, now);
      ReadingsSnoc(init, e, id);
    }
  }

  /** Until a build has ended that needs no law: in whatever order the events are read. */
  lemma {:induction false} ReplayOfUnended(es: seq<Event>, id: string, now: real)
    requires !HasTerminal(es, id)
    ensures Replay(es, id, now).executionId == Outstanding(es, id)
  {
    if es != [] {
      ReplayOfUnended(es[..|es| - 1], id, now);
    }
  }

  lemma {:induction false} OutstandingWasStarted(es: seq<Event>, id: string)
    requires Outstanding(es, id) != ""
    ensures Started(es, id)
  {
    if !StartOf(es[|es| - 1], id) {
      OutstandingWasStarted(es[..|es| - 1], id);
    }
  }

  lemma {:induction false} StartedWasSubmitted(es: seq<Event>, id: string)
    requires Proper(es) && Started(es, id)
    ensures Submitted(es, id)
  {
    if !StartOf(es[|es| - 1], id) {
      StartedWasSubmitted(es[..|es| - 1], id);
    }
  }

  lemma {:induction false} EndedWasQueued(es: seq<Event>, id: string)
    requires Proper(es) && HasTerminal(es, id)
    ensures Enqueued(es, id)
  {
    var e := es[|es| - 1];
    if !(e.buildId == id && e.payload.BuildTerminal?) {
      EndedWasQueued(es[..|es| - 1], id);
    }
  }

  lemma {:induction false} DefinitionsAgree(es: seq<Event>, id: string)
    ensures RequestOf(es, id).Some? <==> Enqueued(es, id)
    ensures TerminalDetail(es, id).Some? <==> HasTerminal(es, id)
  {
    if es != [] {
      var init, e := es[..|es| - 1], es[|es| - 1];
      assert es == init + [e];
      DefinitionsAgree(init, id);
      ReadingsSnoc(init, e, id);
    }
  }

  predicate StartOf(e: Event, id: string) {
    e.buildId == id && e.payload.BuildStarted?
  }

  predicate RetryOf(e: Event, id: string) {
    e.buildId == id && e.payload.InfrastructureRetry?
  }

  lemma {:induction false} OutstandingSince(es: seq<Event>, id: string, i: nat)
    requires Lawful(es, id) && i < |es| && StartOf(es[i], id)
    requires forall k :: i < k < |es| ==> !RetryOf(es[k], id)
    ensures Outstanding(es, id) != ""
  {
    var init, e := es[..|es| - 1], es[|es| - 1];
    assert es == init + [e];
    LawfulSnoc(init, e, id);
    if i < |init| {
      assert forall k :: i < k < |init| ==> init[k] == es[k];
      OutstandingSince(init, id, i);
    } else {
      assert init == es[..i];
    }
  }

  /** No execution is started while another one is outstanding: two starts always have a retry between them. */
  lemma StartsAreSeparated(es: seq<Event>, id: string, i: nat, j: nat)
    requires Lawful(es, id) && i < j < |es| && StartOf(es[i], id) && StartOf(es[j], id)
    ensures exists k :: i < k < j && RetryOf(es[k], id)
  {
    LawfulAt(es, id, j);
    assert forall k :: 0 <= k < j ==> es[..j][k] == es[k];
    if forall k :: i < k < j ==> !RetryOf(es[k], id) {
      OutstandingSince(es[..j], id, i);
      assert false;
    }
  }

  lemma {:induction false} PresentAt(es: seq<Event>, id: string, i: nat)
    requires i < |es|
    ensures IsEnqueue(es[i], id) ==> Enqueued(es, id)
    ensures es[i].buildId == id && es[i].payload.BuildTerminal? ==> HasTerminal(es, id)
  {
    if i < |es| - 1 {
      PresentAt(es[..|es| - 1], id, i);
    }
  }

  /** Each build is enqueued at most once and ends at most once. */
  lemma OnceEach(es: seq<Event>, id: string, i: nat, j: nat)
    requires Proper(es) && i < |es| && j < |es|
    ensures IsEnqueue(es[i], id) && IsEnqueue(es[j], id) ==> i == j
    ensures es[i].buildId == id && es[j].buildId == id && es[i].payload.BuildTerminal? && es[j].payload.BuildTerminal?
            ==> i == j
  {
    var lo, hi := Min(i, j), if i <= j then j else i;
    if lo < hi {
      ProperAt(es, hi);
      assert es[..hi][lo] == es[lo];
      PresentAt(es[..hi], id, lo);
    }
  }
}
