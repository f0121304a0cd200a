/** Holding a subscription out of routing: what the branches of the headroom check amount to over the whole log. */
module Capacity {
  import opened Common
  import opened EventLog
  import opened Failures
  import opened LedgerModel

  datatype Budget = Budget(windowSeconds: real, maxUsd: real)

  /** What the host is set up with. Credential probing and the local routing table are inputs. */
  datatype Host = Host(
    budgets: map<Runtime, Budget>,
    logins: set<Runtime>,
    apiKeys: set<Runtime>,
    subscriptionsOnly: bool,
    localModels: bool)
  {
    /** With subscriptions only, an API key is not a credential and there is no local runtime. */
    predicate Configured(r: Runtime) {
      if r == OpenCode then !subscriptionsOnly
      else r in logins || (!subscriptionsOnly && r in apiKeys)
    }

    function Window(r: Runtime): real {
      if r in budgets then budgets[r].windowSeconds else DEFAULT_WINDOW_S
    }

    function Cap(r: Runtime): real {
      if r in budgets then budgets[r].maxUsd else 0.0
    }

    predicate LocalReady() {
      !subscriptionsOnly && localModels
    }
  }

  const DEFAULT_WINDOW_S := 18000.0
  const RESERVE_FRACTION := 0.2

  datatype Reason =
    | NotConfigured | Unmetered | CoolingDown | NoCap | NoUsageSeen | Exhausted | ReserveOnly | WithinBudget

  datatype Headroom = Headroom(available: bool, fraction: real, spent: real, calls: nat, cooldownUntil: real, reason: Reason)

  // -- reading the log ------------------------------------------------------------------

  function Exhaustion(r: Runtime): Payload {
    RateLimited(r)
  }

  function Clearance(r: Runtime): Payload {
    RateLimitCleared(r)
  }

  /** The latest timestamp of an event with this payload; 0 if there is none. */
  function Latest(es: seq<Event>, p: Payload): real {
    if es == [] then 0.0
    else
      var rest, e := Latest(es[..|es| - 1], p), es[|es| - 1];
      if e.payload == p then MaxReal(rest, e.ts) else rest
  }

  /** When the exhaustions that still count stop holding the runtime out; 0 if none counts. */
  function CooldownUntil(es: seq<Event>, r: Runtime, window: real, since: real, clearedAt: real): real {
    if es == [] then 0.0
    else
      var rest, e := CooldownUntil(es[..|es| - 1], r, window, since, clearedAt), es[|es| - 1];
      if e.payload == Exhaustion(r) && e.ts >= since && e.ts > clearedAt then MaxReal(rest, e.ts + window) else rest
  }

  predicate InWindow(c: Call, r: Runtime, since: real) {
    c.source == Harness(r) && c.ts >= since
  }

  function Spent(calls: seq<Call>, r: Runtime, since: real): real {
    if calls == [] then 0.0
    else
      Spent(calls[..|calls| - 1], r, since)
      + if InWindow(calls[|calls| - 1], r, since) then calls[|calls| - 1].costUsd else 0.0
  }

  function CallCount(calls: seq<Call>, r: Runtime, since: real): nat {
    if calls == [] then 0
    else CallCount(calls[..|calls| - 1], r, since) + if InWindow(calls[|calls| - 1], r, since) then 1 else 0
  }

  function HeadroomOf(h: Host, es: seq<Event>, calls: seq<Call>, r: Runtime, now: Time): Headroom {
    if !h.Configured(r) then Headroom(false, 0.0, 0.0, 0, 0.0, NotConfigured)
    else if r == OpenCode then Headroom(true, 1.0, 0.0, 0, 0.0, Unmetered)
    else
      var since := now - h.Window(r);
      var spent, n := Spent(calls, r, since), CallCount(calls, r, since);
      var cooldown := CooldownUntil(es, r, h.Window(r), since, Latest(es, Clearance(r)));
      if cooldown > now then Headroom(false, 0.0, spent, n, cooldown, CoolingDown)
      else if h.Cap(r) <= 0.0 then Headroom(true, 1.0, spent, n, 0.0, NoCap)
      else if n == 0 then Headroom(true, 1.0, spent, n, 0.0, NoUsageSeen)
      else
        var fraction := MaxReal(0.0, 1.0 - spent / h.Cap(r));
        if fraction <= 0.0 then Headroom(false, 0.0, spent, n, 0.0, Exhausted)
        else if fraction <= RESERVE_FRACTION then Headroom(false, fraction, spent, n, 0.0, ReserveOnly)
        else Headroom(true, fraction, spent, n, 0.0, WithinBudget)
  }

  // -- the closed form ---------------------------------------------------------------------

  /** The latest exhaustion is after the latest clearance and less than one window old. */
  predicate HeldOut(es: seq<Event>, r: Runtime, window: real, now: real) {
    var exhausted := Latest(es, Exhaustion(r));
    exhausted > Latest(es, Clearance(r)) && exhausted + window > now
  }

  lemma {:induction false} LatestIsNonNegative(es: seq<Event>, p: Payload)
    ensures Latest(es, p) >= 0.0
  {
    if es != [] {
      LatestIsNonNegative(es[..|es| - 1], p);
    }
  }

  lemma {:induction false} CooldownFollowsLatest(es: seq<Event>, r: Runtime, window: real, now: Time, clearedAt: real)
    requires clearedAt >= 0.0
    ensures CooldownUntil(es, r, window, now - window, clearedAt) > now <==>
            Latest(es, Exhaustion(r)) > clearedAt && Latest(es, Exhaustion(r)) + window > now
  {
    if es != [] {
      CooldownFollowsLatest(es[..|es| - 1], r, window, now, clearedAt);
    }
  }

  lemma {:induction false} NothingCountedNothingSpent(calls: seq<Call>, r: Runtime, since: real)
    requires CallCount(calls, r, since) == 0
    ensures Spent(calls, r, since) == 0.0
  {
    if calls != [] {
      NothingCountedNothingSpent(calls[..|calls| - 1], r, since);
    }
  }

  lemma FractionIsShare(spent: real, cap: real)
    requires cap > 0.0
    ensures MaxReal(0.0, 1.0 - spent / cap) <= RESERVE_FRACTION <==> spent >= 0.8 * cap
  {
    var share := spent / cap;
    assert spent == share * cap;
    if share >= 0.8 {
      assert (share - 0.8) * cap >= 0.0;
    } else {
      assert (0.8 - share) * cap > 0.0;
    }
  }

  /** For any history, the branches collapse to one inequality: a configured subscription is held out iff its latest
      exhaustion outlives its latest clearance and its window, or four fifths of a positive cap are spent. */
  lemma HeldOutIff(h: Host, es: seq<Event>, calls: seq<Call>, r: Runtime, now: Time)
    requires r.IsSubscription() && h.Configured(r)
    ensures !HeadroomOf(h, es, calls, r, now).available <==>
            || HeldOut(es, r, h.Window(r), now)
            || (h.Cap(r) > 0.0 && Spent(calls, r, now - h.Window(r)) >= 0.8 * h.Cap(r))
  {
    var since := now - h.Window(r);
    LatestIsNonNegative(es, Clearance(r));
    CooldownFollowsLatest(es, r, h.Window(r), now, Latest(es, Clearance(r)));
    if h.Cap(r) > 0.0 {
      FractionIsShare(Spent(calls, r, since), h.Cap(r));
    }
    if CallCount(calls, r, since) == 0 {
      NothingCountedNothingSpent(calls, r, since);
    }
  }

  lemma {:induction false} CooldownIsLatest(es: seq<Event>, r: Runtime, window: real, now: Time, clearedAt: real)
    requires clearedAt >= 0.0 && window >= 0.0 && CooldownUntil(es, r, window, now - window, clearedAt) > now
    ensures CooldownUntil(es, r, window, now - window, clearedAt) == Latest(es, Exhaustion(r)) + window
  {
    var init, e := es[..|es| - 1], es[|es| - 1];
    LatestIsNonNegative(init, Exhaustion(r));
    CooldownFollowsLatest(init, r, window, now, clearedAt);
    if CooldownUntil(init, r, window, now - window, clearedAt) > now {
      CooldownIsLatest(init, r, window, now, clearedAt);
    }
  }

  /** When a runtime is offered at all, and what its headroom says: the local one always, unless the host is restricted
      to subscriptions; a subscription iff the host has its credentials and nothing holds it out. The window is the
      budget's, or five hours without one, and without one nothing is capped. The report gives what was spent and called
      in the window, the share of the cap that is left, and, while an exhaustion counts, the moment one window after the
      latest. */
  lemma HeadroomIsExact(h: Host, es: seq<Event>, calls: seq<Call>, r: Runtime, now: Time)
    requires r in h.budgets ==> h.budgets[r].windowSeconds >= 0.0
    ensures var window := if r in h.budgets then h.budgets[r].windowSeconds else 18000.0;
            var cap := if r in h.budgets then h.budgets[r].maxUsd else 0.0;
            var head, since := HeadroomOf(h, es, calls, r, now), now - window;
            var spent, held := Spent(calls, r, since), HeldOut(es, r, window, now);
            var credentials := r in h.logins || (!h.subscriptionsOnly && r in h.apiKeys);
            && (r == OpenCode ==> (head.available <==> !h.subscriptionsOnly))
            && (r != OpenCode ==>
                  && (head.available <==> credentials && !held && !(cap > 0.0 && spent >= 0.8 * cap))
                  && (credentials ==>
                        && head.spent == spent && head.calls == CallCount(calls, r, since)
                        && head.cooldownUntil == (if held then Latest(es, Exhaustion(r)) + window else 0.0)
                        && (held ==> head.fraction == 0.0)
                        && (!held && (cap <= 0.0 || head.calls == 0) ==> head.fraction == 1.0)
                        && (!held && cap > 0.0 && head.calls > 0 ==>
                              head.fraction * cap == MaxReal(0.0, cap - spent))))
  {
    hide CooldownUntil, Spent, CallCount, Latest;
    var since := now - h.Window(r);
    if r != OpenCode && h.Configured(r) {
      HeldOutIff(h, es, calls, r, now);
      LatestIsNonNegative(es, Clearance(r));
      CooldownFollowsLatest(es, r, h.Window(r), now, Latest(es, Clearance(r)));
      if CooldownUntil(es, r, h.Window(r), since, Latest(es, Clearance(r))) > now {
        CooldownIsLatest(es, r, h.Window(r), now, Latest(es, Clearance(r)));
      }
      if h.Cap(r) > 0.0 {
        ShareLeft(Spent(calls, r, since), h.Cap(r));
      }
    }
  }

  lemma ShareLeft(spent: real, cap: real)
    requires cap > 0.0
    ensures MaxReal(0.0, 1.0 - spent / cap) * cap == MaxReal(0.0, cap - spent)
  {
    var share := spent / cap;
    assert share * cap == spent;
    Scaled(1.0 - share, cap);
  }

  lemma Scaled(x: real, cap: real)
    requires cap > 0.0
    ensures MaxReal(0.0, x) * cap == MaxReal(0.0, x * cap)
  {
    if x < 0.0 {
      assert (-x) * cap > 0.0;
    }
  }

  /** A report of exhaustion holds a configured subscription out until one window has passed since the report, whatever
      came before it. */
  lemma ReportHoldsOut(h: Host, es: seq<Event>, calls: seq<Call>, r: Runtime, at: Time, now: Time)
    requires r.IsSubscription() && h.Configured(r) && at > Latest(es, Clearance(r))
    requires now < at + h.Window(r)
    ensures !HeadroomOf(h, es + [Event(at, "", Exhaustion(r))], calls, r, now).available
  {
    var es2 := es + [Event(at, "", Exhaustion(r))];
    assert es2[..|es|] == es;
    HeldOutIff(h, es2, calls, r, now);
  }

  /** A clearance no earlier than the reports before it takes them all back: only the budget can still hold the runtime
      out. A report after the clearance counts again. */
  lemma ClearanceReleases(h: Host, es: seq<Event>, calls: seq<Call>, r: Runtime, at: Time, now: Time)
    requires r.IsSubscription() && h.Configured(r) && at >= Latest(es, Exhaustion(r))
    ensures var es2 := es + [Event(at, "", Clearance(r))];
            HeadroomOf(h, es2, calls, r, now).available <==>
              h.Cap(r) <= 0.0 || Spent(calls, r, now - h.Window(r)) < 0.8 * h.Cap(r)
  {
    var es2 := es + [Event(at, "", Clearance(r))];
    assert es2[..|es|] == es;
    HeldOutIff(h, es2, calls, r, now);
  }

  /** Reports and clearances of one runtime never touch another. */
  lemma RuntimesAreIndependent(h: Host, es: seq<Event>, e: Event, calls: seq<Call>, r: Runtime, now: Time)
    requires e.payload != Exhaustion(r) && e.payload != Clearance(r)
    ensures HeadroomOf(h, es + [e], calls, r, now) == HeadroomOf(h, es, calls, r, now)
  {
    assert (es + [e])[..|es|] == es;
  }

  // -- choosing a runtime ----------------------------------------------------------------------

  datatype Wish = Wish(preferLocal: bool, requireStrong: bool, privacyLocalOnly: bool)

  /** `max` keeps the first of two equals. */
  function Roomier(a: Headroom, b: Headroom): Runtime {
    if b.fraction > a.fraction then Codex else ClaudeCode
  }

  function Chosen(h: Host, es: seq<Event>, calls: seq<Call>, w: Wish, now: Time): Runtime {
    var claude := HeadroomOf(h, es, calls, ClaudeCode, now);
    var codex := HeadroomOf(h, es, calls, Codex, now);
    if h.subscriptionsOnly then
      if w.privacyLocalOnly || claude.available || !codex.available then ClaudeCode else Codex
    else if w.privacyLocalOnly then OpenCode
    else if w.requireStrong then
      if claude.available && codex.available then Roomier(claude, codex)
      else if claude.available then ClaudeCode
      else if codex.available then Codex
      else if h.LocalReady() then OpenCode else ClaudeCode
    else if w.preferLocal && h.LocalReady() then OpenCode
    else if claude.available then ClaudeCode
    else if codex.available then Codex
    else OpenCode
  }

  /** A subscription without headroom is chosen only when nothing else could be: no subscription has headroom, or work
      that must stay local is asked of a host that has nothing local. Local-only work otherwise stays local, and a
      subscriptions-only host never chooses the local runtime. Codex is chosen only when Claude has no headroom, or for
      strong work when Codex has strictly more of its window left. */
  lemma SelectIsSound(h: Host, es: seq<Event>, calls: seq<Call>, w: Wish, now: Time)
    ensures var r := Chosen(h, es, calls, w, now);
            var free := (x: Runtime) => HeadroomOf(h, es, calls, x, now).available;
            && (r.IsSubscription() && !free(r) ==>
                  (!free(ClaudeCode) && !free(Codex) && !h.LocalReady()) || (h.subscriptionsOnly && w.privacyLocalOnly))
            && (w.privacyLocalOnly && !h.subscriptionsOnly ==> r == OpenCode)
            && (h.subscriptionsOnly ==> r != OpenCode)
            && (w.preferLocal && h.LocalReady() && !w.requireStrong ==> r == OpenCode)
            && (r == Codex ==>
                  || !free(ClaudeCode)
                  || (w.requireStrong && HeadroomOf(h, es, calls, Codex, now).fraction
                                         > HeadroomOf(h, es, calls, ClaudeCode, now).fraction))
            && (w.requireStrong && !w.privacyLocalOnly && (free(ClaudeCode) || free(Codex)) ==> free(r) && r.IsSubscription())
            && (w.requireStrong && !w.privacyLocalOnly && !h.subscriptionsOnly && free(ClaudeCode) && free(Codex) ==>
                  forall x: Runtime :: x.IsSubscription() ==>
                    HeadroomOf(h, es, calls, x, now).fraction <= HeadroomOf(h, es, calls, r, now).fraction)
  {
  }

  lemma FreeIs(free: set<Runtime>, claude: bool, codex: bool)
    requires free <= {ClaudeCode, Codex} && (ClaudeCode in free <==> claude) && (Codex in free <==> codex)
    ensures free == if claude && codex then {ClaudeCode, Codex} else if claude then {ClaudeCode}
                    else if codex then {Codex} else {}
    ensures |free| == (if claude then 1 else 0) + if codex then 1 else 0
  {
    assert free == (if claude then {ClaudeCode} else {}) + if codex then {Codex} else {};
  }

  function NameOf(r: Runtime): string {
    match r
    case ClaudeCode => "claude_code"
    case Codex => "codex"
    case OpenCode => "open_code"
  }

  /** How a harness run is entered in the ledger: the runtime itself stands for the model. */
  function UsageCall(r: Runtime, costUsd: real, ok: bool, failureKind: Option<FailureKind>, now: Time): Call {
    Call(now, Harness(r), NameOf(r), ok, failureKind, costUsd, 1)
  }

  // -- the manager object -------------------------------------------------------------------------

  class CapacityManager {
    const ledger: Ledger
    var host: Host

    constructor (ledger: Ledger, host: Host)
      ensures this.ledger == ledger && this.host == host
    {
      this.ledger, this.host := ledger, host;
    }

    function Check(r: Runtime, now: Time): Headroom
      reads this, ledger
    {
      HeadroomOf(host, ByTime(ledger.events), ledger.calls, r, now)
    }

    /** The subscriptions with headroom. */
    function FreeAt(now: Time): set<Runtime>
      reads this, ledger
    {
      set r | r in {ClaudeCode, Codex} && Check(r, now).available
    }

    /** Pick the runtime for a build. Strong work gets a subscription with headroom whenever there is one, and a subscription
        without headroom is picked only as the last resort. */
    method Choose(w: Wish, now: Time) returns (r: Runtime)
      ensures r == Chosen(host, ByTime(ledger.events), ledger.calls, w, now)
      // With subscriptions only: Claude, unless only Codex has headroom; local-only work can only go to Claude.
      ensures host.subscriptionsOnly ==>
                r == if !w.privacyLocalOnly && FreeAt(now) == {Codex} then Codex else ClaudeCode
      // Otherwise local-only work stays local, strong work goes to the roomier subscription, and routine work to the
      // local runtime if it is preferred and ready, else to the first subscription with headroom.
      ensures !host.subscriptionsOnly && w.privacyLocalOnly ==> r == OpenCode
      ensures !host.subscriptionsOnly && !w.privacyLocalOnly && w.requireStrong ==>
                && (FreeAt(now) == {} ==> r == if host.LocalReady() then OpenCode else ClaudeCode)
                && (|FreeAt(now)| == 1 ==> FreeAt(now) == {r})
                && (|FreeAt(now)| == 2 ==>
                      r == if Check(Codex, now).fraction > Check(ClaudeCode, now).fraction then Codex else ClaudeCode)
      ensures !host.subscriptionsOnly && !w.privacyLocalOnly && !w.requireStrong ==>
                if w.preferLocal && host.LocalReady() then r == OpenCode
                else if FreeAt(now) == {} then r == OpenCode
                else r == if ClaudeCode in FreeAt(now) then ClaudeCode else Codex
      ensures w.requireStrong && !w.privacyLocalOnly && FreeAt(now) != {} ==> r in FreeAt(now)
      ensures r.IsSubscription() && r !in FreeAt(now) ==>
                (FreeAt(now) == {} && !host.LocalReady()) || (host.subscriptionsOnly && w.privacyLocalOnly)
    {
      SelectIsSound(host, ByTime(ledger.events), ledger.calls, w, now);
      FreeIs(FreeAt(now), ClaudeCode in FreeAt(now), Codex in FreeAt(now));
      var claude, codex := Check(ClaudeCode, now), Check(Codex, now);
      if host.subscriptionsOnly {
        if w.privacyLocalOnly || claude.available || !codex.available {
          return ClaudeCode;
        }
        return Codex;
      }
      if w.privacyLocalOnly {
        return OpenCode;
      }
      if w.requireStrong {
        if claude.available && codex.available {
          return Roomier(claude, codex);
        }
        if claude.available {
          return ClaudeCode;
        }
        if codex.available {
          return Codex;
        }
        return if host.LocalReady() then OpenCode else ClaudeCode;
      }
      if w.preferLocal && host.LocalReady() {
        return OpenCode;
      }
      if claude.available {
        return ClaudeCode;
      }
      r := if codex.available then Codex else OpenCode;
    }

    /** Meter one harness run; `raised` means the ledger's transaction was rolled back. */
    method RecordUsage(r: Runtime, costUsd: real, ok: bool, failureKind: Option<FailureKind>, now: Time)
      returns (raised: bool)
      requires ledger.Valid()
      modifies ledger
      ensures ledger.Valid() && ledger.events == old(ledger.events)
      ensures raised <==> Raises(old(ledger.attempts), UsageCall(r, costUsd, ok, failureKind, now))
      ensures ledger.attempts == old(ledger.attempts) + [AttemptOf(UsageCall(r, costUsd, ok, failureKind, now))]
      ensures ledger.calls == if raised then old(ledger.calls)
                              else old(ledger.calls) + [UsageCall(r, costUsd, ok, failureKind, now)]
      ensures !raised ==> forall x: Runtime, since: real ::
                Spent(ledger.calls, x, since) ==
                old(Spent(ledger.calls, x, since)) + if x == r && now >= since then costUsd else 0.0
    {
      hide Raises;
      raised := ledger.RecordCall(UsageCall(r, costUsd, ok, failureKind, now));
      if !raised {
        assert ledger.calls[..|ledger.calls| - 1] == old(ledger.calls);
      }
    }

    method NoteRateLimited(r: Runtime, now: Time)
      modifies ledger`events
      ensures ledger.events == old(ledger.events) + [Event(now, "", Exhaustion(r))]
      ensures old(ledger.Valid()) ==> ledger.Valid()
    {
      ledger.RecordEvent(RateLimited(r), "", now);
    }

    method ClearRateLimited(r: Runtime, now: Time)
      modifies ledger`events
      ensures ledger.events == old(ledger.events) + [Event(now, "", Clearance(r))]
    {
      ledger.RecordEvent(RateLimitCleared(r), "", now);
    }
  }
}
