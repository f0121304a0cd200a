/** Router policy: the hard gates, the descent through the tiers, and a fallback chain that crosses backends as early as
    possible. */
module RouterPolicy {
  import opened Common

  datatype Tier = High | Med | Low

  datatype Placement = Unavailable | Hosted | Local

  datatype Spec = Spec(ref: string, backend: string, context: int, tools: bool, tiers: seq<Tier>, quarantined: bool)

  /** A model paired with how it would run on this host. */
  datatype Entry = Entry(spec: Spec, placement: Placement, penalty: real)

  datatype Bench = Bench(
    toolCallRate: real, schemaRate: real, longContextRate: real, instructionRate: real,
    cancelClean: bool, tokensPerS: real)
  {
    function Quality(): real {
      0.40 * toolCallRate + 0.30 * schemaRate + 0.20 * longContextRate + 0.10 * instructionRate
    }
  }

  datatype Stats = Stats(calls: nat, successes: nat) {
    function SuccessRate(): real {
      (successes as real + 1.0) / (calls as real + 2.0)
    }
  }

  /** What the router reads besides the request: its settings, the catalog, the bench, the breakers and the ledger's
      rolling statistics. */
  datatype Router = Router(
    localOnly: bool, preferLocal: bool, catalog: seq<Entry>,
    table: map<string, Bench>, breakerOpen: set<string>, stats: map<string, Stats>)

  datatype Ask = Ask(tier: Tier, needsTools: bool, minContext: int, localOnly: bool, installed: set<string>, warm: set<string>)

  datatype Gate =
    | LeavesTheMachine | Quarantined | DoesNotFit | NotRated | NoTools | ShortContext | NotInstalled | BreakerOpen
    | LowToolRate | LowSchemaRate | UncleanCancel | Unmeasured

  datatype Candidate = Candidate(backend: string, ref: string, tier: Tier, score: real)

  datatype Decision = Decision(
    primary: Option<Candidate>, fallbacks: seq<Candidate>, excluded: seq<(string, Gate)>,
    tier: Tier, degradedFrom: Option<Tier>)
  {
    function Chain(): seq<Candidate> {
      (if primary.Some? then [primary.value] else []) + fallbacks
    }
  }

  const TOOL_CALL_FLOOR := 0.90
  const SCHEMA_FLOOR := 0.85

  predicate IsHosted(backend: string) {
    backend == "openrouter"
  }

  // -- eligibility -----------------------------------------------------------------------

  function BenchGate(r: Router, ref: string, needsTools: bool): Option<Gate> {
    if ref in r.table then
      var b := r.table[ref];
      if needsTools && b.toolCallRate < TOOL_CALL_FLOOR then Some(LowToolRate)
      else if b.schemaRate < SCHEMA_FLOOR then Some(LowSchemaRate)
      else if !b.cancelClean then Some(UncleanCancel)
      else None
    else if |r.table| > 0 then Some(Unmeasured)
    else None
  }

  function IneligibleReason(r: Router, e: Entry, tier: Tier, a: Ask): Option<Gate> {
    if IsHosted(e.spec.backend) && (r.localOnly || a.localOnly) then Some(LeavesTheMachine)
    else if e.spec.quarantined then Some(Quarantined)
    else if e.placement == Unavailable then Some(DoesNotFit)
    else if tier !in e.spec.tiers then Some(NotRated)
    else if a.needsTools && !e.spec.tools then Some(NoTools)
    else if e.spec.context < a.minContext then Some(ShortContext)
    else if a.installed != {} && e.spec.ref !in a.installed then Some(NotInstalled)
    else if e.spec.ref in r.breakerOpen then Some(BreakerOpen)
    else BenchGate(r, e.spec.ref, a.needsTools)
  }

  /** The bench does not speak against the model: measured and above every floor, or nothing was ever measured. */
  predicate BenchAllows(r: Router, ref: string, needsTools: bool) {
    if r.table == map[] then true
    else
      && ref in r.table && r.table[ref].schemaRate >= SCHEMA_FLOOR && r.table[ref].cancelClean
      && (needsTools ==> r.table[ref].toolCallRate >= TOOL_CALL_FLOOR)
  }

  /** Exactly when an entry may serve a request. */
  lemma EligibleIff(r: Router, e: Entry, tier: Tier, a: Ask)
    ensures IneligibleReason(r, e, tier, a).None? <==>
            && (r.localOnly || a.localOnly ==> !IsHosted(e.spec.backend))
            && !e.spec.quarantined && e.placement != Unavailable && tier in e.spec.tiers
            && (a.needsTools ==> e.spec.tools) && e.spec.context >= a.minContext
            && (a.installed == {} || e.spec.ref in a.installed)
            && e.spec.ref !in r.breakerOpen && BenchAllows(r, e.spec.ref, a.needsTools)
  {
    assert r.table == map[] <==> |r.table| == 0;
  }

  /** The entry fails this gate. */
  predicate FailsAt(r: Router, e: Entry, tier: Tier, a: Ask, g: Gate) {
    var ref := e.spec.ref;
    match g
    case LeavesTheMachine => e.spec.backend == "openrouter" && (r.localOnly || a.localOnly)
    case Quarantined => e.spec.quarantined
    case DoesNotFit => e.placement == Unavailable
    case NotRated => tier !in e.spec.tiers
    case NoTools => a.needsTools && !e.spec.tools
    case ShortContext => e.spec.context < a.minContext
    case NotInstalled => a.installed != {} && ref !in a.installed
    case BreakerOpen => ref in r.breakerOpen
    case LowToolRate => ref in r.table && a.needsTools && r.table[ref].toolCallRate < 0.90
    case LowSchemaRate => ref in r.table && r.table[ref].schemaRate < 0.85
    case UncleanCancel => ref in r.table && !r.table[ref].cancelClean
    case Unmeasured => r.table != map[] && ref !in r.table
  }

  /** An entry is excluded exactly when it fails some gate, and the gate it is excluded under is one it fails. */
  lemma ExcludedIff(r: Router, e: Entry, tier: Tier, a: Ask)
    ensures var why := IneligibleReason(r, e, tier, a);
            && (why.Some? <==> exists g :: FailsAt(r, e, tier, a, g))
            && (why.Some? ==> FailsAt(r, e, tier, a, why.value))
  {
    assert r.table == map[] <==> |r.table| == 0;
    var why := IneligibleReason(r, e, tier, a);
    if why.Some? {
      assert FailsAt(r, e, tier, a, why.value);
    } else {
      forall g ensures !FailsAt(r, e, tier, a, g) {
      }
    }
  }

  // -- scoring ----------------------------------------------------------------------------

  const LIVE_CALLS := 20

  function Score(r: Router, e: Entry, warm: set<string>): real {
    var ref := e.spec.ref;
    var measured := if ref in r.table then r.table[ref].Quality() else 0.5;
    var quality := if ref in r.stats && r.stats[ref].calls >= LIVE_CALLS
                   then 0.5 * measured + 0.5 * r.stats[ref].SuccessRate() else measured;
    var throughput := if ref in r.table && r.table[ref].tokensPerS > 0.0
                      then MinReal(1.0, r.table[ref].tokensPerS / 60.0) else e.penalty;
    0.65 * quality + 0.25 * throughput + (if ref in warm then 0.10 else 0.0)
    + (if r.preferLocal && !IsHosted(e.spec.backend) then 0.05 else 0.0)
  }

  predicate InUnit(x: real) {
    0.0 <= x <= 1.0
  }

  /** With rates between 0 and 1 a score lies between 0 and 1.05; being resident is worth exactly a tenth, being local
      exactly a twentieth where local models are preferred, and nothing else moves it by more. */
  lemma ScoreRange(r: Router, e: Entry, warm: set<string>)
    requires InUnit(e.penalty)
    requires e.spec.ref in r.table ==>
               var b := r.table[e.spec.ref];
               InUnit(b.toolCallRate) && InUnit(b.schemaRate) && InUnit(b.longContextRate) && InUnit(b.instructionRate)
    requires e.spec.ref in r.stats ==> r.stats[e.spec.ref].successes <= r.stats[e.spec.ref].calls
    ensures 0.0 <= Score(r, e, warm) <= 1.05
    ensures Score(r, e, warm + {e.spec.ref}) == Score(r, e, warm - {e.spec.ref}) + 0.10
    ensures Score(r.(preferLocal := true), e, warm)
            == Score(r.(preferLocal := false), e, warm) + if IsHosted(e.spec.backend) then 0.0 else 0.05
  {
    if e.spec.ref in r.stats {
      RateInUnit(r.stats[e.spec.ref]);
    }
  }

  lemma RateInUnit(s: Stats)
    requires s.successes <= s.calls
    ensures InUnit(s.SuccessRate())
  {
    var n, d := s.successes as real + 1.0, s.calls as real + 2.0;
    assert n / d * d == n;
    if n / d > 1.0 {
      assert n / d * d > d;
    }
  }

  // -- what a better score means ---------------------------------------------------------------

  /** Enough calls were made for the live record to count. */
  predicate Live(r: Router, ref: string) {
    ref in r.stats && r.stats[ref].calls >= 20
  }

  /** The success rates of two live records, compared without dividing. */
  predicate AtLeastAsReliable(x: Stats, y: Stats) {
    (x.successes + 1) * (y.calls + 2) >= (y.successes + 1) * (x.calls + 2)
  }

  predicate MoreReliable(x: Stats, y: Stats) {
    !AtLeastAsReliable(y, x)
  }

  predicate RatesAtLeast(x: Bench, y: Bench) {
    && x.toolCallRate >= y.toolCallRate && x.schemaRate >= y.schemaRate
    && x.longContextRate >= y.longContextRate && x.instructionRate >= y.instructionRate
  }

  predicate Timed(r: Router, ref: string) {
    ref in r.table && r.table[ref].tokensPerS > 0.0
  }

  /** Everything that is known of `x` is at least as good as what is known of `y`. */
  predicate NoWorse(r: Router, x: Entry, y: Entry, warm: set<string>) {
    var a, b := x.spec.ref, y.spec.ref;
    && (a in r.table <==> b in r.table) && (a in r.table ==> RatesAtLeast(r.table[a], r.table[b]))
    && (Timed(r, a) <==> Timed(r, b))
    && (if Timed(r, a) then r.table[a].tokensPerS >= r.table[b].tokensPerS else x.penalty >= y.penalty)
    && (Live(r, a) <==> Live(r, b)) && (Live(r, a) ==> AtLeastAsReliable(r.stats[a], r.stats[b]))
    && (b in warm ==> a in warm)
    && (r.preferLocal && !IsHosted(y.spec.backend) ==> !IsHosted(x.spec.backend))
  }

  /** And something is better: a bench rate, the live record, the throughput below sixty tokens a second, residence, or
      locality where that is preferred. */
  predicate Better(r: Router, x: Entry, y: Entry, warm: set<string>)
    requires NoWorse(r, x, y, warm)
  {
    var a, b := x.spec.ref, y.spec.ref;
    || (a in r.table && !RatesAtLeast(r.table[b], r.table[a]))
    || (if Timed(r, a) then r.table[b].tokensPerS < MinReal(60.0, r.table[a].tokensPerS) else x.penalty > y.penalty)
    || (Live(r, a) && MoreReliable(r.stats[a], r.stats[b]))
    || (a in warm && b !in warm)
    || (r.preferLocal && IsHosted(y.spec.backend) && !IsHosted(x.spec.backend))
  }

  lemma DivisionOrders(n1: real, d1: real, n2: real, d2: real)
    requires d1 > 0.0 && d2 > 0.0
    ensures n1 * d2 >= n2 * d1 <==> n1 / d1 >= n2 / d2
  {
    var q1, q2 := n1 / d1, n2 / d2;
    assert n1 == q1 * d1 && n2 == q2 * d2;
    assert n1 * d2 - n2 * d1 == (q1 - q2) * (d1 * d2);
    if q1 >= q2 {
      assert (q1 - q2) * (d1 * d2) >= 0.0;
    } else {
      assert (q2 - q1) * (d1 * d2) > 0.0;
    }
  }

  lemma RateOrders(x: Stats, y: Stats)
    ensures AtLeastAsReliable(x, y) <==> x.SuccessRate() >= y.SuccessRate()
  {
    var n1, d1 := x.successes as real + 1.0, x.calls as real + 2.0;
    var n2, d2 := y.successes as real + 1.0, y.calls as real + 2.0;
    DivisionOrders(n1, d1, n2, d2);
    assert n1 * d2 == ((x.successes + 1) * (y.calls + 2)) as real;
    assert n2 * d1 == ((y.successes + 1) * (x.calls + 2)) as real;
  }

  /** Better evidence scores higher: no worse in any respect is no lower, and better in one is higher. */
  lemma ScoreOrders(r: Router, x: Entry, y: Entry, warm: set<string>)
    requires NoWorse(r, x, y, warm)
    ensures Score(r, x, warm) >= Score(r, y, warm)
    ensures Better(r, x, y, warm) ==> Score(r, x, warm) > Score(r, y, warm)
  {
    hide AtLeastAsReliable;
    var a, b := x.spec.ref, y.spec.ref;
    if Live(r, a) {
      RateOrders(r.stats[a], r.stats[b]);
      RateOrders(r.stats[b], r.stats[a]);
    }
  }

  /** By how much: a point of a bench rate counts with the weight of its kind, 26, 19.5, 13 and 6.5 hundredths, and half
      of that beside a live record, which makes up the other half; throughput up to sixty tokens a second counts for a
      quarter. */
  lemma ScoreMoves(r: Router, e: Entry, warm: set<string>, b: Bench)
    requires e.spec.ref in r.table && (Timed(r, e.spec.ref) <==> b.tokensPerS > 0.0)
    ensures var r2, was := r.(table := r.table[e.spec.ref := b]), r.table[e.spec.ref];
            var moved := 0.26 * (b.toolCallRate - was.toolCallRate) + 0.195 * (b.schemaRate - was.schemaRate)
                         + 0.13 * (b.longContextRate - was.longContextRate)
                         + 0.065 * (b.instructionRate - was.instructionRate);
            Score(r2, e, warm) - Score(r, e, warm) ==
            (if Live(r, e.spec.ref) then moved / 2.0 else moved)
            + if Timed(r, e.spec.ref)
              then 0.25 * (MinReal(1.0, b.tokensPerS / 60.0) - MinReal(1.0, was.tokensPerS / 60.0)) else 0.0
    ensures var was := r.table[e.spec.ref];
            var measured := 0.40 * was.toolCallRate + 0.30 * was.schemaRate + 0.20 * was.longContextRate
                            + 0.10 * was.instructionRate;
            Score(r, e, warm) - Score(r.(stats := map[]), e, warm) ==
            if !Live(r, e.spec.ref) then 0.0
            else 0.325 * ((r.stats[e.spec.ref].successes as real + 1.0) / (r.stats[e.spec.ref].calls as real + 2.0)
                          - measured)
  {
  }

  /** An entry nobody measured scores as one of which every rate is one half, and as fast as its placement suggests. */
  lemma UnmeasuredIsHalf(r: Router, e: Entry, warm: set<string>, clean: bool)
    requires e.spec.ref !in r.table
    ensures Score(r, e, warm) == Score(r.(table := r.table[e.spec.ref := Bench(0.5, 0.5, 0.5, 0.5, clean, 0.0)]), e, warm)
  {
  }

  function CandidateOf(r: Router, e: Entry, a: Ask): Candidate {
    Candidate(e.spec.backend, e.spec.ref, a.tier, Score(r, e, a.warm))
  }

  function Eligible(r: Router, entries: seq<Entry>, tier: Tier, a: Ask): seq<Candidate> {
    if entries == [] then []
    else
      var e := entries[|entries| - 1];
      Eligible(r, entries[..|entries| - 1], tier, a)
      + if IneligibleReason(r, e, tier, a).None? then [CandidateOf(r, e, a)] else []
  }

  function Excluded(r: Router, entries: seq<Entry>, tier: Tier, a: Ask): seq<(string, Gate)> {
    if entries == [] then []
    else
      var e := entries[|entries| - 1];
      Excluded(r, entries[..|entries| - 1], tier, a)
      + match IneligibleReason(r, e, tier, a) case Some(g) => [(e.spec.ref, g)] case None => []
  }

  // -- the tier that serves -----------------------------------------------------------------

  function Descent(tier: Tier): seq<Tier> {
    match tier
    case High => [High, Med, Low]
    case Med => [Med, Low]
    case Low => [Low]
  }

  function Rank(t: Tier): nat {
    match t case High => 2 case Med => 1 case Low => 0
  }

  /** The last tier tried: the first that has an eligible entry, or the lowest. */
  function LastTried(r: Router, tiers: seq<Tier>, a: Ask): Tier
    requires tiers != []
  {
    if |tiers| == 1 || Eligible(r, r.catalog, tiers[0], a) != [] then tiers[0] else LastTried(r, tiers[1..], a)
  }

  function Served(r: Router, a: Ask): Tier {
    LastTried(r, Descent(a.tier), a)
  }

  lemma {:induction false} LastTriedIsFirst(r: Router, tiers: seq<Tier>, a: Ask) returns (i: nat)
    requires tiers != []
    ensures i < |tiers| && LastTried(r, tiers, a) == tiers[i]
    ensures forall j :: 0 <= j < i ==> Eligible(r, r.catalog, tiers[j], a) == []
    ensures Eligible(r, r.catalog, tiers[i], a) == [] ==> i == |tiers| - 1
  {
    if |tiers| == 1 || Eligible(r, r.catalog, tiers[0], a) != [] {
      i := 0;
    } else {
      var k := LastTriedIsFirst(r, tiers[1..], a);
      i := k + 1;
      forall j | 0 <= j < i ensures Eligible(r, r.catalog, tiers[j], a) == [] {
        if j > 0 {
          assert tiers[j] == tiers[1..][j - 1];
        }
      }
    }
  }

  /** The served tier is the highest one, at or below the requested tier, that has an eligible entry. */
  lemma ServedIsHighest(r: Router, a: Ask)
    ensures Rank(Served(r, a)) <= Rank(a.tier)
    ensures forall t: Tier :: Rank(Served(r, a)) < Rank(t) <= Rank(a.tier) ==> Eligible(r, r.catalog, t, a) == []
    ensures Eligible(r, r.catalog, Served(r, a), a) == [] ==> Served(r, a) == Low
  {
    var tiers := Descent(a.tier);
    var i := LastTriedIsFirst(r, tiers, a);
    forall t: Tier | Rank(tiers[i]) < Rank(t) <= Rank(a.tier) ensures Eligible(r, r.catalog, t, a) == [] {
      var j := Rank(a.tier) - Rank(t);
      assert tiers[j] == t && j < i;
    }
  }

  // -- ordering by score ----------------------------------------------------------------------

  /** Behind everything at least as good: a stable descending sort, one element at a time. */
  function InsertByScore(s: seq<Candidate>, c: Candidate): seq<Candidate> {
    if s == [] || s[|s| - 1].score >= c.score then s + [c]
    else InsertByScore(s[..|s| - 1], c) + [s[|s| - 1]]
  }

  function ByScore(s: seq<Candidate>): seq<Candidate> {
    if s == [] then [] else InsertByScore(ByScore(s[..|s| - 1]), s[|s| - 1])
  }

  ghost predicate Descending(s: seq<Candidate>) {
    |s| < 2 || (s[|s| - 2].score >= s[|s| - 1].score && Descending(s[..|s| - 1]))
  }

  lemma DescendingSnoc(s: seq<Candidate>, c: Candidate)
    ensures Descending(s + [c]) <==> Descending(s) && (s == [] || s[|s| - 1].score >= c.score)
  {
    assert (s + [c])[..|s|] == s;
  }

  lemma {:induction false} InsertDescending(s: seq<Candidate>, c: Candidate)
    requires Descending(s)
    ensures var r := InsertByScore(s, c);
            && Descending(r) && r != []
            && r[|r| - 1] == if s == [] || s[|s| - 1].score >= c.score then c else s[|s| - 1]
  {
    hide Descending;
    if s == [] || s[|s| - 1].score >= c.score {
      DescendingSnoc(s, c);
    } else {
      var init, last := s[..|s| - 1], s[|s| - 1];
      assert s == init + [last];
      DescendingSnoc(init, last);
      InsertDescending(init, c);
      DescendingSnoc(InsertByScore(init, c), last);
    }
  }

  lemma {:induction false} InsertKeepsAll(s: seq<Candidate>, c: Candidate)
    ensures multiset(InsertByScore(s, c)) == multiset(s) + multiset{c}
  {
    if s != [] && s[|s| - 1].score < c.score {
      assert s == s[..|s| - 1] + [s[|s| - 1]];
      InsertKeepsAll(s[..|s| - 1], c);
    }
  }

  lemma {:induction false} ByScoreSorts(s: seq<Candidate>)
    ensures Descending(ByScore(s)) && multiset(ByScore(s)) == multiset(s)
  {
    if s != [] {
      assert s == s[..|s| - 1] + [s[|s| - 1]];
      ByScoreSorts(s[..|s| - 1]);
      InsertDescending(ByScore(s[..|s| - 1]), s[|s| - 1]);
      InsertKeepsAll(ByScore(s[..|s| - 1]), s[|s| - 1]);
    }
  }

  /** The candidates with exactly this score, in order. */
  function Scoring(s: seq<Candidate>, score: real): seq<Candidate> {
    if s == [] then []
    else Scoring(s[..|s| - 1], score) + if s[|s| - 1].score == score then [s[|s| - 1]] else []
  }

  lemma ScoringSnoc(s: seq<Candidate>, c: Candidate, score: real)
    ensures Scoring(s + [c], score) == Scoring(s, score) + Hit(c, score)
  {
    assert (s + [c])[..|s|] == s;
  }

  function Hit(c: Candidate, score: real): seq<Candidate> {
    if c.score == score then [c] else []
  }

  /** Of two candidates with different scores at most one has the score asked for, so their order does not show. */
  lemma HitsCommute(s: seq<Candidate>, a: Candidate, b: Candidate, score: real)
    requires a.score != b.score
    ensures s + Hit(a, score) + Hit(b, score) == s + Hit(b, score) + Hit(a, score)
  {
  }

  lemma {:induction false} InsertIsStable(s: seq<Candidate>, c: Candidate, score: real)
    ensures Scoring(InsertByScore(s, c), score) == Scoring(s, score) + Hit(c, score)
  {
    if s == [] || s[|s| - 1].score >= c.score {
      ScoringSnoc(s, c, score);
    } else {
      var init, last := s[..|s| - 1], s[|s| - 1];
      InsertIsStable(init, c, score);
      ScoringSnoc(InsertByScore(init, c), last, score);
      HitsCommute(Scoring(init, score), c, last, score);
    }
  }

  /** Equally good candidates keep their catalog order. */
  lemma {:induction false} ByScoreIsStable(s: seq<Candidate>, score: real)
    ensures Scoring(ByScore(s), score) == Scoring(s, score)
  {
    if s != [] {
      var init, last := s[..|s| - 1], s[|s| - 1];
      ByScoreIsStable(init, score);
      InsertIsStable(ByScore(init), last, score);
    }
  }

  lemma {:induction false} FirstIsBest(s: seq<Candidate>, i: nat)
    requires Descending(s) && i < |s|
    ensures s[0].score >= s[i].score
  {
    if i < |s| - 1 {
      FirstIsBest(s[..|s| - 1], i);
    } else if i > 0 {
      FirstIsBest(s[..|s| - 1], i - 1);
    }
  }

  // -- diversification ------------------------------------------------------------------------

  /** The first candidate of each backend not in `seen`, in order. */
  function Heads(s: seq<Candidate>, seen: set<string>): seq<Candidate> {
    if s == [] then []
    else if s[0].backend in seen then Heads(s[1..], seen)
    else [s[0]] + Heads(s[1..], seen + {s[0].backend})
  }

  /** All the other candidates, in order. */
  function Others(s: seq<Candidate>, seen: set<string>): seq<Candidate> {
    if s == [] then []
    else if s[0].backend in seen then [s[0]] + Others(s[1..], seen)
    else Others(s[1..], seen + {s[0].backend})
  }

  function Spread(s: seq<Candidate>, seen: set<string>): seq<Candidate> {
    Heads(s, seen) + Others(s, seen)
  }

  function ChainLength(n: nat, limit: int): nat {
    if n == 0 then 0 else if limit <= 1 then 1 else if limit <= n then limit else n
  }

  /** The closed form of the greedy loop: one candidate per backend first, then the rest, cut at the limit. */
  function Diversified(s: seq<Candidate>, limit: int): seq<Candidate> {
    SpreadLength(s, {});
    Spread(s, {})[..ChainLength(|s|, limit)]
  }

  lemma {:induction false} SpreadLength(s: seq<Candidate>, seen: set<string>)
    ensures |Spread(s, seen)| == |s|
    ensures multiset(Spread(s, seen)) == multiset(s)
  {
    if s != [] {
      assert s == [s[0]] + s[1..];
      SpreadLength(s[1..], if s[0].backend in seen then seen else seen + {s[0].backend});
    }
  }

  lemma {:induction false} SkipSeen(front: seq<Candidate>, rest: seq<Candidate>, seen: set<string>)
    requires forall c :: c in front ==> c.backend in seen
    ensures Heads(front + rest, seen) == Heads(rest, seen)
    ensures Others(front + rest, seen) == front + Others(rest, seen)
  {
    if front == [] {
      assert front + rest == rest;
    } else {
      assert front[0] in front;
      assert (front + rest)[1..] == front[1..] + rest;
      SkipSeen(front[1..], rest, seen);
    }
  }

  /** Taking the first candidate of a fresh backend, or the first of all when none is fresh, takes the next of the
      closed form. */
  lemma PickIsNext(remaining: seq<Candidate>, k: nat, seen: set<string>)
    requires k < |remaining|
    requires forall j :: 0 <= j < k ==> remaining[j].backend in seen
    requires remaining[k].backend !in seen
    ensures var p := remaining[k];
            Spread(remaining, seen) == [p] + Spread(remaining[..k] + remaining[k + 1..], seen + {p.backend})
  {
    var front, p, back := remaining[..k], remaining[k], remaining[k + 1..];
    assert remaining == front + ([p] + back);
    assert ([p] + back)[1..] == back;
    SkipSeen(front, [p] + back, seen);
    SkipSeen(front, back, seen + {p.backend});
  }

  lemma NoneFresh(remaining: seq<Candidate>, seen: set<string>)
    requires forall c :: c in remaining ==> c.backend in seen
    ensures Spread(remaining, seen) == remaining
  {
    SkipSeen(remaining, [], seen);
    assert remaining + [] == remaining;
  }

  /** The position of the first candidate of a backend not yet used. */
  method FirstFresh(remaining: seq<Candidate>, seen: set<string>) returns (k: nat)
    ensures k <= |remaining|
    ensures forall j :: 0 <= j < k ==> remaining[j].backend in seen
    ensures k < |remaining| ==> remaining[k].backend !in seen
  {
    k := 0;
    while k < |remaining| && remaining[k].backend in seen
      invariant k <= |remaining|
      invariant forall j :: 0 <= j < k ==> remaining[j].backend in seen
    {
      k := k + 1;
    }
  }

  /** What one round of the loop takes, and from where. */
  lemma RoundKeepsSpread(all: seq<Candidate>, chosen: seq<Candidate>, remaining: seq<Candidate>, k: nat, seen: set<string>)
    requires all == chosen + Spread(remaining, seen) && k < |remaining|
    requires forall j :: 0 <= j < k ==> remaining[j].backend in seen
    requires remaining[k].backend !in seen
    ensures all == chosen + [remaining[k]] + Spread(remaining[..k] + remaining[k + 1..], seen + {remaining[k].backend})
  {
    hide Spread, Heads, Others;
    PickIsNext(remaining, k, seen);
    ConcatAssociative(chosen, [remaining[k]], Spread(remaining[..k] + remaining[k + 1..], seen + {remaining[k].backend}));
  }

  lemma StaleRoundKeepsSpread(all: seq<Candidate>, chosen: seq<Candidate>, remaining: seq<Candidate>, seen: set<string>)
    requires all == chosen + Spread(remaining, seen) && remaining != []
    requires forall c :: c in remaining ==> c.backend in seen
    ensures all == chosen + [remaining[0]] + Spread(remaining[1..], seen)
  {
    hide Spread, Heads, Others;
    NoneFresh(remaining, seen);
    NoneFresh(remaining[1..], seen);
    assert remaining == [remaining[0]] + remaining[1..];
    ConcatAssociative(chosen, [remaining[0]], remaining[1..]);
  }

  lemma ChosenIsFront(all: seq<Candidate>, chosen: seq<Candidate>, rest: seq<Candidate>)
    requires all == chosen + rest
    ensures all[..|chosen|] == chosen
  {
  }

  method Diversify(candidates: seq<Candidate>, limit: int) returns (chosen: seq<Candidate>)
    ensures chosen == Diversified(candidates, limit)
  {
    hide Spread, Heads, Others;
    SpreadLength(candidates, {});
    if candidates == [] {
      return [];
    }
    ghost var all := Spread(candidates, {});
    assert [] + all == all;
    RoundKeepsSpread(all, [], candidates, 0, {});
    assert [] + [candidates[0]] == [candidates[0]] && {} + {candidates[0].backend} == {candidates[0].backend};
    assert candidates[..0] + candidates[1..] == candidates[1..];
    chosen := [candidates[0]];
    var seen, remaining := {candidates[0].backend}, candidates[1..];
    while remaining != [] && |chosen| < limit
      invariant |chosen| + |remaining| == |candidates|
      invariant 1 <= |chosen| && (limit >= 1 ==> |chosen| <= limit) && (limit < 1 ==> |chosen| == 1)
      invariant all == chosen + Spread(remaining, seen)
    {
      var k := FirstFresh(remaining, seen);
      if k == |remaining| {
        StaleRoundKeepsSpread(all, chosen, remaining, seen);
        chosen, remaining := chosen + [remaining[0]], remaining[1..];
      } else {
        RoundKeepsSpread(all, chosen, remaining, k, seen);
        chosen, seen, remaining :=
          chosen + [remaining[k]], seen + {remaining[k].backend}, remaining[..k] + remaining[k + 1..];
      }
    }
    SpreadLength(remaining, seen);
    ChosenIsFront(all, chosen, Spread(remaining, seen));
  }

  // -- why the chain is a good one ---------------------------------------------------------------

  ghost function BackendsOf(s: seq<Candidate>): set<string> {
    set c | c in s :: c.backend
  }

  ghost predicate AllDifferentBackends(s: seq<Candidate>) {
    s == [] || (s[0].backend !in BackendsOf(s[1..]) && AllDifferentBackends(s[1..]))
  }

  lemma BackendsCons(c: Candidate, s: seq<Candidate>)
    ensures BackendsOf([c] + s) == {c.backend} + BackendsOf(s)
  {
    assert forall x :: x in [c] + s <==> x == c || x in s;
  }

  lemma {:induction false} HeadsCover(s: seq<Candidate>, seen: set<string>)
    ensures AllDifferentBackends(Heads(s, seen))
    ensures BackendsOf(Heads(s, seen)) == BackendsOf(s) - seen
  {
    if s != [] {
      assert s == [s[0]] + s[1..];
      BackendsCons(s[0], s[1..]);
      if s[0].backend in seen {
        HeadsCover(s[1..], seen);
      } else {
        var rest := Heads(s[1..], seen + {s[0].backend});
        HeadsCover(s[1..], seen + {s[0].backend});
        BackendsCons(s[0], rest);
        assert ([s[0]] + rest)[1..] == rest;
      }
    }
  }

  lemma {:induction false} DifferentBackendsCount(s: seq<Candidate>)
    requires AllDifferentBackends(s)
    ensures |BackendsOf(s)| == |s|
  {
    if s == [] {
      assert BackendsOf(s) == {};
    } else {
      assert s == [s[0]] + s[1..];
      BackendsCons(s[0], s[1..]);
      DifferentBackendsCount(s[1..]);
    }
  }

  lemma {:induction false} FrontDiffers(s: seq<Candidate>, k: nat)
    requires AllDifferentBackends(s) && k <= |s|
    ensures AllDifferentBackends(s[..k])
  {
    if k > 0 {
      FrontDiffers(s[1..], k - 1);
      assert s[..k][1..] == s[1..][..k - 1];
      assert forall c :: c in s[..k][1..] ==> c in s[1..];
    }
  }

  lemma {:induction false} DifferentMeans(s: seq<Candidate>, i: nat, j: nat)
    requires AllDifferentBackends(s) && i < j < |s|
    ensures s[i].backend != s[j].backend
  {
    if i == 0 {
      assert s[j] == s[1..][j - 1];
    } else {
      DifferentMeans(s[1..], i - 1, j - 1);
    }
  }

  lemma ChainIsSelection(s: seq<Candidate>, limit: int)
    ensures forall c :: c in Diversified(s, limit) ==> c in s
    ensures multiset(Diversified(s, limit)) <= multiset(s)
  {
    SpreadLength(s, {});
    var spread, n := Spread(s, {}), ChainLength(|s|, limit);
    assert spread == spread[..n] + spread[n..];
    forall c | c in spread[..n] ensures c in s {
      assert c in multiset(spread);
    }
  }

  lemma FrontOfConcat(h: seq<Candidate>, o: seq<Candidate>, n: nat, k: nat)
    requires k <= n <= |h| + |o|
    ensures k <= |h| ==> (h + o)[..n][..k] == h[..k]
    ensures k >= |h| ==> (h + o)[..n][..k][..|h|] == h
  {
  }

  /** The chain begins like the list of backend heads. */
  lemma ChainFront(s: seq<Candidate>, limit: int, k: nat)
    requires k <= |Diversified(s, limit)|
    ensures var heads, chain := Heads(s, {}), Diversified(s, limit);
            && (k <= |heads| ==> chain[..k] == heads[..k])
            && (k >= |heads| ==> chain[..k][..|heads|] == heads)
  {
    SpreadLength(s, {});
    FrontOfConcat(Heads(s, {}), Others(s, {}), ChainLength(|s|, limit), k);
  }

  lemma SpreadStarts(s: seq<Candidate>)
    requires s != []
    ensures Heads(s, {}) != [] && Heads(s, {})[0] == s[0] && Spread(s, {})[0] == s[0]
  {
  }

  /** The first entries of the chain, as many as there are backends, come from pairwise different backends. */
  lemma ChainCrossesBackendsFirst(s: seq<Candidate>, limit: int)
    requires s != []
    ensures var chain, m := Diversified(s, limit), |BackendsOf(s)|;
            && |chain| == ChainLength(|s|, limit) && chain[0] == s[0]
            && (forall i, j :: 0 <= i < j < Min(|chain|, m) ==> chain[i].backend != chain[j].backend)
            && (|chain| >= m ==> BackendsOf(chain) == BackendsOf(s))
  {
    hide Heads, Others;
    var heads, chain := Heads(s, {}), Diversified(s, limit);
    SpreadLength(s, {});
    SpreadStarts(s);
    HeadsCover(s, {});
    DifferentBackendsCount(heads);
    assert BackendsOf(heads) == BackendsOf(s);
    ChainFront(s, limit, Min(|chain|, |heads|));
    FrontDiffers(heads, Min(|chain|, |heads|));
    ChainIsSelection(s, limit);
    var front := chain[..Min(|chain|, |heads|)];
    forall i, j | 0 <= i < j < |front| ensures chain[i].backend != chain[j].backend {
      DifferentMeans(front, i, j);
    }
    if |chain| >= |heads| {
      assert heads[..|heads|] == heads;
      ChainCovers(s, chain, heads);
    }
  }

  lemma ChainCovers(s: seq<Candidate>, chain: seq<Candidate>, heads: seq<Candidate>)
    requires |heads| <= |chain| && chain[..|heads|] == heads && BackendsOf(heads) == BackendsOf(s)
    requires forall c :: c in chain ==> c in s
    ensures BackendsOf(chain) == BackendsOf(s)
  {
    forall c | c in heads ensures c in chain {
      var k :| 0 <= k < |heads| && heads[k] == c;
      assert chain[k] == c;
    }
    forall b | b in BackendsOf(s) ensures b in BackendsOf(chain) {
      assert b in BackendsOf(heads);
      var c :| c in heads && c.backend == b;
      assert c in chain;
    }
  }

  lemma {:induction false} AtMostOneBackendEach(t: seq<Candidate>)
    ensures |BackendsOf(t)| <= |t|
  {
    if t == [] {
      assert BackendsOf(t) == {};
    } else {
      assert t == [t[0]] + t[1..];
      BackendsCons(t[0], t[1..]);
      AtMostOneBackendEach(t[1..]);
      SubsetSize(BackendsOf(t), {t[0].backend} + BackendsOf(t[1..]));
    }
  }

  /** Greedy is optimal at every length: no choice of as many candidates touches more backends than the chain's front. */
  lemma OptimalCoverage(s: seq<Candidate>, limit: int, t: seq<Candidate>)
    requires s != [] && |t| <= |Diversified(s, limit)|
    requires forall c :: c in t ==> c in s
    ensures |BackendsOf(t)| <= |BackendsOf(Diversified(s, limit)[..|t|])|
  {
    var heads, chain, k := Heads(s, {}), Diversified(s, limit), |t|;
    SpreadLength(s, {});
    HeadsCover(s, {});
    assert BackendsOf(heads) == BackendsOf(s);
    AtMostOneBackendEach(t);
    ChainFront(s, limit, k);
    if k <= |heads| {
      FrontDiffers(heads, k);
      DifferentBackendsCount(heads[..k]);
    } else {
      ChainIsSelection(s, limit);
      assert forall c :: c in chain[..k] ==> c in chain;
      ChainCovers(s, chain[..k], heads);
      SubsetSize(BackendsOf(t), BackendsOf(s));
    }
  }

  /** The candidates of one backend, in order. */
  function Of(s: seq<Candidate>, backend: string): seq<Candidate> {
    if s == [] then [] else Match(s[0], backend) + Of(s[1..], backend)
  }

  function Match(c: Candidate, backend: string): seq<Candidate> {
    if c.backend == backend then [c] else []
  }

  lemma ConcatAssociative(a: seq<Candidate>, b: seq<Candidate>, c: seq<Candidate>)
    ensures a + (b + c) == (a + b) + c
  {
  }

  lemma {:induction false} OfConcat(a: seq<Candidate>, b: seq<Candidate>, backend: string)
    ensures Of(a + b, backend) == Of(a, backend) + Of(b, backend)
  {
    hide Match;
    if a == [] {
      assert a + b == b;
    } else {
      assert (a + b)[1..] == a[1..] + b;
      OfConcat(a[1..], b, backend);
      ConcatAssociative(Match(a[0], backend), Of(a[1..], backend), Of(b, backend));
    }
  }

  lemma {:induction false} HeadsAvoidSeen(s: seq<Candidate>, seen: set<string>, backend: string)
    requires backend in seen
    ensures Of(Heads(s, seen), backend) == []
  {
    if s != [] {
      HeadsAvoidSeen(s[1..], if s[0].backend in seen then seen else seen + {s[0].backend}, backend);
      if s[0].backend !in seen {
        assert Heads(s, seen)[1..] == Heads(s[1..], seen + {s[0].backend});
      }
    }
  }

  /** Moving a candidate to the front of everything but the heads does not show, if no head has its backend. */
  lemma SeenCandidateLeads(h: seq<Candidate>, c: Candidate, o: seq<Candidate>, backend: string)
    requires c.backend == backend ==> Of(h, backend) == []
    ensures Of(h + ([c] + o), backend) == Of([c] + (h + o), backend)
  {
    OfConcat(h, [c] + o, backend);
    OfConcat(h, o, backend);
    OfCons(c, o, backend);
    OfCons(c, h + o, backend);
    if c.backend == backend {
      assert [] + (Match(c, backend) + Of(o, backend)) == Match(c, backend) + ([] + Of(o, backend));
    } else {
      assert Of(h, backend) + ([] + Of(o, backend)) == [] + (Of(h, backend) + Of(o, backend));
    }
  }

  lemma OfCons(c: Candidate, s: seq<Candidate>, backend: string)
    ensures Of([c] + s, backend) == Match(c, backend) + Of(s, backend)
  {
    assert ([c] + s)[1..] == s;
  }

  lemma SpreadCons(s: seq<Candidate>, seen: set<string>)
    requires s != []
    ensures var c, rest := s[0], s[1..];
            Spread(s, seen) == if c.backend in seen then Heads(rest, seen) + ([c] + Others(rest, seen))
                               else [c] + Spread(rest, seen + {c.backend})
  {
    if s[0].backend !in seen {
      var h, o := Heads(s[1..], seen + {s[0].backend}), Others(s[1..], seen + {s[0].backend});
      ConcatAssociative([s[0]], h, o);
    }
  }

  lemma {:induction false} BackendOrderKept(s: seq<Candidate>, seen: set<string>, backend: string)
    ensures Of(Spread(s, seen), backend) == Of(s, backend)
    decreases s, 1
  {
    if s == [] {
      assert Spread(s, seen) == [];
    } else {
      BackendOrderStep(s, seen, backend);
    }
  }

  lemma BackendOrderStep(s: seq<Candidate>, seen: set<string>, backend: string)
    requires s != []
    ensures Of(Spread(s, seen), backend) == Of(s, backend)
    decreases s, 0
  {
    hide Heads, Others, Spread, Of, Match;
    var c, rest := s[0], s[1..];
    assert s == [c] + rest;
    OfCons(c, rest, backend);
    SpreadCons(s, seen);
    if c.backend in seen {
      BackendOrderKept(rest, seen, backend);
      if c.backend == backend {
        HeadsAvoidSeen(rest, seen, backend);
      }
      SeenCandidateLeads(Heads(rest, seen), c, Others(rest, seen), backend);
      SpreadIs(rest, seen);
      OfCons(c, Spread(rest, seen), backend);
    } else {
      BackendOrderKept(rest, seen + {c.backend}, backend);
      OfCons(c, Spread(rest, seen + {c.backend}), backend);
    }
  }

  lemma SpreadIs(s: seq<Candidate>, seen: set<string>)
    ensures Spread(s, seen) == Heads(s, seen) + Others(s, seen)
  {
  }

  /** Diversifying never reorders the candidates of one backend: the chain holds the best of each, best first. */
  lemma ChainKeepsBackendOrder(s: seq<Candidate>, limit: int, backend: string)
    ensures Of(Diversified(s, limit), backend) <= Of(s, backend)
  {
    hide Heads, Others;
    var spread, n := Spread(s, {}), ChainLength(|s|, limit);
    SpreadLength(s, {});
    BackendOrderKept(s, {}, backend);
    assert spread == spread[..n] + spread[n..];
    OfConcat(spread[..n], spread[n..], backend);
  }

  // -- the decision --------------------------------------------------------------------------------

  function Decide(r: Router, a: Ask, maxFallbacks: int): Decision {
    var served := Served(r, a);
    var eligible := Eligible(r, r.catalog, served, a);
    var chain := Diversified(ByScore(eligible), maxFallbacks + 1);
    Decision(
      if chain == [] then None else Some(chain[0]),
      if chain == [] then [] else chain[1..],
      Excluded(r, r.catalog, served, a),
      a.tier,
      if eligible != [] && served != a.tier then Some(served) else None)
  }

  /** One attempt: sort the catalog into eligible and excluded at a tier. */
  method Attempt(r: Router, tier: Tier, a: Ask) returns (eligible: seq<Candidate>, excluded: seq<(string, Gate)>)
    ensures eligible == Eligible(r, r.catalog, tier, a) && excluded == Excluded(r, r.catalog, tier, a)
  {
    eligible, excluded := [], [];
    for i := 0 to |r.catalog|
      invariant eligible == Eligible(r, r.catalog[..i], tier, a)
      invariant excluded == Excluded(r, r.catalog[..i], tier, a)
    {
      assert r.catalog[..i + 1][..i] == r.catalog[..i];
      var e := r.catalog[i];
      match IneligibleReason(r, e, tier, a)
      case Some(g) => excluded := excluded + [(e.spec.ref, g)];
      case None => eligible := eligible + [CandidateOf(r, e, a)];
    }
    assert r.catalog[..|r.catalog|] == r.catalog;
  }

  lemma {:induction false} LastTriedSkips(r: Router, tiers: seq<Tier>, a: Ask, i: nat)
    requires i < |tiers|
    requires forall j :: 0 <= j < i ==> Eligible(r, r.catalog, tiers[j], a) == []
    ensures LastTried(r, tiers, a) == LastTried(r, tiers[i..], a)
  {
    if i == 0 {
      assert tiers[0..] == tiers;
    } else {
      assert tiers[1..][i - 1..] == tiers[i..];
      assert forall j :: 0 <= j < i - 1 ==> tiers[1..][j] == tiers[j + 1];
      LastTriedSkips(r, tiers[1..], a, i - 1);
    }
  }

  method DecideChain(r: Router, a: Ask, maxFallbacks: int) returns (d: Decision)
    ensures d == Decide(r, a, maxFallbacks)
  {
    var tiers := Descent(a.tier);
    var eligible: seq<Candidate>, excluded: seq<(string, Gate)> := [], [];
    var degradedFrom: Option<Tier> := None;
    var i := 0;
    ghost var last := a.tier;
    while i < |tiers| && eligible == []
      invariant 0 <= i <= |tiers|
      invariant forall j :: 0 <= j < i - 1 ==> Eligible(r, r.catalog, tiers[j], a) == []
      invariant i > 0 ==> last == tiers[i - 1]
      invariant i == 0 ==> eligible == [] && degradedFrom == None
      invariant i > 0 ==> eligible == Eligible(r, r.catalog, last, a) && excluded == Excluded(r, r.catalog, last, a)
      invariant i > 0 ==> degradedFrom == if eligible != [] && last != a.tier then Some(last) else None
    {
      last := tiers[i];
      eligible, excluded := Attempt(r, tiers[i], a);
      if eligible != [] && tiers[i] != a.tier {
        degradedFrom := Some(tiers[i]);
      }
      i := i + 1;
    }
    LastTriedSkips(r, tiers, a, i - 1);
    assert Served(r, a) == last;
    var chain := Diversify(ByScore(eligible), maxFallbacks + 1);
    if chain == [] {
      return Decision(None, [], excluded, a.tier, degradedFrom);
    }
    d := Decision(Some(chain[0]), chain[1..], excluded, a.tier, degradedFrom);
  }

  // -- laws of the decision ----------------------------------------------------------------------------

  lemma ChainOfDecision(r: Router, a: Ask, maxFallbacks: int)
    ensures Decide(r, a, maxFallbacks).Chain() ==
            Diversified(ByScore(Eligible(r, r.catalog, Served(r, a), a)), maxFallbacks + 1)
  {
    var chain := Diversified(ByScore(Eligible(r, r.catalog, Served(r, a), a)), maxFallbacks + 1);
    if chain != [] {
      assert chain == [chain[0]] + chain[1..];
    }
  }

  lemma {:induction false} EligiblePassed(r: Router, entries: seq<Entry>, tier: Tier, a: Ask, c: Candidate)
    ensures c in Eligible(r, entries, tier, a) <==>
            exists e :: e in entries && IneligibleReason(r, e, tier, a).None?
                        && c == Candidate(e.spec.backend, e.spec.ref, a.tier, Score(r, e, a.warm))
  {
    if entries != [] {
      var init, last := entries[..|entries| - 1], entries[|entries| - 1];
      assert entries == init + [last];
      EligiblePassed(r, init, tier, a, c);
      if c in Eligible(r, entries, tier, a) && c !in Eligible(r, init, tier, a) {
        assert last in entries && c == Candidate(last.spec.backend, last.spec.ref, a.tier, Score(r, last, a.warm));
      }
    }
  }

  function Refs(s: seq<Candidate>): seq<string> {
    if s == [] then [] else Refs(s[..|s| - 1]) + [s[|s| - 1].ref]
  }

  function ExcludedRefs(s: seq<(string, Gate)>): seq<string> {
    if s == [] then [] else ExcludedRefs(s[..|s| - 1]) + [s[|s| - 1].0]
  }

  function EntryRefs(s: seq<Entry>): seq<string> {
    if s == [] then [] else EntryRefs(s[..|s| - 1]) + [s[|s| - 1].spec.ref]
  }

  lemma RefsSnoc(s: seq<Candidate>, c: Candidate)
    ensures Refs(s + [c]) == Refs(s) + [c.ref]
  {
    assert (s + [c])[..|s|] == s;
  }

  lemma ExcludedRefsSnoc(s: seq<(string, Gate)>, x: (string, Gate))
    ensures ExcludedRefs(s + [x]) == ExcludedRefs(s) + [x.0]
  {
    assert (s + [x])[..|s|] == s;
  }

  /** Both lists keep the catalog's order: what comes first in the catalog comes first in them. */
  lemma {:induction false} CatalogOrderKept(r: Router, front: seq<Entry>, back: seq<Entry>, tier: Tier, a: Ask)
    ensures Eligible(r, front + back, tier, a) == Eligible(r, front, tier, a) + Eligible(r, back, tier, a)
    ensures Excluded(r, front + back, tier, a) == Excluded(r, front, tier, a) + Excluded(r, back, tier, a)
  {
    hide IneligibleReason, CandidateOf;
    if back == [] {
      assert front + back == front;
    } else {
      var init, last := back[..|back| - 1], back[|back| - 1];
      assert front + back == (front + init) + [last];
      CatalogOrderKept(r, front, init, tier, a);
    }
  }

  /** Eligible and excluded partition the catalog: every entry is in exactly one of them, once. */
  lemma {:induction false} EveryEntryIsAccountedFor(r: Router, entries: seq<Entry>, tier: Tier, a: Ask)
    ensures multiset(Refs(Eligible(r, entries, tier, a))) + multiset(ExcludedRefs(Excluded(r, entries, tier, a)))
            == multiset(EntryRefs(entries))
  {
    hide IneligibleReason, Score;
    if entries != [] {
      var init, e := entries[..|entries| - 1], entries[|entries| - 1];
      EveryEntryIsAccountedFor(r, init, tier, a);
      var el, ex := Eligible(r, init, tier, a), Excluded(r, init, tier, a);
      match IneligibleReason(r, e, tier, a)
      case Some(g) =>
        ExcludedRefsSnoc(ex, (e.spec.ref, g));
        assert Eligible(r, entries, tier, a) == el;
      case None =>
        RefsSnoc(el, CandidateOf(r, e, a));
        assert Excluded(r, entries, tier, a) == ex;
    }
  }

  lemma SortedMembers(s: seq<Candidate>)
    ensures |ByScore(s)| == |s| && Descending(ByScore(s))
    ensures forall c :: c in ByScore(s) <==> c in s
  {
    ByScoreSorts(s);
    assert |ByScore(s)| == |multiset(ByScore(s))| == |multiset(s)| == |s|;
    forall c ensures c in ByScore(s) <==> c in s {
      assert c in multiset(ByScore(s)) <==> c in multiset(s);
    }
  }

  lemma BestFirst(s: seq<Candidate>, limit: int)
    requires s != []
    ensures var chain := Diversified(ByScore(s), limit);
            chain != [] && chain[0] in s && forall c :: c in s ==> chain[0].score >= c.score
  {
    var sorted := ByScore(s);
    SortedMembers(s);
    ChainCrossesBackendsFirst(sorted, limit);
    assert sorted[0] in sorted;
    forall c | c in s ensures sorted[0].score >= c.score {
      var i :| 0 <= i < |sorted| && sorted[i] == c;
      FirstIsBest(sorted, i);
    }
  }

  /** The primary is the best eligible candidate, and nothing in the chain is anything but eligible at the served tier. */
  lemma PrimaryIsBest(r: Router, a: Ask, maxFallbacks: int)
    ensures var d, eligible := Decide(r, a, maxFallbacks), Eligible(r, r.catalog, Served(r, a), a);
            && (d.primary.None? <==> eligible == [])
            && (d.primary.Some? ==> d.primary.value in eligible
                                    && forall c :: c in eligible ==> d.primary.value.score >= c.score)
            && (forall c :: c in d.Chain() ==> c in eligible)
            && |d.Chain()| == Min(|eligible|, if maxFallbacks < 0 then 1 else maxFallbacks + 1)
  {
    hide IneligibleReason, Score;
    var eligible := Eligible(r, r.catalog, Served(r, a), a);
    SortedMembers(eligible);
    ChainOfDecision(r, a, maxFallbacks);
    ChainIsSelection(ByScore(eligible), maxFallbacks + 1);
    SpreadLength(ByScore(eligible), {});
    if eligible != [] {
      BestFirst(eligible, maxFallbacks + 1);
    }
  }

  /** The primary is the best on the evidence: an eligible entry that another eligible one matches in every respect and
      beats in one is never the primary. */
  lemma BetterEvidenceFirst(r: Router, a: Ask, maxFallbacks: int, x: Entry, y: Entry)
    requires x in r.catalog && IneligibleReason(r, x, Served(r, a), a).None?
    requires NoWorse(r, x, y, a.warm) && Better(r, x, y, a.warm)
    requires forall e :: e in r.catalog && e.spec.ref == y.spec.ref ==> e == y
    ensures var d := Decide(r, a, maxFallbacks); d.primary.Some? && d.primary.value.ref != y.spec.ref
  {
    hide IneligibleReason, Score, Eligible, NoWorse, Better, Served;
    ScoreOrders(r, x, y, a.warm);
    PrimaryIsBest(r, a, maxFallbacks);
    EligiblePassed(r, r.catalog, Served(r, a), a, CandidateOf(r, x, a));
    var d := Decide(r, a, maxFallbacks);
    if d.primary.Some? {
      EligiblePassed(r, r.catalog, Served(r, a), a, d.primary.value);
    }
  }

  /** When a decision is labelled as degraded: exactly when a lower tier served, and that tier is the highest that could. */
  lemma DegradedIff(r: Router, a: Ask, maxFallbacks: int)
    ensures var d := Decide(r, a, maxFallbacks);
            && (d.degradedFrom.Some? <==> Eligible(r, r.catalog, a.tier, a) == [] && d.primary.Some?)
            && (d.degradedFrom.Some? ==> Rank(d.degradedFrom.value) < Rank(a.tier))
            && (d.primary.None? <==> forall t: Tier :: Rank(t) <= Rank(a.tier) ==> Eligible(r, r.catalog, t, a) == [])
  {
    hide IneligibleReason, Score, Eligible, Diversified, ByScore;
    ServedIsHighest(r, a);
    PrimaryIsBest(r, a, maxFallbacks);
  }

  // -- the operator catalog --------------------------------------------------------------------------------

  const CATALOG_CONTEXT := 8192

  function InstalledOn(installed: map<string, set<string>>, backend: string): set<string> {
    if backend in installed then installed[backend] else {}
  }

  function CatalogAsk(tier: Tier, installed: set<string>): Ask {
    Ask(tier, true, CATALOG_CONTEXT, false, installed, {})
  }

  /** The catalog view lists this tier of the entry as routable. */
  predicate Listed(r: Router, e: Entry, tier: Tier, installed: map<string, set<string>>) {
    && tier in e.spec.tiers
    && (e.spec.backend in installed ==> e.spec.ref in installed[e.spec.backend])
    && IneligibleReason(r, e, tier, CatalogAsk(tier, InstalledOn(installed, e.spec.backend))).None?
  }

  /** Exactly when the catalog view lists a tier: the operator sees what a request with tools and 8192 tokens of context,
      allowed to leave the machine as far as the router allows it, would be served by. */
  lemma ListedIff(r: Router, e: Entry, tier: Tier, installed: map<string, set<string>>)
    ensures Listed(r, e, tier, installed) <==>
            && tier in e.spec.tiers && (e.spec.backend in installed ==> e.spec.ref in installed[e.spec.backend])
            && (r.localOnly ==> !IsHosted(e.spec.backend)) && !e.spec.quarantined && e.placement != Unavailable
            && e.spec.tools && e.spec.context >= 8192
            && e.spec.ref !in r.breakerOpen && BenchAllows(r, e.spec.ref, true)
  {
    hide IneligibleReason, BenchAllows;
    EligibleIff(r, e, tier, CatalogAsk(tier, InstalledOn(installed, e.spec.backend)));
  }

  /** What dispatch passes: everything installed anywhere. */
  function Everywhere(installed: map<string, set<string>>): set<string> {
    set b, ref | b in installed && ref in installed[b] :: ref
  }

  /** The operator catalog against dispatch: a listed tier is one at which dispatch takes the entry, iff the model is
      installed somewhere or nothing is installed anywhere; for an entry of a discovered backend that always holds. */
  lemma ListedIsEligibleIff(r: Router, e: Entry, tier: Tier, installed: map<string, set<string>>)
    requires Listed(r, e, tier, installed)
    ensures IneligibleReason(r, e, tier, CatalogAsk(tier, Everywhere(installed))).None? <==>
            Everywhere(installed) == {} || e.spec.ref in Everywhere(installed)
    ensures e.spec.backend in installed ==>
            IneligibleReason(r, e, tier, CatalogAsk(tier, Everywhere(installed))).None?
  {
    hide IneligibleReason;
    EligibleIff(r, e, tier, CatalogAsk(tier, InstalledOn(installed, e.spec.backend)));
    EligibleIff(r, e, tier, CatalogAsk(tier, Everywhere(installed)));
    if e.spec.backend in installed {
      assert e.spec.ref in Everywhere(installed);
    }
  }

  /** The condition matters: as soon as any other backend reports a model, every entry of a backend that was not
      discovered and whose model is nowhere else is listed as routable and rejected by dispatch. */
  lemma UndiscoveredIsListedButRejected(r: Router, e: Entry, tier: Tier, installed: map<string, set<string>>)
    requires IneligibleReason(r, e, tier, CatalogAsk(tier, {})).None?
    requires e.spec.backend !in installed && Everywhere(installed) != {} && e.spec.ref !in Everywhere(installed)
    ensures Listed(r, e, tier, installed)
    ensures IneligibleReason(r, e, tier, CatalogAsk(tier, Everywhere(installed))) == Some(NotInstalled)
  {
  }
}
