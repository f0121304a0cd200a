/** The operator's routing policy: normalizing it, and overlaying it on the capacity-aware role maps without changing
    what untouched roles mean. */
module RoutingPolicy {
  import opened Common

  datatype Lane = PlanningLane | ImplementationLane | ReviewLane | MaintenanceLane

  /** SWE-AF's roles; a role of no lane is `OtherRole`. */
  datatype Role =
    | Default
    | Pm | Architect | TechLead | SprintPlanner | Replan | IssueAdvisor | RetryAdvisor | IssueWriter
    | Coder | Qa | IntegrationTester | CiFixer
    | CodeReviewer | Verifier | QaSynthesizer
    | Git | Merger
    | OtherRole(name: string)

  datatype Target = Auto | Ollama | OpenRouter | Claude | CodexCli {
    /** Needs a model served over HTTP, which a subscriptions-only host does not have. */
    predicate NeedsModel() {
      Ollama? || OpenRouter?
    }
  }

  datatype Level = HighAlias | MedAlias | LowAlias

  datatype Model =
    | RouterAlias(level: Level)
    | RouterPinned(backend: Target, ref: string)
    | ClaudeModel(name: string)
    | CodexModel(name: string)

  datatype Assignment = Assignment(target: Target, model: string)

  type Policy = map<Lane, Assignment>

  const LANES: seq<Lane> := [PlanningLane, ImplementationLane, ReviewLane, MaintenanceLane]

  function RolesOf(lane: Lane): seq<Role> {
    match lane
    case PlanningLane => [Pm, Architect, TechLead, SprintPlanner, Replan, IssueAdvisor, RetryAdvisor, IssueWriter]
    case ImplementationLane => [Default, Coder, Qa, IntegrationTester, CiFixer]
    case ReviewLane => [CodeReviewer, Verifier, QaSynthesizer]
    case MaintenanceLane => [Git, Merger]
  }

  function LaneOf(role: Role): Option<Lane> {
    match role
    case Default => Some(ImplementationLane)
    case Coder => Some(ImplementationLane)
    case Qa => Some(ImplementationLane)
    case IntegrationTester => Some(ImplementationLane)
    case CiFixer => Some(ImplementationLane)
    case CodeReviewer => Some(ReviewLane)
    case Verifier => Some(ReviewLane)
    case QaSynthesizer => Some(ReviewLane)
    case Git => Some(MaintenanceLane)
    case Merger => Some(MaintenanceLane)
    case OtherRole(_) => None
    case _ => Some(PlanningLane)
  }

  /** Each listed role is in one lane: the four lanes hold these roles and no others. */
  lemma LanesPartitionRoles(role: Role, lane: Lane)
    ensures role in RolesOf(lane) <==> LaneOf(role) == Some(lane)
    ensures LaneOf(role) == Some(lane) <==>
            match lane
            case PlanningLane =>
              role in {Pm, Architect, TechLead, SprintPlanner, Replan, IssueAdvisor, RetryAdvisor, IssueWriter}
            case ImplementationLane => role in {Default, Coder, Qa, IntegrationTester, CiFixer}
            case ReviewLane => role in {CodeReviewer, Verifier, QaSynthesizer}
            case MaintenanceLane => role in {Git, Merger}
  {
    match lane
    case PlanningLane => PlanningRoles(role);
    case ImplementationLane => ImplementationRoles(role);
    case ReviewLane =>
    case MaintenanceLane =>
  }

  lemma PlanningRoles(role: Role)
    ensures role in RolesOf(PlanningLane) <==> LaneOf(role) == Some(PlanningLane)
  {
  }

  lemma ImplementationRoles(role: Role)
    ensures role in RolesOf(ImplementationLane) <==> LaneOf(role) == Some(ImplementationLane)
  {
  }

  lemma EveryLane()
    ensures forall lane: Lane :: lane in LANES
  {
    forall lane: Lane ensures lane in LANES {
      match lane
      case PlanningLane => assert LANES[0] == lane;
      case ImplementationLane => assert LANES[1] == lane;
      case ReviewLane => assert LANES[2] == lane;
      case MaintenanceLane => assert LANES[3] == lane;
    }
  }

  lemma DefaultLane()
    ensures LaneOf(Default) == Some(ImplementationLane)
  {
  }

  // -- normalizing an operator's payload -------------------------------------------------

  /** One lane of a payload, its texts trimmed; an unknown provider name is `None`. */
  datatype RawLane = NotALane | RawLane(target: Option<Target>, model: string)

  datatype Raw = NotAnObject | Lanes(lanes: map<Lane, RawLane>, unknownCategory: bool)

  datatype Rejection =
    | MustBeObject | UnknownCategory | LaneMustBeObject(lane: Lane) | Unsupported(lane: Lane)
    | UnavailableHere(lane: Lane) | ChooseModel(lane: Lane)

  datatype Normalized = Ok(policy: Policy) | Rejected(why: Rejection)

  const AUTO := Assignment(Auto, "")

  function DefaultPolicy(): Policy {
    map[PlanningLane := AUTO, ImplementationLane := AUTO, ReviewLane := AUTO, MaintenanceLane := AUTO]
  }

  function LaneIn(raw: map<Lane, RawLane>, lane: Lane): RawLane {
    if lane in raw then raw[lane] else RawLane(Some(Auto), "")
  }

  function LaneProblem(r: RawLane, lane: Lane, subscriptionsOnly: bool): Option<Rejection> {
    if r.NotALane? then Some(LaneMustBeObject(lane))
    else if r.target.None? then Some(Unsupported(lane))
    else if r.target.value.NeedsModel() && subscriptionsOnly then Some(UnavailableHere(lane))
    else if r.target.value.NeedsModel() && r.model == "" then Some(ChooseModel(lane))
    else None
  }

  function LaneValue(r: RawLane): Assignment
    requires r.RawLane? && r.target.Some?
  {
    Assignment(r.target.value, if r.target.value.NeedsModel() then r.model else "")
  }

  /** The lanes in order, up to the first problem. */
  function NormalizedLanes(raw: map<Lane, RawLane>, lanes: seq<Lane>, subscriptionsOnly: bool): Normalized {
    if lanes == [] then Ok(DefaultPolicy())
    else
      var lane := lanes[|lanes| - 1];
      match NormalizedLanes(raw, lanes[..|lanes| - 1], subscriptionsOnly)
      case Rejected(why) => Rejected(why)
      case Ok(p) =>
        match LaneProblem(LaneIn(raw, lane), lane, subscriptionsOnly)
        case Some(why) => Rejected(why)
        case None => Ok(p[lane := LaneValue(LaneIn(raw, lane))])
  }

  function Normalize(raw: Raw, subscriptionsOnly: bool): Normalized {
    match raw
    case NotAnObject => Rejected(MustBeObject)
    case Lanes(lanes, unknown) =>
      if unknown then Rejected(UnknownCategory) else NormalizedLanes(lanes, LANES, subscriptionsOnly)
  }

  method NormalizePolicy(raw: Raw, subscriptionsOnly: bool) returns (n: Normalized)
    ensures n == Normalize(raw, subscriptionsOnly)
  {
    if raw.NotAnObject? {
      return Rejected(MustBeObject);
    }
    if raw.unknownCategory {
      return Rejected(UnknownCategory);
    }
    var policy := DefaultPolicy();
    for i := 0 to |LANES|
      invariant NormalizedLanes(raw.lanes, LANES[..i], subscriptionsOnly) == Ok(policy)
    {
      assert LANES[..i + 1][..i] == LANES[..i];
      var lane := LANES[i];
      var r := LaneIn(raw.lanes, lane);
      var problem := LaneProblem(r, lane, subscriptionsOnly);
      if problem.Some? {
        RejectionStands(raw.lanes, LANES, i + 1, subscriptionsOnly);
        return Rejected(problem.value);
      }
      policy := policy[lane := LaneValue(r)];
    }
    assert LANES[..|LANES|] == LANES;
    n := Ok(policy);
  }

  lemma {:induction false} RejectionStands(raw: map<Lane, RawLane>, lanes: seq<Lane>, k: nat, subscriptionsOnly: bool)
    requires k <= |lanes| && NormalizedLanes(raw, lanes[..k], subscriptionsOnly).Rejected?
    ensures NormalizedLanes(raw, lanes, subscriptionsOnly) == NormalizedLanes(raw, lanes[..k], subscriptionsOnly)
  {
    if k < |lanes| {
      assert lanes[..|lanes| - 1][..k] == lanes[..k];
      RejectionStands(raw, lanes[..|lanes| - 1], k, subscriptionsOnly);
    } else {
      assert lanes[..k] == lanes;
    }
  }

  /** A policy that can be applied: every lane assigned, a model exactly where one is needed, nothing a subscriptions-only
      host cannot reach. */
  ghost predicate WellFormed(p: Policy, subscriptionsOnly: bool) {
    forall lane: Lane ::
      && lane in p
      && (p[lane].target.NeedsModel() <==> p[lane].model != "")
      && (subscriptionsOnly ==> !p[lane].target.NeedsModel())
  }

  lemma DefaultIsAuto(lane: Lane)
    ensures lane in DefaultPolicy() && DefaultPolicy()[lane] == AUTO
  {
    match lane
    case PlanningLane =>
    case ImplementationLane =>
    case ReviewLane =>
    case MaintenanceLane =>
  }

  lemma {:induction false} LanesNormalized(raw: map<Lane, RawLane>, lanes: seq<Lane>, subscriptionsOnly: bool)
    ensures var n := NormalizedLanes(raw, lanes, subscriptionsOnly);
            && (n.Ok? <==> forall lane :: lane in lanes ==> LaneProblem(LaneIn(raw, lane), lane, subscriptionsOnly).None?)
            && (n.Ok? ==>
                  forall lane: Lane ::
                    && lane in n.policy
                    && n.policy[lane] == if lane in lanes then LaneValue(LaneIn(raw, lane)) else AUTO)
  {
    if lanes != [] {
      var init, last := lanes[..|lanes| - 1], lanes[|lanes| - 1];
      assert lanes == init + [last];
      LanesNormalized(raw, init, subscriptionsOnly);
    } else {
      forall lane: Lane ensures lane in DefaultPolicy() && DefaultPolicy()[lane] == AUTO {
        DefaultIsAuto(lane);
      }
    }
  }

  /** The payload gives cause for this complaint. */
  predicate Complains(raw: Raw, subscriptionsOnly: bool, why: Rejection) {
    match why
    case MustBeObject => raw.NotAnObject?
    case UnknownCategory => raw.Lanes? && raw.unknownCategory
    case LaneMustBeObject(lane) => raw.Lanes? && lane in raw.lanes && raw.lanes[lane].NotALane?
    case Unsupported(lane) =>
      raw.Lanes? && lane in raw.lanes && raw.lanes[lane].RawLane? && raw.lanes[lane].target.None?
    case UnavailableHere(lane) => subscriptionsOnly && AsksForModel(raw, lane)
    case ChooseModel(lane) => AsksForModel(raw, lane) && raw.lanes[lane].model == ""
  }

  /** A lane is to run on a model served over HTTP. */
  predicate AsksForModel(raw: Raw, lane: Lane) {
    raw.Lanes? && lane in raw.lanes && raw.lanes[lane].RawLane?
    && (raw.lanes[lane].target == Some(Ollama) || raw.lanes[lane].target == Some(OpenRouter))
  }

  lemma LaneComplains(raw: Raw, lane: Lane, subscriptionsOnly: bool)
    requires raw.Lanes?
    ensures var problem := LaneProblem(LaneIn(raw.lanes, lane), lane, subscriptionsOnly);
            && (problem.Some? ==> Complains(raw, subscriptionsOnly, problem.value))
            && (problem.None? ==>
                  forall why :: why in {LaneMustBeObject(lane), Unsupported(lane), UnavailableHere(lane), ChooseModel(lane)}
                                ==> !Complains(raw, subscriptionsOnly, why))
  {
  }

  lemma {:induction false} RejectedLane(raw: map<Lane, RawLane>, lanes: seq<Lane>, subscriptionsOnly: bool)
    requires NormalizedLanes(raw, lanes, subscriptionsOnly).Rejected?
    ensures exists lane :: lane in lanes && LaneProblem(LaneIn(raw, lane), lane, subscriptionsOnly)
                                             == Some(NormalizedLanes(raw, lanes, subscriptionsOnly).why)
  {
    var init, last := lanes[..|lanes| - 1], lanes[|lanes| - 1];
    assert lanes == init + [last];
    if NormalizedLanes(raw, init, subscriptionsOnly).Rejected? {
      RejectedLane(raw, init, subscriptionsOnly);
    }
  }

  /** What normalizing keeps of one lane: its target, and its model where the target needs one; a lane that is not named
      is left to the system. */
  predicate KeepsLane(raw: map<Lane, RawLane>, p: Policy, lane: Lane) {
    && lane in p
    && if lane !in raw then p[lane] == Assignment(Auto, "")
       else
         && raw[lane].RawLane? && raw[lane].target == Some(p[lane].target)
         && p[lane].model == if p[lane].target == Ollama || p[lane].target == OpenRouter then raw[lane].model else ""
  }

  /** Normalizing refuses a payload exactly when there is something to complain about, with such a complaint; otherwise it
      keeps every lane, and what it returns can be applied. */
  lemma NormalizedIff(raw: Raw, subscriptionsOnly: bool)
    ensures var n := Normalize(raw, subscriptionsOnly);
            && (n.Rejected? <==> exists why :: Complains(raw, subscriptionsOnly, why))
            && (n.Rejected? ==> Complains(raw, subscriptionsOnly, n.why))
            && (n.Ok? ==> WellFormed(n.policy, subscriptionsOnly)
                          && forall lane: Lane :: KeepsLane(raw.lanes, n.policy, lane))
  {
    hide Complains, LaneProblem, LaneIn;
    var n := Normalize(raw, subscriptionsOnly);
    PayloadComplaints(raw, subscriptionsOnly);
    if raw.Lanes? && !raw.unknownCategory {
      LanesNormalized(raw.lanes, LANES, subscriptionsOnly);
      EveryLane();
      if n.Ok? {
        AcceptedLanes(raw, n.policy, subscriptionsOnly);
      } else {
        RejectedLane(raw.lanes, LANES, subscriptionsOnly);
        forall lane {
          LaneComplains(raw, lane, subscriptionsOnly);
        }
      }
    }
  }

  lemma PayloadComplaints(raw: Raw, subscriptionsOnly: bool)
    ensures raw.NotAnObject? <==> Complains(raw, subscriptionsOnly, MustBeObject)
    ensures raw.Lanes? && raw.unknownCategory <==> Complains(raw, subscriptionsOnly, UnknownCategory)
  {
  }

  lemma AcceptedLanes(raw: Raw, p: Policy, subscriptionsOnly: bool)
    requires raw.Lanes? && !raw.unknownCategory
    requires forall lane: Lane :: lane in p && LaneProblem(LaneIn(raw.lanes, lane), lane, subscriptionsOnly).None?
                                  && p[lane] == LaneValue(LaneIn(raw.lanes, lane))
    ensures WellFormed(p, subscriptionsOnly) && forall lane: Lane :: KeepsLane(raw.lanes, p, lane)
    ensures forall why :: !Complains(raw, subscriptionsOnly, why)
  {
    forall why ensures !Complains(raw, subscriptionsOnly, why) {
      match why
      case MustBeObject =>
      case UnknownCategory =>
      case LaneMustBeObject(lane) => LaneComplains(raw, lane, subscriptionsOnly);
      case Unsupported(lane) => LaneComplains(raw, lane, subscriptionsOnly);
      case UnavailableHere(lane) => LaneComplains(raw, lane, subscriptionsOnly);
      case ChooseModel(lane) => LaneComplains(raw, lane, subscriptionsOnly);
    }
  }

  function AsRaw(p: Policy): Raw {
    Lanes(map lane | lane in p :: RawLane(Some(p[lane].target), p[lane].model), false)
  }

  /** Normalizing is idempotent: a policy that can be applied is stored and read back unchanged. */
  lemma NormalizeIsIdempotent(p: Policy, subscriptionsOnly: bool)
    requires WellFormed(p, subscriptionsOnly)
    ensures Normalize(AsRaw(p), subscriptionsOnly) == Ok(p)
  {
    var raw := AsRaw(p);
    NormalizedIff(raw, subscriptionsOnly);
    LanesNormalized(raw.lanes, LANES, subscriptionsOnly);
    EveryLane();
    var n := Normalize(raw, subscriptionsOnly);
    assert n.policy.Keys == p.Keys;
    assert n.policy == p;
  }

  // -- loading a stored policy --------------------------------------------------------------

  /** What can be kept of one stored lane on a subscriptions-only host. */
  function SalvagedLane(raw: map<Lane, RawLane>, lane: Lane): Assignment {
    if lane in raw && raw[lane].RawLane? && raw[lane].target.Some? && !raw[lane].target.value.NeedsModel()
    then Assignment(raw[lane].target.value, "") else AUTO
  }

  function Salvaged(raw: Raw): Policy {
    match raw
    case NotAnObject => DefaultPolicy()
    case Lanes(lanes, _) =>
      map[PlanningLane := SalvagedLane(lanes, PlanningLane), ImplementationLane := SalvagedLane(lanes, ImplementationLane),
          ReviewLane := SalvagedLane(lanes, ReviewLane), MaintenanceLane := SalvagedLane(lanes, MaintenanceLane)]
  }

  function Load(stored: Raw, subscriptionsOnly: bool): Policy {
    match Normalize(stored, subscriptionsOnly)
    case Ok(p) => p
    case Rejected(_) => if subscriptionsOnly then Salvaged(stored) else DefaultPolicy()
  }

  /** The salvage loop. */
  method Salvage(raw: Raw) returns (p: Policy)
    ensures p == Salvaged(raw)
  {
    p := DefaultPolicy();
    if raw.Lanes? {
      for i := 0 to |LANES|
        invariant p.Keys == DefaultPolicy().Keys
        invariant forall k :: 0 <= k < |LANES| ==> p[LANES[k]] == if k < i then SalvagedLane(raw.lanes, LANES[k]) else AUTO
      {
        var lane := LANES[i];
        if lane in raw.lanes && raw.lanes[lane].RawLane? && raw.lanes[lane].target.Some?
           && !raw.lanes[lane].target.value.NeedsModel()
        {
          p := p[lane := Assignment(raw.lanes[lane].target.value, "")];
        }
      }
      assert p[LANES[0]] == SalvagedLane(raw.lanes, PlanningLane) && p[LANES[1]] == SalvagedLane(raw.lanes, ImplementationLane);
      assert p[LANES[2]] == SalvagedLane(raw.lanes, ReviewLane) && p[LANES[3]] == SalvagedLane(raw.lanes, MaintenanceLane);
    }
  }

  lemma SalvagedAt(stored: Raw, lane: Lane)
    ensures stored.Lanes? ==> lane in Salvaged(stored) && Salvaged(stored)[lane] == SalvagedLane(stored.lanes, lane)
  {
    match lane
    case PlanningLane =>
    case ImplementationLane =>
    case ReviewLane =>
    case MaintenanceLane =>
  }

  /** Loading never fails a build: whatever is stored, the result can be applied in the current mode, and a lane that
      already could be is kept. */
  lemma LoadIsApplicable(stored: Raw, subscriptionsOnly: bool)
    ensures WellFormed(Load(stored, subscriptionsOnly), subscriptionsOnly)
    ensures forall p: Policy :: WellFormed(p, subscriptionsOnly) && stored == AsRaw(p) ==> Load(stored, subscriptionsOnly) == p
  {
    NormalizedIff(stored, subscriptionsOnly);
    forall lane: Lane
      ensures lane in DefaultPolicy() && DefaultPolicy()[lane] == AUTO
      ensures stored.Lanes? ==> lane in Salvaged(stored) && Salvaged(stored)[lane] == SalvagedLane(stored.lanes, lane)
    {
      DefaultIsAuto(lane);
      SalvagedAt(stored, lane);
    }
    forall p: Policy | WellFormed(p, subscriptionsOnly) && stored == AsRaw(p) ensures Load(stored, subscriptionsOnly) == p {
      NormalizeIsIdempotent(p, subscriptionsOnly);
    }
  }

  /** What is kept of a stored policy that cannot be applied as it is: with subscriptions only, each lane that can still
      be, and otherwise nothing. */
  lemma LoadSalvages(stored: Raw, subscriptionsOnly: bool, lane: Lane)
    requires Normalize(stored, subscriptionsOnly).Rejected?
    ensures var p := Load(stored, subscriptionsOnly);
            && lane in p && p[lane].model == ""
            && p[lane].target ==
               if subscriptionsOnly && stored.Lanes? && lane in stored.lanes && stored.lanes[lane].RawLane?
                  && stored.lanes[lane].target in {Some(Claude), Some(CodexCli)}
               then stored.lanes[lane].target.value else Auto
  {
    DefaultIsAuto(lane);
    SalvagedAt(stored, lane);
  }

  // -- the policy a queued build carries --------------------------------------------------------

  /** A build runs under the policy it names, or else under the stored one. */
  function PolicyOf(named: Option<Raw>, stored: Raw, subscriptionsOnly: bool): Normalized {
    Normalize(if named.Some? then named.value else AsRaw(Load(stored, subscriptionsOnly)), subscriptionsOnly)
  }

  /** A build that names no policy is never refused for one, whatever is stored; any policy it is queued with can be
      applied in the current mode. */
  lemma UnnamedPolicyIsAccepted(named: Option<Raw>, stored: Raw, subscriptionsOnly: bool)
    ensures var n := PolicyOf(named, stored, subscriptionsOnly);
            && (named.None? ==> n == Ok(Load(stored, subscriptionsOnly)))
            && (named.Some? ==> n == Normalize(named.value, subscriptionsOnly))
            && (n.Ok? ==> WellFormed(n.policy, subscriptionsOnly))
  {
    LoadIsApplicable(stored, subscriptionsOnly);
    NormalizeIsIdempotent(Load(stored, subscriptionsOnly), subscriptionsOnly);
    NormalizedIff(if named.Some? then named.value else AsRaw(Load(stored, subscriptionsOnly)), subscriptionsOnly);
  }

  // -- the role maps ---------------------------------------------------------------------------

  const BASE_MODEL := RouterAlias(MedAlias)

  /** What a role resolves to: its own entry, else the default's, else the built-in default. */
  function Effective<V>(m: map<Role, V>, builtIn: V, role: Role): V {
    if role in m then m[role] else if Default in m then m[Default] else builtIn
  }

  predicate ValidFor(runtime: Runtime, model: Model) {
    match runtime
    case OpenCode => model.RouterAlias? || model.RouterPinned?
    case ClaudeCode => model.ClaudeModel?
    case Codex => model.CodexModel?
  }

  /** Every role, listed or not, resolves to a model its provider can run. */
  ghost predicate Coherent(providers: map<Role, Runtime>, models: map<Role, Model>) {
    forall role: Role :: ValidFor(Effective(providers, OpenCode, role), Effective(models, BASE_MODEL, role))
  }

  /** No role resolves to the local runtime or to a router alias. */
  ghost predicate SubscriptionsAlone(providers: map<Role, Runtime>, models: map<Role, Model>) {
    forall role: Role ::
      && Effective(providers, OpenCode, role) != OpenCode
      && !Effective(models, BASE_MODEL, role).RouterAlias? && !Effective(models, BASE_MODEL, role).RouterPinned?
  }

  const SONNET := ClaudeModel("sonnet")
  const HAIKU := ClaudeModel("haiku")

  /** The Codex model depends on whether an API key is used. */
  function CodexDefault(usesApiKey: bool): Model {
    CodexModel(if usesApiKey then "gpt-5.3-codex" else "gpt-5.5")
  }

  function Overrides(runtime: Runtime, usesApiKey: bool): map<Role, Model> {
    match runtime
    case OpenCode =>
      map[Default := RouterAlias(MedAlias), Pm := RouterAlias(HighAlias), Architect := RouterAlias(HighAlias),
          TechLead := RouterAlias(HighAlias), Replan := RouterAlias(HighAlias),
          QaSynthesizer := RouterAlias(LowAlias), Git := RouterAlias(LowAlias)]
    case ClaudeCode => map[Default := SONNET, QaSynthesizer := HAIKU]
    case Codex => map[Default := CodexDefault(usesApiKey)]
  }

  // -- the two base policies ----------------------------------------------------------------------

  function Assign<V>(m: map<Role, V>, roles: seq<Role>, v: V): map<Role, V> {
    if roles == [] then m else Assign(m, roles[..|roles| - 1], v)[roles[|roles| - 1] := v]
  }

  lemma {:induction false} AssignAt<V>(m: map<Role, V>, roles: seq<Role>, v: V, role: Role)
    ensures var r := Assign(m, roles, v);
            && (role in r <==> role in m || role in roles)
            && (role in r ==> r[role] == if role in roles then v else m[role])
  {
    if roles != [] {
      assert roles == roles[..|roles| - 1] + [roles[|roles| - 1]];
      AssignAt(m, roles[..|roles| - 1], v, role);
    }
  }

  const HOSTED_ROLES: seq<Role> := [Pm, Architect, TechLead, SprintPlanner, IssueWriter, CodeReviewer, Verifier]

  function HybridProviders(planner: Runtime): map<Role, Runtime> {
    if planner == OpenCode then map[Default := OpenCode] else Assign(map[Default := OpenCode], HOSTED_ROLES, planner)
  }

  function HybridModels(planner: Runtime, usesApiKey: bool): map<Role, Model> {
    var base := Overrides(OpenCode, usesApiKey);
    if planner == OpenCode then base else Assign(base, HOSTED_ROLES, Overrides(planner, usesApiKey)[Default])
  }

  method HybridRolePolicy(planner: Runtime, usesApiKey: bool) returns (providers: map<Role, Runtime>,
                          models: map<Role, Model>)
    ensures providers == HybridProviders(planner) && models == HybridModels(planner, usesApiKey)
  {
    models := Overrides(OpenCode, usesApiKey);
    providers := map[Default := OpenCode];
    if planner == OpenCode {
      return;
    }
    var hosted := Overrides(planner, usesApiKey)[Default];
    for i := 0 to |HOSTED_ROLES|
      invariant providers == Assign(map[Default := OpenCode], HOSTED_ROLES[..i], planner)
      invariant models == Assign(Overrides(OpenCode, usesApiKey), HOSTED_ROLES[..i], hosted)
    {
      assert HOSTED_ROLES[..i + 1][..i] == HOSTED_ROLES[..i];
      providers := providers[HOSTED_ROLES[i] := planner];
      models := models[HOSTED_ROLES[i] := hosted];
    }
    assert HOSTED_ROLES[..|HOSTED_ROLES|] == HOSTED_ROLES;
  }

  /** The hybrid policy is coherent: no harness is ever handed another harness's model. */
  lemma HybridIsCoherent(planner: Runtime, usesApiKey: bool)
    ensures Coherent(HybridProviders(planner), HybridModels(planner, usesApiKey))
  {
    forall role: Role
      ensures ValidFor(Effective(HybridProviders(planner), OpenCode, role),
                       Effective(HybridModels(planner, usesApiKey), BASE_MODEL, role))
    {
      AssignAt(map[Default := OpenCode], HOSTED_ROLES, planner, role);
      AssignAt(map[Default := OpenCode], HOSTED_ROLES, planner, Default);
      AssignAt(Overrides(OpenCode, usesApiKey), HOSTED_ROLES, Overrides(planner, usesApiKey)[Default], role);
      AssignAt(Overrides(OpenCode, usesApiKey), HOSTED_ROLES, Overrides(planner, usesApiKey)[Default], Default);
    }
  }

  /** The router alias a role is served under when it runs locally. */
  function LocalLevel(role: Role): Level {
    if role in {Pm, Architect, TechLead, Replan} then HighAlias
    else if role in {QaSynthesizer, Git} then LowAlias
    else MedAlias
  }

  /** Who does what in the hybrid policy: a hosted planner takes over exactly planning, issue writing and review, with its
      own default model; every other role, and every role without one, runs locally under the alias of its kind. */
  lemma HybridRoles(planner: Runtime, usesApiKey: bool, role: Role)
    ensures var hosted := planner != OpenCode
                          && role in {Pm, Architect, TechLead, SprintPlanner, IssueWriter, CodeReviewer, Verifier};
            && Effective(HybridProviders(planner), OpenCode, role) == (if hosted then planner else OpenCode)
            && Effective(HybridModels(planner, usesApiKey), BASE_MODEL, role) ==
               if !hosted then RouterAlias(LocalLevel(role))
               else if planner == ClaudeCode then ClaudeModel("sonnet")
               else CodexModel(if usesApiKey then "gpt-5.3-codex" else "gpt-5.5")
  {
    hide LocalLevel, Overrides, Assign;
    HostedAre(role);
    HostedAre(Default);
    LocalAlias(usesApiKey, role);
    HostedModel(planner, usesApiKey);
    AssignAt(map[Default := OpenCode], HOSTED_ROLES, planner, role);
    AssignAt(map[Default := OpenCode], HOSTED_ROLES, planner, Default);
    AssignAt(Overrides(OpenCode, usesApiKey), HOSTED_ROLES, Overrides(planner, usesApiKey)[Default], role);
    AssignAt(Overrides(OpenCode, usesApiKey), HOSTED_ROLES, Overrides(planner, usesApiKey)[Default], Default);
  }

  lemma LocalAlias(usesApiKey: bool, role: Role)
    ensures Default in Overrides(OpenCode, usesApiKey)
    ensures Effective(Overrides(OpenCode, usesApiKey), BASE_MODEL, role) == RouterAlias(LocalLevel(role))
  {
  }

  lemma HostedModel(planner: Runtime, usesApiKey: bool)
    ensures Default in Overrides(planner, usesApiKey)
    ensures planner == ClaudeCode ==> Overrides(planner, usesApiKey)[Default] == ClaudeModel("sonnet")
    ensures planner == Codex ==>
              Overrides(planner, usesApiKey)[Default] == CodexModel(if usesApiKey then "gpt-5.3-codex" else "gpt-5.5")
  {
  }

  lemma HostedAre(role: Role)
    ensures role in HOSTED_ROLES <==>
            role in {Pm, Architect, TechLead, SprintPlanner, IssueWriter, CodeReviewer, Verifier}
  {
  }

  function LaneOwner(lane: Lane): Runtime {
    match lane
    case PlanningLane => ClaudeCode
    case ImplementationLane => ClaudeCode
    case ReviewLane => Codex
    case MaintenanceLane => Codex
  }

  /** The harness that runs a lane when only `available` can be used; nothing available counts as everything. */
  function LaneHarness(lane: Lane, available: set<Runtime>): Runtime {
    var usable := if available == {} then {ClaudeCode, Codex} else available;
    var fallback := if ClaudeCode in usable then ClaudeCode else Codex;
    if LaneOwner(lane) in usable then LaneOwner(lane) else fallback
  }

  function HarnessModel(runtime: Runtime, role: Role): Model {
    var overrides := Overrides(runtime, false);
    if role in overrides then overrides[role] else overrides[Default]
  }

  function SubscriptionProviders(available: set<Runtime>): map<Role, Runtime> {
    map role: Role | role in ListedRoles() :: LaneHarness(LaneOf(role).value, available)
  }

  function SubscriptionModels(available: set<Runtime>): map<Role, Model> {
    map role: Role | role in ListedRoles() :: HarnessModel(LaneHarness(LaneOf(role).value, available), role)
  }

  function ListedRoles(): (roles: set<Role>)
    ensures forall role :: role in roles <==> LaneOf(role).Some?
  {
    {Default, Pm, Architect, TechLead, SprintPlanner, Replan, IssueAdvisor, RetryAdvisor, IssueWriter,
     Coder, Qa, IntegrationTester, CiFixer, CodeReviewer, Verifier, QaSynthesizer, Git, Merger}
  }

  lemma HarnessModelFits(runtime: Runtime, role: Role)
    requires runtime != OpenCode
    ensures ValidFor(runtime, HarnessModel(runtime, role))
  {
  }

  lemma LaneHarnessIsHosted(lane: Lane, available: set<Runtime>)
    ensures LaneHarness(lane, available) != OpenCode
    ensures available <= {ClaudeCode, Codex} && available != {} ==> LaneHarness(lane, available) in available
  {
  }

  /** With subscriptions only, another vendor reviews than the one that plans and implements, iff both can be used. */
  lemma ReviewedByOtherVendorIff(available: set<Runtime>)
    ensures LaneHarness(ReviewLane, available) != LaneHarness(ImplementationLane, available) <==>
            available == {} || {ClaudeCode, Codex} <= available
    ensures LaneHarness(PlanningLane, available) == LaneHarness(ImplementationLane, available)
    ensures LaneHarness(MaintenanceLane, available) == LaneHarness(ReviewLane, available)
  {
  }

  /** With subscriptions only, every role gets a subscription harness and a model of that harness, whatever is available,
      and no role is left to the local runtime or a router alias. */
  lemma SubscriptionsAreCoherent(available: set<Runtime>)
    ensures Coherent(SubscriptionProviders(available), SubscriptionModels(available))
    ensures SubscriptionsAlone(SubscriptionProviders(available), SubscriptionModels(available))
    ensures available <= {ClaudeCode, Codex} && available != {} ==>
            forall role: Role :: Effective(SubscriptionProviders(available), OpenCode, role) in available
  {
    hide HarnessModel, LaneHarness;
    forall role: Role
      ensures var r := Effective(SubscriptionProviders(available), OpenCode, role);
              && ValidFor(r, Effective(SubscriptionModels(available), BASE_MODEL, role)) && r != OpenCode
              && (available <= {ClaudeCode, Codex} && available != {} ==> r in available)
    {
      var own := if LaneOf(role).Some? then role else Default;
      LaneHarnessIsHosted(LaneOf(own).value, available);
      HarnessModelFits(LaneHarness(LaneOf(own).value, available), own);
    }
  }

  /** The roles that plan and implement. */
  predicate Builds(role: Role) {
    role in {Pm, Architect, TechLead, SprintPlanner, Replan, IssueAdvisor, RetryAdvisor, IssueWriter,
             Default, Coder, Qa, IntegrationTester, CiFixer}
  }

  /** The roles that review and maintain. */
  predicate Checks(role: Role) {
    role in {CodeReviewer, Verifier, QaSynthesizer, Git, Merger}
  }

  /** Who does what with subscriptions only: Claude plans and implements, Codex reviews and maintains, and each steps in for
      the other where only one of them can be used; no other role is assigned. */
  lemma SubscriptionRoles(available: set<Runtime>, role: Role)
    ensures var providers, models := SubscriptionProviders(available), SubscriptionModels(available);
            && (role in providers <==> Builds(role) || Checks(role)) && (role in models <==> role in providers)
            && (Builds(role) ==>
                  providers[role] == if available == {} || ClaudeCode in available then ClaudeCode else Codex)
            && (Checks(role) ==>
                  providers[role] ==
                  if available == {} || Codex in available || ClaudeCode !in available then Codex else ClaudeCode)
            && (role in providers ==>
                  models[role] == if providers[role] == Codex then CodexModel("gpt-5.5")
                                  else ClaudeModel(if role == QaSynthesizer then "haiku" else "sonnet"))
  {
    hide LaneOf, LaneHarness, HarnessModel, Builds, Checks;
    LanesOfWork(role);
    if LaneOf(role).Some? {
      LaneWork(LaneOf(role).value, available);
      HarnessModels(LaneHarness(LaneOf(role).value, available), role);
    }
  }

  lemma LanesOfWork(role: Role)
    ensures Builds(role) <==> LaneOf(role) == Some(PlanningLane) || LaneOf(role) == Some(ImplementationLane)
    ensures Checks(role) <==> LaneOf(role) == Some(ReviewLane) || LaneOf(role) == Some(MaintenanceLane)
  {
  }

  lemma LaneWork(lane: Lane, available: set<Runtime>)
    ensures var claude, codex := available == {} || ClaudeCode in available, available == {} || Codex in available;
            LaneHarness(lane, available) ==
            if lane == PlanningLane || lane == ImplementationLane then (if claude then ClaudeCode else Codex)
            else if codex || !claude then Codex else ClaudeCode
  {
  }

  lemma HarnessModels(runtime: Runtime, role: Role)
    requires runtime != OpenCode
    ensures HarnessModel(runtime, role) ==
            if runtime == Codex then CodexModel("gpt-5.5")
            else ClaudeModel(if role == QaSynthesizer then "haiku" else "sonnet")
  {
  }

  method AssignLane(roles: seq<Role>, runtime: Runtime, providers0: map<Role, Runtime>, models0: map<Role, Model>)
    returns (providers: map<Role, Runtime>, models: map<Role, Model>)
    requires providers0.Keys == models0.Keys
    ensures forall role :: role in providers <==> role in providers0 || role in roles
    ensures providers.Keys == models.Keys
    ensures forall role :: role in providers ==>
              && providers[role] == (if role in roles then runtime else providers0[role])
              && models[role] == (if role in roles then HarnessModel(runtime, role) else models0[role])
  {
    hide HarnessModel;
    providers, models := providers0, models0;
    for j := 0 to |roles|
      invariant forall role :: role in providers <==> role in providers0 || role in roles[..j]
      invariant providers.Keys == models.Keys
      invariant forall role :: role in providers ==>
                  && providers[role] == (if role in roles[..j] then runtime else providers0[role])
                  && models[role] == (if role in roles[..j] then HarnessModel(runtime, role) else models0[role])
    {
      providers := providers[roles[j] := runtime];
      models := models[roles[j] := HarnessModel(runtime, roles[j])];
      assert roles[..j + 1] == roles[..j] + [roles[j]];
    }
    assert roles[..|roles|] == roles;
  }

  /** The subscription policy, lane by lane and role by role. */
  method SubscriptionRolePolicy(available: set<Runtime>)
    returns (providers: map<Role, Runtime>, models: map<Role, Model>, base: Runtime)
    ensures providers == SubscriptionProviders(available) && models == SubscriptionModels(available)
    ensures base == LaneHarness(ImplementationLane, available)
  {
    hide RolesOf, LaneOf, HarnessModel, LaneHarness;
    providers, models := map[], map[];
    for i := 0 to |LANES|
      invariant providers.Keys == models.Keys
      invariant forall role :: role in providers <==> LaneOf(role).Some? && LaneOf(role).value in LANES[..i]
      invariant forall role :: role in providers ==>
                  providers[role] == LaneHarness(LaneOf(role).value, available)
                  && models[role] == HarnessModel(providers[role], role)
    {
      var lane := LANES[i];
      providers, models := AssignLane(RolesOf(lane), LaneHarness(lane, available), providers, models);
      assert LANES[..i + 1] == LANES[..i] + [lane];
      forall role ensures role in RolesOf(lane) <==> LaneOf(role) == Some(lane) {
        LanesPartitionRoles(role, lane);
      }
    }
    assert LANES[..|LANES|] == LANES;
    EveryLane();
    DefaultLane();
    base := providers[Default];
  }

  // -- overlaying the operator's policy ------------------------------------------------------------

  predicate AllAuto(p: Policy) {
    forall lane :: lane in p ==> p[lane].target == Auto
  }

  /** What an explicit lane is given. */
  function RuntimeFor(a: Assignment): Runtime {
    match a.target
    case Claude => ClaudeCode
    case CodexCli => Codex
    case _ => OpenCode
  }

  function ModelFor(a: Assignment, claudeModel: Model, codexModel: Model): Model {
    match a.target
    case Claude => claudeModel
    case CodexCli => codexModel
    case _ => RouterPinned(a.target, a.model)
  }

  /** Give every listed role but `default` its own entry. */
  function SetDefaults<V>(m: map<Role, V>, roles: seq<Role>, d: V): map<Role, V> {
    if roles == [] then m
    else
      var before, role := SetDefaults(m, roles[..|roles| - 1], d), roles[|roles| - 1];
      if role == Default || role in before then before else before[role := d]
  }

  function LaneDefaults<V>(m: map<Role, V>, lanes: seq<Lane>, d: V): map<Role, V> {
    if lanes == [] then m else SetDefaults(LaneDefaults(m, lanes[..|lanes| - 1], d), RolesOf(lanes[|lanes| - 1]), d)
  }

  /** Overwrite the roles of the explicit lanes with what `value` gives their assignments. */
  function Overlaid<V>(m: map<Role, V>, p: Policy, lanes: seq<Lane>, value: Assignment -> V): map<Role, V>
    requires forall lane: Lane :: lane in p
  {
    if lanes == [] then m
    else
      var before, lane := Overlaid(m, p, lanes[..|lanes| - 1], value), lanes[|lanes| - 1];
      if p[lane].target == Auto then before else Assign(before, RolesOf(lane), value(p[lane]))
  }

  function Apply<V>(p: Policy, m: map<Role, V>, builtIn: V, value: Assignment -> V): map<Role, V>
    requires forall lane: Lane :: lane in p
  {
    if AllAuto(p) then m
    else Overlaid(LaneDefaults(m, LANES, if Default in m then m[Default] else builtIn), p, LANES, value)
  }

  lemma {:induction false} SetDefaultsAt<V>(m: map<Role, V>, roles: seq<Role>, d: V, role: Role)
    ensures var r := SetDefaults(m, roles, d);
            && (role in r <==> role in m || (role in roles && role != Default))
            && (role in r ==> r[role] == if role in m then m[role] else d)
  {
    if roles != [] {
      assert roles == roles[..|roles| - 1] + [roles[|roles| - 1]];
      SetDefaultsAt(m, roles[..|roles| - 1], d, role);
    }
  }

  predicate InLanes(role: Role, lanes: seq<Lane>) {
    LaneOf(role).Some? && LaneOf(role).value in lanes
  }

  lemma {:induction false} LaneDefaultsAt<V>(m: map<Role, V>, lanes: seq<Lane>, d: V, role: Role)
    ensures var r := LaneDefaults(m, lanes, d);
            && (role in r <==> role in m || (InLanes(role, lanes) && role != Default))
            && (role in r ==> r[role] == if role in m then m[role] else d)
  {
    if lanes != [] {
      var init, lane := lanes[..|lanes| - 1], lanes[|lanes| - 1];
      assert lanes == init + [lane];
      LaneDefaultsAt(m, init, d, role);
      SetDefaultsAt(LaneDefaults(m, init, d), RolesOf(lane), d, role);
      LanesPartitionRoles(role, lane);
    }
  }

  lemma {:induction false} OverlaidAt<V>(m: map<Role, V>, p: Policy, lanes: seq<Lane>, value: Assignment -> V,
                                         role: Role)
    requires forall lane: Lane :: lane in p
    ensures var r := Overlaid(m, p, lanes, value);
            if InLanes(role, lanes) && p[LaneOf(role).value].target != Auto
            then role in r && r[role] == value(p[LaneOf(role).value])
            else (role in r <==> role in m) && (role in r ==> r[role] == m[role])
  {
    if lanes != [] {
      var init, lane := lanes[..|lanes| - 1], lanes[|lanes| - 1];
      assert lanes == init + [lane];
      OverlaidAt(m, p, init, value, role);
      AssignAt(Overlaid(m, p, init, value), RolesOf(lane), value(p[lane]), role);
      LanesPartitionRoles(role, lane);
    }
  }

  predicate Explicit(p: Policy, role: Role)
    requires forall lane: Lane :: lane in p
  {
    LaneOf(role).Some? && p[LaneOf(role).value].target != Auto
  }

  /** The overlay preserves meaning: a role of an explicit lane resolves to exactly its target; a role of an automatic
      lane resolves to what it resolved to before, even when the implementation lane moves `default`. A role of no lane
      follows `default` unless it has its own entry. */
  lemma OverlayPreservesMeaning<V>(p: Policy, m: map<Role, V>, builtIn: V, value: Assignment -> V, role: Role)
    requires forall lane: Lane :: lane in p
    ensures var after := Effective(Apply(p, m, builtIn, value), builtIn, role);
            if Explicit(p, role) then after == value(p[LaneOf(role).value])
            else if LaneOf(role).Some? || role in m then after == Effective(m, builtIn, role)
            else after == Effective(Apply(p, m, builtIn, value), builtIn, Default)
  {
    if AllAuto(p) {
      assert LaneOf(role).Some? ==> p[LaneOf(role).value].target == Auto;
    } else {
      var d := if Default in m then m[Default] else builtIn;
      ApplyAt(p, m, d, value, role);
      ApplyAt(p, m, d, value, Default);
    }
  }

  lemma ApplyAt<V>(p: Policy, m: map<Role, V>, d: V, value: Assignment -> V, role: Role)
    requires forall lane: Lane :: lane in p
    ensures var r := Overlaid(LaneDefaults(m, LANES, d), p, LANES, value);
            if Explicit(p, role) then role in r && r[role] == value(p[LaneOf(role).value])
            else (role in r <==> role in m || (LaneOf(role).Some? && role != Default))
                 && (role in r ==> r[role] == if role in m then m[role] else d)
  {
    LaneDefaultsAt(m, LANES, d, role);
    OverlaidAt(LaneDefaults(m, LANES, d), p, LANES, value, role);
    EveryLane();
  }

  function ModelChoice(claudeModel: Model, codexModel: Model): Assignment -> Model {
    (a: Assignment) => ModelFor(a, claudeModel, codexModel)
  }

  /** What an explicit lane means: each of its roles runs on the harness the operator chose with that harness's model, or
      locally on exactly the backend and model the operator named. */
  lemma ExplicitRoles(p: Policy, providers: map<Role, Runtime>, models: map<Role, Model>, claudeModel: Model,
                      codexModel: Model, role: Role)
    requires (forall lane: Lane :: lane in p) && Explicit(p, role)
    ensures var a := p[LaneOf(role).value];
            var runtime := Effective(Apply(p, providers, OpenCode, RuntimeFor), OpenCode, role);
            var model := Effective(Apply(p, models, BASE_MODEL, ModelChoice(claudeModel, codexModel)), BASE_MODEL, role);
            match a.target
            case Claude => runtime == ClaudeCode && model == claudeModel
            case CodexCli => runtime == Codex && model == codexModel
            case _ => runtime == OpenCode && model == RouterPinned(a.target, a.model)
  {
    hide Apply, Effective;
    OverlayPreservesMeaning(p, providers, OpenCode, RuntimeFor, role);
    OverlayPreservesMeaning(p, models, BASE_MODEL, ModelChoice(claudeModel, codexModel), role);
  }

  /** Overlaying an applicable policy on coherent maps keeps every role's model valid for its provider. */
  lemma OverlayStaysCoherent(p: Policy, providers: map<Role, Runtime>, models: map<Role, Model>,
                             claudeModel: Model, codexModel: Model)
    requires WellFormed(p, false) && Coherent(providers, models) && claudeModel.ClaudeModel? && codexModel.CodexModel?
    requires forall role: Role :: LaneOf(role).None? ==> (role in providers <==> role in models)
    ensures Coherent(Apply(p, providers, OpenCode, RuntimeFor),
                     Apply(p, models, BASE_MODEL, ModelChoice(claudeModel, codexModel)))
  {
    var providers2 := Apply(p, providers, OpenCode, RuntimeFor);
    var models2 := Apply(p, models, BASE_MODEL, ModelChoice(claudeModel, codexModel));
    forall role: Role
      ensures ValidFor(Effective(providers2, OpenCode, role), Effective(models2, BASE_MODEL, role))
    {
      OverlayPreservesMeaning(p, providers, OpenCode, RuntimeFor, role);
      OverlayPreservesMeaning(p, models, BASE_MODEL, ModelChoice(claudeModel, codexModel), role);
      OverlayPreservesMeaning(p, providers, OpenCode, RuntimeFor, Default);
      OverlayPreservesMeaning(p, models, BASE_MODEL, ModelChoice(claudeModel, codexModel), Default);
    }
  }

  /** With subscriptions only, no applicable policy can bring the local runtime or a router alias back. */
  lemma OverlayStaysOnSubscriptions(p: Policy, available: set<Runtime>, claudeModel: Model, codexModel: Model)
    requires WellFormed(p, true) && claudeModel.ClaudeModel? && codexModel.CodexModel?
    ensures SubscriptionsAlone(
              Apply(p, SubscriptionProviders(available), OpenCode, RuntimeFor),
              Apply(p, SubscriptionModels(available), BASE_MODEL, ModelChoice(claudeModel, codexModel)))
  {
    var providers, models := SubscriptionProviders(available), SubscriptionModels(available);
    SubscriptionsAreCoherent(available);
    forall role: Role
      ensures Effective(Apply(p, providers, OpenCode, RuntimeFor), OpenCode, role) != OpenCode
      ensures var m := Effective(Apply(p, models, BASE_MODEL, ModelChoice(claudeModel, codexModel)), BASE_MODEL, role);
              !m.RouterAlias? && !m.RouterPinned?
    {
      OverlayPreservesMeaning(p, providers, OpenCode, RuntimeFor, role);
      OverlayPreservesMeaning(p, models, BASE_MODEL, ModelChoice(claudeModel, codexModel), role);
      OverlayPreservesMeaning(p, providers, OpenCode, RuntimeFor, Default);
      OverlayPreservesMeaning(p, models, BASE_MODEL, ModelChoice(claudeModel, codexModel), Default);
    }
  }

  /** The first pass gives every listed role its own entry. */
  method MaterializeLanes(providers: map<Role, Runtime>, models: map<Role, Model>, defaultProvider: Runtime,
                          defaultModel: Model)
    returns (nextProviders: map<Role, Runtime>, nextModels: map<Role, Model>)
    ensures nextProviders == LaneDefaults(providers, LANES, defaultProvider)
    ensures nextModels == LaneDefaults(models, LANES, defaultModel)
  {
    hide RolesOf;
    nextProviders, nextModels := providers, models;
    for i := 0 to |LANES|
      invariant nextProviders == LaneDefaults(providers, LANES[..i], defaultProvider)
      invariant nextModels == LaneDefaults(models, LANES[..i], defaultModel)
    {
      assert LANES[..i + 1][..i] == LANES[..i];
      nextProviders := Materialize(nextProviders, RolesOf(LANES[i]), defaultProvider);
      nextModels := Materialize(nextModels, RolesOf(LANES[i]), defaultModel);
    }
    assert LANES[..|LANES|] == LANES;
  }

  /** The second pass overwrites the roles of the explicit lanes. */
  method OverlayLanes(p: Policy, providers: map<Role, Runtime>, models: map<Role, Model>, claudeModel: Model,
                      codexModel: Model)
    returns (nextProviders: map<Role, Runtime>, nextModels: map<Role, Model>)
    requires forall lane: Lane :: lane in p
    ensures nextProviders == Overlaid(providers, p, LANES, RuntimeFor)
    ensures nextModels == Overlaid(models, p, LANES, ModelChoice(claudeModel, codexModel))
  {
    hide RolesOf;
    nextProviders, nextModels := providers, models;
    for i := 0 to |LANES|
      invariant nextProviders == Overlaid(providers, p, LANES[..i], RuntimeFor)
      invariant nextModels == Overlaid(models, p, LANES[..i], ModelChoice(claudeModel, codexModel))
    {
      assert LANES[..i + 1][..i] == LANES[..i];
      var a := p[LANES[i]];
      if a.target != Auto {
        nextProviders := AssignRoles(nextProviders, RolesOf(LANES[i]), RuntimeFor(a));
        nextModels := AssignRoles(nextModels, RolesOf(LANES[i]), ModelFor(a, claudeModel, codexModel));
      }
    }
    assert LANES[..|LANES|] == LANES;
  }

  /** The overlay, as two passes over the lanes. */
  method ApplyPolicy(p: Policy, providers: map<Role, Runtime>, models: map<Role, Model>, claudeModel: Model,
                     codexModel: Model)
    returns (nextProviders: map<Role, Runtime>, nextModels: map<Role, Model>)
    requires forall lane: Lane :: lane in p
    ensures nextProviders == Apply(p, providers, OpenCode, RuntimeFor)
    ensures nextModels == Apply(p, models, BASE_MODEL, ModelChoice(claudeModel, codexModel))
  {
    nextProviders, nextModels := providers, models;
    if AllAuto(p) {
      return;
    }
    nextProviders, nextModels := MaterializeLanes(
      providers, models,
      if Default in providers then providers[Default] else OpenCode,
      if Default in models then models[Default] else BASE_MODEL);
    nextProviders, nextModels := OverlayLanes(p, nextProviders, nextModels, claudeModel, codexModel);
  }

  method Materialize<V>(m: map<Role, V>, roles: seq<Role>, d: V) returns (r: map<Role, V>)
    ensures r == SetDefaults(m, roles, d)
  {
    r := m;
    for i := 0 to |roles|
      invariant r == SetDefaults(m, roles[..i], d)
    {
      assert roles[..i + 1][..i] == roles[..i];
      if roles[i] != Default && roles[i] !in r {
        r := r[roles[i] := d];
      }
    }
    assert roles[..|roles|] == roles;
  }

  method AssignRoles<V>(m: map<Role, V>, roles: seq<Role>, v: V) returns (r: map<Role, V>)
    ensures r == Assign(m, roles, v)
  {
    r := m;
    for i := 0 to |roles|
      invariant r == Assign(m, roles[..i], v)
    {
      assert roles[..i + 1][..i] == roles[..i];
      r := r[roles[i] := v];
    }
    assert roles[..|roles|] == roles;
  }
}
