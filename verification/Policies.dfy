/** The compiled organization policy: caps and budgets per role, and one global cap that
    must be exactly what the roles add up to. */
module Policies {
  import opened Outcomes
  import opened Tables
  import opened Sums

  datatype RolePolicy = RolePolicy(types: set<string>, maxPerWake: int, maxConcurrent: int, budget: int)
  datatype Policy = Policy(org: Name, roles: map<Name, RolePolicy>, orgBudget: int, globalCap: int)

  /** One entry of the `agents` list. */
  datatype Agent = Agent(id: Name, types: set<string>, maxPerWake: int, maxConcurrent: int, budget: int)

  const REQUIRED: set<Name> := {"project-orchestrator", "commercial-planner", "software-implementer", "governance-reviewer"}
  const EXECUTING: set<Name> := REQUIRED + {"policy-reviewer"}

  function CanonicalTypes(role: Name): set<string> {
    if role == "software-implementer" then {"researcher", "drafter", "implementer"}
    else if role == "commercial-planner" || role == "policy-reviewer" then {"researcher", "drafter"}
    else {}
  }

  predicate SoundRole(role: Name, p: RolePolicy, orgBudget: int) {
    && p.types == CanonicalTypes(role)
    && 0 <= p.maxConcurrent <= p.maxPerWake
    && (p.types != {} <==> p.maxPerWake != 0) && (p.types != {} <==> p.maxConcurrent != 0)
    && 0 < p.budget <= orgBudget
  }

  predicate KnownRole(role: Name, p: RolePolicy, orgBudget: int) {
    role in EXECUTING && SoundRole(role, p, orgBudget)
  }

  /** The seats of one role: its parent and its concurrent workers. */
  function Seats(p: RolePolicy): int {
    1 + p.maxConcurrent
  }

  ghost function AllSeats(roles: map<Name, RolePolicy>): int {
    Sum(map r | r in roles :: Seats(roles[r]))
  }

  ghost predicate Sound(policy: Policy) {
    && REQUIRED <= policy.roles.Keys
    && (forall r :: r in policy.roles ==> KnownRole(r, policy.roles[r], policy.orgBudget))
    && 0 < policy.globalCap == AllSeats(policy.roles)
  }

  function RuleFor(agent: Agent): RolePolicy {
    RolePolicy(agent.types, agent.maxPerWake, agent.maxConcurrent, agent.budget)
  }

  predicate Acceptable(agent: Agent, orgBudget: int) {
    KnownRole(agent.id, RuleFor(agent), orgBudget)
  }

  function Ids(agents: seq<Agent>): set<Name> {
    set a | a in agents :: a.id
  }

  /** Every agent is acceptable and no identifier repeats. */
  ghost predicate Legal(agents: seq<Agent>, orgBudget: int) {
    && (forall i :: 0 <= i < |agents| ==> Acceptable(agents[i], orgBudget))
    && (forall i, j :: 0 <= i < j < |agents| ==> agents[i].id != agents[j].id)
  }

  /** The seats an agents list asks for. */
  function SeatsOf(agents: seq<Agent>): int {
    if agents == [] then 0 else SeatsOf(agents[..|agents| - 1]) + 1 + agents[|agents| - 1].maxConcurrent
  }

  lemma LegalStep(agents: seq<Agent>, agent: Agent, orgBudget: int)
    ensures Legal(agents + [agent], orgBudget) <==> Legal(agents, orgBudget) && Acceptable(agent, orgBudget) && agent.id !in Ids(agents)
    ensures Ids(agents + [agent]) == Ids(agents) + {agent.id}
    ensures SeatsOf(agents + [agent]) == SeatsOf(agents) + 1 + agent.maxConcurrent
  {
    var longer := agents + [agent];
    assert longer[..|agents|] == agents && longer[|agents|] == agent;
    if Legal(longer, orgBudget) {
      forall i | 0 <= i < |agents| ensures Acceptable(agents[i], orgBudget) && agents[i].id != agent.id {
        assert longer[i] == agents[i];
      }
      forall i, j | 0 <= i < j < |agents| ensures agents[i].id != agents[j].id {
        assert longer[i] == agents[i] && longer[j] == agents[j];
      }
    }
  }

  lemma SeatsPut(roles: map<Name, RolePolicy>, name: Name, role: RolePolicy)
    requires name !in roles
    ensures AllSeats(roles[name := role]) == AllSeats(roles) + Seats(role)
  {
    var seats := map r | r in roles :: Seats(roles[r]);
    var widened := roles[name := role];
    SumPut(seats, name, Seats(role));
    assert seats[name := Seats(role)] == map r | r in widened :: Seats(widened[r]);
  }

  /** Each role has exactly what its agent declares. */
  ghost predicate Mirrors(roles: map<Name, RolePolicy>, agents: seq<Agent>) {
    forall i :: 0 <= i < |agents| ==>
      && agents[i].id in roles
      && roles[agents[i].id].types == agents[i].types && roles[agents[i].id].budget == agents[i].budget
      && roles[agents[i].id].maxPerWake == agents[i].maxPerWake && roles[agents[i].id].maxConcurrent == agents[i].maxConcurrent
  }

  /** What the agents list compiles to. */
  function RolesOf(agents: seq<Agent>): map<Name, RolePolicy> {
    if agents == [] then map[]
    else RolesOf(agents[..|agents| - 1])[agents[|agents| - 1].id := RuleFor(agents[|agents| - 1])]
  }

  lemma {:induction false} RolesMirror(agents: seq<Agent>)
    requires forall i, j :: 0 <= i < j < |agents| ==> agents[i].id != agents[j].id
    ensures Mirrors(RolesOf(agents), agents)
  {
    if agents != [] {
      var init := agents[..|agents| - 1];
      RolesMirror(init);
      forall i | 0 <= i < |init| ensures agents[i].id in RolesOf(agents) && RolesOf(agents)[agents[i].id] == RolesOf(init)[init[i].id] {
        assert agents[i] == init[i];
      }
    }
  }

  /** What an agent may declare, role by role: only three roles employ workers, each its own types,
      and those at least one at a time. */
  lemma AcceptableIff(agent: Agent, orgBudget: int)
    ensures Acceptable(agent, orgBudget) <==>
      && 0 < agent.budget <= orgBudget
      && (|| (&& agent.id in {"project-orchestrator", "governance-reviewer"}
              && agent.types == {} && agent.maxPerWake == 0 && agent.maxConcurrent == 0)
          || (&& agent.id in {"commercial-planner", "policy-reviewer"}
              && agent.types == {"researcher", "drafter"} && 1 <= agent.maxConcurrent <= agent.maxPerWake)
          || (&& agent.id == "software-implementer"
              && agent.types == {"researcher", "drafter", "implementer"} && 1 <= agent.maxConcurrent <= agent.maxPerWake))
  {
    assert "researcher" in {"researcher", "drafter"} && "researcher" in {"researcher", "drafter", "implementer"};
    var name := agent.id;
    assert name == "project-orchestrator" ==> name[0] == 'p' && name[1] == 'r';
    assert name == "policy-reviewer" ==> name[0] == 'p' && name[1] == 'o';
    assert name == "commercial-planner" ==> name[0] == 'c';
    assert name == "software-implementer" ==> name[0] == 's';
    assert name == "governance-reviewer" ==> name[0] == 'g';
  }

  /** `roles` is what the agents list compiles to, so far. */
  ghost predicate Compiled(roles: map<Name, RolePolicy>, total: int, agents: seq<Agent>) {
    && roles.Keys == Ids(agents) && roles == RolesOf(agents)
    && AllSeats(roles) == |roles| + total == SeatsOf(agents)
  }

  lemma CompileStep(roles: map<Name, RolePolicy>, total: int, agents: seq<Agent>, agent: Agent)
    requires Compiled(roles, total, agents) && agent.id !in roles
    requires Ids(agents + [agent]) == Ids(agents) + {agent.id}
    requires SeatsOf(agents + [agent]) == SeatsOf(agents) + 1 + agent.maxConcurrent
    ensures Compiled(roles[agent.id := RuleFor(agent)], total + agent.maxConcurrent, agents + [agent])
  {
    SeatsPut(roles, agent.id, RuleFor(agent));
    assert (agents + [agent])[..|agents|] == agents;
    assert roles[agent.id := RuleFor(agent)].Keys == roles.Keys + {agent.id};
  }

  lemma PrefixRefused(agents: seq<Agent>, i: nat, orgBudget: int)
    requires i <= |agents| && !Legal(agents[..i], orgBudget)
    ensures !Legal(agents, orgBudget)
  {
  }

  /** The first `i` agents are legal and compiled. */
  ghost predicate SoFar(roles: map<Name, RolePolicy>, total: int, agents: seq<Agent>, i: nat, orgBudget: int)
    requires i <= |agents|
  {
    Compiled(roles, total, agents[..i]) && Legal(agents[..i], orgBudget)
  }

  lemma AgentRefused(agents: seq<Agent>, i: nat, orgBudget: int)
    requires i < |agents| && (agents[i].id in Ids(agents[..i]) || !Acceptable(agents[i], orgBudget))
    ensures !Legal(agents, orgBudget)
  {
    assert agents[..i + 1] == agents[..i] + [agents[i]];
    LegalStep(agents[..i], agents[i], orgBudget);
    PrefixRefused(agents, i + 1, orgBudget);
  }

  lemma AgentAccepted(roles: map<Name, RolePolicy>, total: int, agents: seq<Agent>, i: nat, orgBudget: int)
    requires i < |agents| && SoFar(roles, total, agents, i, orgBudget)
    requires agents[i].id !in roles && Acceptable(agents[i], orgBudget)
    ensures SoFar(roles[agents[i].id := RuleFor(agents[i])], total + agents[i].maxConcurrent, agents, i + 1, orgBudget)
  {
    assert agents[..i + 1] == agents[..i] + [agents[i]];
    LegalStep(agents[..i], agents[i], orgBudget);
    CompileStep(roles, total, agents[..i], agents[i]);
  }

  /** The agents of the list, one by one. */
  method CompileAgents(orgBudget: int, agents: seq<Agent>) returns (r: Option<map<Name, RolePolicy>>, expected: int)
    ensures r.Some? <==> Legal(agents, orgBudget)
    ensures r.Some? ==> Compiled(r.value, expected - |r.value|, agents)
  {
    var roles: map<Name, RolePolicy> := map[];
    var total := 0;
    for i := 0 to |agents|
      invariant SoFar(roles, total, agents, i, orgBudget)
    {
      var agent := agents[i];
      if agent.id in roles || !Acceptable(agent, orgBudget) {
        AgentRefused(agents, i, orgBudget);
        return None, 0;
      }
      AgentAccepted(roles, total, agents, i, orgBudget);
      roles := roles[agent.id := RuleFor(agent)];
      total := total + agent.maxConcurrent;
    }
    assert agents[..|agents|] == agents;
    return Some(roles), |roles| + total;
  }

  lemma {:induction false} RolesKnown(agents: seq<Agent>, orgBudget: int, n: Name)
    requires Legal(agents, orgBudget) && n in RolesOf(agents)
    ensures KnownRole(n, RolesOf(agents)[n], orgBudget)
  {
    var init, last := agents[..|agents| - 1], agents[|agents| - 1];
    if n == last.id {
      assert Acceptable(last, orgBudget);
    } else {
      forall i | 0 <= i < |init| ensures Acceptable(init[i], orgBudget) {
        assert init[i] == agents[i];
      }
      RolesKnown(init, orgBudget, n);
    }
  }

  lemma CompiledIsSound(policy: Policy, total: int, agents: seq<Agent>)
    requires Legal(agents, policy.orgBudget) && Compiled(policy.roles, total, agents)
    requires 0 < policy.globalCap == |policy.roles| + total && REQUIRED <= policy.roles.Keys
    ensures Sound(policy) && Mirrors(policy.roles, agents)
  {
    RolesMirror(agents);
    forall n | n in policy.roles ensures KnownRole(n, policy.roles[n], policy.orgBudget) {
      RolesKnown(agents, policy.orgBudget, n);
    }
  }

  /** Compiles the agents list, or refuses it. A policy comes out exactly when every agent is
      acceptable, none repeats, the required roles are there, and the declared cap is what
      the parents and their concurrent workers add up to; and then it is sound, and each role
      has what its agent declares. */
  method Compile(org: Name, orgBudget: int, globalCap: int, agents: seq<Agent>) returns (r: Option<Policy>)
    ensures r.Some? ==> Sound(r.value) && r.value.org == org && r.value.globalCap == globalCap && r.value.orgBudget == orgBudget
    ensures r.Some? ==> r.value.roles.Keys == Ids(agents) && Mirrors(r.value.roles, agents)
    ensures r.Some? <==>
      && orgBudget > 0 && globalCap > 0 && Legal(agents, orgBudget)
      && REQUIRED <= Ids(agents) && globalCap == SeatsOf(agents)
  {
    if orgBudget <= 0 || globalCap <= 0 {
      return None;
    }
    var roles, expected := CompileAgents(orgBudget, agents);
    if roles.None? || !(REQUIRED <= roles.value.Keys) || globalCap != expected {
      return None;
    }
    var policy := Policy(org, roles.value, orgBudget, globalCap);
    CompiledIsSound(policy, expected - |roles.value|, agents);
    return Some(policy);
  }
}
