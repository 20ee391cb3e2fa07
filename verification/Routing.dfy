/** Who an event wakes: the roster and the rule table that `orggen` generates, and the
    first-match interpreter of `routing.py` that reads it. */
module Routing {
  import opened Outcomes
  import opened Tables

  /** A role id: one of the five archetypes, or any other text. */
  datatype Role =
    | ProjectOrchestrator
    | CommercialPlanner
    | SoftwareImplementer
    | PolicyReviewer
    | GovernanceReviewer
    | Unlisted(text: Text)

  const DEFAULT_ROLES: seq<Role> := [ProjectOrchestrator, CommercialPlanner, SoftwareImplementer, GovernanceReviewer]

  datatype Kind = Issue | Pr | Comment | Run
  datatype Repo = Org | Product
  /** A label `role:<id>`, or one without that prefix. */
  datatype Label = RoleLabel(role: Role) | Plain(text: Text)
  datatype Workflow = Deploy | CodeReview | DemoEvidence | OtherWorkflow(text: Text)
  datatype Conclusion = Success | Failure | OtherConclusion(text: Text)
  datatype PrState = Open | Merged | Closed

  datatype Event = Event(
    kind: Kind, repo: Repo, labels: set<Label>, workflow: Option<Workflow>, conclusion: Option<Conclusion>, prState: Option<PrState>)

  /** One `field: value` pair of a rule's `match`. */
  datatype Test =
    | IsKind(kind: Kind)
    | IsRepo(repo: Repo)
    | HasLabel(name: Label)
    | IsWorkflow(workflow: Workflow)
    | IsConclusion(conclusion: Conclusion)
    | IsPrState(state: PrState)

  datatype Target = FromLabel | To(role: Role)
  datatype Rule = Rule(tests: seq<Test>, wake: Target)

  // ---------- the roster ----------

  /** What `--roles` must name: no duplicate, no unknown id, and every default role. */
  ghost predicate Legal(names: seq<Role>) {
    && (forall i, j :: 0 <= i < j < |names| ==> names[i] != names[j])
    && (forall n :: n in names ==> !n.Unlisted?)
    && (forall n :: n in DEFAULT_ROLES ==> n in names)
  }

  function Without(names: seq<Role>, role: Role): seq<Role> {
    if names == [] then []
    else (if names[0] == role then [] else [names[0]]) + Without(names[1..], role)
  }

  lemma {:induction false} WithoutKeeps(names: seq<Role>, role: Role)
    ensures forall n :: n in Without(names, role) <==> n in names && n != role
    ensures |Without(names, role)| <= |names|
  {
    if names != [] {
      WithoutKeeps(names[1..], role);
      assert forall n :: n in names <==> n == names[0] || n in names[1..];
    }
  }

  lemma {:induction false} WithoutStaysDistinct(names: seq<Role>, role: Role)
    requires forall i, j :: 0 <= i < j < |names| ==> names[i] != names[j]
    ensures var kept := Without(names, role); forall i, j :: 0 <= i < j < |kept| ==> kept[i] != kept[j]
  {
    if names != [] {
      WithoutStaysDistinct(names[1..], role);
      WithoutKeeps(names[1..], role);
      var kept := Without(names, role);
      if names[0] != role {
        assert kept[1..] == Without(names[1..], role);
        forall i, j | 0 <= i < j < |kept| ensures kept[i] != kept[j] {
          if i == 0 {
            assert kept[j] in kept[1..];
          } else {
            assert kept[i] == kept[1..][i - 1] && kept[j] == kept[1..][j - 1];
          }
        }
      } else {
        assert kept == Without(names[1..], role);
      }
    }
  }

  lemma ReviewerGoesLast(names: seq<Role>)
    requires Legal(names)
    ensures var roster := Without(names, GovernanceReviewer) + [GovernanceReviewer];
      Legal(roster) && forall n :: n in roster <==> n in names
  {
    WithoutKeeps(names, GovernanceReviewer);
    WithoutStaysDistinct(names, GovernanceReviewer);
    assert GovernanceReviewer == DEFAULT_ROLES[3];
    var roster, kept := Without(names, GovernanceReviewer) + [GovernanceReviewer], Without(names, GovernanceReviewer);
    forall n ensures n in roster <==> n in names {
      assert n in roster <==> n in kept || n == GovernanceReviewer;
    }
    forall i, j | 0 <= i < j < |roster| ensures roster[i] != roster[j] {
      assert roster[i] == kept[i] && roster[i] in kept;
    }
  }

  /** `roles`: the roster with the governance reviewer last, or an exit. */
  method Roster(spec: Option<seq<Role>>) returns (roster: Option<seq<Role>>)
    ensures var names := if spec.Some? then spec.value else DEFAULT_ROLES;
      && (roster.Some? <==> Legal(names))
      && (roster.Some? ==>
            && roster.value == Without(names, GovernanceReviewer) + [GovernanceReviewer]
            && Legal(roster.value) && forall n :: n in roster.value <==> n in names)
  {
    var names := if spec.Some? then spec.value else DEFAULT_ROLES;
    var seen: set<Role> := {};
    for i := 0 to |names|
      invariant forall n :: n in seen <==> n in names[..i]
      invariant forall j, k :: 0 <= j < k < i ==> names[j] != names[k]
    {
      if names[i] in seen {
        return None;
      }
      assert names[..i + 1] == names[..i] + [names[i]];
      seen := seen + {names[i]};
    }
    assert names[..|names|] == names;
    if exists n :: n in seen && n.Unlisted? {
      return None;
    }
    if exists n :: n in DEFAULT_ROLES && n !in seen {
      return None;
    }
    assert Legal(names);
    ReviewerGoesLast(names);
    return Some(Without(names, GovernanceReviewer) + [GovernanceReviewer]);
  }

  // ---------- the generated rules ----------

  /** The first role whose function is software delivery. */
  function Supply(names: seq<Role>): Role {
    if names == [] then ProjectOrchestrator
    else if names[0] == SoftwareImplementer then SoftwareImplementer
    else Supply(names[1..])
  }

  function LabelRules(kind: Kind, names: seq<Role>): seq<Rule> {
    if names == [] then []
    else [Rule([IsKind(kind), HasLabel(RoleLabel(names[0]))], FromLabel)] + LabelRules(kind, names[1..])
  }

  function PrDefaults(supply: Role): seq<Rule> {
    [Rule([IsKind(Pr), IsRepo(Org)], To(ProjectOrchestrator)),
     Rule([IsKind(Pr), IsRepo(Product)], To(supply))]
  }

  function RunRules(supply: Role): seq<Rule> {
    [Rule([IsKind(Run), IsRepo(Product), IsWorkflow(Deploy)], To(supply)),
     Rule([IsKind(Run), IsRepo(Product), IsWorkflow(CodeReview)], To(supply)),
     Rule([IsKind(Run), IsRepo(Product), IsWorkflow(DemoEvidence), IsConclusion(Failure)], To(supply))]
  }

  const CATCH_ALL: seq<Rule> :=
    [Rule([IsKind(Issue)], To(GovernanceReviewer)), Rule([IsKind(Comment)], FromLabel)]

  function WakeRules(names: seq<Role>): seq<Rule> {
    LabelRules(Issue, names) + (CATCH_ALL + (LabelRules(Pr, names) + (PrDefaults(Supply(names)) + RunRules(Supply(names)))))
  }

  // ---------- the interpreter ----------

  predicate Holds(test: Test, event: Event) {
    match test
    case IsKind(kind) => event.kind == kind
    case IsRepo(repo) => event.repo == repo
    case HasLabel(name) => name in event.labels
    case IsWorkflow(workflow) => event.workflow == Some(workflow)
    case IsConclusion(conclusion) => event.conclusion == Some(conclusion)
    case IsPrState(state) => event.prState == Some(state)
  }

  ghost predicate Matches(rule: Rule, event: Event) {
    forall t :: t in rule.tests ==> Holds(t, event)
  }

  lemma MatchesOne(rule: Rule, event: Event, a: Test)
    requires rule.tests == [a]
    ensures Matches(rule, event) <==> Holds(a, event)
  {
  }

  lemma MatchesBoth(rule: Rule, event: Event, a: Test, b: Test)
    requires rule.tests == [a, b]
    ensures Matches(rule, event) <==> Holds(a, event) && Holds(b, event)
  {
  }

  lemma MatchesThree(rule: Rule, event: Event, a: Test, b: Test, c: Test)
    requires rule.tests == [a, b, c]
    ensures Matches(rule, event) <==> Holds(a, event) && Holds(b, event) && Holds(c, event)
  {
  }

  lemma MatchesFour(rule: Rule, event: Event, a: Test, b: Test, c: Test, d: Test)
    requires rule.tests == [a, b, c, d]
    ensures Matches(rule, event) <==> Holds(a, event) && Holds(b, event) && Holds(c, event) && Holds(d, event)
  {
  }

  /** The roles of the policy that the labels name. */
  function Owners(labels: set<Label>, policy: set<Role>): set<Role> {
    set r | r in policy && RoleLabel(r) in labels
  }

  ghost function Only(owners: set<Role>): Option<Role> {
    if exists r :: owners == {r} then
      var r :| owners == {r};
      Some(r)
    else None
  }

  ghost function Route(event: Event, rules: seq<Rule>, policy: set<Role>): Option<Role> {
    if rules == [] then None
    else if !Matches(rules[0], event) then Route(event, rules[1..], policy)
    else if rules[0].wake.To? then Some(rules[0].wake.role)
    else Only(Owners(event.labels, policy))
  }

  method RouteEvent(event: Event, rules: seq<Rule>, policy: set<Role>) returns (wakes: Option<Role>)
    ensures wakes == Route(event, rules, policy)
  {
    for i := 0 to |rules|
      invariant Route(event, rules, policy) == Route(event, rules[i..], policy)
    {
      var rule := rules[i];
      assert rules[i..][0] == rule && rules[i..][1..] == rules[i + 1..];
      var matched := true;
      var j := 0;
      while j < |rule.tests| && matched
        invariant 0 <= j <= |rule.tests|
        invariant matched ==> forall t :: t in rule.tests[..j] ==> Holds(t, event)
        invariant !matched ==> !Matches(rule, event)
      {
        matched := Holds(rule.tests[j], event);
        j := j + 1;
      }
      if !matched {
        continue;
      }
      assert rule.tests[..|rule.tests|] == rule.tests;
      if rule.wake.To? {
        return Some(rule.wake.role);
      }
      var roles := Owners(event.labels, policy);
      if |roles| != 1 {
        forall r | roles == {r} ensures false {
        }
        return None;
      }
      var r :| r in roles;
      assert |roles - {r}| == 0;
      assert roles == {r};
      return Some(r);
    }
    return None;
  }

  // ---------- what the generated table means ----------

  lemma {:induction false} UnmatchedAreSkipped(event: Event, first: seq<Rule>, rest: seq<Rule>, policy: set<Role>)
    requires forall r :: r in first ==> !Matches(r, event)
    ensures Route(event, first + rest, policy) == Route(event, rest, policy)
  {
    if first == [] {
      assert first + rest == rest;
    } else {
      assert (first + rest)[1..] == first[1..] + rest;
      UnmatchedAreSkipped(event, first[1..], rest, policy);
    }
  }

  /** The rules of one kind: a listed role label settles the event, and anything else goes on. */
  lemma {:induction false} LabelRulesRoute(event: Event, kind: Kind, names: seq<Role>, rest: seq<Rule>, policy: set<Role>)
    ensures Route(event, LabelRules(kind, names) + rest, policy)
      == if event.kind == kind && exists n :: n in names && RoleLabel(n) in event.labels
         then Only(Owners(event.labels, policy)) else Route(event, rest, policy)
  {
    if names == [] {
      assert LabelRules(kind, names) + rest == rest;
    } else {
      var rules := LabelRules(kind, names);
      var head := Rule([IsKind(kind), HasLabel(RoleLabel(names[0]))], FromLabel);
      assert (rules + rest)[0] == head && (rules + rest)[1..] == LabelRules(kind, names[1..]) + rest;
      MatchesBoth(head, event, IsKind(kind), HasLabel(RoleLabel(names[0])));
      LabelRulesRoute(event, kind, names[1..], rest, policy);
    }
  }

  lemma {:induction false} SupplyIsImplementer(names: seq<Role>)
    requires SoftwareImplementer in names
    ensures Supply(names) == SoftwareImplementer
  {
    if names[0] != SoftwareImplementer {
      SupplyIsImplementer(names[1..]);
    }
  }

  /** The routing the organization is promised. */
  ghost function Promised(event: Event, owners: set<Role>): Option<Role> {
    match event.kind
    case Issue => if owners == {} then Some(GovernanceReviewer) else Only(owners)
    case Comment => Only(owners)
    case Pr =>
      if owners == {} then Some(if event.repo.Org? then ProjectOrchestrator else SoftwareImplementer) else Only(owners)
    case Run =>
      if event.repo.Product? && (|| event.workflow == Some(Deploy) || event.workflow == Some(CodeReview)
                                 || (event.workflow == Some(DemoEvidence) && event.conclusion == Some(Failure)))
      then Some(SoftwareImplementer) else None
  }

  lemma FirstRule(event: Event, rules: seq<Rule>, rest: seq<Rule>, policy: set<Role>)
    requires rules != [] && rules[1..] == rest && rules[0].wake.To?
    ensures Route(event, rules, policy) == if Matches(rules[0], event) then Some(rules[0].wake.role) else Route(event, rest, policy)
  {
  }

  lemma {:induction false} CatchAllRoutes(event: Event, rest: seq<Rule>, policy: set<Role>)
    ensures Route(event, CATCH_ALL + rest, policy)
      == if event.kind.Issue? then Some(GovernanceReviewer)
         else if event.kind.Comment? then Only(Owners(event.labels, policy))
         else Route(event, rest, policy)
  {
    var rules := CATCH_ALL + rest;
    assert rules[0] == CATCH_ALL[0] && rules[1..][0] == CATCH_ALL[1] && rules[1..][1..] == rest;
    MatchesOne(rules[0], event, IsKind(Issue));
    MatchesOne(rules[1..][0], event, IsKind(Comment));
    FirstRule(event, rules, rules[1..], policy);
  }

  lemma {:induction false} PrDefaultsRoute(event: Event, rest: seq<Rule>, policy: set<Role>)
    ensures Route(event, PrDefaults(SoftwareImplementer) + rest, policy)
      == if event.kind.Pr? then Promised(event, {}) else Route(event, rest, policy)
  {
    var rules := PrDefaults(SoftwareImplementer) + rest;
    MatchesBoth(rules[0], event, IsKind(Pr), IsRepo(Org));
    MatchesBoth(rules[1], event, IsKind(Pr), IsRepo(Product));
    FirstRule(event, rules, rules[1..], policy);
    assert rules[1..][1..] == rest && rules[1..][0] == rules[1];
    FirstRule(event, rules[1..], rest, policy);
  }

  lemma {:induction false} RunRulesRoute(event: Event, policy: set<Role>)
    ensures Route(event, RunRules(SoftwareImplementer), policy) == if event.kind.Run? then Promised(event, {}) else None
  {
    var rules := RunRules(SoftwareImplementer);
    MatchesThree(rules[0], event, IsKind(Run), IsRepo(Product), IsWorkflow(Deploy));
    MatchesThree(rules[1], event, IsKind(Run), IsRepo(Product), IsWorkflow(CodeReview));
    MatchesFour(rules[2], event, IsKind(Run), IsRepo(Product), IsWorkflow(DemoEvidence), IsConclusion(Failure));
    FirstRule(event, rules, rules[1..], policy);
    FirstRule(event, rules[1..], rules[2..], policy);
    FirstRule(event, rules[2..], [], policy);
  }

  /** Interpreting the generated table gives the promised routing, for every legal roster and
      every event, when the policy knows exactly the roster's roles. */
  lemma {:induction false} RoutingIsExact(names: seq<Role>, event: Event, policy: set<Role>)
    requires Legal(names) && forall n :: n in policy <==> n in names
    ensures Route(event, WakeRules(names), policy) == Promised(event, Owners(event.labels, policy))
  {
    var owners := Owners(event.labels, policy);
    var defaults := PrDefaults(Supply(names)) + RunRules(Supply(names));
    var tail := LabelRules(Pr, names) + defaults;
    assert SoftwareImplementer == DEFAULT_ROLES[2];
    SupplyIsImplementer(names);
    LabelRulesRoute(event, Issue, names, CATCH_ALL + tail, policy);
    LabelRulesRoute(event, Pr, names, defaults, policy);
    PrDefaultsRoute(event, RunRules(SoftwareImplementer), policy);
    RunRulesRoute(event, policy);
    assert owners != {} <==> exists n :: n in names && RoleLabel(n) in event.labels by {
      if n :| n in names && RoleLabel(n) in event.labels {
        assert n in owners;
      }
    }
    CatchAllRoutes(event, tail, policy);
  }

  /** One listed label names its role; two or more wake nobody, for issues, comments and pull
      requests alike. */
  lemma {:induction false} LabelsDecide(event: Event, owners: set<Role>)
    requires !event.kind.Run? && owners != {}
    ensures (exists r :: owners == {r} && Promised(event, owners) == Some(r)) || (|owners| >= 2 && Promised(event, owners) == None)
  {
    var r :| r in owners;
    if owners - {r} == {} {
      assert owners == {r};
    } else {
      var q :| q in owners - {r};
      assert {q, r} <= owners;
      SmallerSet({q, r}, owners);
    }
  }

  lemma SmallerSet(small: set<Role>, large: set<Role>)
    requires small <= large
    ensures |small| <= |large|
  {
    assert large == small + (large - small);
  }

  // ---------- from a payload to a role ----------

  datatype Stream = Issues | Comments | Runs

  /** What `normalize_event` reads off a payload; `parent` is the labels of a comment's parent,
      absent when the enrichment is incomplete. */
  datatype Payload = Payload(
    labels: set<Label>, pull: bool, merged: bool, isOpen: bool, parent: Option<set<Label>>, workflow: Option<Workflow>,
    conclusion: Option<Conclusion>)

  /** `normalize_event`; none when it raises. */
  function Normalize(repo: Repo, stream: Stream, p: Payload): Option<Event> {
    match stream
    case Runs => Some(Event(Run, repo, {}, p.workflow, p.conclusion, None))
    case Comments => if p.parent.None? then None else Some(Event(Comment, repo, p.parent.value, None, None, None))
    case Issues =>
      if !p.pull then Some(Event(Issue, repo, p.labels, None, None, None))
      else Some(Event(Pr, repo, p.labels, None, None, Some(if p.merged then Merged else if p.isOpen then Open else Closed)))
  }

  /** Whom an observed row wakes; a row that cannot be read wakes nobody. */
  method RouteRow(repo: Repo, stream: Stream, p: Payload, rules: seq<Rule>, policy: set<Role>) returns (wakes: Option<Role>)
    ensures wakes == var event := Normalize(repo, stream, p); if event.None? then None else Route(event.value, rules, policy)
  {
    var event := Normalize(repo, stream, p);
    if event.None? {
      return None;
    }
    wakes := RouteEvent(event.value, rules, policy);
  }

  /** End to end, under the generated table: labels decide wherever there are any, the parent's
      for a comment; otherwise an issue goes to the governance reviewer, a pull request, open,
      merged or closed, to its repository's default, and a run by its workflow. */
  lemma {:induction false} PayloadsRoute(names: seq<Role>, repo: Repo, stream: Stream, p: Payload, policy: set<Role>)
    requires Legal(names) && forall n :: n in policy <==> n in names
    ensures var event := Normalize(repo, stream, p);
      var wakes := if event.None? then None else Route(event.value, WakeRules(names), policy);
      match stream
      case Issues =>
        var owners := Owners(p.labels, policy);
        wakes == if owners != {} then Only(owners)
                 else if !p.pull then Some(GovernanceReviewer)
                 else if repo.Org? then Some(ProjectOrchestrator) else Some(SoftwareImplementer)
      case Comments => wakes == if p.parent.None? then None else Only(Owners(p.parent.value, policy))
      case Runs =>
        wakes == if repo.Product? && (|| p.workflow in {Some(Deploy), Some(CodeReview)}
                                      || (p.workflow == Some(DemoEvidence) && p.conclusion == Some(Failure)))
                 then Some(SoftwareImplementer) else None
  {
    var event := Normalize(repo, stream, p);
    if event.Some? {
      RoutingIsExact(names, event.value, policy);
    }
  }

  // ---------- the installed check ----------

  /** What `load_wake_rules` refuses a rule for, beyond its syntax. */
  ghost predicate Accepted(rule: Rule, policy: set<Role>) {
    rule.tests != [] && (rule.wake.To? ==> rule.wake.role in policy)
  }

  /** The loader accepts every generated table: each target is a role of the roster. */
  lemma {:induction false} GeneratedRulesLoad(names: seq<Role>, policy: set<Role>)
    requires Legal(names) && forall n :: n in policy <==> n in names
    ensures WakeRules(names) != [] && forall r :: r in WakeRules(names) ==> Accepted(r, policy)
  {
    assert forall i :: 0 <= i < 4 ==> DEFAULT_ROLES[i] in names;
    assert ProjectOrchestrator == DEFAULT_ROLES[0] && SoftwareImplementer == DEFAULT_ROLES[2] && GovernanceReviewer == DEFAULT_ROLES[3];
    SupplyIsImplementer(names);
    LabelRulesLoad(Issue, names, policy);
    LabelRulesLoad(Pr, names, policy);
    assert WakeRules(names)[|LabelRules(Issue, names)|] == CATCH_ALL[0];
  }

  lemma {:induction false} LabelRulesLoad(kind: Kind, names: seq<Role>, policy: set<Role>)
    ensures forall r :: r in LabelRules(kind, names) ==> Accepted(r, policy)
  {
    if names != [] {
      LabelRulesLoad(kind, names[1..], policy);
    }
  }
}
