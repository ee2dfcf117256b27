/** Choosing the owner of a routed task. Candidates are positions in the configured agent list. */
module Routing {
  import opened Wrappers
  import opened Text
  import opened Protocol
  import Domains

  type Candidate = nat

  datatype Request = Request(
    run: RunId, taskClass: TaskClass, domains: seq<string>, goal: string, expectedOutput: string,
    reviewRequired: bool, ownerOverride: string, overrideReason: string)

  datatype RouteError =
    | Rejected(eligible: seq<AgentName>, excluded: seq<Exclusion>)
    | Invalid

  predicate InRange(cfg: Config, s: seq<Candidate>) {
    forall i :: 0 <= i < |s| ==> s[i] < |cfg.agents|
  }

  // ------------------------------------------------ candidate lists

  predicate KindMatches(a: Agent, allowed: seq<AgentName>, taskClass: TaskClass) {
    a.name in allowed && a.kind == Some(taskClass)
  }

  predicate Covers(a: Agent, domains: seq<string>) {
    Domains.Normalize(a.domains).Success?
    && forall d :: d in domains ==> d in Domains.Normalize(a.domains).value
  }

  /** Allowed owners of the class among the first n agents, in configuration order. */
  function KindCandidates(cfg: Config, allowed: seq<AgentName>, taskClass: TaskClass, n: nat): (r: seq<Candidate>)
    requires n <= |cfg.agents|
    ensures forall i :: 0 <= i < |r| ==> r[i] < n
  {
    if n == 0 then []
    else
      var front := KindCandidates(cfg, allowed, taskClass, n - 1);
      if KindMatches(cfg.agents[n - 1], allowed, taskClass) then front + [n - 1] else front
  }

  function Covering(cfg: Config, s: seq<Candidate>, domains: seq<string>): (r: seq<Candidate>)
    requires InRange(cfg, s)
    ensures InRange(cfg, r)
  {
    if s == [] then []
    else
      var front := Covering(cfg, s[..|s| - 1], domains);
      if Covers(cfg.agents[s[|s| - 1]], domains) then front + [s[|s| - 1]] else front
  }

  method RouteCandidates(cfg: Config, allowed: seq<AgentName>, taskClass: TaskClass, domains: seq<string>)
    returns (kind: seq<Candidate>, domain: seq<Candidate>)
    ensures kind == KindCandidates(cfg, allowed, taskClass, |cfg.agents|)
    ensures domain == Covering(cfg, kind, domains)
  {
    hide Domains.Normalize;
    kind, domain := [], [];
    for i := 0 to |cfg.agents|
      invariant kind == KindCandidates(cfg, allowed, taskClass, i)
      invariant domain == Covering(cfg, kind, domains)
    {
      var agent := cfg.agents[i];
      if agent.name !in allowed || agent.kind.None? || agent.kind.value != taskClass {
        continue;
      }
      ghost var front := kind;
      kind := kind + [i];
      assert kind[..|kind| - 1] == front;
      if Covers(agent, domains) {
        domain := domain + [i];
      }
    }
  }

  // ------------------------------------------------- availability

  /** The name of an agent's target; an agent without one runs on the implicit local target. */
  function TargetName(a: Agent): string {
    if Blank(a.target) then "local" else Trim(a.target)
  }

  predicate TargetKnown(cfg: Config, a: Agent) {
    Blank(a.target) || Trim(a.target) in cfg.targets
  }

  function HealthOf(env: Environment, a: Agent): Health {
    if TargetName(a) in env.health then env.health[TargetName(a)]
    else Health(Unknown, "target has not reported health yet")
  }

  predicate Available(env: Environment, a: Agent) {
    !BlocksRouting(HealthOf(env, a).availability)
  }

  function ExclusionOf(env: Environment, a: Agent): Exclusion {
    Exclusion(a.name, TargetName(a), AvailabilityName(HealthOf(env, a).availability), HealthOf(env, a).summary)
  }

  function Filtered(cfg: Config, env: Environment, s: seq<Candidate>): (r: seq<Candidate>)
    requires InRange(cfg, s)
    ensures InRange(cfg, r)
  {
    if s == [] then []
    else
      var front := Filtered(cfg, env, s[..|s| - 1]);
      if Available(env, cfg.agents[s[|s| - 1]]) then front + [s[|s| - 1]] else front
  }

  function SeenKey(a: Agent): string {
    a.name + "|" + TargetName(a)
  }

  function SeenKeys(cfg: Config, env: Environment, s: seq<Candidate>): set<string>
    requires InRange(cfg, s)
  {
    if s == [] then {}
    else
      var a := cfg.agents[s[|s| - 1]];
      SeenKeys(cfg, env, s[..|s| - 1]) + if Available(env, a) then {} else {SeenKey(a)}
  }

  /** One exclusion for each blocked owner and target, in order. */
  function Excluded(cfg: Config, env: Environment, s: seq<Candidate>): seq<Exclusion>
    requires InRange(cfg, s)
  {
    if s == [] then []
    else
      var front, a := s[..|s| - 1], cfg.agents[s[|s| - 1]];
      if !Available(env, a) && SeenKey(a) !in SeenKeys(cfg, env, front)
      then Excluded(cfg, env, front) + [ExclusionOf(env, a)]
      else Excluded(cfg, env, front)
  }

  predicate AllTargetsKnown(cfg: Config, s: seq<Candidate>)
    requires InRange(cfg, s)
  {
    forall i :: 0 <= i < |s| ==> TargetKnown(cfg, cfg.agents[s[i]])
  }

  method FilterByAvailability(cfg: Config, env: Environment, candidates: seq<Candidate>)
    returns (r: Result<(seq<Candidate>, seq<Exclusion>), RouteError>)
    requires InRange(cfg, candidates)
    ensures r == if AllTargetsKnown(cfg, candidates)
                 then Success((Filtered(cfg, env, candidates), Excluded(cfg, env, candidates)))
                 else Failure(Invalid)
  {
    hide Trim;
    var filtered, excluded: seq<Exclusion>, seen: set<string> := [], [], {};
    for i := 0 to |candidates|
      invariant forall j :: 0 <= j < i ==> TargetKnown(cfg, cfg.agents[candidates[j]])
      invariant filtered == Filtered(cfg, env, candidates[..i])
      invariant excluded == Excluded(cfg, env, candidates[..i])
      invariant seen == SeenKeys(cfg, env, candidates[..i])
    {
      var agent := cfg.agents[candidates[i]];
      if !TargetKnown(cfg, agent) {
        return Failure(Invalid);
      }
      assert candidates[..i + 1][..i] == candidates[..i];
      if !Available(env, agent) {
        if SeenKey(agent) !in seen {
          excluded := excluded + [ExclusionOf(env, agent)];
          seen := seen + {SeenKey(agent)};
        }
        continue;
      }
      filtered := filtered + [candidates[i]];
    }
    assert candidates[..|candidates|] == candidates;
    r := Success((filtered, excluded));
  }

  function ExclusionKey(e: Exclusion): string {
    Domains.Join([e.owner, e.target, e.status, e.reason], "|")
  }

  function UniqueExclusions(s: seq<Exclusion>): seq<Exclusion> {
    if s == [] then []
    else
      var front, last := s[..|s| - 1], s[|s| - 1];
      if exists i :: 0 <= i < |front| && ExclusionKey(front[i]) == ExclusionKey(last)
      then UniqueExclusions(front)
      else UniqueExclusions(front) + [last]
  }

  // ------------------------------------------------------- ranking

  /** Higher route priority first, then configuration order. */
  predicate Ahead(cfg: Config, i: Candidate, j: Candidate)
    requires i < |cfg.agents| && j < |cfg.agents|
  {
    if cfg.agents[i].priority != cfg.agents[j].priority
    then cfg.agents[i].priority > cfg.agents[j].priority
    else i < j
  }

  function InsertRanked(cfg: Config, c: Candidate, s: seq<Candidate>): (r: seq<Candidate>)
    requires c < |cfg.agents| && InRange(cfg, s)
    ensures InRange(cfg, r) && multiset(r) == multiset(s) + multiset{c}
  {
    if s == [] then [c]
    else
      assert s == [s[0]] + s[1..];
      if Ahead(cfg, s[0], c) then [s[0]] + InsertRanked(cfg, c, s[1..]) else [c] + s
  }

  function Rank(cfg: Config, s: seq<Candidate>): (r: seq<Candidate>)
    requires InRange(cfg, s)
    ensures InRange(cfg, r) && multiset(r) == multiset(s)
  {
    if s == [] then []
    else
      assert s == s[..|s| - 1] + [s[|s| - 1]];
      InsertRanked(cfg, s[|s| - 1], Rank(cfg, s[..|s| - 1]))
  }

  predicate Ranked(cfg: Config, s: seq<Candidate>)
    requires InRange(cfg, s)
  {
    forall i, j :: 0 <= i < j < |s| ==> !Ahead(cfg, s[j], s[i])
  }

  lemma {:induction false} InsertRankedKeepsOrder(cfg: Config, c: Candidate, s: seq<Candidate>)
    requires c < |cfg.agents| && InRange(cfg, s) && Ranked(cfg, s)
    ensures Ranked(cfg, InsertRanked(cfg, c, s))
  {
    if s != [] && Ahead(cfg, s[0], c) {
      InsertRankedKeepsOrder(cfg, c, s[1..]);
      var rest := InsertRanked(cfg, c, s[1..]);
      forall j | 0 <= j < |rest| ensures !Ahead(cfg, rest[j], s[0]) {
        assert rest[j] in multiset(rest);
        assert rest[j] == c || rest[j] in s[1..];
      }
    }
  }

  lemma {:induction false} RankIsRanked(cfg: Config, s: seq<Candidate>)
    requires InRange(cfg, s)
    ensures Ranked(cfg, Rank(cfg, s))
  {
    if s != [] {
      RankIsRanked(cfg, s[..|s| - 1]);
      InsertRankedKeepsOrder(cfg, s[|s| - 1], Rank(cfg, s[..|s| - 1]));
    }
  }

  // ---------------------------------------------- adaptive override

  function MatchFrom(prefs: seq<Preference>, key: string): Option<Preference> {
    if prefs == [] then None
    else if prefs[0].key == key then Some(prefs[0])
    else MatchFrom(prefs[1..], key)
  }

  /** The stored row whose key is exactly this class, these domains and this owner. */
  function Matching(cfg: Config, prefs: seq<Preference>, taskClass: TaskClass, domains: seq<string>, c: Candidate)
    : Option<Preference>
    requires c < |cfg.agents|
  {
    MatchFrom(prefs, Domains.PreferenceKey(ClassName(taskClass), domains, cfg.agents[c].name))
  }

  datatype Best = Best(candidate: Option<Candidate>, preference: Option<Preference>, tie: bool)

  /** The running best of the source's scan after the candidates of s. */
  function ScanBest(cfg: Config, prefs: seq<Preference>, taskClass: TaskClass, domains: seq<string>,
                    s: seq<Candidate>): (r: Best)
    requires InRange(cfg, s)
    ensures r.candidate.Some? <==> r.preference.Some?
  {
    if s == [] then Best(None, None, false)
    else
      var b, c := ScanBest(cfg, prefs, taskClass, domains, s[..|s| - 1]), s[|s| - 1];
      var p := Matching(cfg, prefs, taskClass, domains, c);
      if p.None? then b
      else if b.candidate.None? then Best(Some(c), p, false)
      else if p.value.total > b.preference.value.total then Best(Some(c), p, false)
      else if p.value.total == b.preference.value.total then b.(tie := true)
      else b
  }

  function Explanation(cfg: Config, taskClass: TaskClass, domains: seq<string>,
                       baseline: Candidate, best: Candidate, p: Preference): Adaptive
    requires baseline < |cfg.agents| && best < |cfg.agents|
  {
    Adaptive(true, cfg.agents[baseline].name, cfg.agents[best].name,
             p.historical, p.manual, p.total,
             "exact preference match on " + ClassName(taskClass) + "|" + Domains.Join(domains, ",")
             + " favored " + cfg.agents[best].name + " over baseline " + cfg.agents[baseline].name,
             p.evidence)
  }

  /** An explanation is given when the best is unique and is not the baseline. */
  function Explain(cfg: Config, prefs: seq<Preference>, taskClass: TaskClass, domains: seq<string>,
                   baseline: Candidate, s: seq<Candidate>): Option<Adaptive>
    requires InRange(cfg, s) && baseline < |cfg.agents|
  {
    var b := ScanBest(cfg, prefs, taskClass, domains, s);
    if b.candidate.None? || b.tie || b.candidate.value >= |cfg.agents|
       || cfg.agents[b.candidate.value].name == cfg.agents[baseline].name
    then None
    else Some(Explanation(cfg, taskClass, domains, baseline, b.candidate.value, b.preference.value))
  }

  lemma {:induction false} ScanBestInRange(cfg: Config, prefs: seq<Preference>, taskClass: TaskClass,
                                           domains: seq<string>, s: seq<Candidate>)
    requires InRange(cfg, s)
    ensures var b := ScanBest(cfg, prefs, taskClass, domains, s);
            b.candidate.Some? ==>
              && b.candidate.value in s && b.candidate.value < |cfg.agents|
              && b.preference == Matching(cfg, prefs, taskClass, domains, b.candidate.value)
  {
    if s != [] {
      ScanBestInRange(cfg, prefs, taskClass, domains, s[..|s| - 1]);
    }
  }

  method AdaptiveExplanation(cfg: Config, prefs: seq<Preference>, taskClass: TaskClass, domains: seq<string>,
                             baseline: Candidate, candidates: seq<Candidate>)
    returns (r: Option<Adaptive>)
    requires InRange(cfg, candidates) && baseline < |cfg.agents|
    ensures r == Explain(cfg, prefs, taskClass, domains, baseline, candidates)
  {
    var bestCandidate: Option<Candidate>, bestPreference: Option<Preference>, scoreTie := None, None, false;
    for index := 0 to |candidates|
      invariant Best(bestCandidate, bestPreference, scoreTie)
                == ScanBest(cfg, prefs, taskClass, domains, candidates[..index])
    {
      var candidate := candidates[index];
      assert candidates[..index + 1][..index] == candidates[..index];
      var preference := Matching(cfg, prefs, taskClass, domains, candidate);
      if preference.None? {
        continue;
      }
      if bestCandidate.None? {
        bestCandidate, bestPreference := Some(candidate), preference;
        scoreTie := false;
        continue;
      }
      if preference.value.total > bestPreference.value.total {
        bestCandidate, bestPreference, scoreTie := Some(candidate), preference, false;
      } else if preference.value.total == bestPreference.value.total {
        scoreTie := true;
      }
    }
    assert candidates[..|candidates|] == candidates;
    ScanBestInRange(cfg, prefs, taskClass, domains, candidates);
    if bestCandidate.None? || scoreTie {
      return None;
    }
    if cfg.agents[bestCandidate.value].name == cfg.agents[baseline].name {
      return None;
    }
    return Some(Explanation(cfg, taskClass, domains, baseline, bestCandidate.value, bestPreference.value));
  }

  // ------------------------------------------------------ selection

  function Names(cfg: Config, s: seq<Candidate>): seq<AgentName>
    requires InRange(cfg, s)
  {
    seq(|s|, i requires 0 <= i < |s| => cfg.agents[s[i]].name)
  }

  function FirstNamed(cfg: Config, s: seq<Candidate>, name: AgentName, default: Candidate): (r: Candidate)
    requires InRange(cfg, s) && default < |cfg.agents|
    ensures r < |cfg.agents|
  {
    if s == [] then default
    else if cfg.agents[s[0]].name == name then s[0]
    else FirstNamed(cfg, s[1..], name, default)
  }

  function DuplicateStatus(duplicate: Option<TaskId>): string {
    if duplicate.Some? then "fanout" else "unique"
  }

  function RejectionOf(eligible: seq<AgentName>, excluded: seq<Exclusion>): RouteError {
    if forall i :: 0 <= i < |excluded| ==> ExclusionValid(excluded[i]) then Rejected(eligible, excluded)
    else Invalid
  }

  function SelectOverride(cfg: Config, env: Environment, allowed: seq<AgentName>, req: Request,
                          kind: seq<Candidate>, duplicate: Option<TaskId>)
    : Result<RoutingDecision, RouteError>
    requires InRange(cfg, kind)
  {
    var owner := ResolveIn(cfg.agents, req.ownerOverride);
    if owner.None? || owner.value.name !in allowed || !TargetKnown(cfg, owner.value) then Failure(Invalid)
    else if !Available(env, owner.value)
    then Failure(Rejected(Names(cfg, kind), [ExclusionOf(env, owner.value)]))
    else
      var candidates := if kind == [] then [owner.value.name] else Names(cfg, kind);
      var d := RoutingDecision("selected", owner.value.name, candidates, OWNER_OVERRIDE,
                               DuplicateStatus(duplicate), duplicate, [], [], None);
      if DecisionValid(d) then Success(d) else Failure(Invalid)
  }

  /** The decision for a request: its selectedOwner is the owner that gets the task. */
  function SelectRoutedOwner(cfg: Config, env: Environment, allowed: seq<AgentName>, req: Request,
                             duplicate: Option<TaskId>): Result<RoutingDecision, RouteError>
  {
    var kind := KindCandidates(cfg, allowed, req.taskClass, |cfg.agents|);
    var domain := Covering(cfg, kind, req.domains);
    if !AllTargetsKnown(cfg, kind) then Failure(Invalid)
    else
      var excluded := UniqueExclusions(Excluded(cfg, env, kind) + Excluded(cfg, env, domain));
      var kindRanked := Rank(cfg, Filtered(cfg, env, kind));
      var ranked := Rank(cfg, Filtered(cfg, env, domain));
      if req.ownerOverride != "" then SelectOverride(cfg, env, allowed, req, kindRanked, duplicate)
      else if ranked == [] then Failure(RejectionOf(Names(cfg, kindRanked), excluded))
      else if cfg.adaptive.enabled && env.preferences.Some? && !PreferencesValid(env.preferences.value)
      then Failure(Invalid)
      else
        var adaptive := if cfg.adaptive.enabled && env.preferences.Some?
                        then Explain(cfg, env.preferences.value, req.taskClass, req.domains, ranked[0], ranked)
                        else None;
        var selected := if adaptive.Some? then FirstNamed(cfg, ranked, adaptive.value.preferred, ranked[0])
                        else ranked[0];
        var d := RoutingDecision("selected", cfg.agents[selected].name, Names(cfg, ranked),
                                 "route_priority desc, config_order asc",
                                 DuplicateStatus(duplicate), duplicate, [], excluded, adaptive);
        if DecisionValid(d) then Success(d) else Failure(Invalid)
  }
}
