/** The routing loops put together. */
module RouteChoice {
  import opened Wrappers
  import opened Text
  import opened Protocol
  import opened Routing
  import opened RoutingFacts

  lemma CoveringTargetsKnown(cfg: Config, s: seq<Candidate>, domains: seq<string>)
    requires InRange(cfg, s) && AllTargetsKnown(cfg, s)
    ensures AllTargetsKnown(cfg, Covering(cfg, s, domains))
  {
    hide TargetKnown;
    CoveringMembers(cfg, s, domains);
    var r := Covering(cfg, s, domains);
    forall i | 0 <= i < |r| ensures TargetKnown(cfg, cfg.agents[r[i]]) {
      assert r[i] in s;
    }
  }

  /** Candidates, availability, ranking, override, and the adaptive choice, in the source's order. */
  method ChooseOwner(cfg: Config, env: Environment, allowed: seq<AgentName>, req: Request, duplicate: Option<TaskId>)
    returns (r: Result<RoutingDecision, RouteError>)
    ensures r == SelectRoutedOwner(cfg, env, allowed, req, duplicate)
  {
    hide Covering;
    hide KindCandidates;
    hide Excluded;
    hide UniqueExclusions;
    hide DecisionValid;
    hide PreferencesValid;
    hide SelectOverride;
    hide TargetKnown;
    hide RejectionOf;
    var kind, domain := RouteCandidates(cfg, allowed, req.taskClass, req.domains);
    var kindFiltered := FilterByAvailability(cfg, env, kind);
    if kindFiltered.Failure? {
      return Failure(kindFiltered.error);
    }
    CoveringTargetsKnown(cfg, kind, req.domains);
    var domainFiltered := FilterByAvailability(cfg, env, domain);
    var excluded := UniqueExclusions(kindFiltered.value.1 + domainFiltered.value.1);
    var kindRanked := Rank(cfg, kindFiltered.value.0);
    var ranked := Rank(cfg, domainFiltered.value.0);
    if req.ownerOverride != "" {
      return SelectOverride(cfg, env, allowed, req, kindRanked, duplicate);
    }
    if ranked == [] {
      return Failure(RejectionOf(Names(cfg, kindRanked), excluded));
    }
    var selected, adaptive := ranked[0], None;
    if cfg.adaptive.enabled && env.preferences.Some? {
      if !PreferencesValid(env.preferences.value) {
        return Failure(Invalid);
      }
      adaptive := AdaptiveExplanation(cfg, env.preferences.value, req.taskClass, req.domains, ranked[0], ranked);
      if adaptive.Some? {
        selected := FirstNamed(cfg, ranked, adaptive.value.preferred, ranked[0]);
      }
    }
    var decision := RoutingDecision("selected", cfg.agents[selected].name, Names(cfg, ranked),
                                    "route_priority desc, config_order asc",
                                    DuplicateStatus(duplicate), duplicate, [], excluded, adaptive);
    if !DecisionValid(decision) {
      return Failure(Invalid);
    }
    return Success(decision);
  }
}
