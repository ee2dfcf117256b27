/** What routing chooses, stated without its loops. */
module RoutingFacts {
  import opened Wrappers
  import opened Text
  import opened Protocol
  import opened Routing
  import Domains

  /** An allowed owner of the class whose role covers the domains and whose target does not block. */
  ghost predicate Eligible(cfg: Config, env: Environment, allowed: seq<AgentName>, req: Request, c: Candidate) {
    && c < |cfg.agents|
    && KindMatches(cfg.agents[c], allowed, req.taskClass)
    && Covers(cfg.agents[c], req.domains)
    && Available(env, cfg.agents[c])
  }

  /** Greatest route priority, then least position in the configuration. */
  ghost predicate IsBaseline(cfg: Config, env: Environment, allowed: seq<AgentName>, req: Request, b: Candidate) {
    && Eligible(cfg, env, allowed, req, b)
    && forall c :: Eligible(cfg, env, allowed, req, c) && c != b ==> Ahead(cfg, b, c)
  }

  function Row(cfg: Config, prefs: seq<Preference>, req: Request, c: Candidate): Option<Preference>
    requires c < |cfg.agents|
  {
    Matching(cfg, prefs, req.taskClass, req.domains, c)
  }

  /** The strict maximum of the total score among eligible candidates that have an exact row. */
  ghost predicate IsFavourite(cfg: Config, env: Environment, allowed: seq<AgentName>, req: Request,
                              prefs: seq<Preference>, p: Candidate)
  {
    && Eligible(cfg, env, allowed, req, p)
    && Row(cfg, prefs, req, p).Some?
    && forall c :: Eligible(cfg, env, allowed, req, c) && c != p && Row(cfg, prefs, req, c).Some? ==>
                     Row(cfg, prefs, req, c).value.total < Row(cfg, prefs, req, p).value.total
  }

  // ------------------------------------------------ candidate lists

  ghost predicate Distinct(s: seq<Candidate>) {
    forall i, j :: 0 <= i < j < |s| ==> s[i] != s[j]
  }

  lemma {:induction false} KindMembers(cfg: Config, allowed: seq<AgentName>, cls: TaskClass, n: nat)
    requires n <= |cfg.agents|
    ensures var s := KindCandidates(cfg, allowed, cls, n);
            && Distinct(s)
            && forall c: Candidate :: c in s <==> c < n && KindMatches(cfg.agents[c], allowed, cls)
  {
    if n > 0 {
      KindMembers(cfg, allowed, cls, n - 1);
    }
  }

  lemma {:induction false} CoveringMembers(cfg: Config, s: seq<Candidate>, domains: seq<string>)
    requires InRange(cfg, s)
    ensures forall c: Candidate :: c in Covering(cfg, s, domains) <==> c in s && Covers(cfg.agents[c], domains)
    ensures Distinct(s) ==> Distinct(Covering(cfg, s, domains))
  {
    hide Covers;
    if s != [] {
      CoveringMembers(cfg, s[..|s| - 1], domains);
      assert s == s[..|s| - 1] + [s[|s| - 1]];
    }
  }

  lemma {:induction false} FilteredMembers(cfg: Config, env: Environment, s: seq<Candidate>)
    requires InRange(cfg, s)
    ensures forall c: Candidate :: c in Filtered(cfg, env, s) <==> c in s && Available(env, cfg.agents[c])
    ensures Distinct(s) ==> Distinct(Filtered(cfg, env, s))
  {
    hide Available;
    if s != [] {
      FilteredMembers(cfg, env, s[..|s| - 1]);
      assert s == s[..|s| - 1] + [s[|s| - 1]];
    }
  }

  lemma {:induction false} DistinctMeansCounts(s: seq<Candidate>)
    ensures Distinct(s) <==> forall c: Candidate :: multiset(s)[c] <= 1
  {
    if s != [] {
      DistinctMeansCounts(s[1..]);
      assert s == [s[0]] + s[1..];
      assert multiset(s) == multiset{s[0]} + multiset(s[1..]);
      assert s[0] in s[1..] <==> multiset(s[1..])[s[0]] > 0;
      if forall c: Candidate :: multiset(s)[c] <= 1 {
        forall c: Candidate ensures multiset(s[1..])[c] <= 1 {
          assert multiset(s)[c] <= 1;
        }
        assert multiset(s)[s[0]] <= 1;
      }
      assert Distinct(s) <==> Distinct(s[1..]) && s[0] !in s[1..];
    }
  }

  lemma SameMultiset(a: seq<Candidate>, b: seq<Candidate>)
    requires multiset(a) == multiset(b)
    ensures forall c: Candidate :: c in a <==> c in b
    ensures Distinct(a) ==> Distinct(b)
  {
    forall c: Candidate ensures c in a <==> c in b {
      assert c in a <==> c in multiset(a);
      assert c in b <==> c in multiset(b);
    }
    DistinctMeansCounts(a);
    DistinctMeansCounts(b);
  }

  /** The ranked list holds exactly the eligible candidates, each once, best first. */
  function RankedEligible(cfg: Config, env: Environment, allowed: seq<AgentName>, req: Request): (r: seq<Candidate>)
    ensures InRange(cfg, r)
  {
    Rank(cfg, Filtered(cfg, env,
      Covering(cfg, KindCandidates(cfg, allowed, req.taskClass, |cfg.agents|), req.domains)))
  }

  lemma RankedEligibleMembers(cfg: Config, env: Environment, allowed: seq<AgentName>, req: Request)
    ensures var s := RankedEligible(cfg, env, allowed, req);
            && Distinct(s) && Ranked(cfg, s)
            && forall c: Candidate :: c in s <==> Eligible(cfg, env, allowed, req, c)
  {
    hide Covers;
    hide Available;
    hide KindMatches;
    var kind := KindCandidates(cfg, allowed, req.taskClass, |cfg.agents|);
    var domain := Covering(cfg, kind, req.domains);
    var filtered := Filtered(cfg, env, domain);
    KindMembers(cfg, allowed, req.taskClass, |cfg.agents|);
    CoveringMembers(cfg, kind, req.domains);
    FilteredMembers(cfg, env, domain);
    SameMultiset(filtered, Rank(cfg, filtered));
    RankIsRanked(cfg, filtered);
  }

  lemma HeadIsBaseline(cfg: Config, env: Environment, allowed: seq<AgentName>, req: Request)
    requires RankedEligible(cfg, env, allowed, req) != []
    ensures IsBaseline(cfg, env, allowed, req, RankedEligible(cfg, env, allowed, req)[0])
  {
    hide Eligible;
    var s := RankedEligible(cfg, env, allowed, req);
    RankedEligibleMembers(cfg, env, allowed, req);
    forall c: Candidate | Eligible(cfg, env, allowed, req, c) && c != s[0] ensures c < |cfg.agents| && Ahead(cfg, s[0], c) {
      var i :| 0 <= i < |s| && s[i] == c;
      assert !Ahead(cfg, s[i], s[0]);
    }
    assert s[0] in s;
  }

  // ----------------------------------------------- adaptive override

  /** The total score of a candidate's row, if it has one. */
  function Total(cfg: Config, prefs: seq<Preference>, req: Request, c: Candidate): Option<int>
    requires c < |cfg.agents|
  {
    match Row(cfg, prefs, req, c)
    case Some(p) => Some(p.total)
    case None => None
  }

  ghost predicate ScanMeans(cfg: Config, prefs: seq<Preference>, req: Request, s: seq<Candidate>, b: Best)
    requires InRange(cfg, s)
  {
    if b.candidate.None? then forall c: Candidate :: c in s ==> Total(cfg, prefs, req, c).None?
    else
      var best := b.candidate.value;
      && best in s && best < |cfg.agents|
      && b.preference.Some? && Total(cfg, prefs, req, best) == Some(b.preference.value.total)
      && (forall c: Candidate :: c in s && Total(cfg, prefs, req, c).Some? ==>
            Total(cfg, prefs, req, c).value <= b.preference.value.total)
      && (!b.tie <==> forall c: Candidate :: c in s && c != best && Total(cfg, prefs, req, c).Some? ==>
            Total(cfg, prefs, req, c).value < b.preference.value.total)
  }

  /** The running best is a maximum, and the tie flag tells whether it is the only one. */
  lemma {:induction false} ScanMeaning(cfg: Config, prefs: seq<Preference>, req: Request, s: seq<Candidate>)
    requires InRange(cfg, s) && Distinct(s)
    ensures ScanMeans(cfg, prefs, req, s, ScanBest(cfg, prefs, req.taskClass, req.domains, s))
  {
    hide Matching;
    if s != [] {
      var front, c := s[..|s| - 1], s[|s| - 1];
      ScanMeaning(cfg, prefs, req, front);
      assert s == front + [c];
      assert c !in front;
      var before := ScanBest(cfg, prefs, req.taskClass, req.domains, front);
      var p := Row(cfg, prefs, req, c);
      var after := ScanBest(cfg, prefs, req.taskClass, req.domains, s);
      if p.Some? {
        assert Total(cfg, prefs, req, c) == Some(p.value.total);
      }
    }
  }

  /** The scan names a favourite exactly when there is one. */
  lemma FavouriteFound(cfg: Config, env: Environment, allowed: seq<AgentName>, req: Request,
                       prefs: seq<Preference>, p: Candidate)
    ensures var s := RankedEligible(cfg, env, allowed, req);
            var b := ScanBest(cfg, prefs, req.taskClass, req.domains, s);
            IsFavourite(cfg, env, allowed, req, prefs, p) <==> b.candidate == Some(p) && !b.tie
  {
    hide Matching;
    hide Eligible;
    hide RankedEligible;
    hide ScanBest;
    var s := RankedEligible(cfg, env, allowed, req);
    var b := ScanBest(cfg, prefs, req.taskClass, req.domains, s);
    RankedEligibleMembers(cfg, env, allowed, req);
    ScanMeaning(cfg, prefs, req, s);
    if IsFavourite(cfg, env, allowed, req, prefs, p) {
      assert p in s && Total(cfg, prefs, req, p).Some?;
      assert b.candidate.value in s;
    }
  }

  lemma {:induction false} FirstNamedIsIt(cfg: Config, s: seq<Candidate>, c: Candidate, default: Candidate)
    requires InRange(cfg, s) && default < |cfg.agents| && c in s && DistinctNames(cfg)
    ensures FirstNamed(cfg, s, cfg.agents[c].name, default) == c
  {
    if s[0] != c {
      assert s == [s[0]] + s[1..];
      FirstNamedIsIt(cfg, s[1..], c, default);
    }
  }

  /** The favourite the scan found, else the head of the ranked list. */
  function Chosen(cfg: Config, env: Environment, req: Request, s: seq<Candidate>): (r: Candidate)
    requires InRange(cfg, s) && s != []
  {
    if cfg.adaptive.enabled && env.preferences.Some? then
      var best := ScanBest(cfg, env.preferences.value, req.taskClass, req.domains, s);
      if best.candidate.Some? && !best.tie then best.candidate.value else s[0]
    else s[0]
  }

  lemma SelectedIsChosen(cfg: Config, env: Environment, allowed: seq<AgentName>, req: Request, duplicate: Option<TaskId>)
    requires DistinctNames(cfg) && req.ownerOverride == ""
    requires SelectRoutedOwner(cfg, env, allowed, req, duplicate).Success?
    ensures var s := RankedEligible(cfg, env, allowed, req);
            && s != [] && Chosen(cfg, env, req, s) < |cfg.agents|
            && SelectRoutedOwner(cfg, env, allowed, req, duplicate).value.selectedOwner
               == cfg.agents[Chosen(cfg, env, req, s)].name
  {
    hide Matching;
    hide DecisionValid;
    hide PreferencesValid;
    hide ScanBest;
    hide UniqueExclusions;
    hide Excluded;
    hide AllTargetsKnown;
    hide FirstNamed;
    hide Names;
    hide Covering;
    hide KindCandidates;
    hide Filtered;
    hide Rank;
    hide RejectionOf;
    var s := RankedEligible(cfg, env, allowed, req);
    if s != [] && cfg.adaptive.enabled && env.preferences.Some? {
      var best := ScanBest(cfg, env.preferences.value, req.taskClass, req.domains, s);
      ScanBestInRange(cfg, env.preferences.value, req.taskClass, req.domains, s);
      if best.candidate.Some? && !best.tie {
        FirstNamedIsIt(cfg, s, best.candidate.value, s[0]);
      }
    }
  }

  /** Routing without an override: the owner is the favourite if there is one, else the baseline. */
  lemma RoutingPicks(cfg: Config, env: Environment, allowed: seq<AgentName>, req: Request, duplicate: Option<TaskId>)
    requires DistinctNames(cfg) && req.ownerOverride == ""
    requires SelectRoutedOwner(cfg, env, allowed, req, duplicate).Success?
    ensures var owner := SelectRoutedOwner(cfg, env, allowed, req, duplicate).value.selectedOwner;
            var adaptive := cfg.adaptive.enabled && env.preferences.Some?;
            exists c: Candidate :: c < |cfg.agents| && owner == cfg.agents[c].name &&
              if adaptive && exists p :: IsFavourite(cfg, env, allowed, req, env.preferences.value, p)
              then IsFavourite(cfg, env, allowed, req, env.preferences.value, c)
              else IsBaseline(cfg, env, allowed, req, c)
  {
    hide SelectRoutedOwner;
    hide IsBaseline;
    hide IsFavourite;
    hide ScanBest;
    hide RankedEligible;
    var s := RankedEligible(cfg, env, allowed, req);
    SelectedIsChosen(cfg, env, allowed, req, duplicate);
    HeadIsBaseline(cfg, env, allowed, req);
    if cfg.adaptive.enabled && env.preferences.Some? {
      var prefs := env.preferences.value;
      var best := ScanBest(cfg, prefs, req.taskClass, req.domains, s);
      forall p: Candidate ensures IsFavourite(cfg, env, allowed, req, prefs, p) <==> best.candidate == Some(p) && !best.tie {
        FavouriteFound(cfg, env, allowed, req, prefs, p);
      }
    }
    assert Chosen(cfg, env, req, s) < |cfg.agents|;
  }

  lemma BaselineUnique(cfg: Config, env: Environment, allowed: seq<AgentName>, req: Request, a: Candidate, b: Candidate)
    requires IsBaseline(cfg, env, allowed, req, a) && IsBaseline(cfg, env, allowed, req, b)
    ensures a == b
  {
  }
}
