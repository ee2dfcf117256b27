/** Exactly when routing succeeds. */
module RoutingSuccess {
  import opened Wrappers
  import opened Text
  import opened Protocol
  import opened Routing
  import opened RoutingFacts
  import opened Team
  import Domains

  /** What the configuration loader guarantees. */
  ghost predicate Loaded(cfg: Config) {
    && DistinctNames(cfg)
    && forall a :: a in cfg.agents ==> !Blank(a.name) && TargetKnown(cfg, a) && !Blank(TargetName(a))
  }

  /** An allowed owner of the class whose target blocks routing. */
  ghost predicate Blocked(cfg: Config, env: Environment, allowed: seq<AgentName>, req: Request, c: Candidate) {
    c < |cfg.agents| && KindMatches(cfg.agents[c], allowed, req.taskClass) && !Available(env, cfg.agents[c])
  }

  // ------------------------------------------------ one list of exclusions

  ghost predicate Ascending(s: seq<Candidate>) {
    forall i, j :: 0 <= i < j < |s| ==> s[i] < s[j]
  }

  /** c is the first blocked candidate of s with its name and target key. */
  ghost predicate Listed(cfg: Config, env: Environment, s: seq<Candidate>, c: Candidate)
    requires InRange(cfg, s)
  {
    && c in s && !Available(env, cfg.agents[c])
    && forall d: Candidate :: d in s && d < c && !Available(env, cfg.agents[d]) ==> SeenKey(cfg.agents[d]) != SeenKey(cfg.agents[c])
  }

  /** The candidates the exclusions stand for, in order. */
  function Culprits(cfg: Config, env: Environment, s: seq<Candidate>): (r: seq<Candidate>)
    requires InRange(cfg, s)
    ensures InRange(cfg, r)
  {
    if s == [] then []
    else
      var front, last := s[..|s| - 1], s[|s| - 1];
      if !Available(env, cfg.agents[last]) && SeenKey(cfg.agents[last]) !in SeenKeys(cfg, env, front)
      then Culprits(cfg, env, front) + [last]
      else Culprits(cfg, env, front)
  }

  function ExclusionsOf(cfg: Config, env: Environment, s: seq<Candidate>): seq<Exclusion>
    requires InRange(cfg, s)
  {
    seq(|s|, i requires 0 <= i < |s| => ExclusionOf(env, cfg.agents[s[i]]))
  }

  lemma {:induction false} SeenMeans(cfg: Config, env: Environment, s: seq<Candidate>, key: string)
    requires InRange(cfg, s)
    ensures key in SeenKeys(cfg, env, s)
            <==> exists c: Candidate :: c in s && !Available(env, cfg.agents[c]) && SeenKey(cfg.agents[c]) == key
  {
    hide Available;
    hide TargetName;
    if s != [] {
      var last, front := s[|s| - 1], s[..|s| - 1];
      assert s == front + [last];
      SeenMeans(cfg, env, front, key);
    }
  }

  /** The filter lists, in order, exactly the first blocked candidate of every name and target key. */
  lemma {:induction false} ExcludedMembers(cfg: Config, env: Environment, s: seq<Candidate>)
    requires InRange(cfg, s) && Ascending(s)
    ensures var r := Culprits(cfg, env, s);
            && Excluded(cfg, env, s) == ExclusionsOf(cfg, env, r) && Ascending(r)
            && forall c: Candidate :: c in r <==> Listed(cfg, env, s, c)
  {
    hide Available;
    hide ExclusionOf;
    hide SeenKey;
    if s != [] {
      var last, front := s[|s| - 1], s[..|s| - 1];
      ExcludedMembers(cfg, env, front);
      ListedAgain(cfg, env, s);
      hide Listed;
      var r, r' := Culprits(cfg, env, front), Culprits(cfg, env, s);
      forall i | 0 <= i < |r| ensures r[i] < last { assert Listed(cfg, env, front, r[i]); }
      if Listed(cfg, env, s, last) {
        assert r' == r + [last];
        assert Excluded(cfg, env, s) == Excluded(cfg, env, front) + [ExclusionOf(env, cfg.agents[last])];
        assert ExclusionsOf(cfg, env, r') == ExclusionsOf(cfg, env, r) + [ExclusionOf(env, cfg.agents[last])];
      } else {
        assert r' == r;
      }
    }
  }

  lemma ListedAgain(cfg: Config, env: Environment, s: seq<Candidate>)
    requires InRange(cfg, s) && Ascending(s) && s != []
    ensures var last, front := s[|s| - 1], s[..|s| - 1];
            && (forall c: Candidate :: Listed(cfg, env, s, c) <==> Listed(cfg, env, front, c) || (c == last && Listed(cfg, env, s, c)))
            && (forall c: Candidate :: Listed(cfg, env, front, c) ==> c < last)
            && (Listed(cfg, env, s, last)
                <==> !Available(env, cfg.agents[last]) && SeenKey(cfg.agents[last]) !in SeenKeys(cfg, env, front))
  {
    hide Available;
    hide SeenKey;
    hide SeenKeys;
    var last, front := s[|s| - 1], s[..|s| - 1];
    assert s == front + [last];
    SeenMeans(cfg, env, front, SeenKey(cfg.agents[last]));
    forall c: Candidate | c in front ensures c < last && (Listed(cfg, env, s, c) <==> Listed(cfg, env, front, c)) {
      var i :| 0 <= i < |front| && front[i] == c;
      assert s[i] == c;
    }
  }

  // ------------------------------------------------ both lists together

  ghost predicate FirstOfKey(s: seq<Exclusion>, i: nat) {
    i < |s| && forall j :: 0 <= j < i ==> ExclusionKey(s[j]) != ExclusionKey(s[i])
  }

  lemma {:induction false} UniqueMembers(s: seq<Exclusion>, e: Exclusion)
    ensures e in UniqueExclusions(s) <==> exists i: nat :: FirstOfKey(s, i) && s[i] == e
  {
    hide ExclusionKey;
    if s != [] {
      var last, front := s[|s| - 1], s[..|s| - 1];
      assert s == front + [last];
      UniqueMembers(front, e);
      forall i: nat | i < |front| ensures FirstOfKey(front, i) <==> FirstOfKey(s, i) {}
      assert FirstOfKey(s, |front|) <==> !exists i :: 0 <= i < |front| && ExclusionKey(front[i]) == ExclusionKey(last);
    }
  }

  function KeyFor(env: Environment, a: Agent): string {
    ExclusionKey(ExclusionOf(env, a))
  }

  /** The exclusion of c survives in the joined list: no exclusion before it has the same key. */
  ghost predicate Shown(cfg: Config, env: Environment, kind: seq<Candidate>, domain: seq<Candidate>, c: Candidate)
    requires InRange(cfg, kind) && InRange(cfg, domain)
  {
    || (Listed(cfg, env, kind, c)
        && forall d: Candidate :: Listed(cfg, env, kind, d) && d < c ==> KeyFor(env, cfg.agents[d]) != KeyFor(env, cfg.agents[c]))
    || (Listed(cfg, env, domain, c)
        && (forall d: Candidate :: Listed(cfg, env, kind, d) ==> KeyFor(env, cfg.agents[d]) != KeyFor(env, cfg.agents[c]))
        && forall d: Candidate :: Listed(cfg, env, domain, d) && d < c ==> KeyFor(env, cfg.agents[d]) != KeyFor(env, cfg.agents[c]))
  }

  /** The joined list as candidates. */
  function Joined(cfg: Config, env: Environment, kind: seq<Candidate>, domain: seq<Candidate>): (r: seq<Candidate>)
    requires InRange(cfg, kind) && InRange(cfg, domain)
    ensures InRange(cfg, r)
  {
    Culprits(cfg, env, kind) + Culprits(cfg, env, domain)
  }

  lemma JoinedAre(cfg: Config, env: Environment, kind: seq<Candidate>, domain: seq<Candidate>)
    requires InRange(cfg, kind) && InRange(cfg, domain) && Ascending(kind) && Ascending(domain)
    ensures Excluded(cfg, env, kind) + Excluded(cfg, env, domain) == ExclusionsOf(cfg, env, Joined(cfg, env, kind, domain))
  {
    hide Listed;
    hide ExclusionOf;
    hide Excluded;
    hide Culprits;
    ExcludedMembers(cfg, env, kind);
    ExcludedMembers(cfg, env, domain);
  }

  lemma FirstIsShown(cfg: Config, env: Environment, kind: seq<Candidate>, domain: seq<Candidate>, i: nat)
    requires InRange(cfg, kind) && InRange(cfg, domain) && Ascending(kind) && Ascending(domain)
    requires i < |Joined(cfg, env, kind, domain)|
    requires var s := Joined(cfg, env, kind, domain);
             forall j :: 0 <= j < i ==> KeyFor(env, cfg.agents[s[j]]) != KeyFor(env, cfg.agents[s[i]])
    ensures Shown(cfg, env, kind, domain, Joined(cfg, env, kind, domain)[i])
  {
    hide KeyFor;
    hide Listed;
    hide Culprits;
    hide Excluded;
    hide ExclusionsOf;
    var k, d, s := Culprits(cfg, env, kind), Culprits(cfg, env, domain), Joined(cfg, env, kind, domain);
    ExcludedMembers(cfg, env, kind);
    ExcludedMembers(cfg, env, domain);
    var c := s[i];
    forall b: Candidate | Listed(cfg, env, kind, b) && (i < |k| ==> b < c) ensures KeyFor(env, cfg.agents[b]) != KeyFor(env, cfg.agents[c]) {
      var j :| 0 <= j < |k| && k[j] == b;
      assert s[j] == b;
    }
    forall b: Candidate | i >= |k| && Listed(cfg, env, domain, b) && b < c ensures KeyFor(env, cfg.agents[b]) != KeyFor(env, cfg.agents[c]) {
      var j :| 0 <= j < |d| && d[j] == b;
      assert s[|k| + j] == b;
    }
  }

  lemma ShownIsFirst(cfg: Config, env: Environment, kind: seq<Candidate>, domain: seq<Candidate>, c: Candidate) returns (i: nat)
    requires InRange(cfg, kind) && InRange(cfg, domain) && Ascending(kind) && Ascending(domain)
    requires c < |cfg.agents| && Shown(cfg, env, kind, domain, c)
    ensures i < |Joined(cfg, env, kind, domain)| && Joined(cfg, env, kind, domain)[i] == c
    ensures var s := Joined(cfg, env, kind, domain);
            forall j :: 0 <= j < i ==> KeyFor(env, cfg.agents[s[j]]) != KeyFor(env, cfg.agents[c])
  {
    hide KeyFor;
    hide Listed;
    hide Culprits;
    hide Excluded;
    hide ExclusionsOf;
    var k, d, s := Culprits(cfg, env, kind), Culprits(cfg, env, domain), Joined(cfg, env, kind, domain);
    ExcludedMembers(cfg, env, kind);
    ExcludedMembers(cfg, env, domain);
    if Listed(cfg, env, kind, c)
       && forall b: Candidate :: Listed(cfg, env, kind, b) && b < c ==> KeyFor(env, cfg.agents[b]) != KeyFor(env, cfg.agents[c])
    {
      i :| 0 <= i < |k| && k[i] == c;
    } else {
      var j :| 0 <= j < |d| && d[j] == c;
      i := |k| + j;
    }
    forall j | 0 <= j < i ensures KeyFor(env, cfg.agents[s[j]]) != KeyFor(env, cfg.agents[c]) {
      if j < |k| { assert s[j] in k; } else { assert s[j] in d; }
    }
  }

  /** The final list names exactly the candidates whose exclusion no earlier one hides. */
  lemma ShownMembers(cfg: Config, env: Environment, kind: seq<Candidate>, domain: seq<Candidate>, e: Exclusion)
    requires InRange(cfg, kind) && InRange(cfg, domain) && Ascending(kind) && Ascending(domain)
    ensures e in UniqueExclusions(Excluded(cfg, env, kind) + Excluded(cfg, env, domain))
            <==> exists c: Candidate :: c < |cfg.agents| && Shown(cfg, env, kind, domain, c) && ExclusionOf(env, cfg.agents[c]) == e
  {
    hide ExclusionKey;
    hide ExclusionOf;
    hide Shown;
    hide Joined;
    hide Excluded;
    hide UniqueExclusions;
    var s := Joined(cfg, env, kind, domain);
    var all := ExclusionsOf(cfg, env, s);
    JoinedAre(cfg, env, kind, domain);
    UniqueMembers(all, e);
    forall i: nat | FirstOfKey(all, i) && all[i] == e ensures Shown(cfg, env, kind, domain, s[i]) {
      forall j | 0 <= j < i ensures KeyFor(env, cfg.agents[s[j]]) != KeyFor(env, cfg.agents[s[i]]) {
        assert ExclusionKey(all[j]) != ExclusionKey(all[i]);
      }
      FirstIsShown(cfg, env, kind, domain, i);
    }
    forall c: Candidate | c < |cfg.agents| && Shown(cfg, env, kind, domain, c) && ExclusionOf(env, cfg.agents[c]) == e
      ensures exists i: nat :: FirstOfKey(all, i) && all[i] == e
    {
      var i := ShownIsFirst(cfg, env, kind, domain, c);
      assert FirstOfKey(all, i);
    }
  }

  // ------------------------------------------------ what is reported

  /** The blocked target of c appears among the exclusions of a route decision. */
  ghost predicate Reported(cfg: Config, env: Environment, allowed: seq<AgentName>, req: Request, c: Candidate) {
    c < |cfg.agents|
    && var kind := KindCandidates(cfg, allowed, req.taskClass, |cfg.agents|);
       Shown(cfg, env, kind, Covering(cfg, kind, req.domains), c)
  }

  lemma {:induction false} KindAscending(cfg: Config, allowed: seq<AgentName>, cls: TaskClass, n: nat)
    requires n <= |cfg.agents|
    ensures Ascending(KindCandidates(cfg, allowed, cls, n))
  {
    hide KindMatches;
    if n > 0 {
      KindAscending(cfg, allowed, cls, n - 1);
      var front := KindCandidates(cfg, allowed, cls, n - 1);
      assert Ascending(front + [n - 1]);
    }
  }

  lemma {:induction false} CoveringAscending(cfg: Config, s: seq<Candidate>, domains: seq<string>)
    requires InRange(cfg, s) && Ascending(s)
    ensures Ascending(Covering(cfg, s, domains))
  {
    hide Covers;
    if s != [] {
      var last, front := s[|s| - 1], s[..|s| - 1];
      CoveringAscending(cfg, front, domains);
      CoveringMembers(cfg, front, domains);
      var r := Covering(cfg, front, domains);
      forall i | 0 <= i < |r| ensures r[i] < last {
        assert r[i] in front;
      }
      assert Ascending(r + [last]);
    }
  }

  lemma ExclusionValidity(cfg: Config, env: Environment, c: Candidate)
    requires Loaded(cfg) && c < |cfg.agents|
    ensures ExclusionValid(ExclusionOf(env, cfg.agents[c])) <==> !Blank(HealthOf(env, cfg.agents[c]).summary)
  {
    hide Blank;
    hide TargetKnown;
    hide TargetName;
    assert cfg.agents[c] in cfg.agents;
    forall a ensures !Blank(AvailabilityName(a)) {
      VisibleHead(AvailabilityName(a));
    }
  }

  /** All listed exclusions carry a reason exactly when every reported target has a summary. */
  lemma ExclusionsValid(cfg: Config, env: Environment, allowed: seq<AgentName>, req: Request)
    requires Loaded(cfg)
    ensures var kind := KindCandidates(cfg, allowed, req.taskClass, |cfg.agents|);
            var domain := Covering(cfg, kind, req.domains);
            (forall e :: e in UniqueExclusions(Excluded(cfg, env, kind) + Excluded(cfg, env, domain)) ==> ExclusionValid(e))
            <==> (forall c: Candidate :: Reported(cfg, env, allowed, req, c) ==> !Blank(HealthOf(env, cfg.agents[c]).summary))
  {
    hide Blank;
    hide ExclusionOf;
    hide ExclusionValid;
    hide UniqueExclusions;
    hide Excluded;
    hide Loaded;
    hide HealthOf;
    hide KindCandidates;
    hide Covering;
    hide Shown;
    var kind := KindCandidates(cfg, allowed, req.taskClass, |cfg.agents|);
    var domain := Covering(cfg, kind, req.domains);
    var listed := UniqueExclusions(Excluded(cfg, env, kind) + Excluded(cfg, env, domain));
    KindAscending(cfg, allowed, req.taskClass, |cfg.agents|);
    CoveringAscending(cfg, kind, req.domains);
    forall e ensures e in listed <==> exists c: Candidate :: Reported(cfg, env, allowed, req, c) && ExclusionOf(env, cfg.agents[c]) == e {
      ShownMembers(cfg, env, kind, domain, e);
    }
    forall c: Candidate | Reported(cfg, env, allowed, req, c)
      ensures ExclusionValid(ExclusionOf(env, cfg.agents[c])) <==> !Blank(HealthOf(env, cfg.agents[c]).summary)
      ensures ExclusionOf(env, cfg.agents[c]) in listed
    {
      ExclusionValidity(cfg, env, c);
    }
  }

  // ------------------------------------------------ names without bars

  lemma SameAgent(cfg: Config, c: Candidate, d: Candidate, t: string, u: string)
    requires DistinctNames(cfg) && c < |cfg.agents| && d < |cfg.agents|
    requires forall a :: a in cfg.agents ==> '|' !in a.name
    requires cfg.agents[c].name + "|" + t == cfg.agents[d].name + "|" + u
    ensures c == d
  {
    assert cfg.agents[c] in cfg.agents && cfg.agents[d] in cfg.agents;
    assert c != d ==> cfg.agents[c].name != cfg.agents[d].name;
    Domains.SplitUnique(cfg.agents[c].name, t, cfg.agents[d].name, u, '|');
  }

  lemma KeySplits(e: Exclusion)
    ensures exists rest :: ExclusionKey(e) == e.owner + "|" + rest
  {
    assert ExclusionKey(e) == e.owner + "|" + Domains.Join([e.owner, e.target, e.status, e.reason][1..], "|");
  }

  lemma KeysDiffer(cfg: Config, env: Environment, c: Candidate, d: Candidate)
    requires DistinctNames(cfg) && c < |cfg.agents| && d < |cfg.agents| && c != d
    requires forall a :: a in cfg.agents ==> '|' !in a.name
    ensures SeenKey(cfg.agents[c]) != SeenKey(cfg.agents[d])
    ensures KeyFor(env, cfg.agents[c]) != KeyFor(env, cfg.agents[d])
  {
    hide ExclusionKey;
    hide TargetName;
    hide HealthOf;
    hide DistinctNames;
    if SeenKey(cfg.agents[c]) == SeenKey(cfg.agents[d]) {
      SameAgent(cfg, c, d, TargetName(cfg.agents[c]), TargetName(cfg.agents[d]));
    }
    var e, f := ExclusionOf(env, cfg.agents[c]), ExclusionOf(env, cfg.agents[d]);
    KeySplits(e);
    KeySplits(f);
    var x :| ExclusionKey(e) == e.owner + "|" + x;
    var y :| ExclusionKey(f) == f.owner + "|" + y;
    if ExclusionKey(e) == ExclusionKey(f) { SameAgent(cfg, c, d, x, y); }
  }

  /** With no bar in a name, every blocked target of an allowed owner of the class is reported. */
  lemma AllReported(cfg: Config, env: Environment, allowed: seq<AgentName>, req: Request, c: Candidate)
    requires DistinctNames(cfg) && forall a :: a in cfg.agents ==> '|' !in a.name
    ensures Reported(cfg, env, allowed, req, c) <==> Blocked(cfg, env, allowed, req, c)
  {
    hide KindMatches;
    hide Available;
    hide SeenKey;
    hide KeyFor;
    hide Covers;
    hide DistinctNames;
    var kind := KindCandidates(cfg, allowed, req.taskClass, |cfg.agents|);
    KindMembers(cfg, allowed, req.taskClass, |cfg.agents|);
    CoveringMembers(cfg, kind, req.domains);
    if c < |cfg.agents| {
      forall d: Candidate | d < |cfg.agents| && d != c
        ensures SeenKey(cfg.agents[d]) != SeenKey(cfg.agents[c]) && KeyFor(env, cfg.agents[d]) != KeyFor(env, cfg.agents[c])
      {
        KeysDiffer(cfg, env, d, c);
      }
    }
  }

  // ------------------------------------------------ the decision

  lemma {:induction false} MatchIsMember(prefs: seq<Preference>, key: string)
    requires MatchFrom(prefs, key).Some?
    ensures MatchFrom(prefs, key).value in prefs
  {
    if prefs[0].key != key { MatchIsMember(prefs[1..], key); }
  }

  lemma ExplanationValid(cfg: Config, prefs: seq<Preference>, req: Request, s: seq<Candidate>)
    requires Loaded(cfg) && InRange(cfg, s) && s != [] && PreferencesValid(prefs)
    ensures var a := Explain(cfg, prefs, req.taskClass, req.domains, s[0], s);
            a.Some? ==> AdaptiveValid(a.value)
  {
    hide Blank;
    hide EvidenceListValid;
    hide Domains.Normalize;
    hide Domains.PreferenceKey;
    hide ScanBest;
    hide TargetKnown;
    ScanBestInRange(cfg, prefs, req.taskClass, req.domains, s);
    var b := ScanBest(cfg, prefs, req.taskClass, req.domains, s);
    if b.candidate.Some? {
      MatchIsMember(prefs, Domains.PreferenceKey(ClassName(req.taskClass), req.domains, cfg.agents[b.candidate.value].name));
      VisibleHead(Explanation(cfg, req.taskClass, req.domains, s[0], b.candidate.value, b.preference.value).reason);
      assert cfg.agents[s[0]] in cfg.agents;
    }
  }

  lemma FixedTextVisible(duplicate: Option<TaskId>)
    ensures !Blank("selected") && !Blank("route_priority desc, config_order asc") && !Blank(DuplicateStatus(duplicate))
  {
    hide Blank;
    VisibleHead("selected");
    VisibleHead("route_priority desc, config_order asc");
    VisibleHead(DuplicateStatus(duplicate));
  }

  ghost predicate PreferencesUsable(cfg: Config, env: Environment) {
    cfg.adaptive.enabled && env.preferences.Some? ==> PreferencesValid(env.preferences.value)
  }

  /** Routing without an override succeeds exactly when there is an eligible owner, the stored preferences
      in use are valid, and every reported target has a summary. */
  lemma RoutingSucceedsExactly(cfg: Config, env: Environment, allowed: seq<AgentName>, req: Request,
                               duplicate: Option<TaskId>)
    requires Loaded(cfg) && req.ownerOverride == ""
    requires duplicate.Some? ==> Generated(duplicate.value)
    ensures SelectRoutedOwner(cfg, env, allowed, req, duplicate).Success?
            <==> (exists c :: Eligible(cfg, env, allowed, req, c))
                 && PreferencesUsable(cfg, env)
                 && forall c: Candidate :: Reported(cfg, env, allowed, req, c) ==> !Blank(HealthOf(env, cfg.agents[c]).summary)
  {
    hide Blank;
    hide Eligible;
    hide Reported;
    hide HealthOf;
    hide UniqueExclusions;
    hide Excluded;
    hide ExclusionValid;
    hide AdaptiveValid;
    hide Explain;
    hide FirstNamed;
    hide PreferencesValid;
    var kind := KindCandidates(cfg, allowed, req.taskClass, |cfg.agents|);
    var s := RankedEligible(cfg, env, allowed, req);
    RankedEligibleMembers(cfg, env, allowed, req);
    ExclusionsValid(cfg, env, allowed, req);
    FixedTextVisible(duplicate);
    forall i | 0 <= i < |kind| ensures TargetKnown(cfg, cfg.agents[kind[i]]) {
      assert cfg.agents[kind[i]] in cfg.agents;
    }
    if s != [] {
      assert s[0] in s;
      if env.preferences.Some? && PreferencesValid(env.preferences.value) {
        ExplanationValid(cfg, env.preferences.value, req, s);
      }
    }
    SelectedValidity(cfg, env, allowed, req, duplicate, s);
  }

  /** Once targets are known, the outcome depends only on the ranked list and the exclusions. */
  lemma SelectedValidity(cfg: Config, env: Environment, allowed: seq<AgentName>, req: Request,
                         duplicate: Option<TaskId>, s: seq<Candidate>)
    requires Loaded(cfg) && req.ownerOverride == "" && s == RankedEligible(cfg, env, allowed, req)
    requires duplicate.Some? ==> Generated(duplicate.value)
    requires AllTargetsKnown(cfg, KindCandidates(cfg, allowed, req.taskClass, |cfg.agents|))
    requires s != [] && env.preferences.Some? && PreferencesValid(env.preferences.value) ==>
               var a := Explain(cfg, env.preferences.value, req.taskClass, req.domains, s[0], s);
               a.Some? ==> AdaptiveValid(a.value)
    ensures var kind := KindCandidates(cfg, allowed, req.taskClass, |cfg.agents|);
            var domain := Covering(cfg, kind, req.domains);
            var excluded := UniqueExclusions(Excluded(cfg, env, kind) + Excluded(cfg, env, domain));
            SelectRoutedOwner(cfg, env, allowed, req, duplicate).Success?
            <==> s != [] && PreferencesUsable(cfg, env) && forall e :: e in excluded ==> ExclusionValid(e)
  {
    hide Blank;
    hide UniqueExclusions;
    hide Excluded;
    hide ExclusionValid;
    hide AdaptiveValid;
    hide Explain;
    hide FirstNamed;
    hide PreferencesValid;
    hide Covering;
    hide KindCandidates;
    hide Filtered;
    hide Rank;
    hide RejectionOf;
    hide TargetKnown;
    hide TargetName;
    FixedTextVisible(duplicate);
    assert forall c: Candidate :: c < |cfg.agents| ==> cfg.agents[c] in cfg.agents;
  }

  // ------------------------------------------------ a name with a bar

  /** A blocked candidate behind one with the same name and target key goes unreported. */
  lemma HiddenBehind(cfg: Config, env: Environment, allowed: seq<AgentName>, req: Request, c: Candidate, d: Candidate)
    requires c < d && Blocked(cfg, env, allowed, req, c) && Blocked(cfg, env, allowed, req, d)
    requires SeenKey(cfg.agents[c]) == SeenKey(cfg.agents[d])
    requires Covers(cfg.agents[d], req.domains) ==> Covers(cfg.agents[c], req.domains)
    ensures !Reported(cfg, env, allowed, req, d)
  {
    hide KindMatches;
    hide Available;
    hide SeenKey;
    hide KeyFor;
    hide Covers;
    KindMembers(cfg, allowed, req.taskClass, |cfg.agents|);
    CoveringMembers(cfg, KindCandidates(cfg, allowed, req.taskClass, |cfg.agents|), req.domains);
  }

  const BARRED: seq<AgentName> := ["a", "a|b", "w"]

  /** Three implementers: on target `b|c`, on target `c`, and on the local target. */
  function BarConfig(): Config {
    Config([Agent(BARRED[0], "a1", Some(Implementation), CORE, 0, "b|c", []),
            Agent(BARRED[1], "a2", Some(Implementation), CORE, 0, "c", []),
            Agent(BARRED[2], "a3", Some(Implementation), CORE, 0, "", [])],
           ["b|c", "c"], {}, 1, map[], AdaptiveConfig(false, 0, 0, 0, 0, 0, 0, []))
  }

  /** Both named targets are offline; only the first says why. */
  function BarHealth(): Environment {
    Environment(map["b|c" := Health(Offline, "down"), "c" := Health(Offline, "")], None)
  }

  lemma BarTargets()
    ensures var a := BarConfig().agents;
            TargetName(a[0]) == "b|c" && TargetName(a[1]) == "c" && TargetName(a[2]) == "local"
    ensures forall i :: 0 <= i < 3 ==> TargetKnown(BarConfig(), BarConfig().agents[i])
  {
    Unspaced("b|c");
    Unspaced("c");
    NoTarget();
    hide Trim;
    hide Blank;
  }

  lemma BarLoaded()
    ensures Loaded(BarConfig())
  {
    BarTargets();
    VisibleHead("a");
    VisibleHead("a|b");
    VisibleHead("w");
    VisibleHead("b|c");
    VisibleHead("c");
    VisibleHead("local");
    hide Blank;
    hide TargetName;
    hide TargetKnown;
    assert BARRED[0] != BARRED[1] by { assert |BARRED[0]| != |BARRED[1]|; }
    assert BARRED[1] != BARRED[2] by { assert |BARRED[1]| != |BARRED[2]|; }
    assert BARRED[0] != BARRED[2] by { assert BARRED[0][0] != BARRED[2][0]; }
  }

  lemma DownShown()
    ensures !Blank("down")
  {
    VisibleHead("down");
  }

  lemma BarFacts(req: Request)
    requires req.taskClass == Implementation && req.domains == CORE
    ensures var cfg, env := BarConfig(), BarHealth();
            && Blocked(cfg, env, BARRED, req, 0) && Blocked(cfg, env, BARRED, req, 1) && !Blocked(cfg, env, BARRED, req, 2)
            && Eligible(cfg, env, BARRED, req, 2) && Covers(cfg.agents[0], CORE)
            && HealthOf(env, cfg.agents[0]).summary == "down" && HealthOf(env, cfg.agents[1]).summary == ""
            && SeenKey(cfg.agents[0]) == SeenKey(cfg.agents[1])
  {
    BarTargets();
    CoreIsNormal();
    hide TargetName;
    hide Domains.Normalize;
    var a := BarConfig().agents;
    assert a[0].name in BARRED && a[1].name in BARRED && a[2].name in BARRED;
    assert a[0].name + "|" + "b|c" == a[1].name + "|" + "c";
  }

  /** The condition on reports cannot be put on blocked targets: here a blocked target has no summary, its
      report is hidden by a name with a bar, and routing succeeds. */
  lemma BarHidesTarget(req: Request)
    requires req.taskClass == Implementation && req.domains == CORE && req.ownerOverride == ""
    ensures Loaded(BarConfig()) && Blocked(BarConfig(), BarHealth(), BARRED, req, 1)
    ensures Blank(HealthOf(BarHealth(), BarConfig().agents[1]).summary)
    ensures SelectRoutedOwner(BarConfig(), BarHealth(), BARRED, req, None).Success?
  {
    hide Loaded;
    hide Blank;
    hide Blocked;
    hide Reported;
    hide Eligible;
    hide Covers;
    hide SeenKey;
    hide HealthOf;
    hide SelectRoutedOwner;
    var cfg, env := BarConfig(), BarHealth();
    BarLoaded();
    BarFacts(req);
    NoTarget();
    DownShown();
    HiddenBehind(cfg, env, BARRED, req, 0, 1);
    RoutingSucceedsExactly(cfg, env, BARRED, req, None);
    forall c: Candidate | Reported(cfg, env, BARRED, req, c) ensures c == 0 {
      ReportedIsBlocked(cfg, env, BARRED, req, c);
      assert c < 3 && c != 1 && c != 2;
    }
  }

  lemma ReportedIsBlocked(cfg: Config, env: Environment, allowed: seq<AgentName>, req: Request, c: Candidate)
    requires Reported(cfg, env, allowed, req, c)
    ensures c < |cfg.agents| && Blocked(cfg, env, allowed, req, c)
  {
    hide KindMatches;
    hide Available;
    hide SeenKey;
    hide KeyFor;
    hide Covers;
    KindMembers(cfg, allowed, req.taskClass, |cfg.agents|);
    CoveringMembers(cfg, KindCandidates(cfg, allowed, req.taskClass, |cfg.agents|), req.domains);
  }
}
