/** A small team on which single commands can be followed: a coordinator, one implementer and one reviewer. */
module Team {
  import opened Wrappers
  import opened Text
  import opened Protocol
  import opened Routing
  import opened Coordinator
  import opened Invariant
  import opened TaskSteps
  import opened CaseWrites
  import Domains
  import Ids

  const CORE: seq<string> := ["core"]

  function Lead(): Agent {
    Agent("lead", "l", Some(Research), CORE, 0, "", ["ann", "rev"])
  }

  function Ann(): Agent {
    Agent("ann", "a", Some(Implementation), CORE, 0, "", [])
  }

  function Rev(): Agent {
    Agent("rev", "r", Some(Review), CORE, 0, "", [])
  }

  function TeamConfig(): Config {
    Config([Lead(), Ann(), Rev()], [], {}, 1, map[], AdaptiveConfig(false, 0, 0, 0, 0, 0, 0, []))
  }

  /** No target has reported, and no preferences are stored. */
  function Quiet(): Environment {
    Environment(map[], None)
  }

  const OWNERS: seq<string> := ["ann", "rev"]

  function OwnerFor(c: TaskClass): AgentName {
    if c == Review then "rev" else "ann"
  }

  // ------------------------------------------------------------- strings

  lemma Unspaced(s: string)
    requires s != "" && !IsSpace(s[0]) && !IsSpace(s[|s| - 1])
    ensures Trim(s) == s && !Blank(s)
  {
    hide IsSpace;
    VisibleHead(s);
  }

  lemma NoTarget()
    ensures Blank("")
  {
  }

  lemma CoreIsNormal()
    ensures Domains.Normalize(CORE) == Success(CORE)
  {
    assert Domains.Normal(CORE);
    Domains.NormalizeFixpoints(CORE);
  }

  lemma Edges(key: string, front: string, back: string)
    requires key == "run_" + back && key == front + "core"
    ensures Trim(key) == key && !Blank(key)
  {
    hide Trim;
    hide Blank;
    Unspaced(key);
  }

  lemma KeyVisible(c: TaskClass)
    ensures var key := KeyOf(1, c, CORE); Trim(key) == key && !Blank(key)
  {
    hide Trim;
    hide Blank;
    hide Ids.Padded;
    var id, name := Ids.Padded(1, 12), ClassName(c);
    hide ClassName;
    var back := id + "|" + name + "|" + "core";
    var front := "run_" + id + "|" + name + "|";
    assert Domains.Join(CORE, ",") == "core";
    assert "run_" + back == front + "core";
    Edges("run_" + back, front, back);
  }

  // --------------------------------------------------------- the choice

  function Place(c: TaskClass): Candidate {
    if c == Review then 2 else 1
  }

  lemma OfKind(c: TaskClass)
    requires c == Implementation || c == Review
    ensures KindCandidates(TeamConfig(), OWNERS, c, 3) == [Place(c)]
  {
    var cfg := TeamConfig();
    assert KindCandidates(cfg, OWNERS, c, 0) == [];
    assert !KindMatches(cfg.agents[0], OWNERS, c);
    assert KindCandidates(cfg, OWNERS, c, 1) == [];
    assert KindMatches(cfg.agents[1], OWNERS, c) <==> c == Implementation;
    assert KindMatches(cfg.agents[2], OWNERS, c) <==> c == Review;
    hide KindMatches;
    assert KindCandidates(cfg, OWNERS, c, 2) == if c == Review then [] else [1];
  }

  /** A list of one candidate goes through every stage as it is. */
  lemma OneCandidate(c: TaskClass)
    requires c == Implementation || c == Review
    ensures var i := Place(c);
            && Covering(TeamConfig(), [i], CORE) == [i] && Filtered(TeamConfig(), Quiet(), [i]) == [i]
            && Excluded(TeamConfig(), Quiet(), [i]) == [] && Rank(TeamConfig(), [i]) == [i]
            && AllTargetsKnown(TeamConfig(), [i])
  {
    var i, cfg := Place(c), TeamConfig();
    NoTarget();
    CoreIsNormal();
    hide Blank;
    hide Domains.Normalize;
    assert [i][..0] == [];
    assert cfg.agents[i].domains == CORE && cfg.agents[i].target == "";
    assert Covers(cfg.agents[i], CORE);
    assert TargetName(cfg.agents[i]) == "local" && "local" !in Quiet().health;
    assert Available(Quiet(), cfg.agents[i]) && TargetKnown(cfg, cfg.agents[i]);
    hide Covers;
    hide Available;
    hide TargetKnown;
    hide SeenKeys;
  }

  function TeamDecision(c: TaskClass): RoutingDecision {
    RoutingDecision("selected", OwnerFor(c), [OwnerFor(c)], "route_priority desc, config_order asc", "unique", None, [], [], None)
  }

  lemma DecisionIsValid(c: TaskClass)
    ensures DecisionValid(TeamDecision(c)) && Trim("selected") == "selected"
  {
    Unspaced("selected");
    hide Trim;
    hide Blank;
    VisibleHead("selected");
    VisibleHead("route_priority desc, config_order asc");
    VisibleHead("unique");
    VisibleHead(OwnerFor(c));
  }

  lemma TeamChoice(c: TaskClass, req: Request)
    requires (c == Implementation || c == Review) && req.taskClass == c && req.domains == CORE && req.ownerOverride == ""
    ensures SelectRoutedOwner(TeamConfig(), Quiet(), OWNERS, req, None) == Success(TeamDecision(c))
  {
    hide DecisionValid;
    hide KindCandidates;
    hide Covering;
    hide Filtered;
    hide Excluded;
    hide Rank;
    hide AllTargetsKnown;
    OfKind(c);
    OneCandidate(c);
    DecisionIsValid(c);
    assert Names(TeamConfig(), [Place(c)]) == [OwnerFor(c)];
    assert UniqueExclusions([] + []) == [];
  }

  // ----------------------------------------------------------- a route

  /** A good state with the team's run. */
  ghost predicate Going(s: State) {
    Inv(s) && 1 in s.runs && s.runs[1].doc.allowedOwners == OWNERS && s.seqno < 100
  }

  function RequestFor(c: TaskClass, goal: string, output: string, review: bool): Request {
    Request(1, c, CORE, goal, output, review, "", "")
  }

  lemma NothingFound(s: State, c: TaskClass)
    requires Going(s) && NoneLive(s.runs[1].tasks, s.receipts, KeyOf(1, c, CORE))
    ensures FindActiveDuplicate(s, 1, KeyOf(1, c, CORE)) == Success(None)
  {
    hide Inv;
    hide TaskValid;
    hide Canonical;
    hide KeyOf;
    hide ReceiptFinished;
    var tasks := s.runs[1].tasks;
    forall t | t in tasks ensures TaskValid(tasks[t]) { TaskFacts(s, 1, t); }
    assert Suspects(tasks, s.receipts, KeyOf(1, c, CORE)) == {};
  }

  function RouteOf(c: TaskClass): RouteInfo {
    RouteInfo(c, CORE, CORE, KeyOf(1, c, CORE), TeamDecision(c), "")
  }

  /** A decision that is already what the second lookup records stays as it is. */
  lemma RecordedSame(s: State, cfg: Config, owner: AgentName, route: RouteInfo)
    requires FindActiveDuplicate(s, 1, route.duplicateKey) == Success(None)
    requires var d := route.decision;
             Trim(d.status) == d.status && d.selectedOwner == owner && d.duplicateStatus == "unique" && d.matched.None?
    requires Trim(route.duplicateKey) == route.duplicateKey && Trim(route.overrideReason) == route.overrideReason
    ensures RecordedRoute(s, cfg, 1, owner, Some(route)) == Success(Some(route))
  {
    hide Trim;
    hide FindActiveDuplicate;
  }

  lemma Recorded(s: State, c: TaskClass)
    requires Going(s) && NoneLive(s.runs[1].tasks, s.receipts, KeyOf(1, c, CORE))
    ensures RecordedRoute(s, TeamConfig(), 1, OwnerFor(c), Some(RouteOf(c))) == Success(Some(RouteOf(c)))
  {
    hide KeyOf;
    hide Inv;
    hide RecordedRoute;
    hide FindActiveDuplicate;
    hide DecisionValid;
    NothingFound(s, c);
    KeyVisible(c);
    DecisionIsValid(c);
    EmptyTrimmed();
    hide Trim;
    RecordedSame(s, TeamConfig(), OwnerFor(c), RouteOf(c));
  }

  lemma EmptyTrimmed()
    ensures Trim("") == ""
  {
  }

  lemma RouteIsValid(c: TaskClass)
    ensures RouteInfoValid(1, RouteOf(c))
  {
    hide KeyOf;
    CoreIsNormal();
    hide Domains.Normalize;
    DecisionIsValid(c);
    hide DecisionValid;
    assert RouteOf(c).decision.tieBreak[0] == 'r';
  }

  /** The task the route makes. */
  function TeamTask(s: State, c: TaskClass, goal: string, output: string, review: bool, now: Time): ChildTask
    requires 1 in s.runs
  {
    ChildTask(s.seqno + 1, 1, OwnerFor(c), Trim(goal), Trim(output), [], review, Some(RouteOf(c)), s.seqno + 2,
              s.runs[1].doc.rootThread, now)
  }

  lemma TeamTaskValid(s: State, c: TaskClass, goal: string, output: string, review: bool, now: Time)
    requires 1 in s.runs && s.seqno < 100 && !Blank(goal) && !Blank(output)
    ensures var t := TeamTask(s, c, goal, output, review, now); TaskValid(t) && Canonical(t) == t
  {
    hide Blank;
    hide Trim;
    hide RouteInfoValid;
    hide Domains.Normalize;
    hide KeyOf;
    OwnerShown(c);
    TrimShown(goal);
    TrimShown(output);
    RouteIsValid(c);
    CoreIsNormal();
  }

  lemma OwnerShown(c: TaskClass)
    ensures !Blank(OwnerFor(c))
  {
    VisibleHead(OwnerFor(c));
  }

  lemma TrimShown(s: string)
    ensures Blank(Trim(s)) <==> Blank(s)
  {
    TrimIdempotent(s);
    hide Trim;
  }

  /** Where nothing live has the key, the team routes. */
  lemma RouteWorks(s: State, c: TaskClass, goal: string, output: string, review: bool, now: Time)
    requires Going(s) && (c == Implementation || c == Review) && !Blank(goal) && !Blank(output)
    requires NoneLive(s.runs[1].tasks, s.receipts, KeyOf(1, c, CORE))
    ensures var o := RouteChildTask(s, TeamConfig(), Quiet(), RequestFor(c, goal, output, review), now);
            o.Ok? && Added(s, o.st, 1, o.value) && o.value == TeamTask(s, c, goal, output, review, now)
  {
    var req := RequestFor(c, goal, output, review);
    CoreIsNormal();
    NothingFound(s, c);
    TeamChoice(c, req);
    Recorded(s, c);
    TeamTaskValid(s, c, goal, output, review, now);
    RouteAdds(s, TeamConfig(), Quiet(), req, now);
    assert RunValid(s.runs[1].doc) && s.runs[1].doc.id == 1 by { RunDocOk(s); }
    NumbersFresh(s, 1, ReceiptKey(OwnerFor(c), s.seqno + 2));
    hide Inv;
    hide Added;
    hide RunValid;
    hide Blank;
    hide Trim;
    hide TaskValid;
    hide Canonical;
    hide NoneLive;
    hide Domains.Normalize;
    hide KeyOf;
    hide SelectRoutedOwner;
    hide RecordedRoute;
    hide FindActiveDuplicate;
    hide DecisionValid;
  }

  lemma RunDocOk(s: State)
    requires Inv(s) && 1 in s.runs
    ensures RunValid(s.runs[1].doc) && s.runs[1].doc.id == 1
  {
    hide RunValid;
    hide TasksOk;
    hide HandoffsOk;
    hide CasesOk;
    hide ReplansOk;
    hide ClassesKept;
    assert RunOk(1, s.runs[1], s.messages, s.receipts);
  }
}
