/** The loops that load a run graph, against the checks of RunGraph. */
module GraphLoader {
  import opened Wrappers
  import opened Protocol
  import opened Coordinator
  import opened Invariant
  import opened RunGraph

  /** The loaded graph: nodes by task, and the tasks in ascending order. */
  datatype Graph = Graph(run: CoordinatorRun, order: seq<TaskId>, nodes: map<TaskId, Node>)

  /** Every document is stored under the task it names, which the path makes so for everything this program writes. */
  predicate Filed(rd: RunDir) {
    && (forall t :: t in rd.tasks ==> rd.tasks[t].id == t)
    && (forall k :: k in rd.handoffs ==> rd.handoffs[k].sourceTask == k)
  }

  predicate Ascending(order: seq<TaskId>) {
    forall i, j :: 0 <= i < j < |order| ==> order[i] < order[j]
  }

  function Sources(replans: map<TaskId, PartialReplan>, ps: set<TaskId>, t: TaskId): set<TaskId> {
    set k | k in ps && k in replans && replans[k].replacementTask == t
  }

  /** The replan, among those at the keys in ps, whose replacement is t. */
  ghost function SourceOf(replans: map<TaskId, PartialReplan>, ps: set<TaskId>, t: TaskId): Option<TaskId> {
    if Sources(replans, ps, t) == {} then None else Some(MinOf(Sources(replans, ps, t)))
  }

  /** The node of t once the documents at the keys in hs, bs and ps are attached. */
  ghost function NodeOf(rd: RunDir, rs: Receipts, t: TaskId, hs: set<TaskId>, bs: set<TaskId>, ps: set<TaskId>): Node
    requires t in rd.tasks && KeyOfTask(rd.tasks[t]) in rs
    requires hs <= rd.handoffs.Keys && bs <= rd.cases.Keys && ps <= rd.replans.Keys
  {
    var source := SourceOf(rd.replans, ps, t);
    Node(rd.tasks[t], rs[KeyOfTask(rd.tasks[t])].folder,
         if t in hs then Some(rd.handoffs[t]) else None,
         if t in bs then Some(rd.cases[t]) else None,
         if t in ps then Some(rd.replans[t]) else None,
         source, if source.Some? && source.value in rd.replans then Some(rd.replans[source.value].supersededTask) else None)
  }

  /** What a loaded graph holds: a node for each task with everything that belongs to it. */
  ghost predicate IsGraphOf(g: Graph, rd: RunDir, rs: Receipts) {
    && g.run == rd.doc
    && Ascending(g.order) && (forall t :: t in g.order <==> t in rd.tasks)
    && g.nodes.Keys == rd.tasks.Keys
    && forall t :: t in rd.tasks ==>
         KeyOfTask(rd.tasks[t]) in rs
         && g.nodes[t] == NodeOf(rd, rs, t, rd.handoffs.Keys, rd.cases.Keys, rd.replans.Keys)
  }

  // --------------------------------------------------------- the loops

  ghost predicate NodesAre(nodes: map<TaskId, Node>, rd: RunDir, rs: Receipts, hs: set<TaskId>, bs: set<TaskId>, ps: set<TaskId>)
    requires hs <= rd.handoffs.Keys && bs <= rd.cases.Keys && ps <= rd.replans.Keys
  {
    && nodes.Keys == rd.tasks.Keys
    && forall t :: t in rd.tasks ==> KeyOfTask(rd.tasks[t]) in rs && nodes[t] == NodeOf(rd, rs, t, hs, bs, ps)
  }

  function BareNode(t: ChildTask, rs: Receipts): Node
    requires KeyOfTask(t) in rs
  {
    Node(t, rs[KeyOfTask(t)].folder, None, None, None, None, None)
  }

  /** The tasks at the keys in done are read, their nodes made and their keys listed in order. */
  ghost predicate ReadSoFar(rd: RunDir, ms: Messages, rs: Receipts, done: set<TaskId>, nodes: map<TaskId, Node>) {
    && done <= rd.tasks.Keys && nodes.Keys == done
    && forall t :: t in done ==> TaskLoads(rd.doc, rd.tasks[t], ms, rs) && nodes[t] == BareNode(rd.tasks[t], rs)
  }

  ghost predicate Listed(order: seq<TaskId>, done: set<TaskId>, remaining: set<TaskId>) {
    && Ascending(order) && (forall t :: t in order <==> t in done)
    && forall x, y :: x in done && y in remaining ==> x < y
  }

  lemma ListNext(order: seq<TaskId>, done: set<TaskId>, remaining: set<TaskId>, t: TaskId)
    requires Listed(order, done, remaining) && t in remaining && forall x :: x in remaining ==> t <= x
    ensures Listed(order + [t], done + {t}, remaining - {t})
  {
    forall i | 0 <= i < |order| ensures order[i] < t {
      assert order[i] in done;
    }
  }

  lemma ReadNext(rd: RunDir, ms: Messages, rs: Receipts, done: set<TaskId>, nodes: map<TaskId, Node>, t: TaskId)
    requires ReadSoFar(rd, ms, rs, done, nodes) && t in rd.tasks && TaskLoads(rd.doc, rd.tasks[t], ms, rs)
    ensures ReadSoFar(rd, ms, rs, done + {t}, nodes[t := BareNode(rd.tasks[t], rs)])
  {
    hide TaskValid;
  }

  lemma AllRead(rd: RunDir, ms: Messages, rs: Receipts, nodes: map<TaskId, Node>)
    requires ReadSoFar(rd, ms, rs, rd.tasks.Keys, nodes)
    ensures NodesAre(nodes, rd, rs, {}, {}, {})
    ensures forall t :: t in rd.tasks ==> TaskLoads(rd.doc, rd.tasks[t], ms, rs)
  {
    hide TaskValid;
  }

  /** Reads every task in directory order and makes its node. */
  method LoadTasks(rd: RunDir, ms: Messages, rs: Receipts) returns (ok: bool, order: seq<TaskId>, nodes: map<TaskId, Node>)
    requires Filed(rd)
    ensures ok <==> forall t :: t in rd.tasks ==> TaskLoads(rd.doc, rd.tasks[t], ms, rs)
    ensures ok ==> Ascending(order) && (forall t :: t in order <==> t in rd.tasks) && NodesAre(nodes, rd, rs, {}, {}, {})
  {
    hide TaskValid;
    hide ReadSoFar;
    hide Listed;
    hide NodesAre;
    order, nodes := [], map[];
    var remaining := rd.tasks.Keys;
    assert Listed(order, {}, remaining) && ReadSoFar(rd, ms, rs, {}, nodes) by { NothingRead(rd, ms, rs); }
    assert rd.tasks.Keys - remaining == {};
    while remaining != {}
      invariant remaining <= rd.tasks.Keys
      invariant Listed(order, rd.tasks.Keys - remaining, remaining)
      invariant ReadSoFar(rd, ms, rs, rd.tasks.Keys - remaining, nodes)
      decreases |remaining|
    {
      ghost var least := MinOf(remaining);
      var t :| t in remaining && forall x :: x in remaining ==> t <= x;
      var task := rd.tasks[t];
      if !TaskLoads(rd.doc, task, ms, rs) {
        return false, [], map[];
      }
      ghost var done := rd.tasks.Keys - remaining;
      ListNext(order, done, remaining, t);
      ReadNext(rd, ms, rs, done, nodes, t);
      nodes := nodes[task.id := BareNode(task, rs)];
      order := order + [t];
      remaining := remaining - {t};
      assert rd.tasks.Keys - remaining == done + {t};
    }
    assert rd.tasks.Keys - remaining == rd.tasks.Keys;
    AllRead(rd, ms, rs, nodes);
    ListedAll(order, rd.tasks.Keys);
    return true, order, nodes;
  }

  lemma NothingRead(rd: RunDir, ms: Messages, rs: Receipts)
    ensures Listed([], {}, rd.tasks.Keys) && ReadSoFar(rd, ms, rs, {}, map[])
  {
  }

  lemma ListedAll(order: seq<TaskId>, done: set<TaskId>)
    requires Listed(order, done, {})
    ensures Ascending(order) && (forall t :: t in order <==> t in done)
  {
  }

  method CheckDependencies(rd: RunDir, order: seq<TaskId>, nodes: map<TaskId, Node>) returns (ok: bool)
    requires (forall t :: t in order <==> t in rd.tasks) && nodes.Keys == rd.tasks.Keys
    requires forall t :: t in rd.tasks ==> nodes[t].task == rd.tasks[t]
    ensures ok <==> DepsResolved(rd)
  {
    for i := 0 to |order|
      invariant forall j :: 0 <= j < i ==> order[j] in rd.tasks && DepsLoad(rd.tasks, rd.tasks[order[j]])
    {
      var t := order[i];
      var deps := nodes[t].task.dependsOn;
      for n := 0 to |deps|
        invariant forall j :: 0 <= j < n ==> deps[j] in rd.tasks
      {
        if deps[n] !in nodes {
          assert deps[n] in rd.tasks[t].dependsOn;
          return false;
        }
      }
    }
    forall t | t in rd.tasks ensures DepsLoad(rd.tasks, rd.tasks[t]) {
      assert t in order;
    }
    return true;
  }

  lemma NodesHere(nodes: map<TaskId, Node>, rd: RunDir, rs: Receipts, hs: set<TaskId>, bs: set<TaskId>, ps: set<TaskId>)
    requires hs <= rd.handoffs.Keys && bs <= rd.cases.Keys && ps <= rd.replans.Keys
    requires NodesAre(nodes, rd, rs, hs, bs, ps)
    ensures nodes.Keys == rd.tasks.Keys
  {
  }

  lemma HandoffAttached(rd: RunDir, rs: Receipts, nodes: map<TaskId, Node>, hs: set<TaskId>, k: TaskId)
    requires hs <= rd.handoffs.Keys && k in rd.handoffs && k in rd.tasks
    requires NodesAre(nodes, rd, rs, hs, {}, {})
    ensures NodesAre(nodes[k := nodes[k].(handoff := Some(rd.handoffs[k]))], rd, rs, hs + {k}, {}, {})
  {
  }

  /** Attaches the review handoffs, in any order. */
  method AttachHandoffs(rd: RunDir, ms: Messages, rs: Receipts, before: map<TaskId, Node>)
    returns (ok: bool, nodes: map<TaskId, Node>)
    requires Filed(rd) && NodesAre(before, rd, rs, {}, {}, {})
    ensures ok <==> forall k :: k in rd.handoffs ==> HandoffLoads(rd.doc, rd.handoffs[k], rd.tasks, ms)
    ensures ok ==> NodesAre(nodes, rd, rs, rd.handoffs.Keys, {}, {})
  {
    hide HandoffValid;
    hide ReviewLoads;
    hide NodesAre;
    nodes := before;
    var remaining := rd.handoffs.Keys;
    ghost var done: set<TaskId> := {};
    while remaining != {}
      invariant remaining <= rd.handoffs.Keys && done == rd.handoffs.Keys - remaining
      invariant forall k :: k in done ==> HandoffLoads(rd.doc, rd.handoffs[k], rd.tasks, ms)
      invariant NodesAre(nodes, rd, rs, done, {}, {})
      decreases |remaining|
    {
      var k :| k in remaining;
      var handoff := rd.handoffs[k];
      if !HandoffLoads(rd.doc, handoff, rd.tasks, ms) {
        return false, map[];
      }
      NodesHere(nodes, rd, rs, done, {}, {});
      HandoffAttached(rd, rs, nodes, done, k);
      nodes := nodes[handoff.sourceTask := nodes[handoff.sourceTask].(handoff := Some(handoff))];
      remaining, done := remaining - {k}, done + {k};
    }
    assert done == rd.handoffs.Keys;
    return true, nodes;
  }

  lemma CaseAttached(rd: RunDir, rs: Receipts, nodes: map<TaskId, Node>, hs: set<TaskId>, bs: set<TaskId>, k: TaskId)
    requires hs <= rd.handoffs.Keys && bs <= rd.cases.Keys && k in rd.cases && k in rd.tasks
    requires NodesAre(nodes, rd, rs, hs, bs, {})
    ensures NodesAre(nodes[k := nodes[k].(blocker := Some(rd.cases[k]))], rd, rs, hs, bs + {k}, {})
  {
  }

  method AttachCases(rd: RunDir, ms: Messages, rs: Receipts, before: map<TaskId, Node>)
    returns (ok: bool, nodes: map<TaskId, Node>)
    requires NodesAre(before, rd, rs, rd.handoffs.Keys, {}, {})
    ensures ok <==> forall k :: k in rd.cases ==> CaseLoads(rd.doc, k, rd.cases[k], rd.tasks, ms)
    ensures ok ==> NodesAre(nodes, rd, rs, rd.handoffs.Keys, rd.cases.Keys, {})
  {
    hide CaseValid;
    hide NodesAre;
    nodes := before;
    var remaining := rd.cases.Keys;
    ghost var done: set<TaskId> := {};
    while remaining != {}
      invariant remaining <= rd.cases.Keys && done == rd.cases.Keys - remaining
      invariant forall k :: k in done ==> CaseLoads(rd.doc, k, rd.cases[k], rd.tasks, ms)
      invariant NodesAre(nodes, rd, rs, rd.handoffs.Keys, done, {})
      decreases |remaining|
    {
      var k :| k in remaining;
      var blocker := rd.cases[k];
      if !CaseLoads(rd.doc, k, blocker, rd.tasks, ms) {
        return false, map[];
      }
      NodesHere(nodes, rd, rs, rd.handoffs.Keys, done, {});
      CaseAttached(rd, rs, nodes, rd.handoffs.Keys, done, k);
      nodes := nodes[blocker.sourceTask := nodes[blocker.sourceTask].(blocker := Some(blocker))];
      remaining, done := remaining - {k}, done + {k};
    }
    assert done == rd.cases.Keys;
    return true, nodes;
  }

  /** The lookup of a replan by its replacement: the scan fails when it meets a second one. */
  method FindReplan(replans: map<TaskId, PartialReplan>, t: TaskId) returns (found: Result<TaskId, Error>)
    ensures found.Success? ==>
              && found.value in replans && replans[found.value].replacementTask == t
              && forall j :: j in replans && replans[j].replacementTask == t ==> j == found.value
    ensures found == Failure(Missing) <==> forall j :: j in replans ==> replans[j].replacementTask != t
    ensures found.Failure? ==> found.error == Missing || found.error == Conflict
    ensures found == Failure(Conflict) ==>
              exists i, j :: i in replans && j in replans && i != j
                             && replans[i].replacementTask == t && replans[j].replacementTask == t
  {
    var matched: Option<TaskId> := None;
    var remaining := replans.Keys;
    while remaining != {}
      invariant remaining <= replans.Keys
      invariant matched.None? ==> forall j :: j in replans && j !in remaining ==> replans[j].replacementTask != t
      invariant matched.Some? ==>
                  && matched.value in replans && matched.value !in remaining && replans[matched.value].replacementTask == t
                  && forall j :: j in replans && j !in remaining && replans[j].replacementTask == t ==> j == matched.value
      decreases |remaining|
    {
      var k :| k in remaining;
      remaining := remaining - {k};
      if replans[k].replacementTask != t {
        continue;
      }
      if matched.Some? {
        return Failure(Conflict);
      }
      matched := Some(k);
    }
    if matched.None? {
      return Failure(Missing);
    }
    return Success(matched.value);
  }

  // ----------------------------------------------------------- replans

  lemma SoleSource(replans: map<TaskId, PartialReplan>, ps: set<TaskId>, k: TaskId)
    requires k in ps && ps <= replans.Keys && SoleReplacement(replans, k)
    ensures SourceOf(replans, ps, replans[k].replacementTask) == Some(k)
  {
    assert Sources(replans, ps, replans[k].replacementTask) == {k};
  }

  lemma OtherSource(replans: map<TaskId, PartialReplan>, ps: set<TaskId>, k: TaskId, t: TaskId)
    requires k in replans && ps <= replans.Keys && replans[k].replacementTask != t
    ensures SourceOf(replans, ps + {k}, t) == SourceOf(replans, ps, t)
  {
    assert Sources(replans, ps + {k}, t) == Sources(replans, ps, t);
  }

  /** Attaching one replan: to its source, and as origin to its replacement. */
  function WithReplan(nodes: map<TaskId, Node>, k: TaskId, p: PartialReplan): map<TaskId, Node>
    requires k in nodes && p.replacementTask in nodes
  {
    var withSource := nodes[k := nodes[k].(replan := Some(p))];
    withSource[p.replacementTask := withSource[p.replacementTask].(replanSource := Some(k),
                                                                  supersedes := Some(p.supersededTask))]
  }

  lemma ReplanAttached(rd: RunDir, rs: Receipts, nodes: map<TaskId, Node>, ps: set<TaskId>, k: TaskId)
    requires ps <= rd.replans.Keys && k in rd.replans && k in rd.tasks && rd.replans[k].replacementTask in rd.tasks
    requires SoleReplacement(rd.replans, k)
    requires NodesAre(nodes, rd, rs, rd.handoffs.Keys, rd.cases.Keys, ps)
    ensures NodesAre(WithReplan(nodes, k, rd.replans[k]), rd, rs, rd.handoffs.Keys, rd.cases.Keys, ps + {k})
  {
    hide SourceOf;
    hide SoleReplacement;
    var p := rd.replans[k];
    SoleSource(rd.replans, ps + {k}, k);
    forall t | t in rd.tasks && t != p.replacementTask
      ensures SourceOf(rd.replans, ps + {k}, t) == SourceOf(rd.replans, ps, t)
    {
      OtherSource(rd.replans, ps, k, t);
    }
  }

  /** The last loop: the replacement lookup, the case checks, and the links in both directions. */
  method AttachReplans(rd: RunDir, rs: Receipts, before: map<TaskId, Node>)
    returns (ok: bool, nodes: map<TaskId, Node>)
    requires NodesAre(before, rd, rs, rd.handoffs.Keys, rd.cases.Keys, {})
    ensures ok <==> forall k :: k in rd.replans ==> ReplanLoads(rd.doc, k, rd)
    ensures ok ==> NodesAre(nodes, rd, rs, rd.handoffs.Keys, rd.cases.Keys, rd.replans.Keys)
  {
    hide ReplanValid;
    hide NodesAre;
    hide WithReplan;
    nodes := before;
    var remaining := rd.replans.Keys;
    ghost var done: set<TaskId> := {};
    while remaining != {}
      invariant remaining <= rd.replans.Keys && done == rd.replans.Keys - remaining
      invariant forall k :: k in done ==> ReplanLoads(rd.doc, k, rd)
      invariant NodesAre(nodes, rd, rs, rd.handoffs.Keys, rd.cases.Keys, done)
      decreases |remaining|
    {
      var k :| k in remaining;
      var replan := rd.replans[k];
      var found := FindReplan(rd.replans, replan.replacementTask);
      if found.Failure? || found.value != k {
        assert !SoleReplacement(rd.replans, k);
        return false, map[];
      }
      assert SoleReplacement(rd.replans, k);
      if !ReplanLoads(rd.doc, k, rd) {
        return false, map[];
      }
      NodesHere(nodes, rd, rs, rd.handoffs.Keys, rd.cases.Keys, done);
      ReplanAttached(rd, rs, nodes, done, k);
      nodes := WithReplan(nodes, k, replan);
      remaining, done := remaining - {k}, done + {k};
    }
    assert done == rd.replans.Keys;
    return true, nodes;
  }

  // ----------------------------------------------------------- the whole

  /** Loading succeeds exactly when the run passes every check, and then returns its graph. */
  method LoadRunGraph(runs: map<RunId, RunDir>, ms: Messages, rs: Receipts, r: RunId) returns (g: Result<Graph, Error>)
    requires r in runs ==> Filed(runs[r])
    ensures g.Success? <==> r in runs && Loads(runs[r], ms, rs)
    ensures g.Success? ==> IsGraphOf(g.value, runs[r], rs)
  {
    hide RunValid;
    hide TaskLoads;
    hide HandoffLoads;
    hide CaseLoads;
    hide ReplanLoads;
    hide DepsLoad;
    hide NodeOf;
    if r !in runs {
      return Failure(Missing);
    }
    var rd := runs[r];
    if !RootLoads(rd.doc, ms) {
      return Failure(Malformed);
    }
    var ok, order, nodes := LoadTasks(rd, ms, rs);
    if !ok {
      return Failure(Malformed);
    }
    BareTasks(rd, rs, nodes);
    ok := CheckDependencies(rd, order, nodes);
    if !ok {
      return Failure(Malformed);
    }
    ok, nodes := AttachHandoffs(rd, ms, rs, nodes);
    if !ok {
      return Failure(Malformed);
    }
    ok, nodes := AttachCases(rd, ms, rs, nodes);
    if !ok {
      return Failure(Malformed);
    }
    ok, nodes := AttachReplans(rd, rs, nodes);
    if !ok {
      return Failure(Malformed);
    }
    return Success(Graph(rd.doc, order, nodes));
  }

  lemma BareTasks(rd: RunDir, rs: Receipts, nodes: map<TaskId, Node>)
    requires NodesAre(nodes, rd, rs, {}, {}, {})
    ensures nodes.Keys == rd.tasks.Keys && forall t :: t in rd.tasks ==> nodes[t].task == rd.tasks[t]
  {
  }
}
