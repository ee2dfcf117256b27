/** Folding a run graph into its summary: one row for each logical piece of work. */
module RunSummary {
  import opened Wrappers
  import opened Protocol
  import opened Coordinator
  import opened Invariant
  import opened RunGraph
  import opened GraphLoader

  datatype Status = EscalatedRow | BlockedRow | WaitingRow | UnderReview | PendingRow | Completed

  datatype Item = Item(
    status: Status, sourceTask: TaskId, sourceMessage: MessageId, sourceOwner: AgentName,
    owner: AgentName, currentTask: TaskId, currentMessage: MessageId, currentOwner: AgentName,
    review: Option<ReviewHandoff>,
    blocker: Option<(BlockerStatus, BlockerAction, Option<Recommended>)>)
  {
    function Outcome(): Option<ReviewOutcome> {
      if review.Some? then review.value.outcome else None
    }
  }

  // ------------------------------------------------------------ one row

  /** The task that stands for the work now: the case's current task, else the replacement, else itself. */
  function Effective(nodes: map<TaskId, Node>, source: Node): Node {
    if source.blocker.Some? && source.blocker.value.currentTask != source.task.id
       && source.blocker.value.currentTask in nodes
    then nodes[source.blocker.value.currentTask]
    else if source.replan.Some? && source.replan.value.replacementTask in nodes
    then nodes[source.replan.value.replacementTask]
    else source
  }

  function EffectiveReview(source: Node, effective: Node): Option<ReviewHandoff> {
    if effective.task.id != source.task.id && effective.handoff.Some? then effective.handoff else source.handoff
  }

  function DeriveStatus(source: Node, effective: Node, review: Option<ReviewHandoff>): Status {
    if source.blocker.Some? && source.blocker.value.status == Escalated then EscalatedRow
    else if source.blocker.Some? && source.blocker.value.status == CaseActive && source.blocker.value.declared.Block? then BlockedRow
    else if source.blocker.Some? && source.blocker.value.status == CaseActive && source.blocker.value.declared.Wait? then WaitingRow
    else if review.Some? && review.value.status == Pending then UnderReview
    else if review.Some? && review.value.status == Responded && review.value.outcome == Some(ChangesRequested) then UnderReview
    else if review.Some? && review.value.status == HandoffFailed then PendingRow
    else if effective.folder == Done then Completed
    else PendingRow
  }

  function ItemOf(nodes: map<TaskId, Node>, source: Node): Item {
    var effective := Effective(nodes, source);
    var review := EffectiveReview(source, effective);
    Item(DeriveStatus(source, effective, review), source.task.id, source.task.message, source.task.owner,
         if review.Some? && review.value.reviewer != "" then review.value.reviewer else effective.task.owner,
         effective.task.id, effective.task.message, effective.task.owner, review,
         if source.blocker.Some?
         then Some((source.blocker.value.status, source.blocker.value.selected, source.blocker.value.recommended))
         else None)
  }

  // ------------------------------------------------------- which rows

  /** Review tasks, current tasks of other tasks' cases, and replacements have no row of their own. */
  predicate ExcludedBy(node: Node, t: TaskId) {
    || (node.task.id == t && node.task.Class() == Some(Review))
    || (node.blocker.Some? && node.blocker.value.currentTask != node.task.id && node.blocker.value.currentTask == t)
    || (node.replan.Some? && node.replan.value.replacementTask == t)
  }

  function Exclusions(node: Node): set<TaskId> {
    (if node.task.Class() == Some(Review) then {node.task.id} else {})
    + (if node.blocker.Some? && node.blocker.value.currentTask != node.task.id then {node.blocker.value.currentTask} else {})
    + (if node.replan.Some? then {node.replan.value.replacementTask} else {})
  }

  lemma ExclusionsMean(node: Node, t: TaskId)
    ensures t in Exclusions(node) <==> ExcludedBy(node, t)
  {
  }

  predicate NodesFor(nodes: map<TaskId, Node>, order: seq<TaskId>) {
    forall t :: t in order ==> t in nodes
  }

  function ExcludedIn(nodes: map<TaskId, Node>, order: seq<TaskId>): set<TaskId>
    requires NodesFor(nodes, order)
  {
    if order == [] then {}
    else ExcludedIn(nodes, order[..|order| - 1]) + Exclusions(nodes[order[|order| - 1]])
  }

  lemma {:induction false} ExcludedInMeans(nodes: map<TaskId, Node>, order: seq<TaskId>, t: TaskId)
    requires NodesFor(nodes, order)
    ensures t in ExcludedIn(nodes, order) <==> exists k :: k in order && ExcludedBy(nodes[k], t)
  {
    hide ExcludedBy;
    hide Exclusions;
    if order != [] {
      var front, last := order[..|order| - 1], order[|order| - 1];
      assert order == front + [last];
      ExcludedInMeans(nodes, front, t);
      ExclusionsMean(nodes[last], t);
    }
  }

  function Rows(nodes: map<TaskId, Node>, excluded: set<TaskId>, order: seq<TaskId>): seq<Item>
    requires NodesFor(nodes, order)
  {
    if order == [] then []
    else
      var front, last := order[..|order| - 1], order[|order| - 1];
      if last in excluded then Rows(nodes, excluded, front) else Rows(nodes, excluded, front) + [ItemOf(nodes, nodes[last])]
  }

  function SummaryRows(g: Graph): seq<Item>
    requires NodesFor(g.nodes, g.order)
  {
    Rows(g.nodes, ExcludedIn(g.nodes, g.order), g.order)
  }

  /** The two loops of the source: collect the excluded tasks, then append the other rows in order. */
  method BuildRunSummary(g: Graph) returns (items: seq<Item>)
    requires NodesFor(g.nodes, g.order)
    ensures items == SummaryRows(g)
  {
    var excluded: set<TaskId> := {};
    for i := 0 to |g.order|
      invariant NodesFor(g.nodes, g.order[..i]) && excluded == ExcludedIn(g.nodes, g.order[..i])
    {
      var node := g.nodes[g.order[i]];
      assert g.order[..i + 1][..i] == g.order[..i];
      if node.task.Class() == Some(Review) {
        excluded := excluded + {node.task.id};
      }
      if node.blocker.Some? && node.blocker.value.currentTask != node.task.id {
        excluded := excluded + {node.blocker.value.currentTask};
      }
      if node.replan.Some? {
        excluded := excluded + {node.replan.value.replacementTask};
      }
    }
    assert g.order[..|g.order|] == g.order;
    items := [];
    for i := 0 to |g.order|
      invariant NodesFor(g.nodes, g.order[..i]) && items == Rows(g.nodes, excluded, g.order[..i])
    {
      assert g.order[..i + 1][..i] == g.order[..i];
      if g.order[i] !in excluded {
        items := items + [ItemOf(g.nodes, g.nodes[g.order[i]])];
      }
    }
  }

  /** The rows are those of the tasks that are not excluded, each once, in task order. */
  lemma {:induction false} RowsMean(nodes: map<TaskId, Node>, excluded: set<TaskId>, order: seq<TaskId>)
    requires NodesFor(nodes, order) && Ascending(order)
    requires forall t :: t in order ==> nodes[t].task.id == t
    ensures var rows := Rows(nodes, excluded, order);
            && (forall i, j :: 0 <= i < j < |rows| ==> rows[i].sourceTask < rows[j].sourceTask)
            && (forall i :: 0 <= i < |rows| ==>
                  && rows[i].sourceTask in order && rows[i].sourceTask !in excluded
                  && rows[i] == ItemOf(nodes, nodes[rows[i].sourceTask]))
            && (forall t :: t in order && t !in excluded ==> ItemOf(nodes, nodes[t]) in rows)
  {
    hide Effective;
    hide EffectiveReview;
    hide DeriveStatus;
    if order != [] {
      var front, last := order[..|order| - 1], order[|order| - 1];
      assert order == front + [last];
      RowsMean(nodes, excluded, front);
    }
  }
}
