/** What the summary of a loaded run shows: each live piece of work in exactly one row. */
module SummaryFacts {
  import opened Wrappers
  import opened Protocol
  import opened Coordinator
  import opened Invariant
  import opened CaseWrites
  import opened RunGraph
  import opened GraphLoader
  import opened RunSummary
  import opened Histories
  import opened Evolution

  /** The task that stands for t now. */
  function CurrentOf(rd: RunDir, t: TaskId): TaskId {
    if t in rd.cases then rd.cases[t].currentTask else t
  }

  ghost predicate Graphed(s: State, r: RunId, g: Graph) {
    Inv(s) && r in s.runs && IsGraphOf(g, s.runs[r], s.receipts)
  }

  lemma GraphNodes(s: State, r: RunId, g: Graph, t: TaskId)
    requires Graphed(s, r, g) && t in s.runs[r].tasks
    ensures t in g.nodes
    ensures var rd, node := s.runs[r], g.nodes[t];
            && node.task == rd.tasks[t] && node.task.id == t
            && node.blocker == (if t in rd.cases then Some(rd.cases[t]) else None)
            && node.replan == (if t in rd.replans then Some(rd.replans[t]) else None)
            && KeyOfTask(rd.tasks[t]) in s.receipts && node.folder == s.receipts[KeyOfTask(rd.tasks[t])].folder
  {
    hide Inv;
    hide TaskValid;
    hide Canonical;
    hide SourceOf;
    TaskFacts(s, r, t);
  }

  lemma GraphOrder(s: State, r: RunId, g: Graph)
    requires Graphed(s, r, g)
    ensures NodesFor(g.nodes, g.order) && Ascending(g.order)
    ensures forall t :: t in g.order <==> t in s.runs[r].tasks
    ensures forall t :: t in g.order ==> g.nodes[t].task.id == t
  {
    hide Inv;
    hide NodeOf;
    forall t | t in g.order ensures t in g.nodes && g.nodes[t].task.id == t {
      GraphNodes(s, r, g, t);
    }
  }

  lemma EffectiveIsCurrent(s: State, r: RunId, g: Graph, t: TaskId)
    requires Graphed(s, r, g) && t in s.runs[r].tasks
    ensures t in g.nodes && CurrentOf(s.runs[r], t) in s.runs[r].tasks
    ensures Effective(g.nodes, g.nodes[t]).task == s.runs[r].tasks[CurrentOf(s.runs[r], t)]
    ensures Effective(g.nodes, g.nodes[t]).task.id == CurrentOf(s.runs[r], t)
  {
    hide Inv;
    hide IsGraphOf;
    hide CaseReadable;
    hide ResolutionOk;
    hide ReplanValid;
    GraphNodes(s, r, g, t);
    if t in s.runs[r].cases {
      CaseFacts(s, r, t);
      GraphNodes(s, r, g, s.runs[r].cases[t].currentTask);
    }
    if t in s.runs[r].replans {
      ReplanFacts(s, r, t);
    }
  }

  /** A task without a row: a review task, another case's current task, or a replacement. */
  ghost predicate HasNoRow(rd: RunDir, t: TaskId) {
    || (t in rd.tasks && rd.tasks[t].Class() == Some(Review))
    || (exists k :: k in rd.cases && rd.cases[k].currentTask != k && rd.cases[k].currentTask == t)
    || (exists k :: k in rd.replans && rd.replans[k].replacementTask == t)
  }

  lemma ExcludedExactly(s: State, r: RunId, g: Graph, t: TaskId)
    requires Graphed(s, r, g)
    ensures NodesFor(g.nodes, g.order)
    ensures t in ExcludedIn(g.nodes, g.order) <==> HasNoRow(s.runs[r], t)
  {
    hide Inv;
    hide IsGraphOf;
    var rd := s.runs[r];
    GraphOrder(s, r, g);
    ExcludedInMeans(g.nodes, g.order, t);
    forall k | k in rd.tasks
      ensures k in g.nodes
      ensures ExcludedBy(g.nodes[k], t)
              <==> || (k == t && rd.tasks[k].Class() == Some(Review))
                   || (k in rd.cases && rd.cases[k].currentTask != k && rd.cases[k].currentTask == t)
                   || (k in rd.replans && rd.replans[k].replacementTask == t)
    {
      GraphNodes(s, r, g, k);
    }
    forall k | k in rd.cases ensures k in rd.tasks { CaseSource(s, r, k); }
    forall k | k in rd.replans ensures k in rd.tasks { ReplanSource(s, r, k); }
  }

  lemma CaseSource(s: State, r: RunId, k: TaskId)
    requires Inv(s) && r in s.runs && k in s.runs[r].cases
    ensures k in s.runs[r].tasks
  {
    hide Inv;
    hide CaseReadable;
    CaseFacts(s, r, k);
  }

  lemma ReplanSource(s: State, r: RunId, k: TaskId)
    requires Inv(s) && r in s.runs && k in s.runs[r].replans
    ensures k in s.runs[r].tasks && k in s.runs[r].cases && s.runs[r].replans[k].replacementTask !in s.runs[r].cases
  {
    hide Inv;
    hide ReplanValid;
    ReplanFacts(s, r, k);
  }

  /** Each row belongs to a task that is not excluded and shows its current task. */
  lemma RowAt(s: State, r: RunId, g: Graph, i: nat)
    requires Graphed(s, r, g) && NodesFor(g.nodes, g.order) && i < |SummaryRows(g)|
    ensures var rd, row := s.runs[r], SummaryRows(g)[i];
            && row.sourceTask in rd.tasks && !HasNoRow(rd, row.sourceTask)
            && row.currentTask == CurrentOf(rd, row.sourceTask)
  {
    hide Inv;
    hide IsGraphOf;
    hide HasNoRow;
    hide Effective;
    hide EffectiveReview;
    hide DeriveStatus;
    hide CurrentOf;
    GraphOrder(s, r, g);
    RowsMean(g.nodes, ExcludedIn(g.nodes, g.order), g.order);
    var t := SummaryRows(g)[i].sourceTask;
    assert t in g.order && t !in ExcludedIn(g.nodes, g.order);
    ExcludedExactly(s, r, g, t);
    EffectiveIsCurrent(s, r, g, t);
  }

  /** Each task that is not excluded has a row. */
  lemma RowOf(s: State, r: RunId, g: Graph, t: TaskId) returns (i: nat)
    requires Graphed(s, r, g) && NodesFor(g.nodes, g.order) && t in s.runs[r].tasks && !HasNoRow(s.runs[r], t)
    ensures i < |SummaryRows(g)| && SummaryRows(g)[i].sourceTask == t
  {
    hide Inv;
    hide IsGraphOf;
    hide HasNoRow;
    hide Effective;
    hide EffectiveReview;
    hide DeriveStatus;
    GraphOrder(s, r, g);
    RowsMean(g.nodes, ExcludedIn(g.nodes, g.order), g.order);
    ExcludedExactly(s, r, g, t);
    var item := ItemOf(g.nodes, g.nodes[t]);
    assert item in SummaryRows(g);
    i :| 0 <= i < |SummaryRows(g)| && SummaryRows(g)[i] == item;
  }

  /** Two rows are never of one task. */
  lemma RowsDiffer(s: State, r: RunId, g: Graph, i: nat, j: nat)
    requires Graphed(s, r, g) && NodesFor(g.nodes, g.order) && i < |SummaryRows(g)| && j < |SummaryRows(g)|
    requires SummaryRows(g)[i].sourceTask == SummaryRows(g)[j].sourceTask
    ensures i == j
  {
    hide Inv;
    hide IsGraphOf;
    hide ItemOf;
    GraphOrder(s, r, g);
    RowsMean(g.nodes, ExcludedIn(g.nodes, g.order), g.order);
  }

  /** No two rows show the same current task. */
  lemma NoSharedCurrent(s: State, r: RunId, g: Graph, i: nat, j: nat)
    requires Graphed(s, r, g) && NodesFor(g.nodes, g.order) && i < |SummaryRows(g)| && j < |SummaryRows(g)|
    requires SummaryRows(g)[i].currentTask == SummaryRows(g)[j].currentTask
    ensures i == j
  {
    hide Inv;
    hide IsGraphOf;
    hide SummaryRows;
    RowAt(s, r, g, i);
    RowAt(s, r, g, j);
    ApartFacts(s, r);
    PointedHasNoRow(s.runs[r]);
    assert SummaryRows(g)[i].sourceTask == SummaryRows(g)[j].sourceTask by {
      hide HasNoRow;
    }
    RowsDiffer(s, r, g, i, j);
  }

  lemma PointedHasNoRow(rd: RunDir)
    ensures forall k :: k in rd.cases && rd.cases[k].currentTask != k ==> HasNoRow(rd, rd.cases[k].currentTask)
    ensures forall k :: k in rd.tasks && rd.tasks[k].Class() == Some(Review) ==> HasNoRow(rd, k)
  {
  }

  /** A review case whose current task is u hides u from the summary. */
  ghost predicate HiddenByReview(rd: RunDir, u: TaskId) {
    exists k :: k in rd.cases && k in rd.tasks && rd.cases[k].currentTask == u && rd.tasks[k].Class() == Some(Review)
  }

  lemma LiveHolder(s: State, r: RunId, u: TaskId)
    requires Inv(s) && r in s.runs && u in s.runs[r].tasks && !ReceiptFinished(s.receipts, s.runs[r].tasks[u])
    requires s.runs[r].tasks[u].Class() != Some(Review)
    ensures !HiddenByReview(s.runs[r], u) ==>
              exists k :: k in s.runs[r].tasks && !HasNoRow(s.runs[r], k) && CurrentOf(s.runs[r], k) == u
  {
    hide Inv;
    hide CaseReadable;
    hide ResolutionOk;
    hide ReplanValid;
    var rd := s.runs[r];
    ApartFacts(s, r);
    if u in rd.cases { CaseFacts(s, r, u); }
    forall j | j in rd.replans
      ensures rd.replans[j].replacementTask !in rd.cases && j in rd.cases
      ensures rd.replans[j].replacementTask == u ==> rd.cases[j].currentTask == u
    {
      ReplanFacts(s, r, j);
    }
    if !HiddenByReview(rd, u) {
      if k :| k in rd.cases && rd.cases[k].currentTask == u {
        CaseSource(s, r, k);
        assert !HasNoRow(rd, k);
        assert CurrentOf(rd, k) == u;
      } else {
        assert u !in rd.cases;
        assert !HasNoRow(rd, u) && CurrentOf(rd, u) == u;
      }
    }
  }

  lemma ShownIsNotHidden(s: State, r: RunId, u: TaskId, k: TaskId)
    requires Inv(s) && r in s.runs && k in s.runs[r].tasks && !HasNoRow(s.runs[r], k) && CurrentOf(s.runs[r], k) == u
    requires u in s.runs[r].tasks && s.runs[r].tasks[u].Class() != Some(Review)
    ensures !HiddenByReview(s.runs[r], u)
  {
    hide Inv;
    ApartFacts(s, r);
    var rd := s.runs[r];
    PointedHasNoRow(rd);
    forall j | j in rd.cases && j in rd.tasks && rd.tasks[j].Class() == Some(Review)
      ensures rd.cases[j].currentTask != u
    {
    }
  }

  /** A live task that is not a review is the current task of exactly one row, unless the case that
      holds it belongs to a review task, and then of none. */
  lemma LiveShownExactly(s: State, r: RunId, g: Graph, u: TaskId)
    requires Graphed(s, r, g) && u in s.runs[r].tasks && !ReceiptFinished(s.receipts, s.runs[r].tasks[u])
    requires s.runs[r].tasks[u].Class() != Some(Review)
    ensures NodesFor(g.nodes, g.order)
    ensures var rows := SummaryRows(g);
            && ((exists i :: 0 <= i < |rows| && rows[i].currentTask == u) <==> !HiddenByReview(s.runs[r], u))
            && (forall i, j :: 0 <= i < |rows| && 0 <= j < |rows| && rows[i].currentTask == u && rows[j].currentTask == u ==> i == j)
  {
    hide Inv;
    hide IsGraphOf;
    hide HasNoRow;
    hide SummaryRows;
    hide CurrentOf;
    hide HiddenByReview;
    GraphOrder(s, r, g);
    LiveHolder(s, r, u);
    if !HiddenByReview(s.runs[r], u) {
      var k :| k in s.runs[r].tasks && !HasNoRow(s.runs[r], k) && CurrentOf(s.runs[r], k) == u;
      var i := RowOf(s, r, g, k);
      RowAt(s, r, g, i);
    }
    if i :| 0 <= i < |SummaryRows(g)| && SummaryRows(g)[i].currentTask == u {
      RowAt(s, r, g, i);
      ShownIsNotHidden(s, r, u, SummaryRows(g)[i].sourceTask);
    }
    forall i, j | && 0 <= i < |SummaryRows(g)| && 0 <= j < |SummaryRows(g)|
                  && SummaryRows(g)[i].currentTask == u && SummaryRows(g)[j].currentTask == u
      ensures i == j
    {
      NoSharedCurrent(s, r, g, i, j);
    }
  }

  /** Without a partial replan of a review task nothing live is hidden. */
  lemma NothingHidden(s: State, r: RunId, u: TaskId)
    requires Inv(s) && r in s.runs && u in s.runs[r].tasks && s.runs[r].tasks[u].Class() != Some(Review)
    requires forall k :: k in s.runs[r].replans && k in s.runs[r].tasks ==> s.runs[r].tasks[k].Class() != Some(Review)
    ensures !HiddenByReview(s.runs[r], u)
  {
    hide Inv;
    hide CaseOk;
    var rd := s.runs[r];
    forall k | k in rd.cases && k in rd.tasks && rd.cases[k].currentTask == u
      ensures rd.tasks[k].Class() != Some(Review)
    {
      CaseFacts(s, r, k);
    }
  }

  /** Over every history without such a replan, whatever the reroute chain: each live task that is not
      a review is the current task of exactly one row. */
  lemma EachLiveTaskInOneRow(cfg: Config, steps: seq<Step>, r: RunId, g: Graph, u: TaskId)
    requires var s := After(cfg, steps);
             && r in s.runs && IsGraphOf(g, s.runs[r], s.receipts)
             && u in s.runs[r].tasks && !ReceiptFinished(s.receipts, s.runs[r].tasks[u])
             && s.runs[r].tasks[u].Class() != Some(Review)
             && forall k :: k in s.runs[r].replans && k in s.runs[r].tasks ==> s.runs[r].tasks[k].Class() != Some(Review)
    ensures NodesFor(g.nodes, g.order)
    ensures var rows := SummaryRows(g);
            exists i :: 0 <= i < |rows| && rows[i].currentTask == u
                        && forall j :: 0 <= j < |rows| && j != i ==> rows[j].currentTask != u
  {
    hide Inv;
    hide After;
    hide IsGraphOf;
    hide SummaryRows;
    hide HiddenByReview;
    ReachableIsGood(cfg, steps);
    LiveShownExactly(After(cfg, steps), r, g, u);
    NothingHidden(After(cfg, steps), r, u);
  }
}
