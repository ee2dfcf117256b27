/** Loading a run graph: the integrity check over everything a run has on disk. */
module RunGraph {
  import opened Wrappers
  import opened Text
  import opened Protocol
  import opened Coordinator
  import opened Invariant
  import opened ResolveSteps
  import opened HandoffSteps
  import opened CaseWrites

  datatype Node = Node(
    task: ChildTask, folder: Folder, handoff: Option<ReviewHandoff>, blocker: Option<BlockerCase>,
    replan: Option<PartialReplan>, replanSource: Option<TaskId>, supersedes: Option<TaskId>)

  // ------------------------------------------------------ the checks

  predicate RootLoads(doc: CoordinatorRun, ms: Messages) {
    RunValid(doc) && doc.rootMessage in ms && ms[doc.rootMessage].thread == doc.rootThread
  }

  predicate TaskLoads(doc: CoordinatorRun, t: ChildTask, ms: Messages, rs: Receipts) {
    && TaskValid(t) && t.parentRun == doc.id
    && t.message in ms && ms[t.message].thread == t.thread && t.thread == doc.rootThread
    && KeyOfTask(t) in rs
  }

  predicate DepsLoad(tasks: Tasks, t: ChildTask) {
    forall d :: d in t.dependsOn ==> d in tasks
  }

  predicate ReviewLoads(doc: CoordinatorRun, h: ReviewHandoff, tasks: Tasks, ms: Messages) {
    && (h.status != HandoffFailed ==>
          && h.reviewTask.Some? && h.reviewTask.value in tasks
          && h.reviewMessage == Some(tasks[h.reviewTask.value].message)
          && tasks[h.reviewTask.value].owner == h.reviewer
          && tasks[h.reviewTask.value].Class() == Some(Review))
    && (h.status == Responded ==>
          && h.responseMessage.Some? && h.responseMessage.value in ms
          && ms[h.responseMessage.value].kind == ReviewResponse
          && ms[h.responseMessage.value].replyTo.Some? && ms[h.responseMessage.value].replyTo == h.reviewMessage
          && ms[h.responseMessage.value].thread == doc.rootThread)
  }

  predicate HandoffLoads(doc: CoordinatorRun, h: ReviewHandoff, tasks: Tasks, ms: Messages) {
    && HandoffValid(h) && h.run == doc.id
    && h.sourceTask in tasks && tasks[h.sourceTask].message == h.sourceMessage
    && ReviewLoads(doc, h, tasks, ms)
  }

  predicate CaseLoads(doc: CoordinatorRun, k: TaskId, b: BlockerCase, tasks: Tasks, ms: Messages) {
    && CaseValid(b) && b.run == doc.id && b.sourceTask == k
    && k in tasks && tasks[k].message == b.sourceMessage
    && b.currentTask in tasks
    && tasks[b.currentTask].message == b.currentMessage && tasks[b.currentTask].owner == b.currentOwner
    && (b.resolution.Some? ==>
          var res := b.resolution.value;
          && (res.createdTask.Some? ==> res.createdTask.value in tasks)
          && (res.createdMessage.Some? ==>
                && res.createdMessage.value in ms
                && (res.createdTask.Some? ==> tasks[res.createdTask.value].message == res.createdMessage.value)))
  }

  predicate SoleReplacement(replans: map<TaskId, PartialReplan>, k: TaskId)
    requires k in replans
  {
    forall j :: j in replans && replans[j].replacementTask == replans[k].replacementTask ==> j == k
  }

  predicate ReplanLoads(doc: CoordinatorRun, k: TaskId, rd: RunDir)
    requires k in rd.replans
  {
    var p := rd.replans[k];
    && ReplanValid(p) && p.run == doc.id && p.sourceTask == k
    && k in rd.tasks && rd.tasks[k].message == p.sourceMessage
    && p.supersededTask in rd.tasks && rd.tasks[p.supersededTask].message == p.supersededMessage
    && p.replacementTask in rd.tasks && rd.tasks[p.replacementTask].message == p.replacementMessage
    && SoleReplacement(rd.replans, k)
    && k in rd.cases && rd.cases[k].resolution.Some?
    && rd.cases[k].resolution.value.action == PartialReplanAction
    && rd.cases[k].resolution.value.createdTask == Some(p.replacementTask)
    && rd.cases[k].resolution.value.createdMessage == Some(p.replacementMessage)
  }

  /** Everything the loader checks of one run. */
  predicate Loads(rd: RunDir, ms: Messages, rs: Receipts) {
    && RootLoads(rd.doc, ms)
    && (forall t :: t in rd.tasks ==> TaskLoads(rd.doc, rd.tasks[t], ms, rs))
    && (forall t :: t in rd.tasks ==> DepsLoad(rd.tasks, rd.tasks[t]))
    && (forall k :: k in rd.handoffs ==> HandoffLoads(rd.doc, rd.handoffs[k], rd.tasks, ms))
    && (forall k :: k in rd.cases ==> CaseLoads(rd.doc, k, rd.cases[k], rd.tasks, ms))
    && (forall k :: k in rd.replans ==> ReplanLoads(rd.doc, k, rd))
  }

  // ------------------------------------------ what is left to the caller

  predicate DepsResolved(rd: RunDir) {
    forall t :: t in rd.tasks ==> DepsLoad(rd.tasks, rd.tasks[t])
  }

  ghost predicate ReplansAgree(rd: RunDir) {
    forall k :: k in rd.replans ==> ReplanAgrees(rd, k)
  }

  ghost predicate AllLoad(s: State) {
    forall r :: r in s.runs ==> Loads(s.runs[r], s.messages, s.receipts)
  }

  lemma HandoffPasses(s: State, r: RunId, k: TaskId)
    requires Inv(s) && r in s.runs && k in s.runs[r].handoffs
    ensures s.runs[r].doc.id == r ==>
              HandoffLoads(s.runs[r].doc, s.runs[r].handoffs[k], s.runs[r].tasks, s.messages)
  {
    hide Inv;
    hide NeedsReview;
    hide Blank;
    StoredHandoffValid(s, r, k);
  }

  lemma DocPasses(s: State, r: RunId)
    requires Inv(s) && r in s.runs
    ensures s.runs[r].doc.id == r && RootLoads(s.runs[r].doc, s.messages)
  {
    hide RunValid;
    hide TasksOk;
    hide HandoffsOk;
    hide CasesOk;
    hide ReplansOk;
    hide ClassesKept;
    assert RunOk(r, s.runs[r], s.messages, s.receipts);
  }

  /** In a good state only two of the loader's checks can fail: a dependency on a task that is not
      there, and a replan whose case no longer carries the resolution that made it. */
  lemma LoadsExactly(s: State, r: RunId)
    requires Inv(s) && r in s.runs
    ensures Loads(s.runs[r], s.messages, s.receipts) <==> DepsResolved(s.runs[r]) && ReplansAgree(s.runs[r])
  {
    hide Inv;
    hide RootLoads;
    hide HandoffLoads;
    hide DepsLoad;
    hide TaskValid;
    hide Canonical;
    hide CaseValid;
    hide ReplanValid;
    var rd := s.runs[r];
    DocPasses(s, r);
    ApartFacts(s, r);
    forall t | t in rd.tasks ensures TaskLoads(rd.doc, rd.tasks[t], s.messages, s.receipts) {
      TaskFacts(s, r, t);
    }
    forall k | k in rd.handoffs ensures HandoffLoads(rd.doc, rd.handoffs[k], rd.tasks, s.messages) {
      HandoffPasses(s, r, k);
    }
    forall k | k in rd.cases ensures CaseLoads(rd.doc, k, rd.cases[k], rd.tasks, s.messages) {
      CaseFacts(s, r, k);
    }
    forall k | k in rd.replans ensures ReplanLoads(rd.doc, k, rd) <==> ReplanAgrees(rd, k) {
      ReplanFacts(s, r, k);
    }
  }
}
