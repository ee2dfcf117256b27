/** What every reachable session state keeps. */
module Invariant {
  import opened Wrappers
  import opened Text
  import opened Protocol
  import opened Coordinator

  type Messages = map<MessageId, Message>
  type Receipts = map<ReceiptKey, Receipt>
  type Tasks = map<TaskId, ChildTask>

  function KeyOfTask(t: ChildTask): ReceiptKey {
    ReceiptKey(t.owner, t.message)
  }

  // --------------------------------------------------- one run directory

  ghost predicate DocOk(r: RunId, doc: CoordinatorRun, ms: Messages) {
    && RunValid(doc) && doc.id == r
    && doc.rootMessage in ms && ms[doc.rootMessage].thread == doc.rootThread
  }

  ghost predicate TaskOk(r: RunId, doc: CoordinatorRun, id: TaskId, t: ChildTask, ms: Messages, rs: Receipts) {
    && t.id == id && t.parentRun == r
    && TaskValid(t) && Canonical(t) == t
    && t.thread == doc.rootThread
    && t.message in ms && ms[t.message].thread == t.thread
    && ms[t.message].meta == Some(TaskRef(r, id)) && ms[t.message].to == t.owner
    && KeyOfTask(t) in rs
  }

  ghost predicate ResponseOk(doc: CoordinatorRun, h: ReviewHandoff, ms: Messages) {
    && h.responseMessage.Some? && h.responseMessage.value in ms
    && ms[h.responseMessage.value].kind == ReviewResponse
    && ms[h.responseMessage.value].replyTo == h.reviewMessage
    && ms[h.responseMessage.value].thread == doc.rootThread
  }

  ghost predicate HandoffOk(r: RunId, doc: CoordinatorRun, k: TaskId, h: ReviewHandoff, tasks: Tasks, ms: Messages) {
    && HandoffValid(h) && h.run == r && h.sourceTask == k
    && k in tasks && tasks[k].message == h.sourceMessage && NeedsReview(tasks[k])
    && (h.reviewTask.Some? ==>
          && h.reviewTask.value in tasks
          && Some(tasks[h.reviewTask.value].message) == h.reviewMessage
          && tasks[h.reviewTask.value].owner == h.reviewer
          && tasks[h.reviewTask.value].Class() == Some(Review))
    && (h.status == Responded ==> ResponseOk(doc, h, ms))
  }

  /** Created tasks and messages a resolution names exist and belong together. */
  ghost predicate ResolutionOk(res: Resolution, tasks: Tasks, ms: Messages) {
    && (res.createdTask.Some? ==> res.createdTask.value in tasks)
    && (res.createdMessage.Some? ==>
          && res.createdMessage.value in ms
          && (res.createdTask.Some? ==> tasks[res.createdTask.value].message == res.createdMessage.value))
  }

  ghost predicate CaseOk(r: RunId, k: TaskId, b: BlockerCase, tasks: Tasks, ms: Messages, rs: Receipts) {
    && CaseReadable(r, k, b)
    && k in tasks && tasks[k].message == b.sourceMessage && tasks[k].owner == b.sourceOwner
    && b.currentTask in tasks
    && tasks[b.currentTask].message == b.currentMessage && tasks[b.currentTask].owner == b.currentOwner
    && (b.resolution.Some? ==> b.status == Resolved && ResolutionOk(b.resolution.value, tasks, ms))
    && (b.currentTask != k ==> ReceiptFinished(rs, tasks[k]))
  }

  ghost predicate ReplanOk(r: RunId, k: TaskId, p: PartialReplan, tasks: Tasks, cases: map<TaskId, BlockerCase>, rs: Receipts) {
    && ReplanValid(p) && p.run == r && p.sourceTask == k
    && k in tasks && tasks[k].message == p.sourceMessage
    && p.supersededTask in tasks && tasks[p.supersededTask].message == p.supersededMessage
    && p.replacementTask in tasks && tasks[p.replacementTask].message == p.replacementMessage
    && k in cases && cases[k].currentTask != k
    && p.replacementTask !in cases
    && (cases[k].currentTask == p.replacementTask || ReceiptFinished(rs, tasks[p.replacementTask]))
  }

  /** No two cases share a current task, and no case's source is the current task of another. */
  ghost predicate CasesApart(cases: map<TaskId, BlockerCase>) {
    forall i, j :: i in cases && j in cases && i != j ==>
      cases[i].currentTask != cases[j].currentTask && cases[i].currentTask != j
  }

  ghost predicate ReplansApart(replans: map<TaskId, PartialReplan>) {
    forall i, j :: i in replans && j in replans && i != j ==> replans[i].replacementTask != replans[j].replacementTask
  }

  ghost predicate HandoffsApart(handoffs: map<TaskId, ReviewHandoff>) {
    forall i, j :: i in handoffs && j in handoffs && i != j && handoffs[i].reviewTask.Some? ==>
      handoffs[i].reviewTask != handoffs[j].reviewTask
  }

  /** A current task that is not its case's source has the source's class, unless a replan set it. */
  ghost predicate ClassKept(k: TaskId, b: BlockerCase, tasks: Tasks, replans: map<TaskId, PartialReplan>) {
    b.currentTask in tasks && k in tasks ==>
      tasks[b.currentTask].Class() == tasks[k].Class()
      || (k in replans && replans[k].replacementTask == b.currentTask && tasks[b.currentTask].Class() != Some(Review))
  }

  /** All tasks under the key are known to be done or dead. */
  ghost predicate NoneLive(tasks: Tasks, rs: Receipts, key: string) {
    forall x :: x in tasks && tasks[x].Key() == Some(key) ==> ReceiptFinished(rs, tasks[x])
  }

  predicate RecordedAsFanout(t: ChildTask) {
    t.route.Some? && t.route.value.decision.matched.Some?
  }

  /** Two live tasks share a duplicate key only when one of them was recorded as fanout. */
  ghost predicate KeysApart(tasks: Tasks, rs: Receipts) {
    forall i, j :: i in tasks && j in tasks && i != j && tasks[i].Key().Some? && tasks[i].Key() == tasks[j].Key() ==>
      || ReceiptFinished(rs, tasks[i]) || ReceiptFinished(rs, tasks[j])
      || RecordedAsFanout(tasks[i]) || RecordedAsFanout(tasks[j])
  }

  ghost predicate TasksOk(r: RunId, rd: RunDir, ms: Messages, rs: Receipts) {
    forall t :: t in rd.tasks ==> TaskOk(r, rd.doc, t, rd.tasks[t], ms, rs)
  }

  ghost predicate HandoffsOk(r: RunId, rd: RunDir, ms: Messages) {
    forall k :: k in rd.handoffs ==> HandoffOk(r, rd.doc, k, rd.handoffs[k], rd.tasks, ms)
  }

  ghost predicate CasesOk(r: RunId, rd: RunDir, ms: Messages, rs: Receipts) {
    forall k :: k in rd.cases ==> CaseOk(r, k, rd.cases[k], rd.tasks, ms, rs)
  }

  ghost predicate ReplansOk(r: RunId, rd: RunDir, rs: Receipts) {
    forall k :: k in rd.replans ==> ReplanOk(r, k, rd.replans[k], rd.tasks, rd.cases, rs)
  }

  ghost predicate ClassesKept(rd: RunDir) {
    forall k :: k in rd.cases ==> ClassKept(k, rd.cases[k], rd.tasks, rd.replans)
  }

  ghost predicate RunOk(r: RunId, rd: RunDir, ms: Messages, rs: Receipts) {
    && DocOk(r, rd.doc, ms)
    && TasksOk(r, rd, ms, rs) && KeysApart(rd.tasks, rs)
    && HandoffsOk(r, rd, ms) && HandoffsApart(rd.handoffs)
    && CasesOk(r, rd, ms, rs) && CasesApart(rd.cases) && ClassesKept(rd)
    && ReplansOk(r, rd, rs) && ReplansApart(rd.replans)
  }

  // ---------------------------------------------------- the whole session

  ghost predicate ReceiptOk(k: ReceiptKey, r: Receipt, ms: Messages) {
    && k.message in ms && ms[k.message].to == k.agent
    && ReceiptValid(r) && (r.folder == Active ==> r.doneAt.None?)
  }

  ghost predicate ReceiptsOk(ms: Messages, rs: Receipts) {
    forall k :: k in rs ==> ReceiptOk(k, rs[k], ms)
  }

  /** A message that names a task has that task's file, and the task names the message. */
  ghost predicate MetaOk(m: MessageId, msg: Message, runs: map<RunId, RunDir>) {
    msg.meta.Some? ==>
      var ref := msg.meta.value;
      && ref.run in runs && ref.task in runs[ref.run].tasks
      && runs[ref.run].tasks[ref.task].message == m && runs[ref.run].tasks[ref.task].owner == msg.to
  }

  ghost predicate MetasOk(ms: Messages, runs: map<RunId, RunDir>) {
    forall m :: m in ms ==> MetaOk(m, ms[m], runs)
  }

  ghost predicate IdsOk(s: State) {
    && (forall m :: m in s.messages ==> m <= s.seqno)
    && (forall r :: r in s.runs ==> r <= s.seqno)
    && (forall r, t :: r in s.runs && t in s.runs[r].tasks ==> t <= s.seqno)
  }

  ghost predicate RunsOk(s: State) {
    forall r :: r in s.runs ==> RunOk(r, s.runs[r], s.messages, s.receipts)
  }

  ghost predicate Inv(s: State) {
    IdsOk(s) && MetasOk(s.messages, s.runs) && ReceiptsOk(s.messages, s.receipts) && RunsOk(s)
  }

  // ---------------------------------------------------------- growth

  /** Messages are only added, receipts are never lost, and a finished one keeps its folder. */
  ghost predicate Grows(ms: Messages, rs: Receipts, ms': Messages, rs': Receipts) {
    && (forall m :: m in ms ==> m in ms' && ms'[m] == ms[m])
    && (forall k :: k in rs ==> k in rs' && (Finished(rs[k].folder) ==> rs'[k].folder == rs[k].folder))
  }

  lemma GrowsTransitive(ms: Messages, rs: Receipts, ms1: Messages, rs1: Receipts, ms2: Messages, rs2: Receipts)
    requires Grows(ms, rs, ms1, rs1) && Grows(ms1, rs1, ms2, rs2)
    ensures Grows(ms, rs, ms2, rs2)
  {
  }

  lemma KeysApartGrows(tasks: Tasks, ms: Messages, rs: Receipts, ms': Messages, rs': Receipts)
    requires KeysApart(tasks, rs) && Grows(ms, rs, ms', rs')
    ensures KeysApart(tasks, rs')
  {
  }

  lemma RunOkGrows(r: RunId, rd: RunDir, ms: Messages, rs: Receipts, ms': Messages, rs': Receipts)
    requires RunOk(r, rd, ms, rs) && Grows(ms, rs, ms', rs')
    ensures RunOk(r, rd, ms', rs')
  {
    hide TaskValid;
    hide CaseValid;
    hide HandoffValid;
    hide ReplanValid;
    hide RunValid;
    hide Canonical;
    hide KeysApart;
    KeysApartGrows(rd.tasks, ms, rs, ms', rs');
    forall t | t in rd.tasks ensures TaskOk(r, rd.doc, t, rd.tasks[t], ms', rs') {
      assert TaskOk(r, rd.doc, t, rd.tasks[t], ms, rs);
    }
    forall k | k in rd.handoffs ensures HandoffOk(r, rd.doc, k, rd.handoffs[k], rd.tasks, ms') {
      assert HandoffOk(r, rd.doc, k, rd.handoffs[k], rd.tasks, ms);
    }
    forall k | k in rd.cases ensures CaseOk(r, k, rd.cases[k], rd.tasks, ms', rs') {
      assert CaseOk(r, k, rd.cases[k], rd.tasks, ms, rs);
    }
    forall k | k in rd.replans ensures ReplanOk(r, k, rd.replans[k], rd.tasks, rd.cases, rs') {
      assert ReplanOk(r, k, rd.replans[k], rd.tasks, rd.cases, rs);
    }
  }

  /** Growth of messages and receipts, and of the counter, disturbs no run. */
  lemma InvGrows(s: State, s': State)
    requires Inv(s) && s'.runs == s.runs && s'.seqno >= s.seqno
    requires Grows(s.messages, s.receipts, s'.messages, s'.receipts)
    requires ReceiptsOk(s'.messages, s'.receipts)
    requires forall m :: m in s'.messages && m !in s.messages ==> m <= s'.seqno && s'.messages[m].meta.None?
    ensures Inv(s')
  {
    forall r | r in s'.runs ensures RunOk(r, s'.runs[r], s'.messages, s'.receipts) {
      RunOkGrows(r, s.runs[r], s.messages, s.receipts, s'.messages, s'.receipts);
    }
    forall m | m in s'.messages ensures MetaOk(m, s'.messages[m], s'.runs) {
      if m in s.messages { assert MetaOk(m, s.messages[m], s.runs); }
    }
  }

  lemma SetReceiptKeepsInv(s: State, k: ReceiptKey, r: Receipt)
    requires Inv(s) && k in s.receipts
    requires ReceiptOk(k, r, s.messages) && (Finished(s.receipts[k].folder) ==> r.folder == s.receipts[k].folder)
    ensures Inv(s.(receipts := s.receipts[k := r]))
  {
    InvGrows(s, s.(receipts := s.receipts[k := r]));
  }

  lemma BumpKeepsInv(s: State, n: nat)
    requires Inv(s) && n >= s.seqno
    ensures Inv(s.(seqno := n))
  {
    InvGrows(s, s.(seqno := n));
  }

  /** A run directory may be exchanged for another good one that has the same tasks. */
  lemma SetRunKeepsInv(s: State, r: RunId, rd: RunDir)
    requires Inv(s) && r in s.runs && rd.tasks == s.runs[r].tasks
    requires RunOk(r, rd, s.messages, s.receipts)
    ensures Inv(s.(runs := s.runs[r := rd]))
  {
    hide RunOk;
    hide ReceiptsOk;
    forall m | m in s.messages ensures MetaOk(m, s.messages[m], s.runs[r := rd]) {
      assert MetaOk(m, s.messages[m], s.runs);
    }
  }

  /** A message under the next number never collides, and it disturbs nothing. */
  lemma DeliverPlain(s: State, id: MessageId, msg: Message)
    requires Inv(s) && id == s.seqno + 1 && msg.meta.None?
    ensures Deliver(s.(seqno := id), id, msg).Ok?
    ensures Inv(Deliver(s.(seqno := id), id, msg).st)
    ensures ReceiptKey(msg.to, id) !in s.receipts
    ensures Grows(s.messages, s.receipts, Deliver(s.(seqno := id), id, msg).st.messages, Deliver(s.(seqno := id), id, msg).st.receipts)
  {
    var k := ReceiptKey(msg.to, id);
    assert id !in s.messages;
    assert k in s.receipts ==> ReceiptOk(k, s.receipts[k], s.messages);
    var s' := Deliver(s.(seqno := id), id, msg).st;
    forall k' | k' in s'.receipts ensures ReceiptOk(k', s'.receipts[k'], s'.messages) {
      if k' in s.receipts { assert ReceiptOk(k', s.receipts[k'], s.messages); }
    }
    InvGrows(s, s');
  }
}
