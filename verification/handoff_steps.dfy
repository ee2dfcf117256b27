/** Review handoffs: made once when a task is done, answered at most once. */
module HandoffSteps {
  import opened Wrappers
  import opened Text
  import opened Protocol
  import opened Routing
  import opened Coordinator
  import opened Invariant
  import opened ReceiptSteps
  import opened TaskSteps
  import opened Evolution

  lemma PutHandoffKeepsInv(s: State, r: RunId, h: ReviewHandoff)
    requires Inv(s) && r in s.runs
    requires HandoffOk(r, s.runs[r].doc, h.sourceTask, h, s.runs[r].tasks, s.messages)
    requires forall j :: j in s.runs[r].handoffs && j != h.sourceTask && h.reviewTask.Some? ==>
               s.runs[r].handoffs[j].reviewTask != h.reviewTask
    ensures Inv(PutHandoff(s, r, h))
  {
    hide HandoffOk;
    hide TasksOk;
    hide CasesOk;
    hide ReplansOk;
    hide ClassesKept;
    hide MetasOk;
    hide IdsOk;
    hide ReceiptsOk;
    hide DocOk;
    var rd := s.runs[r];
    var rd' := rd.(handoffs := rd.handoffs[h.sourceTask := h]);
    assert RunOk(r, rd, s.messages, s.receipts);
    SameButHandoffs(r, rd, rd', s.messages, s.receipts);
    assert RunOk(r, rd', s.messages, s.receipts);
    SetRunKeepsInv(s, r, rd');
  }

  lemma SameButHandoffs(r: RunId, rd: RunDir, rd': RunDir, ms: Messages, rs: Receipts)
    requires TasksOk(r, rd, ms, rs) && CasesOk(r, rd, ms, rs) && ClassesKept(rd) && ReplansOk(r, rd, rs)
    requires rd'.doc == rd.doc && rd'.tasks == rd.tasks && rd'.cases == rd.cases && rd'.replans == rd.replans
    ensures TasksOk(r, rd', ms, rs) && CasesOk(r, rd', ms, rs) && ClassesKept(rd') && ReplansOk(r, rd', rs)
  {
    hide TaskOk;
    hide CaseOk;
    hide ClassKept;
    hide ReplanOk;
  }

  /** The task a message carries, as every reachable state has it. */
  lemma CarriedTask(s: State, m: MessageId)
    requires Inv(s) && m in s.messages && s.messages[m].meta.Some?
    ensures var ref := s.messages[m].meta.value;
            && ref.run in s.runs && ref.task in s.runs[ref.run].tasks
            && var t := s.runs[ref.run].tasks[ref.task];
               && t.message == m && t.owner == s.messages[m].to && t.id == ref.task && t.parentRun == ref.run
               && TaskValid(t) && KeyOfTask(t) in s.receipts
  {
    hide TaskValid;
    hide Canonical;
    hide HandoffsOk;
    hide CasesOk;
    hide ReplansOk;
    hide ClassesKept;
    hide DocOk;
    hide ReceiptsOk;
    var ref := s.messages[m].meta.value;
    assert MetaOk(m, s.messages[m], s.runs);
    assert RunOk(ref.run, s.runs[ref.run], s.messages, s.receipts);
    assert TaskOk(ref.run, s.runs[ref.run].doc, ref.task, s.runs[ref.run].tasks[ref.task], s.messages, s.receipts);
  }

  /** No handoff names a review task that does not exist yet. */
  lemma ReviewTasksExist(s: State, r: RunId, k: TaskId)
    requires Inv(s) && r in s.runs && k in s.runs[r].handoffs && s.runs[r].handoffs[k].reviewTask.Some?
    ensures s.runs[r].handoffs[k].reviewTask.value in s.runs[r].tasks
  {
    hide HandoffValid;
    hide TasksOk;
    hide CasesOk;
    hide ReplansOk;
    hide ClassesKept;
    hide DocOk;
    assert RunOk(r, s.runs[r], s.messages, s.receipts);
    assert HandoffOk(r, s.runs[r].doc, k, s.runs[r].handoffs[k], s.runs[r].tasks, s.messages);
  }

  // ------------------------------------------------- after a task is done

  /** Routing the review failed: the failure is recorded, and at most two numbers are used up. */
  ghost predicate FailureRecorded(s: State, s': State, r: RunId, k: TaskId) {
    && r in s.runs && r in s'.runs && k in s'.runs[r].handoffs && k !in s.runs[r].handoffs
    && s'.runs[r].handoffs[k].status == HandoffFailed && s'.runs[r].handoffs[k].reviewTask.None?
    && (s'.seqno == s.seqno || s'.seqno == s.seqno + 2)
    && s' == PutHandoff(s, r, s'.runs[r].handoffs[k]).(seqno := s'.seqno)
  }

  /** The review was routed: one review task more, and a pending handoff that names it. */
  ghost predicate ReviewAssigned(s: State, s1: State, s': State, r: RunId, k: TaskId, t: ChildTask) {
    && Added(s, s1, r, t) && t.Class() == Some(Review) && t.dependsOn == []
    && r in s'.runs && k in s'.runs[r].handoffs && k !in s.runs[r].handoffs
    && s'.runs[r].handoffs[k].status == Pending && s'.runs[r].handoffs[k].reviewTask == Some(t.id)
    && s' == PutHandoff(s1, r, s'.runs[r].handoffs[k])
  }

  ghost predicate HandoffMade(s: State, s': State, r: RunId, k: TaskId) {
    FailureRecorded(s, s', r, k) || exists s1, t :: ReviewAssigned(s, s1, s', r, k, t)
  }

  lemma RecordFailure(s: State, n: nat, ref: TaskRef, m: MessageId, now: Time)
    requires Inv(s) && n >= s.seqno && m in s.messages && s.messages[m].meta == Some(ref)
    requires ref.run in s.runs && ref.task in s.runs[ref.run].tasks
    requires NeedsReview(s.runs[ref.run].tasks[ref.task]) && ref.task !in s.runs[ref.run].handoffs
    ensures var o := UpsertFailedHandoff(s.(seqno := n), FailedHandoff(ref, m, "route review handoff", now));
            && Inv(o.st) && o.Ok?
            && (n == s.seqno || n == s.seqno + 2 ==> FailureRecorded(s, o.st, ref.run, ref.task))
  {
    hide Inv;
    hide Blank;
    hide TaskValid;
    CarriedTask(s, m);
    BumpKeepsInv(s, n);
    var h := FailedHandoff(ref, m, "route review handoff", now);
    VisibleHead("route review handoff");
    assert HandoffValid(h) by { GeneratedRef(s.runs[ref.run].tasks[ref.task]); }
    PutHandoffKeepsInv(s.(seqno := n), ref.run, h);
  }

  lemma GeneratedRef(t: ChildTask)
    requires TaskValid(t)
    ensures Generated(t.id) && Generated(t.parentRun) && !Blank(t.owner)
  {
  }

  lemma AssignReview(s: State, s1: State, ref: TaskRef, m: MessageId, t: ChildTask, now: Time)
    requires Inv(s) && m in s.messages && s.messages[m].meta == Some(ref)
    requires ref.run in s.runs && ref.task in s.runs[ref.run].tasks
    requires NeedsReview(s.runs[ref.run].tasks[ref.task]) && ref.task !in s.runs[ref.run].handoffs
    requires Added(s, s1, ref.run, t) && t.Class() == Some(Review) && t.dependsOn == []
    ensures var h := ReviewHandoff(ref.run, ref.task, m, Some(t.id), Some(t.message), t.owner,
                                   Pending, "", None, None, now, None);
            var o := CreateHandoff(s1, h);
            && o.Ok? && Inv(o.st) && ReviewAssigned(s, s1, o.st, ref.run, ref.task, t)
  {
    hide Inv;
    hide Blank;
    hide TaskValid;
    hide Canonical;
    hide Grows;
    CarriedTask(s, m);
    AddedKeepsInv(s, s1, ref.run, t);
    GeneratedRef(t);
    GeneratedRef(s.runs[ref.run].tasks[ref.task]);
    NumbersFresh(s, ref.run, KeyOfTask(t));
    var h := ReviewHandoff(ref.run, ref.task, m, Some(t.id), Some(t.message), t.owner,
                           Pending, "", None, None, now, None);
    forall j | j in s1.runs[ref.run].handoffs ensures s1.runs[ref.run].handoffs[j].reviewTask != Some(t.id) {
      if s.runs[ref.run].handoffs[j].reviewTask.Some? { ReviewTasksExist(s, ref.run, j); }
    }
    PutHandoffKeepsInv(s1, ref.run, h);
  }

  /** A done task is handed to a reviewer once; when a handoff exists, nothing at all happens. */
  lemma HandoffAfterDoneKeepsInv(s: State, cfg: Config, env: Environment, m: MessageId, now: Time)
    requires Inv(s) && m in s.messages
    ensures var o := HandoffAfterDone(s, cfg, env, m, now);
            && Inv(o.st) && o.Ok?
            && (s.messages[m].meta.None? ==> o.st == s)
            && (s.messages[m].meta.Some? ==>
                  var ref := s.messages[m].meta.value;
                  && ref.run in s.runs && ref.task in s.runs[ref.run].tasks
                  && if !NeedsReview(s.runs[ref.run].tasks[ref.task]) || ref.task in s.runs[ref.run].handoffs
                     then o.st == s
                     else HandoffMade(s, o.st, ref.run, ref.task))
  {
    hide Inv;
    hide TaskValid;
    hide Added;
    hide RouteChildTask;
    hide FailureRecorded;
    hide CreateHandoff;
    hide UpsertFailedHandoff;
    if s.messages[m].meta.Some? {
      var ref := s.messages[m].meta.value;
      CarriedTask(s, m);
      var source := s.runs[ref.run].tasks[ref.task];
      if ref.task in s.runs[ref.run].handoffs {
        StoredHandoffValid(s, ref.run, ref.task);
      } else if NeedsReview(source) {
        var req := Request(source.parentRun, Review, source.route.value.normalizedDomains,
                           REVIEW_GOAL + source.goal, REVIEW_OUTPUT, false, "", "");
        RouteAdds(s, cfg, env, req, now);
        var routed := RouteChildTask(s, cfg, env, req, now);
        if routed.Ok? {
          AssignReview(s, routed.st, ref, m, routed.value, now);
        } else {
          RecordFailure(s, routed.st.seqno, ref, m, now);
        }
      }
    }
  }

  lemma StoredHandoffValid(s: State, r: RunId, k: TaskId)
    requires Inv(s) && r in s.runs && k in s.runs[r].handoffs
    ensures HandoffOk(r, s.runs[r].doc, k, s.runs[r].handoffs[k], s.runs[r].tasks, s.messages)
  {
    hide HandoffOk;
    assert RunOk(r, s.runs[r], s.messages, s.receipts);
  }

  // ----------------------------------------------------------- responding

  /** The handoff a review task answers is found without ambiguity. */
  lemma FindHandoffFinds(s: State, r: RunId, t: TaskId)
    requires Inv(s) && r in s.runs
    ensures var f := FindHandoff(s.runs[r], t);
            && (f.Failure? <==> HandoffsFor(s.runs[r], t) == {})
            && (f.Success? ==>
                  && f.value.sourceTask in s.runs[r].handoffs && s.runs[r].handoffs[f.value.sourceTask] == f.value
                  && f.value.reviewTask == Some(t))
  {
    hide Inv;
    hide HandoffValid;
    hide ResponseOk;
    hide NeedsReview;
    var rd := s.runs[r];
    ApartHandoffs(s, r);
    forall k | k in rd.handoffs ensures HandoffValid(rd.handoffs[k]) && rd.handoffs[k].sourceTask == k {
      StoredHandoffValid(s, r, k);
    }
    if HandoffsFor(rd, t) != {} {
      var k := MinOf(HandoffsFor(rd, t));
      assert forall j :: j in HandoffsFor(rd, t) ==> j == k;
      assert HandoffsFor(rd, t) == {k};
    }
  }

  /** The state a response leaves: the reply, the finished receipt and the answered handoff. */
  lemma AnswerKeepsInv(s: State, r: RunId, k: TaskId, m: MessageId, id: MessageId, outcome: ReviewOutcome, now: Time)
    requires Inv(s) && r in s.runs && k in s.runs[r].handoffs
    requires var h := s.runs[r].handoffs[k];
             && h.status == Pending && h.reviewMessage == Some(m)
    requires id in s.messages && s.messages[id].kind == ReviewResponse
    requires s.messages[id].replyTo == Some(m) && s.messages[id].thread == s.runs[r].doc.rootThread
    ensures var h' := s.runs[r].handoffs[k].(responseMessage := Some(id), outcome := Some(outcome),
                                             respondedAt := Some(now), status := Responded);
            && HandoffValid(h') && h'.sourceTask == k
            && Inv(PutHandoff(s, r, h'))
            && Evolves(s, PutHandoff(s, r, h')) && Calm(s, PutHandoff(s, r, h')) && CasesSame(s, PutHandoff(s, r, h'))
  {
    hide Inv;
    hide Blank;
    hide Evolves;
    hide Calm;
    hide NoNewDeps;
    hide CasesSame;
    StoredHandoffValid(s, r, k);
    ApartHandoffs(s, r);
    var h' := s.runs[r].handoffs[k].(responseMessage := Some(id), outcome := Some(outcome),
                                     respondedAt := Some(now), status := Responded);
    PutHandoffKeepsInv(s, r, h');
    PutHandoffEvolves(s, r, h');
  }

  lemma PutHandoffEvolves(s: State, r: RunId, h: ReviewHandoff)
    requires r in s.runs
    requires h.sourceTask in s.runs[r].handoffs ==> HandoffEvolves(s.runs[r].handoffs[h.sourceTask], h)
    ensures Evolves(s, PutHandoff(s, r, h)) && Calm(s, PutHandoff(s, r, h)) && CasesSame(s, PutHandoff(s, r, h))
  {
    OneRunEvolves(s, PutHandoff(s, r, h), r, PutHandoff(s, r, h).runs[r]);
  }

  lemma ApartHandoffs(s: State, r: RunId)
    requires Inv(s) && r in s.runs
    ensures HandoffsApart(s.runs[r].handoffs)
  {
    assert RunOk(r, s.runs[r], s.messages, s.receipts);
  }

  /** Delivering the reply and finishing the review task's receipt. */
  lemma ReplyKeepsInv(s: State, k: ReceiptKey, reply: Message, now: Time)
    requires Inv(s) && k in s.receipts && s.receipts[k].folder == Active && reply.meta.None?
    ensures var id := s.seqno + 1;
            var o := Deliver(s.(seqno := id), id, reply);
            var o1 := UpdateReceipt(o.st, k, Complete(now));
            var o2 := MoveReceipt(o1.st, k, Active, Done);
            && o.Ok? && o1.Ok? && o2.Ok? && Inv(o2.st)
            && o2.st.runs == s.runs && o2.st.messages == s.messages[id := reply]
            && Evolves(s, o2.st) && Calm(s, o2.st) && CasesSame(s, o2.st)
  {
    hide RunsOk;
    hide IdsOk;
    hide MetasOk;
    hide ReceiptsOk;
    hide RunEvolves;
    var id := s.seqno + 1;
    DeliverPlain(s, id, reply);
    var s1 := Deliver(s.(seqno := id), id, reply).st;
    CompleteKeepsInv(s1, k, now);
    var s2 := MoveReceipt(UpdateReceipt(s1, k, Complete(now)).st, k, Active, Done).st;
    SameRunsEvolve(s, s2);
  }

  lemma CarriedThread(s: State, m: MessageId)
    requires Inv(s) && m in s.messages && s.messages[m].meta.Some?
    ensures s.messages[m].meta.value.run in s.runs
    ensures s.messages[m].thread == s.runs[s.messages[m].meta.value.run].doc.rootThread
  {
    hide TaskValid;
    hide Canonical;
    hide HandoffsOk;
    hide CasesOk;
    hide ReplansOk;
    hide ClassesKept;
    hide DocOk;
    hide ReceiptsOk;
    var ref := s.messages[m].meta.value;
    assert MetaOk(m, s.messages[m], s.runs);
    assert RunOk(ref.run, s.runs[ref.run], s.messages, s.receipts);
    assert TaskOk(ref.run, s.runs[ref.run].doc, ref.task, s.runs[ref.run].tasks[ref.task], s.messages, s.receipts);
  }

  lemma LoadedRunsSame(s: State, s1: State)
    requires s1.runs == s.runs && s1.messages == s.messages && s1.seqno == s.seqno
    requires SameProgress(s.receipts, s1.receipts)
    ensures Evolves(s, s1) && Calm(s, s1) && CasesSame(s, s1)
  {
    hide RunEvolves;
    SameRunsEvolve(s, s1);
  }

  lemma CasesSameTrans(s: State, s1: State, s2: State)
    requires CasesSame(s, s1) && CasesSame(s1, s2)
    ensures CasesSame(s, s2)
  {
  }

  lemma RespondKeepsInv(s: State, cfg: Config, agent: string, m: MessageId, outcome: ReviewOutcome, body: string, now: Time)
    requires Inv(s)
    ensures var o := ReviewRespond(s, cfg, agent, m, outcome, body, now);
            Inv(o.st) && Evolves(s, o.st) && Calm(s, o.st) && CasesSame(s, o.st)
  {
    hide Inv;
    hide Evolves;
    hide Calm;
    hide NoNewDeps;
    hide CasesSame;
    hide LoadActiveTask;
    hide FindHandoff;
    hide Deliver;
    hide UpdateReceipt;
    hide MoveReceipt;
    hide Resolve;
    hide Trim;
    hide HandoffValid;
    hide SameProgress;
    assert SameProgress(s.receipts, s.receipts) by { SameProgressRefl(s.receipts); }
    LoadedRunsSame(s, s);
    LoadActiveKeepsInv(s, cfg, agent, m, now);
    var a := LoadActiveTask(s, cfg, agent, m, now);
    var s1 := a.st;
    LoadedRunsSame(s, s1);
    if a.Ok? && a.value.msg.kind == ReviewRequest && a.value.msg.meta.Some? && Resolve(cfg, a.value.agent).Some? {
      var ref, k := a.value.msg.meta.value, ReceiptKey(a.value.agent, m);
      CarriedThread(s1, m);
      FindHandoffFinds(s1, ref.run, ref.task);
      var f := FindHandoff(s1.runs[ref.run], ref.task);
      if f.Success? && f.value.status == Pending && f.value.reviewMessage == Some(m) {
        var id := s1.seqno + 1;
        var reply := Message(a.value.msg.thread, ReplyKind(a.value.msg.kind), Resolve(cfg, a.value.agent).value,
                             a.value.msg.from, Some(m), false, None);
        ReplyKeepsInv(s1, k, reply, now);
        var s4 := MoveReceipt(UpdateReceipt(Deliver(s1.(seqno := id), id, reply).st, k, Complete(now)).st, k, Active, Done).st;
        AnswerKeepsInv(s4, ref.run, f.value.sourceTask, m, id, outcome, now);
        var s5 := ReviewRespond(s, cfg, agent, m, outcome, body, now).st;
        EvolvesTrans(s, s1, s4);
        CasesSameTrans(s, s1, s4);
        if s5.runs != s4.runs {
          EvolvesTrans(s, s4, s5);
          CasesSameTrans(s, s4, s5);
        }
      }
    }
  }

  lemma SameProgressRefl(rs: Receipts)
    ensures SameProgress(rs, rs)
  {
  }
}
