/** Every command keeps the invariant and undoes nothing, whatever its arguments. */
module Commands {
  import opened Wrappers
  import opened Text
  import opened Protocol
  import opened Coordinator
  import opened Invariant
  import opened ReceiptSteps
  import opened TaskSteps
  import opened HandoffSteps
  import opened BlockerSteps
  import opened ResolveSteps
  import opened Evolution

  lemma StartedEvolves(s: State, s': State)
    requires RunStarted(s, s', s.seqno + 1) && s.seqno <= s'.seqno
    requires Grows(s.messages, s.receipts, s'.messages, s'.receipts)
    ensures Evolves(s, s') && Calm(s, s') && CasesSame(s, s')
  {
    hide RunEvolves;
    forall r | r in s.runs ensures RunEvolves(s.runs[r], s'.runs[r]) {
      RunEvolvesRefl(s.runs[r]);
    }
    var r := s.seqno + 1;
    assert s'.runs[r].tasks == map[] && s'.runs[r].replans == map[];
    forall x | x in s'.runs ensures NoDeps(if x in s.runs then s.runs[x].tasks else map[], s'.runs[x].tasks) {
    }
  }

  lemma AddedEvolves(s: State, s': State, r: RunId, t: ChildTask)
    requires Inv(s) && Added(s, s', r, t)
    ensures Evolves(s, s') && ReplansSame(s, s') && CasesSame(s, s')
    ensures t.dependsOn == [] ==> Calm(s, s')
  {
    hide Inv;
    hide TaskValid;
    hide Canonical;
    hide Grows;
    AddedKeepsInv(s, s', r, t);
    NumbersFresh(s, r, KeyOfTask(t));
    OneRunEvolves(s, s', r, s'.runs[r]);
  }

  lemma MadeEvolves(s: State, s': State, r: RunId, k: TaskId)
    requires Inv(s) && HandoffMade(s, s', r, k)
    ensures Evolves(s, s') && Calm(s, s') && CasesSame(s, s')
  {
    hide Inv;
    hide Added;
    hide Evolves;
    hide Calm;
    hide NoNewDeps;
    hide CasesSame;
    if FailureRecorded(s, s', r, k) {
      var h := s'.runs[r].handoffs[k];
      assert h.sourceTask == k by { PutAt(s, r, h, s', k); }
      PutHandoffEvolves(s.(seqno := s'.seqno), r, h);
      BumpEvolves(s, s'.seqno);
      EvolvesTrans(s, s.(seqno := s'.seqno), s');
      CasesSameTrans(s, s.(seqno := s'.seqno), s');
    } else {
      var s1, t :| ReviewAssigned(s, s1, s', r, k, t);
      AddedEvolves(s, s1, r, t);
      AddedHandoffsSame(s, s1, r, t);
      var h := s'.runs[r].handoffs[k];
      PutAt(s1, r, h, s', k);
      PutHandoffEvolves(s1, r, h);
      EvolvesTrans(s, s1, s');
      CasesSameTrans(s, s1, s');
    }
  }

  lemma PutAt(s: State, r: RunId, h: ReviewHandoff, s': State, k: TaskId)
    requires r in s.runs && k !in s.runs[r].handoffs && s'.runs == PutHandoff(s, r, h).runs && k in s'.runs[r].handoffs
    ensures h.sourceTask == k
  {
  }

  lemma AddedHandoffsSame(s: State, s1: State, r: RunId, t: ChildTask)
    requires Added(s, s1, r, t)
    ensures r in s.runs && r in s1.runs && s1.runs[r].handoffs == s.runs[r].handoffs
  {
    hide TaskValid;
    hide Canonical;
  }

  lemma BumpEvolves(s: State, n: nat)
    requires s.seqno <= n
    ensures Evolves(s, s.(seqno := n)) && Calm(s, s.(seqno := n)) && CasesSame(s, s.(seqno := n))
  {
    hide RunEvolves;
    SameRunsEvolve(s, s.(seqno := n));
  }

  lemma DoneEvolves(s: State, cfg: Config, env: Environment, agent: string, m: MessageId, now: Time)
    requires Inv(s)
    ensures var o := TaskDone(s, cfg, env, agent, m, now);
            Inv(o.st) && Evolves(s, o.st) && Calm(s, o.st) && CasesSame(s, o.st)
  {
    hide Inv;
    hide Evolves;
    hide Calm;
    hide NoNewDeps;
    hide CasesSame;
    hide LoadActiveTask;
    hide HandoffAfterDone;
    hide HandoffMade;
    LoadActiveKeepsInv(s, cfg, agent, m, now);
    var o := LoadActiveTask(s, cfg, agent, m, now);
    LoadedRunsSame(s, o.st);
    if o.Ok? && !ClaimedByOther(o.value) {
      var k := ReceiptKey(o.value.agent, m);
      CompleteKeepsInv(o.st, k, now);
      var s3 := MoveReceipt(UpdateReceipt(o.st, k, Complete(now)).st, k, Active, Done).st;
      SentEvolves(o.st, s3);
      EvolvesTrans(s, o.st, s3);
      CasesSameTrans(s, o.st, s3);
      HandoffAfterDoneKeepsInv(s3, cfg, env, m, now);
      var s4 := HandoffAfterDone(s3, cfg, env, m, now).st;
      if s4 != s3 {
        var ref := s3.messages[m].meta.value;
        MadeEvolves(s3, s4, ref.run, ref.task);
        EvolvesTrans(s, s3, s4);
        CasesSameTrans(s, s3, s4);
      }
    }
  }

  /** A completed task's receipt is done, and if it asked for review, its handoff is on disk. */
  lemma DoneHandsOff(s: State, cfg: Config, env: Environment, agent: string, m: MessageId, now: Time)
    requires Inv(s)
    ensures var o := TaskDone(s, cfg, env, agent, m, now);
            o.Ok? ==>
              && Resolve(cfg, agent).Some? && m in s.messages
              && (var k := ReceiptKey(Resolve(cfg, agent).value, m); k in o.st.receipts && o.st.receipts[k].folder == Done)
              && (s.messages[m].meta.Some? ==>
                    var ref := s.messages[m].meta.value;
                    && ref.run in s.runs && ref.task in s.runs[ref.run].tasks && ref.run in o.st.runs
                    && (NeedsReview(s.runs[ref.run].tasks[ref.task]) ==> ref.task in o.st.runs[ref.run].handoffs))
  {
    hide Inv;
    hide LoadActiveTask;
    hide HandoffAfterDone;
    hide HandoffMade;
    hide NeedsReview;
    hide Resolve;
    LoadActiveKeepsInv(s, cfg, agent, m, now);
    LoadedBy(s, cfg, agent, m, now);
    var a := LoadActiveTask(s, cfg, agent, m, now);
    if a.Ok? && !ClaimedByOther(a.value) {
      var k := ReceiptKey(a.value.agent, m);
      CompleteKeepsInv(a.st, k, now);
      var s3 := MoveReceipt(UpdateReceipt(a.st, k, Complete(now)).st, k, Active, Done).st;
      HandoffAfterDoneKeepsInv(s3, cfg, env, m, now);
      DoneStaysDone(s3, cfg, env, m, now, k);
      if s3.messages[m].meta.Some? {
        var ref := s3.messages[m].meta.value;
        assert HandoffMade(s3, HandoffAfterDone(s3, cfg, env, m, now).st, ref.run, ref.task) ==>
                 ref.run in HandoffAfterDone(s3, cfg, env, m, now).st.runs
                 && ref.task in HandoffAfterDone(s3, cfg, env, m, now).st.runs[ref.run].handoffs by {
          MadeHandoff(s3, HandoffAfterDone(s3, cfg, env, m, now).st, ref.run, ref.task);
        }
      }
    }
  }

  lemma LoadedBy(s: State, cfg: Config, agent: string, m: MessageId, now: Time)
    ensures var o := LoadActiveTask(s, cfg, agent, m, now);
            o.Ok? ==> Resolve(cfg, agent) == Some(o.value.agent)
  {
    hide Resolve;
    hide ReadMsg;
  }

  lemma MadeHandoff(s: State, s': State, r: RunId, k: TaskId)
    ensures HandoffMade(s, s', r, k) ==> r in s'.runs && k in s'.runs[r].handoffs
  {
    hide Added;
  }

  /** The handoff step adds a receipt at most. */
  lemma DoneStaysDone(s: State, cfg: Config, env: Environment, m: MessageId, now: Time, k: ReceiptKey)
    requires Inv(s) && m in s.messages && k in s.receipts
    ensures k in HandoffAfterDone(s, cfg, env, m, now).st.receipts
    ensures HandoffAfterDone(s, cfg, env, m, now).st.receipts[k] == s.receipts[k]
  {
    hide Inv;
    hide HandoffAfterDone;
    hide HandoffMade;
    hide NeedsReview;
    HandoffAfterDoneKeepsInv(s, cfg, env, m, now);
    var s' := HandoffAfterDone(s, cfg, env, m, now).st;
    if s.messages[m].meta.Some? {
      var ref := s.messages[m].meta.value;
      MadeKeepsReceipt(s, s', ref.run, ref.task, k);
    }
  }

  lemma MadeKeepsReceipt(s: State, s': State, r: RunId, t: TaskId, k: ReceiptKey)
    requires Inv(s) && k in s.receipts
    ensures HandoffMade(s, s', r, t) ==> k in s'.receipts && s'.receipts[k] == s.receipts[k]
  {
    hide Inv;
    hide TaskValid;
    hide Canonical;
    hide NoneLive;
    if HandoffMade(s, s', r, t) && !FailureRecorded(s, s', r, t) {
      var s1, x :| ReviewAssigned(s, s1, s', r, t, x);
      NumbersFresh(s, r, KeyOfTask(x));
    }
  }

  lemma AddChildEvolves(s: State, cfg: Config, r: RunId, req: ChildRequest, now: Time)
    requires Inv(s)
    ensures var o := AddChildTask(s, cfg, r, req, now);
            && Inv(o.st) && Evolves(s, o.st) && CasesSame(s, o.st)
            && (if o.Ok? then Added(s, o.st, r, o.value) && o.value.dependsOn == req.dependsOn && ReplansSame(s, o.st)
                else Calm(s, o.st))
  {
    hide Inv;
    hide Evolves;
    hide Calm;
    hide CasesSame;
    hide AddChildTask;
    hide Added;
    AddChildKeepsInv(s, cfg, r, req, now);
    var o := AddChildTask(s, cfg, r, req, now);
    BumpEvolves(s, s.seqno);
    BumpEvolves(s, s.seqno + 2);
    if o.Ok? { AddedEvolves(s, o.st, r, o.value); }
  }

  lemma RouteEvolves(s: State, cfg: Config, env: Environment, req: Routing.Request, now: Time)
    requires Inv(s)
    ensures var o := RouteChildTask(s, cfg, env, req, now);
            Inv(o.st) && Evolves(s, o.st) && Calm(s, o.st) && CasesSame(s, o.st)
  {
    hide Inv;
    hide Evolves;
    hide Calm;
    hide NoNewDeps;
    hide CasesSame;
    hide RouteChildTask;
    hide Added;
    RouteAdds(s, cfg, env, req, now);
    var o := RouteChildTask(s, cfg, env, req, now);
    BumpEvolves(s, s.seqno);
    BumpEvolves(s, s.seqno + 2);
    if o.Ok? { AddedEvolves(s, o.st, req.run, o.value); }
  }

  lemma StartEvolves(s: State, cfg: Config, goal: string, coordinator: string, createdBy: string, now: Time)
    requires Inv(s)
    ensures var o := StartRun(s, cfg, goal, coordinator, createdBy, now);
            Inv(o.st) && Evolves(s, o.st) && Calm(s, o.st) && CasesSame(s, o.st)
  {
    hide Inv;
    hide Evolves;
    hide Calm;
    hide NoNewDeps;
    hide CasesSame;
    hide RunStarted;
    StartKeepsInv(s, cfg, goal, coordinator, createdBy, now);
    StartCounts(s, cfg, goal, coordinator, createdBy, now);
    var o := StartRun(s, cfg, goal, coordinator, createdBy, now);
    if o.st.runs == s.runs { SentEvolves(s, o.st); } else { StartedEvolves(s, o.st); }
  }

  lemma StartCounts(s: State, cfg: Config, goal: string, coordinator: string, createdBy: string, now: Time)
    ensures s.seqno <= StartRun(s, cfg, goal, coordinator, createdBy, now).st.seqno
  {
    hide Trim;
    hide RunValid;
    hide ResolveIn;
    hide AllowedOwnersOf;
    hide BaselineTargetsKnown;
  }

  /** Which cases a command may write: one at most, and only when it waits, blocks or resolves. */
  ghost predicate Effect(cfg: Config, s: State, command: Command, result: StepResult) {
    match command
    case CmdAdd(_, _) => CasesSame(s, result.st) && ReplansSame(s, result.st)
    case CmdBlock(_, _, _, _) =>
      Calm(s, result.st) && (CasesSame(s, result.st) || exists r, k :: CaseStep(cfg, s, result.st, r, k, 0))
    case CmdResolve(o) =>
      && NoNewDeps(s, result.st)
      && if result.ok then CaseStep(cfg, s, result.st, o.run, o.sourceTask, if o.action == ManualReroute then 1 else 0)
         else CasesSame(s, result.st)
    case _ => CasesSame(s, result.st) && Calm(s, result.st)
  }

  /** Every command, with any arguments, in any good state: the state stays good, nothing is undone,
      and at most one case is written. */
  lemma StepKeeps(s: State, cfg: Config, step: Step)
    requires Inv(s)
    ensures var result := Execute(s, cfg, step);
            Inv(result.st) && Evolves(s, result.st) && Effect(cfg, s, step.command, result)
  {
    hide Inv;
    hide Evolves;
    hide Calm;
    hide NoNewDeps;
    hide ReplansSame;
    hide CasesSame;
    hide CaseStep;
    hide StartRun;
    hide AddChildTask;
    hide RouteChildTask;
    hide ReadMsg;
    hide TaskAccept;
    hide RecordBlocker;
    hide TaskDone;
    hide ReviewRespond;
    hide BlockerResolve;
    hide Requeue;
    hide Send;
    hide Grows;
    hide SameProgress;
    hide Added;
    hide Escalation;
    hide ReplanMade;
    match step.command
    case CmdStart(goal, coordinator, createdBy) => StartEvolves(s, cfg, goal, coordinator, createdBy, step.now);
    case CmdAdd(r, req) =>
      AddChildEvolves(s, cfg, r, req, step.now);
      CalmReplans(s, AddChildTask(s, cfg, r, req, step.now).st);
    case CmdRoute(req) => RouteEvolves(s, cfg, step.env, req, step.now);
    case CmdRead(agent, m) =>
      ReadMsgKeepsInv(s, cfg, agent, m, step.now);
      LoadedRunsSame(s, ReadMsg(s, cfg, agent, m, step.now).st);
    case CmdAccept(agent, m) =>
      AcceptKeepsInv(s, cfg, agent, m, step.now);
      SentEvolves(s, TaskAccept(s, cfg, agent, m, step.now).st);
    case CmdBlock(agent, m, d, reason) => RecordBlockerKeepsInv(s, cfg, step.env, agent, m, d, reason, step.now);
    case CmdDone(agent, m) => DoneEvolves(s, cfg, step.env, agent, m, step.now);
    case CmdRespond(agent, m, outcome, body) => RespondKeepsInv(s, cfg, agent, m, outcome, body, step.now);
    case CmdResolve(o) => ResolveKeepsInv(s, cfg, step.env, o, step.now);
    case CmdRequeue(k) =>
      RequeueKeepsInv(s, k);
      SentEvolves(s, Requeue(s, k).st);
    case CmdSend(to, from, kind, thread, replyTo, body) =>
      SendKeepsInv(s, cfg, to, from, kind, thread, replyTo, body);
      SentLater(s, cfg, to, from, kind, thread, replyTo, body);
      SentEvolves(s, Send(s, cfg, to, from, kind, thread, replyTo, body).st);
  }

  lemma CalmReplans(s: State, s': State)
    ensures Calm(s, s') ==> ReplansSame(s, s')
  {
  }
}
