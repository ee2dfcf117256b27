/** A row of the summary that is completed stays completed. */
module Completion {
  import opened Wrappers
  import opened Text
  import opened Protocol
  import opened Routing
  import opened Coordinator
  import opened Invariant
  import opened ReceiptSteps
  import opened TaskSteps
  import opened RerouteSteps
  import opened CaseWrites
  import opened RerouteWrites
  import opened HandoffSteps
  import opened BlockerSteps
  import opened ResolveSteps
  import opened Evolution
  import opened Commands
  import opened RunGraph
  import opened GraphLoader
  import opened RunSummary
  import opened SummaryFacts
  import opened FanoutPolicy
  import opened Histories
  import Domains

  predicate ReceiptIn(rs: Receipts, t: ChildTask, f: Folder) {
    KeyOfTask(t) in rs && rs[KeyOfTask(t)].folder == f
  }

  /** The review that counts for t: that of its current task, or else its own. */
  function ReviewOf(rd: RunDir, t: TaskId): Option<ReviewHandoff> {
    var u := CurrentOf(rd, t);
    if u != t && u in rd.handoffs then Some(rd.handoffs[u])
    else if t in rd.handoffs then Some(rd.handoffs[t])
    else None
  }

  /** The current task of t is done, no case is open, and its review, if any, came back without a request
      for changes. */
  ghost predicate WorkDone(s: State, r: RunId, t: TaskId) {
    && r in s.runs && t in s.runs[r].tasks
    && var rd := s.runs[r];
       && CurrentOf(rd, t) in rd.tasks && ReceiptIn(s.receipts, rd.tasks[CurrentOf(rd, t)], Done)
       && (t in rd.cases ==> rd.cases[t].status == Resolved)
       && (ReviewOf(rd, t).Some? ==>
             ReviewOf(rd, t).value.status == Responded && ReviewOf(rd, t).value.outcome != Some(ChangesRequested))
  }

  lemma NodeHandoff(s: State, r: RunId, g: Graph, t: TaskId)
    requires Graphed(s, r, g) && t in s.runs[r].tasks
    ensures t in g.nodes && g.nodes[t].handoff == if t in s.runs[r].handoffs then Some(s.runs[r].handoffs[t]) else None
  {
    hide Inv;
    hide SourceOf;
  }

  /** In a loaded run a row is completed exactly when the work of its source task is done. */
  lemma RowCompletedExactly(s: State, r: RunId, g: Graph, i: nat)
    requires Graphed(s, r, g) && NodesFor(g.nodes, g.order) && i < |SummaryRows(g)|
    ensures SummaryRows(g)[i].status == Completed <==> WorkDone(s, r, SummaryRows(g)[i].sourceTask)
  {
    hide Inv;
    hide IsGraphOf;
    GraphOrder(s, r, g);
    RowsMean(g.nodes, ExcludedIn(g.nodes, g.order), g.order);
    hide Effective;
    hide Rows;
    hide ExcludedIn;
    var t := SummaryRows(g)[i].sourceTask;
    var rd := s.runs[r];
    EffectiveIsCurrent(s, r, g, t);
    var u := CurrentOf(rd, t);
    GraphNodes(s, r, g, t);
    GraphNodes(s, r, g, u);
    NodeHandoff(s, r, g, t);
    NodeHandoff(s, r, g, u);
    EffectiveNode(s, r, g, t);
    hide CurrentOf;
    hide Graphed;
  }

  /** The effective node is the node of the current task. */
  lemma EffectiveNode(s: State, r: RunId, g: Graph, t: TaskId)
    requires Graphed(s, r, g) && t in s.runs[r].tasks
    ensures t in g.nodes && CurrentOf(s.runs[r], t) in g.nodes
    ensures Effective(g.nodes, g.nodes[t]) == g.nodes[CurrentOf(s.runs[r], t)]
  {
    hide Inv;
    hide IsGraphOf;
    hide CaseReadable;
    hide ResolutionOk;
    hide ReplanValid;
    GraphNodes(s, r, g, t);
    if t in s.runs[r].cases {
      CaseFacts(s, r, t);
      GraphNodes(s, r, g, s.runs[r].cases[t].currentTask);
    }
    if t in s.runs[r].replans {
      ReplanFacts(s, r, t);
    }
  }

  // -------------------------------------------------- what a step may write

  /** A handoff appears only for a task whose receipt was active. */
  ghost predicate HandsOffActive(s: State, s': State) {
    forall r, k :: r in s.runs && r in s'.runs && k in s'.runs[r].handoffs && k !in s.runs[r].handoffs && k in s.runs[r].tasks ==>
      ReceiptIn(s.receipts, s.runs[r].tasks[k], Active)
  }

  /** A case is written only if it was escalated or its current task was active. */
  ghost predicate WritesOpenCases(s: State, s': State) {
    forall r, k :: r in s.runs && r in s'.runs && k in s.runs[r].tasks && k in s'.runs[r].cases
                   && (k in s.runs[r].cases ==> s'.runs[r].cases[k] != s.runs[r].cases[k]) ==>
      || (k in s.runs[r].cases && s.runs[r].cases[k].status == Escalated)
      || (CurrentOf(s.runs[r], k) in s.runs[r].tasks && ReceiptIn(s.receipts, s.runs[r].tasks[CurrentOf(s.runs[r], k)], Active))
  }

  lemma CaseUntouched(s: State, s': State, r: RunId, t: TaskId)
    requires Evolves(s, s') && WritesOpenCases(s, s') && WorkDone(s, r, t)
    ensures r in s'.runs && (t in s'.runs[r].cases <==> t in s.runs[r].cases)
    ensures t in s.runs[r].cases ==> s'.runs[r].cases[t] == s.runs[r].cases[t]
  {
    hide HandoffEvolves;
    hide CaseEvolves;
    hide ReviewOf;
    assert RunEvolves(s.runs[r], s'.runs[r]);
  }

  lemma HandoffUntouched(s: State, s': State, r: RunId, k: TaskId)
    requires Evolves(s, s') && HandsOffActive(s, s') && r in s.runs && k in s.runs[r].tasks
    requires !ReceiptIn(s.receipts, s.runs[r].tasks[k], Active)
    ensures r in s'.runs && (k in s'.runs[r].handoffs <==> k in s.runs[r].handoffs)
    ensures k in s.runs[r].handoffs && s.runs[r].handoffs[k].status == Responded ==> s'.runs[r].handoffs[k] == s.runs[r].handoffs[k]
  {
    hide CaseEvolves;
    hide ReceiptIn;
    assert RunEvolves(s.runs[r], s'.runs[r]);
  }

  lemma ReviewUntouched(s: State, s': State, r: RunId, t: TaskId)
    requires Inv(s) && Evolves(s, s') && HandsOffActive(s, s') && WorkDone(s, r, t)
    requires r in s'.runs && CurrentOf(s'.runs[r], t) == CurrentOf(s.runs[r], t)
    ensures ReviewOf(s'.runs[r], t) == ReviewOf(s.runs[r], t)
  {
    hide Inv;
    hide Evolves;
    hide HandsOffActive;
    var rd, u := s.runs[r], CurrentOf(s.runs[r], t);
    if u != t { SupersededFinished(s, r, t); }
    hide CurrentOf;
    HandoffUntouched(s, s', r, t);
    HandoffUntouched(s, s', r, u);
  }

  lemma SupersededFinished(s: State, r: RunId, t: TaskId)
    requires Inv(s) && r in s.runs && t in s.runs[r].cases && s.runs[r].cases[t].currentTask != t
    ensures t in s.runs[r].tasks && ReceiptFinished(s.receipts, s.runs[r].tasks[t])
  {
    hide Inv;
    hide CaseReadable;
    hide ResolutionOk;
    CaseFacts(s, r, t);
  }

  lemma WorkStaysDone(s: State, s': State, r: RunId, t: TaskId)
    requires Inv(s) && Evolves(s, s') && HandsOffActive(s, s') && WritesOpenCases(s, s') && WorkDone(s, r, t)
    ensures WorkDone(s', r, t)
  {
    CaseUntouched(s, s', r, t);
    assert CurrentOf(s'.runs[r], t) == CurrentOf(s.runs[r], t);
    ReviewUntouched(s, s', r, t);
    hide ReviewOf;
    hide Inv;
    hide HandsOffActive;
    hide WritesOpenCases;
    hide CaseEvolves;
    hide HandoffEvolves;
    assert RunEvolves(s.runs[r], s'.runs[r]);
  }

  // ------------------------------------------------------ which handoffs

  /** All handoffs on disk. */
  function Hands(s: State): map<RunId, map<TaskId, ReviewHandoff>> {
    map r | r in s.runs :: s.runs[r].handoffs
  }

  lemma AddedSame(s: State, s': State, r: RunId, t: ChildTask)
    requires Added(s, s', r, t)
    ensures Hands(s') == Hands(s)
  {
    hide TaskValid;
    hide Canonical;
    hide NoneLive;
  }

  lemma InPlaceSame(s: State, cfg: Config, env: Environment, k: ReceiptKey, req: Request, now: Time)
    requires Inv(s)
    ensures Hands(RouteInPlaceOf(s, cfg, env, k, req, now).st) == Hands(s)
  {
    hide Inv;
    hide Added;
    hide RouteInPlaceOf;
    hide RestoredReceipts;
    RoutedOrRestored(s, cfg, env, k, req, now);
    var o := RouteInPlaceOf(s, cfg, env, k, req, now);
    if o.Ok? { AddedSame(SuspendedState(s, k), o.st, req.run, o.value); }
  }

  lemma RerouteSame(s: State, cfg: Config, env: Environment, r: RunId, source: ChildTask, current: ChildTask,
                    overrideOwner: string, reason: string, now: Time)
    requires Inv(s)
    ensures Hands(RerouteTask(s, cfg, env, r, source, current, overrideOwner, reason, now).st) == Hands(s)
  {
    hide Inv;
    hide RouteInPlaceOf;
    hide RerouteRequest;
    hide Hands;
    if source.route.Some? {
      InPlaceSame(s, cfg, env, ReceiptKey(current.owner, current.message),
                  RerouteRequest(r, source, current, overrideOwner, reason), now);
    }
  }

  lemma PersistSame(s: State, b: BlockerCase, create: bool)
    ensures Hands(PersistCase(s, b, create).st) == Hands(s)
  {
    hide CaseValid;
  }

  lemma ActSame(s: State, cfg: Config, env: Environment, r: RunId, existing: Option<BlockerCase>, k: TaskId, t: TaskId,
                agent: AgentName, m: MessageId, d: Declared, reason: string, now: Time)
    requires Inv(s) && r in s.runs && k in s.runs[r].tasks && t in s.runs[r].tasks
    ensures Hands(ActOnBlocker(s, cfg, env, r, existing, k, t, agent, m, d, reason, now).st) == Hands(s)
  {
    hide Inv;
    hide PrepareCase;
    hide PersistCase;
    hide RerouteTask;
    hide Recommend;
    hide Trim;
    hide Hands;
    forall s1, b, create ensures Hands(PersistCase(s1, b, create).st) == Hands(s1) { PersistSame(s1, b, create); }
    RerouteSame(s, cfg, env, r, s.runs[r].tasks[k], s.runs[r].tasks[t], "", reason, now);
  }

  lemma BlockSame(s: State, cfg: Config, env: Environment, agent: string, m: MessageId, d: Declared, reason: string, now: Time)
    requires Inv(s)
    ensures Hands(RecordBlocker(s, cfg, env, agent, m, d, reason, now).st) == Hands(s)
  {
    hide Inv;
    hide LoadActiveTask;
    hide FindCase;
    hide ActOnBlocker;
    LoadActiveKeepsInv(s, cfg, agent, m, now);
    var a := LoadActiveTask(s, cfg, agent, m, now);
    assert Hands(a.st) == Hands(s);
    hide Hands;
    if a.Ok? && a.value.msg.meta.Some? {
      var s1, r, t := a.st, a.value.msg.meta.value.run, a.value.msg.meta.value.task;
      if r in s1.runs && t in s1.runs[r].tasks {
        var f := FindCase(r, s1.runs[r], t);
        if f.Success? {
          var k := if f.value.Some? then f.value.value.sourceTask else t;
          if k in s1.runs[r].tasks {
            ActSame(s1, cfg, env, r, f.value, k, t, a.value.agent, m, d, reason, now);
          }
        }
      }
    }
  }

  lemma ResolveCaseSame(s: State, r: RunId, k: TaskId, b: BlockerCase, res: Resolution, now: Time)
    ensures Hands(ResolveCase(s, r, k, b, res, now).st) == Hands(s)
  {
    hide CaseValid;
  }

  lemma CreateReplanSame(s: State, p: PartialReplan)
    ensures Hands(CreateReplan(s, p).st) == Hands(s)
  {
    hide ReplanValid;
  }

  lemma SendSame(s: State, cfg: Config, b: BlockerCase, thread: ThreadId, body: string)
    ensures Hands(Send(s, cfg, b.currentOwner, "human", Decision, Some(thread), Some(b.currentMessage), body).st) == Hands(s)
  {
    SendRuns(s, cfg, b.currentOwner, "human", Decision, Some(thread), Some(b.currentMessage), body);
    hide Send;
  }

  lemma ResolveSame(s: State, cfg: Config, env: Environment, o: ResolveOpts, now: Time)
    requires Inv(s)
    ensures Hands(BlockerResolve(s, cfg, env, o, now).st) == Hands(s)
  {
    hide Inv;
    hide Hands;
    hide CaseReadable;
    hide Domains.Normalize;
    hide Blank;
    hide RerouteTask;
    hide RouteInPlaceOf;
    hide ReplanRequest;
    hide ReplanOf;
    hide CreateReplan;
    hide ResolveCase;
    hide Send;
    hide Trim;
    hide Rerouted;
    forall s1, r, k, b, res, t ensures Hands(ResolveCase(s1, r, k, b, res, t).st) == Hands(s1) {
      ResolveCaseSame(s1, r, k, b, res, t);
    }
    forall s1, p ensures Hands(CreateReplan(s1, p).st) == Hands(s1) { CreateReplanSame(s1, p); }
    if o.run in s.runs && o.sourceTask in s.runs[o.run].cases {
      var rd := s.runs[o.run];
      var b := rd.cases[o.sourceTask];
      SendSame(s, cfg, b, rd.doc.rootThread, o.body);
      if b.sourceTask in rd.tasks && b.currentTask in rd.tasks {
        var source, current := rd.tasks[b.sourceTask], rd.tasks[b.currentTask];
        RerouteSame(s, cfg, env, o.run, source, current, Trim(o.owner), Trim(o.reason), now);
        if o.taskClass.Some? {
          InPlaceSame(s, cfg, env, ReceiptKey(current.owner, current.message), ReplanRequest(o, source), now);
        }
      }
    }
  }

  lemma HandsKept(s: State, s': State)
    requires Hands(s') == Hands(s)
    ensures HandsOffActive(s, s')
  {
    forall r | r in s.runs && r in s'.runs ensures s'.runs[r].handoffs == s.runs[r].handoffs {
      assert Hands(s')[r] == Hands(s)[r];
    }
  }

  lemma SameRunsHands(s: State, s': State)
    requires s'.runs == s.runs
    ensures Hands(s') == Hands(s)
  {
  }

  lemma SameCasesClosed(s: State, s': State)
    requires CasesSame(s, s')
    ensures WritesOpenCases(s, s')
  {
  }

  lemma StartRespects(s: State, cfg: Config, goal: string, coordinator: string, createdBy: string, now: Time)
    requires Inv(s)
    ensures HandsOffActive(s, StartRun(s, cfg, goal, coordinator, createdBy, now).st)
  {
    hide Inv;
    hide StartRun;
    hide ReceiptIn;
    StartKeepsInv(s, cfg, goal, coordinator, createdBy, now);
  }

  lemma AddRespects(s: State, cfg: Config, r: RunId, req: ChildRequest, now: Time)
    requires Inv(s)
    ensures Hands(AddChildTask(s, cfg, r, req, now).st) == Hands(s)
  {
    hide Inv;
    hide AddChildTask;
    hide Added;
    AddChildKeepsInv(s, cfg, r, req, now);
    var o := AddChildTask(s, cfg, r, req, now);
    if o.Ok? { AddedSame(s, o.st, r, o.value); }
  }

  lemma RouteRespects(s: State, cfg: Config, env: Environment, req: Request, now: Time)
    requires Inv(s)
    ensures Hands(RouteChildTask(s, cfg, env, req, now).st) == Hands(s)
  {
    hide Inv;
    hide RouteChildTask;
    hide Added;
    RouteAdds(s, cfg, env, req, now);
    var o := RouteChildTask(s, cfg, env, req, now);
    if o.Ok? { AddedSame(s, o.st, req.run, o.value); }
  }

  lemma MadeOnly(s: State, s': State, r: RunId, k: TaskId)
    requires HandoffMade(s, s', r, k)
    ensures forall x, j :: x in s.runs && x in s'.runs && j in s'.runs[x].handoffs && j !in s.runs[x].handoffs ==> x == r && j == k
  {
    hide Added;
    if FailureRecorded(s, s', r, k) {
    } else {
      var s1, t :| ReviewAssigned(s, s1, s', r, k, t);
      AddedRuns(s, s1, r, t);
    }
  }

  lemma AddedRuns(s: State, s': State, r: RunId, t: ChildTask)
    requires Added(s, s', r, t)
    ensures r in s.runs && s'.runs == s.runs[r := s.runs[r].(tasks := s.runs[r].tasks[t.id := t])]
  {
    hide TaskValid;
    hide Canonical;
    hide NoneLive;
  }

  /** Completion hands off the task whose receipt was active. */
  lemma DoneRespects(s: State, cfg: Config, env: Environment, agent: string, m: MessageId, now: Time)
    requires Inv(s)
    ensures HandsOffActive(s, TaskDone(s, cfg, env, agent, m, now).st)
  {
    hide Inv;
    hide LoadActiveTask;
    hide HandoffAfterDone;
    hide HandoffMade;
    hide NeedsReview;
    hide HandsOffActive;
    hide Hands;
    LoadActiveKeepsInv(s, cfg, agent, m, now);
    var a := LoadActiveTask(s, cfg, agent, m, now);
    SameRunsHands(s, a.st);
    HandsKept(s, a.st);
    if a.Ok? && !ClaimedByOther(a.value) {
      var k := ReceiptKey(a.value.agent, m);
      CompleteKeepsInv(a.st, k, now);
      var s3 := MoveReceipt(UpdateReceipt(a.st, k, Complete(now)).st, k, Active, Done).st;
      HandoffAfterDoneKeepsInv(s3, cfg, env, m, now);
      SameRunsHands(s, s3);
      HandsKept(s, s3);
      var s4 := HandoffAfterDone(s3, cfg, env, m, now).st;
      if s4 != s3 {
        var ref := s3.messages[m].meta.value;
        CarriedTask(s, m);
        HandedOff(s, s3, s4, ref.run, ref.task);
      }
    }
  }

  lemma HandedOff(s: State, s3: State, s4: State, r: RunId, k: TaskId)
    requires s3.runs == s.runs && HandoffMade(s3, s4, r, k)
    requires r in s.runs && k in s.runs[r].tasks && ReceiptIn(s.receipts, s.runs[r].tasks[k], Active)
    ensures HandsOffActive(s, s4)
  {
    hide HandoffMade;
    MadeOnly(s3, s4, r, k);
  }

  /** A response goes into the handoff that was pending. */
  lemma RespondRespects(s: State, cfg: Config, agent: string, m: MessageId, outcome: ReviewOutcome, body: string, now: Time)
    requires Inv(s)
    ensures HandsOffActive(s, ReviewRespond(s, cfg, agent, m, outcome, body, now).st)
  {
    hide Inv;
    hide LoadActiveTask;
    hide FindHandoff;
    hide Resolve;
    hide Trim;
    hide HandoffValid;
    hide ReceiptValid;
    hide HandsOffActive;
    LoadActiveKeepsInv(s, cfg, agent, m, now);
    var a := LoadActiveTask(s, cfg, agent, m, now);
    forall s2: State | s2.runs == s.runs ensures HandsOffActive(s, s2) { SameRunsHands(s, s2); HandsKept(s, s2); }
    if a.Ok? && a.value.msg.meta.Some? && a.value.msg.meta.value.run in a.st.runs {
      var ref := a.value.msg.meta.value;
      FindHandoffFinds(a.st, ref.run, ref.task);
      forall s2: State, h: ReviewHandoff | s2.runs == s.runs && h.sourceTask in s.runs[ref.run].handoffs
        ensures HandsOffActive(s, PutHandoff(s2, ref.run, h)) {
        PutRespects(s, s2, ref.run, h);
      }
    }
    hide Deliver;
    hide UpdateReceipt;
    hide MoveReceipt;
    hide PutHandoff;
    forall x: State, id: MessageId, msg: Message ensures Deliver(x, id, msg).st.runs == x.runs { DeliverRuns(x, id, msg); }
    forall x: State, k: ReceiptKey, fn: Receipt -> Receipt ensures UpdateReceipt(x, k, fn).st.runs == x.runs { UpdateRuns(x, k, fn); }
    forall x: State, k: ReceiptKey, from: Folder, to: Folder ensures MoveReceipt(x, k, from, to).st.runs == x.runs { MoveRuns(x, k, from, to); }
  }

  lemma DeliverRuns(s: State, id: MessageId, msg: Message)
    ensures Deliver(s, id, msg).st.runs == s.runs
  {
  }

  lemma UpdateRuns(s: State, k: ReceiptKey, fn: Receipt -> Receipt)
    ensures UpdateReceipt(s, k, fn).st.runs == s.runs
  {
    hide ReceiptValid;
  }

  lemma MoveRuns(s: State, k: ReceiptKey, from: Folder, to: Folder)
    ensures MoveReceipt(s, k, from, to).st.runs == s.runs
  {
    hide ReceiptValid;
  }

  lemma PutRespects(s: State, s2: State, r: RunId, h: ReviewHandoff)
    requires s2.runs == s.runs && r in s.runs && h.sourceTask in s.runs[r].handoffs
    ensures HandsOffActive(s, PutHandoff(s2, r, h))
  {
    hide ReceiptIn;
  }

  // ------------------------------------------------------------ which cases

  lemma BlockedWasActive(s: State, cfg: Config, env: Environment, agent: string, m: MessageId, d: Declared, reason: string,
                         now: Time, r: RunId, t: TaskId)
    requires Inv(s) && Carries(s, m, r, t) && RecordBlocker(s, cfg, env, agent, m, d, reason, now).Ok?
    ensures ReceiptIn(s.receipts, s.runs[r].tasks[t], Active)
  {
    hide Inv;
    hide LoadActiveTask;
    hide FindCase;
    hide ActOnBlocker;
    hide TaskValid;
    LoadActiveKeepsInv(s, cfg, agent, m, now);
    CarriedTask(s, m);
  }

  lemma BlockRespects(s: State, cfg: Config, env: Environment, agent: string, m: MessageId, d: Declared, reason: string, now: Time)
    requires Inv(s)
    ensures WritesOpenCases(s, RecordBlocker(s, cfg, env, agent, m, d, reason, now).st)
  {
    hide Inv;
    hide RecordBlocker;
    hide Evolves;
    hide Calm;
    hide CaseChange;
    hide ReceiptIn;
    hide NotReplacement;
    RecordBlockerKeepsInv(s, cfg, env, agent, m, d, reason, now);
    var o := RecordBlocker(s, cfg, env, agent, m, d, reason, now);
    if o.Err? || (m in s.messages && s.messages[m].meta.None?) {
      SameCasesClosed(s, o.st);
    } else {
      var r, t, k :| Carries(s, m, r, t) && Holds(s.runs[r], k, t) && CaseStep(cfg, s, o.st, r, k, 0) && Reopened(o.st, r, k);
      BlockedWasActive(s, cfg, env, agent, m, d, reason, now, r, t);
      assert CurrentOf(s.runs[r], k) == t;
    }
  }

  lemma ResolveRespects(s: State, cfg: Config, env: Environment, o: ResolveOpts, now: Time)
    requires Inv(s)
    ensures WritesOpenCases(s, BlockerResolve(s, cfg, env, o, now).st)
  {
    hide Inv;
    hide BlockerResolve;
    hide Evolves;
    hide NoNewDeps;
    hide ReplansSame;
    hide ReplanMade;
    hide CaseChange;
    hide ReceiptIn;
    ResolveKeepsInv(s, cfg, env, o, now);
    var result := BlockerResolve(s, cfg, env, o, now);
    if result.Err? { SameCasesClosed(s, result.st); }
  }

  lemma StepRespects(s: State, cfg: Config, step: Step)
    requires Inv(s)
    ensures var s' := Execute(s, cfg, step).st; HandsOffActive(s, s') && WritesOpenCases(s, s')
  {
    hide Inv;
    hide Evolves;
    hide Calm;
    hide NoNewDeps;
    hide ReplansSame;
    hide CasesSame;
    hide CaseStep;
    hide Hands;
    hide HandsOffActive;
    hide WritesOpenCases;
    hide StartRun;
    hide AddChildTask;
    hide RouteChildTask;
    hide ReadMsg;
    hide TaskAccept;
    hide RecordBlocker;
    hide TaskDone;
    hide ReviewRespond;
    hide BlockerResolve;
    hide Requeue;
    hide Send;
    hide Grows;
    hide SameProgress;
    StepKeeps(s, cfg, step);
    var s' := Execute(s, cfg, step).st;
    if CasesSame(s, s') { SameCasesClosed(s, s'); }
    if s'.runs == s.runs { SameRunsHands(s, s'); }
    if Hands(s') == Hands(s) { HandsKept(s, s'); }
    match step.command
    case CmdStart(goal, coordinator, createdBy) => StartRespects(s, cfg, goal, coordinator, createdBy, step.now);
    case CmdAdd(r, req) => AddRespects(s, cfg, r, req, step.now);
    case CmdRoute(req) => RouteRespects(s, cfg, step.env, req, step.now);
    case CmdRead(agent, m) => ReadMsgKeepsInv(s, cfg, agent, m, step.now);
    case CmdAccept(agent, m) => AcceptKeepsInv(s, cfg, agent, m, step.now);
    case CmdBlock(agent, m, d, reason) =>
      BlockSame(s, cfg, step.env, agent, m, d, reason, step.now);
      BlockRespects(s, cfg, step.env, agent, m, d, reason, step.now);
    case CmdDone(agent, m) => DoneRespects(s, cfg, step.env, agent, m, step.now);
    case CmdRespond(agent, m, outcome, body) => RespondRespects(s, cfg, agent, m, outcome, body, step.now);
    case CmdResolve(o) =>
      ResolveSame(s, cfg, step.env, o, step.now);
      ResolveRespects(s, cfg, step.env, o, step.now);
    case CmdRequeue(k) => RequeueKeepsInv(s, k);
    case CmdSend(to, from, kind, thread, replyTo, body) =>
      SendKeepsInv(s, cfg, to, from, kind, thread, replyTo, body);
  }

  // --------------------------------------------------------- the theorem

  /** Over every history: work that is done stays done, whatever commands come later. */
  lemma {:induction false} DoneForGood(cfg: Config, steps: seq<Step>, i: nat, r: RunId, t: TaskId)
    requires i <= |steps| && WorkDone(After(cfg, steps[..i]), r, t)
    ensures WorkDone(After(cfg, steps), r, t)
    decreases |steps| - i
  {
    hide Inv;
    hide Execute;
    hide Evolves;
    hide Policy;
    hide Effect;
    hide WorkDone;
    hide HandsOffActive;
    hide WritesOpenCases;
    if i == |steps| {
      assert steps[..i] == steps;
    } else {
      ReachableIsGood(cfg, steps[..i]);
      StepKeeps(After(cfg, steps[..i]), cfg, steps[i]);
      StepRespects(After(cfg, steps[..i]), cfg, steps[i]);
      AfterStep(cfg, steps, i);
      WorkStaysDone(After(cfg, steps[..i]), After(cfg, steps[..i + 1]), r, t);
      DoneForGood(cfg, steps, i + 1, r, t);
    }
  }

  /** A row that the summary of a run once shows as completed is completed in every later summary that shows
      the same source task. */
  lemma CompletedForGood(cfg: Config, steps: seq<Step>, n: nat, r: RunId, g: Graph, g': Graph, i: nat, j: nat)
    requires n <= |steps|
    requires var s := After(cfg, steps[..n]);
             && r in s.runs && IsGraphOf(g, s.runs[r], s.receipts) && NodesFor(g.nodes, g.order)
             && i < |SummaryRows(g)| && SummaryRows(g)[i].status == Completed
    requires var s' := After(cfg, steps);
             && r in s'.runs && IsGraphOf(g', s'.runs[r], s'.receipts) && NodesFor(g'.nodes, g'.order)
             && j < |SummaryRows(g')| && SummaryRows(g')[j].sourceTask == SummaryRows(g)[i].sourceTask
    ensures SummaryRows(g')[j].status == Completed
  {
    hide Inv;
    hide After;
    hide Policy;
    hide WorkDone;
    hide IsGraphOf;
    hide SummaryRows;
    ReachableIsGood(cfg, steps[..n]);
    ReachableIsGood(cfg, steps);
    RowCompletedExactly(After(cfg, steps[..n]), r, g, i);
    DoneForGood(cfg, steps, n, r, SummaryRows(g)[i].sourceTask);
    RowCompletedExactly(After(cfg, steps), r, g', j);
  }
}
