/** A task is recorded as a fanout duplicate only when its class allows fanout. */
module FanoutPolicy {
  import opened Wrappers
  import opened Text
  import opened Protocol
  import opened Routing
  import opened Coordinator
  import opened Invariant
  import Domains

  ghost predicate TaskPolicy(cfg: Config, t: ChildTask) {
    RecordedAsFanout(t) ==> t.route.value.taskClass in cfg.fanout
  }

  /** Every task on disk keeps the policy. */
  ghost predicate Policy(cfg: Config, s: State) {
    forall r, t :: r in s.runs && t in s.runs[r].tasks ==> TaskPolicy(cfg, s.runs[r].tasks[t])
  }

  lemma RunsDecide(cfg: Config, s: State, s': State)
    requires Policy(cfg, s) && s'.runs == s.runs
    ensures Policy(cfg, s')
  {
  }

  lemma AddKeepsPolicy(s: State, cfg: Config, r: RunId, owner: AgentName, req: ChildRequest, now: Time)
    requires Policy(cfg, s) && r in s.runs
    ensures Policy(cfg, AddResolved(s, cfg, r, owner, req, now).st)
  {
    hide TaskValid;
    hide FindActiveDuplicate;
    hide Domains.Normalize;
    hide Trim;
    hide NEW_RECEIPT;
    var o := AddResolved(s, cfg, r, owner, req, now);
    forall x, t | x in o.st.runs && t in o.st.runs[x].tasks ensures TaskPolicy(cfg, o.st.runs[x].tasks[t]) {
      if x in s.runs && t in s.runs[x].tasks { assert TaskPolicy(cfg, s.runs[x].tasks[t]); }
    }
  }

  lemma AddChildKeepsPolicy(s: State, cfg: Config, r: RunId, req: ChildRequest, now: Time)
    requires Policy(cfg, s)
    ensures Policy(cfg, AddChildTask(s, cfg, r, req, now).st)
  {
    hide Policy;
    hide AddResolved;
    hide ChildRequestValid;
    hide TargetKnown;
    hide RunValid;
    if r in s.runs {
      var owner := ResolveIn(cfg.agents, req.owner);
      if owner.Some? { AddKeepsPolicy(s, cfg, r, owner.value.name, req, now); }
    }
  }

  lemma RouteKeepsPolicy(s: State, cfg: Config, env: Environment, req: Request, now: Time)
    requires Policy(cfg, s)
    ensures Policy(cfg, RouteChildTask(s, cfg, env, req, now).st)
  {
    hide Policy;
    hide AddResolved;
    hide RunValid;
    hide Blank;
    hide SelectRoutedOwner;
    hide FindActiveDuplicate;
    hide Domains.Normalize;
    if req.run in s.runs && Domains.Normalize(req.domains).Success? {
      var domains := Domains.Normalize(req.domains).value;
      var key := KeyOf(req.run, req.taskClass, domains);
      var duplicate := FindActiveDuplicate(s, req.run, key);
      if duplicate.Success? {
        var d := SelectRoutedOwner(cfg, env, s.runs[req.run].doc.allowedOwners, req.(domains := domains), duplicate.value);
        if d.Success? {
          AddKeepsPolicy(s, cfg, req.run, d.value.selectedOwner,
                         ChildRequest(d.value.selectedOwner, req.goal, req.expectedOutput, [], req.reviewRequired,
                                      Some(RouteInfo(req.taskClass, domains, domains, key, d.value, req.overrideReason))), now);
        }
      }
    }
  }

  /** Suspending and restoring touch receipts only. */
  lemma ReceiptsOnly(s: State, k: ReceiptKey, original: Option<Receipt>)
    ensures SuspendReceipt(s, k).st.runs == s.runs && RestoreReceipt(s, k, original).st.runs == s.runs
  {
    hide ReceiptValid;
  }

  lemma InPlaceKeepsPolicy(s: State, cfg: Config, env: Environment, k: ReceiptKey, req: Request, now: Time)
    requires Policy(cfg, s)
    ensures Policy(cfg, RouteInPlaceOf(s, cfg, env, k, req, now).st)
  {
    hide Policy;
    hide RouteChildTask;
    hide SuspendReceipt;
    hide RestoreReceipt;
    ReceiptsOnly(s, k, None);
    var suspended := SuspendReceipt(s, k);
    RunsDecide(cfg, s, suspended.st);
    if suspended.Ok? {
      RouteKeepsPolicy(suspended.st, cfg, env, req, now);
      var o := RouteChildTask(suspended.st, cfg, env, req, now);
      ReceiptsOnly(o.st, k, suspended.value);
      RunsDecide(cfg, o.st, RestoreReceipt(o.st, k, suspended.value).st);
    }
  }

  lemma RerouteKeepsPolicy(s: State, cfg: Config, env: Environment, r: RunId, source: ChildTask, current: ChildTask,
                           overrideOwner: string, reason: string, now: Time)
    requires Policy(cfg, s)
    ensures Policy(cfg, RerouteTask(s, cfg, env, r, source, current, overrideOwner, reason, now).st)
  {
    hide Policy;
    hide RouteInPlaceOf;
    hide RerouteRequest;
    if source.route.Some? {
      InPlaceKeepsPolicy(s, cfg, env, ReceiptKey(current.owner, current.message),
                         RerouteRequest(r, source, current, overrideOwner, reason), now);
    }
  }

  lemma CaseKeepsPolicy(s: State, cfg: Config, b: BlockerCase, create: bool)
    requires Policy(cfg, s)
    ensures Policy(cfg, PersistCase(s, b, create).st)
  {
    hide CaseValid;
    hide TaskPolicy;
  }

  lemma ResolveCaseKeepsPolicy(s: State, cfg: Config, r: RunId, k: TaskId, b: BlockerCase, res: Resolution, now: Time)
    requires Policy(cfg, s)
    ensures Policy(cfg, ResolveCase(s, r, k, b, res, now).st)
  {
    hide CaseValid;
    hide TaskPolicy;
  }

  lemma ReplanKeepsPolicy(s: State, cfg: Config, p: PartialReplan)
    requires Policy(cfg, s)
    ensures Policy(cfg, CreateReplan(s, p).st)
  {
    hide ReplanValid;
    hide TaskPolicy;
  }

  lemma HandoffKeepsPolicy(s: State, cfg: Config, h: ReviewHandoff)
    requires Policy(cfg, s)
    ensures Policy(cfg, CreateHandoff(s, h).st) && Policy(cfg, UpsertFailedHandoff(s, h).st)
    ensures h.run in s.runs ==> Policy(cfg, PutHandoff(s, h.run, h))
  {
    hide HandoffValid;
    hide TaskPolicy;
  }

  lemma ActKeepsPolicy(s: State, cfg: Config, env: Environment, r: RunId, existing: Option<BlockerCase>,
                       k: TaskId, t: TaskId, agent: AgentName, m: MessageId, d: Declared, reason: string, now: Time)
    requires Policy(cfg, s) && r in s.runs && k in s.runs[r].tasks && t in s.runs[r].tasks
    ensures Policy(cfg, ActOnBlocker(s, cfg, env, r, existing, k, t, agent, m, d, reason, now).st)
  {
    hide Policy;
    hide PersistCase;
    hide RerouteTask;
    hide PrepareCase;
    hide Recommend;
    hide Trim;
    var source, current := s.runs[r].tasks[k], s.runs[r].tasks[t];
    var b := PrepareCase(cfg, r, existing, source, current, agent, m, d, reason, now);
    CaseKeepsPolicy(s, cfg, b, existing.None?);
    CaseKeepsPolicy(s, cfg, b.(status := Escalated, recommended := Some(Recommend(d, reason)), escalatedAt := Some(now)),
                    existing.None?);
    RerouteKeepsPolicy(s, cfg, env, r, source, current, "", reason, now);
    var o := RerouteTask(s, cfg, env, r, source, current, "", reason, now);
    if o.Ok? {
      CaseKeepsPolicy(o.st, cfg, Rerouted(b, o.value, Trim(reason), now).(rerouteCount := b.rerouteCount + 1), existing.None?);
    }
  }

  lemma ReadRuns(s: State, cfg: Config, agent: string, m: MessageId, now: Time)
    ensures ReadMsg(s, cfg, agent, m, now).st.runs == s.runs
  {
    hide ReceiptValid;
    hide Resolve;
  }

  lemma ReceiptStepRuns(s: State, cfg: Config, agent: string, m: MessageId, k: ReceiptKey, now: Time)
    ensures LoadActiveTask(s, cfg, agent, m, now).st.runs == s.runs
    ensures TaskAccept(s, cfg, agent, m, now).st.runs == s.runs
    ensures Requeue(s, k).st.runs == s.runs
    ensures var o := UpdateReceipt(s, k, Complete(now)); o.st.runs == s.runs && MoveReceipt(o.st, k, Active, Done).st.runs == s.runs
  {
    hide ReceiptValid;
    hide Resolve;
    hide ReadMsg;
    if Resolve(cfg, agent).Some? { ReadRuns(s, cfg, Resolve(cfg, agent).value, m, now); }
  }

  lemma BlockKeepsPolicy(s: State, cfg: Config, env: Environment, agent: string, m: MessageId,
                         d: Declared, reason: string, now: Time)
    requires Policy(cfg, s)
    ensures Policy(cfg, RecordBlocker(s, cfg, env, agent, m, d, reason, now).st)
  {
    hide Policy;
    hide LoadActiveTask;
    hide ActOnBlocker;
    hide FindCase;
    hide ReadMsg;
    hide TaskAccept;
    hide Requeue;
    ReceiptStepRuns(s, cfg, agent, m, ReceiptKey("", m), now);
    var a := LoadActiveTask(s, cfg, agent, m, now);
    RunsDecide(cfg, s, a.st);
    if a.Ok? && a.value.msg.meta.Some? {
      var r, t := a.value.msg.meta.value.run, a.value.msg.meta.value.task;
      if r in a.st.runs && t in a.st.runs[r].tasks {
        var f := FindCase(r, a.st.runs[r], t);
        if f.Success? {
          var k := if f.value.Some? then f.value.value.sourceTask else t;
          if k in a.st.runs[r].tasks {
            ActKeepsPolicy(a.st, cfg, env, r, f.value, k, t, a.value.agent, m, d, reason, now);
          }
        }
      }
    }
  }

  lemma DoneKeepsPolicy(s: State, cfg: Config, env: Environment, agent: string, m: MessageId, now: Time)
    requires Policy(cfg, s)
    ensures Policy(cfg, TaskDone(s, cfg, env, agent, m, now).st)
  {
    hide Policy;
    hide LoadActiveTask;
    hide HandoffAfterDone;
    hide UpdateReceipt;
    hide MoveReceipt;
    hide ReadMsg;
    hide TaskAccept;
    hide Requeue;
    ReceiptStepRuns(s, cfg, agent, m, ReceiptKey("", m), now);
    var a := LoadActiveTask(s, cfg, agent, m, now);
    RunsDecide(cfg, s, a.st);
    if a.Ok? {
      var k := ReceiptKey(a.value.agent, m);
      ReceiptStepRuns(a.st, cfg, agent, m, k, now);
      var o := UpdateReceipt(a.st, k, Complete(now));
      RunsDecide(cfg, a.st, o.st);
      var o2 := MoveReceipt(o.st, k, Active, Done);
      RunsDecide(cfg, a.st, o2.st);
      HandoffStepKeepsPolicy(o2.st, cfg, env, m, now);
    }
  }

  lemma HandoffStepKeepsPolicy(s: State, cfg: Config, env: Environment, m: MessageId, now: Time)
    requires Policy(cfg, s)
    ensures Policy(cfg, HandoffAfterDone(s, cfg, env, m, now).st)
  {
    hide Policy;
    hide RouteChildTask;
    hide CreateHandoff;
    hide UpsertFailedHandoff;
    hide HandoffValid;
    if m in s.messages && s.messages[m].meta.Some? {
      var ref := s.messages[m].meta.value;
      HandoffKeepsPolicy(s, cfg, FailedHandoff(ref, m, "source task could not be loaded for review routing", now));
      if ref.run in s.runs && ref.task in s.runs[ref.run].tasks && NeedsReview(s.runs[ref.run].tasks[ref.task]) {
        var source := s.runs[ref.run].tasks[ref.task];
        var req := Request(source.parentRun, Review, source.route.value.normalizedDomains,
                           REVIEW_GOAL + source.goal, REVIEW_OUTPUT, false, "", "");
        RouteKeepsPolicy(s, cfg, env, req, now);
        var o := RouteChildTask(s, cfg, env, req, now);
        HandoffKeepsPolicy(o.st, cfg, FailedHandoff(ref, m, "route review handoff", now));
        if o.Ok? {
          var h := ReviewHandoff(ref.run, ref.task, m, Some(o.value.id), Some(o.value.message), o.value.owner,
                                 Pending, "", None, None, now, None);
          HandoffKeepsPolicy(o.st, cfg, h);
          HandoffKeepsPolicy(CreateHandoff(o.st, h).st, cfg,
                             h.(status := HandoffFailed, failureSummary := "persist review handoff"));
        }
      }
    }
  }

  lemma RespondKeepsPolicy(s: State, cfg: Config, agent: string, m: MessageId, outcome: ReviewOutcome, body: string, now: Time)
    requires Policy(cfg, s)
    ensures Policy(cfg, ReviewRespond(s, cfg, agent, m, outcome, body, now).st)
  {
    hide TaskPolicy;
    hide LoadActiveTask;
    hide FindHandoff;
    hide HandoffValid;
    hide ReceiptValid;
    hide Resolve;
    hide Trim;
    hide ReadMsg;
    hide TaskAccept;
    hide Requeue;
    ReceiptStepRuns(s, cfg, agent, m, ReceiptKey("", m), now);
  }

  lemma ResolveKeepsPolicy(s: State, cfg: Config, env: Environment, o: ResolveOpts, now: Time)
    requires Policy(cfg, s)
    ensures Policy(cfg, BlockerResolve(s, cfg, env, o, now).st)
  {
    hide Policy;
    hide Domains.Normalize;
    hide Blank;
    hide CaseReadable;
    hide ResolveCase;
    hide CreateReplan;
    hide RerouteTask;
    hide RouteInPlaceOf;
    hide Send;
    hide Trim;
    hide ReplanRequest;
    hide ReplanOf;
    if o.run in s.runs && o.sourceTask in s.runs[o.run].cases {
      var rd, k := s.runs[o.run], o.sourceTask;
      var b := rd.cases[k];
      var res := Resolution(o.action, None, None, Trim(o.reason), now);
      ResolveCaseKeepsPolicy(s, cfg, o.run, k, b, res, now);
      var sent := Send(s, cfg, b.currentOwner, "human", Decision, Some(rd.doc.rootThread), Some(b.currentMessage), o.body);
      SendRuns(s, cfg, b.currentOwner, "human", Decision, Some(rd.doc.rootThread), Some(b.currentMessage), o.body);
      RunsDecide(cfg, s, sent.st);
      if sent.Ok? { ResolveCaseKeepsPolicy(sent.st, cfg, o.run, k, b, res.(createdMessage := Some(sent.value)), now); }
      if b.sourceTask in rd.tasks && b.currentTask in rd.tasks {
        if o.action == ManualReroute {
          ManualKeepsPolicy(s, cfg, env, o, b, res, now);
        } else if o.action == PartialReplanAction && o.taskClass.Some? {
          PartialKeepsPolicy(s, cfg, env, o, b, res, now);
        }
      }
    }
  }

  lemma SendRuns(s: State, cfg: Config, to: string, from: AgentName, kind: Kind, thread: Option<ThreadId>,
                 replyTo: Option<MessageId>, body: string)
    ensures Send(s, cfg, to, from, kind, thread, replyTo, body).st.runs == s.runs
  {
    hide Trim;
    hide Resolve;
  }

  lemma ManualKeepsPolicy(s: State, cfg: Config, env: Environment, o: ResolveOpts, b: BlockerCase, res: Resolution, now: Time)
    requires Policy(cfg, s) && o.run in s.runs && b.sourceTask in s.runs[o.run].tasks && b.currentTask in s.runs[o.run].tasks
    ensures var tasks := s.runs[o.run].tasks;
            var routed := RerouteTask(s, cfg, env, o.run, tasks[b.sourceTask], tasks[b.currentTask], Trim(o.owner), Trim(o.reason), now);
            && Policy(cfg, routed.st)
            && (routed.Ok? ==>
                  Policy(cfg, ResolveCase(routed.st, o.run, o.sourceTask, Rerouted(b, routed.value, Trim(o.reason), now),
                                          res.(createdTask := Some(routed.value.id),
                                               createdMessage := Some(routed.value.message)), now).st))
  {
    hide Policy;
    hide ResolveCase;
    hide RerouteTask;
    hide Trim;
    var tasks := s.runs[o.run].tasks;
    RerouteKeepsPolicy(s, cfg, env, o.run, tasks[b.sourceTask], tasks[b.currentTask], Trim(o.owner), Trim(o.reason), now);
    var routed := RerouteTask(s, cfg, env, o.run, tasks[b.sourceTask], tasks[b.currentTask], Trim(o.owner), Trim(o.reason), now);
    if routed.Ok? {
      ResolveCaseKeepsPolicy(routed.st, cfg, o.run, o.sourceTask, Rerouted(b, routed.value, Trim(o.reason), now),
                             res.(createdTask := Some(routed.value.id), createdMessage := Some(routed.value.message)), now);
    }
  }

  lemma PartialKeepsPolicy(s: State, cfg: Config, env: Environment, o: ResolveOpts, b: BlockerCase, res: Resolution, now: Time)
    requires Policy(cfg, s) && o.run in s.runs && b.sourceTask in s.runs[o.run].tasks && b.currentTask in s.runs[o.run].tasks
    requires o.taskClass.Some?
    ensures var source, current := s.runs[o.run].tasks[b.sourceTask], s.runs[o.run].tasks[b.currentTask];
            var routed := RouteInPlaceOf(s, cfg, env, ReceiptKey(current.owner, current.message), ReplanRequest(o, source), now);
            && Policy(cfg, routed.st)
            && (routed.Ok? ==>
                  var t := routed.value;
                  var made := CreateReplan(routed.st, ReplanOf(o, source, current, t, now));
                  && Policy(cfg, made.st)
                  && Policy(cfg, ResolveCase(made.st, o.run, o.sourceTask,
                                             b.(currentTask := t.id, currentMessage := t.message, currentOwner := t.owner),
                                             res.(createdTask := Some(t.id), createdMessage := Some(t.message)), now).st))
  {
    hide Policy;
    hide ResolveCase;
    hide CreateReplan;
    hide RouteInPlaceOf;
    hide ReplanRequest;
    hide ReplanOf;
    var source, current := s.runs[o.run].tasks[b.sourceTask], s.runs[o.run].tasks[b.currentTask];
    InPlaceKeepsPolicy(s, cfg, env, ReceiptKey(current.owner, current.message), ReplanRequest(o, source), now);
    var routed := RouteInPlaceOf(s, cfg, env, ReceiptKey(current.owner, current.message), ReplanRequest(o, source), now);
    if routed.Ok? {
      var t := routed.value;
      var p := ReplanOf(o, source, current, t, now);
      ReplanKeepsPolicy(routed.st, cfg, p);
      ResolveCaseKeepsPolicy(CreateReplan(routed.st, p).st, cfg, o.run, o.sourceTask,
                             b.(currentTask := t.id, currentMessage := t.message, currentOwner := t.owner),
                             res.(createdTask := Some(t.id), createdMessage := Some(t.message)), now);
    }
  }

  lemma StartKeepsPolicy(s: State, cfg: Config, goal: string, coordinator: string, createdBy: string, now: Time)
    requires Policy(cfg, s)
    ensures Policy(cfg, StartRun(s, cfg, goal, coordinator, createdBy, now).st)
  {
    hide Trim;
    hide RunValid;
    hide ResolveIn;
    hide AllowedOwnersOf;
    hide BaselineTargetsKnown;
    hide TaskPolicy;
  }

  /** No command ever records a forbidden fanout. */
  lemma StepKeepsPolicy(s: State, cfg: Config, step: Step)
    requires Policy(cfg, s)
    ensures Policy(cfg, Execute(s, cfg, step).st)
  {
    hide Policy;
    hide StartRun;
    hide AddChildTask;
    hide RouteChildTask;
    hide ReadMsg;
    hide TaskAccept;
    hide RecordBlocker;
    hide TaskDone;
    hide ReviewRespond;
    hide BlockerResolve;
    hide Requeue;
    hide Send;
    hide LoadActiveTask;
    hide UpdateReceipt;
    hide MoveReceipt;
    match step.command
    case CmdStart(goal, coordinator, createdBy) => StartKeepsPolicy(s, cfg, goal, coordinator, createdBy, step.now);
    case CmdAdd(r, req) => AddChildKeepsPolicy(s, cfg, r, req, step.now);
    case CmdRoute(req) => RouteKeepsPolicy(s, cfg, step.env, req, step.now);
    case CmdRead(agent, m) =>
      ReadRuns(s, cfg, agent, m, step.now);
      RunsDecide(cfg, s, ReadMsg(s, cfg, agent, m, step.now).st);
    case CmdAccept(agent, m) =>
      ReceiptStepRuns(s, cfg, agent, m, ReceiptKey("", m), step.now);
      RunsDecide(cfg, s, TaskAccept(s, cfg, agent, m, step.now).st);
    case CmdBlock(agent, m, d, reason) => BlockKeepsPolicy(s, cfg, step.env, agent, m, d, reason, step.now);
    case CmdDone(agent, m) => DoneKeepsPolicy(s, cfg, step.env, agent, m, step.now);
    case CmdRespond(agent, m, outcome, body) => RespondKeepsPolicy(s, cfg, agent, m, outcome, body, step.now);
    case CmdResolve(o) => ResolveKeepsPolicy(s, cfg, step.env, o, step.now);
    case CmdRequeue(k) =>
      ReceiptStepRuns(s, cfg, "", k.message, k, step.now);
      RunsDecide(cfg, s, Requeue(s, k).st);
    case CmdSend(to, from, kind, thread, replyTo, body) =>
      SendRuns(s, cfg, to, from, kind, thread, replyTo, body);
      RunsDecide(cfg, s, Send(s, cfg, to, from, kind, thread, replyTo, body).st);
  }
}
