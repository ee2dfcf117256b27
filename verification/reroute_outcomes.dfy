/** What a reroute request can end in: a new owner, an escalation, or the state as it was. */
module RerouteOutcomes {
  import opened Wrappers
  import opened Text
  import opened Protocol
  import opened Routing
  import opened Coordinator
  import opened Invariant
  import opened ReceiptSteps
  import opened TaskSteps
  import opened RerouteSteps
  import opened CaseWrites
  import opened RerouteWrites
  import opened BlockerSteps
  import opened Evolution
  import opened ResolveSteps
  import opened HandoffSteps
  import Domains

  /** Loading an active task changes nothing: its receipt was read before. */
  lemma LoadActiveReadsOnly(s: State, cfg: Config, agent: string, m: MessageId, now: Time)
    requires Inv(s)
    ensures LoadActiveTask(s, cfg, agent, m, now).st == s
  {
    hide RunsOk;
    hide IdsOk;
    hide MetasOk;
    hide Resolve;
    hide ReceiptValid;
    var name := Resolve(cfg, agent);
    if name.Some? {
      var again := Resolve(cfg, name.value);
      if again.Some? {
        OneReceiptPerMessage(s, ReceiptKey(name.value, m), ReceiptKey(again.value, m));
      }
    }
  }

  lemma OneReceiptPerMessage(s: State, k: ReceiptKey, k': ReceiptKey)
    requires Inv(s) && k.message == k'.message
    ensures k in s.receipts && k' in s.receipts ==> k == k'
  {
    hide RunsOk;
    if k in s.receipts && k' in s.receipts {
      assert ReceiptOk(k, s.receipts[k], s.messages) && ReceiptOk(k', s.receipts[k'], s.messages);
    }
  }

  /** Once the active task is loaded, a wait or block acts on the case that holds it. */
  lemma BlockActs(s: State, cfg: Config, env: Environment, agent: string, m: MessageId,
                  d: Declared, reason: string, now: Time, r: RunId, t: TaskId) returns (k: TaskId)
    requires Inv(s) && Carries(s, m, r, t) && reason != ""
    requires var a := LoadActiveTask(s, cfg, agent, m, now); a.Ok? && !ClaimedByOther(a.value)
    ensures var rd := s.runs[r];
            && !ReceiptFinished(s.receipts, rd.tasks[t]) && Holds(rd, k, t)
            && RecordBlocker(s, cfg, env, agent, m, d, reason, now)
               == ActOnBlocker(s, cfg, env, r, CaseAt(rd, k), k, t, rd.tasks[t].owner, rd.tasks[t].message, d, reason, now)
  {
    hide Inv;
    hide LoadActiveTask;
    hide ActOnBlocker;
    hide FindCase;
    hide Holds;
    hide TaskValid;
    LoadActiveReadsOnly(s, cfg, agent, m, now);
    LoadActiveKeepsInv(s, cfg, agent, m, now);
    var a := LoadActiveTask(s, cfg, agent, m, now);
    CarriedTask(s, m);
    assert KeyOfTask(s.runs[r].tasks[t]) == ReceiptKey(a.value.agent, m);
    LiveTaskHeld(s, r, t);
    var f := FindCase(r, s.runs[r], t).value;
    k := if f.Some? then f.value.sourceTask else t;
    HoldsTasks(s.runs[r], k, t);
  }

  /** A wait or block on a task either fails at once or acts on the case that holds the task. */
  lemma BlockReaches(s: State, cfg: Config, env: Environment, agent: string, m: MessageId,
                     d: Declared, reason: string, now: Time, r: RunId, t: TaskId)
    requires Inv(s) && Carries(s, m, r, t)
    ensures var o := RecordBlocker(s, cfg, env, agent, m, d, reason, now);
            var rd := s.runs[r];
            || (o.Err? && o.st == s && !Rejection(o.error))
            || (&& !ReceiptFinished(s.receipts, rd.tasks[t])
                && exists k :: Holds(rd, k, t)
                     && o == ActOnBlocker(s, cfg, env, r, CaseAt(rd, k), k, t, rd.tasks[t].owner, rd.tasks[t].message,
                                          d, reason, now))
  {
    hide Inv;
    hide LoadActiveTask;
    hide ActOnBlocker;
    hide FindCase;
    hide Holds;
    LoadActiveReadsOnly(s, cfg, agent, m, now);
    LoadActiveErrors(s, cfg, agent, m, now);
    var a := LoadActiveTask(s, cfg, agent, m, now);
    if reason != "" && a.Ok? && !ClaimedByOther(a.value) {
      var k := BlockActs(s, cfg, env, agent, m, d, reason, now, r, t);
    }
  }

  lemma HoldsTasks(rd: RunDir, k: TaskId, t: TaskId)
    requires Holds(rd, k, t)
    ensures k in rd.tasks && t in rd.tasks
  {
    hide NotReplacement;
  }

  lemma LoadActiveErrors(s: State, cfg: Config, agent: string, m: MessageId, now: Time)
    ensures var o := LoadActiveTask(s, cfg, agent, m, now); o.Err? ==> !Rejection(o.error)
  {
    hide Resolve;
    hide ReceiptValid;
  }

  // -------------------------------------------------------- rejected routes

  /** Everything is as it was, except that the receipt of the current task counts two revisions more. */
  predicate OnlyRevised(s: State, s': State, k: ReceiptKey) {
    && s' == s.(receipts := s'.receipts)
    && s'.receipts == RestoredReceipts(s, k)
  }

  lemma RejectedRerouteRestores(s: State, cfg: Config, env: Environment, r: RunId, source: ChildTask,
                                current: ChildTask, overrideOwner: string, reason: string, now: Time)
    requires Inv(s)
    ensures var o := RerouteTask(s, cfg, env, r, source, current, overrideOwner, reason, now);
            o.Err? && Rejection(o.error) ==> OnlyRevised(s, o.st, KeyOfTask(current))
  {
    hide Inv;
    hide RouteInPlaceOf;
    hide RerouteRequest;
    hide RestoredReceipts;
    hide Added;
    if source.route.Some? {
      RoutedOrRestored(s, cfg, env, KeyOfTask(current), RerouteRequest(r, source, current, overrideOwner, reason), now);
    }
  }

  lemma ActRejectedRestores(s: State, cfg: Config, env: Environment, r: RunId, k: TaskId, t: TaskId,
                            d: Declared, reason: string, now: Time)
    requires Inv(s) && r in s.runs && k in s.runs[r].tasks && t in s.runs[r].tasks
    ensures var rd := s.runs[r];
            var o := ActOnBlocker(s, cfg, env, r, CaseAt(rd, k), k, t, rd.tasks[t].owner, rd.tasks[t].message, d, reason, now);
            o.Err? && Rejection(o.error) ==> OnlyRevised(s, o.st, KeyOfTask(rd.tasks[t]))
  {
    hide Inv;
    hide RerouteTask;
    hide PrepareCase;
    hide CaseValid;
    hide OnlyRevised;
    hide Recommend;
    hide Trim;
    var rd := s.runs[r];
    RejectedRerouteRestores(s, cfg, env, r, rd.tasks[k], rd.tasks[t], "", reason, now);
  }

  /** A wait or block command whose reroute is rejected leaves tasks, messages, cases, replans,
      folder, claim and completion time exactly as they were. */
  lemma RejectedBlockRestores(s: State, cfg: Config, env: Environment, agent: string, m: MessageId,
                              d: Declared, reason: string, now: Time, r: RunId, t: TaskId)
    requires Inv(s) && Carries(s, m, r, t)
    ensures var o := RecordBlocker(s, cfg, env, agent, m, d, reason, now);
            o.Err? && Rejection(o.error) ==> OnlyRevised(s, o.st, KeyOfTask(s.runs[r].tasks[t]))
  {
    hide Inv;
    hide RecordBlocker;
    hide ActOnBlocker;
    hide OnlyRevised;
    hide NotReplacement;
    BlockReaches(s, cfg, env, agent, m, d, reason, now, r, t);
    var o := RecordBlocker(s, cfg, env, agent, m, d, reason, now);
    if o.Err? && Rejection(o.error) {
      var rd := s.runs[r];
      var k :| Holds(rd, k, t) && o == ActOnBlocker(s, cfg, env, r, CaseAt(rd, k), k, t, rd.tasks[t].owner,
                                                    rd.tasks[t].message, d, reason, now);
      ActRejectedRestores(s, cfg, env, r, k, t, d, reason, now);
    }
  }

  /** The same for an operator's manual reroute and partial replan. */
  lemma RejectedResolveRestores(s: State, cfg: Config, env: Environment, o: ResolveOpts, now: Time)
    requires Inv(s) && Escalation(s, o)
    ensures var result := BlockerResolve(s, cfg, env, o, now);
            var rd := s.runs[o.run];
            result.Err? && Rejection(result.error) ==>
              && rd.cases[o.sourceTask].currentTask in rd.tasks
              && OnlyRevised(s, result.st, KeyOfTask(rd.tasks[rd.cases[o.sourceTask].currentTask]))
  {
    hide Inv;
    hide OnlyRevised;
    hide Describes;
    hide CaseValid;
    hide Domains.Normalize;
    hide RerouteTask;
    hide RouteInPlaceOf;
    hide ReplanRequest;
    hide ReplanOf;
    hide ReplanValid;
    hide Resolve;
    hide NotReplacement;
    hide Added;
    hide Trim;
    var rd, k := s.runs[o.run], o.sourceTask;
    var b := rd.cases[k];
    CaseHolds(s, o.run, k);
    CaseNamesSource(s, o.run, k);
    RejectedRerouteRestores(s, cfg, env, o.run, rd.tasks[k], rd.tasks[b.currentTask], Trim(o.owner), Trim(o.reason), now);
    if o.action == PartialReplanAction && o.taskClass.Some? {
      ReplanRouteRestores(s, cfg, env, KeyOfTask(rd.tasks[b.currentTask]), ReplanRequest(o, rd.tasks[k]), now);
    }
  }

  lemma ReplanRouteRestores(s: State, cfg: Config, env: Environment, k: ReceiptKey, req: Request, now: Time)
    requires Inv(s)
    ensures var o := RouteInPlaceOf(s, cfg, env, k, req, now);
            o.Err? && Rejection(o.error) ==> OnlyRevised(s, o.st, k)
  {
    hide Inv;
    hide RouteInPlaceOf;
    hide RestoredReceipts;
    hide Added;
    RoutedOrRestored(s, cfg, env, k, req, now);
  }

  // ------------------------------------------- reroute until the ceiling

  /** How often the case of k may still be rerouted automatically. */
  function Budget(cfg: Config, rd: RunDir, k: TaskId): int
    requires k in rd.tasks
  {
    Ceiling(cfg, rd.tasks[k]) - (if k in rd.cases then rd.cases[k].rerouteCount else 0)
  }

  /** With no budget left a reroute request escalates: the case waits for an operator, and neither
      tasks nor receipts nor messages change. */
  lemma NoBudgetEscalates(s: State, cfg: Config, env: Environment, r: RunId, k: TaskId, t: TaskId,
                          reason: string, now: Time)
    requires Inv(s) && r in s.runs && Holds(s.runs[r], k, t) && Budget(cfg, s.runs[r], k) <= 0
    ensures var rd := s.runs[r];
            var o := ActOnBlocker(s, cfg, env, r, CaseAt(rd, k), k, t, rd.tasks[t].owner, rd.tasks[t].message,
                                  Block(RerouteNeeded), reason, now);
            o.Ok? ==>
              && r in o.st.runs && k in o.st.runs[r].cases && k in o.st.runs[r].tasks
              && var rd' := o.st.runs[r];
                 && rd'.cases[k].status == Escalated && rd'.cases[k].recommended.Some?
                 && rd'.cases[k].currentTask == t && rd'.tasks == rd.tasks
                 && o.st.receipts == s.receipts && o.st.messages == s.messages
                 && Budget(cfg, rd', k) == Budget(cfg, rd, k)
  {
    hide Inv;
    hide Describes;
    hide CaseChange;
    hide CaseValid;
    hide RerouteTask;
    hide PrepareCase;
    hide Recommend;
    hide Trim;
    hide Ceiling;
    hide NotReplacement;
    var rd := s.runs[r];
    PrepareCasePrepares(s, cfg, r, k, t, Block(RerouteNeeded), reason, now);
    PreparedCurrent(s, cfg, r, k, t, PrepareCase(cfg, r, CaseAt(rd, k), rd.tasks[k], rd.tasks[t], rd.tasks[t].owner,
                                                 rd.tasks[t].message, Block(RerouteNeeded), reason, now));
  }

  /** A successful reroute request spends one unit of the budget and moves the case to a new task. */
  lemma BudgetIsSpent(s: State, cfg: Config, env: Environment, r: RunId, k: TaskId, t: TaskId,
                      reason: string, now: Time)
    requires Inv(s) && r in s.runs && Holds(s.runs[r], k, t) && Budget(cfg, s.runs[r], k) > 0
    ensures var rd := s.runs[r];
            var o := ActOnBlocker(s, cfg, env, r, CaseAt(rd, k), k, t, rd.tasks[t].owner, rd.tasks[t].message,
                                  Block(RerouteNeeded), reason, now);
            o.Ok? ==>
              && r in o.st.runs && k in o.st.runs[r].cases && k in o.st.runs[r].tasks
              && var rd' := o.st.runs[r];
                 && rd'.cases[k].status == CaseActive
                 && rd'.cases[k].currentTask !in rd.tasks && rd'.cases[k].currentTask in rd'.tasks
                 && ReceiptFinished(o.st.receipts, rd.tasks[t])
                 && Budget(cfg, rd', k) == Budget(cfg, rd, k) - 1
  {
    hide Inv;
    hide Describes;
    hide CaseChange;
    hide CaseValid;
    hide RerouteTask;
    hide PrepareCase;
    hide Recommend;
    hide Trim;
    hide Added;
    hide Ceiling;
    hide Holds;
    hide Grows;
    hide ReceiptFinished;
    var rd := s.runs[r];
    HoldsTasks(rd, k, t);
    PrepareCasePrepares(s, cfg, r, k, t, Block(RerouteNeeded), reason, now);
    PreparedCurrent(s, cfg, r, k, t, PrepareCase(cfg, r, CaseAt(rd, k), rd.tasks[k], rd.tasks[t], rd.tasks[t].owner,
                                                 rd.tasks[t].message, Block(RerouteNeeded), reason, now));
    PreparedActive(cfg, r, CaseAt(rd, k), rd.tasks[k], rd.tasks[t], rd.tasks[t].owner, rd.tasks[t].message, reason, now);
    RerouteTaskSteps(s, cfg, env, r, k, t, "", reason, now);
    var o := RerouteTask(s, cfg, env, r, rd.tasks[k], rd.tasks[t], "", reason, now);
    if o.Ok? {
      TaskFacts(s, r, t);
      RoutedOnFacts(s, o.st, r, k, t, o.value);
      AddedNamed(SuspendedState(s, KeyOfTask(rd.tasks[t])), o.st, r, o.value);
    }
  }

  lemma AddedNamed(s: State, s': State, r: RunId, t: ChildTask)
    requires Added(s, s', r, t)
    ensures t.id == s.seqno + 1 && r in s'.runs && t.id in s'.runs[r].tasks
  {
    hide TaskValid;
    hide Canonical;
    hide NoneLive;
  }

  lemma PreparedCurrent(s: State, cfg: Config, r: RunId, k: TaskId, t: TaskId, b: BlockerCase)
    requires Prepared(cfg, s, r, k, t, b)
    ensures b.run == r && b.sourceTask == k && b.currentTask == t
  {
    hide CaseChange;
  }

  lemma PreparedActive(cfg: Config, r: RunId, existing: Option<BlockerCase>, source: ChildTask, current: ChildTask,
                       agent: AgentName, m: MessageId, reason: string, now: Time)
    ensures PrepareCase(cfg, r, existing, source, current, agent, m, Block(RerouteNeeded), reason, now).status == CaseActive
  {
    hide Trim;
    hide Ceiling;
  }

  // ------------------------------------------- the check that comes late

  /** A prepared document passes its validation exactly when the reason is not blank. */
  lemma PreparedValidExactly(s: State, cfg: Config, r: RunId, k: TaskId, t: TaskId, d: Declared, reason: string, now: Time)
    requires Inv(s) && r in s.runs && Holds(s.runs[r], k, t)
    ensures var rd := s.runs[r];
            var b := PrepareCase(cfg, r, CaseAt(rd, k), rd.tasks[k], rd.tasks[t], rd.tasks[t].owner, rd.tasks[t].message,
                                 d, reason, now);
            CaseValid(b) <==> !Blank(reason)
  {
    hide Inv;
    hide Trim;
    hide TrimLeft;
    hide TrimRight;
    hide SelectAction;
    hide Canonical;
    hide RouteInfoValid;
    hide ResolutionOk;
    hide NotReplacement;
    TrimIdempotent(reason);
    TaskFacts(s, r, k);
    TaskFacts(s, r, t);
    if k in s.runs[r].cases {
      CaseFacts(s, r, k);
    }
  }

  lemma ReroutedValid(b: BlockerCase, t: ChildTask, note: string, now: Time)
    requires TaskValid(t) && b.rerouteCount >= 0 && b.resolution.None? && b.status == CaseActive
    ensures CaseValid(Rerouted(b, t, note, now).(rerouteCount := b.rerouteCount + 1))
            <==> CaseValid(b.(currentTask := t.id, currentOwner := t.owner))
  {
    hide Blank;
    hide RouteInfoValid;
    var b' := Rerouted(b, t, note, now).(rerouteCount := b.rerouteCount + 1);
    assert b'.attempts[..|b.attempts|] == b.attempts;
    assert forall i :: 0 <= i < |b.attempts| ==> b'.attempts[i] == b.attempts[i];
  }

  /** A wait or block on a task that a case holds succeeds exactly when its reason is not blank and, if
      the action is a reroute, the routing succeeds. */
  lemma ActSucceedsExactly(s: State, cfg: Config, env: Environment, r: RunId, k: TaskId, t: TaskId,
                           d: Declared, reason: string, now: Time)
    requires Inv(s) && r in s.runs && Holds(s.runs[r], k, t)
    ensures var rd := s.runs[r];
            var o := ActOnBlocker(s, cfg, env, r, CaseAt(rd, k), k, t, rd.tasks[t].owner, rd.tasks[t].message, d, reason, now);
            var reroute := d == Block(RerouteNeeded) && Budget(cfg, rd, k) > 0;
            && (o.Ok? <==> !Blank(reason)
                           && (reroute ==> RerouteTask(s, cfg, env, r, rd.tasks[k], rd.tasks[t], "", reason, now).Ok?))
            && (Blank(reason) && reroute ==> o.st == RerouteTask(s, cfg, env, r, rd.tasks[k], rd.tasks[t], "", reason, now).st)
  {
    hide Inv;
    hide Describes;
    hide CaseChange;
    hide CaseValid;
    hide RerouteTask;
    hide PrepareCase;
    hide Recommend;
    hide Trim;
    hide Blank;
    hide Added;
    hide Ceiling;
    hide Holds;
    hide Grows;
    var rd := s.runs[r];
    HoldsTasks(rd, k, t);
    PrepareCasePrepares(s, cfg, r, k, t, d, reason, now);
    PreparedValidExactly(s, cfg, r, k, t, d, reason, now);
    var b := PrepareCase(cfg, r, CaseAt(rd, k), rd.tasks[k], rd.tasks[t], rd.tasks[t].owner, rd.tasks[t].message, d, reason, now);
    PreparedCurrent(s, cfg, r, k, t, b);
    PreparedStored(s, cfg, r, k, t, d, reason, now);
    EscalatedValid(b, Recommend(d, reason), now);
    RerouteTaskSteps(s, cfg, env, r, k, t, "", reason, now);
    var o := RerouteTask(s, cfg, env, r, rd.tasks[k], rd.tasks[t], "", reason, now);
    if o.Ok? {
      TaskFacts(s, r, t);
      RoutedOnFacts(s, o.st, r, k, t, o.value);
      AddedValid(SuspendedState(s, KeyOfTask(rd.tasks[t])), o.st, r, o.value);
      ReroutedValid(b, o.value, Trim(reason), now);
      FreshOwnerValid(s, r, k, t, b, o.value);
    }
  }

  lemma PreparedStored(s: State, cfg: Config, r: RunId, k: TaskId, t: TaskId, d: Declared, reason: string, now: Time)
    requires Inv(s) && r in s.runs && Holds(s.runs[r], k, t)
    ensures var rd := s.runs[r];
            var b := PrepareCase(cfg, r, CaseAt(rd, k), rd.tasks[k], rd.tasks[t], rd.tasks[t].owner, rd.tasks[t].message, d, reason, now);
            b.status == CaseActive && b.resolution.None? && b.rerouteCount >= 0
            && b.currentOwner == rd.tasks[t].owner && b.currentTask == rd.tasks[t].id
  {
    hide Inv;
    hide Trim;
    hide Ceiling;
    hide ResolutionOk;
    hide NotReplacement;
    if k in s.runs[r].cases {
      CaseFacts(s, r, k);
    }
  }

  lemma EscalatedValid(b: BlockerCase, rec: Recommended, now: Time)
    requires b.status == CaseActive
    ensures CaseValid(b.(status := Escalated, recommended := Some(rec), escalatedAt := Some(now))) <==> CaseValid(b)
  {
    hide Blank;
  }

  lemma AddedValid(s: State, s': State, r: RunId, t: ChildTask)
    requires Added(s, s', r, t)
    ensures TaskValid(t)
  {
    hide Canonical;
    hide NoneLive;
  }

  lemma FreshOwnerValid(s: State, r: RunId, k: TaskId, t: TaskId, b: BlockerCase, task: ChildTask)
    requires Inv(s) && r in s.runs && t in s.runs[r].tasks && TaskValid(task)
    requires b.currentTask == t && b.currentOwner == s.runs[r].tasks[t].owner
    ensures CaseValid(b.(currentTask := task.id, currentOwner := task.owner)) <==> CaseValid(b)
  {
    hide Inv;
    hide Blank;
    hide Canonical;
    hide RouteInfoValid;
    TaskFacts(s, r, t);
  }

  /** The owner of an active task that nobody else has claimed loads it. */
  lemma OwnerLoadsActive(s: State, cfg: Config, agent: string, m: MessageId, now: Time, r: RunId, t: TaskId)
    requires Inv(s) && Carries(s, m, r, t)
    requires var owner := s.runs[r].tasks[t].owner; Resolve(cfg, agent) == Some(owner) && Resolve(cfg, owner) == Some(owner)
    requires var k := KeyOfTask(s.runs[r].tasks[t]);
             && k in s.receipts && s.receipts[k].folder == Active
             && (s.receipts[k].claimedBy.Some? ==> s.receipts[k].claimedBy.value == k.agent)
    ensures var a := LoadActiveTask(s, cfg, agent, m, now); a.Ok? && !ClaimedByOther(a.value)
  {
    hide Inv;
    hide Resolve;
    hide TaskValid;
    hide ReceiptValid;
    CarriedTask(s, m);
  }

  /** The reason is checked for the empty string before the reroute but for blankness only after it. So
      a blank reason that is not empty lets the reroute happen and then fails: the task has moved on to
      a new owner, and the case, if there is one, still names the task that is now dead. */
  lemma BlankReasonLosesReroute(s: State, cfg: Config, env: Environment, r: RunId, k: TaskId, t: TaskId,
                                reason: string, now: Time)
    requires Inv(s) && r in s.runs && Holds(s.runs[r], k, t)
    requires reason != "" && Blank(reason) && Budget(cfg, s.runs[r], k) > 0
    requires RerouteTask(s, cfg, env, r, s.runs[r].tasks[k], s.runs[r].tasks[t], "", reason, now).Ok?
    ensures var rd := s.runs[r];
            var o := ActOnBlocker(s, cfg, env, r, CaseAt(rd, k), k, t, rd.tasks[t].owner, rd.tasks[t].message,
                                  Block(RerouteNeeded), reason, now);
            && o.Err? && r in o.st.runs && o.st.runs[r].cases == rd.cases
            && ReceiptFinished(o.st.receipts, rd.tasks[t])
            && |o.st.runs[r].tasks| == |rd.tasks| + 1
  {
    hide Inv;
    hide ActOnBlocker;
    hide RerouteTask;
    hide Blank;
    hide Added;
    hide Grows;
    hide Ceiling;
    hide ReceiptFinished;
    hide NotReplacement;
    hide NoDeps;
    ActSucceedsExactly(s, cfg, env, r, k, t, Block(RerouteNeeded), reason, now);
    RerouteTaskSteps(s, cfg, env, r, k, t, "", reason, now);
    var o := RerouteTask(s, cfg, env, r, s.runs[r].tasks[k], s.runs[r].tasks[t], "", reason, now);
    RoutedOnFacts(s, o.st, r, k, t, o.value);
  }
}
