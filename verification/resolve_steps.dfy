/** The operator's resolutions keep the invariant. */
module ResolveSteps {
  import opened Wrappers
  import opened Text
  import opened Protocol
  import opened Routing
  import opened Coordinator
  import opened Invariant
  import opened ReceiptSteps
  import opened TaskSteps
  import opened RerouteSteps
  import opened CaseWrites
  import opened RerouteWrites
  import opened BlockerSteps
  import opened Evolution
  import Domains

  /** The document a resolution writes over b0, with the current task and attempts of b. */
  function ResolvedDoc(b0: BlockerCase, b: BlockerCase, res: Resolution, now: Time): BlockerCase {
    b0.(status := Resolved, resolution := Some(res), resolvedAt := Some(now), updatedAt := now,
        currentTask := b.currentTask, currentMessage := b.currentMessage, currentOwner := b.currentOwner,
        attempts := b.attempts)
  }

  lemma CaseHolds(s: State, r: RunId, k: TaskId)
    requires Inv(s) && r in s.runs && k in s.runs[r].cases
    ensures var b := s.runs[r].cases[k];
            && Holds(s.runs[r], k, b.currentTask) && Describes(b, r, k, b.currentTask, s.runs[r]) && CaseValid(b)
            && k in s.runs[r].tasks && b.sourceMessage == s.runs[r].tasks[k].message
            && b.sourceOwner == s.runs[r].tasks[k].owner && s.runs[r].tasks[k].id == k
  {
    hide Inv;
    hide CaseValid;
    hide ResolutionOk;
    hide TaskValid;
    CaseFacts(s, r, k);
    TaskFacts(s, r, k);
  }

  /** Dismissing and clarifying leave the current task; s1 is s with a message more at most. */
  lemma ResolveInPlace(s: State, s1: State, cfg: Config, r: RunId, k: TaskId, res: Resolution, now: Time)
    requires Inv(s) && r in s.runs && k in s.runs[r].cases
    requires Inv(s1) && s1.runs == s.runs && s.seqno <= s1.seqno
    requires Grows(s.messages, s.receipts, s1.messages, s1.receipts)
    requires res.createdTask.None? && (res.createdMessage.Some? ==> res.createdMessage.value in s1.messages)
    ensures var b := s.runs[r].cases[k];
            var o := ResolveCase(s1, r, k, b, res, now);
            && Inv(o.st) && Evolves(s, o.st) && Calm(s, o.st)
            && (if o.Ok? then CaseStep(cfg, s, o.st, r, k, 0) else CasesSame(s, o.st))
  {
    hide Inv;
    hide CaseValid;
    hide Evolves;
    hide Calm;
    hide NoNewDeps;
    hide CaseStep;
    hide CasesSame;
    hide Writable;
    hide Grows;
    hide Holds;
    hide Ceiling;
    var rd, b := s1.runs[r], s.runs[r].cases[k];
    var b' := ResolvedDoc(b, b, res, now);
    CaseHolds(s, r, k);
    assert TasksOnly(s, s1, r);
    TasksOnlyEvolves(s, s1, r);
    if CaseValid(b') {
      SameCurrentWritable(s1, r, k, b.currentTask, b');
      WriteKeepsInv(s1, r, rd.(cases := rd.cases[k := b']), b');
      CaseWriteEvolves(cfg, s, s1, r, rd.(cases := rd.cases[k := b']), b', 0);
    }
  }

  lemma ResolveRerouted(s: State, s1: State, cfg: Config, r: RunId, k: TaskId, t: ChildTask,
                        note: string, res: Resolution, now: Time)
    requires Inv(s) && r in s.runs && k in s.runs[r].cases
    requires var u := s.runs[r].cases[k].currentTask;
             u in s.runs[r].tasks && Added(SuspendedState(s, KeyOfTask(s.runs[r].tasks[u])), s1, r, t)
    requires k in s.runs[r].tasks && TasksOnly(s, s1, r) && t.Class() == s.runs[r].tasks[k].Class()
    requires res.createdTask == Some(t.id) && res.createdMessage == Some(t.message)
    ensures var o := ResolveCase(s1, r, k, Rerouted(s.runs[r].cases[k], t, note, now), res, now);
            && Inv(o.st) && Evolves(s, o.st) && Calm(s, o.st)
            && (o.Err? ==> CasesSame(s, o.st)) && (o.Ok? ==> CaseStep(cfg, s, o.st, r, k, 1))
  {
    hide Inv;
    hide CaseValid;
    hide Evolves;
    hide Calm;
    hide NoNewDeps;
    hide CaseStep;
    hide CasesSame;
    hide Writable;
    hide Grows;
    hide Holds;
    hide Ceiling;
    hide TaskValid;
    hide Canonical;
    var b0 := s.runs[r].cases[k];
    var b := Rerouted(b0, t, note, now);
    var b' := ResolvedDoc(b0, b, res, now);
    var rd := s1.runs[r];
    CaseHolds(s, r, k);
    RoutedOnFacts(s, s1, r, k, b0.currentTask, t);
    TasksOnlyEvolves(s, s1, r);
    assert t.message in s1.messages;
    if CaseValid(b') {
      RoutedOnWritable(s, s1, r, k, b0.currentTask, t, b');
      WriteKeepsInv(s1, r, rd.(cases := rd.cases[k := b']), b');
      CaseWriteEvolves(cfg, s, s1, r, rd.(cases := rd.cases[k := b']), b', 1);
    }
  }

  // -------------------------------------------------------- partial replan

  /** The replan of k names the task and message the case's resolution created. */
  ghost predicate ReplanAgrees(rd: RunDir, k: TaskId) {
    && k in rd.replans && k in rd.cases && rd.cases[k].resolution.Some?
    && var res := rd.cases[k].resolution.value;
       && res.action == PartialReplanAction
       && res.createdTask == Some(rd.replans[k].replacementTask)
       && res.createdMessage == Some(rd.replans[k].replacementMessage)
  }

  /** One replan more, agreeing with the case it resolves. */
  ghost predicate ReplanMade(s: State, s': State, r: RunId, k: TaskId) {
    && r in s.runs && s'.runs.Keys == s.runs.Keys && k !in s.runs[r].replans
    && (forall x :: x in s.runs && x != r ==> s'.runs[x].replans == s.runs[x].replans)
    && k in s'.runs[r].replans && s'.runs[r].replans == s.runs[r].replans[k := s'.runs[r].replans[k]]
    && ReplanAgrees(s'.runs[r], k)
  }

  /** Once the replan is on disk, the case update that goes with it cannot fail. */
  lemma ReplannedDocValid(b: BlockerCase, t: ChildTask, res: Resolution, now: Time)
    requires CaseValid(b) && TaskValid(t) && res.createdTask == Some(t.id)
    ensures CaseValid(ResolvedDoc(b, b.(currentTask := t.id, currentMessage := t.message, currentOwner := t.owner), res, now))
  {
    hide Blank;
  }

  lemma ReplanFields(r: RunId, p: PartialReplan, source: ChildTask, current: ChildTask, t: ChildTask, o: ResolveOpts, now: Time)
    requires p == ReplanOf(o, source, current, t, now) && o.run == r
    ensures p.run == r && p.sourceTask == source.id && p.sourceMessage == source.message
    ensures p.supersededTask == current.id && p.supersededMessage == current.message
    ensures p.replacementTask == t.id && p.replacementMessage == t.message
  {
  }

  /** The state in which both documents are written. */
  function BothWritten(s: State, r: RunId, b: BlockerCase, p: PartialReplan): State
    requires r in s.runs
  {
    s.(runs := s.runs[r := s.runs[r].(cases := s.runs[r].cases[b.sourceTask := b],
                                      replans := s.runs[r].replans[b.sourceTask := p])])
  }

  lemma BothAreWritten(s: State, r: RunId, k: TaskId, b: BlockerCase, res: Resolution, p: PartialReplan, now: Time)
    requires r in s.runs && k in s.runs[r].cases && s.runs[r].cases[k].sourceTask == k
    requires p.run == r && p.sourceTask == k && CreateReplan(s, p).Ok?
    requires CaseValid(ResolvedDoc(s.runs[r].cases[k], b, res, now))
    ensures ResolveCase(CreateReplan(s, p).st, r, k, b, res, now)
            == Ok(BothWritten(s, r, ResolvedDoc(s.runs[r].cases[k], b, res, now), p), ())
  {
    hide CaseValid;
    hide ReplanValid;
    var s2 := CreateReplan(s, p).st;
    assert s2.runs[r] == s.runs[r].(replans := s.runs[r].replans[k := p]);
  }

  lemma BothKeepInv(s: State, s1: State, cfg: Config, o: ResolveOpts, t: ChildTask, b: BlockerCase, b': BlockerCase,
                    p: PartialReplan, res: Resolution, now: Time)
    requires Inv(s) && o.run in s.runs && o.sourceTask in s.runs[o.run].cases && o.sourceTask !in s.runs[o.run].replans
    requires o.sourceTask in s.runs[o.run].tasks && b == s.runs[o.run].cases[o.sourceTask]
    requires b.currentTask in s.runs[o.run].tasks
    requires Added(SuspendedState(s, KeyOfTask(s.runs[o.run].tasks[b.currentTask])), s1, o.run, t)
    requires TasksOnly(s, s1, o.run) && t.Class() == o.taskClass && o.taskClass.Some? && o.taskClass.value != Review
    requires res.createdTask == Some(t.id) && res.createdMessage == Some(t.message)
    requires b' == ResolvedDoc(b, b.(currentTask := t.id, currentMessage := t.message, currentOwner := t.owner), res, now)
    requires CaseValid(b') && ReplanValid(p)
    requires p == ReplanOf(o, s.runs[o.run].tasks[o.sourceTask], s.runs[o.run].tasks[b.currentTask], t, now)
    ensures o.run in s1.runs && b'.sourceTask == o.sourceTask
    ensures var s2 := BothWritten(s1, o.run, b', p);
            Inv(s2) && Evolves(s, s2) && NoNewDeps(s, s2) && CaseStep(cfg, s, s2, o.run, o.sourceTask, 0)
  {
    hide Inv;
    hide CaseValid;
    hide ReplanValid;
    hide Evolves;
    hide Calm;
    hide NoNewDeps;
    hide CaseStep;
    hide Writable;
    hide Grows;
    hide Holds;
    hide Ceiling;
    hide TaskValid;
    hide Canonical;
    hide ReplanOf;
    var r, k := o.run, o.sourceTask;
    var rd0, rd1 := s.runs[r], s1.runs[r];
    var u := b.currentTask;
    CaseHolds(s, r, k);
    TaskFacts(s, r, u);
    ReplanFields(r, p, rd0.tasks[k], rd0.tasks[u], t, o, now);
    RoutedOnFacts(s, s1, r, k, u, t);
    var rd := rd1.(cases := rd1.cases[k := b'], replans := rd1.replans[k := p]);
    ReplannedWritable(s, s1, r, k, u, t, b', p);
    WriteKeepsInv(s1, r, rd, b');
    CaseWriteEvolves(cfg, s, s1, r, rd, b', 0);
  }

  lemma MadeByWriting(s: State, s1: State, r: RunId, b: BlockerCase, p: PartialReplan)
    requires TasksOnly(s, s1, r) && b.sourceTask !in s.runs[r].replans
    requires b.resolution.Some? && b.resolution.value.action == PartialReplanAction
    requires b.resolution.value.createdTask == Some(p.replacementTask)
    requires b.resolution.value.createdMessage == Some(p.replacementMessage)
    ensures ReplanMade(s, BothWritten(s1, r, b, p), r, b.sourceTask)
  {
    hide Grows;
  }

  lemma ReplanKeepsInv(s: State, s1: State, cfg: Config, o: ResolveOpts, t: ChildTask, res: Resolution, now: Time)
    requires Inv(s) && o.run in s.runs && o.sourceTask in s.runs[o.run].cases && o.sourceTask !in s.runs[o.run].replans
    requires o.sourceTask in s.runs[o.run].tasks
    requires var u := s.runs[o.run].cases[o.sourceTask].currentTask;
             u in s.runs[o.run].tasks && Added(SuspendedState(s, KeyOfTask(s.runs[o.run].tasks[u])), s1, o.run, t)
    requires TasksOnly(s, s1, o.run) && t.Class() == o.taskClass && o.taskClass.Some? && o.taskClass.value != Review
    requires res.createdTask == Some(t.id) && res.createdMessage == Some(t.message) && res.action == PartialReplanAction
    ensures var rd, k := s.runs[o.run], o.sourceTask;
            var b := rd.cases[k];
            var b1 := b.(currentTask := t.id, currentMessage := t.message, currentOwner := t.owner);
            var p := ReplanOf(o, rd.tasks[k], rd.tasks[b.currentTask], t, now);
            var o1 := CreateReplan(s1, p);
            var o2 := ResolveCase(o1.st, o.run, k, b1, res, now);
            && (o1.Err? ==> o1.st == s1)
            && (o1.Ok? ==> && o2.Ok? && ReplanMade(s, o2.st, o.run, k) && Inv(o2.st) && Evolves(s, o2.st) && NoNewDeps(s, o2.st) && CaseStep(cfg, s, o2.st, o.run, k, 0)
                           && o2.st == BothWritten(s1, o.run, ResolvedDoc(b, b1, res, now), p))
  {
    hide Inv;
    hide CaseValid;
    hide ReplanValid;
    hide Evolves;
    hide Calm;
    hide NoNewDeps;
    hide CaseStep;
    hide Grows;
    hide Holds;
    hide TaskValid;
    hide Canonical;
    hide ReplanOf;
    hide ResolveCase;
    var r, k := o.run, o.sourceTask;
    var rd := s.runs[r];
    var b := rd.cases[k];
    var b1 := b.(currentTask := t.id, currentMessage := t.message, currentOwner := t.owner);
    var b' := ResolvedDoc(b, b1, res, now);
    var p := ReplanOf(o, rd.tasks[k], rd.tasks[b.currentTask], t, now);
    CaseHolds(s, r, k);
    TaskFacts(s, r, b.currentTask);
    ReplanFields(r, p, rd.tasks[k], rd.tasks[b.currentTask], t, o, now);
    ReplannedDocValid(b, t, res, now);
    if CreateReplan(s1, p).Ok? {
      BothAreWritten(s1, r, k, b1, res, p, now);
      BothKeepInv(s, s1, cfg, o, t, b, b', p, res, now);
      MadeByWriting(s, s1, r, b', p);
    }
  }

  // --------------------------------------------------------- the command

  /** The case is there and escalated. */
  ghost predicate Escalation(s: State, o: ResolveOpts) {
    && o.run in s.runs && o.sourceTask in s.runs[o.run].cases
    && s.runs[o.run].cases[o.sourceTask].status == Escalated
  }

  /** A successful resolution writes the escalated case, and a replan with it if that was the action;
      a failed one writes neither. */
  ghost predicate Resolves(cfg: Config, s: State, o: ResolveOpts, result: Outcome<()>) {
    && Inv(result.st) && Evolves(s, result.st) && NoNewDeps(s, result.st)
    && if result.Err? then CasesSame(s, result.st) && ReplansSame(s, result.st)
       else && Escalation(s, o)
            && CaseStep(cfg, s, result.st, o.run, o.sourceTask, if o.action == ManualReroute then 1 else 0)
            && (if o.action == PartialReplanAction then ReplanMade(s, result.st, o.run, o.sourceTask)
                else ReplansSame(s, result.st))
  }

  lemma ClarifyResolves(s: State, cfg: Config, env: Environment, o: ResolveOpts, now: Time)
    requires Inv(s) && Escalation(s, o) && (o.action == Clarify || o.action == Dismiss)
    ensures Resolves(cfg, s, o, BlockerResolve(s, cfg, env, o, now))
  {
    hide Inv;
    hide Evolves;
    hide NoNewDeps;
    hide ReplanMade;
    hide CasesSame;
    hide CaseStep;
    hide CaseReadable;
    hide ResolveOptsValid;
    hide ResolveCase;
    hide Send;
    hide Trim;
    var rd, k := s.runs[o.run], o.sourceTask;
    var b := rd.cases[k];
    var res := Resolution(o.action, None, None, Trim(o.reason), now);
    SentEvolves(s, s);
    SendKeepsInv(s, cfg, b.currentOwner, "human", Decision, Some(rd.doc.rootThread), Some(b.currentMessage), o.body);
    var sent := Send(s, cfg, b.currentOwner, "human", Decision, Some(rd.doc.rootThread), Some(b.currentMessage), o.body);
    SentLater(s, cfg, b.currentOwner, "human", Decision, Some(rd.doc.rootThread), Some(b.currentMessage), o.body);
    SentEvolves(s, sent.st);
    ResolveInPlace(s, s, cfg, o.run, k, res, now);
    if sent.Ok? {
      ResolveInPlace(s, sent.st, cfg, o.run, k, res.(createdMessage := Some(sent.value)), now);
    }
  }

  lemma SentLater(s: State, cfg: Config, to: string, from: AgentName, kind: Kind, thread: Option<ThreadId>,
                  replyTo: Option<MessageId>, body: string)
    ensures s.seqno <= Send(s, cfg, to, from, kind, thread, replyTo, body).st.seqno
  {
    hide Trim;
    hide Resolve;
  }

  lemma SentEvolves(s: State, s1: State)
    requires s1.runs == s.runs && s.seqno <= s1.seqno && Grows(s.messages, s.receipts, s1.messages, s1.receipts)
    ensures Evolves(s, s1) && Calm(s, s1) && CasesSame(s, s1)
  {
    hide RunEvolves;
    SameRunsEvolve(s, s1);
  }

  lemma ManualResolves(s: State, cfg: Config, env: Environment, o: ResolveOpts, now: Time)
    requires Inv(s) && Escalation(s, o) && o.action == ManualReroute
    ensures Resolves(cfg, s, o, BlockerResolve(s, cfg, env, o, now))
  {
    hide Inv;
    hide Evolves;
    hide NoNewDeps;
    hide ReplanMade;
    hide CasesSame;
    hide CaseStep;
    hide Describes;
    hide Added;
    hide TasksOnly;
    hide CaseReadable;
    hide ResolveOptsValid;
    hide ResolveCase;
    hide RerouteTask;
    hide Rerouted;
    hide Trim;
    var rd, k := s.runs[o.run], o.sourceTask;
    var b := rd.cases[k];
    var res := Resolution(o.action, None, None, Trim(o.reason), now);
    SentEvolves(s, s);
    CaseHolds(s, o.run, k);
    RerouteTaskSteps(s, cfg, env, o.run, k, b.currentTask, Trim(o.owner), Trim(o.reason), now);
    CaseNamesSource(s, o.run, k);
    var routed := RerouteTask(s, cfg, env, o.run, rd.tasks[k], rd.tasks[b.currentTask], Trim(o.owner), Trim(o.reason), now);
    if routed.Ok? {
      var t := routed.value;
      ResolveRerouted(s, routed.st, cfg, o.run, k, t, Trim(o.reason),
                      res.(createdTask := Some(t.id), createdMessage := Some(t.message)), now);
    }
  }

  lemma CaseNamesSource(s: State, r: RunId, k: TaskId)
    requires Inv(s) && r in s.runs && k in s.runs[r].cases
    ensures CaseReadable(r, k, s.runs[r].cases[k]) && s.runs[r].cases[k].sourceTask == k
  {
    hide Inv;
    hide CaseValid;
    CaseFacts(s, r, k);
  }

  lemma ReplanResolves(s: State, cfg: Config, env: Environment, o: ResolveOpts, now: Time)
    requires Inv(s) && Escalation(s, o) && o.action == PartialReplanAction && ResolveOptsValid(o)
    ensures Resolves(cfg, s, o, BlockerResolve(s, cfg, env, o, now))
  {
    hide Inv;
    hide Evolves;
    hide NoNewDeps;
    hide ReplanMade;
    hide CasesSame;
    hide CaseStep;
    hide Describes;
    hide Added;
    hide TasksOnly;
    hide CaseReadable;
    hide Domains.Normalize;
    hide ResolveCase;
    hide CreateReplan;
    hide ReplanOf;
    hide ResolvedDoc;
    hide RouteInPlaceOf;
    hide BothWritten;
    hide Trim;
    var rd, k := s.runs[o.run], o.sourceTask;
    var b := rd.cases[k];
    var res := Resolution(o.action, None, None, Trim(o.reason), now);
    SentEvolves(s, s);
    CaseHolds(s, o.run, k);
    CaseNamesSource(s, o.run, k);
    var key, req := KeyOfTask(rd.tasks[b.currentTask]), ReplanRequest(o, rd.tasks[k]);
    RoutedOrRestored(s, cfg, env, key, req, now);
    var routed := RouteInPlaceOf(s, cfg, env, key, req, now);
    if routed.Err? {
      RestoredEvolves(s, routed.st, key);
    } else {
      var t := routed.value;
      AddedTasksOnly(s, routed.st, key, o.run, t);
      TasksOnlyEvolves(s, routed.st, o.run);
      if k !in rd.replans {
        ReplanKeepsInv(s, routed.st, cfg, o, t, res.(createdTask := Some(t.id), createdMessage := Some(t.message)), now);
      }
    }
  }

  lemma ResolveKeepsInv(s: State, cfg: Config, env: Environment, o: ResolveOpts, now: Time)
    requires Inv(s)
    ensures Resolves(cfg, s, o, BlockerResolve(s, cfg, env, o, now))
  {
    if ResolveOptsValid(o) && Escalation(s, o) {
      hide *;
      match o.action
      case Dismiss => ClarifyResolves(s, cfg, env, o, now);
      case Clarify => ClarifyResolves(s, cfg, env, o, now);
      case ManualReroute => ManualResolves(s, cfg, env, o, now);
      case PartialReplanAction => ReplanResolves(s, cfg, env, o, now);
    } else {
      hide Inv;
      hide Evolves;
      hide NoNewDeps;
      hide ReplansSame;
      hide CasesSame;
      hide CaseStep;
      hide ResolveOptsValid;
      hide ResolveCase;
      hide RouteInPlaceOf;
      hide RerouteTask;
      hide Send;
      hide Trim;
      SentEvolves(s, s);
      assert BlockerResolve(s, cfg, env, o, now).Err? && BlockerResolve(s, cfg, env, o, now).st == s;
    }
  }
}
