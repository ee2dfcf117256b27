/** Starting runs, adding and routing tasks, and routing in place of a suspended task. */
module TaskSteps {
  import opened Wrappers
  import opened Text
  import opened Protocol
  import opened Routing
  import opened Coordinator
  import opened Invariant
  import opened ReceiptSteps
  import Domains

  // ---------------------------------------------------------------- runs

  ghost predicate EmptyRun(rd: RunDir) {
    rd.tasks == map[] && rd.handoffs == map[] && rd.cases == map[] && rd.replans == map[]
  }

  /** One run more, with nothing in it yet. */
  ghost predicate RunStarted(s: State, s': State, r: RunId) {
    r !in s.runs && r in s'.runs && EmptyRun(s'.runs[r]) && s'.runs == s.runs[r := s'.runs[r]]
  }

  lemma NextRunFresh(s: State)
    requires Inv(s)
    ensures s.seqno + 1 !in s.runs
  {
  }

  lemma StartKeepsInv(s: State, cfg: Config, goal: string, coordinator: string, createdBy: string, now: Time)
    requires Inv(s)
    ensures var o := StartRun(s, cfg, goal, coordinator, createdBy, now);
            && Inv(o.st)
            && Grows(s.messages, s.receipts, o.st.messages, o.st.receipts)
            && (o.st.runs == s.runs || RunStarted(s, o.st, s.seqno + 1))
  {
    hide Trim;
    hide RunValid;
    hide ResolveIn;
    hide AllowedOwnersOf;
    hide BaselineTargetsKnown;
    hide Inv;
    NextRunFresh(s);
    var r, m := s.seqno + 1, s.seqno + 2;
    var o := StartRun(s, cfg, goal, coordinator, createdBy, now);
    BumpKeepsInv(s, m);
    if o.st.runs != s.runs {
      assert r !in s.runs;
      var doc := o.st.runs[r].doc;
      var msg := Message(m, Task, doc.createdBy, doc.coordinator, None, true, None);
      BumpKeepsInv(s, s.seqno + 1);
      var s0 := s.(seqno := s.seqno + 1);
      DeliverPlain(s0, m, msg);
      var s1 := Deliver(s0.(seqno := m), m, msg).st;
      assert o.st == s1.(runs := s1.runs[r := RunDir(doc, map[], map[], map[], map[])]);
      AddRunKeepsInv(s1, r, RunDir(doc, map[], map[], map[], map[]));
    }
  }

  /** A successful start adds exactly the run it returns; a failed one leaves runs, messages and receipts alone. */
  lemma StartsOneRun(s: State, cfg: Config, goal: string, coordinator: string, createdBy: string, now: Time)
    requires Inv(s)
    ensures var o := StartRun(s, cfg, goal, coordinator, createdBy, now);
            && (o.Ok? ==> RunStarted(s, o.st, o.value) && o.value == s.seqno + 1)
            && (o.Err? ==> o.st == s.(seqno := o.st.seqno))
  {
    hide Trim;
    hide RunValid;
    hide ResolveIn;
    hide AllowedOwnersOf;
    hide BaselineTargetsKnown;
    hide Inv;
    NextRunFresh(s);
    var m := s.seqno + 2;
    var o := StartRun(s, cfg, goal, coordinator, createdBy, now);
    if o.st.runs != s.runs {
      var doc := o.st.runs[s.seqno + 1].doc;
      var msg := Message(m, Task, doc.createdBy, doc.coordinator, None, true, None);
      BumpKeepsInv(s, s.seqno + 1);
      DeliverPlain(s.(seqno := s.seqno + 1), m, msg);
    }
  }

  lemma AddRunKeepsInv(s: State, r: RunId, rd: RunDir)
    requires Inv(s) && r !in s.runs && r <= s.seqno && DocOk(r, rd.doc, s.messages)
    requires EmptyRun(rd)
    ensures Inv(s.(runs := s.runs[r := rd]))
  {
    hide RunOk;
    hide ReceiptsOk;
    assert RunOk(r, rd, s.messages, s.receipts) by { EmptyRunOk(r, rd, s.messages, s.receipts); }
    forall m | m in s.messages ensures MetaOk(m, s.messages[m], s.runs[r := rd]) {
      assert MetaOk(m, s.messages[m], s.runs);
    }
  }

  lemma EmptyRunOk(r: RunId, rd: RunDir, ms: Messages, rs: Receipts)
    requires DocOk(r, rd.doc, ms)
    requires EmptyRun(rd)
    ensures RunOk(r, rd, ms, rs)
  {
  }

  // --------------------------------------------------------- adding a task

  /** The one way a task comes into being: its file, its message and its unread receipt, all new. */
  ghost predicate Added(s: State, s': State, r: RunId, t: ChildTask) {
    && r in s.runs
    && t.id == s.seqno + 1 && t.message == s.seqno + 2 && t.parentRun == r && t.thread == s.runs[r].doc.rootThread
    && TaskValid(t) && Canonical(t) == t
    && (t.route.Some? && !RecordedAsFanout(t) ==> NoneLive(s.runs[r].tasks, s.receipts, t.route.value.duplicateKey))
    && s'.seqno == s.seqno + 2
    && s'.messages == s.messages[t.message := TaskMessage(s.runs[r].doc, t)]
    && s'.receipts == s.receipts[KeyOfTask(t) := NEW_RECEIPT]
    && s'.runs == s.runs[r := s.runs[r].(tasks := s.runs[r].tasks[t.id := t])]
  }

  function TaskMessage(doc: CoordinatorRun, t: ChildTask): Message {
    Message(doc.rootThread, MessageKindOf(t), doc.coordinator, t.owner, Some(doc.rootMessage), true,
            Some(TaskRef(t.parentRun, t.id)))
  }

  lemma TasksOkAdds(r: RunId, rd: RunDir, ms: Messages, rs: Receipts, t: ChildTask)
    requires TasksOk(r, rd, ms, rs) && TaskOk(r, rd.doc, t.id, t, ms, rs)
    ensures TasksOk(r, rd.(tasks := rd.tasks[t.id := t]), ms, rs)
  {
    hide TaskOk;
  }

  lemma HandoffsOkAdds(r: RunId, rd: RunDir, ms: Messages, t: ChildTask)
    requires HandoffsOk(r, rd, ms) && t.id !in rd.tasks
    ensures HandoffsOk(r, rd.(tasks := rd.tasks[t.id := t]), ms)
  {
    hide HandoffValid;
    hide ResponseOk;
    hide NeedsReview;
    forall k | k in rd.handoffs ensures HandoffOk(r, rd.doc, k, rd.handoffs[k], rd.tasks[t.id := t], ms) {
      assert HandoffOk(r, rd.doc, k, rd.handoffs[k], rd.tasks, ms);
    }
  }

  lemma CasesOkAdds(r: RunId, rd: RunDir, ms: Messages, rs: Receipts, t: ChildTask)
    requires CasesOk(r, rd, ms, rs) && ClassesKept(rd) && t.id !in rd.tasks
    ensures var rd' := rd.(tasks := rd.tasks[t.id := t]);
            CasesOk(r, rd', ms, rs) && ClassesKept(rd')
  {
    hide CaseReadable;
    var tasks' := rd.tasks[t.id := t];
    forall k | k in rd.cases ensures CaseOk(r, k, rd.cases[k], tasks', ms, rs) && ClassKept(k, rd.cases[k], tasks', rd.replans) {
      assert CaseOk(r, k, rd.cases[k], rd.tasks, ms, rs);
      assert ClassKept(k, rd.cases[k], rd.tasks, rd.replans);
    }
  }

  lemma ReplansOkAdds(r: RunId, rd: RunDir, rs: Receipts, t: ChildTask)
    requires ReplansOk(r, rd, rs) && t.id !in rd.tasks
    ensures ReplansOk(r, rd.(tasks := rd.tasks[t.id := t]), rs)
  {
    hide ReplanValid;
    forall k | k in rd.replans ensures ReplanOk(r, k, rd.replans[k], rd.tasks[t.id := t], rd.cases, rs) {
      assert ReplanOk(r, k, rd.replans[k], rd.tasks, rd.cases, rs);
    }
  }

  lemma KeysApartAdds(tasks: Tasks, rs: Receipts, t: ChildTask)
    requires KeysApart(tasks, rs) && t.id !in tasks
    requires t.route.Some? && !RecordedAsFanout(t) ==> NoneLive(tasks, rs, t.route.value.duplicateKey)
    ensures KeysApart(tasks[t.id := t], rs)
  {
    hide ReceiptFinished;
  }

  lemma RunOkAddsTask(r: RunId, rd: RunDir, ms: Messages, rs: Receipts, t: ChildTask)
    requires RunOk(r, rd, ms, rs) && t.id !in rd.tasks && TaskOk(r, rd.doc, t.id, t, ms, rs)
    requires t.route.Some? && !RecordedAsFanout(t) ==> NoneLive(rd.tasks, rs, t.route.value.duplicateKey)
    ensures RunOk(r, rd.(tasks := rd.tasks[t.id := t]), ms, rs)
  {
    hide TasksOk;
    hide HandoffsOk;
    hide CasesOk;
    hide ClassesKept;
    hide ReplansOk;
    hide KeysApart;
    hide NoneLive;
    KeysApartAdds(rd.tasks, rs, t);
    TasksOkAdds(r, rd, ms, rs, t);
    HandoffsOkAdds(r, rd, ms, t);
    CasesOkAdds(r, rd, ms, rs, t);
    ReplansOkAdds(r, rd, rs, t);
  }

  lemma NumbersFresh(s: State, r: RunId, k: ReceiptKey)
    requires Inv(s) && r in s.runs
    ensures s.seqno + 1 !in s.runs[r].tasks && s.seqno + 2 !in s.messages
    ensures k.message > s.seqno ==> k !in s.receipts
  {
    hide RunsOk;
    hide MetasOk;
    if k in s.receipts { assert ReceiptOk(k, s.receipts[k], s.messages); }
  }

  lemma NoneLiveGrows(s: State, s': State, tasks: Tasks, t: ChildTask)
    requires Grows(s.messages, s.receipts, s'.messages, s'.receipts)
    ensures t.route.Some? && NoneLive(tasks, s.receipts, t.route.value.duplicateKey)
            ==> NoneLive(tasks, s'.receipts, t.route.value.duplicateKey)
  {
  }

  lemma AddedKeepsInv(s: State, s': State, r: RunId, t: ChildTask)
    requires Inv(s) && Added(s, s', r, t)
    ensures Inv(s') && Grows(s.messages, s.receipts, s'.messages, s'.receipts)
  {
    hide TaskValid;
    hide Canonical;
    hide RunOk;
    hide NoneLive;
    NumbersFresh(s, r, KeyOfTask(t));
    forall k | k in s'.receipts ensures ReceiptOk(k, s'.receipts[k], s'.messages) {
      if k in s.receipts { assert ReceiptOk(k, s.receipts[k], s.messages); }
    }
    forall m | m in s'.messages ensures MetaOk(m, s'.messages[m], s'.runs) {
      if m != t.message { assert MetaOk(m, s.messages[m], s.runs); }
    }
    forall x | x in s'.runs ensures RunOk(x, s'.runs[x], s'.messages, s'.receipts) {
      RunOkGrows(x, s.runs[x], s.messages, s.receipts, s'.messages, s'.receipts);
      if x == r {
        assert TaskOk(r, s.runs[r].doc, t.id, t, s'.messages, s'.receipts);
        NoneLiveGrows(s, s', s.runs[r].tasks, t);
        RunOkAddsTask(r, s.runs[r], s'.messages, s'.receipts, t);
      }
    }
  }

  /** Routing said no: an active duplicate, or no owner to choose. */
  predicate Rejection(e: Error) {
    e.DuplicateTask? || e.RouteFailed?
  }

  /** The route carries the key of its run, class and domains. */
  predicate RouteKeyed(r: RunId, route: RouteInfo) {
    && Domains.Normalize(route.domains).Success?
    && route.duplicateKey == KeyOf(r, route.taskClass, Domains.Normalize(route.domains).value)
  }

  lemma KeyIsTrimmed(r: RunId, t: ChildTask, route: RouteInfo)
    requires RouteKeyed(r, route) && TaskValid(t) && t.parentRun == r && t.route.Some?
    requires t.route.value.taskClass == route.taskClass && t.route.value.domains == route.domains
    ensures t.route.value.duplicateKey == route.duplicateKey
  {
    hide Domains.Normalize;
    hide Blank;
  }

  lemma RequestKeyed(r: RunId, req: ChildRequest)
    requires ChildRequestValid(r, req) && req.route.Some?
    ensures RouteKeyed(r, req.route.value)
  {
    hide Domains.Normalize;
    hide Blank;
  }

  /** A task recorded without a match was looked up, and nothing live was found. */
  lemma RecordedMeansNoneLive(s: State, cfg: Config, r: RunId, owner: AgentName, route: RouteInfo)
    requires r in s.runs && RouteKeyed(r, route)
    ensures var found := RecordedRoute(s, cfg, r, owner, Some(route));
            && (found.Success? ==> found.value.Some? && found.value.value.taskClass == route.taskClass
                                   && found.value.value.domains == route.domains
                                   && found.value.value.duplicateKey == Trim(route.duplicateKey))
            && (found.Success? && found.value.value.decision.matched.None? ==>
                  NoneLive(s.runs[r].tasks, s.receipts, route.duplicateKey))
            && (found.Success? && found.value.value.decision.matched.Some? ==> route.taskClass in cfg.fanout)
  {
    hide Domains.Normalize;
    hide Trim;
    VisibleHead(route.duplicateKey);
    var tasks := s.runs[r].tasks;
    assert forall x :: x in tasks && tasks[x].Key() == Some(route.duplicateKey) && !ReceiptFinished(s.receipts, tasks[x])
                   ==> x in Suspects(tasks, s.receipts, route.duplicateKey);
  }

  /** Adding either creates exactly one task or leaves everything but the counter alone. */
  lemma AddResolvedAdds(s: State, cfg: Config, r: RunId, owner: AgentName, req: ChildRequest, now: Time)
    requires Inv(s) && r in s.runs
    requires req.route.Some? ==> RouteKeyed(r, req.route.value)
    ensures var o := AddResolved(s, cfg, r, owner, req, now);
            && (o.Ok? ==> Added(s, o.st, r, o.value) && o.value.owner == owner
                          && o.value.dependsOn == req.dependsOn && o.value.reviewRequired == req.reviewRequired
                          && (req.route.None? ==> o.value.route.None?)
                          && (req.route.Some? ==> o.value.Class() == Some(req.route.value.taskClass)))
            && (o.Err? ==> o.st == s || o.st == s.(seqno := s.seqno + 2))
            && (o.Err? && Rejection(o.error) ==> o.st == s)
  {
    hide Inv;
    hide TaskValid;
    hide Trim;
    hide NoneLive;
    hide RouteKeyed;
    hide Domains.Normalize;
    if req.route.Some? {
      RecordedMeansNoneLive(s, cfg, r, owner, req.route.value);
    }
    assert req.route.None? ==> RecordedRoute(s, cfg, r, owner, req.route) == Success(None);
    hide RecordedRoute;
    NumbersFresh(s, r, ReceiptKey(owner, s.seqno + 2));
    var o := AddResolved(s, cfg, r, owner, req, now);
    var route := RecordedRoute(s, cfg, r, owner, req.route);
    if route.Success? {
      var doc := s.runs[r].doc;
      var task := ChildTask(s.seqno + 1, r, owner, Trim(req.goal), Trim(req.expectedOutput), req.dependsOn,
                            req.reviewRequired, route.value, s.seqno + 2, doc.rootThread, now);
      if TaskValid(task) {
        CanonicalValid(task);
        if req.route.Some? { KeyIsTrimmed(r, task, req.route.value); }
        assert o.st.messages == s.messages[task.message := TaskMessage(doc, Canonical(task))];
      }
    }
  }

  lemma AddChildKeepsInv(s: State, cfg: Config, r: RunId, req: ChildRequest, now: Time)
    requires Inv(s)
    ensures var o := AddChildTask(s, cfg, r, req, now);
            && Inv(o.st)
            && (o.Ok? ==> Added(s, o.st, r, o.value) && o.value.dependsOn == req.dependsOn)
            && (o.Err? ==> o.st == s || o.st == s.(seqno := s.seqno + 2))
  {
    hide Inv;
    hide AddResolved;
    hide Added;
    hide ChildRequestValid;
    hide TargetKnown;
    hide RunValid;
    BumpKeepsInv(s, s.seqno + 2);
    if r in s.runs {
      var owner := ResolveIn(cfg.agents, req.owner);
      if owner.Some? && ChildRequestValid(r, req) {
        if req.route.Some? { RequestKeyed(r, req); }
        AddResolvedAdds(s, cfg, r, owner.value.name, req, now);
        var o := AddResolved(s, cfg, r, owner.value.name, req, now);
        if o.Ok? { AddedKeepsInv(s, o.st, r, o.value); }
      }
    }
  }

  lemma RouteAdds(s: State, cfg: Config, env: Environment, req: Request, now: Time)
    requires Inv(s)
    ensures var o := RouteChildTask(s, cfg, env, req, now);
            && Inv(o.st)
            && (o.Ok? ==> Added(s, o.st, req.run, o.value) && o.value.Class() == Some(req.taskClass)
                          && o.value.dependsOn == [] && o.value.reviewRequired == req.reviewRequired)
            && (o.Err? ==> o.st == s || o.st == s.(seqno := s.seqno + 2))
            && (o.Err? && Rejection(o.error) ==> o.st == s)
  {
    hide Inv;
    hide AddResolved;
    hide Added;
    hide RunValid;
    hide Blank;
    hide SelectRoutedOwner;
    hide FindActiveDuplicate;
    hide Domains.Normalize;
    BumpKeepsInv(s, s.seqno + 2);
    var o := RouteChildTask(s, cfg, env, req, now);
    if RequestValid(req) && req.run in s.runs && Domains.Normalize(req.domains).Success? {
      var domains := Domains.Normalize(req.domains).value;
      var key := KeyOf(req.run, req.taskClass, domains);
      var duplicate := FindActiveDuplicate(s, req.run, key);
      if duplicate.Success? {
        var d := SelectRoutedOwner(cfg, env, s.runs[req.run].doc.allowedOwners, req.(domains := domains), duplicate.value);
        if d.Success? {
          var route := RouteInfo(req.taskClass, domains, domains, key, d.value, req.overrideReason);
          var child := ChildRequest(d.value.selectedOwner, req.goal, req.expectedOutput, [], req.reviewRequired, Some(route));
          Domains.NormalizeIdempotent(req.domains);
          AddResolvedAdds(s, cfg, req.run, d.value.selectedOwner, child, now);
          var a := AddResolved(s, cfg, req.run, d.value.selectedOwner, child, now);
          if a.Ok? { AddedKeepsInv(s, a.st, req.run, a.value); }
        }
      }
    }
  }
}
