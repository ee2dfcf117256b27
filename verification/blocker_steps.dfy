/** Waiting and blocking keep the invariant, write one case at most, and never undo anything. */
module BlockerSteps {
  import opened Wrappers
  import opened Text
  import opened Protocol
  import opened Coordinator
  import opened Invariant
  import opened ReceiptSteps
  import opened TaskSteps
  import opened RerouteSteps
  import opened CaseWrites
  import opened RerouteWrites
  import opened HandoffSteps
  import opened Evolution

  function CaseAt(rd: RunDir, k: TaskId): Option<BlockerCase> {
    if k in rd.cases then Some(rd.cases[k]) else None
  }

  /** From the state before a command to the state its case write is made in, only tasks were added. */
  ghost predicate TasksOnly(s: State, s1: State, r: RunId) {
    && r in s.runs && r in s1.runs && s1.runs == s.runs[r := s1.runs[r]]
    && s1.runs[r] == s.runs[r].(tasks := s1.runs[r].tasks) && TasksEvolve(s.runs[r].tasks, s1.runs[r].tasks)
    && NoDeps(s.runs[r].tasks, s1.runs[r].tasks)
    && s.seqno <= s1.seqno && Grows(s.messages, s.receipts, s1.messages, s1.receipts)
  }

  lemma TasksOnlyRefl(s: State, r: RunId)
    requires r in s.runs
    ensures TasksOnly(s, s, r)
  {
  }

  lemma TasksOnlyEvolves(s: State, s1: State, r: RunId)
    requires TasksOnly(s, s1, r)
    ensures Evolves(s, s1) && Calm(s, s1) && CasesSame(s, s1)
  {
    OneRunEvolves(s, s1, r, s1.runs[r]);
  }

  lemma ChangeEvolves(cfg: Config, s: State, r: RunId, k: TaskId, b: BlockerCase, manual: nat)
    requires Inv(s) && r in s.runs && k in s.runs[r].cases && k in s.runs[r].tasks
    requires CaseChange(cfg, s.runs[r].tasks[k], Some(s.runs[r].cases[k]), b, manual)
    ensures CaseEvolves(s.runs[r].cases[k], b)
  {
    hide Inv;
    hide CaseValid;
    hide ResolutionOk;
    hide Ceiling;
    hide TaskValid;
    hide Canonical;
    CaseFacts(s, r, k);
    TaskFacts(s, r, k);
  }

  lemma SameCaseEvolves(b: BlockerCase)
    ensures CaseEvolves(b, b)
  {
  }

  lemma CaseWriteEvolves(cfg: Config, s: State, s1: State, r: RunId, rd: RunDir, b: BlockerCase, manual: nat)
    requires Inv(s) && TasksOnly(s, s1, r)
    requires rd == s1.runs[r].(cases := s1.runs[r].cases[b.sourceTask := b], replans := rd.replans)
    requires ReplansEvolve(s.runs[r].replans, rd.replans)
    requires b.sourceTask in s.runs[r].tasks
    requires CaseChange(cfg, s.runs[r].tasks[b.sourceTask], CaseAt(s.runs[r], b.sourceTask), b, manual)
    ensures var s' := s1.(runs := s1.runs[r := rd]);
            && Evolves(s, s') && NoNewDeps(s, s') && CaseStep(cfg, s, s', r, b.sourceTask, manual)
            && (rd.replans == s.runs[r].replans ==> Calm(s, s'))
  {
    hide Inv;
    hide Ceiling;
    hide Grows;
    hide CaseEvolves;
    var k := b.sourceTask;
    if k in s.runs[r].cases {
      ChangeEvolves(cfg, s, r, k, b, manual);
    }
    forall x | x in s.runs[r].cases ensures CaseEvolves(s.runs[r].cases[x], rd.cases[x]) {
      if x != k { SameCaseEvolves(s.runs[r].cases[x]); }
    }
    assert RunEvolves(s.runs[r], rd);
    OneRunEvolves(s, s1.(runs := s1.runs[r := rd]), r, rd);
  }

  // ------------------------------------------------ writing the document

  /** A case written by a wait or block command has no resolution any more. */
  ghost predicate Reopened(s: State, r: RunId, k: TaskId) {
    r in s.runs && k in s.runs[r].cases && s.runs[r].cases[k].resolution.None?
  }

  ghost predicate Prepared(cfg: Config, s: State, r: RunId, k: TaskId, t: TaskId, b: BlockerCase) {
    && r in s.runs && Describes(b, r, k, t, s.runs[r])
    && b.resolution.None?
    && CaseChange(cfg, s.runs[r].tasks[k], CaseAt(s.runs[r], k), b, 0)
    && b.rerouteCount == (if k in s.runs[r].cases then s.runs[r].cases[k].rerouteCount else 0)
    && b.attempts == (if k in s.runs[r].cases then s.runs[r].cases[k].attempts else [])
  }

  lemma PrepareCasePrepares(s: State, cfg: Config, r: RunId, k: TaskId, t: TaskId, d: Declared, reason: string, now: Time)
    requires Inv(s) && r in s.runs && Holds(s.runs[r], k, t)
    ensures var rd := s.runs[r];
            var b := PrepareCase(cfg, r, CaseAt(rd, k), rd.tasks[k], rd.tasks[t], rd.tasks[t].owner, rd.tasks[t].message,
                                 d, reason, now);
            && Prepared(cfg, s, r, k, t, b) && b.declared == d
            && b.selected == SelectAction(d, b.rerouteCount, Ceiling(cfg, rd.tasks[k]))
  {
    hide Inv;
    hide TaskValid;
    hide Canonical;
    hide CaseValid;
    hide ResolutionOk;
    hide SelectAction;
    hide Ceiling;
    hide Trim;
    TaskFacts(s, r, k);
    TaskFacts(s, r, t);
    if k in s.runs[r].cases {
      CaseFacts(s, r, k);
    }
  }

  /** Writing a prepared document, escalated or not. */
  lemma PersistKeepsInv(s: State, cfg: Config, r: RunId, k: TaskId, t: TaskId, b: BlockerCase)
    requires Inv(s) && r in s.runs && Holds(s.runs[r], k, t) && Prepared(cfg, s, r, k, t, b)
    ensures var o := PersistCase(s, b, k !in s.runs[r].cases);
            && Inv(o.st) && Evolves(s, o.st) && Calm(s, o.st)
            && (if o.Ok? then CaseStep(cfg, s, o.st, r, k, 0) && Reopened(o.st, r, k) else CasesSame(s, o.st))
            && (o.Ok? <==> CaseValid(b))
            && (o.Ok? ==> o.st == PutCase(s, r, b)) && (o.Err? ==> o.st == s)
  {
    hide Inv;
    hide CaseValid;
    hide CaseChange;
    hide Evolves;
    hide Calm;
    hide NoNewDeps;
    hide CaseStep;
    hide Writable;
    TasksOnlyRefl(s, r);
    TasksOnlyEvolves(s, s, r);
    if CaseValid(b) {
      var rd := s.runs[r];
      SameCurrentWritable(s, r, k, t, b);
      WriteKeepsInv(s, r, rd.(cases := rd.cases[k := b]), b);
      CaseWriteEvolves(cfg, s, s, r, rd.(cases := rd.cases[k := b]), b, 0);
    }
  }

  // ------------------------------------------------------------ rerouting

  lemma AddedTasksOnly(s: State, s': State, k: ReceiptKey, r: RunId, t: ChildTask)
    requires Inv(s) && k in s.receipts && Added(SuspendedState(s, k), s', r, t) && t.dependsOn == []
    ensures TasksOnly(s, s', r) && Inv(s')
  {
    hide Inv;
    hide TaskValid;
    hide Canonical;
    hide Grows;
    RoutedGrows(s, s', k, r, t);
    NumbersFresh(s, r, k);
  }

  lemma RestoredEvolves(s: State, s': State, k: ReceiptKey)
    requires s' == s.(seqno := s'.seqno, receipts := RestoredReceipts(s, k)) && s.seqno <= s'.seqno
    ensures Evolves(s, s') && Calm(s, s') && CasesSame(s, s')
  {
    hide RunEvolves;
    SameRunsEvolve(s, s');
  }

  /** The reroute of a blocker command: an error leaves every case as it was. */
  lemma RerouteTaskSteps(s: State, cfg: Config, env: Environment, r: RunId, k: TaskId, u: TaskId,
                         overrideOwner: string, reason: string, now: Time)
    requires Inv(s) && r in s.runs && k in s.runs[r].tasks && u in s.runs[r].tasks
    ensures var rd := s.runs[r];
            var o := RerouteTask(s, cfg, env, r, rd.tasks[k], rd.tasks[u], overrideOwner, reason, now);
            && Inv(o.st) && Evolves(s, o.st) && Calm(s, o.st) && CasesSame(s, o.st)
            && (o.Ok? ==>
                  && Added(SuspendedState(s, KeyOfTask(rd.tasks[u])), o.st, r, o.value)
                  && TasksOnly(s, o.st, r)
                  && o.value.Class() == rd.tasks[k].Class())
  {
    hide Inv;
    hide Evolves;
    hide Calm;
    hide NoNewDeps;
    hide CasesSame;
    hide TasksOnly;
    hide Added;
    hide RouteInPlaceOf;
    hide NextOwner;
    hide Trim;
    var rd := s.runs[r];
    TasksOnlyRefl(s, r);
    TasksOnlyEvolves(s, s, r);
    var source, key := rd.tasks[k], KeyOfTask(rd.tasks[u]);
    if source.route.Some? {
      var req := RerouteRequest(r, source, rd.tasks[u], overrideOwner, reason);
      RoutedOrRestored(s, cfg, env, key, req, now);
      var o := RouteInPlaceOf(s, cfg, env, key, req, now);
      if o.Ok? {
        AddedTasksOnly(s, o.st, key, r, o.value);
        TasksOnlyEvolves(s, o.st, r);
      } else {
        RestoredEvolves(s, o.st, key);
      }
    }
  }

  /** The document after an automatic reroute. */
  lemma ReroutedKeepsInv(s: State, s1: State, cfg: Config, r: RunId, k: TaskId, u: TaskId, t: ChildTask,
                         b: BlockerCase, note: string, now: Time)
    requires Inv(s) && r in s.runs && Holds(s.runs[r], k, u) && Prepared(cfg, s, r, k, u, b)
    requires b.declared == Block(RerouteNeeded) && b.rerouteCount < Ceiling(cfg, s.runs[r].tasks[k])
    requires Added(SuspendedState(s, KeyOfTask(s.runs[r].tasks[u])), s1, r, t) && TasksOnly(s, s1, r)
    requires t.Class() == s.runs[r].tasks[k].Class()
    ensures var b' := Rerouted(b, t, note, now).(rerouteCount := b.rerouteCount + 1);
            var o := PersistCase(s1, b', k !in s.runs[r].cases);
            && Inv(o.st) && Evolves(s, o.st) && Calm(s, o.st)
            && (if o.Ok? then CaseStep(cfg, s, o.st, r, k, 0) && Reopened(o.st, r, k) else CasesSame(s, o.st))
            && (o.Ok? <==> CaseValid(b'))
            && (o.Ok? ==> o.st == PutCase(s1, r, b')) && (o.Err? ==> o.st == s1)
  {
    hide Inv;
    hide CaseValid;
    hide Evolves;
    hide Calm;
    hide NoNewDeps;
    hide CaseStep;
    hide CasesSame;
    hide Writable;
    hide Grows;
    hide TaskValid;
    hide Canonical;
    hide Ceiling;
    var b' := Rerouted(b, t, note, now).(rerouteCount := b.rerouteCount + 1);
    TaskFacts(s, r, u);
    RoutedOnFacts(s, s1, r, k, u, t);
    TasksOnlyEvolves(s, s1, r);
    if CaseValid(b') {
      var rd := s1.runs[r];
      RoutedOnWritable(s, s1, r, k, u, t, b');
      WriteKeepsInv(s1, r, rd.(cases := rd.cases[k := b']), b');
      CaseWriteEvolves(cfg, s, s1, r, rd.(cases := rd.cases[k := b']), b', 0);
    }
  }

  // --------------------------------------------------------- the command

  lemma ActKeepsInv(s: State, cfg: Config, env: Environment, r: RunId, k: TaskId, t: TaskId,
                    d: Declared, reason: string, now: Time)
    requires Inv(s) && r in s.runs && Holds(s.runs[r], k, t)
    ensures var rd := s.runs[r];
            var o := ActOnBlocker(s, cfg, env, r, CaseAt(rd, k), k, t, rd.tasks[t].owner, rd.tasks[t].message,
                                  d, reason, now);
            && Inv(o.st) && Evolves(s, o.st) && Calm(s, o.st)
            && (if o.Ok? then CaseStep(cfg, s, o.st, r, k, 0) && Reopened(o.st, r, k) else CasesSame(s, o.st))
  {
    hide Inv;
    hide Evolves;
    hide Calm;
    hide NoNewDeps;
    hide CaseStep;
    hide CasesSame;
    hide Reopened;
    hide Describes;
    hide CaseChange;
    hide PersistCase;
    hide RerouteTask;
    hide PrepareCase;
    hide Recommend;
    hide Trim;
    hide Added;
    hide TasksOnly;
    var rd := s.runs[r];
    PrepareCasePrepares(s, cfg, r, k, t, d, reason, now);
    var b := PrepareCase(cfg, r, CaseAt(rd, k), rd.tasks[k], rd.tasks[t], rd.tasks[t].owner, rd.tasks[t].message,
                         d, reason, now);
    PersistKeepsInv(s, cfg, r, k, t, b);
    var escalated := b.(status := Escalated, recommended := Some(Recommend(d, reason)), escalatedAt := Some(now));
    assert Prepared(cfg, s, r, k, t, escalated) by { EscalatedPrepared(s, cfg, r, k, t, b, escalated); }
    PersistKeepsInv(s, cfg, r, k, t, escalated);
    if b.selected == Reroute {
      RerouteTaskSteps(s, cfg, env, r, k, t, "", reason, now);
      var o := RerouteTask(s, cfg, env, r, rd.tasks[k], rd.tasks[t], "", reason, now);
      if o.Ok? {
        ReroutedKeepsInv(s, o.st, cfg, r, k, t, o.value, b, Trim(reason), now);
      }
    }
  }

  lemma EscalatedPrepared(s: State, cfg: Config, r: RunId, k: TaskId, t: TaskId, b: BlockerCase, b': BlockerCase)
    requires r in s.runs && Holds(s.runs[r], k, t) && Prepared(cfg, s, r, k, t, b)
    requires b' == b.(status := b'.status, recommended := b'.recommended, escalatedAt := b'.escalatedAt)
    ensures Prepared(cfg, s, r, k, t, b')
  {
    hide Ceiling;
  }

  /** A live task either is the current task of one case or can have a case of its own. */
  lemma LiveTaskHeld(s: State, r: RunId, t: TaskId)
    requires Inv(s) && r in s.runs && t in s.runs[r].tasks && !ReceiptFinished(s.receipts, s.runs[r].tasks[t])
    ensures var f := FindCase(r, s.runs[r], t);
            && f.Success?
            && var k := if f.value.Some? then f.value.value.sourceTask else t;
               Holds(s.runs[r], k, t) && f.value == CaseAt(s.runs[r], k)
  {
    hide Inv;
    hide CaseValid;
    hide ResolutionOk;
    hide FindCase;
    FindCaseFinds(s, r, t);
    var f := FindCase(r, s.runs[r], t).value;
    if f.Some? {
      CaseFacts(s, r, f.value.sourceTask);
    } else {
      NewCaseNeverCollides(s, r, t);
    }
  }

  lemma CasesThen(cfg: Config, s: State, s1: State, s2: State, r: RunId, k: TaskId, manual: nat)
    requires s1.runs == s.runs
    ensures CasesSame(s1, s2) ==> CasesSame(s, s2)
    ensures CaseStep(cfg, s1, s2, r, k, manual) ==> CaseStep(cfg, s, s2, r, k, manual)
  {
    hide CaseChange;
  }

  /** The task a message carries, if it names one that exists. */
  ghost predicate Carries(s: State, m: MessageId, r: RunId, t: TaskId) {
    && m in s.messages && s.messages[m].meta == Some(TaskRef(r, t))
    && r in s.runs && t in s.runs[r].tasks
  }

  /** A successful command writes the case that holds the carried task; a failed one writes none. */
  ghost predicate BlockEffect(cfg: Config, s: State, m: MessageId, result: Outcome<()>) {
    if result.Err? || (m in s.messages && s.messages[m].meta.None?) then CasesSame(s, result.st)
    else exists r, t, k :: Carries(s, m, r, t) && Holds(s.runs[r], k, t)
                           && CaseStep(cfg, s, result.st, r, k, 0) && Reopened(result.st, r, k)
  }

  lemma RecordBlockerKeepsInv(s: State, cfg: Config, env: Environment, agent: string, m: MessageId,
                              d: Declared, reason: string, now: Time)
    requires Inv(s)
    ensures var o := RecordBlocker(s, cfg, env, agent, m, d, reason, now);
            Inv(o.st) && Evolves(s, o.st) && Calm(s, o.st) && BlockEffect(cfg, s, m, o)
  {
    hide Inv;
    hide Evolves;
    hide Calm;
    hide NoNewDeps;
    hide CaseStep;
    hide CasesSame;
    hide LoadActiveTask;
    hide ActOnBlocker;
    hide FindCase;
    hide Holds;
    hide Reopened;
    hide TaskValid;
    LoadedRunsSame(s, s);
    LoadActiveKeepsInv(s, cfg, agent, m, now);
    var a := LoadActiveTask(s, cfg, agent, m, now);
    var s1 := a.st;
    LoadedRunsSame(s, s1);
    if a.Ok? && a.value.msg.meta.Some? {
      CarriedTask(s1, m);
      var r, t := a.value.msg.meta.value.run, a.value.msg.meta.value.task;
      var rd := s1.runs[r];
      assert KeyOfTask(rd.tasks[t]) == ReceiptKey(a.value.agent, m);
      LiveTaskHeld(s1, r, t);
      var f := FindCase(r, rd, t).value;
      var k := if f.Some? then f.value.sourceTask else t;
      if k in rd.tasks {
        ActKeepsInv(s1, cfg, env, r, k, t, d, reason, now);
        var o := ActOnBlocker(s1, cfg, env, r, CaseAt(rd, k), k, t, rd.tasks[t].owner, rd.tasks[t].message, d, reason, now);
        EvolvesTrans(s, s1, o.st);
        CasesThen(cfg, s, s1, o.st, r, k, 0);
        assert Carries(s, m, r, t);
      }
    }
  }
}
