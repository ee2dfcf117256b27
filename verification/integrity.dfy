/** The run graph loads in every state reached by commands that keep two rules, and stops loading
    as soon as a successful command breaks one. */
module Integrity {
  import opened Wrappers
  import opened Text
  import opened Protocol
  import opened Coordinator
  import opened Invariant
  import opened TaskSteps
  import opened CaseWrites
  import opened RerouteWrites
  import opened HandoffSteps
  import opened BlockerSteps
  import opened ResolveSteps
  import opened Evolution
  import opened Commands
  import opened ReceiptSteps
  import opened RunGraph
  import opened RerouteOutcomes

  /** Every dependency is there, and every replan agrees with its case. */
  ghost predicate Sound(s: State) {
    forall r :: r in s.runs ==> DepsResolved(s.runs[r]) && ReplansAgree(s.runs[r])
  }

  lemma SoundLoads(s: State)
    requires Inv(s)
    ensures AllLoad(s) <==> Sound(s)
  {
    hide Inv;
    hide Loads;
    hide DepsResolved;
    hide ReplansAgree;
    forall r | r in s.runs
      ensures Loads(s.runs[r], s.messages, s.receipts) <==> DepsResolved(s.runs[r]) && ReplansAgree(s.runs[r])
    {
      LoadsExactly(s, r);
    }
  }

  /** The two rules, checked before the command: an added task depends only on tasks of its run (or on
      itself), and no wait or block is reported on the current task of a replanned case. */
  ghost predicate Safe(s: State, command: Command) {
    match command
    case CmdAdd(r, req) =>
      forall d :: d in req.dependsOn ==> (r in s.runs && d in s.runs[r].tasks) || d == s.seqno + 1
    case CmdBlock(_, m, _, _) =>
      m in s.messages && s.messages[m].meta.Some? && s.messages[m].meta.value.run in s.runs ==>
        var rd := s.runs[s.messages[m].meta.value.run];
        forall k :: k in rd.replans && k in rd.cases ==> rd.cases[k].currentTask != s.messages[m].meta.value.task
    case _ => true
  }

  // ------------------------------------------------------ kinds of steps

  lemma DepsKept(s: State, s': State, r: RunId)
    requires r in s'.runs && RunsEvolve(s.runs, s'.runs) && NoNewDeps(s, s')
    requires r in s.runs ==> DepsResolved(s.runs[r])
    ensures DepsResolved(s'.runs[r])
  {
    hide HandoffsEvolve;
    hide CasesEvolve;
    hide ReplansEvolve;
    assert NoDeps(if r in s.runs then s.runs[r].tasks else map[], s'.runs[r].tasks);
    if r in s.runs { assert RunEvolves(s.runs[r], s'.runs[r]); }
    forall t | t in s'.runs[r].tasks ensures DepsLoad(s'.runs[r].tasks, s'.runs[r].tasks[t]) {
      if r in s.runs && t in s.runs[r].tasks { assert DepsLoad(s.runs[r].tasks, s.runs[r].tasks[t]); }
    }
  }

  lemma AgreeKept(s: State, s': State, r: RunId)
    requires r in s.runs && r in s'.runs
    requires s'.runs[r].replans == s.runs[r].replans
    requires forall k :: k in s.runs[r].replans ==>
               k in s.runs[r].cases && k in s'.runs[r].cases && s'.runs[r].cases[k] == s.runs[r].cases[k]
    ensures ReplansAgree(s.runs[r]) <==> ReplansAgree(s'.runs[r])
  {
    forall k | k in s.runs[r].replans ensures ReplanAgrees(s.runs[r], k) <==> ReplanAgrees(s'.runs[r], k) {
    }
  }

  lemma ReplansHaveCases(s: State, r: RunId)
    requires Inv(s) && r in s.runs
    ensures forall k :: k in s.runs[r].replans ==> k in s.runs[r].cases
  {
    hide Inv;
    hide ReplanValid;
    forall k | k in s.runs[r].replans ensures k in s.runs[r].cases { ReplanFacts(s, r, k); }
  }

  /** Where no case changes and no replan is made, agreement is kept. */
  lemma QuietAgrees(s: State, s': State)
    requires Inv(s) && CasesSame(s, s') && ReplansSame(s, s')
    requires forall r :: r in s.runs ==> ReplansAgree(s.runs[r])
    ensures forall r :: r in s'.runs ==> ReplansAgree(s'.runs[r])
  {
    hide Inv;
    hide ReplansAgree;
    forall r | r in s'.runs ensures ReplansAgree(s'.runs[r]) {
      if r in s.runs {
        ReplansHaveCases(s, r);
        AgreeKept(s, s', r);
      } else {
        NoReplansAgree(s'.runs[r]);
      }
    }
  }

  lemma NoReplansAgree(rd: RunDir)
    requires rd.replans == map[]
    ensures ReplansAgree(rd)
  {
  }

  lemma QuietKeepsSound(s: State, s': State)
    requires Inv(s) && Sound(s) && Evolves(s, s') && NoNewDeps(s, s') && CasesSame(s, s') && ReplansSame(s, s')
    ensures Sound(s')
  {
    hide Inv;
    hide DepsResolved;
    hide ReplansAgree;
    hide NoNewDeps;
    hide RunsEvolve;
    hide Grows;
    QuietAgrees(s, s');
    forall r | r in s'.runs ensures DepsResolved(s'.runs[r]) { DepsKept(s, s', r); }
  }

  lemma AddIsExact(s: State, s': State, r: RunId, t: ChildTask)
    requires Inv(s) && Sound(s) && Added(s, s', r, t) && Evolves(s, s') && CasesSame(s, s') && ReplansSame(s, s')
    ensures Sound(s') <==> forall d :: d in t.dependsOn ==> d in s.runs[r].tasks || d == s.seqno + 1
  {
    hide Inv;
    hide TaskValid;
    hide Canonical;
    hide ReplansAgree;
    hide Evolves;
    hide CasesSame;
    hide ReplansSame;
    QuietAgrees(s, s');
    var rd, rd' := s.runs[r], s'.runs[r];
    NumbersFresh(s, r, KeyOfTask(t));
    forall x | x in rd.tasks ensures DepsLoad(rd'.tasks, rd'.tasks[x]) {
      assert DepsLoad(rd.tasks, rd.tasks[x]);
    }
    assert rd'.tasks == rd.tasks[t.id := t] && rd'.tasks[t.id] == t;
    if DepsLoad(rd'.tasks, t) {
      assert DepsResolved(rd') by {
        forall x | x in rd'.tasks ensures DepsLoad(rd'.tasks, rd'.tasks[x]) {
          if x != t.id { assert x in rd.tasks; }
        }
      }
    }
    forall x | x in s'.runs && x != r ensures DepsResolved(s'.runs[x]) {
    }
  }

  lemma BlockIsExact(s: State, s': State, cfg: Config, m: MessageId, r: RunId, t: TaskId, k: TaskId)
    requires Inv(s) && Sound(s) && Evolves(s, s') && Calm(s, s') && CaseStep(cfg, s, s', r, k, 0) && Reopened(s', r, k)
    requires Carries(s, m, r, t) && Holds(s.runs[r], k, t)
    ensures Sound(s') <==> forall j :: j in s.runs[r].replans && j in s.runs[r].cases ==> s.runs[r].cases[j].currentTask != t
  {
    hide Inv;
    hide DepsResolved;
    hide NoNewDeps;
    hide RunsEvolve;
    hide Grows;
    hide CaseChange;
    forall x | x in s'.runs ensures DepsResolved(s'.runs[x]) { DepsKept(s, s', x); }
    ReplansHaveCases(s, r);
    ApartFacts(s, r);
    forall x | x in s.runs && x != r ensures ReplansAgree(s'.runs[x]) {
      ReplansHaveCases(s, x);
      AgreeKept(s, s', x);
    }
    if k in s.runs[r].replans {
      assert !ReplanAgrees(s'.runs[r], k);
    } else {
      AgreeKept(s, s', r);
      HeldByOne(s, r, k, t);
    }
  }

  lemma HeldByOne(s: State, r: RunId, k: TaskId, t: TaskId)
    requires r in s.runs && CasesApart(s.runs[r].cases) && Holds(s.runs[r], k, t)
    ensures forall j :: j in s.runs[r].cases && j != k ==> s.runs[r].cases[j].currentTask != t
  {
    forall j | j in s.runs[r].cases && j != k ensures s.runs[r].cases[j].currentTask != t {
      assert k !in s.runs[r].cases ==> j !in CasesFor(s.runs[r], t);
    }
  }

  /** A replanned case that agrees with its replan is resolved, so no operator can resolve it again. */
  lemma AgreeingIsNotEscalated(s: State, r: RunId, k: TaskId)
    requires Inv(s) && r in s.runs && k in s.runs[r].cases && s.runs[r].cases[k].status == Escalated
    ensures !ReplanAgrees(s.runs[r], k)
  {
    hide Inv;
    hide CaseReadable;
    hide ResolutionOk;
    CaseFacts(s, r, k);
  }

  lemma ResolveKeepsSound(s: State, s': State, cfg: Config, o: ResolveOpts, manual: nat)
    requires Inv(s) && Sound(s) && Evolves(s, s') && NoNewDeps(s, s') && Escalation(s, o)
    requires CaseStep(cfg, s, s', o.run, o.sourceTask, manual)
    requires ReplansSame(s, s') || ReplanMade(s, s', o.run, o.sourceTask)
    ensures Sound(s')
  {
    hide Inv;
    hide DepsResolved;
    hide NoNewDeps;
    hide RunsEvolve;
    hide Grows;
    hide CaseChange;
    var r, k := o.run, o.sourceTask;
    forall x | x in s'.runs ensures DepsResolved(s'.runs[x]) { DepsKept(s, s', x); }
    AgreeingIsNotEscalated(s, r, k);
    forall x | x in s.runs ensures ReplansAgree(s'.runs[x]) {
      ReplansHaveCases(s, x);
      forall j | j in s'.runs[x].replans ensures ReplanAgrees(s'.runs[x], j) {
        if j in s.runs[x].replans { assert ReplanAgrees(s.runs[x], j); }
      }
    }
  }

  // ----------------------------------------------------- the main theorem

  /** One command from a state in which every run loads: every run still loads afterwards exactly
      when the command failed or kept the two rules. */
  lemma StepLoadsExactly(s: State, cfg: Config, step: Step)
    requires Inv(s) && AllLoad(s)
    ensures var result := Execute(s, cfg, step);
            && Inv(result.st)
            && (AllLoad(result.st) <==> (result.ok ==> Safe(s, step.command)))
  {
    hide Inv;
    hide AllLoad;
    hide Sound;
    hide Evolves;
    hide CasesSame;
    hide CaseStep;
    hide Calm;
    hide NoNewDeps;
    hide ReplansSame;
    hide StartRun;
    hide AddChildTask;
    hide RouteChildTask;
    hide ReadMsg;
    hide TaskAccept;
    hide RecordBlocker;
    hide TaskDone;
    hide ReviewRespond;
    hide BlockerResolve;
    hide Requeue;
    hide Send;
    hide BlockEffect;
    hide Resolves;
    hide Added;
    StepKeeps(s, cfg, step);
    var s' := Execute(s, cfg, step).st;
    SoundLoads(s);
    SoundLoads(s');
    match step.command
    case CmdAdd(r, req) => AddCommand(s, cfg, r, req, step.now);
    case CmdBlock(agent, m, d, reason) => BlockCommand(s, cfg, step.env, agent, m, d, reason, step.now);
    case CmdResolve(o) => ResolveCommand(s, cfg, step.env, o, step.now);
    case _ =>
      assert CasesSame(s, s') && Calm(s, s');
      CalmParts(s, s');
      QuietKeepsSound(s, s');
  }

  lemma CalmParts(s: State, s': State)
    requires Calm(s, s')
    ensures NoNewDeps(s, s') && ReplansSame(s, s')
  {
  }

  lemma AddCommand(s: State, cfg: Config, r: RunId, req: ChildRequest, now: Time)
    requires Inv(s) && Sound(s)
    ensures var o := AddChildTask(s, cfg, r, req, now);
            Sound(o.st) <==> (o.Ok? ==> Safe(s, CmdAdd(r, req)))
  {
    hide Inv;
    hide Sound;
    hide Evolves;
    hide CasesSame;
    hide Calm;
    hide NoNewDeps;
    hide ReplansSame;
    hide AddChildTask;
    hide Added;
    AddChildEvolves(s, cfg, r, req, now);
    var o := AddChildTask(s, cfg, r, req, now);
    if o.Ok? {
      AddedInRun(s, o.st, r, o.value);
      AddIsExact(s, o.st, r, o.value);
    } else {
      CalmParts(s, o.st);
      QuietKeepsSound(s, o.st);
    }
  }

  lemma AddedInRun(s: State, s': State, r: RunId, t: ChildTask)
    requires Added(s, s', r, t)
    ensures r in s.runs
  {
    hide TaskValid;
    hide Canonical;
  }

  lemma BlockCommand(s: State, cfg: Config, env: Environment, agent: string, m: MessageId,
                     d: Declared, reason: string, now: Time)
    requires Inv(s) && Sound(s)
    ensures var o := RecordBlocker(s, cfg, env, agent, m, d, reason, now);
            Sound(o.st) <==> (o.Ok? ==> Safe(s, CmdBlock(agent, m, d, reason)))
  {
    hide Inv;
    hide Sound;
    hide Evolves;
    hide CasesSame;
    hide CaseStep;
    hide Calm;
    hide NoNewDeps;
    hide ReplansSame;
    hide Reopened;
    hide Holds;
    hide RecordBlocker;
    RecordBlockerKeepsInv(s, cfg, env, agent, m, d, reason, now);
    var o := RecordBlocker(s, cfg, env, agent, m, d, reason, now);
    if o.Err? || (m in s.messages && s.messages[m].meta.None?) {
      CalmParts(s, o.st);
      QuietKeepsSound(s, o.st);
    } else {
      var r, t, k :| Carries(s, m, r, t) && Holds(s.runs[r], k, t)
                     && CaseStep(cfg, s, o.st, r, k, 0) && Reopened(o.st, r, k);
      BlockIsExact(s, o.st, cfg, m, r, t, k);
    }
  }

  lemma ResolveCommand(s: State, cfg: Config, env: Environment, o: ResolveOpts, now: Time)
    requires Inv(s) && Sound(s)
    ensures Sound(BlockerResolve(s, cfg, env, o, now).st)
  {
    hide Inv;
    hide Sound;
    hide Evolves;
    hide CasesSame;
    hide CaseStep;
    hide NoNewDeps;
    hide ReplansSame;
    hide ReplanMade;
    hide BlockerResolve;
    ResolveKeepsInv(s, cfg, env, o, now);
    var result := BlockerResolve(s, cfg, env, o, now);
    if result.Err? {
      QuietKeepsSound(s, result.st);
    } else {
      ResolveKeepsSound(s, result.st, cfg, o, if o.action == ManualReroute then 1 else 0);
    }
  }

  /** The rule about dependencies is needed: the command does not look for the tasks an added task depends
      on, and from the one that is missing on the run no longer loads. */
  lemma AddMissingDependencyBreaks(s: State, cfg: Config, env: Environment, r: RunId, req: ChildRequest, now: Time, d: TaskId)
    requires Inv(s) && AllLoad(s) && d in req.dependsOn && d != s.seqno + 1
    requires r in s.runs ==> d !in s.runs[r].tasks
    ensures var result := Execute(s, cfg, Step(CmdAdd(r, req), env, now));
            result.ok ==> !AllLoad(result.st)
  {
    hide Inv;
    hide AllLoad;
    hide AddChildTask;
    var step := Step(CmdAdd(r, req), env, now);
    assert !Safe(s, step.command);
    StepLoadsExactly(s, cfg, step);
  }

  /** The rule about replanned cases is needed: the owner of a replacement task may wait on it, and
      from then on the run no longer loads. */
  lemma WaitOnReplacementBreaks(s: State, cfg: Config, env: Environment, agent: string, m: MessageId, kind: WaitKind,
                                reason: string, now: Time, r: RunId, t: TaskId, k: TaskId)
    requires Inv(s) && AllLoad(s) && Carries(s, m, r, t)
    requires k in s.runs[r].replans && k in s.runs[r].cases && s.runs[r].cases[k].currentTask == t
    requires var owner := s.runs[r].tasks[t].owner; Resolve(cfg, agent) == Some(owner) && Resolve(cfg, owner) == Some(owner)
    requires var key := KeyOfTask(s.runs[r].tasks[t]);
             && key in s.receipts && s.receipts[key].folder == Active
             && (s.receipts[key].claimedBy.Some? ==> s.receipts[key].claimedBy.value == key.agent)
    requires !Blank(reason)
    ensures var result := Execute(s, cfg, Step(CmdBlock(agent, m, Wait(kind), reason), env, now));
            result.ok && !AllLoad(result.st)
  {
    hide Inv;
    hide AllLoad;
    hide Resolve;
    hide LoadActiveTask;
    hide RecordBlocker;
    hide ActOnBlocker;
    hide Holds;
    hide RerouteTask;
    assert Blank("");
    OwnerLoadsActive(s, cfg, agent, m, now, r, t);
    var j := BlockActs(s, cfg, env, agent, m, Wait(kind), reason, now, r, t);
    HoldsTasks(s.runs[r], j, t);
    ActSucceedsExactly(s, cfg, env, r, j, t, Wait(kind), reason, now);
    var step := Step(CmdBlock(agent, m, Wait(kind), reason), env, now);
    assert !Safe(s, step.command);
    StepLoadsExactly(s, cfg, step);
  }
}
