/** Blocker cases and review handoffs over whole histories, and what a rejected reroute leaves. */
module BlockerHistories {
  import opened Wrappers
  import opened Text
  import opened Protocol
  import opened Routing
  import opened Coordinator
  import opened Invariant
  import opened ReceiptSteps
  import opened TaskSteps
  import opened RerouteSteps
  import opened CaseWrites
  import opened RerouteWrites
  import opened BlockerSteps
  import opened ResolveSteps
  import opened HandoffSteps
  import opened Evolution
  import opened Commands
  import opened Histories
  import Domains

  // ------------------------------------------------ counts and attempts

  /** Every case keeps its reroute count between zero and the ceiling of its source's class. */
  ghost predicate CountsOk(cfg: Config, s: State) {
    forall r, k :: r in s.runs && k in s.runs[r].cases ==>
      && k in s.runs[r].tasks
      && 0 <= s.runs[r].cases[k].rerouteCount <= Ceiling(cfg, s.runs[r].tasks[k])
  }

  /** Attempts beyond the counted reroutes. */
  ghost function Uncounted(s: State, r: RunId, k: TaskId): int {
    if r in s.runs && k in s.runs[r].cases then |s.runs[r].cases[k].attempts| - s.runs[r].cases[k].rerouteCount else 0
  }

  lemma SameCasesCounts(cfg: Config, s: State, s': State, r: RunId, k: TaskId)
    requires CountsOk(cfg, s) && Evolves(s, s') && CasesSame(s, s')
    ensures CountsOk(cfg, s') && Uncounted(s', r, k) == Uncounted(s, r, k)
  {
    hide Ceiling;
    hide Grows;
    forall x, y | x in s'.runs && y in s'.runs[x].cases
      ensures y in s'.runs[x].tasks && 0 <= s'.runs[x].cases[y].rerouteCount <= Ceiling(cfg, s'.runs[x].tasks[y])
    {
      assert x in s.runs && RunEvolves(s.runs[x], s'.runs[x]);
      assert y in s.runs[x].cases;
    }
  }

  lemma TasksStay(s: State, s': State, r: RunId)
    requires Evolves(s, s') && r in s.runs
    ensures r in s'.runs && forall t :: t in s.runs[r].tasks ==> t in s'.runs[r].tasks && s'.runs[r].tasks[t] == s.runs[r].tasks[t]
  {
    hide Grows;
    hide HandoffsEvolve;
    hide CasesEvolve;
    hide ReplansEvolve;
    assert RunEvolves(s.runs[r], s'.runs[r]);
  }

  lemma CaseStepCounts(cfg: Config, s: State, s': State, r: RunId, k: TaskId, manual: nat, x: RunId, y: TaskId)
    requires CountsOk(cfg, s) && Evolves(s, s') && CaseStep(cfg, s, s', r, k, manual)
    ensures CountsOk(cfg, s')
    ensures Uncounted(s', x, y) == Uncounted(s, x, y) + if x == r && y == k then manual else 0
  {
    hide Ceiling;
    hide Evolves;
    forall i, j | i in s'.runs && j in s'.runs[i].cases
      ensures j in s'.runs[i].tasks && 0 <= s'.runs[i].cases[j].rerouteCount <= Ceiling(cfg, s'.runs[i].tasks[j])
    {
      TasksStay(s, s', i);
    }
  }

  /** A successful manual reroute of the case of k in run r. */
  ghost predicate IsManualReroute(cfg: Config, steps: seq<Step>, i: nat, r: RunId, k: TaskId)
    requires i < |steps|
  {
    && Succeeded(cfg, steps, i)
    && steps[i].command.CmdResolve? && steps[i].command.opts.action == ManualReroute
    && steps[i].command.opts.run == r && steps[i].command.opts.sourceTask == k
  }

  ghost function ManualReroutes(cfg: Config, steps: seq<Step>, r: RunId, k: TaskId): nat {
    if steps == [] then 0
    else
      ManualReroutes(cfg, steps[..|steps| - 1], r, k)
      + if IsManualReroute(cfg, steps, |steps| - 1, r, k) then 1 else 0
  }

  lemma EmptyCounts(cfg: Config)
    ensures CountsOk(cfg, EMPTY_STATE)
  {
  }

  lemma StepCounts(s: State, cfg: Config, step: Step, r: RunId, k: TaskId)
    requires Inv(s) && CountsOk(cfg, s)
    ensures var result := Execute(s, cfg, step);
            && CountsOk(cfg, result.st)
            && Uncounted(result.st, r, k) == Uncounted(s, r, k)
               + (if result.ok && step.command.CmdResolve? && step.command.opts.action == ManualReroute
                     && step.command.opts.run == r && step.command.opts.sourceTask == k then 1 else 0)
  {
    hide Inv;
    hide Execute;
    hide CountsOk;
    hide Uncounted;
    hide Evolves;
    hide CasesSame;
    hide CaseStep;
    hide Calm;
    hide NoNewDeps;
    hide ReplansSame;
    StepKeeps(s, cfg, step);
    var result := Execute(s, cfg, step);
    if CasesSame(s, result.st) && !(step.command.CmdResolve? && result.ok) {
      SameCasesCounts(cfg, s, result.st, r, k);
    } else if step.command.CmdResolve? {
      var o := step.command.opts;
      CaseStepCounts(cfg, s, result.st, o.run, o.sourceTask, if o.action == ManualReroute then 1 else 0, r, k);
    } else {
      var x, y :| CaseStep(cfg, s, result.st, x, y, 0);
      CaseStepCounts(cfg, s, result.st, x, y, 0, r, k);
    }
  }

  /** Over every history: the count of each case stays within the ceiling, and its attempts are the
      counted reroutes and the manual ones. */
  lemma {:induction false} AttemptsAccounted(cfg: Config, steps: seq<Step>, r: RunId, k: TaskId)
    ensures CountsOk(cfg, After(cfg, steps))
    ensures Uncounted(After(cfg, steps), r, k) == ManualReroutes(cfg, steps, r, k)
  {
    hide Inv;
    hide Execute;
    hide CountsOk;
    hide Uncounted;
    if steps == [] {
      EmptyCounts(cfg);
      NothingUncounted(r, k);
    } else {
      var before := steps[..|steps| - 1];
      AttemptsAccounted(cfg, before, r, k);
      ReachableIsGood(cfg, before);
      StepCounts(After(cfg, before), cfg, steps[|steps| - 1], r, k);
    }
  }

  lemma NothingUncounted(r: RunId, k: TaskId)
    ensures Uncounted(EMPTY_STATE, r, k) == 0
  {
  }

  // -------------------------------------------- a case and its source

  /** Once a case has moved on from its source, the source's receipt is done or dead for good. */
  lemma SupersededForGood(cfg: Config, steps: seq<Step>, i: nat, r: RunId, k: TaskId)
    requires i <= |steps|
    requires var s := After(cfg, steps[..i]);
             r in s.runs && k in s.runs[r].cases && s.runs[r].cases[k].currentTask != k
    ensures var s, s' := After(cfg, steps[..i]), After(cfg, steps);
            && r in s'.runs && k in s'.runs[r].tasks
            && k in s.runs[r].tasks && s'.runs[r].tasks[k] == s.runs[r].tasks[k]
            && ReceiptFinished(s'.receipts, s'.runs[r].tasks[k])
  {
    hide Inv;
    hide After;
    hide CaseReadable;
    hide ResolutionOk;
    ReachableIsGood(cfg, steps[..i]);
    HistoryEvolves(cfg, steps, i);
    var s, s' := After(cfg, steps[..i]), After(cfg, steps);
    CaseFacts(s, r, k);
    assert RunEvolves(s.runs[r], s'.runs[r]);
  }

  /** In every reachable state no two cases share a current task, so the lookup by current task finds
      the one case there is, and a live task that no case holds has no case file of its own. */
  lemma CurrentTasksUnambiguous(cfg: Config, steps: seq<Step>, r: RunId, t: TaskId)
    requires r in After(cfg, steps).runs
    ensures var s := After(cfg, steps);
            var rd := s.runs[r];
            && |CasesFor(rd, t)| <= 1
            && FindCase(r, rd, t).Success?
            && (FindCase(r, rd, t).value.Some? <==> CasesFor(rd, t) != {})
            && (CasesFor(rd, t) == {} && t in rd.tasks && !ReceiptFinished(s.receipts, rd.tasks[t]) ==> t !in rd.cases)
  {
    hide Inv;
    hide After;
    hide CaseReadable;
    hide FindCase;
    hide NotReplacement;
    var s := After(cfg, steps);
    ReachableIsGood(cfg, steps);
    FindCaseFinds(s, r, t);
    if CasesFor(s.runs[r], t) == {} && t in s.runs[r].tasks && !ReceiptFinished(s.receipts, s.runs[r].tasks[t]) {
      NewCaseNeverCollides(s, r, t);
    }
  }

  // ------------------------------------------------------- the handoffs

  /** A handoff that was answered once is never changed again, and one that failed stays failed. */
  lemma AnsweredForGood(cfg: Config, steps: seq<Step>, i: nat, r: RunId, k: TaskId)
    requires i <= |steps|
    requires r in After(cfg, steps[..i]).runs && k in After(cfg, steps[..i]).runs[r].handoffs
    ensures r in After(cfg, steps).runs && k in After(cfg, steps).runs[r].handoffs
    ensures var h, h' := After(cfg, steps[..i]).runs[r].handoffs[k], After(cfg, steps).runs[r].handoffs[k];
            && (h.status != Pending ==> h' == h)
            && (h.status == Pending ==> h' == h || h'.status == Responded)
            && h'.reviewTask == h.reviewTask
  {
    hide Execute;
    hide After;
    hide Grows;
    HistoryEvolves(cfg, steps, i);
    assert RunEvolves(After(cfg, steps[..i]).runs[r], After(cfg, steps).runs[r]);
  }

  /** Only implementation tasks are handed to review, so review tasks never spawn handoffs, and no
      review task answers two of them. */
  lemma HandoffsAreForImplementations(cfg: Config, steps: seq<Step>, r: RunId, k: TaskId)
    requires r in After(cfg, steps).runs && k in After(cfg, steps).runs[r].handoffs
    ensures var rd := After(cfg, steps).runs[r];
            && k in rd.tasks && rd.tasks[k].Class() == Some(Implementation)
            && (rd.handoffs[k].reviewTask.Some? ==>
                  && rd.handoffs[k].reviewTask.value !in rd.handoffs
                  && forall j :: j in rd.handoffs && j != k ==> rd.handoffs[j].reviewTask != rd.handoffs[k].reviewTask)
  {
    hide Inv;
    hide After;
    hide HandoffValid;
    var s := After(cfg, steps);
    ReachableIsGood(cfg, steps);
    StoredHandoffValid(s, r, k);
    ApartHandoffs(s, r);
    if s.runs[r].handoffs[k].reviewTask.Some? && s.runs[r].handoffs[k].reviewTask.value in s.runs[r].handoffs {
      StoredHandoffValid(s, r, s.runs[r].handoffs[k].reviewTask.value);
    }
  }
}
