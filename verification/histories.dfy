/** Whole runs of commands from an empty session: what holds in every state they reach. */
module Histories {
  import opened Wrappers
  import opened Text
  import Domains
  import Ids
  import opened Protocol
  import opened Coordinator
  import opened Invariant
  import opened Evolution
  import opened Commands
  import opened CaseWrites
  import opened HandoffSteps
  import opened RunGraph
  import opened Integrity
  import opened FanoutPolicy

  /** The state a list of commands leaves, whatever each of them returned. */
  ghost function After(cfg: Config, steps: seq<Step>): State {
    if steps == [] then EMPTY_STATE
    else Execute(After(cfg, steps[..|steps| - 1]), cfg, steps[|steps| - 1]).st
  }

  /** Whether the command at position i succeeded. */
  ghost predicate Succeeded(cfg: Config, steps: seq<Step>, i: nat)
    requires i < |steps|
  {
    Execute(After(cfg, steps[..i]), cfg, steps[i]).ok
  }

  lemma EmptyInv()
    ensures Inv(EMPTY_STATE) && AllLoad(EMPTY_STATE)
  {
  }

  lemma AfterStep(cfg: Config, steps: seq<Step>, i: nat)
    requires i < |steps|
    ensures After(cfg, steps[..i + 1]) == Execute(After(cfg, steps[..i]), cfg, steps[i]).st
  {
    assert steps[..i + 1][..i] == steps[..i];
  }

  /** Every state any list of commands reaches is good, with no assumption on their arguments. */
  lemma {:induction false} ReachableIsGood(cfg: Config, steps: seq<Step>)
    ensures Inv(After(cfg, steps)) && Policy(cfg, After(cfg, steps))
  {
    hide Inv;
    hide Policy;
    hide Execute;
    if steps == [] {
      EmptyInv();
      EmptyPolicy(cfg);
    } else {
      var before := steps[..|steps| - 1];
      ReachableIsGood(cfg, before);
      StepKeeps(After(cfg, before), cfg, steps[|steps| - 1]);
      StepKeepsPolicy(After(cfg, before), cfg, steps[|steps| - 1]);
    }
  }

  lemma EmptyPolicy(cfg: Config)
    ensures Policy(cfg, EMPTY_STATE)
  {
  }

  /** Later states only add to earlier ones. */
  lemma {:induction false} HistoryEvolves(cfg: Config, steps: seq<Step>, i: nat)
    requires i <= |steps|
    ensures Evolves(After(cfg, steps[..i]), After(cfg, steps))
    decreases |steps| - i
  {
    hide Inv;
    hide Execute;
    hide Evolves;
    hide Policy;
    hide Effect;
    if i == |steps| {
      assert steps[..i] == steps;
      BumpEvolves(After(cfg, steps), After(cfg, steps).seqno);
    } else {
      ReachableIsGood(cfg, steps[..i]);
      StepKeeps(After(cfg, steps[..i]), cfg, steps[i]);
      AfterStep(cfg, steps, i);
      HistoryEvolves(cfg, steps, i + 1);
      EvolvesTrans(After(cfg, steps[..i]), After(cfg, steps[..i + 1]), After(cfg, steps));
    }
  }

  // ------------------------------------------------------- the run graph

  /** The command at position i kept the two rules, or failed. */
  ghost predicate KeptRules(cfg: Config, steps: seq<Step>, i: nat)
    requires i < |steps|
  {
    Succeeded(cfg, steps, i) ==> Safe(After(cfg, steps[..i]), steps[i].command)
  }

  /** All runs load all the way through a history exactly when each command in it failed or kept the rules. */
  lemma {:induction false} HistoryLoadsExactly(cfg: Config, steps: seq<Step>)
    ensures (forall i :: 0 <= i <= |steps| ==> AllLoad(After(cfg, steps[..i])))
            <==> (forall i :: 0 <= i < |steps| ==> KeptRules(cfg, steps, i))
  {
    hide Inv;
    hide AllLoad;
    hide Execute;
    hide Safe;
    hide Policy;
    if steps == [] {
      EmptyInv();
      assert steps[..0] == [];
    } else {
      var n := |steps| - 1;
      var before := steps[..n];
      HistoryLoadsExactly(cfg, before);
      ReachableIsGood(cfg, before);
      forall i | 0 <= i <= n ensures before[..i] == steps[..i] {}
      forall i | 0 <= i < n ensures KeptRules(cfg, before, i) <==> KeptRules(cfg, steps, i) {
        assert before[..i] == steps[..i];
      }
      assert steps[..n + 1] == steps;
      assert AllLoad(After(cfg, before)) ==> (AllLoad(After(cfg, steps)) <==> KeptRules(cfg, steps, n)) by {
        if AllLoad(After(cfg, before)) { StepLoadsExactly(After(cfg, before), cfg, steps[n]); }
      }
      LastAndEarlier(cfg, steps);
    }
  }

  /** Splitting a statement about all prefixes into the last one and the earlier ones. */
  lemma LastAndEarlier(cfg: Config, steps: seq<Step>)
    requires steps != []
    ensures var before := steps[..|steps| - 1];
            (forall i :: 0 <= i <= |steps| ==> AllLoad(After(cfg, steps[..i])))
            <==> (forall i :: 0 <= i <= |before| ==> AllLoad(After(cfg, before[..i]))) && AllLoad(After(cfg, steps))
  {
    hide AllLoad;
    hide After;
    var before := steps[..|steps| - 1];
    assert steps[..|steps|] == steps;
    forall i | 0 <= i <= |before| ensures before[..i] == steps[..i] {}
    if forall i :: 0 <= i <= |steps| ==> AllLoad(After(cfg, steps[..i])) {
      forall i | 0 <= i <= |before| ensures AllLoad(After(cfg, before[..i])) {
        assert before[..i] == steps[..i];
      }
      assert AllLoad(After(cfg, steps[..|steps|]));
    }
    if (forall i :: 0 <= i <= |before| ==> AllLoad(After(cfg, before[..i]))) && AllLoad(After(cfg, steps)) {
      forall i | 0 <= i <= |steps| ensures AllLoad(After(cfg, steps[..i])) {
        if i <= |before| { assert before[..i] == steps[..i]; }
      }
    }
  }

  // ------------------------------------------------- duplicates, serially

  /** In every reachable state, of two tasks of one run with the same duplicate key and a class that
      does not allow fanout, one is done or dead. */
  lemma OneLiveTaskPerKey(cfg: Config, steps: seq<Step>, r: RunId, i: TaskId, j: TaskId)
    requires var s := After(cfg, steps);
             && r in s.runs && i in s.runs[r].tasks && j in s.runs[r].tasks && i != j
             && s.runs[r].tasks[i].Key().Some? && s.runs[r].tasks[i].Key() == s.runs[r].tasks[j].Key()
             && s.runs[r].tasks[i].Class().value !in cfg.fanout
    ensures var s := After(cfg, steps);
            ReceiptFinished(s.receipts, s.runs[r].tasks[i]) || ReceiptFinished(s.receipts, s.runs[r].tasks[j])
  {
    hide Inv;
    hide After;
    hide TaskValid;
    hide Canonical;
    hide ReceiptFinished;
    var s := After(cfg, steps);
    ReachableIsGood(cfg, steps);
    TaskFacts(s, r, i);
    TaskFacts(s, r, j);
    SameKeySameClass(s.runs[r].tasks[i], s.runs[r].tasks[j]);
    RunKeysApart(s, r);
    assert TaskPolicy(cfg, s.runs[r].tasks[i]) && TaskPolicy(cfg, s.runs[r].tasks[j]);
  }

  lemma RunKeysApart(s: State, r: RunId)
    requires Inv(s) && r in s.runs
    ensures KeysApart(s.runs[r].tasks, s.receipts)
  {
    assert RunOk(r, s.runs[r], s.messages, s.receipts);
  }

  /** The key of a stored task tells its class. */
  lemma SameKeySameClass(a: ChildTask, b: ChildTask)
    requires TaskValid(a) && TaskValid(b) && a.Key().Some? && a.Key() == b.Key()
    ensures a.Class() == b.Class() && a.parentRun == b.parentRun
  {
    hide Domains.Normalize;
    hide Blank;
    var da, db := a.route.value, b.route.value;
    Domains.NormalizeIsNormal(da.domains);
    Domains.NormalizeIsNormal(db.domains);
    RunIdHasNoBar(a.parentRun);
    RunIdHasNoBar(b.parentRun);
    Domains.DuplicateKeyInjective(Ids.NewId(Ids.RUN_PREFIX, a.parentRun), ClassName(da.taskClass),
                                  Domains.Normalize(da.domains).value,
                                  Ids.NewId(Ids.RUN_PREFIX, b.parentRun), ClassName(db.taskClass),
                                  Domains.Normalize(db.domains).value);
    Ids.NewIdInjective(Ids.RUN_PREFIX, a.parentRun, b.parentRun);
  }

  lemma RunIdHasNoBar(r: RunId)
    ensures '|' !in Ids.NewId(Ids.RUN_PREFIX, r)
  {
    Ids.ParsePadded(r, 12);
  }
}
