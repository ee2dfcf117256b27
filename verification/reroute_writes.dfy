/** The writes a blocker command makes: on the same current task, or on to a freshly routed one. */
module RerouteWrites {
  import opened Wrappers
  import opened Protocol
  import opened Coordinator
  import opened Invariant
  import opened TaskSteps
  import opened RerouteSteps
  import opened CaseWrites
  import opened Evolution

  /** The document agrees with the run's tasks about its source and its current task. */
  ghost predicate Describes(b: BlockerCase, r: RunId, k: TaskId, t: TaskId, rd: RunDir) {
    && b.run == r && b.sourceTask == k && b.currentTask == t
    && k in rd.tasks && rd.tasks[k].message == b.sourceMessage && rd.tasks[k].owner == b.sourceOwner
    && t in rd.tasks && rd.tasks[t].message == b.currentMessage && rd.tasks[t].owner == b.currentOwner
  }

  /** Task u is the current task of the case of k, or it is k itself and has no case yet. */
  ghost predicate Holds(rd: RunDir, k: TaskId, u: TaskId) {
    && k in rd.tasks && u in rd.tasks
    && if k in rd.cases then rd.cases[k].currentTask == u
       else k == u && CasesFor(rd, u) == {} && NotReplacement(rd, k)
  }

  lemma HoldsApart(s: State, r: RunId, k: TaskId, u: TaskId, b: BlockerCase)
    requires Inv(s) && r in s.runs && Holds(s.runs[r], k, u) && b.sourceTask == k && b.currentTask == u
    ensures Apart(s.runs[r].cases, b)
  {
    hide Inv;
    ApartFacts(s, r);
    var cases := s.runs[r].cases;
    if k !in cases {
      assert forall j :: j in cases ==> j !in CasesFor(s.runs[r], u);
      forall j | j in cases && j != k ensures cases[j].currentTask != u {
        assert j !in CasesFor(s.runs[r], u);
      }
    }
  }

  lemma SameCurrentWritable(s: State, r: RunId, k: TaskId, t: TaskId, b: BlockerCase)
    requires Inv(s) && r in s.runs && Holds(s.runs[r], k, t)
    requires Describes(b, r, k, t, s.runs[r]) && CaseValid(b)
    requires b.resolution.Some? ==> b.status == Resolved && ResolutionOk(b.resolution.value, s.runs[r].tasks, s.messages)
    ensures var rd := s.runs[r];
            Writable(r, rd, rd.(cases := rd.cases[k := b]), b, s.messages, s.receipts)
  {
    hide Inv;
    hide CaseValid;
    hide ReplanValid;
    hide ResolutionOk;
    HoldsApart(s, r, k, t, b);
    ApartFacts(s, r);
    if k in s.runs[r].cases {
      CaseFacts(s, r, k);
    }
    if k in s.runs[r].replans {
      ReplanFacts(s, r, k);
    }
  }

  /** After routing in place of the current task, what held it is finished and the new task is nobody's. */
  lemma RoutedOnFacts(s: State, s': State, r: RunId, k: TaskId, u: TaskId, t: ChildTask)
    requires Inv(s) && r in s.runs && Holds(s.runs[r], k, u)
    requires Added(SuspendedState(s, KeyOfTask(s.runs[r].tasks[u])), s', r, t)
    ensures Inv(s') && Grows(s.messages, s.receipts, s'.messages, s'.receipts)
    ensures r in s'.runs && t.id !in s.runs[r].tasks
    ensures s'.runs[r] == s.runs[r].(tasks := s.runs[r].tasks[t.id := t])
    ensures ReceiptFinished(s'.receipts, s.runs[r].tasks[u]) && ReceiptFinished(s'.receipts, s.runs[r].tasks[k])
    ensures forall j :: j in s.runs[r].cases ==> j in s.runs[r].tasks && s.runs[r].cases[j].currentTask in s.runs[r].tasks
  {
    hide Inv;
    hide TaskValid;
    hide Canonical;
    hide CaseReadable;
    hide ResolutionOk;
    TaskFacts(s, r, u);
    RoutedGrows(s, s', KeyOfTask(s.runs[r].tasks[u]), r, t);
    NumbersFresh(s, r, KeyOfTask(t));
    if k in s.runs[r].cases {
      CaseFacts(s, r, k);
    }
    forall j | j in s.runs[r].cases
      ensures j in s.runs[r].tasks && s.runs[r].cases[j].currentTask in s.runs[r].tasks
    {
      CaseFacts(s, r, j);
    }
  }

  lemma RoutedOnWritable(s: State, s': State, r: RunId, k: TaskId, u: TaskId, t: ChildTask, b: BlockerCase)
    requires Inv(s) && r in s.runs && Holds(s.runs[r], k, u)
    requires Added(SuspendedState(s, KeyOfTask(s.runs[r].tasks[u])), s', r, t)
    requires t.Class() == s.runs[r].tasks[k].Class()
    requires Describes(b, r, k, t.id, s'.runs[r]) && CaseValid(b)
    requires b.resolution.Some? ==> b.status == Resolved && ResolutionOk(b.resolution.value, s'.runs[r].tasks, s'.messages)
    ensures Inv(s')
    ensures var rd := s'.runs[r];
            Writable(r, rd, rd.(cases := rd.cases[k := b]), b, s'.messages, s'.receipts)
  {
    hide Inv;
    hide Added;
    hide Grows;
    hide CaseValid;
    hide ReplanValid;
    hide ResolutionOk;
    hide ReceiptFinished;
    RoutedOnFacts(s, s', r, k, u, t);
    HoldsApart(s, r, k, u, b.(currentTask := u));
    ApartFacts(s', r);
    if k in s'.runs[r].replans {
      ReplanFacts(s', r, k);
    }
  }

  /** The same with a replan recorded for the source. */
  lemma ReplannedWritable(s: State, s': State, r: RunId, k: TaskId, u: TaskId, t: ChildTask, b: BlockerCase, p: PartialReplan)
    requires Inv(s) && r in s.runs && Holds(s.runs[r], k, u) && k in s.runs[r].cases && k !in s.runs[r].replans
    requires Added(SuspendedState(s, KeyOfTask(s.runs[r].tasks[u])), s', r, t)
    requires t.Class() != Some(Review)
    requires Describes(b, r, k, t.id, s'.runs[r]) && CaseValid(b)
    requires b.resolution.Some? ==> b.status == Resolved && ResolutionOk(b.resolution.value, s'.runs[r].tasks, s'.messages)
    requires ReplanValid(p) && p.run == r && p.sourceTask == k && p.sourceMessage == s.runs[r].tasks[k].message
    requires p.supersededTask == u && p.supersededMessage == s.runs[r].tasks[u].message
    requires p.replacementTask == t.id && p.replacementMessage == t.message
    ensures Inv(s')
    ensures var rd := s'.runs[r];
            Writable(r, rd, rd.(cases := rd.cases[k := b], replans := rd.replans[k := p]), b, s'.messages, s'.receipts)
  {
    hide Inv;
    hide Added;
    hide Grows;
    hide CaseValid;
    hide ReplanValid;
    hide ResolutionOk;
    hide ReceiptFinished;
    RoutedOnFacts(s, s', r, k, u, t);
    ApartFacts(s, r);
    ApartFacts(s', r);
    forall j | j in s.runs[r].replans ensures s.runs[r].replans[j].replacementTask in s.runs[r].tasks {
      ReplanFacts(s, r, j);
    }
  }
}
