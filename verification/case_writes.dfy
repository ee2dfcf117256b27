/** When a blocker case may be written without disturbing its run. */
module CaseWrites {
  import opened Wrappers
  import opened Protocol
  import opened Coordinator
  import opened Invariant

  /** The case's current task belongs to no other case, and its source is nobody's current task. */
  ghost predicate Apart(cases: map<TaskId, BlockerCase>, b: BlockerCase) {
    forall j :: j in cases && j != b.sourceTask ==>
      && cases[j].currentTask != b.currentTask && cases[j].currentTask != b.sourceTask && b.currentTask != j
  }

  ghost predicate NotReplacement(rd: RunDir, t: TaskId) {
    forall j :: j in rd.replans ==> rd.replans[j].replacementTask != t
  }

  /** What a case must meet to be written, possibly with a replan of its source. */
  ghost predicate Writable(r: RunId, rd: RunDir, rd': RunDir, b: BlockerCase, ms: Messages, rs: Receipts) {
    var k := b.sourceTask;
    && rd' == rd.(cases := rd.cases[k := b], replans := rd'.replans)
    && (rd'.replans == rd.replans || (k !in rd.replans && k in rd'.replans && rd'.replans == rd.replans[k := rd'.replans[k]]))
    && CaseOk(r, k, b, rd.tasks, ms, rs)
    && Apart(rd.cases, b)
    && ClassKept(k, b, rd.tasks, rd'.replans)
    && (k in rd.cases || NotReplacement(rd, k))
    && (k in rd'.replans ==> ReplanOk(r, k, rd'.replans[k], rd.tasks, rd'.cases, rs))
    && ReplansApart(rd'.replans)
  }

  lemma WrittenCases(r: RunId, rd: RunDir, rd': RunDir, b: BlockerCase, ms: Messages, rs: Receipts)
    requires CasesOk(r, rd, ms, rs) && CasesApart(rd.cases) && ClassesKept(rd) && Writable(r, rd, rd', b, ms, rs)
    ensures CasesOk(r, rd', ms, rs) && CasesApart(rd'.cases) && ClassesKept(rd')
  {
    hide CaseReadable;
    hide ResolutionOk;
    hide ReplanOk;
    forall k | k in rd'.cases
      ensures CaseOk(r, k, rd'.cases[k], rd'.tasks, ms, rs) && ClassKept(k, rd'.cases[k], rd'.tasks, rd'.replans)
    {
      if k != b.sourceTask {
        assert CaseOk(r, k, rd.cases[k], rd.tasks, ms, rs) && ClassKept(k, rd.cases[k], rd.tasks, rd.replans);
      }
    }
  }

  lemma WrittenReplans(r: RunId, rd: RunDir, rd': RunDir, b: BlockerCase, ms: Messages, rs: Receipts)
    requires ReplansOk(r, rd, rs) && Writable(r, rd, rd', b, ms, rs)
    ensures ReplansOk(r, rd', rs)
  {
    hide CaseOk;
    hide ReplanValid;
    hide ClassKept;
    hide ReplansApart;
    forall k | k in rd'.replans ensures ReplanOk(r, k, rd'.replans[k], rd'.tasks, rd'.cases, rs) {
      if k != b.sourceTask {
        assert ReplanOk(r, k, rd.replans[k], rd.tasks, rd.cases, rs);
      }
    }
  }

  lemma WriteKeepsRun(r: RunId, rd: RunDir, rd': RunDir, b: BlockerCase, ms: Messages, rs: Receipts)
    requires RunOk(r, rd, ms, rs) && Writable(r, rd, rd', b, ms, rs)
    ensures RunOk(r, rd', ms, rs)
  {
    hide TaskOk;
    hide HandoffOk;
    hide CasesOk;
    hide ReplansOk;
    hide CaseOk;
    hide ReplanOk;
    hide CasesApart;
    hide ClassesKept;
    WrittenCases(r, rd, rd', b, ms, rs);
    WrittenReplans(r, rd, rd', b, ms, rs);
  }

  lemma WriteKeepsInv(s: State, r: RunId, rd': RunDir, b: BlockerCase)
    requires Inv(s) && r in s.runs && Writable(r, s.runs[r], rd', b, s.messages, s.receipts)
    ensures Inv(s.(runs := s.runs[r := rd']))
  {
    hide RunOk;
    hide CaseOk;
    hide ReplanOk;
    assert RunOk(r, s.runs[r], s.messages, s.receipts);
    WriteKeepsRun(r, s.runs[r], rd', b, s.messages, s.receipts);
    SetRunKeepsInv(s, r, rd');
  }

  // ----------------------------------------------- what the run provides

  lemma CaseFacts(s: State, r: RunId, k: TaskId)
    requires Inv(s) && r in s.runs && k in s.runs[r].cases
    ensures CaseOk(r, k, s.runs[r].cases[k], s.runs[r].tasks, s.messages, s.receipts)
    ensures ClassKept(k, s.runs[r].cases[k], s.runs[r].tasks, s.runs[r].replans)
  {
    hide CaseOk;
    hide ClassKept;
    assert RunOk(r, s.runs[r], s.messages, s.receipts);
  }

  lemma TaskFacts(s: State, r: RunId, t: TaskId)
    requires Inv(s) && r in s.runs && t in s.runs[r].tasks
    ensures TaskOk(r, s.runs[r].doc, t, s.runs[r].tasks[t], s.messages, s.receipts)
    ensures t <= s.seqno && s.runs[r].tasks[t].message <= s.seqno
  {
    hide TaskValid;
    hide Canonical;
    hide HandoffsOk;
    hide CasesOk;
    hide ReplansOk;
    hide ClassesKept;
    hide DocOk;
    assert RunOk(r, s.runs[r], s.messages, s.receipts);
  }

  lemma ReplanFacts(s: State, r: RunId, k: TaskId)
    requires Inv(s) && r in s.runs && k in s.runs[r].replans
    ensures ReplanOk(r, k, s.runs[r].replans[k], s.runs[r].tasks, s.runs[r].cases, s.receipts)
  {
    hide ReplanOk;
    assert RunOk(r, s.runs[r], s.messages, s.receipts);
  }

  lemma ApartFacts(s: State, r: RunId)
    requires Inv(s) && r in s.runs
    ensures CasesApart(s.runs[r].cases) && ReplansApart(s.runs[r].replans) && HandoffsApart(s.runs[r].handoffs)
  {
    assert RunOk(r, s.runs[r], s.messages, s.receipts);
  }

  /** Opening a case never finds a file in the way: a task with a live receipt that is no case's
      current task has no case and is no replacement. */
  lemma NewCaseNeverCollides(s: State, r: RunId, t: TaskId)
    requires Inv(s) && r in s.runs && t in s.runs[r].tasks
    requires !ReceiptFinished(s.receipts, s.runs[r].tasks[t])
    requires CasesFor(s.runs[r], t) == {}
    ensures t !in s.runs[r].cases && NotReplacement(s.runs[r], t)
  {
    hide Inv;
    hide CaseReadable;
    hide ReplanValid;
    hide ResolutionOk;
    assert forall k :: k in s.runs[r].cases ==> k !in CasesFor(s.runs[r], t);
    if t in s.runs[r].cases {
      CaseFacts(s, r, t);
    }
    forall j | j in s.runs[r].replans ensures s.runs[r].replans[j].replacementTask != t {
      ReplanFacts(s, r, j);
    }
  }

  /** The lookup by current task is never ambiguous. */
  lemma FindCaseFinds(s: State, r: RunId, t: TaskId)
    requires Inv(s) && r in s.runs
    ensures var f := FindCase(r, s.runs[r], t);
            && f.Success?
            && (f.value.None? ==> CasesFor(s.runs[r], t) == {})
            && (f.value.Some? ==>
                  && f.value.value.sourceTask in s.runs[r].cases
                  && s.runs[r].cases[f.value.value.sourceTask] == f.value.value
                  && f.value.value.currentTask == t
                  && CasesFor(s.runs[r], t) == {f.value.value.sourceTask})
  {
    hide Inv;
    hide CaseValid;
    hide ResolutionOk;
    var rd := s.runs[r];
    forall k | k in rd.cases ensures CaseReadable(r, k, rd.cases[k]) { CaseFacts(s, r, k); }
    ApartFacts(s, r);
    if CasesFor(rd, t) != {} {
      var k := MinOf(CasesFor(rd, t));
      assert forall j :: j in CasesFor(rd, t) ==> j == k;
      assert CasesFor(rd, t) == {k};
    }
  }
}
