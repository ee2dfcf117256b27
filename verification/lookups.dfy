/** The directory scans behind the lookups, against the functions of Coordinator. */
module Lookups {
  import opened Wrappers
  import opened Text
  import opened Protocol
  import opened Coordinator

  method LeastOf(ids: set<TaskId>) returns (t: TaskId)
    requires ids != {}
    ensures t == MinOf(ids)
  {
    ghost var least := MinOf(ids);
    t :| t in ids && forall x :: x in ids ==> t <= x;
  }

  lemma LeastIsMin(ids: set<TaskId>, t: TaskId)
    requires t in ids && forall x :: x in ids ==> t <= x
    ensures MinOf(ids) == t
  {
  }

  lemma OnlyIsMin(ids: set<TaskId>, t: TaskId)
    requires ids == {t}
    ensures MinOf(ids) == t
  {
  }

  /** The scan for an active task under a key: in directory order, skipping finished ones. */
  method FindActiveDuplicateTask(s: State, r: RunId, key: string) returns (found: Result<Option<TaskId>, Error>)
    ensures found == FindActiveDuplicate(s, r, key)
  {
    hide TaskValid;
    hide Trim;
    if Blank(key) || r !in s.runs {
      return Success(None);
    }
    var tasks := s.runs[r].tasks;
    if !AllTasksValid(tasks) {
      return Failure(Malformed);
    }
    var remaining := tasks.Keys;
    ghost var suspects := Suspects(tasks, s.receipts, key);
    while remaining != {}
      invariant remaining <= tasks.Keys && suspects <= remaining
      decreases |remaining|
    {
      var t := LeastOf(remaining);
      var task := tasks[t];
      remaining := remaining - {t};
      if task.Key() != Some(key) {
        continue;
      }
      var k := ReceiptKey(task.owner, task.message);
      if k !in s.receipts {
        LeastIsMin(suspects, t);
        return Failure(Missing);
      }
      if Finished(s.receipts[k].folder) {
        continue;
      }
      LeastIsMin(suspects, t);
      return Success(Some(t));
    }
    return Success(None);
  }

  predicate Readable(r: RunId, k: TaskId, b: BlockerCase) {
    CaseValid(b) && b.run == r && b.sourceTask == k
  }

  /** The scan for the case of a current task, with its matched variable. */
  method FindBlockerCase(r: RunId, rd: RunDir, t: TaskId) returns (found: Result<Option<BlockerCase>, Error>)
    ensures found == FindCase(r, rd, t)
  {
    hide CaseValid;
    var matched: Option<BlockerCase> := None;
    ghost var at: TaskId := 0;
    var remaining := rd.cases.Keys;
    while remaining != {}
      invariant remaining <= rd.cases.Keys
      invariant forall k :: k in rd.cases && k !in remaining ==> CaseReadable(r, k, rd.cases[k])
      invariant forall k :: k in rd.cases && k !in remaining ==> (rd.cases[k].currentTask == t <==> matched.Some? && k == at)
      invariant matched.Some? ==> at in rd.cases && at !in remaining && matched.value == rd.cases[at]
      decreases |remaining|
    {
      var k := LeastOf(remaining);
      remaining := remaining - {k};
      var caseDoc := rd.cases[k];
      if !Readable(r, k, caseDoc) {
        assert !CaseReadable(r, k, rd.cases[k]);
        return Failure(Malformed);
      }
      if caseDoc.currentTask != t {
        continue;
      }
      if matched.Some? {
        TwoIsMore(CasesFor(rd, t), at, k);
        return Failure(Malformed);
      }
      matched, at := Some(caseDoc), k;
    }
    assert CasesFor(rd, t) == if matched.Some? then {at} else {};
    if matched.Some? { OnlyIsMin(CasesFor(rd, t), at); }
    return Success(matched);
  }

  lemma TwoIsMore(ids: set<TaskId>, a: TaskId, b: TaskId)
    requires a in ids && b in ids && a != b
    ensures |ids| > 1 && ids != {}
  {
    var rest := ids - {a, b};
    assert ids == rest + {a, b};
    assert |{a, b}| == 2;
  }

  /** The scan for the handoff of a review task. */
  method FindReviewHandoff(rd: RunDir, t: TaskId) returns (found: Result<ReviewHandoff, Error>)
    ensures found == FindHandoff(rd, t)
  {
    hide HandoffValid;
    var matched: Option<ReviewHandoff> := None;
    ghost var at: TaskId := 0;
    var remaining := rd.handoffs.Keys;
    while remaining != {}
      invariant remaining <= rd.handoffs.Keys
      invariant forall k :: k in rd.handoffs && k !in remaining ==> HandoffValid(rd.handoffs[k])
      invariant forall k :: k in rd.handoffs && k !in remaining ==> (rd.handoffs[k].reviewTask == Some(t) <==> matched.Some? && k == at)
      invariant matched.Some? ==> at in rd.handoffs && at !in remaining && matched.value == rd.handoffs[at]
      decreases |remaining|
    {
      var k := LeastOf(remaining);
      remaining := remaining - {k};
      var handoff := rd.handoffs[k];
      if !HandoffValid(handoff) {
        return Failure(Malformed);
      }
      if handoff.reviewTask != Some(t) {
        continue;
      }
      if matched.Some? {
        TwoIsMore(HandoffsFor(rd, t), at, k);
        return Failure(Malformed);
      }
      matched, at := Some(handoff), k;
    }
    assert HandoffsFor(rd, t) == if matched.Some? then {at} else {};
    if matched.None? {
      return Failure(Missing);
    }
    OnlyIsMin(HandoffsFor(rd, t), at);
    return Success(matched.value);
  }
}
