/** What no command ever undoes. */
module Evolution {
  import opened Wrappers
  import opened Protocol
  import opened Coordinator
  import opened Invariant

  /** A handoff changes once at most: a pending one gets its response. */
  ghost predicate HandoffEvolves(h: ReviewHandoff, h': ReviewHandoff) {
    || h' == h
    || (&& h.status == Pending && h'.status == Responded
        && h' == h.(status := Responded, responseMessage := h'.responseMessage, outcome := h'.outcome,
                    respondedAt := h'.respondedAt))
  }

  /** A case keeps its source; its attempts and its reroute count only grow, the attempts at least as fast. */
  ghost predicate CaseEvolves(b: BlockerCase, b': BlockerCase) {
    && b'.sourceTask == b.sourceTask && b'.sourceMessage == b.sourceMessage && b'.sourceOwner == b.sourceOwner
    && b.attempts <= b'.attempts
    && 0 <= b'.rerouteCount - b.rerouteCount <= |b'.attempts| - |b.attempts|
  }

  ghost predicate TasksEvolve(tasks: Tasks, tasks': Tasks) {
    forall t :: t in tasks ==> t in tasks' && tasks'[t] == tasks[t]
  }

  ghost predicate HandoffsEvolve(hs: map<TaskId, ReviewHandoff>, hs': map<TaskId, ReviewHandoff>) {
    forall k :: k in hs ==> k in hs' && HandoffEvolves(hs[k], hs'[k])
  }

  ghost predicate CasesEvolve(cs: map<TaskId, BlockerCase>, cs': map<TaskId, BlockerCase>) {
    forall k :: k in cs ==> k in cs' && CaseEvolves(cs[k], cs'[k])
  }

  ghost predicate ReplansEvolve(ps: map<TaskId, PartialReplan>, ps': map<TaskId, PartialReplan>) {
    forall k :: k in ps ==> k in ps' && ps'[k] == ps[k]
  }

  ghost predicate RunEvolves(rd: RunDir, rd': RunDir) {
    && rd'.doc == rd.doc
    && TasksEvolve(rd.tasks, rd'.tasks) && HandoffsEvolve(rd.handoffs, rd'.handoffs)
    && CasesEvolve(rd.cases, rd'.cases) && ReplansEvolve(rd.replans, rd'.replans)
  }

  ghost predicate RunsEvolve(runs: map<RunId, RunDir>, runs': map<RunId, RunDir>) {
    forall r :: r in runs ==> r in runs' && RunEvolves(runs[r], runs'[r])
  }

  ghost predicate Evolves(s: State, s': State) {
    && s.seqno <= s'.seqno
    && Grows(s.messages, s.receipts, s'.messages, s'.receipts)
    && RunsEvolve(s.runs, s'.runs)
  }

  // ------------------------------------------ what most commands leave alone

  ghost predicate NoDeps(tasks: Tasks, tasks': Tasks) {
    forall t :: t in tasks' && t !in tasks ==> tasks'[t].dependsOn == []
  }

  /** New tasks depend on nothing. */
  ghost predicate NoNewDeps(s: State, s': State) {
    forall r :: r in s'.runs ==> NoDeps(if r in s.runs then s.runs[r].tasks else map[], s'.runs[r].tasks)
  }

  ghost predicate ReplansSame(s: State, s': State) {
    forall r :: r in s'.runs ==> s'.runs[r].replans == if r in s.runs then s.runs[r].replans else map[]
  }

  /** No replan is made, and no dependency. */
  ghost predicate Calm(s: State, s': State) {
    NoNewDeps(s, s') && ReplansSame(s, s')
  }

  lemma CalmTrans(a: State, b: State, c: State)
    requires RunsEvolve(a.runs, b.runs) && RunsEvolve(b.runs, c.runs)
    ensures NoNewDeps(a, b) && NoNewDeps(b, c) ==> NoNewDeps(a, c)
    ensures Calm(a, b) && Calm(b, c) ==> Calm(a, c)
  {
    if NoNewDeps(a, b) && NoNewDeps(b, c) {
      forall r | r in c.runs ensures NoDeps(if r in a.runs then a.runs[r].tasks else map[], c.runs[r].tasks) {
        assert NoDeps(if r in b.runs then b.runs[r].tasks else map[], c.runs[r].tasks);
        if r in b.runs {
          assert RunEvolves(b.runs[r], c.runs[r]);
          assert NoDeps(if r in a.runs then a.runs[r].tasks else map[], b.runs[r].tasks);
        }
      }
    }
  }

  lemma RunEvolvesRefl(rd: RunDir)
    ensures RunEvolves(rd, rd)
  {
  }

  lemma RunEvolvesTrans(a: RunDir, b: RunDir, c: RunDir)
    requires RunEvolves(a, b) && RunEvolves(b, c)
    ensures RunEvolves(a, c)
  {
    forall k | k in a.cases ensures CaseEvolves(a.cases[k], c.cases[k]) {
      assert CaseEvolves(a.cases[k], b.cases[k]) && CaseEvolves(b.cases[k], c.cases[k]);
      AttemptsTrans(a.cases[k].attempts, b.cases[k].attempts, c.cases[k].attempts);
    }
    forall k | k in a.handoffs ensures HandoffEvolves(a.handoffs[k], c.handoffs[k]) {
      assert HandoffEvolves(a.handoffs[k], b.handoffs[k]) && HandoffEvolves(b.handoffs[k], c.handoffs[k]);
    }
  }

  lemma AttemptsTrans(a: seq<Attempt>, b: seq<Attempt>, c: seq<Attempt>)
    requires a <= b && b <= c
    ensures a <= c
  {
  }

  /** Commands compose: what one keeps and the next keeps, both keep. */
  lemma EvolvesTrans(a: State, b: State, c: State)
    requires Evolves(a, b) && Evolves(b, c)
    ensures Evolves(a, c)
    ensures NoNewDeps(a, b) && NoNewDeps(b, c) ==> NoNewDeps(a, c)
    ensures Calm(a, b) && Calm(b, c) ==> Calm(a, c)
  {
    hide Grows;
    hide RunEvolves;
    hide Calm;
    hide NoNewDeps;
    CalmTrans(a, b, c);
    GrowsTransitive(a.messages, a.receipts, b.messages, b.receipts, c.messages, c.receipts);
    forall r | r in a.runs ensures RunEvolves(a.runs[r], c.runs[r]) {
      RunEvolvesTrans(a.runs[r], b.runs[r], c.runs[r]);
    }
  }

  lemma SameRunsEvolve(s: State, s': State)
    requires s'.runs == s.runs && s.seqno <= s'.seqno
    requires Grows(s.messages, s.receipts, s'.messages, s'.receipts)
    ensures Evolves(s, s') && Calm(s, s')
  {
    hide RunEvolves;
    forall r | r in s.runs ensures RunEvolves(s.runs[r], s'.runs[r]) {
      RunEvolvesRefl(s.runs[r]);
    }
  }

  /** One run directory moves on and the others stay. */
  lemma OneRunEvolves(s: State, s': State, r: RunId, rd: RunDir)
    requires r in s.runs && s'.runs == s.runs[r := rd] && RunEvolves(s.runs[r], rd)
    requires s.seqno <= s'.seqno && Grows(s.messages, s.receipts, s'.messages, s'.receipts)
    ensures Evolves(s, s')
    ensures NoDeps(s.runs[r].tasks, rd.tasks) ==> NoNewDeps(s, s')
    ensures NoDeps(s.runs[r].tasks, rd.tasks) && rd.replans == s.runs[r].replans ==> Calm(s, s')
  {
    hide RunEvolves;
    forall x | x in s.runs ensures RunEvolves(s.runs[x], s'.runs[x]) {
      if x != r { RunEvolvesRefl(s.runs[x]); }
    }
  }

  // ------------------------------------------------------ blocker cases

  /** One write of a case. Automatic reroutes raise the count by one and stay within the ceiling;
      manual ones add an attempt without being counted. */
  ghost predicate CaseChange(cfg: Config, source: ChildTask, before: Option<BlockerCase>, b: BlockerCase, manual: nat) {
    var count := if before.Some? then before.value.rerouteCount else 0;
    var attempts := if before.Some? then before.value.attempts else [];
    && b.sourceTask == source.id && b.sourceMessage == source.message && b.sourceOwner == source.owner
    && attempts <= b.attempts
    && |b.attempts| - |attempts| == b.rerouteCount - count + manual
    && (b.rerouteCount == count
        || (b.rerouteCount == count + 1 <= Ceiling(cfg, source) && b.declared == Block(RerouteNeeded)))
  }

  /** No case changes. */
  ghost predicate CasesSame(s: State, s': State) {
    && (forall r :: r in s.runs ==> r in s'.runs && s'.runs[r].cases == s.runs[r].cases)
    && (forall r :: r in s'.runs && r !in s.runs ==> s'.runs[r].cases == map[])
  }

  /** Exactly the case of source k in run r is written. */
  ghost predicate CaseStep(cfg: Config, s: State, s': State, r: RunId, k: TaskId, manual: nat) {
    && s'.runs.Keys == s.runs.Keys
    && r in s.runs && k in s.runs[r].tasks && k in s'.runs[r].cases
    && (forall x :: x in s.runs && x != r ==> s'.runs[x].cases == s.runs[x].cases)
    && s'.runs[r].cases == s.runs[r].cases[k := s'.runs[r].cases[k]]
    && CaseChange(cfg, s.runs[r].tasks[k], if k in s.runs[r].cases then Some(s.runs[r].cases[k]) else None,
                  s'.runs[r].cases[k], manual)
  }
}
