/** Schedules without crashes. */
module ReceiptSchedules {
  import opened Wrappers
  import opened Protocol
  import opened ReceiptProtocol
  import opened ReceiptHistories

  // --------------------------------------------------- one copy at rest

  ghost predicate CrashFree(events: seq<Event>) {
    forall i :: 0 <= i < |events| ==> events[i].Go?
  }

  /** The operation of the process has taken effect. */
  predicate Took(proc: Proc) {
    match proc.op
    case Lookup => false
    case Update(_) => proc.pc == Unlocking(true) || proc.pc == Ended(true)
    case Move(_, _) =>
      proc.pc == Unlocking(true) || proc.pc == Ended(true) || (proc.pc == Removing && EffectOnWrite(proc.op))
  }

  ghost predicate NoRepeats(log: seq<Pid>) {
    forall i, j :: 0 <= i < j < |log| ==> log[i] != log[j]
  }

  /** There is one copy, or source and destination while a move is between its two writes. */
  ghost predicate FewCopies(s: System) {
    if s.lock.Some? && s.lock.value in s.procs && s.procs[s.lock.value].pc.Removing? && s.procs[s.lock.value].op.Move?
    then s.files.Keys == {s.procs[s.lock.value].op.from, s.procs[s.lock.value].op.to}
    else exists f :: s.files.Keys == {f}
  }

  /** The log names exactly the processes whose operation took effect, each once. */
  ghost predicate LogExact(s: System) {
    && (forall p :: p in s.procs ==> !s.procs[p].pc.Crashed?)
    && (forall p :: p in s.log ==> p in s.procs)
    && (forall p :: p in s.procs ==> (p in s.log <==> Took(s.procs[p])))
    && NoRepeats(s.log)
  }

  ghost predicate Settled(s: System) {
    FewCopies(s) && LogExact(s)
  }

  /** Only a write or a removal changes the files. */
  lemma QuietStep(s: System, q: Pid)
    requires q in s.procs ==> !s.procs[q].pc.Removing? && !s.procs[q].pc.Writing?
    ensures Step(s, q).files == s.files
  {
    hide ReceiptValid;
  }

  lemma QuietFew(s: System, p: Pid)
    requires Sane(s) && FewCopies(s) && p in s.procs && !s.procs[p].pc.Removing? && !s.procs[p].pc.Writing?
    ensures FewCopies(Step(s, p))
  {
    hide FilesOk;
    hide HolderKnows;
    QuietStep(s, p);
    QuietLock(s, p);
    hide Step;
  }

  /** Such a step leaves the mover between its two writes alone. */
  lemma QuietLock(s: System, p: Pid)
    requires Sane(s) && p in s.procs && !s.procs[p].pc.Removing? && !s.procs[p].pc.Writing?
    ensures var s' := Step(s, p);
            var before := s.lock.Some? && s.lock.value in s.procs && s.procs[s.lock.value].pc.Removing? && s.procs[s.lock.value].op.Move?;
            var after := s'.lock.Some? && s'.lock.value in s'.procs && s'.procs[s'.lock.value].pc.Removing? && s'.procs[s'.lock.value].op.Move?;
            (before <==> after) && (before ==> s'.lock == s.lock && s'.procs[s.lock.value] == s.procs[s.lock.value])
  {
    hide ReceiptValid;
    hide FilesOk;
    hide HolderKnows;
    hide Writable;
    hide Written;
  }

  lemma WriteFew(s: System, p: Pid)
    requires Sane(s) && FewCopies(s) && p in s.procs && s.procs[p].pc.Writing?
    ensures FewCopies(Step(s, p))
  {
    hide ReceiptValid;
    hide FilesOk;
    assert s.lock == Some(p) && HolderKnows(s.files, s.procs[p]);
    var f :| s.files.Keys == {f};
    assert s.procs[p].pc.at in s.files.Keys;
  }

  lemma RemoveFew(s: System, p: Pid)
    requires Sane(s) && FewCopies(s) && p in s.procs && s.procs[p].pc.Removing?
    ensures FewCopies(Step(s, p))
  {
    hide ReceiptValid;
    hide FilesOk;
    assert s.lock == Some(p) && HolderKnows(s.files, s.procs[p]);
    assert Step(s, p).files.Keys == {s.procs[p].op.to};
  }

  lemma StepFewCopies(s: System, p: Pid)
    requires Sane(s) && FewCopies(s)
    ensures FewCopies(Step(s, p))
  {
    if p in s.procs {
      if s.procs[p].pc.Writing? {
        WriteFew(s, p);
      } else if s.procs[p].pc.Removing? {
        RemoveFew(s, p);
      } else {
        QuietFew(s, p);
      }
    }
    hide Sane;
    hide FewCopies;
  }

  lemma StepOps(t: System, p: Pid)
    requires p in t.procs
    ensures exists pc :: Step(t, p).procs == t.procs[p := t.procs[p].(pc := pc)]
  {
    hide ReceiptValid;
    hide Writable;
    hide Written;
    hide EffectOnWrite;
    assert Step(t, p).procs == t.procs || Step(t, p).procs == t.procs[p := Step(t, p).procs[p]];
    assert t.procs == t.procs[p := t.procs[p].(pc := t.procs[p].pc)];
    assert Step(t, p).procs == t.procs[p := t.procs[p].(pc := Step(t, p).procs[p].pc)];
  }

  /** A step logs its own process at the moment its operation takes effect, and nothing else. */
  lemma StepLog(s: System, p: Pid)
    requires Sane(s) && p in s.procs && !s.procs[p].pc.Crashed?
    ensures var s' := Step(s, p);
            && s'.procs.Keys == s.procs.Keys
            && (forall q :: q in s.procs && q != p ==> s'.procs[q] == s.procs[q])
            && s'.procs[p].op == s.procs[p].op && !s'.procs[p].pc.Crashed?
            && (s'.log == if Took(s'.procs[p]) && !Took(s.procs[p]) then s.log + [p] else s.log)
            && (Took(s.procs[p]) ==> Took(s'.procs[p]))
  {
    hide ReceiptValid;
    hide FilesOk;
    hide Writable;
    hide Written;
    StepOps(s, p);
    assert s.procs[p].pc.Writing? ==> !s.procs[p].op.Lookup?;
    hide HolderKnows;
    hide Sane;
  }

  lemma StepLogExact(s: System, p: Pid)
    requires Sane(s) && LogExact(s)
    ensures LogExact(Step(s, p))
  {
    hide Sane;
    hide Took;
    if p in s.procs {
      StepLog(s, p);
      hide Step;
    }
  }

  lemma StepSettled(s: System, p: Pid)
    requires Sane(s) && Settled(s)
    ensures Settled(Step(s, p))
  {
    hide Sane;
    hide FewCopies;
    hide LogExact;
    StepFewCopies(s, p);
    StepLogExact(s, p);
  }

  lemma SettledNeverResurrects(s: System, p: Pid)
    requires Sane(s) && Settled(s)
    ensures !Resurrects(s, p)
  {
    hide FilesOk;
    if p in s.procs && s.procs[p].pc.Removing? && s.procs[p].op.Move? {
      forall g | g in s.files ensures g == s.procs[p].op.from || g == s.procs[p].op.to {
        assert g in s.files.Keys;
      }
    }
  }

  lemma {:induction false} CrashFreeSettled(s: System, events: seq<Event>, r: Receipt)
    requires Initial(s) && CrashFree(events) && (exists f :: s.files == map[f := r])
    ensures Sane(Run(s, events)) && Settled(Run(s, events)) && Faithful(Run(s, events), r)
  {
    hide FilesOk;
    AlwaysSane(s, events);
    if events == [] {
      var f :| s.files == map[f := r];
      assert IsFirst(s.files, f);
      assert s.files.Keys == {f};
    } else {
      var before := events[..|events| - 1];
      CrashFreeSettled(s, before, r);
      AdvanceSettled(Run(s, before), events[|events| - 1].p, r);
    }
  }

  lemma AdvanceSettled(s: System, p: Pid, r: Receipt)
    requires Sane(s) && Settled(s) && Faithful(s, r)
    ensures Settled(Step(s, p)) && Faithful(Step(s, p), r)
  {
    hide Sane;
    hide Settled;
    hide Faithful;
    StepSettled(s, p);
    SettledNeverResurrects(s, p);
    StepFaithfulExactly(s, p, r);
  }

  lemma EventOps(t: System, e: Event)
    ensures Do(t, e).procs.Keys == t.procs.Keys
    ensures forall p :: p in t.procs ==> Do(t, e).procs[p].op == t.procs[p].op
  {
    if e.Go? && e.p in t.procs { StepOps(t, e.p); }
    hide Step;
  }

  lemma {:induction false} OpsStay(s: System, events: seq<Event>)
    ensures Run(s, events).procs.Keys == s.procs.Keys
    ensures forall p :: p in s.procs ==> Run(s, events).procs[p].op == s.procs[p].op
  {
    hide Do;
    if events != [] {
      OpsStay(s, events[..|events| - 1]);
      EventOps(Run(s, events[..|events| - 1]), events[|events| - 1]);
    }
  }

  /** Any number of updaters and movers, any schedule without crashes: whenever the lock is free there
      is exactly one copy, its folder_state is its folder, and its contents are those of the completed
      operations carried out one after the other. */
  lemma OneCopyAtRest(s: System, events: seq<Event>, r: Receipt)
    requires Initial(s) && CrashFree(events) && (exists f :: s.files == map[f := r])
    requires Run(s, events).lock.None?
    ensures var t := Run(s, events);
            var now := Replay(s.procs, r, t.log);
            && t.files == map[now.folder := now] && ReceiptValid(now)
            && NoRepeats(t.log)
            && (forall p :: p in t.log <==> p in t.procs && !t.procs[p].op.Lookup? && t.procs[p].pc == Ended(true))
  {
    hide ReceiptValid;
    hide HolderKnows;
    hide Initial;
    CrashFreeSettled(s, events, r);
    OpsStay(s, events);
    var t := Run(s, events);
    ReplaySame(s.procs, t.procs, r, t.log);
    var f :| IsFirst(t.files, f) && t.files[f] == Replay(t.procs, r, t.log);
    var g :| t.files.Keys == {g};
    assert f in t.files.Keys;
    assert t.files == map[f := t.files[f]];
  }

  // ------------------------------------------------------- the revision

  function CountIn(log: seq<Pid>, chosen: set<Pid>): nat {
    if log == [] then 0
    else CountIn(log[..|log| - 1], chosen) + if log[|log| - 1] in chosen then 1 else 0
  }

  /** Updates of the chosen processes add one to the revision; no other operation touches it. */
  ghost predicate Increments(procs: map<Pid, Proc>, chosen: set<Pid>) {
    forall p, r: Receipt :: p in procs ==>
      Written(procs[p].op, r).revision == r.revision + if p in chosen then 1 else 0
  }

  lemma {:induction false} ReplayRevision(procs: map<Pid, Proc>, r: Receipt, log: seq<Pid>, chosen: set<Pid>)
    requires Increments(procs, chosen) && forall p :: p in log ==> p in procs
    ensures Replay(procs, r, log).revision == r.revision + CountIn(log, chosen)
  {
    if log != [] {
      var front, last := log[..|log| - 1], log[|log| - 1];
      assert log == front + [last];
      ReplayRevision(procs, r, front, chosen);
    }
  }

  function Marked(log: seq<Pid>, chosen: set<Pid>): set<Pid> {
    set p | p in log && p in chosen
  }

  lemma {:induction false} CountIsSize(log: seq<Pid>, chosen: set<Pid>)
    requires NoRepeats(log)
    ensures CountIn(log, chosen) == |Marked(log, chosen)|
  {
    if log != [] {
      var front, last := log[..|log| - 1], log[|log| - 1];
      assert log == front + [last];
      CountIsSize(front, chosen);
      assert last !in front;
      assert Marked(log, chosen) == if last in chosen then Marked(front, chosen) + {last} else Marked(front, chosen);
    }
  }

  /** The processes whose operation completed. */
  function Completed(t: System): set<Pid> {
    set p | p in t.procs && !t.procs[p].op.Lookup? && t.procs[p].pc == Ended(true)
  }

  /** The revision counts the completed updates that increment it. */
  lemma RevisionCounts(s: System, events: seq<Event>, r: Receipt, chosen: set<Pid>)
    requires Initial(s) && CrashFree(events) && (exists f :: s.files == map[f := r])
    requires Run(s, events).lock.None? && Increments(s.procs, chosen)
    ensures var t := Run(s, events);
            exists f :: t.files.Keys == {f} && t.files[f].folder == f
                        && t.files[f].revision == r.revision + |Completed(t) * chosen|
  {
    hide Initial;
    hide Increments;
    hide ReceiptValid;
    OneCopyAtRest(s, events, r);
    OpsStay(s, events);
    var t := Run(s, events);
    ReplayRevision(s.procs, r, t.log, chosen);
    CountIsSize(t.log, chosen);
    assert Marked(t.log, chosen) == Completed(t) * chosen;
    assert t.files.Keys == {Replay(s.procs, r, t.log).folder};
  }
}
