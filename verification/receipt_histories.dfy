/** What the copies of a receipt amount to after any schedule of updaters, movers and lookups. */
module ReceiptHistories {
  import opened Wrappers
  import opened Protocol
  import opened ReceiptProtocol

  /** The receipt after the operations of the listed processes, one after the other. */
  function Replay(procs: map<Pid, Proc>, r: Receipt, log: seq<Pid>): Receipt {
    if log == [] then r
    else
      var last, before := log[|log| - 1], Replay(procs, r, log[..|log| - 1]);
      if last in procs then Written(procs[last].op, before) else before
  }

  /** The copy every operation sees is the replay of the log. */
  ghost predicate Faithful(s: System, r: Receipt) {
    exists f :: IsFirst(s.files, f) && s.files[f] == Replay(s.procs, r, s.log)
  }

  lemma {:induction false} ReplaySame(procs: map<Pid, Proc>, procs': map<Pid, Proc>, r: Receipt, log: seq<Pid>)
    requires procs'.Keys == procs.Keys && forall p :: p in procs ==> procs'[p].op == procs[p].op
    ensures Replay(procs', r, log) == Replay(procs, r, log)
  {
    if log != [] { ReplaySame(procs, procs', r, log[..|log| - 1]); }
  }

  /** A move that passes over another copy on its way. */
  ghost predicate PassesOver(files: Copies, from: Folder, to: Folder) {
    exists g :: g in files && Rank(from) < Rank(g) < Rank(to)
  }

  /** The next step of p removes the source of a forward move that passes over a stale copy. */
  ghost predicate Resurrects(s: System, p: Pid) {
    && p in s.procs && s.procs[p].pc.Removing? && s.procs[p].op.Move?
    && PassesOver(s.files, s.procs[p].op.from, s.procs[p].op.to)
  }

  lemma FirstIsOne(files: Copies, f: Folder, g: Folder)
    requires IsFirst(files, f) && IsFirst(files, g)
    ensures f == g
  {
    RankInjective(f, g);
  }

  lemma SomeFirst(files: Copies)
    requires files != map[]
    ensures exists f :: IsFirst(files, f)
  {
    var x :| x in files;
    assert x == Unread || x == Active || x == Done || x == Dead;
    if Unread in files { assert IsFirst(files, Unread); }
    else if Active in files { assert IsFirst(files, Active); }
    else if Done in files { assert IsFirst(files, Done); }
    else { assert x == Dead && IsFirst(files, Dead); }
  }

  lemma QuietFaithful(s: System, s': System, r: Receipt)
    requires s'.files == s.files && s'.log == s.log
    requires s'.procs.Keys == s.procs.Keys && forall p :: p in s.procs ==> s'.procs[p].op == s.procs[p].op
    ensures Faithful(s', r) <==> Faithful(s, r)
  {
    ReplaySame(s.procs, s'.procs, r, s.log);
  }

  lemma ReplayLogged(s: System, procs': map<Pid, Proc>, r: Receipt, p: Pid)
    requires p in s.procs && procs'.Keys == s.procs.Keys && forall q :: q in s.procs ==> procs'[q].op == s.procs[q].op
    ensures Replay(procs', r, s.log + [p]) == Written(s.procs[p].op, Replay(s.procs, r, s.log))
  {
    ReplaySame(s.procs, procs', r, s.log);
    assert (s.log + [p])[..|s.log|] == s.log;
  }

  lemma WriteFaithful(s: System, p: Pid, r: Receipt)
    requires Sane(s) && Faithful(s, r) && s.lock == Some(p) && s.procs[p].pc.Writing?
    ensures Faithful(Step(s, p), r)
  {
    hide ReceiptValid;
    var op, at, doc := s.procs[p].op, s.procs[p].pc.at, s.procs[p].pc.doc;
    var s' := Step(s, p);
    var f :| IsFirst(s.files, f) && s.files[f] == Replay(s.procs, r, s.log);
    FirstIsOne(s.files, f, at);
    if EffectOnWrite(op) {
      ReplayLogged(s, s'.procs, r, p);
      assert IsFirst(s'.files, doc.folder);
    } else {
      ReplaySame(s.procs, s'.procs, r, s.log);
      assert IsFirst(s'.files, at);
    }
  }

  /** Removing a source keeps the replay, unless a stale copy stood between source and destination:
      then that copy comes back as the receipt. */
  lemma RemoveFaithfulExactly(s: System, p: Pid, r: Receipt)
    requires Sane(s) && Faithful(s, r) && s.lock == Some(p) && s.procs[p].pc.Removing?
    ensures Faithful(Step(s, p), r) <==> !Resurrects(s, p)
  {
    hide ReceiptValid;
    var op := s.procs[p].op;
    var s' := Step(s, p);
    var f :| IsFirst(s.files, f) && s.files[f] == Replay(s.procs, r, s.log);
    if EffectOnWrite(op) {
      assert IsFirst(s.files, op.to) by { if Rank(op.from) <= Rank(f) { FirstIsOne(s.files, f, f); } }
      FirstIsOne(s.files, f, op.to);
      ReplaySame(s.procs, s'.procs, r, s.log);
      assert IsFirst(s'.files, op.to);
    } else {
      RankInjectiveAt(op.from, op.to);
      assert IsFirst(s.files, op.from);
      FirstIsOne(s.files, f, op.from);
      ReplayLogged(s, s'.procs, r, p);
      RemovalShows(s.files, s'.files, op.from, op.to);
    }
  }

  lemma RankInjectiveAt(f: Folder, g: Folder)
    requires f != g
    ensures Rank(f) != Rank(g)
  {
  }

  lemma RemovalShows(files: Copies, files': Copies, from: Folder, to: Folder)
    requires FilesOk(files) && IsFirst(files, from) && to in files && Rank(from) < Rank(to)
    requires files' == files - {from} && files[to] == files[from].(folder := to)
    ensures (exists f :: IsFirst(files', f) && files'[f] == files[from].(folder := to)) <==> !PassesOver(files, from, to)
  {
    hide ReceiptValid;
    assert to in files';
    SomeFirst(files');
    var f :| IsFirst(files', f);
    if PassesOver(files, from, to) {
      assert Rank(f) < Rank(to);
      forall g | IsFirst(files', g) ensures files'[g] != files[from].(folder := to) {
        FirstIsOne(files', f, g);
        assert files[g].folder == g;
      }
    } else {
      forall g | g in files' ensures Rank(to) <= Rank(g) {
        RankInjectiveAt(from, g);
      }
      assert IsFirst(files', to);
    }
  }

  /** Every single step: the receipt stays the replay of the log exactly when the step does not
      bring back a stale copy. */
  lemma StepFaithfulExactly(s: System, p: Pid, r: Receipt)
    requires Sane(s) && Faithful(s, r)
    ensures Faithful(Step(s, p), r) <==> !Resurrects(s, p)
  {
    hide FilesOk;
    hide Faithful;
    hide IsFirst;
    if p in s.procs && s.procs[p].pc.Writing? {
      WriteFaithful(s, p, r);
    } else if p in s.procs && s.procs[p].pc.Removing? {
      RemoveFaithfulExactly(s, p, r);
    } else {
      QuietFaithful(s, Step(s, p), r);
    }
  }

  lemma CrashFaithful(s: System, p: Pid, r: Receipt)
    ensures Faithful(Crash(s, p), r) <==> Faithful(s, r)
  {
    QuietFaithful(s, Crash(s, p), r);
  }

  ghost predicate EventResurrects(s: System, e: Event) {
    e.Go? && Resurrects(s, e.p)
  }

  /** Over any schedule with any crashes, the copy in force is at every moment the replay of the
      operations that took effect, exactly when no removal ever passes over a stale copy. */
  lemma {:induction false} HistoryFaithfulExactly(s: System, events: seq<Event>, r: Receipt)
    requires Initial(s) && Faithful(s, r)
    ensures (forall i :: 0 <= i <= |events| ==> Faithful(Run(s, events[..i]), r))
            <==> (forall i :: 0 <= i < |events| ==> !EventResurrects(Run(s, events[..i]), events[i]))
  {
    hide Faithful;
    hide Initial;
    hide Sane;
    hide Do;
    hide EventResurrects;
    if events == [] {
      assert events[..0] == [];
    } else {
      var n := |events| - 1;
      var before := events[..n];
      HistoryFaithfulExactly(s, before, r);
      AlwaysSane(s, before);
      forall i | 0 <= i <= n ensures before[..i] == events[..i] {}
      assert events[..n + 1] == events;
      assert Faithful(Run(s, before), r) ==>
               (Faithful(Run(s, events), r) <==> !EventResurrects(Run(s, before), events[n])) by {
        if Faithful(Run(s, before), r) { EventFaithful(Run(s, before), events[n], r); }
      }
      SplitLast(s, events, r);
    }
  }

  lemma EventFaithful(s: System, e: Event, r: Receipt)
    requires Sane(s) && Faithful(s, r)
    ensures Faithful(Do(s, e), r) <==> !EventResurrects(s, e)
  {
    hide Sane;
    hide Faithful;
    match e
    case Go(p) => StepFaithfulExactly(s, p, r);
    case Kill(p) => CrashFaithful(s, p, r);
  }

  lemma SplitLast(s: System, events: seq<Event>, r: Receipt)
    requires events != []
    ensures var n := |events| - 1;
            var before := events[..n];
            && ((forall i :: 0 <= i <= |events| ==> Faithful(Run(s, events[..i]), r))
                <==> (forall i :: 0 <= i <= n ==> Faithful(Run(s, before[..i]), r)) && Faithful(Run(s, events), r))
            && ((forall i :: 0 <= i < |events| ==> !EventResurrects(Run(s, events[..i]), events[i]))
                <==> (forall i :: 0 <= i < n ==> !EventResurrects(Run(s, before[..i]), before[i]))
                     && !EventResurrects(Run(s, before), events[n]))
  {
    hide Faithful;
    hide EventResurrects;
    hide Run;
    var n := |events| - 1;
    var before := events[..n];
    forall i | 0 <= i <= n ensures before[..i] == events[..i] {}
    assert events[..|events|] == events;
    assert forall i :: 0 <= i <= n ==> Run(s, before[..i]) == Run(s, events[..i]);
  }
}
