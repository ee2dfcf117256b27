/** Crashed moves that are tried again, and the schedules in which a lookup or a receipt goes astray. */
module ReceiptRetries {
  import opened Wrappers
  import opened Protocol
  import opened ReceiptProtocol
  import opened ReceiptHistories

  /** Every mover makes the same forward move; updates and lookups are free. */
  ghost predicate OneMove(s: System, from: Folder, to: Folder) {
    && Rank(from) < Rank(to)
    && forall p :: p in s.procs && s.procs[p].op.Move? ==> s.procs[p].op == Move(from, to)
  }

  predicate Arrived(proc: Proc) {
    proc.op.Move? && (proc.pc == Unlocking(true) || proc.pc == Ended(true))
  }

  ghost predicate MoveDone(s: System) {
    exists p :: p in s.procs && Arrived(s.procs[p])
  }

  /** Copies stand only at the two ends of the move, and only at its destination once it was made. */
  ghost predicate Shape(s: System, from: Folder, to: Folder) {
    s.files.Keys <= {from, to} && (MoveDone(s) ==> from !in s.files)
  }

  /** What a step may do to the copies and to its own process. */
  ghost predicate MovesOn(s: System, s': System, p: Pid, from: Folder, to: Folder)
    requires p in s.procs
  {
    && s'.files.Keys <= {from, to}
    && (from in s'.files ==> from in s.files)
    && s'.procs.Keys == s.procs.Keys && s'.procs[p].op == s.procs[p].op
    && (Arrived(s'.procs[p]) ==> Arrived(s.procs[p]) || from !in s'.files)
    && forall q :: q in s.procs && q != p ==> s'.procs[q] == s.procs[q]
  }

  lemma WriteMovesOn(s: System, p: Pid, from: Folder, to: Folder)
    requires Sane(s) && OneMove(s, from, to) && s.files.Keys <= {from, to} && p in s.procs && s.procs[p].pc.Writing?
    ensures MovesOn(s, Step(s, p), p, from, to)
  {
    hide ReceiptValid;
    assert s.procs[p].pc.at in s.files.Keys;
  }

  lemma RemoveMovesOn(s: System, p: Pid, from: Folder, to: Folder)
    requires OneMove(s, from, to) && s.files.Keys <= {from, to} && p in s.procs && s.procs[p].pc.Removing?
    ensures MovesOn(s, Step(s, p), p, from, to)
  {
  }

  lemma OtherMovesOn(s: System, p: Pid, from: Folder, to: Folder)
    requires s.files.Keys <= {from, to} && p in s.procs && !s.procs[p].pc.Writing? && !s.procs[p].pc.Removing?
    ensures MovesOn(s, Step(s, p), p, from, to)
  {
    hide Writable;
    hide Written;
  }

  lemma StepShape(s: System, p: Pid, from: Folder, to: Folder)
    requires Sane(s) && OneMove(s, from, to) && Shape(s, from, to)
    ensures Shape(Step(s, p), from, to) && OneMove(Step(s, p), from, to)
  {
    hide Sane;
    hide Arrived;
    hide Step;
    if p in s.procs {
      if s.procs[p].pc.Writing? { WriteMovesOn(s, p, from, to); }
      else if s.procs[p].pc.Removing? { RemoveMovesOn(s, p, from, to); }
      else { OtherMovesOn(s, p, from, to); }
    } else {
      StrangerSteps(s, p);
    }
  }

  lemma StrangerSteps(s: System, p: Pid)
    requires p !in s.procs
    ensures Step(s, p) == s
  {
  }

  lemma CrashShape(s: System, p: Pid, from: Folder, to: Folder)
    requires OneMove(s, from, to) && Shape(s, from, to)
    ensures Shape(Crash(s, p), from, to) && OneMove(Crash(s, p), from, to)
  {
    var s' := Crash(s, p);
    if MoveDone(s') {
      var q :| q in s'.procs && Arrived(s'.procs[q]);
      assert s.procs[q] == s'.procs[q];
    }
  }

  lemma ShapeNeverResurrects(s: System, p: Pid, from: Folder, to: Folder)
    requires OneMove(s, from, to) && Shape(s, from, to)
    ensures !Resurrects(s, p)
  {
    forall g | g in s.files ensures g == from || g == to { assert g in s.files.Keys; }
  }

  lemma {:induction false} ShapeStays(s: System, events: seq<Event>, from: Folder, to: Folder, r: Receipt)
    requires Initial(s) && OneMove(s, from, to) && s.files == map[from := r]
    ensures var t := Run(s, events);
            Sane(t) && OneMove(t, from, to) && Shape(t, from, to) && Faithful(t, r)
  {
    hide Sane;
    hide Faithful;
    hide OneMove;
    hide Shape;
    AlwaysSane(s, events);
    if events == [] {
      StartShape(s, from, to, r);
    } else {
      var before := events[..|events| - 1];
      ShapeStays(s, before, from, to, r);
      var t := Run(s, before);
      match events[|events| - 1] {
        case Go(p) =>
          StepShape(t, p, from, to);
          ShapeNeverResurrects(t, p, from, to);
          StepFaithfulExactly(t, p, r);
        case Kill(p) =>
          CrashShape(t, p, from, to);
          CrashFaithful(t, p, r);
      }
    }
  }

  lemma StartShape(s: System, from: Folder, to: Folder, r: Receipt)
    requires Initial(s) && s.files == map[from := r]
    ensures Shape(s, from, to) && Faithful(s, r)
  {
    hide FilesOk;
    assert IsFirst(s.files, from);
  }

  /** A forward move loses nothing to crashes: however often it is tried and killed at whatever step,
      with updates in between, the copy in force is the replay of what took effect; and once one try has
      gone through, exactly one copy is left, in the destination, with the latest contents. */
  lemma RetriedMoveArrives(s: System, events: seq<Event>, from: Folder, to: Folder, r: Receipt)
    requires Initial(s) && OneMove(s, from, to) && s.files == map[from := r]
    ensures var t := Run(s, events);
            && FilesOk(t.files) && Faithful(t, r)
            && (MoveDone(t) ==>
                  && t.files == map[to := Replay(t.procs, r, t.log)]
                  && Replay(t.procs, r, t.log).folder == to)
  {
    hide ReceiptValid;
    hide HolderKnows;
    ShapeStays(s, events, from, to, r);
    var t := Run(s, events);
    if MoveDone(t) {
      var f :| IsFirst(t.files, f) && t.files[f] == Replay(t.procs, r, t.log);
      assert f in t.files.Keys && f == to;
      forall g | g in t.files ensures g == to { assert g in t.files.Keys; }
      assert t.files == map[to := t.files[to]];
    }
  }

  // ------------------------------------------------ a process by itself

  function Steps(s: System, p: Pid, n: nat): System {
    if n == 0 then s else Step(Steps(s, p, n - 1), p)
  }

  function Turns(p: Pid, n: nat): seq<Event> {
    if n == 0 then [] else Turns(p, n - 1) + [Go(p)]
  }

  lemma {:induction false} RunTurns(s: System, events: seq<Event>, p: Pid, n: nat)
    ensures Run(s, events + Turns(p, n)) == Steps(Run(s, events), p, n)
  {
    hide Step;
    if n == 0 {
      assert events + Turns(p, 0) == events;
    } else {
      RunTurns(s, events, p, n - 1);
      var all := events + Turns(p, n - 1);
      assert events + Turns(p, n) == all + [Go(p)];
      RunOneMore(s, all, p);
    }
  }

  lemma RunOneMore(s: System, events: seq<Event>, p: Pid)
    ensures Run(s, events + [Go(p)]) == Step(Run(s, events), p)
  {
    hide Step;
    assert (events + [Go(p)])[..|events|] == events;
  }

  lemma RunKill(s: System, events: seq<Event>, p: Pid)
    ensures Run(s, events + [Kill(p)]) == Crash(Run(s, events), p)
  {
    assert (events + [Kill(p)])[..|events|] == events;
  }

  /** The scan of a process that has the lock stops at the first copy. */
  lemma {:induction false} ScanAlone(s: System, p: Pid, first: Folder, i: nat)
    requires p in s.procs && !s.procs[p].op.Lookup? && s.procs[p].pc.Idle? && s.lock.None?
    requires IsFirst(s.files, first) && i <= Rank(first)
    ensures Steps(s, p, i + 1) == At(s.(lock := Some(p)), p, Scanning(i))
  {
    if i > 0 {
      ScanAlone(s, p, first, i - 1);
      assert FolderAt(i - 1) !in s.files;
    }
  }

  lemma OneMoreStep(s: System, p: Pid, n: nat)
    ensures Steps(s, p, n + 1) == Step(Steps(s, p, n), p)
  {
  }

  lemma FindStep(s: System, p: Pid, f: Folder)
    requires p in s.procs && !s.procs[p].op.Lookup? && s.procs[p].pc == Scanning(Rank(f)) && f in s.files
    ensures Step(s, p) == At(s, p, Reading(f))
  {
    RankInjective(FolderAt(Rank(f)), f);
  }

  lemma ReadStep(s: System, p: Pid, f: Folder)
    requires p in s.procs && s.procs[p].pc == Reading(f) && f in s.files && Writable(s.procs[p].op, f, s.files[f])
    ensures Step(s, p) == At(s, p, Writing(f, Written(s.procs[p].op, s.files[f])))
  {
    hide ReceiptValid;
  }

  lemma MoveWriteStep(s: System, p: Pid, f: Folder, doc: Receipt)
    requires p in s.procs && s.procs[p].op.Move? && s.procs[p].pc == Writing(f, doc)
    ensures Step(s, p) == At(s.(files := s.files[doc.folder := doc],
                                log := if EffectOnWrite(s.procs[p].op) then s.log + [p] else s.log), p, Removing)
  {
  }

  lemma RemoveStep(s: System, p: Pid)
    requires p in s.procs && s.procs[p].op.Move? && s.procs[p].pc == Removing
    ensures Step(s, p) == At(s.(files := s.files - {s.procs[p].op.from},
                                log := if EffectOnWrite(s.procs[p].op) then s.log else s.log + [p]), p, Unlocking(true))
  {
  }

  lemma UnlockStep(s: System, p: Pid, ok: bool)
    requires p in s.procs && s.procs[p].pc == Unlocking(ok)
    ensures Step(s, p) == At(s.(lock := None), p, Ended(ok))
  {
  }

  lemma AtAt(s: System, p: Pid, pc: Pc, pc': Pc)
    requires p in s.procs
    ensures At(At(s, p, pc), p, pc') == At(s, p, pc')
  {
    assert s.procs[p := s.procs[p].(pc := pc)][p := s.procs[p].(pc := pc')] == s.procs[p := s.procs[p].(pc := pc')];
  }

  lemma ReadAlone(s: System, p: Pid, first: Folder)
    requires p in s.procs && !s.procs[p].op.Lookup? && s.procs[p].pc.Idle? && s.lock.None? && IsFirst(s.files, first)
    ensures Steps(s, p, Rank(first) + 2) == At(s.(lock := Some(p)), p, Reading(first))
  {
    hide Step;
    hide Steps;
    var i := Rank(first);
    var held := s.(lock := Some(p));
    ScanAlone(s, p, first, i);
    FindStep(At(held, p, Scanning(i)), p, first);
    AtAt(held, p, Scanning(i), Reading(first));
    OneMoreStep(s, p, i + 1);
  }

  /** The copies while a move stands between its two writes. */
  function Between(s: System, p: Pid): System
    requires p in s.procs && s.procs[p].op.Move? && s.procs[p].op.from in s.files
  {
    var op := s.procs[p].op;
    s.(files := s.files[op.to := s.files[op.from].(folder := op.to)], lock := Some(p),
       log := if EffectOnWrite(op) then s.log + [p] else s.log)
  }

  /** A move that runs by itself first has both copies on disk. */
  lemma MoveAlone(s: System, p: Pid)
    requires p in s.procs && s.procs[p].op.Move? && s.procs[p].pc.Idle? && s.lock.None?
    requires var op := s.procs[p].op;
             IsFirst(s.files, op.from) && Writable(op, op.from, s.files[op.from])
    ensures Steps(s, p, Rank(s.procs[p].op.from) + 4) == At(Between(s, p), p, Removing)
  {
    hide Step;
    hide Steps;
    hide Writable;
    var op, i := s.procs[p].op, Rank(s.procs[p].op.from);
    var held := s.(lock := Some(p));
    ReadAlone(s, p, op.from);
    var doc := Written(op, s.files[op.from]);
    ReadStep(At(held, p, Reading(op.from)), p, op.from);
    AtAt(held, p, Reading(op.from), Writing(op.from, doc));
    OneMoreStep(s, p, i + 2);
    MoveWriteStep(At(held, p, Writing(op.from, doc)), p, op.from, doc);
    AtAt(Between(s, p), p, Writing(op.from, doc), Removing);
    OneMoreStep(s, p, i + 3);
  }

  /** Two steps later the destination is left alone. */
  lemma MoveFinishes(s: System, p: Pid)
    requires p in s.procs && s.procs[p].op.Move? && s.procs[p].pc.Idle? && s.lock.None?
    requires var op := s.procs[p].op;
             IsFirst(s.files, op.from) && Writable(op, op.from, s.files[op.from])
    ensures var op := s.procs[p].op;
            Steps(s, p, Rank(op.from) + 6)
            == At(s.(files := s.files[op.to := s.files[op.from].(folder := op.to)] - {op.from}, log := s.log + [p]),
                  p, Ended(true))
  {
    hide Step;
    hide Steps;
    hide Writable;
    var op, i := s.procs[p].op, Rank(s.procs[p].op.from);
    MoveAlone(s, p);
    var both := Between(s, p);
    RemoveStep(At(both, p, Removing), p);
    OneMoreStep(s, p, i + 4);
    var gone := both.(files := both.files - {op.from}, log := s.log + [p]);
    AtAt(gone, p, Removing, Unlocking(true));
    UnlockStep(At(gone, p, Unlocking(true)), p, true);
    AtAt(gone.(lock := None), p, Unlocking(true), Ended(true));
    OneMoreStep(s, p, i + 5);
  }

  lemma RefuseStep(s: System, p: Pid, f: Folder)
    requires p in s.procs && s.procs[p].pc == Reading(f) && f in s.files && !Writable(s.procs[p].op, f, s.files[f])
    ensures Step(s, p) == At(s, p, Unlocking(false))
  {
    hide ReceiptValid;
  }

  lemma UpdateWriteStep(s: System, p: Pid, f: Folder, doc: Receipt)
    requires p in s.procs && s.procs[p].op.Update? && s.procs[p].pc == Writing(f, doc)
    ensures Step(s, p) == At(s.(files := s.files[doc.folder := doc], log := s.log + [p]), p, Unlocking(true))
  {
  }

  /** An update that runs by itself. */
  lemma UpdateAlone(s: System, p: Pid, first: Folder)
    requires p in s.procs && s.procs[p].op.Update? && s.procs[p].pc.Idle? && s.lock.None?
    requires IsFirst(s.files, first) && Writable(s.procs[p].op, first, s.files[first])
    ensures var doc := Written(s.procs[p].op, s.files[first]);
            Steps(s, p, Rank(first) + 5)
            == At(s.(files := s.files[doc.folder := doc], log := s.log + [p]), p, Ended(true))
  {
    hide Step;
    hide Steps;
    hide Writable;
    var op, i := s.procs[p].op, Rank(first);
    var held := s.(lock := Some(p));
    var doc := Written(op, s.files[first]);
    ReadAlone(s, p, first);
    ReadStep(At(held, p, Reading(first)), p, first);
    AtAt(held, p, Reading(first), Writing(first, doc));
    OneMoreStep(s, p, i + 2);
    UpdateWriteStep(At(held, p, Writing(first, doc)), p, first, doc);
    var done := held.(files := s.files[doc.folder := doc], log := s.log + [p]);
    AtAt(done, p, Writing(first, doc), Unlocking(true));
    OneMoreStep(s, p, i + 3);
    UnlockStep(At(done, p, Unlocking(true)), p, true);
    AtAt(done.(lock := None), p, Unlocking(true), Ended(true));
    OneMoreStep(s, p, i + 4);
  }

  /** An operation that is refused leaves the copies alone. */
  lemma RefusedAlone(s: System, p: Pid, first: Folder)
    requires p in s.procs && !s.procs[p].op.Lookup? && s.procs[p].pc.Idle? && s.lock.None?
    requires IsFirst(s.files, first) && !Writable(s.procs[p].op, first, s.files[first])
    ensures Steps(s, p, Rank(first) + 4) == At(s, p, Ended(false))
  {
    hide Step;
    hide Steps;
    hide Writable;
    var i, held := Rank(first), s.(lock := Some(p));
    ReadAlone(s, p, first);
    RefuseStep(At(held, p, Reading(first)), p, first);
    AtAt(held, p, Reading(first), Unlocking(false));
    OneMoreStep(s, p, i + 2);
    UnlockStep(At(held, p, Unlocking(false)), p, false);
    AtAt(s, p, Unlocking(false), Ended(false));
    OneMoreStep(s, p, i + 3);
  }

  // -------------------------------------------------------- witnesses

  function Twin(op0: Op, op1: Op, r: Receipt): System {
    System(map[r.folder := r], None, map[0 := Proc(op0, Idle), 1 := Proc(op1, Idle)], [])
  }

  /** A read that dies between its two writes, and then a suspension: the suspended receipt is back,
      active, because its removal passed over the copy the read had left. */
  lemma SuspensionUndone(r: Receipt) returns (events: seq<Event>)
    requires ReceiptValid(r) && r.folder == Unread
    ensures var s := Run(Twin(Move(Unread, Active), Move(Unread, Dead), r), events);
            && s.procs == map[0 := Proc(Move(Unread, Active), Crashed), 1 := Proc(Move(Unread, Dead), Ended(true))]
            && s.files == map[Active := r.(folder := Active), Dead := r.(folder := Dead)]
            && IsFirst(s.files, Active)
  {
    hide Step;
    hide Steps;
    hide Run;
    hide Turns;
    var s0 := Twin(Move(Unread, Active), Move(Unread, Dead), r);
    assert IsFirst(s0.files, Unread);
    MoveAlone(s0, 0);
    RunTurns(s0, [], 0, 4);
    RunNothing(s0);
    var front := [] + Turns(0, 4);
    RunKill(s0, front, 0);
    var s1 := System(map[Unread := r, Active := r.(folder := Active)], None,
                     map[0 := Proc(Move(Unread, Active), Crashed), 1 := Proc(Move(Unread, Dead), Idle)], []);
    assert Run(s0, front + [Kill(0)]) == s1;
    assert IsFirst(s1.files, Unread);
    MoveFinishes(s1, 1);
    RunTurns(s0, front + [Kill(0)], 1, 6);
    events := front + [Kill(0)] + Turns(1, 6);
    assert s1.files[Dead := r.(folder := Dead)] - {Unread}
           == map[Active := r.(folder := Active), Dead := r.(folder := Dead)];
  }

  lemma RunNothing(s: System)
    ensures Run(s, []) == s
  {
  }

  /** A lookup that finds its folder empty goes on to the next, and after the last comes back with nothing. */
  lemma LookupStep(s: System, p: Pid, i: nat)
    requires p in s.procs && s.procs[p].op.Lookup? && s.procs[p].pc == Scanning(i)
    requires i < 4 ==> FolderAt(i) !in s.files
    ensures Step(s, p) == At(s, p, if i < 4 then Scanning(i + 1) else Ended(false))
  {
  }

  /** A lookup beside one backward move finds nothing: it has passed unread before the receipt comes
      back there, and reaches active after it is gone. */
  lemma BackwardMoveHides(r: Receipt) returns (events: seq<Event>)
    requires ReceiptValid(r) && r.folder == Active && r.doneAt.None?
    ensures var s := Run(Twin(Lookup, Move(Active, Unread), r), events);
            0 in s.procs && s.procs[0].pc == Ended(false) && s.files == map[Unread := r.(folder := Unread)]
  {
    hide Step;
    hide Steps;
    hide Run;
    hide Turns;
    var s0 := Twin(Lookup, Move(Active, Unread), r);
    RunNothing(s0);
    StartLookup(s0, 0);
    RunOneMore(s0, [], 0);
    LookupStep(At(s0, 0, Scanning(0)), 0, 0);
    AtAt(s0, 0, Scanning(0), Scanning(1));
    RunOneMore(s0, [] + [Go(0)], 0);
    var s1 := At(s0, 0, Scanning(1));
    var front := [] + [Go(0)] + [Go(0)];
    assert IsFirst(s1.files, Active);
    MoveFinishes(s1, 1);
    RunTurns(s0, front, 1, 7);
    var s2 := At(s1.(files := map[Unread := r.(folder := Unread)], log := [1]), 1, Ended(true));
    assert s1.files[Unread := r.(folder := Unread)] - {Active} == s2.files;
    var moved := front + Turns(1, 7);
    assert Run(s0, moved) == s2;
    LookupStep(s2, 0, 1);
    RunOneMore(s0, moved, 0);
    LookupStep(At(s2, 0, Scanning(2)), 0, 2);
    AtAt(s2, 0, Scanning(2), Scanning(3));
    RunOneMore(s0, moved + [Go(0)], 0);
    LookupStep(At(s2, 0, Scanning(3)), 0, 3);
    AtAt(s2, 0, Scanning(3), Scanning(4));
    RunOneMore(s0, moved + [Go(0)] + [Go(0)], 0);
    LookupStep(At(s2, 0, Scanning(4)), 0, 4);
    RunOneMore(s0, moved + [Go(0)] + [Go(0)] + [Go(0)], 0);
    events := moved + [Go(0)] + [Go(0)] + [Go(0)] + [Go(0)];
  }

  lemma StartLookup(s: System, p: Pid)
    requires p in s.procs && s.procs[p].op.Lookup? && s.procs[p].pc.Idle?
    ensures Step(s, p) == At(s, p, Scanning(0))
  {
  }
}
