/** Schedules that bring commands to where they block each other, and that such a block lasts. */
module LockSchedules {
  import opened Wrappers
  import opened Protocol
  import opened Locks
  import opened LockUses
  import opened LockStandstills

  /** Nobody is killed. */
  ghost predicate GoOnly(events: seq<Event>) {
    forall e :: e in events ==> e.Go?
  }

  lemma {:induction false} RunAppend(s: System, a: seq<Event>, b: seq<Event>)
    ensures Run(s, a + b) == Run(Run(s, a), b)
  {
    hide CanStep;
    hide Step;
    hide Kill;
    if b == [] {
      assert a + b == a;
    } else {
      RunAppend(s, a, b[..|b| - 1]);
      assert (a + b)[..|a + b| - 1] == a + b[..|b| - 1];
    }
  }

  lemma RunOne(s: System, e: Event)
    ensures e.Go? && CanStep(s, e.p) ==> Run(s, [e]) == Step(s, e.p)
    ensures e.Die? ==> Run(s, [e]) == Kill(s, e.p)
  {
    hide CanStep;
    hide Step;
    hide Kill;
    assert [e][..0] == [];
  }

  lemma AppendOrphans(s: System, uses: map<Pid, LockUse>, a: seq<Event>, b: seq<Event>)
    requires NoneOrphaned(s, uses, a) && NoneOrphaned(Run(s, a), uses, b)
    ensures NoneOrphaned(s, uses, a + b)
  {
    hide Orphans;
    hide Run;
    forall i | 0 <= i < |a + b| ensures !Orphans(Run(s, (a + b)[..i]), uses, (a + b)[i]) {
      if i < |a| {
        assert (a + b)[..i] == a[..i] && (a + b)[i] == a[i];
      } else {
        assert (a + b)[..i] == a + b[..i - |a|] && (a + b)[i] == b[i - |a|];
        RunAppend(s, a, b[..i - |a|]);
      }
    }
  }

  lemma GoOrphansNobody(s: System, uses: map<Pid, LockUse>, events: seq<Event>)
    requires GoOnly(events)
    ensures NoneOrphaned(s, uses, events)
  {
    hide Run;
    assert forall i :: 0 <= i < |events| ==> events[i] in events;
  }

  // ------------------------------------------------- parts of a schedule

  ghost predicate RoutesOnly(s: System) {
    forall l :: l in s.holder ==> l.RouteLock?
  }

  /** A command by itself gets through locks below the route lock. */
  lemma EachRuns(s: System, p: Pid, locks: seq<Lock>, rest: Program) returns (events: seq<Event>)
    requires p in s.started && p in s.rest && s.rest[p] == Each(locks, rest) && NoRouteLocks(locks) && RoutesOnly(s)
    ensures GoOnly(events) && Run(s, events) == s.(rest := s.rest[p := rest])
    decreases |locks|
  {
    if locks == [] {
      events := [];
      assert s.rest[p := rest] == s.rest;
    } else {
      var l, tail := locks[0], Each(locks[1..], rest);
      assert l in locks && s.rest[p][1..] == [Release(l)] + tail;
      var s1, s2 := Step(s, p), s.(rest := s.rest[p := tail]);
      assert ([Release(l)] + tail)[1..] == tail;
      assert s.holder[l := p] - {l} == s.holder;
      assert s1.rest[p := tail] == s.rest[p := tail];
      assert Step(s1, p) == s2;
      RunOne(s, Go(p));
      RunOne(s1, Go(p));
      hide Run;
      hide CanStep;
      hide Step;
      var more := EachRuns(s2, p, locks[1..], rest);
      RunAppend(s, [Go(p)], [Go(p)]);
      RunAppend(s, [Go(p)] + [Go(p)], more);
      events := [Go(p)] + [Go(p)] + more;
      assert s2.rest[p := rest] == s.rest[p := rest];
    }
  }

  /** A routing command by itself comes to the wait for its child. */
  lemma TakeLock(s: System, p: Pid, u: LockUse) returns (events: seq<Event>)
    requires u.Route? && UseOk(u) && p in s.started && p in s.rest && s.rest[p] == ProgramOf(u)
    requires RoutesOnly(s) && RouteLock(u.run) !in s.holder
    ensures GoOnly(events)
    ensures Run(s, events) == System(s.rest[p := UnderLock(u)], s.holder[RouteLock(u.run) := p], s.started)
  {
    var inner := Each([SequenceLock, SequenceLock], UnderLock(u));
    var acquire := [Acquire(RouteLock(u.run))] + inner;
    var first := EachRuns(s, p, u.before, acquire);
    var s1 := s.(rest := s.rest[p := acquire]);
    assert acquire[1..] == inner;
    var s2 := Step(s1, p);
    RunOne(s1, Go(p));
    assert s2 == System(s.rest[p := inner], s.holder[RouteLock(u.run) := p], s.started) by {
      assert s1.rest[p := inner] == s.rest[p := inner];
    }
    hide Run;
    hide CanStep;
    hide Step;
    var last := EachRuns(s2, p, [SequenceLock, SequenceLock], UnderLock(u));
    RunAppend(s, first, [Go(p)]);
    RunAppend(s, first + [Go(p)], last);
    events := first + [Go(p)] + last;
    assert s2.rest[p := UnderLock(u)] == s.rest[p := UnderLock(u)];
  }

  /** It holds the lock of its run and waits for its child, which is started. */
  ghost predicate Stands(t: System, uses: map<Pid, LockUse>, p: Pid) {
    && p in uses && uses[p].Route? && uses[p].child.Some? && uses[p].child.value in t.started
    && RouteLock(uses[p].run) in t.holder && t.holder[RouteLock(uses[p].run)] == p
    && p in t.started && p in t.rest && t.rest[p] != [] && t.rest[p][0] == Await(uses[p].child.value)
  }

  /** A started routing command whose lock is free and whose child is not started. */
  ghost predicate MayEnter(s: System, uses: map<Pid, LockUse>, p: Pid) {
    && p in uses && uses[p].Route? && UseOk(uses[p]) && uses[p].child.Some?
    && uses[p].child.value in s.rest && uses[p].child.value !in s.started
    && p in s.started && p in s.rest && s.rest[p] == ProgramOf(uses[p]) && RouteLock(uses[p].run) !in s.holder
  }

  /** The state in which p stands at its child. */
  function Entered(s: System, uses: map<Pid, LockUse>, p: Pid): System
    requires p in uses && uses[p].Route? && uses[p].child.Some?
  {
    System(s.rest[p := UnderLock(uses[p])], s.holder[RouteLock(uses[p].run) := p], s.started + {uses[p].child.value})
  }

  lemma Enter(s: System, uses: map<Pid, LockUse>, p: Pid) returns (events: seq<Event>)
    requires MayEnter(s, uses, p) && RoutesOnly(s)
    ensures GoOnly(events) && Run(s, events) == Entered(s, uses, p) && Stands(Entered(s, uses, p), uses, p)
  {
    var u := uses[p];
    hide ProgramOf;
    var first := TakeLock(s, p, u);
    var s1 := System(s.rest[p := UnderLock(u)], s.holder[RouteLock(u.run) := p], s.started);
    assert s1.rest[p][0] == Await(u.child.value);
    RunOne(s1, Go(p));
    hide Run;
    RunAppend(s, first, [Go(p)]);
    events := first + [Go(p)];
  }

  /** A command that is started, has its child started and is then killed, and leaves no lock behind. */
  lemma Pass(s: System, uses: map<Pid, LockUse>, p: Pid) returns (events: seq<Event>)
    requires MayEnter(s, uses, p) && RoutesOnly(s) && forall l :: l in s.holder ==> s.holder[l] != p
    ensures Run(s, events) == System(s.rest[p := []], s.holder, s.started + {uses[p].child.value})
  {
    var first := Enter(s, uses, p);
    var t := Entered(s, uses, p);
    RunOne(t, Die(p));
    hide Run;
    hide UnderLock;
    hide ProgramOf;
    RunAppend(s, first, [Die(p)]);
    events := first + [Die(p)];
    assert t.rest[p := []] == s.rest[p := []];
    assert (map l | l in t.holder && t.holder[l] != p :: t.holder[l]) == s.holder;
  }

  /** A dispatching command is past its first k children and has started the next. */
  ghost predicate AtChild(s: System, u: LockUse, rest: Program, k: nat) {
    u.Dispatch? && k < |u.children| && rest == Waits(u.children[k..], u.records, []) && u.children[k] in s.started
  }

  lemma Arrive(s: System, u: LockUse, p: Pid, locks: seq<Lock>, k: nat) returns (events: seq<Event>)
    requires u.Dispatch? && k < |u.children| && NoRouteLocks(locks) && RoutesOnly(s) && p in s.started && p in s.rest
    requires s.rest[p] == Each(locks, Waits(u.children[k..], u.records, []))
    requires u.children[k] in s.rest && u.children[k] !in s.started
    ensures GoOnly(events)
    ensures var rest := Waits(u.children[k..], u.records, []);
            var t := s.(rest := s.rest[p := rest], started := s.started + {u.children[k]});
            Run(s, events) == t && AtChild(t, u, rest, k)
  {
    var rest := Waits(u.children[k..], u.records, []);
    var first := EachRuns(s, p, locks, rest);
    var s1 := s.(rest := s.rest[p := rest]);
    assert s1.rest[p][0] == Await(u.children[k]);
    RunOne(s1, Go(p));
    hide Run;
    RunAppend(s, first, [Go(p)]);
    events := first + [Go(p)];
  }

  /** Once the child at k has ended, the next one is started. */
  lemma Advance(s: System, u: LockUse, p: Pid, k: nat) returns (events: seq<Event>)
    requires UseOk(u) && RoutesOnly(s) && p in s.started && p in s.rest && AtChild(s, u, s.rest[p], k)
    requires Ended(s, u.children[k]) && k + 1 < |u.children| && u.children[k + 1] in s.rest && u.children[k + 1] !in s.started
    ensures GoOnly(events)
    ensures var rest := Waits(u.children[k + 1..], u.records, []);
            var t := s.(rest := s.rest[p := rest], started := s.started + {u.children[k + 1]});
            Run(s, events) == t && AtChild(t, u, rest, k + 1)
  {
    var rest := Waits(u.children[k + 1..], u.records, []);
    assert u.children[k..][1..] == u.children[k + 1..];
    assert s.rest[p] == [Await(u.children[k])] + Each(u.records, rest);
    assert s.rest[p][1..] == Each(u.records, rest);
    var s1 := s.(rest := s.rest[p := Each(u.records, rest)]);
    assert Step(s, p) == s1;
    RunOne(s, Go(p));
    hide Run;
    hide Step;
    hide CanStep;
    var more := Arrive(s1, u, p, u.records, k + 1);
    RunAppend(s, [Go(p)], more);
    events := [Go(p)] + more;
    assert s1.rest[p := rest] == s.rest[p := rest];
  }

  // ------------------------------------------------------ it lasts

  /** p still has to wait for one of the set, or still wants the lock under which one of the set waits for
      another. */
  ghost predicate StopsAt(t: System, uses: map<Pid, LockUse>, ds: set<Pid>, p: Pid) {
    && p in uses && p in t.rest
    && ((exists c :: c in ds && Await(c) in t.rest[p])
        || (uses[p].Route? && Acquire(RouteLock(uses[p].run)) in t.rest[p]
            && exists q :: q in ds && Stands(t, uses, q) && uses[q].child.value in ds && uses[q].run == uses[p].run))
  }

  /** None of the set can end before another of them does. */
  ghost predicate Doomed(t: System, uses: map<Pid, LockUse>, ds: set<Pid>) {
    (exists p :: p in ds && p in t.started) && forall p :: p in ds ==> StopsAt(t, uses, ds, p)
  }

  lemma DoomedUnfinished(t: System, uses: map<Pid, LockUse>, ds: set<Pid>, p: Pid)
    requires Doomed(t, uses, ds) && p in ds
    ensures p in t.rest && t.rest[p] != []
  {
    hide Stands;
  }

  /** A step takes no lock from another command. */
  lemma StepLeaves(t: System, uses: map<Pid, LockUse>, x: Pid, l: Lock)
    requires Following(t, uses) && CanStep(t, x) && l in t.holder && t.holder[l] != x
    ensures l in Step(t, x).holder && Step(t, x).holder[l] == t.holder[l]
  {
    hide InTurn;
    hide ProgramOf;
    hide Awaits;
    assert x in t.rest.Keys;
    assert Proceeds(t, uses[x], x);
    hide Following;
    if t.rest[x][0].Release? { assert t.rest[x][0].l in Held(t, x); }
  }

  lemma StillStands(t: System, uses: map<Pid, LockUse>, ds: set<Pid>, q: Pid, x: Pid)
    requires Following(t, uses) && Doomed(t, uses, ds) && CanStep(t, x)
    requires q in ds && Stands(t, uses, q) && uses[q].child.value in ds
    ensures Stands(Step(t, x), uses, q)
  {
    hide Following;
    DoomedUnfinished(t, uses, ds, uses[q].child.value);
    hide Doomed;
    if x != q { StepLeaves(t, uses, x, RouteLock(uses[q].run)); }
  }

  /** What a command still has to do it has to do after a step, unless it did just that. */
  lemma StillToDo(t: System, x: Pid, p: Pid, a: Action)
    requires CanStep(t, x) && p in t.rest && a in t.rest[p]
    requires a.Await? ==> a.child in t.rest && t.rest[a.child] != []
    requires a.Acquire? ==> a.l in t.holder
    requires !a.Release?
    ensures p in Step(t, x).rest && a in Step(t, x).rest[p]
  {
    if x == p { assert t.rest[p] == [t.rest[p][0]] + t.rest[p][1..]; }
  }

  lemma StillStops(t: System, uses: map<Pid, LockUse>, ds: set<Pid>, p: Pid, x: Pid)
    requires Following(t, uses) && Doomed(t, uses, ds) && CanStep(t, x) && p in ds
    ensures StopsAt(Step(t, x), uses, ds, p)
  {
    hide Step;
    hide CanStep;
    hide Following;
    assert StopsAt(t, uses, ds, p);
    if c :| c in ds && Await(c) in t.rest[p] {
      DoomedUnfinished(t, uses, ds, c);
      StillToDo(t, x, p, Await(c));
    } else {
      var q :| q in ds && Stands(t, uses, q) && uses[q].child.value in ds && uses[q].run == uses[p].run;
      StillToDo(t, x, p, Acquire(RouteLock(uses[p].run)));
      StillStands(t, uses, ds, q, x);
    }
  }

  lemma {:induction false} DoomedForever(t: System, uses: map<Pid, LockUse>, ds: set<Pid>, events: seq<Event>)
    requires Known(uses) && Following(t, uses) && Doomed(t, uses, ds) && GoOnly(events)
    ensures Doomed(Run(t, events), uses, ds)
  {
    hide StopsAt;
    hide CanStep;
    hide Step;
    hide Kill;
    hide Following;
    hide Known;
    if events != [] {
      var before, last := events[..|events| - 1], events[|events| - 1];
      assert last in events && forall e :: e in before ==> e in events;
      DoomedForever(t, uses, ds, before);
      AlwaysFollows(t, uses, before);
      var u := Run(t, before);
      if CanStep(u, last.p) {
        forall p | p in ds ensures StopsAt(Step(u, last.p), uses, ds, p) { StillStops(u, uses, ds, p, last.p); }
        var p :| p in ds && p in u.started;
        StartedStays(u, last.p, p);
      }
    }
  }

  lemma StartedStays(t: System, x: Pid, p: Pid)
    requires CanStep(t, x) && p in t.started
    ensures p in Step(t, x).started
  {
  }

  // -------------------------------------- until nobody steps

  /** How much is left to do for the commands below n. */
  function Work(s: System, n: nat): nat {
    if n == 0 then 0
    else Work(s, n - 1) + (if n - 1 in s.rest then |s.rest[n - 1]| else 0) + if n - 1 in s.started then 0 else 1
  }

  lemma {:induction false} StepWorks(s: System, p: Pid, n: nat)
    requires CanStep(s, p)
    ensures Work(Step(s, p), n) <= Work(s, n)
    ensures p < n && !(s.rest[p][0].Await? && s.rest[p][0].child !in s.started) ==> Work(Step(s, p), n) < Work(s, n)
    ensures s.rest[p][0].Await? && s.rest[p][0].child !in s.started && s.rest[p][0].child < n ==> Work(Step(s, p), n) < Work(s, n)
  {
    if n > 0 { StepWorks(s, p, n - 1); }
  }

  /** Every schedule can be continued until nobody steps. */
  lemma Exhaust(s: System, n: nat) returns (events: seq<Event>)
    requires forall p :: p in s.rest ==> p < n
    ensures GoOnly(events) && Stuck(Run(s, events))
    decreases Work(s, n)
  {
    hide Step;
    hide Work;
    if q :| CanStep(s, q) {
      StepWorks(s, q, n);
      StepKeys(s, q);
      var more := Exhaust(Step(s, q), n);
      RunOne(s, Go(q));
      hide CanStep;
      RunAppend(s, [Go(q)], more);
      events := [Go(q)] + more;
    } else {
      events := [];
    }
  }

  lemma StepKeys(s: System, p: Pid)
    requires CanStep(s, p)
    ensures forall q :: q in Step(s, p).rest <==> q in s.rest
  {
  }

  ghost function BoundOf(ps: set<Pid>): (n: nat)
    ensures forall p :: p in ps ==> p < n
  {
    if ps == {} then 0
    else
      var p :| p in ps;
      var n := BoundOf(ps - {p});
      assert ps == (ps - {p}) + {p};
      if n <= p then p + 1 else n
  }

  /** From there, letting everybody go on ends in a state in which nobody can. */
  lemma DoomedEnds(t: System, uses: map<Pid, LockUse>, ds: set<Pid>) returns (events: seq<Event>)
    requires Known(uses) && Following(t, uses) && Doomed(t, uses, ds)
    ensures GoOnly(events) && !Progresses(Run(t, events))
  {
    forall p | p in t.rest ensures p < BoundOf(uses.Keys) { assert p in t.rest.Keys; }
    events := Exhaust(t, BoundOf(uses.Keys));
    DoomedForever(t, uses, ds, events);
    var u := Run(t, events);
    hide Run;
    var p :| p in ds && p in u.started;
    DoomedUnfinished(u, uses, ds, p);
    assert Unfinished(u, p);
  }
}
