/** Sets of commands that block each other, and that a system in which nobody steps is stopped by one. */
module LockStandstills {
  import opened Wrappers
  import opened Protocol
  import opened Locks
  import opened LockUses

  // --------------------------------------------------- who dispatched whom

  /** The command n, the one that dispatches it, the one that dispatches that, and so on. */
  ghost function Line(uses: map<Pid, LockUse>, n: Pid): set<Pid>
    requires Known(uses)
    decreases n
  {
    if exists p :: p in uses && p < n && n in ChildrenOf(uses[p]) then
      var p :| p in uses && p < n && n in ChildrenOf(uses[p]);
      {n} + Line(uses, p)
    else {n}
  }

  lemma LineUp(uses: map<Pid, LockUse>, p: Pid, c: Pid)
    requires Known(uses) && p in uses && c in ChildrenOf(uses[p])
    ensures Line(uses, c) == {c} + Line(uses, p)
  {
    OwnChild(uses, p, c);
    var q :| q in uses && c in ChildrenOf(uses[q]) && Line(uses, c) == {c} + Line(uses, q);
    OneDispatcher(uses, p, q, c);
  }

  lemma {:induction false} LineStarted(s: System, uses: map<Pid, LockUse>, n: Pid, x: Pid)
    requires Known(uses) && Following(s, uses) && n in s.started && x in Line(uses, n)
    ensures x in s.started
    decreases n
  {
    hide Shaped;
    hide InTurn;
    hide ProgramOf;
    if p :| p in uses && n in ChildrenOf(uses[p]) {
      LineUp(uses, p, n);
      if x != n { LineStarted(s, uses, p, x); }
    }
  }

  // ----------------------------------------------------------- standstills

  /** Of the set, p is a routing command whose dispatched command is in the set too: it holds its run's lock. */
  predicate Holds(uses: map<Pid, LockUse>, ns: set<Pid>, p: Pid) {
    p in ns && p in uses && uses[p].Route? && uses[p].child.Some? && uses[p].child.value in ns
  }

  /** What p waits for is in the set: a command it dispatches, or one that holds the lock of its run. */
  ghost predicate Blocked(uses: map<Pid, LockUse>, ns: set<Pid>, p: Pid) {
    p in uses
    && match uses[p]
       case Quick(_) => false
       case Dispatch(_, children, _) => exists c :: c in children && c in ns
       case Route(_, r, _, _, _) => Holds(uses, ns, p) || exists q :: Holds(uses, ns, q) && uses[q].run == r
  }

  /** Each waits for another of the set, and those that hold locks hold different ones. */
  ghost predicate Standstill(uses: map<Pid, LockUse>, ns: set<Pid>) {
    && ns != {} && (forall p :: p in ns ==> Blocked(uses, ns, p))
    && forall p, q :: Holds(uses, ns, p) && Holds(uses, ns, q) && p != q ==> uses[p].run != uses[q].run
  }

  /** They can be alive together when commands may be killed at any time: nobody is below a child that comes
      after one of the set, or below the child of a routing command of the set that still wants its lock. */
  ghost predicate Coexist(uses: map<Pid, LockUse>, ns: set<Pid>)
    requires Known(uses)
  {
    && (forall p, i, j, n ::
          p in uses && 0 <= i < j < |ChildrenOf(uses[p])| && n in ns && ChildrenOf(uses[p])[j] in Line(uses, n) ==>
            ChildrenOf(uses[p])[i] !in ns)
    && forall p, c, n ::
         p in ns && p in uses && uses[p].Route? && c in ChildrenOf(uses[p]) && n in ns && c in Line(uses, n) ==> c in ns
  }

  /** They can be alive together when nobody is killed over a running command: whoever dispatched one of them
      is one of them, and of those one dispatches there is one. */
  ghost predicate Attended(uses: map<Pid, LockUse>, ns: set<Pid>) {
    && (forall p, c :: p in uses && c in ChildrenOf(uses[p]) && c in ns ==> p in ns)
    && forall p, i, j ::
         p in uses && 0 <= i < j < |ChildrenOf(uses[p])| && ChildrenOf(uses[p])[i] in ns ==> ChildrenOf(uses[p])[j] !in ns
  }

  lemma {:induction false} AttendedLine(uses: map<Pid, LockUse>, ns: set<Pid>, n: Pid)
    requires Known(uses) && Attended(uses, ns) && n in ns
    ensures Line(uses, n) <= ns
    decreases n
  {
    if p :| p in uses && n in ChildrenOf(uses[p]) {
      LineUp(uses, p, n);
      AttendedLine(uses, ns, p);
    }
  }

  lemma AttendedCoexist(uses: map<Pid, LockUse>, ns: set<Pid>)
    requires Known(uses) && Attended(uses, ns)
    ensures Coexist(uses, ns)
  {
    hide Line;
    hide Known;
    forall n | n in ns ensures Line(uses, n) <= ns { AttendedLine(uses, ns, n); }
  }

  // ------------------------------------------ where nobody steps

  ghost predicate Stuck(t: System) {
    forall q :: !CanStep(t, q)
  }

  function Alive(t: System): set<Pid> {
    set p | p in t.started && Unfinished(t, p)
  }

  lemma StuckHoldsRoutes(t: System, uses: map<Pid, LockUse>)
    requires Following(t, uses) && Stuck(t)
    ensures forall l :: l in t.holder ==> l.RouteLock?
  {
    hide InTurn;
    hide ProgramOf;
    forall l | l in t.holder ensures l.RouteLock? {
      var p := t.holder[l];
      assert l in Held(t, p) && Shaped(uses[p], t.rest[p], Held(t, p)) && !CanStep(t, p);
    }
  }

  /** Who is stuck stands at a route lock that is held, or at a started command that has not ended. */
  lemma StandsBefore(t: System, uses: map<Pid, LockUse>, p: Pid)
    requires Known(uses) && Following(t, uses) && Stuck(t) && p in Alive(t)
    ensures p in uses && t.rest[p] != [] && Shaped(uses[p], t.rest[p], Held(t, p)) && InTurn(t, uses[p], t.rest[p])
    ensures || (t.rest[p][0].Acquire? && t.rest[p][0].l.RouteLock? && t.rest[p][0].l in t.holder)
            || (t.rest[p][0].Await? && t.rest[p][0].child in Alive(t) && t.rest[p][0].child in ChildrenOf(uses[p]))
  {
    hide InTurn;
    hide ProgramOf;
    StuckHoldsRoutes(t, uses);
    assert Shaped(uses[p], t.rest[p], Held(t, p)) && !CanStep(t, p);
    if t.rest[p][0].Await? {
      hide Shaped;
      NextChild(t, uses, p);
      assert t.rest[p][0].child in t.rest.Keys;
    }
  }

  /** Who holds a lock is a routing command that stands at its child. */
  lemma HolderHolds(t: System, uses: map<Pid, LockUse>, l: Lock)
    requires Known(uses) && Following(t, uses) && Stuck(t) && l in t.holder
    ensures var h := t.holder[l]; Holds(uses, Alive(t), h) && l == RouteLock(uses[h].run)
  {
    hide ProgramOf;
    hide InTurn;
    var h := t.holder[l];
    StuckHoldsRoutes(t, uses);
    assert l in Held(t, h) && Shaped(uses[h], t.rest[h], Held(t, h));
    StandsBefore(t, uses, h);
  }

  /** And who has such a child alive holds the lock. */
  lemma HoldsHeld(t: System, uses: map<Pid, LockUse>, p: Pid)
    requires Known(uses) && Following(t, uses) && Stuck(t) && Holds(uses, Alive(t), p)
    ensures RouteLock(uses[p].run) in t.holder && t.holder[RouteLock(uses[p].run)] == p
  {
    StandsBefore(t, uses, p);
    hide Following;
    hide ProgramOf;
    hide Stuck;
    assert ChildrenOf(uses[p])[0] == uses[p].child.value;
    assert t.rest[p][0] == Await(uses[p].child.value);
    assert RouteLock(uses[p].run) in Held(t, p);
  }

  lemma AliveBlocked(t: System, uses: map<Pid, LockUse>, p: Pid)
    requires Known(uses) && Following(t, uses) && Stuck(t) && p in Alive(t)
    ensures Blocked(uses, Alive(t), p)
  {
    StandsBefore(t, uses, p);
    hide InTurn;
    hide ProgramOf;
    if t.rest[p][0].Acquire? { HolderHolds(t, uses, t.rest[p][0].l); }
    hide Following;
    hide Stuck;
    hide Alive;
  }

  /** Where somebody is unfinished and nobody steps, the commands alive are a standstill. */
  lemma StuckStands(t: System, uses: map<Pid, LockUse>, p: Pid)
    requires Known(uses) && Following(t, uses) && Stuck(t) && Unfinished(t, p)
    ensures Standstill(uses, Alive(t)) && Coexist(uses, Alive(t))
  {
    var ns := Alive(t);
    assert p in ns;
    forall q | q in ns ensures Blocked(uses, ns, q) { AliveBlocked(t, uses, q); }
    forall q | Holds(uses, ns, q) ensures RouteLock(uses[q].run) in t.holder && t.holder[RouteLock(uses[q].run)] == q {
      HoldsHeld(t, uses, q);
    }
    StuckCoexists(t, uses);
    hide Following;
    hide Known;
    hide Stuck;
    hide Coexist;
    hide Blocked;
  }

  lemma StuckCoexists(t: System, uses: map<Pid, LockUse>)
    requires Known(uses) && Following(t, uses) && Stuck(t)
    ensures Coexist(uses, Alive(t))
  {
    var ns := Alive(t);
    hide Line;
    hide Shaped;
    hide ProgramOf;
    hide Awaits;
    hide Stuck;
    forall p, i, j, n | p in uses && 0 <= i < j < |ChildrenOf(uses[p])| && n in ns && ChildrenOf(uses[p])[j] in Line(uses, n)
      ensures ChildrenOf(uses[p])[i] !in ns
    {
      LineStarted(t, uses, n, ChildrenOf(uses[p])[j]);
      assert InTurn(t, uses[p], t.rest[p]);
    }
    forall p, c, n | p in ns && p in uses && uses[p].Route? && c in ChildrenOf(uses[p]) && n in ns && c in Line(uses, n)
      ensures c in ns
    {
      LineStarted(t, uses, n, c);
      StartedChildAlive(t, uses, p, c);
    }
  }

  lemma StartedChildAlive(t: System, uses: map<Pid, LockUse>, p: Pid, c: Pid)
    requires Known(uses) && Following(t, uses) && Stuck(t) && p in Alive(t) && p in uses
    requires uses[p].Route? && c in ChildrenOf(uses[p]) && c in t.started
    ensures c in Alive(t)
  {
    StandsBefore(t, uses, p);
    hide Following;
    hide ProgramOf;
    hide Stuck;
    assert ChildrenOf(uses[p])[0] == c;
  }

  // -------------------------------------------------- nobody is orphaned

  /** Whoever runs a dispatched command is still there. */
  ghost predicate Supervised(t: System, uses: map<Pid, LockUse>) {
    forall p, c :: p in uses && c in ChildrenOf(uses[p]) && Unfinished(t, c) ==> Unfinished(t, p)
  }

  /** The event kills a command while the one it dispatched is running. */
  ghost predicate Orphans(t: System, uses: map<Pid, LockUse>, e: Event) {
    e.Die? && e.p in uses && Unfinished(t, e.p) && exists c :: c in ChildrenOf(uses[e.p]) && Unfinished(t, c)
  }

  ghost predicate NoneOrphaned(s: System, uses: map<Pid, LockUse>, events: seq<Event>) {
    forall i :: 0 <= i < |events| ==> !Orphans(Run(s, events[..i]), uses, events[i])
  }

  lemma FreshSupervised(s: System, uses: map<Pid, LockUse>)
    requires Fresh(s, uses)
    ensures Supervised(s, uses)
  {
    hide ProgramOf;
  }

  lemma StepSupervised(t: System, uses: map<Pid, LockUse>, q: Pid)
    requires Known(uses) && Following(t, uses) && Supervised(t, uses) && CanStep(t, q)
    ensures Supervised(Step(t, q), uses)
  {
    hide Shaped;
    hide ProgramOf;
    var t' := Step(t, q);
    assert q in t.rest.Keys;
    if t.rest[q][0].Await? { NextChild(t, uses, q); }
    forall p, c | p in uses && c in ChildrenOf(uses[p]) && Unfinished(t', c) ensures Unfinished(t', p) {
      if Unfinished(t, c) {
        if p == q { RunningChild(t, uses, p, c); }
        RunningStays(t, p, c, q);
      } else {
        StepStarts(t, q, c);
        assert t.rest[q][0] == Await(c);
        OneDispatcher(uses, p, q, c);
      }
    }
  }

  lemma RunningStays(t: System, p: Pid, c: Pid, q: Pid)
    requires CanStep(t, q) && Unfinished(t, c) && Unfinished(t, p) && (p == q ==> t.rest[p][0] == Await(c))
    ensures Unfinished(Step(t, q), p)
  {
  }

  lemma KillSupervised(t: System, uses: map<Pid, LockUse>, q: Pid)
    requires Supervised(t, uses) && !Orphans(t, uses, Die(q))
    ensures Supervised(Kill(t, q), uses)
  {
    forall p, c | p in uses && c in ChildrenOf(uses[p]) && Unfinished(Kill(t, q), c) ensures Unfinished(Kill(t, q), p) {
      assert Unfinished(t, c) && Unfinished(t, p);
      assert p == q ==> Orphans(t, uses, Die(q));
    }
  }

  /** A command whose dispatched command is running stands at it. */
  lemma RunningChild(t: System, uses: map<Pid, LockUse>, p: Pid, c: Pid)
    requires Following(t, uses) && p in uses && c in ChildrenOf(uses[p]) && Unfinished(t, c) && Unfinished(t, p)
    ensures t.rest[p][0] == Await(c)
  {
    hide Shaped;
    hide ProgramOf;
    hide Awaits;
    assert InTurn(t, uses[p], t.rest[p]);
    var i :| 0 <= i < |ChildrenOf(uses[p])| && ChildrenOf(uses[p])[i] == c;
  }

  lemma {:induction false} StaysSupervised(s: System, uses: map<Pid, LockUse>, events: seq<Event>)
    requires Known(uses) && Following(s, uses) && Supervised(s, uses) && NoneOrphaned(s, uses, events)
    ensures Supervised(Run(s, events), uses)
  {
    hide Following;
    hide Known;
    hide Step;
    hide CanStep;
    hide Kill;
    hide Supervised;
    hide Orphans;
    if events != [] {
      var n := |events| - 1;
      var t := Run(s, events[..n]);
      assert NoneOrphaned(s, uses, events[..n]) by {
        forall i | 0 <= i < n ensures !Orphans(Run(s, events[..n][..i]), uses, events[..n][i]) {
          assert events[..n][..i] == events[..i];
        }
      }
      StaysSupervised(s, uses, events[..n]);
      AlwaysFollows(s, uses, events[..n]);
      assert !Orphans(t, uses, events[n]);
      match events[n] {
        case Go(p) => if CanStep(t, p) { StepSupervised(t, uses, p); }
        case Die(p) => KillSupervised(t, uses, p);
      }
    }
  }

  lemma StuckAttended(t: System, uses: map<Pid, LockUse>)
    requires Known(uses) && Following(t, uses) && Supervised(t, uses)
    ensures Attended(uses, Alive(t))
  {
    hide Shaped;
    hide ProgramOf;
    hide Awaits;
    forall p, i, j | p in uses && 0 <= i < j < |ChildrenOf(uses[p])| && ChildrenOf(uses[p])[i] in Alive(t)
      ensures ChildrenOf(uses[p])[j] !in Alive(t)
    {
      assert InTurn(t, uses[p], t.rest[p]);
    }
  }
}
