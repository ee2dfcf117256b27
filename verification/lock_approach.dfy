/** How the commands of a standstill are brought into their places: the ones that dispatch them are started,
    and killed where they are not of the set; and a run's lock is taken for good only once nobody on the way
    still needs it. */
module LockApproach {
  import opened Wrappers
  import opened Protocol
  import opened Locks
  import opened LockUses
  import opened LockStandstills
  import opened LockSchedules

  // ------------------------------------------------------------- lines

  lemma {:induction false} LineTop(uses: map<Pid, LockUse>, n: Pid, x: Pid)
    requires Known(uses) && x in Line(uses, n)
    ensures x <= n && n in Line(uses, n) && (n in uses ==> x in uses)
    decreases n
  {
    if p :| p in uses && n in ChildrenOf(uses[p]) {
      LineUp(uses, p, n);
      OwnChild(uses, p, n);
      if x != n { LineTop(uses, p, x); }
    }
  }

  lemma SelfInLine(uses: map<Pid, LockUse>, n: Pid)
    requires Known(uses)
    ensures n in Line(uses, n)
  {
  }

  lemma {:induction false} LineTrans(uses: map<Pid, LockUse>, n: Pid, x: Pid, p: Pid)
    requires Known(uses) && x in Line(uses, n) && p in uses && x in ChildrenOf(uses[p])
    ensures p in Line(uses, n)
    decreases n
  {
    if x == n {
      LineUp(uses, p, n);
      SelfInLine(uses, p);
    } else {
      var q :| q in uses && n in ChildrenOf(uses[q]);
      LineUp(uses, q, n);
      OwnChild(uses, q, n);
      LineTrans(uses, q, x, p);
    }
  }

  /** Whoever is on the line of z above z dispatches one who is. */
  lemma {:induction false} LineNext(uses: map<Pid, LockUse>, z: Pid, x: Pid) returns (y: Pid)
    requires Known(uses) && x in Line(uses, z) && x != z
    ensures y in Line(uses, z) && x in uses && y in ChildrenOf(uses[x])
    decreases z
  {
    var p :| p in uses && z in ChildrenOf(uses[p]);
    LineUp(uses, p, z);
    OwnChild(uses, p, z);
    if x == p {
      y := z;
    } else {
      y := LineNext(uses, p, x);
    }
  }

  lemma {:induction false} LineTotal(uses: map<Pid, LockUse>, z: Pid, x: Pid, y: Pid)
    requires Known(uses) && x in Line(uses, z) && y in Line(uses, z)
    ensures x in Line(uses, y) || y in Line(uses, x)
    decreases z
  {
    if x != z && y != z {
      var p :| p in uses && z in ChildrenOf(uses[p]);
      LineUp(uses, p, z);
      OwnChild(uses, p, z);
      LineTotal(uses, p, x, y);
    }
  }

  // --------------------------------------------------------------- kin

  ghost predicate Above(uses: map<Pid, LockUse>, ns: set<Pid>, a: Pid)
    requires Known(uses)
  {
    exists n :: n in ns && a in Line(uses, n)
  }

  /** The commands of the set and all that lead to them. */
  ghost function Kin(uses: map<Pid, LockUse>, ns: set<Pid>): set<Pid>
    requires Known(uses)
  {
    set a | a in uses && Above(uses, ns, a)
  }

  ghost predicate Setting(uses: map<Pid, LockUse>, ns: set<Pid>) {
    Known(uses) && Standstill(uses, ns) && Coexist(uses, ns)
  }

  lemma InKin(uses: map<Pid, LockUse>, ns: set<Pid>)
    requires Known(uses) && Standstill(uses, ns)
    ensures ns <= Kin(uses, ns)
  {
    forall n | n in ns ensures n in Kin(uses, ns) {
      assert Blocked(uses, ns, n);
      SelfInLine(uses, n);
      assert Above(uses, ns, n);
    }
  }

  lemma KinUp(uses: map<Pid, LockUse>, ns: set<Pid>, p: Pid, c: Pid)
    requires Known(uses) && c in Kin(uses, ns) && p in uses && c in ChildrenOf(uses[p])
    ensures p in Kin(uses, ns)
  {
    var n :| n in ns && c in Line(uses, n);
    LineTrans(uses, n, c, p);
    assert Above(uses, ns, p);
  }

  lemma KinLine(uses: map<Pid, LockUse>, ns: set<Pid>, a: Pid, x: Pid)
    requires Known(uses) && a in Kin(uses, ns) && x in Line(uses, a)
    ensures x in Kin(uses, ns)
    decreases a
  {
    if x != a {
      var p :| p in uses && a in ChildrenOf(uses[p]);
      LineUp(uses, p, a);
      OwnChild(uses, p, a);
      KinUp(uses, ns, p, a);
      KinLine(uses, ns, p, x);
    }
  }

  /** Who leads to one of the set without being of it dispatches one who does or is. */
  lemma KinDown(uses: map<Pid, LockUse>, ns: set<Pid>, a: Pid) returns (c: Pid)
    requires Known(uses) && Standstill(uses, ns) && a in Kin(uses, ns) && a !in ns
    ensures c in Kin(uses, ns) && c in ChildrenOf(uses[a])
  {
    var n :| n in ns && a in Line(uses, n);
    c := LineNext(uses, n, a);
    OwnChild(uses, a, c);
    assert Above(uses, ns, c);
  }

  lemma AttendedKin(uses: map<Pid, LockUse>, ns: set<Pid>)
    requires Known(uses) && Attended(uses, ns)
    ensures Kin(uses, ns) <= ns
  {
    forall a | a in Kin(uses, ns) ensures a in ns {
      var n :| n in ns && a in Line(uses, n);
      AttendedLine(uses, ns, n);
    }
  }

  // ------------------------------------------------------------ places

  /** Where a command that leads to the set may stand: a routing command has not begun, or its child is started,
      and then it waits for it under its lock or is dead; a dispatching one has not begun, or has started some
      child, or is dead and has started all it had to. */
  ghost predicate Placed(s: System, uses: map<Pid, LockUse>, ns: set<Pid>, a: Pid)
    requires Known(uses)
  {
    && a in uses && a in s.rest
    && match uses[a]
       case Quick(_) => true
       case Route(_, _, child, _, _) =>
         if child.Some? && child.value in Kin(uses, ns) then
           if child.value !in s.started then s.rest[a] == ProgramOf(uses[a])
           else if a in ns then Stands(s, uses, a)
           else s.rest[a] == []
         else a in ns ==> s.rest[a] == ProgramOf(uses[a])
       case Dispatch(_, children, _) =>
         || (s.rest[a] == ProgramOf(uses[a]) && forall c :: c in children ==> c !in s.started)
         || (exists k :: AtChild(s, uses[a], s.rest[a], k))
         || (s.rest[a] == [] && a !in ns && forall c :: c in children && c in Kin(uses, ns) ==> c in s.started)
  }

  /** A routing command that leads to the set without being of it. */
  ghost predicate Passing(uses: map<Pid, LockUse>, ns: set<Pid>, z: Pid)
    requires Known(uses)
  {
    z in Kin(uses, ns) && z in uses && z !in ns && uses[z].Route? && uses[z].child.Some?
  }

  /** Whoever has to pass through the lock of the run has passed. */
  ghost predicate AllPassed(s: System, uses: map<Pid, LockUse>, ns: set<Pid>, r: RunId)
    requires Known(uses)
  {
    forall z :: Passing(uses, ns, z) && uses[z].run == r ==> uses[z].child.value in s.started
  }

  /** The lock is that of a run in which one of the set stands, and everybody who had to pass has passed. */
  ghost predicate WellHeld(s: System, uses: map<Pid, LockUse>, ns: set<Pid>, l: Lock)
    requires Known(uses)
  {
    && l in s.holder && l.RouteLock?
    && Holds(uses, ns, s.holder[l]) && uses[s.holder[l]].run == l.run && Stands(s, uses, s.holder[l])
    && AllPassed(s, uses, ns, l.run)
  }

  ghost predicate Clean(s: System, uses: map<Pid, LockUse>, ns: set<Pid>)
    requires Known(uses)
  {
    && Following(s, uses)
    && (forall l :: l in s.holder ==> WellHeld(s, uses, ns, l))
    && (forall a :: a in Kin(uses, ns) ==> Placed(s, uses, ns, a))
    && forall p, c :: p in uses && p !in Kin(uses, ns) && c in ChildrenOf(uses[p]) ==> c !in s.started
  }

  lemma FreshClean(s: System, uses: map<Pid, LockUse>, ns: set<Pid>)
    requires Fresh(s, uses)
    ensures Clean(s, uses, ns)
  {
    hide Following;
    hide ProgramOf;
    hide Kin;
    FreshFollows(s, uses);
    assert s.holder == map[];
    forall p, c | p in uses && c in ChildrenOf(uses[p]) ensures c !in s.started { assert Dispatched(uses, c); }
    KinUses(uses, ns);
    forall a | a in Kin(uses, ns) ensures Placed(s, uses, ns, a) { FreshPlaced(s, uses, ns, a); }
    hide Fresh;
    hide Placed;
  }

  lemma FreshPlaced(s: System, uses: map<Pid, LockUse>, ns: set<Pid>, a: Pid)
    requires Fresh(s, uses) && a in uses
    ensures Placed(s, uses, ns, a)
  {
    hide ProgramOf;
    hide Kin;
    hide Stands;
    forall c | c in ChildrenOf(uses[a]) ensures c !in s.started { assert Dispatched(uses, c); }
    hide Known;
  }

  lemma CleanHolders(s: System, uses: map<Pid, LockUse>, ns: set<Pid>)
    requires Known(uses) && Clean(s, uses, ns)
    ensures RoutesOnly(s) && forall l :: l in s.holder ==> s.holder[l] in ns && s.holder[l] in uses && uses[s.holder[l]].Route?
  {
    hide Following;
    hide Kin;
    hide Stands;
    hide Placed;
  }

  /** What a move of p leaves as it is. */
  ghost predicate MovesOnly(s: System, t: System, uses: map<Pid, LockUse>, p: Pid) {
    && p in uses && s.started <= t.started
    && (forall c :: c in t.started && c !in s.started ==> c in ChildrenOf(uses[p]))
    && (forall x :: x in uses && x != p ==> x in s.rest && x in t.rest && t.rest[x] == s.rest[x])
    && (forall l :: l in s.holder ==> l in t.holder && t.holder[l] == s.holder[l] && s.holder[l] != p)
  }

  lemma OthersStand(s: System, t: System, uses: map<Pid, LockUse>, p: Pid, x: Pid)
    requires MovesOnly(s, t, uses, p) && x in uses && x != p && Stands(s, uses, x)
    ensures Stands(t, uses, x)
  {
  }

  lemma OthersPlaced(s: System, t: System, uses: map<Pid, LockUse>, ns: set<Pid>, p: Pid, x: Pid)
    requires Known(uses) && MovesOnly(s, t, uses, p) && x in uses && x != p && Placed(s, uses, ns, x)
    ensures Placed(t, uses, ns, x)
  {
    hide Stands;
    hide ProgramOf;
    hide Kin;
    forall c | c in ChildrenOf(uses[x]) ensures c in t.started <==> c in s.started {
      if c in t.started && c !in s.started { OneDispatcher(uses, p, x, c); }
    }
    hide Known;
    if Stands(s, uses, x) { OthersStand(s, t, uses, p, x); }
    match uses[x]
    case Quick(_) =>
    case Route(_, _, child, _, _) =>
      assert child.Some? ==> child.value in ChildrenOf(uses[x]);
    case Dispatch(_, children, _) =>
      if k :| AtChild(s, uses[x], s.rest[x], k) {
        assert AtChild(t, uses[x], t.rest[x], k);
      }
  }

  lemma Moved(s: System, t: System, uses: map<Pid, LockUse>, ns: set<Pid>, p: Pid)
    requires Known(uses) && Clean(s, uses, ns) && Following(t, uses) && MovesOnly(s, t, uses, p)
    requires if p in Kin(uses, ns) then Placed(t, uses, ns, p) else t.started == s.started
    requires forall l :: l in t.holder && l !in s.holder ==> WellHeld(t, uses, ns, l)
    ensures Clean(t, uses, ns)
  {
    hide Following;
    hide Kin;
    hide Stands;
    hide Placed;
    forall l | l in t.holder ensures WellHeld(t, uses, ns, l) {
      if l in s.holder {
        assert WellHeld(s, uses, ns, l);
        OthersStand(s, t, uses, p, s.holder[l]);
      }
    }
    hide WellHeld;
    forall a | a in Kin(uses, ns) ensures Placed(t, uses, ns, a) {
      if a != p {
        assert a in uses by { KinUses(uses, ns); }
        OthersPlaced(s, t, uses, ns, p, a);
      }
    }
    forall q, c | q in uses && q !in Kin(uses, ns) && c in ChildrenOf(uses[q]) ensures c !in t.started {
      if c in t.started && c !in s.started { OneDispatcher(uses, p, q, c); }
    }
  }

  lemma KinUses(uses: map<Pid, LockUse>, ns: set<Pid>)
    requires Known(uses)
    ensures Kin(uses, ns) <= uses.Keys
  {
  }

  // ----------------------------------------------------- what is left

  function Open(s: System, uses: map<Pid, LockUse>): set<Pid> {
    set p | p in uses && p in s.rest && s.rest[p] != []
  }

  /** The commands not started and those not ended. */
  function Left(s: System, uses: map<Pid, LockUse>): nat {
    |uses.Keys - s.started| + |Open(s, uses)|
  }

  lemma SubsetSize(a: set<Pid>, b: set<Pid>)
    requires a <= b
    ensures |a| <= |b| && (a != b ==> |a| < |b|)
    decreases b
  {
    if x :| x in b {
      SubsetSize(a - {x}, b - {x});
      assert x in a ==> a == (a - {x}) + {x};
      assert x !in a ==> a - {x} == a;
      assert b == (b - {x}) + {x};
    }
  }

  lemma LeftFalls(s: System, t: System, uses: map<Pid, LockUse>, p: Pid)
    requires MovesOnly(s, t, uses, p) && p in s.rest && s.rest[p] != []
    requires (p in t.rest && t.rest[p] == []) || exists c :: c in uses && c in t.started && c !in s.started
    ensures Left(t, uses) < Left(s, uses)
  {
    SubsetSize(Open(t, uses), Open(s, uses));
    SubsetSize(uses.Keys - t.started, uses.Keys - s.started);
    if c :| c in uses && c in t.started && c !in s.started {
      assert c in uses.Keys - s.started && c !in uses.Keys - t.started;
    } else {
      assert p in Open(s, uses) && p !in Open(t, uses);
    }
  }

  // --------------------------------------------------------- who is due

  /** A started command that still has to start one that leads to the set. */
  ghost predicate Due(s: System, uses: map<Pid, LockUse>, ns: set<Pid>, p: Pid)
    requires Known(uses)
  {
    p in Kin(uses, ns) && p in s.started && exists c :: c in ChildrenOf(uses[p]) && c in Kin(uses, ns) && c !in s.started
  }

  /** Above whoever is not started somebody is due. */
  lemma {:induction false} Frontier(s: System, uses: map<Pid, LockUse>, ns: set<Pid>, a: Pid) returns (p: Pid, y: Pid)
    requires Known(uses) && Following(s, uses) && a in Kin(uses, ns) && a !in s.started
    ensures p in uses && p in Line(uses, a) && y in Line(uses, a) && y in ChildrenOf(uses[p]) && y !in s.started
    ensures p != a && Due(s, uses, ns, p)
    decreases a
  {
    KinUses(uses, ns);
    assert Dispatched(uses, a) by {
      hide Shaped;
      hide InTurn;
      hide ProgramOf;
    }
    hide Following;
    p :| p in uses && a in ChildrenOf(uses[p]);
    KinUp(uses, ns, p, a);
    LineUp(uses, p, a);
    OwnChild(uses, p, a);
    SelfInLine(uses, p);
    if p in s.started {
      y := a;
    } else {
      LineTop(uses, p, p);
      p, y := Frontier(s, uses, ns, p);
      LineTop(uses, a, p);
      assert p != a by { BelowTop(uses, a, p); }
    }
  }

  lemma BelowTop(uses: map<Pid, LockUse>, a: Pid, p: Pid)
    requires Known(uses) && exists q :: q in uses && a in ChildrenOf(uses[q]) && p in Line(uses, q)
    ensures p < a
  {
    var q :| q in uses && a in ChildrenOf(uses[q]) && p in Line(uses, q);
    LineTop(uses, q, p);
    OwnChild(uses, q, a);
  }
}
