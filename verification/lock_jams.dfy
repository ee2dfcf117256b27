/** The two ways in which the commands of a standstill come to block each other: all are in their places, or
    some of them would be in each other's way. */
module LockJams {
  import opened Wrappers
  import opened Protocol
  import opened Locks
  import opened LockUses
  import opened LockStandstills
  import opened LockSchedules
  import opened LockApproach
  import opened LockMoves

  // ------------------------------------------------------ all in place

  lemma ProgramTakes(u: LockUse)
    requires u.Route?
    ensures Acquire(RouteLock(u.run)) in ProgramOf(u)
  {
    var take := Acquire(RouteLock(u.run));
    EachKeeps(u.before, [take] + Each([SequenceLock, SequenceLock], UnderLock(u)), take);
  }

  lemma {:induction false} EachKeeps(locks: seq<Lock>, rest: Program, a: Action)
    requires a in rest
    ensures a in Each(locks, rest)
  {
    if locks != [] { EachKeeps(locks[1..], rest, a); }
  }

  lemma RoutePlaced(s: System, uses: map<Pid, LockUse>, ns: set<Pid>, p: Pid)
    requires Known(uses) && Coexist(uses, ns) && ns <= Kin(uses, ns) && Placed(s, uses, ns, p)
    requires p in ns && p in uses && uses[p].Route?
    ensures s.rest[p] != []
    ensures Holds(uses, ns, p) && uses[p].child.value in s.started ==> Stands(s, uses, p)
    ensures !Holds(uses, ns, p) ==> s.rest[p] == ProgramOf(uses[p])
  {
    ProgramNotEmpty(uses[p]);
    hide ProgramOf;
    hide Known;
    hide Line;
    if uses[p].child.Some? && uses[p].child.value in Kin(uses, ns) {
      assert uses[p].child.value in ChildrenOf(uses[p]);
      var n :| n in ns && uses[p].child.value in Line(uses, n);
      assert Holds(uses, ns, p);
    }
  }

  lemma DispatchPlaced(s: System, uses: map<Pid, LockUse>, ns: set<Pid>, p: Pid)
    requires Known(uses) && Blocked(uses, ns, p) && Placed(s, uses, ns, p) && p in ns && p in uses && uses[p].Dispatch?
    ensures s.rest[p] != []
  {
    hide Kin;
    hide Known;
    var c :| c in uses[p].children && c in ns;
    ProgramHasChild(uses[p], c);
    hide ProgramOf;
    if k: nat :| AtChild(s, uses[p], s.rest[p], k) { AtFirst(s, uses[p], s.rest[p], k); }
  }

  lemma StandstillBlocks(uses: map<Pid, LockUse>, ns: set<Pid>, p: Pid)
    requires Standstill(uses, ns) && p in ns
    ensures Blocked(uses, ns, p) && p in uses && !uses[p].Quick?
  {
  }

  /** Nobody of the set has ended, and who has its child started stands at it. */
  lemma MemberPlaced(s: System, uses: map<Pid, LockUse>, ns: set<Pid>, p: Pid)
    requires Setting(uses, ns) && Clean(s, uses, ns) && p in ns
    ensures Blocked(uses, ns, p) && p in uses && p in s.rest && s.rest[p] != []
    ensures Holds(uses, ns, p) && uses[p].child.value in s.started ==> Stands(s, uses, p)
    ensures uses[p].Route? && !Holds(uses, ns, p) ==> s.rest[p] == ProgramOf(uses[p])
    ensures Following(s, uses) && Placed(s, uses, ns, p) && p in Kin(uses, ns)
  {
    hide Setting;
    hide Known;
    hide Standstill;
    hide Coexist;
    hide Clean;
    hide Kin;
    hide Following;
    hide Placed;
    hide Blocked;
    hide ProgramOf;
    hide Stands;
    SettingKnown(uses, ns);
    InKin(uses, ns);
    CleanPlaced(s, uses, ns, p);
    RestKeys(s, uses, ns);
    StandstillBlocks(uses, ns, p);
    if uses[p].Route? {
      RoutePlaced(s, uses, ns, p);
    } else {
      DispatchPlaced(s, uses, ns, p);
    }
  }

  lemma AllStarted(s: System, uses: map<Pid, LockUse>, ns: set<Pid>)
    requires Setting(uses, ns) && Clean(s, uses, ns) && forall p :: !Due(s, uses, ns, p)
    ensures forall a :: a in Kin(uses, ns) ==> a in s.started
  {
    SettingKnown(uses, ns);
    hide Setting;
    hide Due;
    hide Kin;
    forall a | a in Kin(uses, ns) ensures a in s.started {
      if a !in s.started {
        CleanPlaced(s, uses, ns, a);
        hide Clean;
        var p, y := Frontier(s, uses, ns, a);
      }
    }
  }

  lemma DispatcherStops(s: System, uses: map<Pid, LockUse>, ns: set<Pid>, p: Pid, c: Pid)
    requires Known(uses) && Following(s, uses) && Placed(s, uses, ns, p) && p in uses && uses[p].Dispatch? && p in ns
    requires c in uses[p].children && c in s.started && c in s.rest && s.rest[c] != []
    ensures Await(c) in s.rest[p]
  {
    hide Following;
    hide Kin;
    var u := uses[p];
    var k: nat :| AtChild(s, u, s.rest[p], k);
    NextUnstarted(s, uses, p, k);
    var j :| 0 <= j < |u.children| && u.children[j] == c;
    WaitsAwaits(u.children[k..], u.records, []);
    assert u.children[k..][j - k] == c;
    AwaitsIn(s.rest[p], c);
  }

  lemma PlaceStops(s: System, uses: map<Pid, LockUse>, ns: set<Pid>, p: Pid)
    requires Setting(uses, ns) && Clean(s, uses, ns) && p in ns && forall n :: n in ns ==> n in s.started
    ensures StopsAt(s, uses, ns, p)
  {
    hide Setting;
    hide Known;
    hide Standstill;
    hide Coexist;
    hide Clean;
    hide Kin;
    hide Following;
    hide Placed;
    hide ProgramOf;
    hide Stands;
    SettingKnown(uses, ns);
    MemberPlaced(s, uses, ns, p);
    if Holds(uses, ns, p) {
      StandsAwaits(s, uses, p);
    } else if uses[p].Route? {
      var q :| Holds(uses, ns, q) && uses[q].run == uses[p].run;
      MemberPlaced(s, uses, ns, q);
      ProgramTakes(uses[p]);
    } else {
      var c :| c in uses[p].children && c in ns;
      MemberPlaced(s, uses, ns, c);
      DispatcherStops(s, uses, ns, p, c);
    }
  }

  lemma AllInPlace(s: System, uses: map<Pid, LockUse>, ns: set<Pid>)
    requires Setting(uses, ns) && Clean(s, uses, ns) && forall p :: !Due(s, uses, ns, p)
    ensures Doomed(s, uses, ns)
  {
    hide Clean;
    hide Kin;
    hide Due;
    hide StopsAt;
    hide Known;
    hide Coexist;
    AllStarted(s, uses, ns);
    InKin(uses, ns);
    forall p | p in ns ensures StopsAt(s, uses, ns, p) { PlaceStops(s, uses, ns, p); }
    var n :| n in ns;
  }

  lemma StandsAwaits(s: System, uses: map<Pid, LockUse>, p: Pid)
    requires Stands(s, uses, p)
    ensures Await(uses[p].child.value) in s.rest[p]
  {
  }

  // ------------------------------- where everybody would be in the way

  /** Both are due to take the lock of their run; and one who has to pass through the lock of m's is still to be
      started below p. */
  ghost predicate Leads(s: System, uses: map<Pid, LockUse>, ns: set<Pid>, m: Pid, p: Pid, z: Pid)
    requires Known(uses)
  {
    && IsMember(uses, ns, m) && IsMember(uses, ns, p) && Due(s, uses, ns, m) && Due(s, uses, ns, p)
    && Passing(uses, ns, z) && uses[z].run == uses[m].run && z !in s.started && p in Line(uses, z) && p != z
  }

  lemma PassingDue(s: System, uses: map<Pid, LockUse>, ns: set<Pid>, z: Pid)
    requires Known(uses) && Standstill(uses, ns) && Passing(uses, ns, z) && uses[z].child.value !in s.started
    ensures z in s.started ==> Due(s, uses, ns, z)
    ensures !IsMember(uses, ns, z)
  {
    PassingInKin(uses, ns, z);
    var c := KinDown(uses, ns, z);
    hide Kin;
    assert c == uses[z].child.value;
  }

  lemma LeadsOn(s: System, uses: map<Pid, LockUse>, ns: set<Pid>, m: Pid) returns (p: Pid, z: Pid)
    requires Setting(uses, ns) && Clean(s, uses, ns) && Due(s, uses, ns, m) && IsMember(uses, ns, m)
    requires !AllPassed(s, uses, ns, uses[m].run) && forall q :: Due(s, uses, ns, q) ==> IsMember(uses, ns, q)
    ensures Leads(s, uses, ns, m, p, z)
  {
    SettingKnown(uses, ns);
    z :| Passing(uses, ns, z) && uses[z].run == uses[m].run && uses[z].child.value !in s.started;
    PassingDue(s, uses, ns, z);
    PassingInKin(uses, ns, z);
    var c;
    CleanPlaced(s, uses, ns, z);
    hide Clean;
    hide Due;
    p, c := Frontier(s, uses, ns, z);
  }

  ghost predicate HasNext(s: System, uses: map<Pid, LockUse>, ns: set<Pid>, ds: set<Pid>, m: Pid)
    requires Known(uses)
  {
    exists p, z :: p in ds && Leads(s, uses, ns, m, p, z)
  }

  ghost predicate HasPrevious(s: System, uses: map<Pid, LockUse>, ns: set<Pid>, ds: set<Pid>, p: Pid)
    requires Known(uses)
  {
    exists m, z :: m in ds && Leads(s, uses, ns, m, p, z)
  }

  lemma NextHasPrevious(s: System, uses: map<Pid, LockUse>, ns: set<Pid>, ds: set<Pid>, core: set<Pid>, m: Pid)
    requires Known(uses) && m in ds && HasNext(s, uses, ns, ds, m)
    requires forall p :: p in core <==> p in ds && HasPrevious(s, uses, ns, ds, p)
    ensures HasNext(s, uses, ns, core, m)
  {
    hide Leads;
    hide Known;
    var p, z :| p in ds && Leads(s, uses, ns, m, p, z);
    assert HasPrevious(s, uses, ns, ds, p);
  }

  lemma HasSome(s: System, uses: map<Pid, LockUse>, ns: set<Pid>, ds: set<Pid>, m: Pid)
    requires Known(uses) && HasNext(s, uses, ns, ds, m)
    ensures ds != {}
  {
    hide Leads;
    hide Known;
  }

  /** Where each leads to one of a finite set, some lead to and are led to by each other. */
  lemma Core(s: System, uses: map<Pid, LockUse>, ns: set<Pid>, ds: set<Pid>) returns (core: set<Pid>)
    requires Known(uses) && ds != {} && forall m :: m in ds ==> HasNext(s, uses, ns, ds, m)
    ensures core != {} && core <= ds && forall p :: p in core ==> HasPrevious(s, uses, ns, core, p)
    decreases |ds|
  {
    hide HasNext;
    hide HasPrevious;
    hide Known;
    core := set p | p in ds && HasPrevious(s, uses, ns, ds, p);
    forall m | m in ds ensures HasNext(s, uses, ns, core, m) { NextHasPrevious(s, uses, ns, ds, core, m); }
    if core != ds {
      var m :| m in ds;
      HasSome(s, uses, ns, core, m);
      SubsetSize(core, ds);
      core := Core(s, uses, ns, core);
    }
  }

  ghost predicate DifferentRuns(uses: map<Pid, LockUse>, ms: set<Pid>) {
    && (forall p :: p in ms ==> p in uses && uses[p].Route?)
    && forall p, q :: p in ms && q in ms && p != q ==> uses[p].run != uses[q].run
  }

  /** The commands of ms have taken their locks, and nobody else has done anything. */
  ghost predicate TheyStand(s: System, t: System, uses: map<Pid, LockUse>, ms: set<Pid>) {
    && RoutesOnly(t) && s.started <= t.started && (forall p :: p in ms ==> Stands(t, uses, p))
    && (forall x :: x in s.rest && x !in ms ==> x in t.rest && t.rest[x] == s.rest[x])
    && (forall x :: x in s.rest ==> x in t.rest)
    && (forall l :: l in t.holder && l !in s.holder ==>
          exists p :: p in ms && p in uses && uses[p].Route? && l == RouteLock(uses[p].run))
    && forall c :: c in t.started && c !in s.started ==> exists p :: p in ms && p in uses && c in ChildrenOf(uses[p])
  }

  lemma NextReady(s: System, t: System, uses: map<Pid, LockUse>, ms: set<Pid>, p: Pid)
    requires Known(uses) && TheyStand(s, t, uses, ms) && MayEnter(s, uses, p) && p !in ms && DifferentRuns(uses, ms + {p})
    ensures MayEnter(t, uses, p)
  {
    hide Stands;
    hide ProgramOf;
    var c := uses[p].child.value;
    assert c in ChildrenOf(uses[p]);
    forall q | q in ms && q in uses && c in ChildrenOf(uses[q]) ensures q == p { OneDispatcher(uses, p, q, c); }
    hide Known;
    forall q | q in ms ensures q in uses && uses[q].Route? && uses[q].run != uses[p].run {
      assert p in ms + {p} && q in ms + {p};
    }
  }

  lemma StandsOn(t: System, uses: map<Pid, LockUse>, p: Pid, q: Pid)
    requires Stands(t, uses, q) && q != p && p in uses && uses[p].Route? && uses[p].child.Some? && uses[q].run != uses[p].run
    ensures Stands(Entered(t, uses, p), uses, q)
  {
    hide UnderLock;
  }

  lemma OneMoreStands(s: System, t: System, uses: map<Pid, LockUse>, ms: set<Pid>, p: Pid)
    requires TheyStand(s, t, uses, ms) && MayEnter(t, uses, p) && p !in ms && DifferentRuns(uses, ms + {p})
    requires Stands(Entered(t, uses, p), uses, p)
    ensures TheyStand(s, Entered(t, uses, p), uses, ms + {p})
  {
    hide ProgramOf;
    hide UnderLock;
    var t' := Entered(t, uses, p);
    forall q | q in ms ensures Stands(t', uses, q) {
      assert q in ms + {p} && p in ms + {p};
      StandsOn(t, uses, p, q);
    }
    hide Stands;
    hide MayEnter;
    forall l | l in t'.holder && l !in s.holder
      ensures exists q :: q in ms + {p} && q in uses && uses[q].Route? && l == RouteLock(uses[q].run)
    {
      if l != RouteLock(uses[p].run) {
        var q :| q in ms && q in uses && uses[q].Route? && l == RouteLock(uses[q].run);
        assert q in ms + {p};
      } else {
        assert p in ms + {p};
      }
    }
    forall c | c in t'.started && c !in s.started ensures exists q :: q in ms + {p} && q in uses && c in ChildrenOf(uses[q]) {
      if c != uses[p].child.value {
        var q :| q in ms && q in uses && c in ChildrenOf(uses[q]);
        assert q in ms + {p};
      } else {
        assert p in ms + {p} && c in ChildrenOf(uses[p]);
      }
    }
  }

  lemma EnterAll(s: System, uses: map<Pid, LockUse>, ms: set<Pid>) returns (events: seq<Event>)
    requires Known(uses) && RoutesOnly(s) && DifferentRuns(uses, ms) && forall p :: p in ms ==> MayEnter(s, uses, p)
    ensures GoOnly(events) && TheyStand(s, Run(s, events), uses, ms)
    decreases |ms|
  {
    hide Known;
    hide MayEnter;
    if ms == {} {
      events := [];
    } else {
      var p :| p in ms;
      var others := ms - {p};
      assert others + {p} == ms;
      assert DifferentRuns(uses, others);
      var first := EnterAll(s, uses, others);
      var t := Run(s, first);
      NextReady(s, t, uses, others, p);
      hide Run;
      assert RoutesOnly(t);
      var last := Enter(t, uses, p);
      OneMoreStands(s, t, uses, others, p);
      hide TheyStand;
      hide DifferentRuns;
      RunAppend(s, first, last);
      events := first + last;
    }
  }

  /** On the way from one of ms down to one who has to pass through the lock of another. */
  ghost predicate OnTheWay(s: System, uses: map<Pid, LockUse>, ns: set<Pid>, ms: set<Pid>, x: Pid)
    requires Known(uses)
  {
    exists m, p, z :: m in ms && p in ms && Leads(s, uses, ns, m, p, z) && x in Line(uses, z) && x !in Line(uses, p)
  }

  ghost function JamOf(s: System, uses: map<Pid, LockUse>, ns: set<Pid>, ms: set<Pid>): set<Pid>
    requires Known(uses)
  {
    ms + set x | x in uses && OnTheWay(s, uses, ns, ms, x)
  }

  /** Nobody below p on the line is started when p's own child is not. */
  lemma BelowUnstarted(s: System, uses: map<Pid, LockUse>, p: Pid, z: Pid, x: Pid)
    requires Known(uses) && Following(s, uses) && p in uses && uses[p].Route? && uses[p].child.Some?
    requires uses[p].child.value !in s.started && p in Line(uses, z) && p != z && x in Line(uses, z) && x !in Line(uses, p)
    ensures x !in s.started
  {
    hide Following;
    var y := LineNext(uses, z, p);
    LineTotal(uses, z, x, y);
    LineUp(uses, p, y);
    SelfInLine(uses, y);
    if x in s.started {
      if y in Line(uses, x) {
        LineStarted(s, uses, x, y);
      }
    }
  }

  /** The child of who is led to is on the way. */
  lemma ChildOnTheWay(s: System, uses: map<Pid, LockUse>, ns: set<Pid>, ms: set<Pid>, p: Pid)
    requires Known(uses) && p in ms && HasPrevious(s, uses, ns, ms, p)
    ensures p in uses && uses[p].Route? && uses[p].child.Some?
    ensures uses[p].child.value in uses && OnTheWay(s, uses, ns, ms, uses[p].child.value)
  {
    hide Due;
    hide Passing;
    var m, z :| m in ms && Leads(s, uses, ns, m, p, z);
    var y := LineNext(uses, z, p);
    OwnChild(uses, p, y);
    if y in Line(uses, p) { LineTop(uses, p, y); }
  }

  lemma LeadsFacts(s: System, uses: map<Pid, LockUse>, ns: set<Pid>, m: Pid, p: Pid, z: Pid)
    requires Known(uses) && Leads(s, uses, ns, m, p, z)
    ensures Due(s, uses, ns, p) && p in uses && uses[p].Route? && Due(s, uses, ns, m) && m in uses && uses[m].Route?
    ensures IsMember(uses, ns, p) && IsMember(uses, ns, m)
    ensures z in uses && uses[z].Route? && uses[z].run == uses[m].run && z !in s.started && p in Line(uses, z) && p != z
  {
    hide Kin;
    hide Due;
    hide Known;
  }

  /** A command on the way is as it was, and not started. */
  lemma WayWhole(s: System, uses: map<Pid, LockUse>, ns: set<Pid>, p: Pid, z: Pid, x: Pid)
    requires Setting(uses, ns) && Clean(s, uses, ns) && Due(s, uses, ns, p) && p in uses && uses[p].Route? && x in uses
    requires p in Line(uses, z) && p != z && x in Line(uses, z) && x !in Line(uses, p)
    ensures x !in s.started && x in s.rest && s.rest[x] == ProgramOf(uses[x])
  {
    hide Setting;
    hide Clean;
    hide Due;
    hide Kin;
    hide Known;
    hide ProgramOf;
    hide Following;
    hide Placed;
    SettingKnown(uses, ns);
    DueRoute(s, uses, ns, p);
    DueKind(s, uses, ns, p);
    CleanPlaced(s, uses, ns, p);
    BelowUnstarted(s, uses, p, z, x);
    UnstartedWhole(s, uses, x);
  }

  /** Below x on the way there is another. */
  lemma WayGoesOn(s: System, uses: map<Pid, LockUse>, ns: set<Pid>, ms: set<Pid>, m: Pid, p: Pid, z: Pid, x: Pid) returns (y: Pid)
    requires Known(uses) && m in ms && p in ms && Leads(s, uses, ns, m, p, z)
    requires x in Line(uses, z) && x !in Line(uses, p) && x != z
    ensures x in uses && y in uses && y in ChildrenOf(uses[x]) && OnTheWay(s, uses, ns, ms, y)
  {
    hide Leads;
    y := LineNext(uses, z, x);
    OwnChild(uses, x, y);
    if y in Line(uses, p) { LineTrans(uses, p, y, x); }
  }

  lemma WayStops(s: System, t: System, uses: map<Pid, LockUse>, ns: set<Pid>, ms: set<Pid>, x: Pid)
    requires Setting(uses, ns) && Clean(s, uses, ns) && TheyStand(s, t, uses, ms) && x in uses
    requires OnTheWay(s, uses, ns, ms, x) && forall p :: p in ms ==> HasPrevious(s, uses, ns, ms, p) && p in s.started
    ensures StopsAt(t, uses, JamOf(s, uses, ns, ms), x)
  {
    hide Setting;
    hide Clean;
    hide Known;
    hide Leads;
    hide Due;
    hide Stands;
    hide ProgramOf;
    hide HasPrevious;
    SettingKnown(uses, ns);
    hide Coexist;
    hide Standstill;
    var m, p, z :| m in ms && p in ms && Leads(s, uses, ns, m, p, z) && x in Line(uses, z) && x !in Line(uses, p);
    LeadsFacts(s, uses, ns, m, p, z);
    WayWhole(s, uses, ns, p, z, x);
    assert t.rest[x] == ProgramOf(uses[x]);
    if x == z {
      ProgramTakes(uses[x]);
      ChildOnTheWay(s, uses, ns, ms, m);
      hide OnTheWay;
      assert Stands(t, uses, m);
    } else {
      var y := WayGoesOn(s, uses, ns, ms, m, p, z, x);
      hide OnTheWay;
      ProgramHasChild(uses[x], y);
    }
  }

  lemma UnstartedWhole(s: System, uses: map<Pid, LockUse>, x: Pid)
    requires Following(s, uses) && x in uses && x !in s.started
    ensures x in s.rest && s.rest[x] == ProgramOf(uses[x])
  {
    hide Shaped;
    hide InTurn;
    hide ProgramOf;
  }

  lemma MembersReady(s: System, uses: map<Pid, LockUse>, ns: set<Pid>, p: Pid)
    requires Setting(uses, ns) && Clean(s, uses, ns) && Due(s, uses, ns, p) && IsMember(uses, ns, p)
    ensures MayEnter(s, uses, p) && Holds(uses, ns, p)
  {
    SettingKnown(uses, ns);
    DueRoute(s, uses, ns, p);
    MemberFree(s, uses, ns, p);
    hide Clean;
    hide Kin;
    hide Due;
    hide ProgramOf;
  }

  lemma CoreReady(s: System, uses: map<Pid, LockUse>, ns: set<Pid>, ms: set<Pid>, p: Pid)
    requires Setting(uses, ns) && Clean(s, uses, ns) && p in ms && HasPrevious(s, uses, ns, ms, p)
    ensures MayEnter(s, uses, p) && Holds(uses, ns, p) && p in s.started
  {
    hide Setting;
    hide Clean;
    hide Known;
    hide Leads;
    hide Due;
    SettingKnown(uses, ns);
    var m, z :| m in ms && Leads(s, uses, ns, m, p, z);
    LeadsFacts(s, uses, ns, m, p, z);
    MembersReady(s, uses, ns, p);
  }

  lemma HoldersDiffer(uses: map<Pid, LockUse>, ns: set<Pid>, ms: set<Pid>)
    requires Standstill(uses, ns) && forall p :: p in ms ==> Holds(uses, ns, p)
    ensures DifferentRuns(uses, ms)
  {
    hide Blocked;
  }

  lemma JamStops(s: System, t: System, uses: map<Pid, LockUse>, ns: set<Pid>, ms: set<Pid>, x: Pid)
    requires Setting(uses, ns) && Clean(s, uses, ns) && TheyStand(s, t, uses, ms) && x in JamOf(s, uses, ns, ms)
    requires forall p :: p in ms ==> HasPrevious(s, uses, ns, ms, p) && p in s.started
    ensures StopsAt(t, uses, JamOf(s, uses, ns, ms), x)
  {
    hide Setting;
    hide Clean;
    hide Known;
    hide HasPrevious;
    hide OnTheWay;
    SettingKnown(uses, ns);
    hide Coexist;
    hide Standstill;
    if x in ms {
      ChildOnTheWay(s, uses, ns, ms, x);
      assert Stands(t, uses, x);
      StandsAwaits(t, uses, x);
    } else {
      WayStops(s, t, uses, ns, ms, x);
    }
  }

  /** Those that lead to each other take their locks, and that is enough. */
  lemma JamReached(s: System, uses: map<Pid, LockUse>, ns: set<Pid>, ms: set<Pid>) returns (events: seq<Event>, ds: set<Pid>)
    requires Setting(uses, ns) && Clean(s, uses, ns) && ms != {} && forall p :: p in ms ==> HasPrevious(s, uses, ns, ms, p)
    ensures GoOnly(events) && Doomed(Run(s, events), uses, ds)
  {
    hide Setting;
    hide Clean;
    hide Known;
    hide HasPrevious;
    hide OnTheWay;
    hide MayEnter;
    hide Run;
    hide StopsAt;
    SettingKnown(uses, ns);
    hide Coexist;
    CleanHolders(s, uses, ns);
    forall p | p in ms ensures MayEnter(s, uses, p) && Holds(uses, ns, p) && p in s.started { CoreReady(s, uses, ns, ms, p); }
    HoldersDiffer(uses, ns, ms);
    hide Standstill;
    hide DifferentRuns;
    events := EnterAll(s, uses, ms);
    var t := Run(s, events);
    ds := JamOf(s, uses, ns, ms);
    forall x | x in ds ensures StopsAt(t, uses, ds, x) { JamStops(s, t, uses, ns, ms, x); }
    var p :| p in ms;
    assert p in ds && p in t.started;
  }
}
