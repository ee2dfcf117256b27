/** Small systems of commands that deadlock, or do not although they seem to. */
module LockExamples {
  import opened Wrappers
  import opened Protocol
  import opened Locks
  import opened LockUses
  import opened LockStandstills
  import opened LockSchedules
  import opened LockApproach
  import opened LockMoves
  import opened LockJams
  import opened LockDeadlocks

  ghost function Begin(uses: map<Pid, LockUse>): System {
    System(map p | p in uses :: ProgramOf(uses[p]), map[], set p | p in uses && !Dispatched(uses, p))
  }

  lemma BeginFresh(uses: map<Pid, LockUse>)
    requires Known(uses)
    ensures Fresh(Begin(uses), uses)
  {
    hide ProgramOf;
    assert Begin(uses).rest.Keys == uses.Keys;
  }

  /** It holds the lock of its run, cannot step, and what it started is not finished. */
  ghost predicate StandsAt(t: System, uses: map<Pid, LockUse>, p: Pid) {
    Stands(t, uses, p) && !CanStep(t, p) && Unfinished(t, uses[p].child.value)
  }

  lemma {:induction false} StandsForever(t: System, uses: map<Pid, LockUse>, ds: set<Pid>, q: Pid, events: seq<Event>)
    requires Known(uses) && Following(t, uses) && Doomed(t, uses, ds) && GoOnly(events)
    requires q in ds && Stands(t, uses, q) && uses[q].child.value in ds
    ensures StandsAt(Run(t, events), uses, q)
  {
    hide Following;
    hide Known;
    DoomedForever(t, uses, ds, events);
    DoomedUnfinished(Run(t, events), uses, ds, uses[q].child.value);
    if events != [] {
      var before, last := events[..|events| - 1], events[|events| - 1];
      assert last in events && forall e :: e in before ==> e in events;
      StandsForever(t, uses, ds, q, before);
      DoomedForever(t, uses, ds, before);
      AlwaysFollows(t, uses, before);
      var u := Run(t, before);
      hide Doomed;
      hide CanStep;
      if CanStep(u, last.p) { StillStands(u, uses, ds, q, last.p); }
    }
  }

  /** Whoever stands over another of a doomed set stands there whatever comes later. */
  lemma StandsOnAndOn(s: System, uses: map<Pid, LockUse>, ds: set<Pid>, q: Pid, events: seq<Event>)
    requires Known(uses) && Following(s, uses) && Doomed(Run(s, events), uses, ds)
    requires q in ds && Stands(Run(s, events), uses, q) && uses[q].child.value in ds
    ensures forall later :: GoOnly(later) ==> StandsAt(Run(s, events + later), uses, q)
  {
    hide Known;
    hide Following;
    hide Doomed;
    hide Stands;
    hide StandsAt;
    hide GoOnly;
    AlwaysFollows(s, uses, events);
    hide Run;
    forall later | GoOnly(later) ensures StandsAt(Run(s, events + later), uses, q) {
      RunAppend(s, events, later);
      StandsForever(Run(s, events), uses, ds, q, later);
    }
  }

  // ------------------------------------------ routing where one is awaited

  /** Nobody dispatches p; it routes in r and dispatches c, which routes in r'. */
  ghost predicate RoutesOver(uses: map<Pid, LockUse>, p: Pid, r: RunId, c: Pid, r': RunId) {
    && p in uses && !Dispatched(uses, p) && uses[p].Route? && uses[p].run == r && uses[p].child == Some(c)
    && c in uses && uses[c].Route? && uses[c].run == r'
  }

  lemma RootMayEnter(s: System, uses: map<Pid, LockUse>, p: Pid, r: RunId, c: Pid, r': RunId)
    requires Fresh(s, uses) && RoutesOver(uses, p, r, c, r')
    ensures MayEnter(s, uses, p) && RoutesOnly(s) && c !in s.started && c in s.rest && s.rest[c] == ProgramOf(uses[c])
  {
    hide ProgramOf;
    assert c in ChildrenOf(uses[p]);
  }

  /** p stands over c, which still wants the lock of its run, or of that of another of ds that stands. */
  lemma OverStops(t: System, uses: map<Pid, LockUse>, ds: set<Pid>, p: Pid, r: RunId, c: Pid, r': RunId, q: Pid)
    requires RoutesOver(uses, p, r, c, r') && Stands(t, uses, p) && p in ds && c in ds
    requires c in t.rest && t.rest[c] == ProgramOf(uses[c])
    requires q in ds && Stands(t, uses, q) && uses[q].child.value in ds && uses[q].run == r'
    ensures StopsAt(t, uses, ds, p) && StopsAt(t, uses, ds, c)
  {
    hide ProgramOf;
    StandsAwaits(t, uses, p);
    ProgramTakes(uses[c]);
    hide Stands;
  }

  /** In any system, a dispatched command that routes in the run that dispatched it stops both for ever. */
  lemma RoutingDispatchDeadlocks(s: System, uses: map<Pid, LockUse>, p: Pid, r: RunId, c: Pid) returns (events: seq<Event>)
    requires Fresh(s, uses) && RoutesOver(uses, p, r, c, r)
    ensures GoOnly(events) && forall later :: GoOnly(later) ==> StandsAt(Run(s, events + later), uses, p)
  {
    hide Fresh;
    hide Known;
    hide ProgramOf;
    hide UnderLock;
    hide Following;
    hide MayEnter;
    hide RoutesOnly;
    hide StandsAt;
    hide Stands;
    hide GoOnly;
    hide Run;
    FreshKnown(s, uses);
    var ds := {p, c};
    RootMayEnter(s, uses, p, r, c, r);
    FreshFollows(s, uses);
    RoutesOverOther(uses, p, r, c, r);
    events := Enter(s, uses, p);
    var t := Run(s, events);
    OverStops(t, uses, ds, p, r, c, r, p);
    StandsStarted(t, uses, p);
    hide StopsAt;
    assert Doomed(t, uses, ds);
    hide Doomed;
    StandsOnAndOn(s, uses, ds, p, events);
  }

  lemma RoutesOverOther(uses: map<Pid, LockUse>, p: Pid, r: RunId, c: Pid, r': RunId)
    requires Known(uses) && RoutesOver(uses, p, r, c, r')
    ensures p != c && Dispatched(uses, c)
  {
    assert c in ChildrenOf(uses[p]);
  }

  lemma StandsStarted(t: System, uses: map<Pid, LockUse>, p: Pid)
    requires Stands(t, uses, p)
    ensures p in t.started
  {
  }

  /** It is not enough that a dispatched command avoids the runs of those that wait for it: in any system, two
      of them that route in each other's run stop all four. */
  lemma CrossingDispatchesDeadlock(s: System, uses: map<Pid, LockUse>, p: Pid, r: RunId, c: Pid, p': Pid, r': RunId, c': Pid)
    returns (events: seq<Event>)
    requires Fresh(s, uses) && RoutesOver(uses, p, r, c, r') && RoutesOver(uses, p', r', c', r) && r != r'
    ensures GoOnly(events)
    ensures forall later :: GoOnly(later) ==>
              StandsAt(Run(s, events + later), uses, p) && StandsAt(Run(s, events + later), uses, p')
  {
    hide Fresh;
    hide Known;
    hide ProgramOf;
    hide Following;
    hide MayEnter;
    hide Dispatched;
    hide StandsAt;
    hide Stands;
    hide GoOnly;
    hide Run;
    hide RoutesOnly;
    FreshKnown(s, uses);
    var ms, ds := {p, p'}, {p, c, p', c'};
    RootMayEnter(s, uses, p, r, c, r');
    RootMayEnter(s, uses, p', r', c', r);
    FreshFollows(s, uses);
    RoutesOverOther(uses, p, r, c, r');
    RoutesOverOther(uses, p', r', c', r);
    RoutesOverRuns(uses, p, r, c, r', p', r', c', r);
    hide RoutesOver;
    hide DifferentRuns;
    events := EnterAll(s, uses, ms);
    var t := Run(s, events);
    hide TheyStand;
    CrossingStops(s, t, uses, p, r, c, p', r', c');
    hide Doomed;
    StandsOnAndOn(s, uses, ds, p, events);
    StandsOnAndOn(s, uses, ds, p', events);
  }

  lemma FreshKnown(s: System, uses: map<Pid, LockUse>)
    requires Fresh(s, uses)
    ensures Known(uses)
  {
  }

  lemma RoutesOverRuns(uses: map<Pid, LockUse>, p: Pid, r: RunId, c: Pid, x: RunId, p': Pid, r': RunId, c': Pid, x': RunId)
    requires RoutesOver(uses, p, r, c, x) && RoutesOver(uses, p', r', c', x') && r != r'
    ensures DifferentRuns(uses, {p, p'})
    ensures p in uses && p' in uses && uses[p].Route? && uses[p'].Route? && uses[p].child == Some(c) && uses[p'].child == Some(c')
    ensures c in uses && c' in uses
  {
  }

  lemma CrossingStops(s: System, t: System, uses: map<Pid, LockUse>, p: Pid, r: RunId, c: Pid, p': Pid, r': RunId, c': Pid)
    requires RoutesOver(uses, p, r, c, r') && RoutesOver(uses, p', r', c', r) && TheyStand(s, t, uses, {p, p'})
    requires c !in {p, p'} && c in s.rest && s.rest[c] == ProgramOf(uses[c])
    requires c' !in {p, p'} && c' in s.rest && s.rest[c'] == ProgramOf(uses[c'])
    ensures Doomed(t, uses, {p, c, p', c'}) && Stands(t, uses, p) && Stands(t, uses, p')
  {
    var ds := {p, c, p', c'};
    hide Dispatched;
    hide ProgramOf;
    assert p in {p, p'} && p' in {p, p'};
    hide Stands;
    OverStops(t, uses, ds, p, r, c, r', p');
    OverStops(t, uses, ds, p', r', c', r, p);
    StandsStarted(t, uses, p);
    hide StopsAt;
    hide TheyStand;
    hide RoutesOver;
  }

  // -------------------------------------------------- one after the other

  ghost predicate Routing(uses: map<Pid, LockUse>, p: Pid, r: RunId, child: Option<Pid>) {
    p in uses && uses[p].Route? && UseOk(uses[p]) && uses[p].run == r && uses[p].child == child
  }

  /** 0 dispatches 1 and then 2; 1 routes in a and dispatches 3, which routes in b; 2 and 4 the other way round. */
  ghost predicate OneByOne(uses: map<Pid, LockUse>, a: RunId, b: RunId) {
    && (forall p: Pid :: p in uses <==> p <= 4)
    && uses[0].Dispatch? && UseOk(uses[0]) && uses[0].children == [1, 2]
    && Routing(uses, 1, a, Some(3)) && Routing(uses, 2, b, Some(4)) && Routing(uses, 3, b, None) && Routing(uses, 4, a, None)
  }

  /** There are such commands: enabling a target on which two routes are pending. */
  lemma OneByOneExists(a: RunId, b: RunId, target: string) returns (s: System, uses: map<Pid, LockUse>)
    ensures OneByOne(uses, a, b) && Fresh(s, uses)
  {
    uses := map[0 := EnableUse(target, [1, 2]), 1 := RouteUse(a, Some(3), target), 2 := RouteUse(b, Some(4), target),
                3 := RouteUse(b, None, target), 4 := RouteUse(a, None, target)];
    assert OneByOne(uses, a, b);
    hide OneByOne;
    hide Known;
    hide Fresh;
    OneByOneKnown(uses, a, b);
    BeginFresh(uses);
    s := Begin(uses);
  }

  lemma OneByOneKnown(uses: map<Pid, LockUse>, a: RunId, b: RunId)
    requires OneByOne(uses, a, b)
    ensures Known(uses)
  {
    assert ChildrenOf(uses[0]) == [1, 2] && ChildrenOf(uses[1]) == [3] && ChildrenOf(uses[2]) == [4];
    assert ChildrenOf(uses[3]) == [] && ChildrenOf(uses[4]) == [];
    hide UseOk;
    assert forall p :: p in uses ==> p == 0 || p == 1 || p == 2 || p == 3 || p == 4;
  }

  lemma OneByOneApart(uses: map<Pid, LockUse>, a: RunId, b: RunId, ns: set<Pid>)
    requires OneByOne(uses, a, b) && Known(uses) && Coexist(uses, ns)
    ensures 4 in ns ==> 1 !in ns
  {
    assert ChildrenOf(uses[0]) == [1, 2] && ChildrenOf(uses[2]) == [4];
    LineUp(uses, 2, 4);
    SelfInLine(uses, 2);
    hide Line;
    hide Known;
    assert 4 in ns ==> ChildrenOf(uses[0])[1] in Line(uses, 4) && ChildrenOf(uses[0])[0] == 1;
  }

  /** Who holds a lock among them, and what the blocked ones need. */
  lemma OneByOneBlocks(uses: map<Pid, LockUse>, a: RunId, b: RunId, ns: set<Pid>, p: Pid)
    requires OneByOne(uses, a, b) && a != b && Blocked(uses, ns, p) && p in ns
    ensures p == 4 ==> 1 in ns && 3 in ns
    ensures p == 3 ==> 2 in ns && 4 in ns
    ensures p == 2 ==> 4 in ns
    ensures p == 1 ==> 3 in ns
    ensures p == 0 ==> 1 in ns || 2 in ns
    ensures p <= 4
  {
    hide UseOk;
    assert forall q :: Holds(uses, ns, q) ==> q == 1 || q == 2;
  }

  lemma OneByOneNeverStands(uses: map<Pid, LockUse>, a: RunId, b: RunId, ns: set<Pid>)
    requires OneByOne(uses, a, b) && a != b && Known(uses) && Coexist(uses, ns)
    ensures !Standstill(uses, ns)
  {
    OneByOneApart(uses, a, b, ns);
    hide OneByOne;
    hide Known;
    hide Coexist;
    forall p | p in ns && Blocked(uses, ns, p)
      ensures p <= 4 && (p == 4 ==> 1 in ns) && (p == 3 || p == 2 ==> 4 in ns)
      ensures (p == 1 ==> 3 in ns) && (p == 0 ==> 1 in ns || 2 in ns)
    {
      OneByOneBlocks(uses, a, b, ns, p);
    }
    hide Blocked;
  }

  /** Commands dispatched one after the other are never in each other's way, whatever is killed. */
  lemma OneByOneProgresses(s: System, uses: map<Pid, LockUse>, a: RunId, b: RunId, events: seq<Event>)
    requires OneByOne(uses, a, b) && a != b && Fresh(s, uses)
    ensures Progresses(Run(s, events))
  {
    hide Run;
    hide Progresses;
    OneByOneKnown(uses, a, b);
    hide OneByOne;
    hide Known;
    DeadlocksExactly(s, uses);
    hide Fresh;
    hide Standstill;
    hide Coexist;
    forall ns ensures !(Standstill(uses, ns) && Coexist(uses, ns)) {
      if Standstill(uses, ns) && Coexist(uses, ns) { OneByOneNeverStands(uses, a, b, ns); }
    }
  }

  // ------------------------------------------------------ orphans only

  /** Two commands that route in c dispatch one that routes in b or a, and these one that routes in the other. */
  ghost predicate Orphanage(uses: map<Pid, LockUse>, a: RunId, b: RunId, c: RunId) {
    && (forall p: Pid :: p in uses <==> p <= 5)
    && Routing(uses, 0, c, Some(2)) && Routing(uses, 1, c, Some(3)) && Routing(uses, 2, b, Some(4))
    && Routing(uses, 3, a, Some(5)) && Routing(uses, 4, a, None) && Routing(uses, 5, b, None)
  }

  lemma OrphanageExists(a: RunId, b: RunId, c: RunId, target: string) returns (s: System, uses: map<Pid, LockUse>)
    ensures Orphanage(uses, a, b, c) && Fresh(s, uses)
  {
    uses := map[0 := RouteUse(c, Some(2), target), 1 := RouteUse(c, Some(3), target), 2 := RouteUse(b, Some(4), target),
                3 := RouteUse(a, Some(5), target), 4 := RouteUse(a, None, target), 5 := RouteUse(b, None, target)];
    assert Orphanage(uses, a, b, c);
    hide Orphanage;
    hide Known;
    hide Fresh;
    OrphanageKnown(uses, a, b, c);
    BeginFresh(uses);
    s := Begin(uses);
  }

  lemma OrphanageChildren(uses: map<Pid, LockUse>, a: RunId, b: RunId, c: RunId)
    requires Orphanage(uses, a, b, c)
    ensures ChildrenOf(uses[0]) == [2] && ChildrenOf(uses[1]) == [3] && ChildrenOf(uses[2]) == [4]
    ensures ChildrenOf(uses[3]) == [5] && ChildrenOf(uses[4]) == [] && ChildrenOf(uses[5]) == []
    ensures forall p :: p in uses ==> p == 0 || p == 1 || p == 2 || p == 3 || p == 4 || p == 5
  {
    hide UseOk;
  }

  lemma OrphanageKnown(uses: map<Pid, LockUse>, a: RunId, b: RunId, c: RunId)
    requires Orphanage(uses, a, b, c)
    ensures Known(uses)
  {
    OrphanageChildren(uses, a, b, c);
    hide UseOk;
    hide ChildrenOf;
  }

  lemma OrphanageCoexists(uses: map<Pid, LockUse>, ns: set<Pid>)
    requires Known(uses) && 4 in ns && 5 in ns && ns == {2, 3, 4, 5}
    requires forall p :: p in uses ==> |ChildrenOf(uses[p])| <= 1
    requires 2 in uses && 3 in uses && 4 in uses && 5 in uses
    requires ChildrenOf(uses[2]) == [4] && ChildrenOf(uses[3]) == [5] && ChildrenOf(uses[4]) == [] && ChildrenOf(uses[5]) == []
    ensures Coexist(uses, ns)
  {
    hide Line;
    hide Known;
    hide ChildrenOf;
  }

  lemma OrphanageBlocked(uses: map<Pid, LockUse>, a: RunId, b: RunId, c: RunId, ns: set<Pid>)
    requires Orphanage(uses, a, b, c) && a != b && ns == {2, 3, 4, 5}
    ensures Blocked(uses, ns, 2) && Blocked(uses, ns, 3) && Blocked(uses, ns, 4) && Blocked(uses, ns, 5)
    ensures forall p :: Holds(uses, ns, p) ==> p == 2 || p == 3
    ensures 2 in uses && 3 in uses && uses[2].Route? && uses[3].Route? && uses[2].run != uses[3].run
  {
    hide UseOk;
    assert Holds(uses, ns, 2) && Holds(uses, ns, 3);
  }

  lemma OrphanageStands(uses: map<Pid, LockUse>, a: RunId, b: RunId, c: RunId)
    requires Orphanage(uses, a, b, c) && a != b && Known(uses)
    ensures Standstill(uses, {2, 3, 4, 5}) && Coexist(uses, {2, 3, 4, 5})
  {
    var ns := {2, 3, 4, 5};
    hide Known;
    OrphanageChildren(uses, a, b, c);
    OrphanageBlocked(uses, a, b, c, ns);
    hide Orphanage;
    OrphanageCoexists(uses, ns);
    hide Coexist;
    hide ChildrenOf;
    hide Blocked;
    assert 2 in ns;
  }

  lemma OrphanageBlocks(uses: map<Pid, LockUse>, a: RunId, b: RunId, c: RunId, ns: set<Pid>, p: Pid)
    requires Orphanage(uses, a, b, c) && a != b && a != c && b != c && Blocked(uses, ns, p) && p in ns
    ensures p == 4 ==> 3 in ns && 5 in ns
    ensures p == 5 ==> 2 in ns && 4 in ns
    ensures p == 3 ==> 5 in ns
    ensures p == 2 ==> 4 in ns
    ensures p == 1 || p == 0 ==> 2 in ns || 3 in ns
    ensures p <= 5
  {
    hide UseOk;
    assert forall q :: Holds(uses, ns, q) ==> q == 0 || q == 1 || q == 2 || q == 3;
  }

  lemma OrphanageAttends(uses: map<Pid, LockUse>, a: RunId, b: RunId, c: RunId, ns: set<Pid>)
    requires Orphanage(uses, a, b, c) && Standstill(uses, ns) && Attended(uses, ns)
    ensures !(2 in ns && 3 in ns)
  {
    hide UseOk;
    hide Blocked;
    OrphanageChildren(uses, a, b, c);
    assert 2 in ChildrenOf(uses[0]) && 3 in ChildrenOf(uses[1]);
    assert 2 in ns && 3 in ns ==> Holds(uses, ns, 0) && Holds(uses, ns, 1);
  }

  lemma OrphanageNeverStands(uses: map<Pid, LockUse>, a: RunId, b: RunId, c: RunId, ns: set<Pid>)
    requires Orphanage(uses, a, b, c) && a != b && a != c && b != c && Attended(uses, ns)
    ensures !Standstill(uses, ns)
  {
    if Standstill(uses, ns) { OrphanageAttends(uses, a, b, c, ns); }
    hide Orphanage;
    hide Attended;
    forall p | p in ns && Blocked(uses, ns, p)
      ensures p <= 5 && (p == 4 ==> 3 in ns && 5 in ns) && (p == 5 ==> 2 in ns && 4 in ns) && (p == 3 ==> 5 in ns)
      ensures (p == 2 ==> 4 in ns) && (p == 1 || p == 0 ==> 2 in ns || 3 in ns)
    {
      OrphanageBlocks(uses, a, b, c, ns, p);
    }
    hide Blocked;
  }

  /** Killing a command over the one it runs matters: these commands always progress when that does not happen,
      and can stop for ever when it does. */
  lemma OnlyOrphansDeadlock(s: System, uses: map<Pid, LockUse>, a: RunId, b: RunId, c: RunId) returns (events: seq<Event>)
    requires Orphanage(uses, a, b, c) && a != b && a != c && b != c && Fresh(s, uses)
    ensures !Progresses(Run(s, events))
    ensures forall other :: NoneOrphaned(s, uses, other) ==> Progresses(Run(s, other))
  {
    hide Run;
    hide Progresses;
    hide NoneOrphaned;
    OrphanageKnown(uses, a, b, c);
    OrphanageStands(uses, a, b, c);
    hide Orphanage;
    hide Known;
    hide Coexist;
    hide Attended;
    events := StandstillEnds(s, uses, {2, 3, 4, 5});
    AttendedDeadlocksExactly(s, uses);
    hide Fresh;
    hide Standstill;
    forall ns ensures !(Standstill(uses, ns) && Attended(uses, ns)) {
      if Standstill(uses, ns) && Attended(uses, ns) { OrphanageNeverStands(uses, a, b, c, ns); }
    }
  }
}
