/** The moves by which the commands of a standstill come into their places. */
module LockMoves {
  import opened Wrappers
  import opened Protocol
  import opened Locks
  import opened LockUses
  import opened LockStandstills
  import opened LockSchedules
  import opened LockApproach

  /** A schedule that keeps everybody in place, gets on, and orphans nobody where the set is attended. */
  ghost predicate Good(s: System, uses: map<Pid, LockUse>, ns: set<Pid>, events: seq<Event>)
    requires Known(uses)
  {
    && Clean(Run(s, events), uses, ns) && Left(Run(s, events), uses) < Left(s, uses)
    && (Attended(uses, ns) ==> NoneOrphaned(s, uses, events))
  }

  lemma GoodMove(s: System, uses: map<Pid, LockUse>, ns: set<Pid>, events: seq<Event>, p: Pid)
    requires Known(uses) && Clean(s, uses, ns) && p in s.rest && s.rest[p] != []
    requires var t := Run(s, events);
             && MovesOnly(s, t, uses, p)
             && (if p in Kin(uses, ns) then Placed(t, uses, ns, p) else t.started == s.started)
             && (forall l :: l in t.holder && l !in s.holder ==> WellHeld(t, uses, ns, l))
             && ((p in t.rest && t.rest[p] == []) || exists c :: c in uses && c in t.started && c !in s.started)
    requires Attended(uses, ns) ==> NoneOrphaned(s, uses, events)
    ensures Good(s, uses, ns, events)
  {
    AlwaysFollows(s, uses, events);
    hide Run;
    Moved(s, Run(s, events), uses, ns, p);
    LeftFalls(s, Run(s, events), uses, p);
  }

  lemma DueKind(s: System, uses: map<Pid, LockUse>, ns: set<Pid>, p: Pid)
    requires Known(uses) && Due(s, uses, ns, p)
    ensures p in uses && p in Kin(uses, ns) && p in s.started && !uses[p].Quick?
    ensures exists c :: c in ChildrenOf(uses[p]) && c in Kin(uses, ns) && c !in s.started
  {
  }

  lemma MemberChild(uses: map<Pid, LockUse>, ns: set<Pid>, p: Pid, c: Pid)
    requires Known(uses) && Coexist(uses, ns) && p in ns && p in uses && uses[p].Route?
    requires c in ChildrenOf(uses[p]) && c in Kin(uses, ns)
    ensures Holds(uses, ns, p)
  {
    hide Line;
    hide Known;
    var n :| n in ns && c in Line(uses, n);
  }

  lemma DueRoute(s: System, uses: map<Pid, LockUse>, ns: set<Pid>, p: Pid)
    requires Setting(uses, ns) && Clean(s, uses, ns) && Due(s, uses, ns, p) && p in uses && uses[p].Route?
    ensures uses[p].child.Some? && uses[p].child.value in Kin(uses, ns) && uses[p].child.value !in s.started
    ensures p in s.started && p in s.rest && s.rest[p] == ProgramOf(uses[p]) && UseOk(uses[p]) && uses[p].child.value in s.rest
    ensures p in ns ==> Holds(uses, ns, p)
    ensures p !in ns ==> Passing(uses, ns, p)
  {
    hide Setting;
    hide Known;
    hide Coexist;
    hide Standstill;
    hide Clean;
    hide Due;
    hide Kin;
    hide Following;
    hide ProgramOf;
    hide Stands;
    hide UseOk;
    SettingKnown(uses, ns);
    DueKind(s, uses, ns, p);
    CleanPlaced(s, uses, ns, p);
    RestKeys(s, uses, ns);
    KnownUse(uses, p);
    var c :| c in ChildrenOf(uses[p]) && c in Kin(uses, ns) && c !in s.started;
    OwnChild(uses, p, c);
    if p in ns { MemberChild(uses, ns, p, c); }
  }

  /** Nobody who is not started waits in front of the lock of a member that has not taken it. */
  lemma MemberFree(s: System, uses: map<Pid, LockUse>, ns: set<Pid>, p: Pid)
    requires Known(uses) && Standstill(uses, ns) && Clean(s, uses, ns) && Holds(uses, ns, p) && uses[p].child.value !in s.started
    ensures RouteLock(uses[p].run) !in s.holder
  {
    hide Placed;
    hide Following;
    hide Kin;
    hide Coexist;
    forall l | l in s.holder ensures l != RouteLock(uses[p].run) { assert WellHeld(s, uses, ns, l); }
  }

  lemma EnteredWell(s: System, uses: map<Pid, LockUse>, ns: set<Pid>, p: Pid)
    requires Known(uses) && Holds(uses, ns, p) && Stands(Entered(s, uses, p), uses, p)
    requires AllPassed(s, uses, ns, uses[p].run)
    ensures WellHeld(Entered(s, uses, p), uses, ns, RouteLock(uses[p].run))
  {
    hide UnderLock;
    hide Stands;
    hide Kin;
    hide Known;
  }

  lemma EnteredMoves(s: System, uses: map<Pid, LockUse>, p: Pid)
    requires p in uses && uses[p].Route? && uses[p].child.Some? && RouteLock(uses[p].run) !in s.holder
    requires (forall x :: x in uses <==> x in s.rest) && forall l :: l in s.holder ==> s.holder[l] != p
    ensures MovesOnly(s, Entered(s, uses, p), uses, p)
  {
    hide UnderLock;
  }

  lemma EnteredPlaced(s: System, t: System, uses: map<Pid, LockUse>, ns: set<Pid>, p: Pid)
    requires Known(uses) && Holds(uses, ns, p) && t == Entered(s, uses, p) && Stands(t, uses, p)
    requires uses[p].child.value in Kin(uses, ns)
    ensures Placed(t, uses, ns, p) && uses[p].child.value in t.started
    ensures forall l :: l in t.holder && l !in s.holder ==> l == RouteLock(uses[p].run)
  {
    hide Kin;
    hide UnderLock;
  }

  /** A member takes its lock, where nobody still has to pass. */
  lemma EnterMember(s: System, uses: map<Pid, LockUse>, ns: set<Pid>, p: Pid) returns (events: seq<Event>)
    requires Setting(uses, ns) && Clean(s, uses, ns) && Due(s, uses, ns, p) && p in ns && p in uses && uses[p].Route?
    requires AllPassed(s, uses, ns, uses[p].run)
    ensures Good(s, uses, ns, events)
  {
    hide Setting;
    hide Known;
    hide Due;
    hide Coexist;
    hide Standstill;
    hide Clean;
    hide Kin;
    hide Passing;
    hide ProgramOf;
    hide UnderLock;
    hide Stands;
    hide WellHeld;
    hide Good;
    DueRoute(s, uses, ns, p);
    SettingKnown(uses, ns);
    DueKind(s, uses, ns, p);
    MemberFree(s, uses, ns, p);
    CleanHolders(s, uses, ns);
    NotHolder(s, uses, ns, p);
    RestKeys(s, uses, ns);
    KinKnown(uses, ns);
    ProgramNotEmpty(uses[p]);
    events := Enter(s, uses, p);
    hide Run;
    GoOrphansNobody(s, uses, events);
    EnteredMoves(s, uses, p);
    EnteredWell(s, uses, ns, p);
    EnteredPlaced(s, Run(s, events), uses, ns, p);
    hide MovesOnly;
    hide RoutesOnly;
    hide Placed;
    hide Entered;
    GoodMove(s, uses, ns, events, p);
  }

  lemma SettingKnown(uses: map<Pid, LockUse>, ns: set<Pid>)
    requires Setting(uses, ns)
    ensures Known(uses) && Standstill(uses, ns) && Coexist(uses, ns)
  {
  }

  lemma KinKnown(uses: map<Pid, LockUse>, ns: set<Pid>)
    requires Known(uses)
    ensures forall a :: a in Kin(uses, ns) ==> a in uses
  {
  }

  lemma RestKeys(s: System, uses: map<Pid, LockUse>, ns: set<Pid>)
    requires Known(uses) && Clean(s, uses, ns)
    ensures forall x :: x in uses <==> x in s.rest
    ensures s.started <= uses.Keys
  {
    hide Shaped;
    hide InTurn;
    hide ProgramOf;
    hide Kin;
    hide Placed;
    hide WellHeld;
    forall x ensures x in uses <==> x in s.rest { assert x in uses.Keys <==> x in s.rest.Keys; }
  }

  /** Who has not started its child holds nothing. */
  lemma NotHolder(s: System, uses: map<Pid, LockUse>, ns: set<Pid>, p: Pid)
    requires Known(uses) && Clean(s, uses, ns)
    requires p in uses && uses[p].Route? && p in ns ==> uses[p].child.Some? && uses[p].child.value !in s.started
    ensures forall l :: l in s.holder ==> s.holder[l] != p
  {
    hide Placed;
    hide Following;
    hide Kin;
    forall l | l in s.holder ensures s.holder[l] != p { assert WellHeld(s, uses, ns, l); }
  }

  lemma PassingFree(s: System, uses: map<Pid, LockUse>, ns: set<Pid>, p: Pid)
    requires Known(uses) && Clean(s, uses, ns) && Passing(uses, ns, p) && uses[p].child.value !in s.started
    ensures RouteLock(uses[p].run) !in s.holder
  {
    hide Placed;
    hide Following;
    hide Kin;
    forall l | l in s.holder ensures l != RouteLock(uses[p].run) { assert WellHeld(s, uses, ns, l); }
  }

  /** A routing command on the way starts its child and is killed. */
  lemma PassOne(s: System, uses: map<Pid, LockUse>, ns: set<Pid>, p: Pid) returns (events: seq<Event>)
    requires Setting(uses, ns) && Clean(s, uses, ns) && Due(s, uses, ns, p) && p !in ns && p in uses && uses[p].Route?
    ensures Good(s, uses, ns, events)
  {
    hide Setting;
    hide Known;
    hide Due;
    hide Coexist;
    hide Standstill;
    hide Clean;
    hide Kin;
    hide Passing;
    hide ProgramOf;
    hide UnderLock;
    hide Stands;
    hide WellHeld;
    hide Good;
    DueRoute(s, uses, ns, p);
    SettingKnown(uses, ns);
    PassingFree(s, uses, ns, p);
    CleanHolders(s, uses, ns);
    NotHolder(s, uses, ns, p);
    RestKeys(s, uses, ns);
    KinKnown(uses, ns);
    ProgramNotEmpty(uses[p]);
    events := Pass(s, uses, p);
    hide Run;
    PassedMoves(s, Run(s, events), uses, ns, p);
    hide MovesOnly;
    hide Placed;
    PassingInKin(uses, ns, p);
    if Attended(uses, ns) { AttendedKin(uses, ns); }
    hide RoutesOnly;
    GoodMove(s, uses, ns, events, p);
  }

  lemma PassedMoves(s: System, t: System, uses: map<Pid, LockUse>, ns: set<Pid>, p: Pid)
    requires Known(uses) && Passing(uses, ns, p) && t == System(s.rest[p := []], s.holder, s.started + {uses[p].child.value})
    requires (forall x :: x in uses <==> x in s.rest) && forall l :: l in s.holder ==> s.holder[l] != p
    ensures MovesOnly(s, t, uses, p) && Placed(t, uses, ns, p)
  {
    hide Kin;
    hide Known;
  }

  lemma PassingInKin(uses: map<Pid, LockUse>, ns: set<Pid>, p: Pid)
    requires Known(uses) && Passing(uses, ns, p)
    ensures p in Kin(uses, ns)
  {
    hide Kin;
  }

  lemma ProgramNotEmpty(u: LockUse)
    requires u.Route?
    ensures ProgramOf(u) != []
  {
  }

  // ------------------------------------------- killing what is in the way

  lemma KilledMoves(s: System, uses: map<Pid, LockUse>, ns: set<Pid>, p: Pid)
    requires p in uses && p in s.started && p in s.rest && s.rest[p] != []
    requires (forall x :: x in uses <==> x in s.rest) && forall l :: l in s.holder ==> s.holder[l] != p
    ensures MovesOnly(s, Kill(s, p), uses, p) && Kill(s, p).started == s.started && Kill(s, p).holder == s.holder
    ensures p in Kill(s, p).rest && Kill(s, p).rest[p] == []
  {
    assert (map l | l in s.holder && s.holder[l] != p :: s.holder[l]) == s.holder;
  }

  /** A started command that is not of the set, and that is not needed any more, is killed. */
  lemma KillOther(s: System, uses: map<Pid, LockUse>, ns: set<Pid>, p: Pid) returns (events: seq<Event>)
    requires Setting(uses, ns) && Clean(s, uses, ns) && p !in ns && p in uses && p in s.started && p in s.rest && s.rest[p] != []
    requires !Due(s, uses, ns, p)
    ensures Good(s, uses, ns, events)
  {
    SettingKnown(uses, ns);
    hide Setting;
    NotHolder(s, uses, ns, p);
    RestKeys(s, uses, ns);
    KilledMoves(s, uses, ns, p);
    var t := Kill(s, p);
    RunOne(s, Die(p));
    events := [Die(p)];
    hide Run;
    hide MovesOnly;
    hide Kill;
    if p in Kin(uses, ns) { KilledPlaced(s, t, uses, ns, p); }
    if Attended(uses, ns) {
      AttendedKin(uses, ns);
      IdleKill(s, uses, ns, p);
    }
    hide Clean;
    hide Due;
    hide Kin;
    hide Placed;
    GoodMove(s, uses, ns, events, p);
  }

  lemma KilledPlaced(s: System, t: System, uses: map<Pid, LockUse>, ns: set<Pid>, p: Pid)
    requires Known(uses) && Clean(s, uses, ns) && p !in ns && p in Kin(uses, ns) && p in s.started && s.rest[p] != []
    requires !Due(s, uses, ns, p) && t.started == s.started && p in t.rest && t.rest[p] == []
    ensures Placed(t, uses, ns, p)
  {
    hide Following;
    hide WellHeld;
    hide ProgramOf;
    assert Placed(s, uses, ns, p);
    hide Clean;
    hide Kin;
    assert forall c :: c in ChildrenOf(uses[p]) && c in Kin(uses, ns) ==> c in s.started;
  }

  /** A command that has started nobody orphans nobody. */
  lemma IdleKill(s: System, uses: map<Pid, LockUse>, ns: set<Pid>, p: Pid)
    requires Known(uses) && Clean(s, uses, ns) && p in uses && p !in Kin(uses, ns)
    ensures NoneOrphaned(s, uses, [Die(p)])
  {
    hide Following;
    hide WellHeld;
    hide Placed;
    hide Kin;
    assert [Die(p)][..0] == [];
    assert Run(s, []) == s;
    assert !Orphans(s, uses, Die(p));
    hide Orphans;
    hide Run;
  }

  // ------------------------------------------------- dispatching the next

  lemma NextUnstarted(s: System, uses: map<Pid, LockUse>, p: Pid, k: nat)
    requires Known(uses) && Following(s, uses) && p in uses && p in s.rest && AtChild(s, uses[p], s.rest[p], k)
    ensures forall i :: 0 <= i < k ==> Ended(s, uses[p].children[i])
    ensures forall i :: k < i < |uses[p].children| ==> uses[p].children[i] !in s.started
  {
    hide Shaped;
    hide ProgramOf;
    assert InTurn(s, uses[p], s.rest[p]);
    WaitsAwaits(uses[p].children[k..], uses[p].records, []);
    assert uses[p].children[k..] + Awaits([]) == uses[p].children[k..];
  }

  lemma ArrivedMoves(s: System, t: System, uses: map<Pid, LockUse>, p: Pid, k: nat, rest: Program)
    requires p in uses && uses[p].Dispatch? && k < |uses[p].children|
    requires t == s.(rest := s.rest[p := rest], started := s.started + {uses[p].children[k]})
    requires (forall x :: x in uses <==> x in s.rest) && forall l :: l in s.holder ==> s.holder[l] != p
    ensures MovesOnly(s, t, uses, p)
  {
  }

  lemma DispatchProgram(u: LockUse)
    requires u.Dispatch? && UseOk(u)
    ensures ProgramOf(u) == Each(u.before, Waits(u.children[0..], u.records, [])) && NoRouteLocks(u.before)
  {
    assert u.children[0..] == u.children;
  }

  lemma ArrivedPlaced(t: System, uses: map<Pid, LockUse>, ns: set<Pid>, p: Pid, k: nat)
    requires Known(uses) && p in uses && uses[p].Dispatch? && p in t.rest && AtChild(t, uses[p], t.rest[p], k)
    ensures Placed(t, uses, ns, p)
  {
    hide AtChild;
    hide Kin;
  }

  lemma KnownUse(uses: map<Pid, LockUse>, p: Pid)
    requires Known(uses) && p in uses
    ensures UseOk(uses[p])
  {
  }

  /** A dispatching command whose child has ended, or that has not begun, starts the next. */
  lemma StartNext(s: System, uses: map<Pid, LockUse>, ns: set<Pid>, p: Pid, k: nat) returns (events: seq<Event>)
    requires Setting(uses, ns) && Clean(s, uses, ns) && p in Kin(uses, ns) && p in uses && uses[p].Dispatch?
    requires p in s.started && p in s.rest && s.rest[p] != []
    requires k < |uses[p].children| && uses[p].children[k] !in s.started
    requires if k == 0 then s.rest[p] == ProgramOf(uses[p])
             else AtChild(s, uses[p], s.rest[p], k - 1) && Ended(s, uses[p].children[k - 1])
    ensures Good(s, uses, ns, events)
  {
    hide Setting;
    hide Known;
    hide Coexist;
    hide Standstill;
    hide Clean;
    hide Kin;
    hide Good;
    hide ProgramOf;
    hide AtChild;
    hide MovesOnly;
    hide Placed;
    hide WellHeld;
    hide UseOk;
    var u, c := uses[p], uses[p].children[k];
    SettingKnown(uses, ns);
    CleanHolders(s, uses, ns);
    DispatchHoldsNothing(s, uses, ns, p);
    RestKeys(s, uses, ns);
    assert c in ChildrenOf(u);
    OwnChild(uses, p, c);
    KnownUse(uses, p);
    hide RoutesOnly;
    if k == 0 {
      DispatchProgram(u);
      events := Arrive(s, u, p, u.before, 0);
    } else {
      events := Advance(s, u, p, k - 1);
    }
    hide Run;
    GoOrphansNobody(s, uses, events);
    var t := Run(s, events);
    ArrivedMoves(s, t, uses, p, k, Waits(u.children[k..], u.records, []));
    ArrivedPlaced(t, uses, ns, p, k);
    GoodMove(s, uses, ns, events, p);
  }

  lemma DispatchHoldsNothing(s: System, uses: map<Pid, LockUse>, ns: set<Pid>, p: Pid)
    requires Known(uses) && Clean(s, uses, ns) && p in uses && uses[p].Dispatch?
    ensures forall l :: l in s.holder ==> s.holder[l] != p
  {
    hide Placed;
    hide Following;
    hide Kin;
    forall l | l in s.holder ensures s.holder[l] != p { assert WellHeld(s, uses, ns, l); }
  }

  // ------------------------------------------------------- everybody else

  ghost predicate IsMember(uses: map<Pid, LockUse>, ns: set<Pid>, p: Pid) {
    p in ns && p in uses && uses[p].Route?
  }

  /** The last of those that are due and are not routing commands of the set. */
  ghost predicate LastDue(s: System, uses: map<Pid, LockUse>, ns: set<Pid>, p: Pid)
    requires Known(uses)
  {
    && Due(s, uses, ns, p) && !IsMember(uses, ns, p)
    && forall q: Pid :: Due(s, uses, ns, q) && !IsMember(uses, ns, q) ==> q <= p
  }

  /** As long as somebody is due who is not a routing command of the set, there is a move. */
  lemma MoveOther(s: System, uses: map<Pid, LockUse>, ns: set<Pid>, p: Pid) returns (events: seq<Event>)
    requires Setting(uses, ns) && Clean(s, uses, ns) && LastDue(s, uses, ns, p)
    ensures Good(s, uses, ns, events)
  {
    hide Setting;
    hide Known;
    hide Due;
    hide Coexist;
    hide Standstill;
    hide Clean;
    hide Good;
    SettingKnown(uses, ns);
    DueKind(s, uses, ns, p);
    if uses[p].Route? {
      events := PassOne(s, uses, ns, p);
    } else {
      events := MoveDispatch(s, uses, ns, p);
    }
  }

  /** The dispatching command stands at its child at k and has to start a later one: the child is not of the set. */
  lemma LaterChild(s: System, uses: map<Pid, LockUse>, ns: set<Pid>, p: Pid, k: nat, c: Pid)
    requires Known(uses) && Coexist(uses, ns) && p in uses && uses[p].Dispatch?
    requires k < |uses[p].children| && uses[p].children[k] in s.started
    requires forall i :: 0 <= i < k ==> Ended(s, uses[p].children[i])
    requires c in uses[p].children && Above(uses, ns, c) && c !in s.started
    ensures k + 1 < |uses[p].children| && uses[p].children[k] !in ns
  {
    hide Known;
    hide Line;
    var j :| 0 <= j < |uses[p].children| && uses[p].children[j] == c;
    var n :| n in ns && c in Line(uses, n);
    assert j > k;
    assert ChildrenOf(uses[p])[j] in Line(uses, n);
    assert ChildrenOf(uses[p])[k] !in ns;
  }

  lemma CleanPlaced(s: System, uses: map<Pid, LockUse>, ns: set<Pid>, p: Pid)
    requires Known(uses) && Clean(s, uses, ns) && p in Kin(uses, ns)
    ensures Following(s, uses) && Placed(s, uses, ns, p)
  {
    hide Following;
    hide Placed;
    hide WellHeld;
    hide Kin;
  }

  lemma KinAbove(uses: map<Pid, LockUse>, ns: set<Pid>, c: Pid)
    requires Known(uses) && c in Kin(uses, ns)
    ensures Above(uses, ns, c)
  {
  }

  lemma AtFirst(s: System, u: LockUse, rest: Program, k: nat)
    requires AtChild(s, u, rest, k)
    ensures u.Dispatch? && k < |u.children| && u.children[k] in s.started && rest != [] && rest[0] == Await(u.children[k])
  {
  }

  lemma MoveDispatch(s: System, uses: map<Pid, LockUse>, ns: set<Pid>, p: Pid) returns (events: seq<Event>)
    requires Setting(uses, ns) && Clean(s, uses, ns) && LastDue(s, uses, ns, p) && p in uses && uses[p].Dispatch?
    ensures Good(s, uses, ns, events)
  {
    hide Setting;
    hide Known;
    hide Coexist;
    hide Standstill;
    hide Due;
    hide Following;
    hide Clean;
    hide Kin;
    hide Good;
    hide Placed;
    hide AtChild;
    hide ProgramOf;
    hide Above;
    SettingKnown(uses, ns);
    var u := uses[p];
    DueKind(s, uses, ns, p);
    CleanPlaced(s, uses, ns, p);
    RestKeys(s, uses, ns);
    var c :| c in ChildrenOf(u) && c in Kin(uses, ns) && c !in s.started;
    if s.rest[p] == ProgramOf(u) && forall x :: x in u.children ==> x !in s.started {
      ProgramHasChild(u, c);
      assert u.children[0] in u.children;
      events := StartNext(s, uses, ns, p, 0);
    } else {
      PlacedDispatch(s, uses, ns, p, c);
      var k: nat :| AtChild(s, u, s.rest[p], k);
      AtFirst(s, u, s.rest[p], k);
      NextUnstarted(s, uses, p, k);
      KinAbove(uses, ns, c);
      LaterChild(s, uses, ns, p, k, c);
      var c0 := u.children[k];
      assert c0 in ChildrenOf(u);
      OwnChild(uses, p, c0);
      if s.rest[c0] == [] {
        events := StartNext(s, uses, ns, p, k + 1);
      } else {
        events := KillOther(s, uses, ns, c0);
      }
    }
  }

  lemma PlacedDispatch(s: System, uses: map<Pid, LockUse>, ns: set<Pid>, p: Pid, c: Pid)
    requires Known(uses) && Placed(s, uses, ns, p) && p in uses && uses[p].Dispatch?
    requires c in uses[p].children && c in Kin(uses, ns) && c !in s.started
    requires !(s.rest[p] == ProgramOf(uses[p]) && forall x :: x in uses[p].children ==> x !in s.started)
    ensures exists k :: AtChild(s, uses[p], s.rest[p], k)
  {
    hide Kin;
  }

  /** What a program has to do. */
  lemma ProgramHasChild(u: LockUse, c: Pid)
    requires c in ChildrenOf(u)
    ensures Await(c) in ProgramOf(u) && ProgramOf(u) != []
  {
    ProgramAwaits(u);
    AwaitsIn(ProgramOf(u), c);
  }

  lemma {:induction false} AwaitsIn(prog: Program, c: Pid)
    requires c in Awaits(prog)
    ensures Await(c) in prog
  {
    if prog[0] != Await(c) { AwaitsIn(prog[1..], c); }
  }
}
