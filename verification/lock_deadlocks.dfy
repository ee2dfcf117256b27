/** When the commands' locks can deadlock: exactly when some of them can be alive together and block each other. */
module LockDeadlocks {
  import opened Wrappers
  import opened Protocol
  import opened Locks
  import opened LockUses
  import opened LockStandstills
  import opened LockSchedules
  import opened LockApproach
  import opened LockMoves
  import opened LockJams

  // ------------------------------------------------- reaching a standstill

  lemma MaxOf(ps: set<Pid>) returns (m: Pid)
    requires ps != {}
    ensures m in ps && forall p :: p in ps ==> p <= m
    decreases ps
  {
    m :| m in ps;
    var rest := ps - {m};
    assert ps == rest + {m};
    if rest != {} {
      var n := MaxOf(rest);
      if n > m { m := n; }
    }
  }

  ghost predicate OthersDue(s: System, uses: map<Pid, LockUse>, ns: set<Pid>, p: Pid)
    requires Known(uses)
  {
    Due(s, uses, ns, p) && !IsMember(uses, ns, p)
  }

  lemma PickLast(s: System, uses: map<Pid, LockUse>, ns: set<Pid>, q: Pid) returns (p: Pid)
    requires Known(uses) && OthersDue(s, uses, ns, q)
    ensures LastDue(s, uses, ns, p)
  {
    hide Known;
    hide IsMember;
    var others := set x | x in Kin(uses, ns) && OthersDue(s, uses, ns, x);
    assert q in others;
    hide Kin;
    p := MaxOf(others);
    forall x: Pid | Due(s, uses, ns, x) && !IsMember(uses, ns, x) ensures x in others {}
  }

  /** Only routing commands of the set are due, and each is in somebody's way. */
  ghost predicate InTheWay(s: System, uses: map<Pid, LockUse>, ns: set<Pid>)
    requires Known(uses)
  {
    forall q :: Due(s, uses, ns, q) ==> IsMember(uses, ns, q) && !AllPassed(s, uses, ns, RunOf(uses, q))
  }

  function RunOf(uses: map<Pid, LockUse>, p: Pid): RunId {
    if p in uses && uses[p].Route? then uses[p].run else 0
  }

  lemma MemberRoutes(uses: map<Pid, LockUse>, ns: set<Pid>, p: Pid)
    requires IsMember(uses, ns, p)
    ensures p in ns && p in uses && uses[p].Route? && RunOf(uses, p) == uses[p].run
  {
  }

  lemma DueLeads(s: System, uses: map<Pid, LockUse>, ns: set<Pid>, dues: set<Pid>, m: Pid)
    requires Setting(uses, ns) && Clean(s, uses, ns) && InTheWay(s, uses, ns) && Due(s, uses, ns, m)
    requires forall q :: Due(s, uses, ns, q) ==> q in dues
    ensures HasNext(s, uses, ns, dues, m)
  {
    hide Setting;
    hide Clean;
    hide Known;
    hide IsMember;
    hide AllPassed;
    hide Due;
    hide Leads;
    SettingKnown(uses, ns);
    hide Coexist;
    hide Standstill;
    MemberRoutes(uses, ns, m);
    var p, z := LeadsOn(s, uses, ns, m);
    LeadsFacts(s, uses, ns, m, p, z);
  }

  /** Then they block each other. */
  lemma Jam(s: System, uses: map<Pid, LockUse>, ns: set<Pid>, p: Pid) returns (events: seq<Event>, ds: set<Pid>)
    requires Setting(uses, ns) && Clean(s, uses, ns) && Due(s, uses, ns, p) && InTheWay(s, uses, ns)
    ensures GoOnly(events) && Doomed(Run(s, events), uses, ds)
  {
    hide Setting;
    hide Clean;
    hide Known;
    hide InTheWay;
    hide Run;
    hide Doomed;
    hide HasNext;
    hide HasPrevious;
    SettingKnown(uses, ns);
    hide Coexist;
    hide Standstill;
    hide Due;
    hide Kin;
    var dues := set q | q in Kin(uses, ns) && Due(s, uses, ns, q);
    forall q | Due(s, uses, ns, q) ensures q in dues { DueKind(s, uses, ns, q); }
    forall m | m in dues ensures HasNext(s, uses, ns, dues, m) { DueLeads(s, uses, ns, dues, m); }
    var core := Core(s, uses, ns, dues);
    events, ds := JamReached(s, uses, ns, core);
  }

  /** One move after the other, until the set or some of it is doomed. */
  lemma Approach(s: System, uses: map<Pid, LockUse>, ns: set<Pid>) returns (events: seq<Event>, ds: set<Pid>)
    requires Setting(uses, ns) && Clean(s, uses, ns)
    ensures Doomed(Run(s, events), uses, ds)
    ensures Attended(uses, ns) ==> NoneOrphaned(s, uses, events)
    decreases Left(s, uses)
  {
    hide Setting;
    hide Clean;
    hide Known;
    hide Due;
    hide IsMember;
    hide AllPassed;
    hide Doomed;
    hide LastDue;
    hide Attended;
    hide NoneOrphaned;
    hide Left;
    SettingKnown(uses, ns);
    hide Coexist;
    hide Standstill;
    if q :| OthersDue(s, uses, ns, q) {
      var p := PickLast(s, uses, ns, q);
      var first := MoveOther(s, uses, ns, p);
      hide Run;
      events, ds := ApproachOn(s, uses, ns, first);
    } else if p :| Due(s, uses, ns, p) && IsMember(uses, ns, p) && AllPassed(s, uses, ns, RunOf(uses, p)) {
      MemberRoutes(uses, ns, p);
      var first := EnterMember(s, uses, ns, p);
      hide Run;
      events, ds := ApproachOn(s, uses, ns, first);
    } else if p :| Due(s, uses, ns, p) {
      assert InTheWay(s, uses, ns) by {
        forall q | Due(s, uses, ns, q) ensures IsMember(uses, ns, q) { assert !OthersDue(s, uses, ns, q); }
      }
      events, ds := Jam(s, uses, ns, p);
      GoOrphansNobody(s, uses, events);
    } else {
      AllInPlace(s, uses, ns);
      events, ds := [], ns;
      GoOrphansNobody(s, uses, events);
    }
  }

  lemma ApproachOn(s: System, uses: map<Pid, LockUse>, ns: set<Pid>, first: seq<Event>) returns (events: seq<Event>, ds: set<Pid>)
    requires Setting(uses, ns) && Good(s, uses, ns, first)
    ensures Doomed(Run(s, events), uses, ds)
    ensures Attended(uses, ns) ==> NoneOrphaned(s, uses, events)
    decreases Left(s, uses), 0
  {
    hide Setting;
    hide Clean;
    hide Known;
    hide Attended;
    hide NoneOrphaned;
    hide Doomed;
    hide Left;
    hide Run;
    var more;
    more, ds := Approach(Run(s, first), uses, ns);
    events := first + more;
    RunAppend(s, first, more);
    if Attended(uses, ns) { AppendOrphans(s, uses, first, more); }
  }

  // ------------------------------------------------------- the theorems

  /** The set comes to block itself, or part of what leads to it does, and no continuation without a kill ends
      that; where the set is attended, nobody is orphaned on the way. */
  lemma StandstillLasts(s: System, uses: map<Pid, LockUse>, ns: set<Pid>) returns (events: seq<Event>, ds: set<Pid>)
    requires Fresh(s, uses) && Standstill(uses, ns) && Coexist(uses, ns)
    ensures Attended(uses, ns) ==> NoneOrphaned(s, uses, events)
    ensures exists p :: p in ds && Unfinished(Run(s, events), p)
    ensures forall later, p :: GoOnly(later) && p in ds ==>
              p in Run(s, events + later).rest && Run(s, events + later).rest[p] != []
    ensures Following(Run(s, events), uses) && Doomed(Run(s, events), uses, ds)
  {
    FreshFollows(s, uses);
    FreshClean(s, uses, ns);
    events, ds := Approach(s, uses, ns);
    var t := Run(s, events);
    AlwaysFollows(s, uses, events);
    hide Following;
    hide Fresh;
    hide StopsAt;
    hide Attended;
    hide NoneOrphaned;
    var p :| p in ds && p in t.started;
    hide Run;
    DoomedUnfinished(t, uses, ds, p);
    hide Doomed;
    forall later, q | GoOnly(later) && q in ds
      ensures q in Run(s, events + later).rest && Run(s, events + later).rest[q] != []
    {
      RunAppend(s, events, later);
      DoomedForever(t, uses, ds, later);
      DoomedUnfinished(Run(t, later), uses, ds, q);
    }
  }

  /** A schedule after which somebody is unfinished and nobody can step. */
  lemma StandstillEnds(s: System, uses: map<Pid, LockUse>, ns: set<Pid>) returns (events: seq<Event>)
    requires Fresh(s, uses) && Standstill(uses, ns) && Coexist(uses, ns)
    ensures !Progresses(Run(s, events))
    ensures Attended(uses, ns) ==> NoneOrphaned(s, uses, events)
  {
    var first, ds := StandstillLasts(s, uses, ns);
    hide Standstill;
    hide Coexist;
    hide Following;
    hide Doomed;
    hide Progresses;
    hide NoneOrphaned;
    hide Attended;
    var last := DoomedEnds(Run(s, first), uses, ds);
    RunAppend(s, first, last);
    events := first + last;
    GoOrphansNobody(Run(s, first), uses, last);
    hide Run;
    if Attended(uses, ns) { AppendOrphans(s, uses, first, last); }
  }

  ghost predicate CanStandStill(uses: map<Pid, LockUse>)
    requires Known(uses)
  {
    exists ns :: Standstill(uses, ns) && Coexist(uses, ns)
  }

  ghost predicate CanStandAttended(uses: map<Pid, LockUse>) {
    exists ns :: Standstill(uses, ns) && Attended(uses, ns)
  }

  /** Any commands, each dispatched by another only while that one waits for it, with any of them killed or
      failing at any time: in every state they reach a started command can step as long as one is unfinished,
      if and only if no set of them can be alive together and block itself. */
  lemma DeadlocksExactly(s: System, uses: map<Pid, LockUse>)
    requires Fresh(s, uses)
    ensures (forall events :: Progresses(Run(s, events))) <==> !CanStandStill(uses)
  {
    hide Standstill;
    hide Coexist;
    if ns :| Standstill(uses, ns) && Coexist(uses, ns) {
      var events := StandstillEnds(s, uses, ns);
    }
    FreshFollows(s, uses);
    hide Fresh;
    if !CanStandStill(uses) {
      forall events ensures Progresses(Run(s, events)) { NoneStands(s, uses, events); }
    }
  }

  lemma NoneStands(s: System, uses: map<Pid, LockUse>, events: seq<Event>)
    requires Known(uses) && Following(s, uses) && !CanStandStill(uses)
    ensures Progresses(Run(s, events))
  {
    hide Standstill;
    hide Coexist;
    AlwaysFollows(s, uses, events);
    var t := Run(s, events);
    hide Run;
    hide Following;
    if p :| Unfinished(t, p) && Stuck(t) { StuckStands(t, uses, p); }
  }

  /** The same where no command is killed while the one it dispatched is running: exactly the sets that contain
      whoever dispatched one of them, and one child at most of each, stop the commands. */
  lemma AttendedDeadlocksExactly(s: System, uses: map<Pid, LockUse>)
    requires Fresh(s, uses)
    ensures (forall events :: NoneOrphaned(s, uses, events) ==> Progresses(Run(s, events))) <==> !CanStandAttended(uses)
  {
    hide Standstill;
    hide Coexist;
    hide Attended;
    if ns :| Standstill(uses, ns) && Attended(uses, ns) {
      AttendedCoexist(uses, ns);
      var events := StandstillEnds(s, uses, ns);
    }
    FreshFollows(s, uses);
    FreshSupervised(s, uses);
    hide Fresh;
    if !CanStandAttended(uses) {
      forall events | NoneOrphaned(s, uses, events) ensures Progresses(Run(s, events)) { NoneStandsAttended(s, uses, events); }
    }
  }

  lemma NoneStandsAttended(s: System, uses: map<Pid, LockUse>, events: seq<Event>)
    requires Known(uses) && Following(s, uses) && Supervised(s, uses) && NoneOrphaned(s, uses, events) && !CanStandAttended(uses)
    ensures Progresses(Run(s, events))
  {
    hide Standstill;
    hide Attended;
    AlwaysFollows(s, uses, events);
    StaysSupervised(s, uses, events);
    var t := Run(s, events);
    hide Run;
    hide Following;
    hide Supervised;
    if p :| Unfinished(t, p) && Stuck(t) {
      StuckStands(t, uses, p);
      StuckAttended(t, uses);
    }
  }

  /** Where dispatched commands do not route, the commands always progress. */
  lemma QuickDispatchProgresses(s: System, uses: map<Pid, LockUse>, events: seq<Event>)
    requires Fresh(s, uses) && forall p, c :: p in uses && c in ChildrenOf(uses[p]) ==> c in uses && uses[c].Quick?
    ensures Progresses(Run(s, events))
  {
    hide Run;
    hide Progresses;
    DeadlocksExactly(s, uses);
    hide Fresh;
    hide Coexist;
    forall ns ensures !Standstill(uses, ns) { QuickNeverStands(uses, ns); }
  }

  lemma BlockedByQuick(uses: map<Pid, LockUse>, ns: set<Pid>, p: Pid)
    requires forall p, c :: p in uses && c in ChildrenOf(uses[p]) ==> c in uses && uses[c].Quick?
    requires Blocked(uses, ns, p)
    ensures exists c :: c in ns && !Blocked(uses, ns, c)
  {
    var q :| q in uses && exists c :: c in ChildrenOf(uses[q]) && c in ns;
    var c :| c in ChildrenOf(uses[q]) && c in ns;
    assert !Blocked(uses, ns, c);
  }

  lemma QuickNeverStands(uses: map<Pid, LockUse>, ns: set<Pid>)
    requires forall p, c :: p in uses && c in ChildrenOf(uses[p]) ==> c in uses && uses[c].Quick?
    ensures !Standstill(uses, ns)
  {
    if p :| p in ns && Blocked(uses, ns, p) { BlockedByQuick(uses, ns, p); }
    hide Blocked;
  }
}
