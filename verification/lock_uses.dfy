/** The commands' locking programs, and what holds while they run, dispatch each other and die. */
module LockUses {
  import opened Wrappers
  import opened Protocol
  import Coordinator
  import opened Locks

  // ------------------------------------------------------- the commands

  /** What a command does with locks: take some one at a time; or route, which holds the lock of a run
      over two sequence numbers, a dispatched command and its records; or wait for dispatched commands
      with nothing held, each followed by its records. */
  datatype LockUse =
    | Quick(locks: seq<Lock>)
    | Route(before: seq<Lock>, run: RunId, child: Option<Pid>, records: seq<Lock>, afterwards: seq<Lock>)
    | Dispatch(before: seq<Lock>, children: seq<Pid>, records: seq<Lock>)

  function ReadUse(k: Coordinator.ReceiptKey): LockUse {
    Quick([ReceiptLock(k), ReceiptLock(k)])
  }

  function AcceptUse(k: Coordinator.ReceiptKey): LockUse {
    Quick([ReceiptLock(k), ReceiptLock(k), ReceiptLock(k)])
  }

  function SendUse(): LockUse {
    Quick([SequenceLock])
  }

  function StartUse(): LockUse {
    Quick([SequenceLock, SequenceLock])
  }

  function RespondUse(k: Coordinator.ReceiptKey): LockUse {
    Quick([ReceiptLock(k), ReceiptLock(k), SequenceLock, ReceiptLock(k), ReceiptLock(k)])
  }

  /** A heartbeat writes the target's state once; disabling it writes twice. */
  function TargetUse(target: string, writes: nat): LockUse {
    Quick(seq(writes, _ => TargetLock(target)))
  }

  /** A route, or an added task with routing metadata. */
  function RouteUse(r: RunId, child: Option<Pid>, target: string): LockUse {
    Route([], r, child, [TargetLock(target), TargetLock(target)], [])
  }

  /** Completion with its review, reroute and replan: receipt steps, then routing, then receipt steps. */
  function RerouteUse(k: Coordinator.ReceiptKey, n: nat, r: RunId, child: Option<Pid>, target: string, m: nat): LockUse {
    Route(seq(n, _ => ReceiptLock(k)), r, child, [TargetLock(target), TargetLock(target)], seq(m, _ => ReceiptLock(k)))
  }

  /** A plain added task dispatches without the route lock. */
  function AddUse(child: Pid, target: string): LockUse {
    Dispatch([SequenceLock, SequenceLock], [child], [TargetLock(target), TargetLock(target)])
  }

  /** Enabling a target writes its state twice and dispatches what is pending, one command after the other. */
  function EnableUse(target: string, children: seq<Pid>): LockUse {
    Dispatch([TargetLock(target), TargetLock(target)], children, [TargetLock(target), TargetLock(target)])
  }

  predicate NoRouteLocks(locks: seq<Lock>) {
    forall l :: l in locks ==> !l.RouteLock?
  }

  predicate UseOk(u: LockUse) {
    match u
    case Quick(locks) => NoRouteLocks(locks)
    case Route(before, _, _, records, afterwards) => NoRouteLocks(before) && NoRouteLocks(records) && NoRouteLocks(afterwards)
    case Dispatch(before, _, records) => NoRouteLocks(before) && NoRouteLocks(records)
  }

  // ------------------------------------------------------ their programs

  /** Each lock in turn, released before the next. */
  function Each(locks: seq<Lock>, rest: Program): Program {
    if locks == [] then rest else [Acquire(locks[0]), Release(locks[0])] + Each(locks[1..], rest)
  }

  /** A wait for each child, followed by its records. */
  function Waits(children: seq<Pid>, records: seq<Lock>, rest: Program): Program {
    if children == [] then rest else [Await(children[0])] + Each(records, Waits(children[1..], records, rest))
  }

  /** From the wait for the dispatched command on. */
  function UnderLock(u: LockUse): Program
    requires u.Route?
  {
    Waits(if u.child.Some? then [u.child.value] else [], [],
          Each(u.records, [Release(RouteLock(u.run))] + Each(u.afterwards, [])))
  }

  function ProgramOf(u: LockUse): Program {
    match u
    case Quick(locks) => Each(locks, [])
    case Route(before, r, _, _, _) =>
      Each(before, [Acquire(RouteLock(r))] + Each([SequenceLock, SequenceLock], UnderLock(u)))
    case Dispatch(before, children, records) => Each(before, Waits(children, records, []))
  }

  function ChildrenOf(u: LockUse): seq<Pid> {
    match u
    case Quick(_) => []
    case Route(_, _, child, _, _) => if child.Some? then [child.value] else []
    case Dispatch(_, children, _) => children
  }

  /** The commands a program still waits for, in order. */
  function Awaits(prog: Program): seq<Pid> {
    if prog == [] then []
    else if prog[0].Await? then [prog[0].child] + Awaits(prog[1..])
    else Awaits(prog[1..])
  }

  lemma {:induction false} EachAwaits(locks: seq<Lock>, rest: Program)
    ensures Awaits(Each(locks, rest)) == Awaits(rest)
  {
    if locks != [] {
      EachAwaits(locks[1..], rest);
      var tail := Each(locks[1..], rest);
      assert Each(locks, rest)[1..] == [Release(locks[0])] + tail && Each(locks, rest)[1..][1..] == tail;
    }
  }

  lemma {:induction false} WaitsAwaits(children: seq<Pid>, records: seq<Lock>, rest: Program)
    ensures Awaits(Waits(children, records, rest)) == children + Awaits(rest)
  {
    if children != [] {
      WaitsAwaits(children[1..], records, rest);
      EachAwaits(records, Waits(children[1..], records, rest));
      assert Waits(children, records, rest)[1..] == Each(records, Waits(children[1..], records, rest));
    }
  }

  lemma ProgramAwaits(u: LockUse)
    ensures Awaits(ProgramOf(u)) == ChildrenOf(u)
    ensures u.Route? ==> Awaits(UnderLock(u)) == ChildrenOf(u)
  {
    match u
    case Quick(locks) => EachAwaits(locks, []);
    case Route(before, r, child, records, afterwards) =>
      var end := [Release(RouteLock(r))] + Each(afterwards, []);
      assert end[1..] == Each(afterwards, []);
      EachAwaits(afterwards, []);
      EachAwaits(records, end);
      WaitsAwaits(if child.Some? then [child.value] else [], [], Each(records, end));
      var inner := Each([SequenceLock, SequenceLock], UnderLock(u));
      EachAwaits([SequenceLock, SequenceLock], UnderLock(u));
      assert ([Acquire(RouteLock(r))] + inner)[1..] == inner;
      EachAwaits(before, [Acquire(RouteLock(r))] + inner);
    case Dispatch(before, children, records) =>
      WaitsAwaits(children, records, []);
      EachAwaits(before, Waits(children, records, []));
  }

  /** The rest of a command and what it holds: only a routing command takes a route lock, that of its run,
      with nothing held and before it dispatches; a routing command waits under that lock for its child, a dispatching one with
      nothing held for its children; a lock below the route lock is held alone; all is released in the end. */
  predicate Shaped(u: LockUse, rest: Program, held: set<Lock>) {
    && (forall h :: h in held && h.RouteLock? ==> u.Route? && h == RouteLock(u.run))
    && if rest == [] then held == {}
       else
         match rest[0]
         case Acquire(l) =>
           && (if l.RouteLock? then u.Route? && l == RouteLock(u.run) && held == {} && Awaits(rest) == ChildrenOf(u)
               else forall h :: h in held ==> h.RouteLock?)
           && Shaped(u, rest[1..], held + {l})
         case Release(l) => l in held && Shaped(u, rest[1..], held - {l})
         case Await(x) =>
           && (match u
               case Quick(_) => false
               case Route(_, r, child, _, _) => child == Some(x) && held == {RouteLock(r)}
               case Dispatch(_, children, _) => x in children && held == {})
           && Shaped(u, rest[1..], held)
  }

  lemma {:induction false} EachShaped(u: LockUse, locks: seq<Lock>, rest: Program, held: set<Lock>)
    requires NoRouteLocks(locks) && Shaped(u, rest, held) && forall h :: h in held ==> h.RouteLock?
    ensures Shaped(u, Each(locks, rest), held)
  {
    if locks != [] {
      EachShaped(u, locks[1..], rest, held);
      var l := locks[0];
      var tail := Each(locks[1..], rest);
      var prog := Each(locks, rest);
      assert prog[1..] == [Release(l)] + tail && prog[1..][1..] == tail;
      assert l in locks && held + {l} - {l} == held;
      assert Shaped(u, prog[1..], held + {l});
    }
  }

  lemma {:induction false} WaitsShaped(u: LockUse, children: seq<Pid>, records: seq<Lock>, rest: Program, held: set<Lock>)
    requires Shaped(u, rest, held) && NoRouteLocks(records)
    requires match u
             case Quick(_) => children == []
             case Route(_, r, child, _, _) => held == {RouteLock(r)} && forall x :: x in children ==> child == Some(x)
             case Dispatch(_, cs, _) => held == {} && forall x :: x in children ==> x in cs
    ensures Shaped(u, Waits(children, records, rest), held)
  {
    if children != [] {
      WaitsShaped(u, children[1..], records, rest, held);
      var tail := Waits(children[1..], records, rest);
      EachShaped(u, records, tail, held);
      assert Waits(children, records, rest)[1..] == Each(records, tail);
    }
  }

  lemma UnderLockShaped(u: LockUse)
    requires u.Route? && UseOk(u)
    ensures Shaped(u, UnderLock(u), {RouteLock(u.run)})
  {
    var held := {RouteLock(u.run)};
    EachShaped(u, u.afterwards, [], {});
    var end := [Release(RouteLock(u.run))] + Each(u.afterwards, []);
    assert end[1..] == Each(u.afterwards, []) && held - {RouteLock(u.run)} == {};
    EachShaped(u, u.records, end, held);
    WaitsShaped(u, if u.child.Some? then [u.child.value] else [], [], Each(u.records, end), held);
  }

  lemma ProgramShaped(u: LockUse)
    requires UseOk(u)
    ensures Shaped(u, ProgramOf(u), {})
  {
    match u
    case Quick(locks) => EachShaped(u, locks, [], {});
    case Route(before, r, _, _, _) =>
      UnderLockShaped(u);
      var inner := Each([SequenceLock, SequenceLock], UnderLock(u));
      EachShaped(u, [SequenceLock, SequenceLock], UnderLock(u), {RouteLock(r)});
      ProgramAwaits(u);
      EachAwaits(before, [Acquire(RouteLock(r))] + inner);
      assert ([Acquire(RouteLock(r))] + inner)[1..] == inner && {} + {RouteLock(r)} == {RouteLock(r)};
      EachShaped(u, before, [Acquire(RouteLock(r))] + inner, {});
    case Dispatch(before, children, records) =>
      WaitsShaped(u, children, records, [], {});
      EachShaped(u, before, Waits(children, records, []), {});
  }

  lemma {:induction false} ShapedOrdered(u: LockUse, rest: Program, held: set<Lock>)
    requires Shaped(u, rest, held)
    ensures Ordered(rest, held)
    decreases |rest|
  {
    if rest != [] {
      match rest[0]
      case Acquire(l) => ShapedOrdered(u, rest[1..], held + {l});
      case Release(l) => ShapedOrdered(u, rest[1..], held - {l});
      case Await(_) => ShapedOrdered(u, rest[1..], held);
    }
  }

  lemma UseOrdered(u: LockUse)
    requires UseOk(u)
    ensures Ordered(ProgramOf(u), {})
  {
    ProgramShaped(u);
    ShapedOrdered(u, ProgramOf(u), {});
  }

  /** The locking of every command keeps the discipline: reading, accepting, sending, starting a run,
      responding, heartbeats and disabling a target, routing, completing with review, rerouting and
      replanning, adding without routing data and enabling a target. */
  lemma CommandsOrdered(k: Coordinator.ReceiptKey, r: RunId, child: Option<Pid>, target: string, n: nat, m: nat, c: Pid,
                        children: seq<Pid>)
    ensures Ordered(ProgramOf(ReadUse(k)), {}) && Ordered(ProgramOf(AcceptUse(k)), {})
    ensures Ordered(ProgramOf(SendUse()), {}) && Ordered(ProgramOf(StartUse()), {}) && Ordered(ProgramOf(RespondUse(k)), {})
    ensures Ordered(ProgramOf(TargetUse(target, n)), {}) && Ordered(ProgramOf(RouteUse(r, child, target)), {})
    ensures Ordered(ProgramOf(RerouteUse(k, n, r, child, target, m)), {})
    ensures Ordered(ProgramOf(AddUse(c, target)), {}) && Ordered(ProgramOf(EnableUse(target, children)), {})
  {
    hide ProgramOf;
    hide Ordered;
    UseOrdered(ReadUse(k));
    UseOrdered(AcceptUse(k));
    UseOrdered(SendUse());
    UseOrdered(StartUse());
    UseOrdered(RespondUse(k));
    UseOrdered(TargetUse(target, n));
    UseOrdered(RouteUse(r, child, target));
    UseOrdered(RerouteUse(k, n, r, child, target, m));
    UseOrdered(AddUse(c, target));
    UseOrdered(EnableUse(target, children));
  }

  // ------------------------------------------------ systems of commands

  /** Every dispatched command is one of the system's and dispatched once; commands are numbered so that it
      comes after the one that dispatches it. */
  ghost predicate Known(uses: map<Pid, LockUse>) {
    && (forall p :: p in uses ==> UseOk(uses[p]) && Distinct(ChildrenOf(uses[p])))
    && (forall p, c :: p in uses && c in ChildrenOf(uses[p]) ==> c in uses && p < c)
    && forall p, q, c :: p in uses && q in uses && c in ChildrenOf(uses[p]) && c in ChildrenOf(uses[q]) ==> p == q
  }

  ghost predicate Distinct(ps: seq<Pid>) {
    forall i, j :: 0 <= i < j < |ps| ==> ps[i] != ps[j]
  }

  ghost predicate Dispatched(uses: map<Pid, LockUse>, c: Pid) {
    exists p :: p in uses && c in ChildrenOf(uses[p])
  }

  /** At first nothing is held, and the commands nobody dispatches are started. */
  ghost predicate Fresh(s: System, uses: map<Pid, LockUse>) {
    && Known(uses) && s.holder == map[] && s.rest.Keys == uses.Keys
    && (forall p :: p in uses ==> p in s.rest && s.rest[p] == ProgramOf(uses[p]))
    && forall p :: p in s.started <==> p in uses && !Dispatched(uses, p)
  }

  predicate Ended(s: System, p: Pid) {
    p in s.started && p in s.rest && s.rest[p] == []
  }

  /** Commands are dispatched one after the other: a later one is started only once an earlier one has ended.
      As long as the command that dispatches them is unfinished, it still waits for a last part of them. */
  ghost predicate InTurn(s: System, u: LockUse, rest: Program) {
    var cs, n := ChildrenOf(u), |Awaits(rest)|;
    && (forall i, j :: 0 <= i < j < |cs| && cs[j] in s.started ==> Ended(s, cs[i]))
    && (rest != [] ==> && n <= |cs| && Awaits(rest) == cs[|cs| - n..]
                       && (forall i :: 0 <= i < |cs| - n ==> Ended(s, cs[i]))
                       && (forall i :: |cs| - n <= i < |cs| && cs[i] in s.started ==> i == |cs| - n && rest[0] == Await(cs[i])))
  }

  /** What holds of each command in every state that is reached. */
  ghost predicate Proceeds(s: System, u: LockUse, p: Pid) {
    p in s.rest && Shaped(u, s.rest[p], Held(s, p)) && InTurn(s, u, s.rest[p]) && (p !in s.started ==> s.rest[p] == ProgramOf(u))
  }

  /** What holds in every state that is reached. */
  ghost predicate Following(s: System, uses: map<Pid, LockUse>) {
    && s.rest.Keys == uses.Keys && s.started <= uses.Keys
    && (forall p :: p in uses ==> Proceeds(s, uses[p], p))
    && (forall l :: l in s.holder ==> s.holder[l] in s.started)
    && (forall p :: p in uses && p !in s.started ==> Dispatched(uses, p))
    && (forall p, c :: p in uses && c in ChildrenOf(uses[p]) && c in s.started ==> p in s.started)
  }

  lemma FreshFacts(s: System, uses: map<Pid, LockUse>, p: Pid)
    requires Fresh(s, uses) && p in uses
    ensures p in s.rest && s.rest[p] == ProgramOf(uses[p]) && UseOk(uses[p]) && Held(s, p) == {}
    ensures forall c :: c in ChildrenOf(uses[p]) ==> c !in s.started
  {
    hide ProgramOf;
    forall c | c in ChildrenOf(uses[p]) ensures c !in s.started { assert Dispatched(uses, c); }
  }

  lemma FreshProceeds(s: System, uses: map<Pid, LockUse>, p: Pid)
    requires Fresh(s, uses) && p in uses
    ensures Proceeds(s, uses[p], p)
  {
    hide Fresh;
    hide ProgramOf;
    hide Shaped;
    hide Awaits;
    hide UseOk;
    FreshFacts(s, uses, p);
    hide Held;
    ProgramShaped(uses[p]);
    ProgramAwaits(uses[p]);
    var cs := ChildrenOf(uses[p]);
    hide ChildrenOf;
    forall i | 0 <= i < |cs| ensures cs[i] !in s.started { assert cs[i] in cs; }
  }

  lemma FreshFollows(s: System, uses: map<Pid, LockUse>)
    requires Fresh(s, uses)
    ensures Following(s, uses)
  {
    hide ProgramOf;
    hide Proceeds;
    forall p | p in uses ensures Proceeds(s, uses[p], p) { FreshProceeds(s, uses, p); }
  }

  lemma HeldAfter(s: System, u: LockUse, p: Pid, q: Pid)
    requires CanStep(s, p) && Shaped(u, s.rest[p], Held(s, p))
    ensures Held(Step(s, p), q)
            == if q != p then Held(s, q)
               else match s.rest[p][0]
                    case Acquire(l) => Held(s, p) + {l}
                    case Release(l) => Held(s, p) - {l}
                    case Await(_) => Held(s, p)
  {
  }

  /** What has ended stays so, and a step starts at most what it stands at. */
  lemma StepStarts(s: System, p: Pid, c: Pid)
    requires CanStep(s, p)
    ensures Ended(s, c) ==> Ended(Step(s, p), c)
    ensures c in Step(s, p).started <==> c in s.started || s.rest[p][0] == Await(c)
    ensures c != p && c in s.rest ==> Step(s, p).rest[c] == s.rest[c]
  {
  }

  lemma NotShared(uses: map<Pid, LockUse>, p: Pid, q: Pid, c: Pid)
    requires Known(uses) && p in uses && q in uses && p != q && c in ChildrenOf(uses[p])
    ensures c !in ChildrenOf(uses[q])
  {
  }

  lemma OtherInTurn(s: System, uses: map<Pid, LockUse>, p: Pid, q: Pid)
    requires Known(uses) && CanStep(s, p) && p in uses && q in uses && q != p && q in s.rest
    requires InTurn(s, uses[p], s.rest[p]) && InTurn(s, uses[q], s.rest[q])
    ensures var s' := Step(s, p); q in s'.rest && InTurn(s', uses[q], s'.rest[q])
  {
    var s', cs := Step(s, p), ChildrenOf(uses[q]);
    if s.rest[p][0].Await? {
      NextOf(s, uses[p], s.rest[p]);
      NotShared(uses, p, q, s.rest[p][0].child);
    }
    hide Known;
    hide Awaits;
    forall i | 0 <= i < |cs| ensures cs[i] in s'.started <==> cs[i] in s.started { StepStarts(s, p, cs[i]); }
    forall i | 0 <= i < |cs| && Ended(s, cs[i]) ensures Ended(s', cs[i]) { StepStarts(s, p, cs[i]); }
    StepStarts(s, p, q);
    hide Step;
    hide CanStep;
    hide Ended;
  }

  lemma OwnInTurn(s: System, u: LockUse, p: Pid)
    requires CanStep(s, p) && InTurn(s, u, s.rest[p]) && Distinct(ChildrenOf(u)) && p !in ChildrenOf(u)
    ensures InTurn(Step(s, p), u, Step(s, p).rest[p])
  {
    var s', cs, n := Step(s, p), ChildrenOf(u), |Awaits(s.rest[p])|;
    forall i | 0 <= i < |cs| && Ended(s, cs[i]) ensures Ended(s', cs[i]) { StepStarts(s, p, cs[i]); }
    if s.rest[p][0].Await? {
      var c := s.rest[p][0].child;
      assert c == Awaits(s.rest[p])[0] == cs[|cs| - n];
      forall i | 0 <= i < |cs| ensures cs[i] in s'.started <==> cs[i] in s.started || i == |cs| - n {
        StepStarts(s, p, cs[i]);
        if i < |cs| - n { assert cs[i] != c; }
        if i > |cs| - n { assert cs[i] != c; }
      }
    }
  }

  lemma StepProceeds(s: System, uses: map<Pid, LockUse>, p: Pid, q: Pid)
    requires Known(uses) && CanStep(s, p) && p in uses && q in uses && Proceeds(s, uses[p], p) && Proceeds(s, uses[q], q)
    ensures Proceeds(Step(s, p), uses[q], q)
  {
    hide ProgramOf;
    if q == p { OwnChildren(uses, p); OwnInTurn(s, uses[p], p); } else { OtherInTurn(s, uses, p, q); }
    hide InTurn;
    hide Known;
    HeldAfter(s, uses[p], p, q);
  }

  /** What p stands at is one of its children. */
  lemma NextOf(s: System, u: LockUse, rest: Program)
    requires InTurn(s, u, rest) && rest != [] && rest[0].Await?
    ensures var c, cs := rest[0].child, ChildrenOf(u);
            |Awaits(rest)| > 0 && |Awaits(rest)| <= |cs| && c == cs[|cs| - |Awaits(rest)|] && c in cs
  {
  }

  lemma StepFollows(s: System, uses: map<Pid, LockUse>, p: Pid)
    requires Known(uses) && Following(s, uses) && CanStep(s, p)
    ensures Following(Step(s, p), uses)
  {
    hide Proceeds;
    hide Known;
    hide InTurn;
    hide Shaped;
    var s' := Step(s, p);
    assert p in s.rest.Keys;
    forall q | q in uses ensures Proceeds(s', uses[q], q) { StepProceeds(s, uses, p, q); }
    assert s'.rest.Keys == s.rest.Keys;
    if s.rest[p][0].Await? { NextChild(s, uses, p); }
    forall q, c | q in uses && c in ChildrenOf(uses[q]) && c in s'.started ensures q in s'.started {
      if c !in s.started { OneDispatcher(uses, p, q, c); }
    }
  }

  lemma OneDispatcher(uses: map<Pid, LockUse>, p: Pid, q: Pid, c: Pid)
    requires Known(uses) && p in uses && q in uses && c in ChildrenOf(uses[p]) && c in ChildrenOf(uses[q])
    ensures p == q
  {
  }

  lemma OwnChildren(uses: map<Pid, LockUse>, p: Pid)
    requires Known(uses) && p in uses
    ensures Distinct(ChildrenOf(uses[p])) && p !in ChildrenOf(uses[p])
  {
  }

  /** What a command stands at is one of its own. */
  lemma NextChild(s: System, uses: map<Pid, LockUse>, p: Pid)
    requires Known(uses) && Following(s, uses) && p in uses && s.rest[p] != [] && s.rest[p][0].Await?
    ensures var c, cs := s.rest[p][0].child, ChildrenOf(uses[p]);
            && c in uses && |Awaits(s.rest[p])| > 0 && |Awaits(s.rest[p])| <= |cs| && c == cs[|cs| - |Awaits(s.rest[p])|]
            && c in cs
  {
    hide Shaped;
    hide ProgramOf;
    assert Proceeds(s, uses[p], p);
    NextOf(s, uses[p], s.rest[p]);
    hide InTurn;
    hide Following;
    OwnChild(uses, p, s.rest[p][0].child);
  }

  lemma OwnChild(uses: map<Pid, LockUse>, p: Pid, c: Pid)
    requires Known(uses) && p in uses && c in ChildrenOf(uses[p])
    ensures c in uses && p < c
  {
  }

  lemma KillProceeds(s: System, u: LockUse, p: Pid, q: Pid)
    requires Unfinished(s, p) && Proceeds(s, u, q)
    ensures Proceeds(Kill(s, p), u, q)
  {
    hide ProgramOf;
    hide Awaits;
    var s' := Kill(s, p);
    assert Held(s', q) == if q == p then {} else Held(s, q);
    forall c | Ended(s, c) ensures Ended(s', c) {}
  }

  lemma KillFollows(s: System, uses: map<Pid, LockUse>, p: Pid)
    requires Following(s, uses)
    ensures Following(Kill(s, p), uses)
  {
    hide Proceeds;
    var s' := Kill(s, p);
    if s' != s {
      forall q | q in uses ensures Proceeds(s', uses[q], q) { KillProceeds(s, uses[q], p, q); }
      assert s'.rest.Keys == s.rest.Keys;
    }
  }

  lemma {:induction false} AlwaysFollows(s: System, uses: map<Pid, LockUse>, events: seq<Event>)
    requires Known(uses) && Following(s, uses)
    ensures Following(Run(s, events), uses)
  {
    hide Following;
    hide Known;
    hide Step;
    hide CanStep;
    hide Kill;
    if events != [] {
      var t := Run(s, events[..|events| - 1]);
      AlwaysFollows(s, uses, events[..|events| - 1]);
      match events[|events| - 1] {
        case Go(p) => if CanStep(t, p) { StepFollows(t, uses, p); }
        case Die(p) => KillFollows(t, uses, p);
      }
    }
  }
}
