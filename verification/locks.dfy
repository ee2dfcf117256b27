/** The locks cannot deadlock: the route lock of a run stands above the sequence, receipt and target
    locks, and of those a command holds one at a time. */
module Locks {
  import opened Wrappers
  import opened Protocol
  import opened Coordinator

  type Pid = nat

  datatype Lock = RouteLock(run: RunId) | SequenceLock | ReceiptLock(key: ReceiptKey) | TargetLock(target: string)

  /** What a command does with locks; Await runs a dispatched external command and waits for it to end. */
  datatype Action = Acquire(l: Lock) | Release(l: Lock) | Await(child: Pid)

  type Program = seq<Action>

  /** The rest of each command, who holds each lock, and which commands have been started. */
  datatype System = System(rest: map<Pid, Program>, holder: map<Lock, Pid>, started: set<Pid>)

  function Held(s: System, p: Pid): set<Lock> {
    set l | l in s.holder && s.holder[l] == p
  }

  predicate Unfinished(s: System, p: Pid) {
    p in s.started && p in s.rest && s.rest[p] != []
  }

  /** A started command can step unless the lock it wants is held or the command it started has not ended. */
  predicate CanStep(s: System, p: Pid) {
    && Unfinished(s, p)
    && match s.rest[p][0]
       case Acquire(l) => l !in s.holder
       case Release(_) => true
       case Await(c) => c in s.rest && (c !in s.started || s.rest[c] == [])
  }

  function Step(s: System, p: Pid): System
    requires CanStep(s, p)
  {
    var s1 := s.(rest := s.rest[p := s.rest[p][1..]]);
    match s.rest[p][0]
    case Acquire(l) => s1.(holder := s.holder[l := p])
    case Release(l) => s1.(holder := s.holder - {l})
    case Await(c) => if c in s.started then s1 else s.(started := s.started + {c})
  }

  /** A command that fails or is killed: the kernel releases its locks, and what it dispatched runs on. */
  function Kill(s: System, p: Pid): System {
    if !Unfinished(s, p) then s
    else s.(rest := s.rest[p := []], holder := map l | l in s.holder && s.holder[l] != p :: s.holder[l])
  }

  datatype Event = Go(p: Pid) | Die(p: Pid)

  function Run(s: System, events: seq<Event>): System {
    if events == [] then s
    else
      var t := Run(s, events[..|events| - 1]);
      match events[|events| - 1]
      case Go(p) => if CanStep(t, p) then Step(t, p) else t
      case Die(p) => Kill(t, p)
  }

  // ------------------------------------------------------ the discipline

  /** A route lock is taken with nothing held, any other with at most a route lock held; commands are
      waited for with at most a route lock held; and everything is released in the end. */
  predicate Ordered(prog: Program, held: set<Lock>) {
    if prog == [] then held == {}
    else
      match prog[0]
      case Acquire(l) =>
        (if l.RouteLock? then held == {} else forall h :: h in held ==> h.RouteLock?) && Ordered(prog[1..], held + {l})
      case Release(l) => l in held && Ordered(prog[1..], held - {l})
      case Await(_) => (forall h :: h in held ==> h.RouteLock?) && Ordered(prog[1..], held)
  }

  /** A dispatched command that ends without routing: it takes no route lock and waits for nobody. */
  predicate NeverRoutes(prog: Program) {
    forall a :: a in prog ==> !a.Await? && (a.Acquire? ==> !a.l.RouteLock?)
  }

  /** Every command keeps the discipline, and the dispatched ones end without routing. */
  ghost predicate Disciplined(s: System) {
    && (forall p :: p in s.rest ==> Ordered(s.rest[p], Held(s, p)))
    && (forall l :: l in s.holder ==> s.holder[l] in s.rest && s.holder[l] in s.started)
    && (forall p, a :: p in s.rest && a in s.rest[p] && a.Await? ==> a.child in s.rest && NeverRoutes(s.rest[a.child]))
  }

  lemma StepHeld(s: System, p: Pid, q: Pid)
    requires CanStep(s, p) && Disciplined(s)
    ensures Held(Step(s, p), q) ==
              if q != p then Held(s, q)
              else match s.rest[p][0]
                   case Acquire(l) => Held(s, p) + {l}
                   case Release(l) => Held(s, p) - {l}
                   case Await(_) => Held(s, p)
  {
    assert Ordered(s.rest[p], Held(s, p));
  }

  lemma StepDisciplined(s: System, p: Pid)
    requires CanStep(s, p) && Disciplined(s)
    ensures Disciplined(Step(s, p))
  {
    var s' := Step(s, p);
    forall q | q in s'.rest ensures Ordered(s'.rest[q], Held(s', q)) {
      StepHeld(s, p, q);
      assert Ordered(s.rest[q], Held(s, q));
    }
    forall q, a | q in s'.rest && a in s'.rest[q] && a.Await?
      ensures a.child in s'.rest && NeverRoutes(s'.rest[a.child])
    {
      assert a in s.rest[q];
      RestNeverRoutes(s.rest[a.child]);
    }
  }

  lemma RestNeverRoutes(prog: Program)
    requires NeverRoutes(prog)
    ensures prog != [] ==> NeverRoutes(prog[1..])
  {
  }

  lemma KillDisciplined(s: System, p: Pid)
    requires Disciplined(s)
    ensures Disciplined(Kill(s, p))
  {
    var s' := Kill(s, p);
    forall q | q in s'.rest ensures Ordered(s'.rest[q], Held(s', q)) {
      assert Ordered(s.rest[q], Held(s, q));
      assert s' != s ==> Held(s', q) == if q == p then {} else Held(s, q);
    }
  }

  lemma {:induction false} StaysDisciplined(s: System, events: seq<Event>)
    requires Disciplined(s)
    ensures Disciplined(Run(s, events))
  {
    hide Disciplined;
    hide Step;
    if events != [] {
      var t := Run(s, events[..|events| - 1]);
      StaysDisciplined(s, events[..|events| - 1]);
      match events[|events| - 1] {
        case Go(p) => if CanStep(t, p) { StepDisciplined(t, p); }
        case Die(p) => KillDisciplined(t, p);
      }
    }
  }

  // --------------------------------------------------------- progress

  /** Whoever holds a lock below a route lock can step. */
  lemma LeafHolderSteps(s: System, l: Lock)
    requires Disciplined(s) && l in s.holder && !l.RouteLock?
    ensures CanStep(s, s.holder[l])
  {
    var p := s.holder[l];
    assert Ordered(s.rest[p], Held(s, p));
    assert l in Held(s, p);
  }

  /** With no such lock held, a started command that never routes can step. */
  lemma ChildSteps(s: System, p: Pid)
    requires Disciplined(s) && Unfinished(s, p) && NeverRoutes(s.rest[p])
    requires forall l :: l in s.holder ==> l.RouteLock?
    ensures CanStep(s, p)
  {
    assert s.rest[p][0] in s.rest[p];
    assert Ordered(s.rest[p], Held(s, p));
  }

  /** With the dispatched commands ended too, whoever holds a route lock can step. */
  lemma RouteHolderSteps(s: System, l: Lock)
    requires Disciplined(s) && l in s.holder
    requires forall h :: h in s.holder ==> h.RouteLock?
    requires forall q :: Unfinished(s, q) ==> !NeverRoutes(s.rest[q])
    ensures CanStep(s, s.holder[l])
  {
    var p := s.holder[l];
    assert Ordered(s.rest[p], Held(s, p));
    assert l in Held(s, p);
    assert s.rest[p] != [];
    assert s.rest[p][0] in s.rest[p];
  }

  /** With no lock held at all, every unfinished command can step. */
  lemma FreeSteps(s: System, p: Pid)
    requires Disciplined(s) && s.holder == map[] && Unfinished(s, p)
    requires forall q :: Unfinished(s, q) ==> !NeverRoutes(s.rest[q])
    ensures CanStep(s, p)
  {
    assert Ordered(s.rest[p], Held(s, p));
    assert s.rest[p][0] in s.rest[p];
  }

  /** As long as a started command is unfinished, a started command can step. */
  ghost predicate Progresses(t: System) {
    forall p :: Unfinished(t, p) ==> exists q :: CanStep(t, q)
  }

  /** In every state that disciplined commands reach, with any crashes, they progress. */
  lemma NoDeadlock(s: System, events: seq<Event>)
    requires Disciplined(s)
    ensures Progresses(Run(s, events))
  {
    hide CanStep;
    hide Disciplined;
    hide NeverRoutes;
    hide Run;
    StaysDisciplined(s, events);
    hide Unfinished;
    var t := Run(s, events);
    if p :| Unfinished(t, p) {
      if l :| l in t.holder && !l.RouteLock? {
        LeafHolderSteps(t, l);
      } else if q :| Unfinished(t, q) && NeverRoutes(t.rest[q]) {
        ChildSteps(t, q);
      } else if l :| l in t.holder {
        RouteHolderSteps(t, l);
      } else {
        FreeSteps(t, p);
      }
    }
  }
}
