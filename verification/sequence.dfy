/** Sequence numbers under any schedule of allocators, with crashes between any two file operations. */
module Sequence {
  import opened Wrappers
  import opened Ids

  type Pid = nat

  datatype Pc = Idle | Locked | Read(v: nat) | Wrote(n: nat) | Returned(n: nat) | Crashed

  /** The next-seq file, the sequence lock, and one allocation for each process. */
  datatype System = System(counter: Option<nat>, lock: Option<Pid>, procs: map<Pid, Pc>)

  datatype Event = Go(p: Pid) | Kill(p: Pid)

  function Value(counter: Option<nat>): nat {
    if counter.Some? then counter.value else 0
  }

  function At(s: System, p: Pid, pc: Pc): System {
    s.(procs := s.procs[p := pc])
  }

  /** Lock, read, write one more, unlock and return. */
  function Step(s: System, p: Pid): System {
    if p !in s.procs then s
    else
      match s.procs[p]
      case Idle => if s.lock.None? then At(s.(lock := Some(p)), p, Locked) else s
      case Locked => At(s, p, Read(Value(s.counter)))
      case Read(v) => At(s.(counter := Some(v + 1)), p, Wrote(v + 1))
      case Wrote(n) => At(s.(lock := None), p, Returned(n))
      case Returned(_) => s
      case Crashed => s
  }

  function Crash(s: System, p: Pid): System {
    if p !in s.procs || s.procs[p].Returned? then s
    else At(if s.lock == Some(p) then s.(lock := None) else s, p, Crashed)
  }

  function Run(s: System, events: seq<Event>): System {
    if events == [] then s
    else
      match events[|events| - 1]
      case Go(p) => Step(Run(s, events[..|events| - 1]), p)
      case Kill(p) => Crash(Run(s, events[..|events| - 1]), p)
  }

  predicate Holds(pc: Pc) {
    pc.Locked? || pc.Read? || pc.Wrote?
  }

  /** Only one process holds the lock. */
  ghost predicate Exclusive(s: System) {
    && (s.lock.Some? ==> s.lock.value in s.procs)
    && forall p :: p in s.procs ==> (s.lock == Some(p) <==> Holds(s.procs[p]))
  }

  /** The holder knows the counter, and what was returned is not above it. */
  predicate PcOk(pc: Pc, value: nat) {
    match pc
    case Read(v) => v == value
    case Wrote(n) => n == value && n > 0
    case Returned(n) => 0 < n <= value
    case _ => true
  }

  predicate Given(pc: Pc) {
    pc.Wrote? || pc.Returned?
  }

  /** No number was given out twice. */
  ghost predicate Apart(procs: map<Pid, Pc>) {
    forall p, q :: p in procs && q in procs && p != q && Given(procs[p]) && Given(procs[q]) ==> procs[p].n != procs[q].n
  }

  ghost predicate Sane(s: System) {
    Exclusive(s) && (forall p :: p in s.procs ==> PcOk(s.procs[p], Value(s.counter))) && Apart(s.procs)
  }

  /** Writing the next number: nobody has one that high. */
  lemma WriteSane(s: System, p: Pid)
    requires Sane(s) && p in s.procs && s.procs[p].Read?
    ensures Sane(Step(s, p)) && Value(s.counter) <= Value(Step(s, p).counter)
  {
    var s' := Step(s, p);
    forall q | q in s'.procs ensures PcOk(s'.procs[q], Value(s'.counter)) {
      assert q != p ==> !Holds(s.procs[q]);
    }
  }

  lemma StepSane(s: System, p: Pid)
    requires Sane(s)
    ensures Sane(Step(s, p)) && Value(s.counter) <= Value(Step(s, p).counter)
  {
    if p in s.procs && s.procs[p].Read? {
      WriteSane(s, p);
    } else {
      QuietSane(s, p);
    }
  }

  lemma QuietSane(s: System, p: Pid)
    requires Sane(s) && (p in s.procs ==> !s.procs[p].Read?)
    ensures Sane(Step(s, p)) && Step(s, p).counter == s.counter
  {
  }

  lemma CrashSane(s: System, p: Pid)
    requires Sane(s)
    ensures Sane(Crash(s, p))
  {
  }

  lemma {:induction false} AlwaysSane(s: System, events: seq<Event>)
    requires s.lock.None? && forall p :: p in s.procs ==> s.procs[p] == Idle
    ensures Sane(Run(s, events)) && Value(s.counter) <= Value(Run(s, events).counter)
  {
    if events != [] {
      var t := Run(s, events[..|events| - 1]);
      AlwaysSane(s, events[..|events| - 1]);
      match events[|events| - 1] {
        case Go(p) => StepSane(t, p);
        case Kill(p) => CrashSane(t, p);
      }
    }
  }

  /** No schedule and no crash makes two allocations return one number, nor a number used before. */
  lemma NeverTwice(s: System, events: seq<Event>, p: Pid, q: Pid)
    requires s.lock.None? && forall x :: x in s.procs ==> s.procs[x] == Idle
    requires p != q && p in Run(s, events).procs && q in Run(s, events).procs
    requires Run(s, events).procs[p].Returned? && Run(s, events).procs[q].Returned?
    ensures Run(s, events).procs[p].n != Run(s, events).procs[q].n
  {
    hide Run;
    AlwaysSane(s, events);
  }

  lemma {:induction false} ReturnsAreNew(s: System, events: seq<Event>, p: Pid)
    requires s.lock.None? && forall x :: x in s.procs ==> s.procs[x] == Idle
    ensures var t := Run(s, events);
            && (p in t.procs && t.procs[p].Wrote? ==> t.procs[p].n > Value(s.counter))
            && (p in t.procs && t.procs[p].Returned? ==> t.procs[p].n > Value(s.counter))
  {
    if events != [] {
      ReturnsAreNew(s, events[..|events| - 1], p);
      AlwaysSane(s, events[..|events| - 1]);
    }
  }

  /** The identifiers made from two allocations differ, and validate exactly below the limit. */
  lemma IdentifiersDiffer(s: System, events: seq<Event>, p: Pid, q: Pid, prefix: string)
    requires s.lock.None? && forall x :: x in s.procs ==> s.procs[x] == Idle
    requires p != q && p in Run(s, events).procs && q in Run(s, events).procs
    requires Run(s, events).procs[p].Returned? && Run(s, events).procs[q].Returned?
    ensures var m, n := Run(s, events).procs[p].n, Run(s, events).procs[q].n;
            && NewId(prefix, m) != NewId(prefix, n)
            && (IsGenerated(NewId(prefix, m), prefix) <==> m < ID_LIMIT)
  {
    hide Run;
    hide NewId;
    NeverTwice(s, events, p, q);
    var m, n := Run(s, events).procs[p].n, Run(s, events).procs[q].n;
    if NewId(prefix, m) == NewId(prefix, n) { NewIdInjective(prefix, m, n); }
    GeneratedExactly(prefix, m);
  }
}
