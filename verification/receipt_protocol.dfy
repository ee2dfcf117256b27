/** The copies of one receipt on disk under any number of updaters, movers and lookups, one file
    operation at a time, with a crash possible between any two. */
module ReceiptProtocol {
  import opened Wrappers
  import opened Protocol

  type Copies = map<Folder, Receipt>
  type Pid = nat

  /** The order in which folders are scanned. */
  function Rank(f: Folder): nat {
    match f
    case Unread => 0
    case Active => 1
    case Done => 2
    case Dead => 3
  }

  function FolderAt(i: nat): Folder
    requires i < 4
    ensures Rank(FolderAt(i)) == i
  {
    if i == 0 then Unread else if i == 1 then Active else if i == 2 then Done else Dead
  }

  lemma RankInjective(f: Folder, g: Folder)
    requires Rank(f) == Rank(g)
    ensures f == g
  {
  }

  /** The first copy in scan order is the one every operation sees. */
  ghost predicate IsFirst(files: Copies, f: Folder) {
    f in files && forall g :: g in files ==> Rank(f) <= Rank(g)
  }

  /** What a process does to the receipt. A lookup takes no lock. */
  datatype Op = Update(fn: Receipt -> Receipt) | Move(from: Folder, to: Folder) | Lookup

  datatype Pc =
    | Idle
    | Scanning(i: nat)
    | Reading(at: Folder)
    | Writing(at: Folder, doc: Receipt)
    | Removing
    | Unlocking(ok: bool)
    | Ended(ok: bool)
    | Crashed

  datatype Proc = Proc(op: Op, pc: Pc)

  /** The log lists the processes whose operations took effect, in order. */
  datatype System = System(files: Copies, lock: Option<Pid>, procs: map<Pid, Proc>, log: seq<Pid>)

  datatype Event = Go(p: Pid) | Kill(p: Pid)

  /** An update that may be written: it keeps the folder and leaves a valid receipt. */
  predicate Writable(op: Op, at: Folder, r: Receipt) {
    match op
    case Update(fn) => fn(r).folder == r.folder && fn(r).folder == at && ReceiptValid(fn(r))
    case Move(from, to) => at == from && ReceiptValid(r.(folder := to))
    case Lookup => false
  }

  function Written(op: Op, r: Receipt): Receipt {
    match op
    case Update(fn) => fn(r)
    case Move(_, to) => r.(folder := to)
    case Lookup => r
  }

  function At(s: System, p: Pid, pc: Pc): System
    requires p in s.procs
  {
    s.(procs := s.procs[p := s.procs[p].(pc := pc)])
  }

  /** A forward move takes effect when it removes its source, any other write at once. */
  predicate EffectOnWrite(op: Op) {
    match op
    case Update(_) => true
    case Move(from, to) => Rank(to) < Rank(from)
    case Lookup => false
  }

  function Logged(s: System, p: Pid): System {
    s.(log := s.log + [p])
  }

  /** One step of process p; a process that cannot step leaves the system as it is. */
  function Step(s: System, p: Pid): System {
    if p !in s.procs then s
    else
      var op, pc := s.procs[p].op, s.procs[p].pc;
      match pc
      case Idle =>
        if op.Lookup? then At(s, p, Scanning(0))
        else if s.lock.None? then At(s.(lock := Some(p)), p, Scanning(0))
        else s
      case Scanning(i) =>
        if i >= 4 then At(s, p, if op.Lookup? then Ended(false) else Unlocking(false))
        else if FolderAt(i) in s.files then At(s, p, if op.Lookup? then Ended(true) else Reading(FolderAt(i)))
        else At(s, p, Scanning(i + 1))
      case Reading(at) =>
        if at in s.files && Writable(op, at, s.files[at]) then At(s, p, Writing(at, Written(op, s.files[at])))
        else At(s, p, Unlocking(false))
      case Writing(at, doc) =>
        var s1 := s.(files := s.files[doc.folder := doc]);
        var s2 := if EffectOnWrite(op) then Logged(s1, p) else s1;
        At(s2, p, if op.Move? then Removing else Unlocking(true))
      case Removing =>
        if !op.Move? then s
        else
          var s1 := s.(files := s.files - {op.from});
          At(if EffectOnWrite(op) then s1 else Logged(s1, p), p, Unlocking(true))
      case Unlocking(ok) => At(s.(lock := None), p, Ended(ok))
      case Ended(_) => s
      case Crashed => s
  }

  /** The kernel drops the lock of a process that dies. */
  function Crash(s: System, p: Pid): System {
    if p !in s.procs || s.procs[p].pc.Ended? then s
    else At(if s.lock == Some(p) then s.(lock := None) else s, p, Crashed)
  }

  function Do(s: System, e: Event): System {
    match e
    case Go(p) => Step(s, p)
    case Kill(p) => Crash(s, p)
  }

  function Run(s: System, events: seq<Event>): System {
    if events == [] then s else Do(Run(s, events[..|events| - 1]), events[|events| - 1])
  }

  // ------------------------------------------------------- the invariant

  predicate Locked(pc: Pc) {
    pc.Scanning? || pc.Reading? || pc.Writing? || pc.Removing? || pc.Unlocking?
  }

  /** Moves name two different folders. */
  predicate OpOk(op: Op) {
    op.Move? ==> op.from != op.to
  }

  /** Every copy is valid and says which folder it is in. */
  ghost predicate FilesOk(files: Copies) {
    files != map[] && forall f :: f in files ==> files[f].folder == f && ReceiptValid(files[f])
  }

  /** What the holder of the lock knows about the copies at each point. */
  ghost predicate HolderKnows(files: Copies, proc: Proc) {
    var op := proc.op;
    match proc.pc
    case Scanning(i) => i <= 4 && forall f :: f in files ==> Rank(f) >= i
    case Reading(at) => IsFirst(files, at)
    case Writing(at, doc) =>
      IsFirst(files, at) && Writable(op, at, files[at]) && doc == Written(op, files[at]) && !op.Lookup?
    case Removing =>
      && op.Move? && op.from in files && op.to in files
      && files[op.to] == files[op.from].(folder := op.to)
      && (forall g :: g in files && g != op.to ==> Rank(op.from) <= Rank(g))
    case _ => true
  }

  ghost predicate Sane(s: System) {
    && FilesOk(s.files)
    && (forall p :: p in s.procs ==> OpOk(s.procs[p].op))
    && (s.lock.Some? ==> s.lock.value in s.procs)
    && (forall p :: p in s.procs && !s.procs[p].op.Lookup? ==> (s.lock == Some(p) <==> Locked(s.procs[p].pc)))
    && (forall p :: p in s.procs && s.procs[p].op.Lookup? ==>
          s.lock != Some(p) && (s.procs[p].pc.Idle? || s.procs[p].pc.Scanning? || s.procs[p].pc.Ended? || s.procs[p].pc.Crashed?))
    && (s.lock.Some? ==> HolderKnows(s.files, s.procs[s.lock.value]))
  }

  lemma AtSane(s: System, p: Pid, pc: Pc)
    requires Sane(s) && s.lock == Some(p) && Locked(pc)
    requires HolderKnows(s.files, s.procs[p].(pc := pc))
    ensures Sane(At(s, p, pc))
  {
    hide HolderKnows;
    hide FilesOk;
  }

  /** The holder's step to a new state of the files. */
  lemma HolderSane(s: System, p: Pid, files: Copies, log: seq<Pid>, pc: Pc)
    requires Sane(s) && s.lock == Some(p) && Locked(pc) && FilesOk(files)
    requires HolderKnows(files, s.procs[p].(pc := pc))
    ensures Sane(At(s.(files := files, log := log), p, pc))
  {
    hide HolderKnows;
    hide FilesOk;
  }

  lemma ReleaseSane(s: System, p: Pid, pc: Pc)
    requires Sane(s) && s.lock == Some(p) && (pc.Ended? || pc.Crashed?)
    ensures Sane(At(s.(lock := None), p, pc))
  {
    hide HolderKnows;
    hide FilesOk;
  }

  lemma OutsideSane(s: System, p: Pid, pc: Pc)
    requires Sane(s) && p in s.procs && s.lock != Some(p)
    requires if s.procs[p].op.Lookup? then pc.Idle? || pc.Scanning? || pc.Ended? || pc.Crashed? else !Locked(pc)
    ensures Sane(At(s, p, pc))
  {
    hide HolderKnows;
    hide FilesOk;
  }

  lemma LockSane(s: System, p: Pid)
    requires Sane(s) && p in s.procs && s.lock.None? && !s.procs[p].op.Lookup?
    ensures Sane(At(s.(lock := Some(p)), p, Scanning(0)))
  {
    hide FilesOk;
  }

  /** Scanning in order finds the first copy. */
  lemma ScanFindsFirst(files: Copies, i: nat)
    requires i < 4 && forall f :: f in files ==> Rank(f) >= i
    ensures FolderAt(i) in files ==> IsFirst(files, FolderAt(i))
    ensures FolderAt(i) !in files ==> forall f :: f in files ==> Rank(f) >= i + 1
  {
    forall f | f in files && Rank(f) == i ensures f == FolderAt(i) { RankInjective(f, FolderAt(i)); }
  }

  lemma WriteSane(s: System, p: Pid)
    requires Sane(s) && s.lock == Some(p) && s.procs[p].pc.Writing?
    ensures Sane(Step(s, p))
  {
    var op, at, doc := s.procs[p].op, s.procs[p].pc.at, s.procs[p].pc.doc;
    var files := s.files[doc.folder := doc];
    assert FilesOk(files);
    var log := if EffectOnWrite(op) then s.log + [p] else s.log;
    HolderSane(s, p, files, log, if op.Move? then Removing else Unlocking(true));
  }

  lemma RemoveSane(s: System, p: Pid)
    requires Sane(s) && s.lock == Some(p) && s.procs[p].pc.Removing?
    ensures Sane(Step(s, p))
  {
    var op := s.procs[p].op;
    var files := s.files - {op.from};
    assert op.to in files;
    HolderSane(s, p, files, if EffectOnWrite(op) then s.log else s.log + [p], Unlocking(true));
  }

  lemma StepSane(s: System, p: Pid)
    requires Sane(s)
    ensures Sane(Step(s, p))
  {
    hide FilesOk;
    if p in s.procs {
      var op, pc := s.procs[p].op, s.procs[p].pc;
      match pc {
        case Idle =>
          if op.Lookup? { OutsideSane(s, p, Scanning(0)); }
          else if s.lock.None? { LockSane(s, p); }
        case Scanning(i) =>
          if op.Lookup? {
            OutsideSane(s, p, Ended(false));
            OutsideSane(s, p, Ended(true));
            OutsideSane(s, p, Scanning(i + 1));
          } else if i >= 4 {
            AtSane(s, p, Unlocking(false));
          } else {
            ScanFindsFirst(s.files, i);
            AtSane(s, p, if FolderAt(i) in s.files then Reading(FolderAt(i)) else Scanning(i + 1));
          }
        case Reading(at) =>
          AtSane(s, p, if Writable(op, at, s.files[at]) then Writing(at, Written(op, s.files[at])) else Unlocking(false));
        case Writing(at, doc) => WriteSane(s, p);
        case Removing => RemoveSane(s, p);
        case Unlocking(ok) => ReleaseSane(s, p, Ended(ok));
        case Ended(_) =>
        case Crashed =>
      }
    }
  }

  lemma CrashSane(s: System, p: Pid)
    requires Sane(s)
    ensures Sane(Crash(s, p))
  {
    hide FilesOk;
    hide HolderKnows;
    if p in s.procs && !s.procs[p].pc.Ended? {
      if s.lock == Some(p) { ReleaseSane(s, p, Crashed); } else { OutsideSane(s, p, Crashed); }
    }
  }

  /** A start: any copies the checks allow, nobody running. */
  ghost predicate Initial(s: System) {
    && FilesOk(s.files) && s.lock.None? && s.log == []
    && forall p :: p in s.procs ==> s.procs[p].pc == Idle && OpOk(s.procs[p].op)
  }

  /** A valid copy always exists, whatever the schedule and the crashes. */
  lemma {:induction false} AlwaysSane(s: System, events: seq<Event>)
    requires Initial(s)
    ensures Sane(Run(s, events))
  {
    hide FilesOk;
    hide HolderKnows;
    if events != [] {
      AlwaysSane(s, events[..|events| - 1]);
      var t := Run(s, events[..|events| - 1]);
      match events[|events| - 1] {
        case Go(p) => StepSane(t, p);
        case Kill(p) => CrashSane(t, p);
      }
    }
  }
}
