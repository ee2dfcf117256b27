/** Sending and routing beside receipt moves, one file operation at a time, with a crash or an error
    possible between any two. One run directory and the mailbox are modelled. */
module Dispatch {
  import opened Wrappers
  import opened Protocol
  import opened ReceiptProtocol

  datatype Envelope = Envelope(sha: string, bytes: nat, meta: Option<TaskId>)

  /** A message directory in place. */
  datatype Stored = Stored(env: Envelope, body: string)

  /** A task file: its duplicate key, if it was routed or added with metadata, and its message. */
  datatype TaskFile = TaskFile(key: Option<string>, message: MessageId)

  /** Route and keyed add-task carry a key; a plain add-task carries none; a plain message has no task. */
  datatype Job =
    | Send(key: Option<string>, task: bool, body: string)
    | Shift(message: MessageId, from: Folder, to: Folder)

  datatype Pc =
    | Begin
    | Checking(todo: set<TaskId>)
    | Looking(todo: set<TaskId>, task: TaskId, i: nat, last: Option<Folder>)
    | Numbered(id: TaskId, message: MessageId)
    | Staging(id: TaskId, message: MessageId, env: Envelope, body: Option<string>)
    | Delivering(id: TaskId, message: MessageId)
    | Clearing
    | Holding
    | Between
    | Finish
    | Gone

  datatype Worker = Worker(job: Job, pc: Pc)

  /** The folders that hold a copy of each receipt, the route lock of the run and the receipt locks. */
  datatype System = System(
    seqno: nat, tasks: map<TaskId, TaskFile>, messages: map<MessageId, Stored>, copies: map<MessageId, set<Folder>>,
    routeLock: Option<Pid>, locks: map<MessageId, Pid>, workers: map<Pid, Worker>)

  /** Keys whose class does not allow fanout, and the digest. */
  datatype Rules = Rules(exclusive: set<string>, digest: string -> string)

  /** The choice says which task file a directory listing turns to next. A worker that dies or meets an
      error is gone, and its locks with it. A serial reroute happens at one stroke. */
  datatype Event = Go(p: Pid, choice: TaskId) | Die(p: Pid) | Reroute(message: MessageId, key: Option<string>, body: string)

  function At(s: System, p: Pid, pc: Pc): System
    requires p in s.workers
  {
    s.(workers := s.workers[p := s.workers[p].(pc := pc)])
  }

  predicate Keyed(job: Job) {
    job.Send? && job.task && job.key.Some?
  }

  function CopiesOf(s: System, m: MessageId): set<Folder> {
    if m in s.copies then s.copies[m] else {}
  }

  /** The first copy in scan order, the one that every receipt operation sees. */
  function InForce(c: set<Folder>): (f: Option<Folder>)
    ensures f.Some? ==> f.value in c && forall g :: g in c ==> Rank(f.value) <= Rank(g)
    ensures f.None? ==> Unread !in c && Active !in c && Done !in c && Dead !in c
  {
    if Unread in c then Some(Unread)
    else if Active in c then Some(Active)
    else if Done in c then Some(Done)
    else if Dead in c then Some(Dead)
    else None
  }

  function EnvelopeOf(rules: Rules, body: string, task: Option<TaskId>): Envelope {
    Envelope(rules.digest(body), |body|, task)
  }

  predicate BodyMatches(rules: Rules, m: Stored) {
    m.env.sha == rules.digest(m.body) && m.env.bytes == |m.body|
  }

  // --------------------------------------------------------- sender steps

  function Number(s: System, p: Pid): System
    requires p in s.workers
  {
    At(s.(seqno := s.seqno + 2), p, Numbered(s.seqno + 1, s.seqno + 2))
  }

  /** The kernel drops the locks of a process that ends. */
  function Unlocked(s: System, p: Pid): System {
    s.(routeLock := if s.routeLock == Some(p) then None else s.routeLock,
       locks := map m | m in s.locks && s.locks[m] != p :: s.locks[m])
  }

  function Quit(s: System, p: Pid): System
    requires p in s.workers
  {
    At(Unlocked(s, p), p, Gone)
  }

  /** The lookup of duplicates: each task file in turn, and for one with the key the four inbox folders;
      the last folder that holds the receipt decides. */
  function Check(s: System, p: Pid, rules: Rules, choice: TaskId): System
    requires p in s.workers && s.workers[p].job.Send?
  {
    var job, pc := s.workers[p].job, s.workers[p].pc;
    match pc
    case Checking(todo) =>
      if todo == {} then Number(s, p)
      else if choice !in todo || choice !in s.tasks then s
      else if s.tasks[choice].key != job.key then At(s, p, Checking(todo - {choice}))
      else At(s, p, Looking(todo - {choice}, choice, 0, None))
    case Looking(todo, task, i, last) =>
      if task !in s.tasks then s
      else if i < 4 then
        At(s, p, Looking(todo, task, i + 1, if FolderAt(i) in CopiesOf(s, s.tasks[task].message) then Some(FolderAt(i)) else last))
      else if last == Some(Done) || last == Some(Dead) then At(s, p, Checking(todo))
      else if last.Some? && job.key.Some? && job.key.value !in rules.exclusive then Number(s, p)
      else Quit(s, p)
    case _ => s
  }

  /** Task file, staged message, message in place, receipt: in this order, and none of them over an
      existing file. */
  function Deliver(s: System, p: Pid, rules: Rules): System
    requires p in s.workers && s.workers[p].job.Send?
  {
    var job, pc := s.workers[p].job, s.workers[p].pc;
    match pc
    case Numbered(id, m) =>
      if job.task && id in s.tasks then Quit(s, p)
      else
        var s1 := if job.task then s.(tasks := s.tasks[id := TaskFile(job.key, m)]) else s;
        At(s1, p, Staging(id, m, EnvelopeOf(rules, job.body, if job.task then Some(id) else None), None))
    case Staging(id, m, env, body) =>
      if body.None? then At(s, p, Staging(id, m, env, Some(job.body)))
      else if m in s.messages then Quit(s, p)
      else At(s.(messages := s.messages[m := Stored(env, body.value)]), p, Delivering(id, m))
    case Delivering(id, m) =>
      if m in s.copies then Quit(s, p)
      else At(s.(copies := s.copies[m := {Unread}]), p, Clearing)
    case Clearing => At(Unlocked(s, p), p, Finish)
    case _ => s
  }

  function SendStep(s: System, p: Pid, rules: Rules, choice: TaskId): System
    requires p in s.workers && s.workers[p].job.Send?
  {
    match s.workers[p].pc
    case Begin =>
      if !Keyed(s.workers[p].job) then Number(s, p)
      else if s.routeLock.None? then At(s.(routeLock := Some(p)), p, Checking(s.tasks.Keys))
      else s
    case Checking(_) => Check(s, p, rules, choice)
    case Looking(_, _, _, _) => Check(s, p, rules, choice)
    case _ => Deliver(s, p, rules)
  }

  /** A read, a completion or a requeue under the receipt lock: the first copy must be the source, the
      destination is written, and then the source goes. */
  function ShiftStep(s: System, p: Pid): System
    requires p in s.workers && s.workers[p].job.Shift?
  {
    var job := s.workers[p].job;
    match s.workers[p].pc
    case Begin =>
      if job.message in s.locks then s else At(s.(locks := s.locks[job.message := p]), p, Holding)
    case Holding =>
      if InForce(CopiesOf(s, job.message)) == Some(job.from)
      then At(s.(copies := s.copies[job.message := CopiesOf(s, job.message) + {job.to}]), p, Between)
      else Quit(s, p)
    case Between =>
      At(Unlocked(s, p).(copies := s.copies[job.message := CopiesOf(s, job.message) - {job.from}]), p, Finish)
    case _ => s
  }

  // ------------------------------------------------------- serial reroutes

  predicate Settled(s: System, t: TaskFile) {
    Done in CopiesOf(s, t.message) || Dead in CopiesOf(s, t.message)
  }

  /** Other tasks with the key, not counting the one whose message is m, are settled. */
  predicate NoneLive(s: System, key: string, m: MessageId) {
    forall t :: t in s.tasks && s.tasks[t].key == Some(key) && s.tasks[t].message != m ==> Settled(s, s.tasks[t])
  }

  /** The first copy goes to dead; a receipt whose first copy is finished is left alone. */
  function Suspended(s: System, m: MessageId): System {
    var c := CopiesOf(s, m);
    var f := InForce(c);
    if f == Some(Unread) || f == Some(Active) then s.(copies := s.copies[m := c - {f.value} + {Dead}]) else s
  }

  /** The suspension undone, which needs the dead copy to be the first; another one stands in the way. */
  function Restored(s: System, m: MessageId): System {
    var f := InForce(CopiesOf(s, m));
    if (f == Some(Unread) || f == Some(Active)) && InForce(CopiesOf(Suspended(s, m), m)) == Some(Dead)
    then s.(copies := s.copies[m := {f.value}])
    else Suspended(s, m)
  }

  /** A reroute or replan taken as one step: the receipt in force goes to dead and a task is routed in its
      place, unless a live duplicate forbids it; then the receipt is restored. */
  function SerialReroute(s: System, m: MessageId, key: Option<string>, body: string, rules: Rules): System {
    if s.routeLock.Some? || m !in s.copies || m in s.locks then s
    else
      var s1 := Suspended(s, m);
      var id, new_ := s.seqno + 1, s.seqno + 2;
      if key.Some? && key.value in rules.exclusive && !NoneLive(s1, key.value, new_) then Restored(s, m)
      else if id in s.tasks || new_ in s.messages || new_ in s.copies then Restored(s, m)
      else Routed(s1, id, new_, key, body, rules)
  }

  /** A task with its message and its unread receipt, all at once. */
  function Routed(s: System, id: TaskId, m: MessageId, key: Option<string>, body: string, rules: Rules): System {
    s.(seqno := m, tasks := s.tasks[id := TaskFile(key, m)],
       messages := s.messages[m := Stored(EnvelopeOf(rules, body, Some(id)), body)],
       copies := s.copies[m := {Unread}])
  }

  function Do(s: System, e: Event, rules: Rules): System {
    match e
    case Go(p, choice) =>
      if p !in s.workers then s
      else if s.workers[p].job.Send? then SendStep(s, p, rules, choice)
      else ShiftStep(s, p)
    case Die(p) => if p in s.workers && !s.workers[p].pc.Finish? then Quit(s, p) else s
    case Reroute(m, key, body) => SerialReroute(s, m, key, body, rules)
  }

  function Run(s: System, events: seq<Event>, rules: Rules): System {
    if events == [] then s else Do(Run(s, events[..|events| - 1], rules), events[|events| - 1], rules)
  }

  /** Nothing on disk, nobody at work; commands take receipts out of unread and active only. */
  ghost predicate Initial(s: System) {
    && s.tasks == map[] && s.messages == map[] && s.copies == map[] && s.routeLock.None? && s.locks == map[]
    && forall p :: p in s.workers ==> s.workers[p].pc == Begin && JobOk(s.workers[p].job)
  }

  predicate JobOk(job: Job) {
    job.Shift? ==> (job.from == Unread || job.from == Active) && job.to != job.from
  }

  // -------------------------------------------------------- what only grows

  /** No copy is in force as unread or active. */
  predicate Over(c: set<Folder>) {
    Unread !in c && Active !in c
  }

  /** Task files and messages in place never change, and a receipt with none but finished copies stays so. */
  ghost predicate Grows(s: System, s': System) {
    && (forall t :: t in s.tasks ==> t in s'.tasks && s'.tasks[t] == s.tasks[t])
    && (forall m :: m in s.messages ==> m in s'.messages && s'.messages[m] == s.messages[m])
    && (forall m :: m in s.copies ==> m in s'.copies && (Over(s.copies[m]) ==> Over(s'.copies[m])))
  }

  /** No done or dead copy disappears. */
  ghost predicate Firm(s: System, s': System) {
    forall m :: m in s.copies ==>
      m in s'.copies && (Done in s.copies[m] ==> Done in s'.copies[m]) && (Dead in s.copies[m] ==> Dead in s'.copies[m])
  }

  /** No task with this key was added. */
  ghost predicate SameKeyed(s: System, s': System, key: Option<string>) {
    forall t :: t in s'.tasks && t !in s.tasks ==> s'.tasks[t].key != key
  }

  lemma GrowsRefl(s: System)
    ensures Grows(s, s) && Firm(s, s)
  {
  }

  lemma GrowsTrans(a: System, b: System, c: System)
    requires Grows(a, b) && Grows(b, c)
    ensures Grows(a, c)
  {
    hide Over;
  }

  lemma SettledGrows(s: System, s': System, t: TaskFile)
    requires Firm(s, s') && Settled(s, t)
    ensures Settled(s', t)
  {
  }

  // ------------------------------------------------------- the invariant

  predicate LockedPc(pc: Pc) {
    pc.Checking? || pc.Looking? || pc.Numbered? || pc.Staging? || pc.Delivering? || pc.Clearing?
  }

  /** Tasks with the key that are neither still to be looked at nor the one being looked at are settled. */
  ghost predicate Examined(s: System, key: Option<string>, todo: set<TaskId>, current: Option<TaskId>) {
    forall t :: t in s.tasks && s.tasks[t].key == key && t !in todo && current != Some(t) ==> Settled(s, s.tasks[t])
  }

  ghost predicate MayAdd(s: System, job: Job, m: MessageId, rules: Rules) {
    Keyed(job) && job.key.value in rules.exclusive ==> NoneLive(s, job.key.value, m)
  }

  ghost predicate SenderOk(s: System, job: Job, pc: Pc, rules: Rules)
    requires job.Send?
  {
    match pc
    case Checking(todo) => Keyed(job) && Examined(s, job.key, todo, None)
    case Looking(todo, task, i, last) =>
      && Keyed(job) && Examined(s, job.key, todo, Some(task)) && task in s.tasks && task !in todo && i <= 4
      && (last == Some(Done) ==> Done in CopiesOf(s, s.tasks[task].message))
      && (last == Some(Dead) ==> Dead in CopiesOf(s, s.tasks[task].message))
    case Numbered(id, m) => MayAdd(s, job, m, rules)
    case Staging(id, m, env, body) =>
      && MayAdd(s, job, m, rules)
      && env == EnvelopeOf(rules, job.body, env.meta) && env.meta == (if job.task then Some(id) else None)
      && (body.Some? ==> body.value == job.body)
    case Delivering(id, m) => MayAdd(s, job, m, rules)
    case Holding => false
    case Between => false
    case _ => true
  }

  ghost predicate WorkerOk(s: System, w: Worker, rules: Rules) {
    && JobOk(w.job)
    && if w.job.Send? then SenderOk(s, w.job, w.pc, rules)
       else w.pc.Begin? || w.pc.Holding? || w.pc.Between? || w.pc.Finish? || w.pc.Gone?
  }

  ghost predicate RouteLockOk(s: System) {
    && (s.routeLock.Some? ==> s.routeLock.value in s.workers)
    && forall p :: p in s.workers ==>
         (s.routeLock == Some(p) <==> Keyed(s.workers[p].job) && LockedPc(s.workers[p].pc))
  }

  predicate Moving(w: Worker) {
    w.job.Shift? && (w.pc.Holding? || w.pc.Between?)
  }

  /** A mover at work holds the lock of its receipt, and between its two writes both copies are there. */
  ghost predicate MoversOk(s: System) {
    && (forall m :: m in s.locks ==> s.locks[m] in s.workers && Moving(s.workers[s.locks[m]]) && s.workers[s.locks[m]].job.message == m)
    && (forall p :: p in s.workers && Moving(s.workers[p]) ==>
          s.workers[p].job.message in s.locks && s.locks[s.workers[p].job.message] == p)
    && (forall p :: p in s.workers && s.workers[p].job.Shift? && s.workers[p].pc.Between? ==>
          var job := s.workers[p].job;
          job.message in s.copies && job.from in s.copies[job.message] && job.to in s.copies[job.message])
  }

  /** The numbers a sender has taken and not used up. */
  function Taken(pc: Pc): Option<(TaskId, MessageId)> {
    match pc
    case Numbered(id, m) => Some((id, m))
    case Staging(id, m, _, _) => Some((id, m))
    case Delivering(id, m) => Some((id, m))
    case _ => None
  }

  /** The task a sender makes has its file from the first write on, and nobody else's message. */
  ghost predicate OwnOk(s: System, w: Worker) {
    match Taken(w.pc)
    case None => true
    case Some(n) =>
      && n.0 <= s.seqno && n.1 <= s.seqno
      && (n.1 in s.messages <==> w.pc.Delivering?) && n.1 !in s.copies
      && if w.job.Send? && w.job.task && !w.pc.Numbered?
         then n.0 in s.tasks && s.tasks[n.0] == TaskFile(w.job.key, n.1)
         else n.0 !in s.tasks && forall t :: t in s.tasks ==> s.tasks[t].message != n.1
  }

  predicate Apart(a: Pc, b: Pc) {
    Taken(a).Some? && Taken(b).Some? ==> Taken(a).value.0 != Taken(b).value.0 && Taken(a).value.1 != Taken(b).value.1
  }

  ghost predicate NumbersOk(s: System) {
    && (forall t :: t in s.tasks ==> t <= s.seqno && s.tasks[t].message <= s.seqno)
    && (forall m :: m in s.messages ==> m <= s.seqno)
    && (forall t, u :: t in s.tasks && u in s.tasks && t != u ==> s.tasks[t].message != s.tasks[u].message)
    && (forall p :: p in s.workers ==> OwnOk(s, s.workers[p]))
    && (forall p, q :: p in s.workers && q in s.workers && p != q ==> Apart(s.workers[p].pc, s.workers[q].pc))
  }

  /** A message in place is complete, and the task it names has its file; a receipt has its message. */
  ghost predicate FilesOk(s: System, rules: Rules) {
    && (forall m :: m in s.messages ==>
          && BodyMatches(rules, s.messages[m])
          && (s.messages[m].env.meta.Some? ==>
                && s.messages[m].env.meta.value in s.tasks
                && s.tasks[s.messages[m].env.meta.value].message == m))
    && (forall m :: m in s.copies ==> m in s.messages)
  }

  ghost predicate Sane(s: System, rules: Rules) {
    && RouteLockOk(s) && MoversOk(s) && NumbersOk(s) && FilesOk(s, rules)
    && forall p :: p in s.workers ==> WorkerOk(s, s.workers[p], rules)
  }

  lemma Pieces(s: System, p: Pid, rules: Rules)
    requires Sane(s, rules) && p in s.workers
    ensures RouteLockOk(s) && MoversOk(s) && NumbersOk(s) && FilesOk(s, rules) && WorkerOk(s, s.workers[p], rules)
    ensures s.routeLock == Some(p) <==> Keyed(s.workers[p].job) && LockedPc(s.workers[p].pc)
  {
    hide WorkerOk;
    hide MoversOk;
    hide NumbersOk;
    hide FilesOk;
  }

  // ------------------------------------------------------------- the steps

  /** What a worker knows survives firm growth that adds no task with its key. */
  lemma WorkerOkGrows(s: System, s': System, w: Worker, rules: Rules)
    requires WorkerOk(s, w, rules) && Grows(s, s') && Firm(s, s')
    requires Keyed(w.job) && LockedPc(w.pc) ==> SameKeyed(s, s', w.job.key)
    ensures WorkerOk(s', w, rules)
  {
    hide EnvelopeOf;
    hide Over;
    forall t | t in s.tasks && Settled(s, s.tasks[t]) ensures Settled(s', s.tasks[t]) {
      SettledGrows(s, s', s.tasks[t]);
    }
  }

  /** A step of p is good when the files stay good, what p knows is right, and nobody else's key gains a task. */
  lemma Advance(s: System, s': System, p: Pid, rules: Rules)
    requires Sane(s, rules) && p in s.workers && p in s'.workers && s'.workers == s.workers[p := s'.workers[p]]
    requires Grows(s, s') && Firm(s, s')
    requires RouteLockOk(s') && MoversOk(s') && NumbersOk(s') && FilesOk(s', rules) && WorkerOk(s', s'.workers[p], rules)
    requires s.routeLock == Some(p) || forall t :: t in s'.tasks && t !in s.tasks ==> s'.tasks[t].key.None?
    ensures Sane(s', rules)
  {
    hide FilesOk;
    hide WorkerOk;
    hide MoversOk;
    hide NumbersOk;
    hide Grows;
    hide Firm;
    forall q | q in s'.workers ensures WorkerOk(s', s'.workers[q], rules) {
      if q != p {
        assert WorkerOk(s, s.workers[q], rules);
        WorkerOkGrows(s, s', s.workers[q], rules);
      }
    }
  }

  lemma NumbersKept(s: System, s': System, p: Pid)
    requires NumbersOk(s) && p in s.workers && p in s'.workers && s'.workers == s.workers[p := s'.workers[p]]
    requires s'.seqno == s.seqno && s'.tasks == s.tasks && s'.messages == s.messages && s'.copies.Keys == s.copies.Keys
    requires s'.workers[p].job == s.workers[p].job
    requires var pc, pc' := s.workers[p].pc, s'.workers[p].pc;
             Taken(pc').None?
             || (Taken(pc') == Taken(pc) && (pc'.Numbered? <==> pc.Numbered?) && (pc'.Delivering? <==> pc.Delivering?))
    ensures NumbersOk(s')
  {
    assert OwnOk(s, s.workers[p]);
    forall m ensures m in s'.copies <==> m in s.copies { assert m in s'.copies.Keys <==> m in s.copies.Keys; }
    forall q | q in s'.workers ensures OwnOk(s', s'.workers[q]) {
      assert OwnOk(s, s.workers[q]);
    }
    forall a, b | a in s'.workers && b in s'.workers && a != b ensures Apart(s'.workers[a].pc, s'.workers[b].pc) {
      assert Apart(s.workers[a].pc, s.workers[b].pc);
    }
  }

  /** Only the program counter of p moves, and perhaps its locks. */
  lemma QuietAdvance(s: System, s': System, p: Pid, rules: Rules)
    requires Sane(s, rules) && p in s.workers && p in s'.workers && s'.workers == s.workers[p := s'.workers[p]]
    requires s'.seqno == s.seqno && s'.tasks == s.tasks && s'.messages == s.messages && s'.copies == s.copies
    requires s'.workers[p].job == s.workers[p].job
    requires var pc, pc' := s.workers[p].pc, s'.workers[p].pc;
             Taken(pc').None?
             || (Taken(pc') == Taken(pc) && (pc'.Numbered? <==> pc.Numbered?) && (pc'.Delivering? <==> pc.Delivering?))
    requires RouteLockOk(s') && MoversOk(s') && WorkerOk(s', s'.workers[p], rules)
    ensures Sane(s', rules) && Grows(s, s') && Firm(s, s')
  {
    hide Sane;
    hide RouteLockOk;
    hide MoversOk;
    hide NumbersOk;
    hide FilesOk;
    hide Grows;
    hide Firm;
    hide WorkerOk;
    Pieces(s, p, rules);
    NumbersKept(s, s', p);
    FilesWritten(s, s', rules);
    SameCopiesGrow(s, s');
    Advance(s, s', p, rules);
  }

  lemma QuitKeeps(s: System, p: Pid, rules: Rules)
    requires Sane(s, rules) && p in s.workers && !s.workers[p].pc.Finish?
    ensures Sane(Quit(s, p), rules) && Grows(s, Quit(s, p)) && Firm(s, Quit(s, p))
  {
    hide Sane;
    hide RouteLockOk;
    hide MoversOk;
    hide NumbersOk;
    hide FilesOk;
    hide Grows;
    hide Firm;
    var s' := Quit(s, p);
    Pieces(s, p, rules);
    LocksDropped(s, s', p);
    QuietAdvance(s, s', p, rules);
  }

  /** A process that ends, or a sender that leaves, drops its locks. */
  lemma LocksDropped(s: System, s': System, p: Pid)
    requires RouteLockOk(s) && MoversOk(s) && p in s.workers && p in s'.workers
    requires s' == At(Unlocked(s, p), p, s'.workers[p].pc) && (s'.workers[p].pc.Gone? || s'.workers[p].pc.Finish?)
    requires s.workers[p].job.Send? || s'.workers[p].pc.Gone?
    ensures RouteLockOk(s') && MoversOk(s')
  {
  }

  lemma RouteLockKept(s: System, s': System, p: Pid, pc: Pc)
    requires RouteLockOk(s) && p in s.workers && s'.workers == s.workers[p := s.workers[p].(pc := pc)]
    requires s'.routeLock == s.routeLock && (Keyed(s.workers[p].job) ==> (LockedPc(s.workers[p].pc) <==> LockedPc(pc)))
    ensures RouteLockOk(s')
  {
  }

  /** A sender's step leaves the movers alone. */
  lemma MoversKept(s: System, s': System, p: Pid)
    requires MoversOk(s) && p in s.workers && s.workers[p].job.Send? && p in s'.workers && s'.workers[p].job.Send?
    requires s'.workers == s.workers[p := s'.workers[p]] && s'.locks == s.locks
    requires forall m :: m in s.copies ==> m in s'.copies && s'.copies[m] == s.copies[m]
    ensures MoversOk(s')
  {
  }

  lemma SameFiles(s: System, s': System, key: Option<string>)
    requires s'.tasks == s.tasks && s'.copies == s.copies
    ensures forall todo, current :: Examined(s', key, todo, current) <==> Examined(s, key, todo, current)
    ensures key.Some? ==> forall m :: NoneLive(s', key.value, m) <==> NoneLive(s, key.value, m)
  {
    forall todo, current ensures Examined(s', key, todo, current) <==> Examined(s, key, todo, current) {
    }
  }

  lemma SettledNext(s: System, key: Option<string>, todo: set<TaskId>, task: TaskId)
    requires task in s.tasks && Examined(s, key, todo, Some(task))
    ensures Settled(s, s.tasks[task]) ==> Examined(s, key, todo, None)
  {
  }

  lemma ListedNext(s: System, key: Option<string>, todo: set<TaskId>, task: TaskId)
    requires task in s.tasks && Examined(s, key, todo, None)
    ensures s.tasks[task].key != key ==> Examined(s, key, todo - {task}, None)
    ensures Examined(s, key, todo - {task}, Some(task))
  {
  }

  lemma AllExamined(s: System, key: string, m: MessageId)
    requires Examined(s, Some(key), {}, None)
    ensures NoneLive(s, key, m)
  {
  }

  /** Two fresh numbers. */
  lemma NumberKeeps(s: System, p: Pid, rules: Rules)
    requires Sane(s, rules) && p in s.workers && s.workers[p].job.Send? && Taken(s.workers[p].pc).None?
    requires Keyed(s.workers[p].job) ==> LockedPc(s.workers[p].pc)
    requires MayAdd(s, s.workers[p].job, s.seqno + 2, rules)
    ensures Sane(Number(s, p), rules) && Grows(s, Number(s, p)) && Firm(s, Number(s, p))
  {
    hide Sane;
    hide RouteLockOk;
    hide MoversOk;
    hide NumbersOk;
    hide FilesOk;
    hide Grows;
    hide Firm;
    hide NoneLive;
    var s' := Number(s, p);
    Pieces(s, p, rules);
    NumbersTaken(s, p, rules);
    AddKept(s, s', s.workers[p].job, s.seqno + 2, rules);
    RouteLockKept(s, s', p, s'.workers[p].pc);
    MoversKept(s, s', p);
    FilesWritten(s, s', rules);
    SameCopiesGrow(s, s');
    Advance(s, s', p, rules);
  }

  lemma NumbersTaken(s: System, p: Pid, rules: Rules)
    requires NumbersOk(s) && FilesOk(s, rules) && p in s.workers && s.workers[p].job.Send? && Taken(s.workers[p].pc).None?
    ensures NumbersOk(Number(s, p))
  {
    var s' := Number(s, p);
    forall q | q in s'.workers ensures OwnOk(s', s'.workers[q]) {
      assert OwnOk(s, s.workers[q]);
    }
    forall a, b | a in s'.workers && b in s'.workers && a != b ensures Apart(s'.workers[a].pc, s'.workers[b].pc) {
      assert Apart(s.workers[a].pc, s.workers[b].pc);
      assert OwnOk(s, s.workers[a]) && OwnOk(s, s.workers[b]);
    }
  }

  lemma ListKeeps(s: System, p: Pid, rules: Rules, choice: TaskId)
    requires Sane(s, rules) && p in s.workers && s.workers[p].job.Send? && s.workers[p].pc.Checking?
    ensures var s' := Check(s, p, rules, choice); Sane(s', rules) && Grows(s, s') && Firm(s, s')
  {
    hide Sane;
    hide RouteLockOk;
    hide MoversOk;
    hide NumbersOk;
    hide FilesOk;
    hide Grows;
    hide Firm;
    hide EnvelopeOf;
    hide Examined;
    hide NoneLive;
    var s' := Check(s, p, rules, choice);
    Pieces(s, p, rules);
    var job, todo := s.workers[p].job, s.workers[p].pc.todo;
    if todo == {} {
      AllExamined(s, job.key.value, s.seqno + 2);
      NumberKeeps(s, p, rules);
    } else {
      if choice in s.tasks { ListedNext(s, job.key, todo, choice); }
      SameFiles(s, s', job.key);
      if s' == s {
        GrowsRefl(s);
      } else {
        RouteLockKept(s, s', p, s'.workers[p].pc);
        MoversKept(s, s', p);
        QuietAdvance(s, s', p, rules);
      }
    }
  }

  lemma LookKeeps(s: System, p: Pid, rules: Rules, choice: TaskId)
    requires Sane(s, rules) && p in s.workers && s.workers[p].job.Send? && s.workers[p].pc.Looking?
    ensures var s' := Check(s, p, rules, choice); Sane(s', rules) && Grows(s, s') && Firm(s, s')
  {
    hide Sane;
    hide RouteLockOk;
    hide MoversOk;
    hide NumbersOk;
    hide FilesOk;
    hide Grows;
    hide Firm;
    hide EnvelopeOf;
    hide Examined;
    hide NoneLive;
    var s' := Check(s, p, rules, choice);
    Pieces(s, p, rules);
    var job, pc := s.workers[p].job, s.workers[p].pc;
    SettledNext(s, job.key, pc.todo, pc.task);
    if s'.workers[p].pc.Gone? {
      QuitKeeps(s, p, rules);
    } else if s'.workers[p].pc.Numbered? {
      NumberKeeps(s, p, rules);
    } else {
      SameFiles(s, s', job.key);
      RouteLockKept(s, s', p, s'.workers[p].pc);
      MoversKept(s, s', p);
      QuietAdvance(s, s', p, rules);
    }
  }

  lemma BeginKeeps(s: System, p: Pid, rules: Rules, choice: TaskId)
    requires Sane(s, rules) && p in s.workers && s.workers[p].job.Send? && s.workers[p].pc.Begin?
    ensures var s' := SendStep(s, p, rules, choice); Sane(s', rules) && Grows(s, s') && Firm(s, s')
  {
    hide Sane;
    hide RouteLockOk;
    hide MoversOk;
    hide NumbersOk;
    hide FilesOk;
    hide Grows;
    hide Firm;
    var s' := SendStep(s, p, rules, choice);
    Pieces(s, p, rules);
    if !Keyed(s.workers[p].job) {
      NumberKeeps(s, p, rules);
    } else if s' == s {
      GrowsRefl(s);
    } else {
      RouteLockTaken(s, p);
      MoversKept(s, s', p);
      QuietAdvance(s, s', p, rules);
    }
  }

  lemma RouteLockTaken(s: System, p: Pid)
    requires RouteLockOk(s) && p in s.workers && Keyed(s.workers[p].job) && s.workers[p].pc.Begin? && s.routeLock.None?
    ensures RouteLockOk(At(s.(routeLock := Some(p)), p, Checking(s.tasks.Keys)))
  {
  }

  /** Tasks and messages may be added where copies stay as they are. */
  lemma SameCopiesGrow(s: System, s': System)
    requires forall t :: t in s.tasks ==> t in s'.tasks && s'.tasks[t] == s.tasks[t]
    requires forall m :: m in s.messages ==> m in s'.messages && s'.messages[m] == s.messages[m]
    requires s'.copies == s.copies
    ensures Grows(s, s') && Firm(s, s')
  {
    hide Over;
  }

  /** Writing the task file: the lookup has left nothing live under an exclusive key. */
  lemma WriteTaskKeeps(s: System, p: Pid, rules: Rules)
    requires Sane(s, rules) && p in s.workers && s.workers[p].job.Send? && s.workers[p].pc.Numbered?
    ensures var s' := Deliver(s, p, rules); Sane(s', rules) && Grows(s, s') && Firm(s, s')
  {
    hide Sane;
    hide RouteLockOk;
    hide MoversOk;
    hide NumbersOk;
    hide FilesOk;
    hide Grows;
    hide Firm;
    var job, id, m := s.workers[p].job, s.workers[p].pc.id, s.workers[p].pc.message;
    Pieces(s, p, rules);
    if job.task && id in s.tasks {
      QuitKeeps(s, p, rules);
    } else {
      hide EnvelopeOf;
      hide NoneLive;
      var s' := Deliver(s, p, rules);
      EnvelopeMeta(rules, job.body, if job.task then Some(id) else None);
      RouteLockKept(s, s', p, s'.workers[p].pc);
      MoversKept(s, s', p);
      NumbersWritten(s, s', p, rules);
      AddKept(s, s', job, m, rules);
      hide MayAdd;
      FilesWritten(s, s', rules);
      SameCopiesGrow(s, s');
      assert WorkerOk(s', s'.workers[p], rules);
      hide WorkerOk;
      Advance(s, s', p, rules);
    }
  }

  /** A task with one's own message changes nothing about the others. */
  lemma AddKept(s: System, s': System, job: Job, m: MessageId, rules: Rules)
    requires MayAdd(s, job, m, rules) && s'.copies == s.copies
    requires forall t :: t in s'.tasks && s'.tasks[t].message != m ==> t in s.tasks && s'.tasks[t] == s.tasks[t]
    ensures MayAdd(s', job, m, rules)
  {
  }

  lemma FilesWritten(s: System, s': System, rules: Rules)
    requires FilesOk(s, rules) && s'.messages == s.messages && s'.copies == s.copies
    requires forall t :: t in s.tasks ==> t in s'.tasks && s'.tasks[t] == s.tasks[t]
    ensures FilesOk(s', rules)
  {
    hide BodyMatches;
  }

  lemma NumbersWritten(s: System, s': System, p: Pid, rules: Rules)
    requires NumbersOk(s) && p in s.workers && s.workers[p].job.Send? && s.workers[p].pc.Numbered?
    requires var job, id, m := s.workers[p].job, s.workers[p].pc.id, s.workers[p].pc.message;
             && s'.tasks == (if job.task then s.tasks[id := TaskFile(job.key, m)] else s.tasks)
             && s'.seqno == s.seqno && s'.messages == s.messages && s'.copies == s.copies
             && p in s'.workers && s'.workers == s.workers[p := s.workers[p].(pc := s'.workers[p].pc)]
             && s'.workers[p].pc.Staging? && Taken(s'.workers[p].pc) == Some((id, m))
    ensures NumbersOk(s')
  {
    assert OwnOk(s, s.workers[p]);
    forall q | q in s'.workers ensures OwnOk(s', s'.workers[q]) {
      assert OwnOk(s, s.workers[q]);
      if q != p { assert Apart(s.workers[p].pc, s.workers[q].pc); }
    }
    forall a, b | a in s'.workers && b in s'.workers && a != b ensures Apart(s'.workers[a].pc, s'.workers[b].pc) {
      assert Apart(s.workers[a].pc, s.workers[b].pc);
    }
  }

  lemma EnvelopeMeta(rules: Rules, body: string, task: Option<TaskId>)
    ensures EnvelopeOf(rules, body, task).meta == task
    ensures BodyMatches(rules, Stored(EnvelopeOf(rules, body, task), body))
  {
  }

  /** Staging, and moving the finished message into place. */
  lemma StageKeeps(s: System, p: Pid, rules: Rules)
    requires Sane(s, rules) && p in s.workers && s.workers[p].job.Send? && s.workers[p].pc.Staging?
    ensures var s' := Deliver(s, p, rules); Sane(s', rules) && Grows(s, s') && Firm(s, s')
  {
    hide Sane;
    hide RouteLockOk;
    hide MoversOk;
    hide NumbersOk;
    hide FilesOk;
    hide Grows;
    hide Firm;
    hide OwnOk;
    var job, pc := s.workers[p].job, s.workers[p].pc;
    Pieces(s, p, rules);
    if pc.body.Some? && pc.message in s.messages {
      QuitKeeps(s, p, rules);
    } else {
      hide EnvelopeOf;
      hide BodyMatches;
      var s' := Deliver(s, p, rules);
      RouteLockKept(s, s', p, s'.workers[p].pc);
      MoversKept(s, s', p);
      AddKept(s, s', job, pc.message, rules);
      hide MayAdd;
      if pc.body.None? {
        QuietAdvance(s, s', p, rules);
      } else {
        EnvelopeMeta(rules, job.body, pc.env.meta);
        NumbersStored(s, s', p);
        OwnNumbers(s, p);
        FilesStored(s, s', p, rules);
        SameCopiesGrow(s, s');
        assert WorkerOk(s', s'.workers[p], rules);
        hide WorkerOk;
        Advance(s, s', p, rules);
      }
    }
  }

  lemma OwnNumbers(s: System, p: Pid)
    requires NumbersOk(s) && p in s.workers
    ensures OwnOk(s, s.workers[p])
  {
    hide OwnOk;
  }

  lemma FilesStored(s: System, s': System, p: Pid, rules: Rules)
    requires FilesOk(s, rules) && p in s.workers && s.workers[p].pc.Staging? && OwnOk(s, s.workers[p])
    requires s.workers[p].job.Send? && SenderOk(s, s.workers[p].job, s.workers[p].pc, rules)
    requires var m := s.workers[p].pc.message;
             && m in s'.messages && s'.messages == s.messages[m := s'.messages[m]]
             && s'.messages[m].env == s.workers[p].pc.env && BodyMatches(rules, s'.messages[m])
             && s'.tasks == s.tasks && s'.copies == s.copies
    ensures FilesOk(s', rules)
  {
    hide BodyMatches;
    hide EnvelopeOf;
    hide NoneLive;
  }

  lemma NumbersStored(s: System, s': System, p: Pid)
    requires NumbersOk(s) && p in s.workers && s.workers[p].pc.Staging?
    requires var id, m := s.workers[p].pc.id, s.workers[p].pc.message;
             && m !in s.messages && m in s'.messages && s'.messages == s.messages[m := s'.messages[m]]
             && s'.tasks == s.tasks && s'.seqno == s.seqno && s'.copies == s.copies
             && s'.workers == s.workers[p := s.workers[p].(pc := Delivering(id, m))]
    ensures NumbersOk(s')
  {
    assert OwnOk(s, s.workers[p]);
    forall q | q in s'.workers ensures OwnOk(s', s'.workers[q]) {
      assert OwnOk(s, s.workers[q]);
      if q != p { assert Apart(s.workers[p].pc, s.workers[q].pc); }
    }
    forall a, b | a in s'.workers && b in s'.workers && a != b ensures Apart(s'.workers[a].pc, s'.workers[b].pc) {
      assert Apart(s.workers[a].pc, s.workers[b].pc);
    }
  }

  /** The receipt comes last, beside its message. */
  lemma ReceiptKeeps(s: System, p: Pid, rules: Rules)
    requires Sane(s, rules) && p in s.workers && s.workers[p].job.Send? && s.workers[p].pc.Delivering?
    ensures var s' := Deliver(s, p, rules); Sane(s', rules) && Grows(s, s') && Firm(s, s')
  {
    hide Sane;
    hide RouteLockOk;
    hide MoversOk;
    hide NumbersOk;
    hide FilesOk;
    hide Grows;
    hide Firm;
    hide NoneLive;
    hide OwnOk;
    var pc, s' := s.workers[p].pc, Deliver(s, p, rules);
    Pieces(s, p, rules);
    if pc.message in s.copies {
      QuitKeeps(s, p, rules);
    } else {
      RouteLockKept(s, s', p, s'.workers[p].pc);
      MoversKept(s, s', p);
      OwnNumbers(s, p);
      OwnMessage(s, s.workers[p]);
      NumbersDelivered(s, s', p);
      NewCopyGrows(s, s', pc.message, rules);
      Advance(s, s', p, rules);
    }
  }

  lemma OwnMessage(s: System, w: Worker)
    requires OwnOk(s, w) && w.pc.Delivering?
    ensures w.pc.message in s.messages && w.pc.message !in s.copies
  {
  }

  lemma NewCopyGrows(s: System, s': System, m: MessageId, rules: Rules)
    requires FilesOk(s, rules) && m !in s.copies && m in s.messages
    requires s'.copies == s.copies[m := {Unread}] && s'.tasks == s.tasks && s'.messages == s.messages
    ensures FilesOk(s', rules) && Grows(s, s') && Firm(s, s')
  {
    hide BodyMatches;
    hide Over;
  }

  lemma NumbersDelivered(s: System, s': System, p: Pid)
    requires NumbersOk(s) && p in s.workers && s.workers[p].pc.Delivering?
    requires s'.copies.Keys == s.copies.Keys + {s.workers[p].pc.message}
    requires s'.tasks == s.tasks && s'.seqno == s.seqno && s'.messages == s.messages
    requires s'.workers == s.workers[p := s.workers[p].(pc := Clearing)]
    ensures NumbersOk(s')
  {
    var m := s.workers[p].pc.message;
    forall x ensures x in s'.copies <==> x in s.copies || x == m { assert x in s'.copies.Keys <==> x in s.copies.Keys + {m}; }
    forall q | q in s'.workers ensures OwnOk(s', s'.workers[q]) {
      assert OwnOk(s, s.workers[q]);
      if q != p { assert Apart(s.workers[p].pc, s.workers[q].pc); }
    }
    forall a, b | a in s'.workers && b in s'.workers && a != b ensures Apart(s'.workers[a].pc, s'.workers[b].pc) {
      assert Apart(s.workers[a].pc, s.workers[b].pc);
    }
  }

  lemma LeaveKeeps(s: System, p: Pid, rules: Rules)
    requires Sane(s, rules) && p in s.workers && s.workers[p].job.Send?
    requires s.workers[p].pc.Clearing? || s.workers[p].pc.Finish? || s.workers[p].pc.Gone?
    ensures var s' := Deliver(s, p, rules); Sane(s', rules) && Grows(s, s') && Firm(s, s')
  {
    hide Sane;
    hide RouteLockOk;
    hide MoversOk;
    hide NumbersOk;
    hide FilesOk;
    hide Grows;
    hide Firm;
    var s' := Deliver(s, p, rules);
    Pieces(s, p, rules);
    if s.workers[p].pc.Clearing? {
      LocksDropped(s, s', p);
      QuietAdvance(s, s', p, rules);
    } else {
      GrowsRefl(s);
    }
  }

  lemma SendKeeps(s: System, p: Pid, rules: Rules, choice: TaskId)
    requires Sane(s, rules) && p in s.workers && s.workers[p].job.Send?
    ensures var s' := SendStep(s, p, rules, choice); Sane(s', rules) && Grows(s, s') && Firm(s, s')
  {
    hide Sane;
    hide RouteLockOk;
    hide MoversOk;
    hide NumbersOk;
    hide FilesOk;
    hide Grows;
    hide Firm;
    hide Deliver;
    hide Check;
    Pieces(s, p, rules);
    match s.workers[p].pc
    case Begin => BeginKeeps(s, p, rules, choice);
    case Checking(_) => ListKeeps(s, p, rules, choice);
    case Looking(_, _, _, _) => LookKeeps(s, p, rules, choice);
    case Numbered(_, _) => WriteTaskKeeps(s, p, rules);
    case Staging(_, _, _, _) => StageKeeps(s, p, rules);
    case Delivering(_, _) => ReceiptKeeps(s, p, rules);
    case _ => LeaveKeeps(s, p, rules);
  }

  lemma ShiftKeeps(s: System, p: Pid, rules: Rules)
    requires Sane(s, rules) && p in s.workers && s.workers[p].job.Shift?
    ensures var s' := ShiftStep(s, p); Sane(s', rules) && Grows(s, s') && Firm(s, s')
  {
    hide Sane;
    hide RouteLockOk;
    hide MoversOk;
    hide NumbersOk;
    hide FilesOk;
    hide Grows;
    hide Firm;
    hide InForce;
    var s' := ShiftStep(s, p);
    Pieces(s, p, rules);
    if s' == s {
      GrowsRefl(s);
    } else if s'.workers[p].pc.Gone? {
      QuitKeeps(s, p, rules);
    } else {
      ShiftMoves(s, p);
      RouteLockKept(s, s', p, s'.workers[p].pc);
      NumbersKept(s, s', p);
      SameKeysFiles(s, s', rules);
      Advance(s, s', p, rules);
    }
  }

  lemma SameKeysFiles(s: System, s': System, rules: Rules)
    requires FilesOk(s, rules) && s'.tasks == s.tasks && s'.messages == s.messages && s'.copies.Keys == s.copies.Keys
    ensures FilesOk(s', rules)
  {
    hide BodyMatches;
    forall m | m in s'.copies ensures m in s'.messages { assert m in s'.copies.Keys; }
  }

  /** What a mover's step does to the copies of its receipt. */
  lemma ShiftMoves(s: System, p: Pid)
    requires MoversOk(s) && p in s.workers && s.workers[p].job.Shift? && JobOk(s.workers[p].job)
    requires ShiftStep(s, p) != s && !ShiftStep(s, p).workers[p].pc.Gone?
    requires s.routeLock != Some(p)
    ensures var s' := ShiftStep(s, p);
            && MoversOk(s') && s'.routeLock == s.routeLock && s'.copies.Keys == s.copies.Keys
            && Grows(s, s') && Firm(s, s')
  {
    hide MoversOk;
    if s.workers[p].pc.Begin? { StartMoves(s, p); }
    else if s.workers[p].pc.Holding? { WriteMoves(s, p); }
    else { RemoveMoves(s, p); }
  }

  lemma StartMoves(s: System, p: Pid)
    requires MoversOk(s) && p in s.workers && s.workers[p].job.Shift? && s.workers[p].pc.Begin?
    ensures MoversOk(ShiftStep(s, p))
  {
  }

  lemma WriteMoves(s: System, p: Pid)
    requires MoversOk(s) && p in s.workers && s.workers[p].job.Shift? && s.workers[p].pc.Holding?
    requires JobOk(s.workers[p].job) && ShiftStep(s, p).workers[p].pc.Between?
    ensures var s' := ShiftStep(s, p);
            MoversOk(s') && s'.copies.Keys == s.copies.Keys && Grows(s, s') && Firm(s, s')
  {
    var job := s.workers[p].job;
    assert job.message in s.copies && job.from in s.copies[job.message];
    hide InForce;
  }

  lemma RemoveMoves(s: System, p: Pid)
    requires MoversOk(s) && p in s.workers && s.workers[p].job.Shift? && s.workers[p].pc.Between?
    requires JobOk(s.workers[p].job)
    ensures var s' := ShiftStep(s, p);
            MoversOk(s') && s'.copies.Keys == s.copies.Keys && Grows(s, s') && Firm(s, s')
  {
    hide InForce;
  }

  lemma RestoredGrows(s: System, m: MessageId)
    requires m in s.copies
    ensures Grows(s, Suspended(s, m)) && Grows(s, Restored(s, m))
    ensures Suspended(s, m) == s.(copies := Suspended(s, m).copies) && Suspended(s, m).copies.Keys == s.copies.Keys
    ensures Restored(s, m) == s.(copies := Restored(s, m).copies) && Restored(s, m).copies.Keys == s.copies.Keys
    ensures forall x :: x in s.copies && x != m ==> Suspended(s, m).copies[x] == s.copies[x] == Restored(s, m).copies[x]
  {
  }

  /** Nobody holds the route lock, so nobody relies on a lookup. */
  lemma IdleWorkers(s: System, s': System, rules: Rules)
    requires Sane(s, rules) && s.routeLock.None? && s'.workers == s.workers
    ensures forall p :: p in s'.workers ==> WorkerOk(s', s'.workers[p], rules)
  {
    hide FilesOk;
    hide NumbersOk;
    hide MoversOk;
    hide EnvelopeOf;
    forall p | p in s'.workers ensures WorkerOk(s', s'.workers[p], rules) {
      assert WorkerOk(s, s.workers[p], rules);
    }
  }

  /** The parts of the invariant that do not speak of what workers know. */
  ghost predicate Parts(s: System, rules: Rules) {
    RouteLockOk(s) && MoversOk(s) && NumbersOk(s) && FilesOk(s, rules)
  }

  lemma RoutedParts(s: System, key: Option<string>, body: string, rules: Rules)
    requires Parts(s, rules) && s.seqno + 2 !in s.copies
    ensures Parts(Routed(s, s.seqno + 1, s.seqno + 2, key, body, rules), rules)
    ensures Grows(s, Routed(s, s.seqno + 1, s.seqno + 2, key, body, rules))
  {
    hide Grows;
    hide NumbersOk;
    hide FilesOk;
    RoutedNumbers(s, key, body, rules);
    RoutedFiles(s, key, body, rules);
    hide EnvelopeOf;
  }

  lemma RoutedFiles(s: System, key: Option<string>, body: string, rules: Rules)
    requires NumbersOk(s) && FilesOk(s, rules)
    ensures var s' := Routed(s, s.seqno + 1, s.seqno + 2, key, body, rules); FilesOk(s', rules) && Grows(s, s')
  {
    hide BodyMatches;
    hide EnvelopeOf;
    hide Over;
    hide OwnOk;
    EnvelopeMeta(rules, body, Some(s.seqno + 1));
    assert s.seqno + 1 !in s.tasks && s.seqno + 2 !in s.messages && s.seqno + 2 !in s.copies;
  }

  lemma RoutedNumbers(s: System, key: Option<string>, body: string, rules: Rules)
    requires NumbersOk(s) && s.seqno + 2 !in s.copies
    ensures NumbersOk(Routed(s, s.seqno + 1, s.seqno + 2, key, body, rules))
  {
    hide EnvelopeOf;
    var s' := Routed(s, s.seqno + 1, s.seqno + 2, key, body, rules);
    forall q | q in s'.workers ensures OwnOk(s', s'.workers[q]) {
      assert OwnOk(s, s.workers[q]);
    }
  }

  lemma CopiesSwapped(s: System, s': System, m: MessageId, rules: Rules)
    requires Parts(s, rules) && m in s.copies && m !in s.locks
    requires s' == s.(copies := s'.copies) && s'.copies.Keys == s.copies.Keys
    requires forall x :: x in s.copies && x != m ==> s'.copies[x] == s.copies[x]
    ensures Parts(s', rules)
  {
    hide BodyMatches;
    forall x ensures x in s'.copies <==> x in s.copies { assert x in s'.copies.Keys <==> x in s.copies.Keys; }
    forall q | q in s'.workers ensures OwnOk(s', s'.workers[q]) {
      assert OwnOk(s, s.workers[q]);
    }
  }

  /** A serial reroute: neither the route lock nor the lock of the receipt is held. */
  lemma RerouteKeeps(s: System, m: MessageId, key: Option<string>, body: string, rules: Rules)
    requires Sane(s, rules)
    ensures var s' := SerialReroute(s, m, key, body, rules); Sane(s', rules) && Grows(s, s')
  {
    hide NoneLive;
    hide Suspended;
    hide Restored;
    hide Routed;
    hide Parts;
    hide Grows;
    assert Parts(s, rules) by { SaneParts(s, rules); }
    hide Sane;
    var s' := SerialReroute(s, m, key, body, rules);
    if s' == s {
      GrowsRefl(s);
    } else {
      RestoredGrows(s, m);
      var s1 := Suspended(s, m);
      CopiesSwapped(s, s1, m, rules);
      CopiesSwapped(s, Restored(s, m), m, rules);
      assert s.seqno + 2 in s1.copies.Keys <==> s.seqno + 2 in s.copies.Keys;
      if s' != Restored(s, m) {
        RoutedParts(s1, key, body, rules);
        GrowsTrans(s, s1, s');
        assert s'.workers == s.workers by { RoutedWorkers(s1, key, body, rules); }
      }
      IdleWorkers(s, s', rules);
      AssembleSane(s', rules);
    }
  }

  lemma RoutedWorkers(s: System, key: Option<string>, body: string, rules: Rules)
    ensures Routed(s, s.seqno + 1, s.seqno + 2, key, body, rules).workers == s.workers
  {
  }

  lemma SaneParts(s: System, rules: Rules)
    requires Sane(s, rules)
    ensures Parts(s, rules)
  {
    hide WorkerOk;
    hide RouteLockOk;
    hide MoversOk;
    hide NumbersOk;
    hide FilesOk;
  }

  lemma AssembleSane(s: System, rules: Rules)
    requires Parts(s, rules) && forall p :: p in s.workers ==> WorkerOk(s, s.workers[p], rules)
    ensures Sane(s, rules)
  {
    hide WorkerOk;
    hide RouteLockOk;
    hide MoversOk;
    hide NumbersOk;
    hide FilesOk;
  }

  lemma DoKeeps(s: System, e: Event, rules: Rules)
    requires Sane(s, rules)
    ensures Sane(Do(s, e, rules), rules) && Grows(s, Do(s, e, rules))
    ensures !e.Reroute? ==> Firm(s, Do(s, e, rules))
  {
    hide Sane;
    hide Grows;
    hide Firm;
    hide SendStep;
    hide ShiftStep;
    hide SerialReroute;
    GrowsRefl(s);
    match e
    case Go(p, choice) =>
      if p in s.workers {
        if s.workers[p].job.Send? { SendKeeps(s, p, rules, choice); } else { ShiftKeeps(s, p, rules); }
      }
    case Die(p) => if p in s.workers && !s.workers[p].pc.Finish? { QuitKeeps(s, p, rules); }
    case Reroute(m, key, body) => RerouteKeeps(s, m, key, body, rules);
  }

  // ---------------------------------------------------------- the theorems

  lemma {:induction false} AlwaysSane(s: System, events: seq<Event>, rules: Rules)
    requires Initial(s)
    ensures Sane(Run(s, events, rules), rules)
  {
    if events == [] {
      StartSane(s, rules);
    } else {
      hide Sane;
      hide Do;
      AlwaysSane(s, events[..|events| - 1], rules);
      DoKeeps(Run(s, events[..|events| - 1], rules), events[|events| - 1], rules);
    }
  }

  lemma StartSane(s: System, rules: Rules)
    requires Initial(s)
    ensures Sane(s, rules)
  {
  }

  /** After any prefix of any interleaving: a visible receipt has a complete message whose length and
      digest match, and a message that names a task has its file, which names it back. */
  lemma ReceiptsAreBacked(s: System, events: seq<Event>, rules: Rules, m: MessageId)
    requires Initial(s) && m in Run(s, events, rules).copies
    ensures var now := Run(s, events, rules);
            && m in now.messages && BodyMatches(rules, now.messages[m])
            && (now.messages[m].env.meta.Some? ==>
                  && now.messages[m].env.meta.value in now.tasks
                  && now.tasks[now.messages[m].env.meta.value].message == m)
  {
    hide Run;
    hide RouteLockOk;
    hide MoversOk;
    hide NumbersOk;
    hide WorkerOk;
    hide BodyMatches;
    AlwaysSane(s, events, rules);
  }

  /** A message once in place and a task file once written are never changed, and a receipt with none but
      finished copies stays finished. */
  lemma {:induction false} CommittedForGood(s: System, events: seq<Event>, rules: Rules, i: nat)
    requires Initial(s) && i <= |events|
    ensures Grows(Run(s, events[..i], rules), Run(s, events, rules))
    decreases |events|
  {
    hide Sane;
    hide Do;
    hide Grows;
    if i == |events| {
      assert events[..i] == events;
      GrowsRefl(Run(s, events, rules));
    } else {
      var front := events[..|events| - 1];
      assert front[..i] == events[..i];
      AlwaysSane(s, front, rules);
      DoKeeps(Run(s, front, rules), events[|events| - 1], rules);
      CommittedForGood(s, front, rules, i);
      GrowsTrans(Run(s, events[..i], rules), Run(s, front, rules), Run(s, events, rules));
    }
  }
}
