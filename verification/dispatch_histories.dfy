/** One live task for each exclusive key: at rest when no mover is killed between its two writes, and
    with any crashes exactly when no receipt is delivered beside one that has copies on both sides. */
module DispatchHistories {
  import opened Wrappers
  import opened Protocol
  import opened Dispatch
  import ReceiptProtocol

  type Pid = ReceiptProtocol.Pid

  /** The copy in force is unread or active. */
  predicate Live(s: System, t: TaskFile) {
    var f := InForce(CopiesOf(s, t.message));
    f == Some(Unread) || f == Some(Active)
  }

  /** Two tasks of a class without fanout that share their duplicate key. */
  predicate Rivals(s: System, rules: Rules, t: TaskId, u: TaskId) {
    && t in s.tasks && u in s.tasks && t != u
    && s.tasks[t].key.Some? && s.tasks[t].key == s.tasks[u].key && s.tasks[t].key.value in rules.exclusive
  }

  // ------------------------------------------------------- without crashes

  /** A mover of this receipt stands between its two writes. */
  predicate MidMove(s: System, m: MessageId) {
    m in s.locks && s.locks[m] in s.workers && s.workers[s.locks[m]].pc.Between?
  }

  /** One copy of each receipt, or source and destination in the middle of a move. */
  ghost predicate Tidy(s: System) {
    forall m :: m in s.copies ==>
      if MidMove(s, m)
      then s.workers[s.locks[m]].job.Shift? && s.copies[m] == {s.workers[s.locks[m]].job.from, s.workers[s.locks[m]].job.to}
      else exists f :: s.copies[m] == {f}
  }

  /** The event kills a mover between its two writes. */
  predicate Strands(s: System, e: Event) {
    e.Die? && e.p in s.workers && s.workers[e.p].job.Shift? && s.workers[e.p].pc.Between?
  }

  ghost predicate OneSettled(s: System, rules: Rules) {
    forall t, u :: Rivals(s, rules, t, u) ==> Settled(s, s.tasks[t]) || Settled(s, s.tasks[u])
  }

  lemma SendTidy(s: System, p: Pid, rules: Rules, choice: TaskId)
    requires MoversOk(s) && Tidy(s) && p in s.workers && s.workers[p].job.Send?
    ensures Tidy(SendStep(s, p, rules, choice))
  {
    var s' := SendStep(s, p, rules, choice);
    SendTouches(s, p, rules, choice);
    hide SendStep;
    forall m | m in s'.copies
      ensures if MidMove(s', m)
              then s'.workers[s'.locks[m]].job.Shift? && s'.copies[m] == {s'.workers[s'.locks[m]].job.from, s'.workers[s'.locks[m]].job.to}
              else exists f :: s'.copies[m] == {f}
    {
      if m !in s.copies {
        assert s'.copies[m] == {Unread};
      }
    }
  }

  /** A sender holds no receipt lock. */
  lemma NoReceiptLocks(s: System, p: Pid)
    requires MoversOk(s) && p in s.workers && s.workers[p].job.Send?
    ensures Unlocked(s, p).locks == s.locks && (forall m :: m in s.locks ==> s.locks[m] != p)
    ensures Unlocked(s, p) == s.(routeLock := Unlocked(s, p).routeLock)
  {
  }

  /** Only process p moves, and the receipt locks stay. */
  ghost predicate OnlySender(s: System, s': System, p: Pid) {
    p in s.workers && p in s'.workers && s'.workers == s.workers[p := s.workers[p].(pc := s'.workers[p].pc)]
    && s'.locks == s.locks
  }

  lemma CheckTouches(s: System, p: Pid, rules: Rules, choice: TaskId)
    requires p in s.workers && s.workers[p].job.Send? && Unlocked(s, p) == s.(routeLock := Unlocked(s, p).routeLock)
    ensures OnlySender(s, Check(s, p, rules, choice), p)
    ensures Check(s, p, rules, choice).copies == s.copies && Check(s, p, rules, choice).tasks == s.tasks
  {
    hide Unlocked;
    hide ReceiptProtocol.FolderAt;
    hide CopiesOf;
  }

  lemma DeliverTouches(s: System, p: Pid, rules: Rules)
    requires p in s.workers && s.workers[p].job.Send? && Unlocked(s, p) == s.(routeLock := Unlocked(s, p).routeLock)
    ensures OnlySender(s, Deliver(s, p, rules), p) && (!s.workers[p].pc.Numbered? ==> Deliver(s, p, rules).tasks == s.tasks)
    ensures Deliver(s, p, rules).copies
            == if s.workers[p].pc.Delivering? && s.workers[p].pc.message !in s.copies
               then s.copies[s.workers[p].pc.message := {Unread}] else s.copies
  {
    hide Unlocked;
    hide EnvelopeOf;
  }

  /** A sender changes no other process and no receipt lock, and at most adds an unread copy. */
  lemma SendTouches(s: System, p: Pid, rules: Rules, choice: TaskId)
    requires MoversOk(s) && p in s.workers && s.workers[p].job.Send?
    ensures var s' := SendStep(s, p, rules, choice);
            && OnlySender(s, s', p) && (forall m :: m in s.locks ==> s.locks[m] != p)
            && s'.copies == (if s.workers[p].pc.Delivering? && s.workers[p].pc.message !in s.copies
                             then s.copies[s.workers[p].pc.message := {Unread}] else s.copies)
  {
    NoReceiptLocks(s, p);
    hide MoversOk;
    hide Unlocked;
    hide Check;
    hide Deliver;
    CheckTouches(s, p, rules, choice);
    DeliverTouches(s, p, rules);
  }

  lemma ShiftTidy(s: System, p: Pid)
    requires MoversOk(s) && Tidy(s) && p in s.workers && s.workers[p].job.Shift? && JobOk(s.workers[p].job)
    ensures Tidy(ShiftStep(s, p))
  {
    var s' := ShiftStep(s, p);
    var job := s.workers[p].job;
    if s.workers[p].pc.Begin? {
      hide InForce;
    } else if s.workers[p].pc.Between? {
      hide InForce;
      assert s'.copies[job.message] == {job.to};
    } else if s.workers[p].pc.Holding? {
      if s'.workers[p].pc.Between? {
        assert job.message in s.copies && job.from in s.copies[job.message];
        hide InForce;
        assert !MidMove(s, job.message);
        assert s.copies[job.message] == {job.from};
      } else {
        hide InForce;
      }
    }
  }

  /** A worker that ends outside the middle of a move leaves the copies tidy. */
  lemma QuitTidy(s: System, p: Pid)
    requires MoversOk(s) && Tidy(s) && p in s.workers && !(s.workers[p].job.Shift? && s.workers[p].pc.Between?)
    ensures Tidy(Quit(s, p)) && Firm(s, Quit(s, p))
  {
    var s' := Quit(s, p);
    forall m | m in s.copies ensures MidMove(s', m) <==> MidMove(s, m) {
    }
  }

  /** Where one copy stands, a reroute swaps it for a dead one or puts it back. */
  lemma RerouteTidy(s: System, m: MessageId, key: Option<string>, body: string, rules: Rules)
    requires Tidy(s) && !MidMove(s, s.seqno + 2)
    ensures Tidy(SerialReroute(s, m, key, body, rules)) && Firm(s, SerialReroute(s, m, key, body, rules))
  {
    hide EnvelopeOf;
    hide NoneLive;
    if m in s.copies && m !in s.locks {
      SwappedTidy(s, m);
      hide Suspended;
      hide Restored;
      hide InForce;
      hide CopiesOf;
    }
  }

  lemma SwappedTidy(s: System, m: MessageId)
    requires Tidy(s) && m in s.copies && m !in s.locks
    ensures Tidy(Suspended(s, m)) && Firm(s, Suspended(s, m)) && Restored(s, m) == s
    ensures Suspended(s, m) == s.(copies := Suspended(s, m).copies) && Suspended(s, m).copies.Keys == s.copies.Keys
  {
    assert !MidMove(s, m);
    var f :| s.copies[m] == {f};
    assert f == Unread || f == Active || f == Done || f == Dead;
    assert CopiesOf(s, m) == {f} && InForce({f}) == Some(f);
    assert {f} - {f} + {Dead} == {Dead};
    assert Suspended(s, m).copies[m] == if f == Unread || f == Active then {Dead} else {f};
    assert InForce({Dead}) == Some(Dead);
    assert s.copies[m := {f}] == s.copies;
  }

  lemma DoTidy(s: System, e: Event, rules: Rules)
    requires Sane(s, rules) && Tidy(s) && !Strands(s, e)
    ensures Tidy(Do(s, e, rules)) && Firm(s, Do(s, e, rules))
  {
    hide Tidy;
    hide RouteLockOk;
    hide NumbersOk;
    hide FilesOk;
    hide MoversOk;
    hide SendStep;
    hide ShiftStep;
    hide SerialReroute;
    hide Quit;
    hide Firm;
    GrowsRefl(s);
    if !e.Reroute? { DoKeeps(s, e, rules); }
    match e
    case Go(p, choice) =>
      if p in s.workers {
        if s.workers[p].job.Send? { SendTidy(s, p, rules, choice); }
        else { assert WorkerOk(s, s.workers[p], rules); ShiftTidy(s, p); }
      }
    case Die(p) => if p in s.workers && !s.workers[p].pc.Finish? { QuitTidy(s, p); }
    case Reroute(m, key, body) =>
      NewIsUnmoved(s, rules);
      RerouteTidy(s, m, key, body, rules);
  }

  lemma NewIsUnmoved(s: System, rules: Rules)
    requires Sane(s, rules)
    ensures s.seqno + 2 !in s.copies && !MidMove(s, s.seqno + 2)
  {
    hide WorkerOk;
    hide RouteLockOk;
    hide OwnOk;
  }

  // ------------------------------------------------------ what a step adds

  /** A task file that appears belongs to a message without a receipt, and where its class has no fanout
      the other tasks with its key are settled. */
  ghost predicate AddsWell(s: System, s': System, rules: Rules) {
    forall u :: u in s'.tasks && u !in s.tasks ==>
      && s'.tasks[u].message !in s.copies
      && (s'.tasks[u].key.Some? && s'.tasks[u].key.value in rules.exclusive ==>
            NoneLive(s', s'.tasks[u].key.value, s'.tasks[u].message))
  }

  /** Where a receipt appears it is unread, and the same holds of the task it belongs to. */
  ghost predicate DeliversWell(s: System, s': System, rules: Rules) {
    && (forall m :: m in s'.copies && m !in s.copies ==> s'.copies[m] == {Unread})
    && (forall u :: u in s'.tasks && s'.tasks[u].message in s'.copies && s'.tasks[u].message !in s.copies
                    && s'.tasks[u].key.Some? && s'.tasks[u].key.value in rules.exclusive ==>
          NoneLive(s', s'.tasks[u].key.value, s'.tasks[u].message))
  }

  lemma WriteAddsWell(s: System, p: Pid, rules: Rules)
    requires p in s.workers && s.workers[p].job.Send? && s.workers[p].pc.Numbered?
    requires OwnOk(s, s.workers[p]) && MayAdd(s, s.workers[p].job, s.workers[p].pc.message, rules)
    ensures AddsWell(s, Deliver(s, p, rules), rules) && DeliversWell(s, Deliver(s, p, rules), rules)
  {
    hide EnvelopeOf;
    hide Settled;
    var s' := Deliver(s, p, rules);
    AddKept(s, s', s.workers[p].job, s.workers[p].pc.message, rules);
    hide NoneLive;
    assert s'.copies == s.copies;
  }

  lemma ReceiptAddsWell(s: System, p: Pid, rules: Rules)
    requires p in s.workers && s.workers[p].job.Send? && s.workers[p].pc.Delivering?
    requires NumbersOk(s) && OwnOk(s, s.workers[p]) && MayAdd(s, s.workers[p].job, s.workers[p].pc.message, rules)
    ensures AddsWell(s, Deliver(s, p, rules), rules) && DeliversWell(s, Deliver(s, p, rules), rules)
  {
    MessagesDiffer(s);
    hide NumbersOk;
    var s' := Deliver(s, p, rules);
    DeliveredAmong(s, s', s.workers[p].job, s.workers[p].pc.message, rules);
    hide NoneLive;
  }

  lemma QuietAddsWell(s: System, s': System, rules: Rules)
    requires s'.tasks == s.tasks && s'.copies.Keys == s.copies.Keys
    ensures AddsWell(s, s', rules) && DeliversWell(s, s', rules)
  {
    hide NoneLive;
    forall m ensures m in s'.copies <==> m in s.copies { assert m in s'.copies.Keys <==> m in s.copies.Keys; }
  }

  lemma SendAddsWell(s: System, p: Pid, rules: Rules, choice: TaskId)
    requires Sane(s, rules) && p in s.workers && s.workers[p].job.Send?
    ensures AddsWell(s, SendStep(s, p, rules, choice), rules) && DeliversWell(s, SendStep(s, p, rules, choice), rules)
  {
    hide NumbersOk;
    hide EnvelopeOf;
    hide NoneLive;
    hide AddsWell;
    hide DeliversWell;
    hide ReceiptProtocol.FolderAt;
    hide Unlocked;
    Pieces(s, p, rules);
    OwnNumbers(s, p);
    hide Sane;
    hide OwnOk;
    var pc, s' := s.workers[p].pc, SendStep(s, p, rules, choice);
    if pc.Numbered? {
      WriteAddsWell(s, p, rules);
    } else if pc.Delivering? {
      ReceiptAddsWell(s, p, rules);
    } else {
      hide MayAdd;
      NoReceiptLocks(s, p);
      CheckTouches(s, p, rules, choice);
      DeliverTouches(s, p, rules);
      hide Check;
      hide Deliver;
      QuietAddsWell(s, s', rules);
    }
  }

  lemma UnlockedFiles(s: System, p: Pid)
    ensures Unlocked(s, p).tasks == s.tasks && Unlocked(s, p).copies == s.copies
  {
  }

  lemma MessagesDiffer(s: System)
    requires NumbersOk(s)
    ensures forall t, u :: t in s.tasks && u in s.tasks && t != u ==> s.tasks[t].message != s.tasks[u].message
  {
    hide OwnOk;
  }

  /** A receipt of one's own changes nothing about the others. */
  lemma DeliveredAmong(s: System, s': System, job: Job, m: MessageId, rules: Rules)
    requires MayAdd(s, job, m, rules) && s'.tasks == s.tasks
    requires s'.copies == s.copies || s'.copies == s.copies[m := {Unread}]
    ensures MayAdd(s', job, m, rules)
  {
  }

  lemma RoutedAddsWell(s: System, s1: System, key: Option<string>, body: string, rules: Rules)
    requires NumbersOk(s) && s1 == s.(copies := s1.copies) && s1.copies.Keys == s.copies.Keys && s.seqno + 2 !in s.copies
    requires key.Some? && key.value in rules.exclusive ==> NoneLive(s1, key.value, s.seqno + 2)
    ensures var s' := Routed(s1, s.seqno + 1, s.seqno + 2, key, body, rules);
            AddsWell(s, s', rules) && DeliversWell(s, s', rules)
  {
    hide EnvelopeOf;
    hide OwnOk;
    var s' := Routed(s1, s.seqno + 1, s.seqno + 2, key, body, rules);
    forall m ensures m in s1.copies <==> m in s.copies { assert m in s1.copies.Keys <==> m in s.copies.Keys; }
    if key.Some? && key.value in rules.exclusive {
      forall t | t in s'.tasks && s'.tasks[t].key == key && s'.tasks[t].message != s.seqno + 2
        ensures Settled(s', s'.tasks[t])
      {
        assert t in s1.tasks && Settled(s1, s1.tasks[t]);
      }
      assert NoneLive(s', key.value, s.seqno + 2);
    }
  }

  lemma DoAddsWell(s: System, e: Event, rules: Rules)
    requires Sane(s, rules)
    ensures AddsWell(s, Do(s, e, rules), rules) && DeliversWell(s, Do(s, e, rules), rules)
  {
    hide AddsWell;
    hide DeliversWell;
    hide SendStep;
    hide ShiftStep;
    hide RouteLockOk;
    hide FilesOk;
    hide MoversOk;
    hide NumbersOk;
    hide NoneLive;
    hide Suspended;
    hide Restored;
    hide Routed;
    QuietAddsWell(s, s, rules);
    match e
    case Go(p, choice) =>
      if p in s.workers {
        if s.workers[p].job.Send? { SendAddsWell(s, p, rules, choice); }
        else { ShiftFiles(s, p); QuietAddsWell(s, ShiftStep(s, p), rules); }
      }
    case Die(p) =>
      if p in s.workers {
        UnlockedFiles(s, p);
        hide Unlocked;
        QuietAddsWell(s, Quit(s, p), rules);
      }
    case Reroute(m, key, body) =>
      if m in s.copies {
        NewIsUnmoved(s, rules);
        hide Sane;
        RestoredGrows(s, m);
        QuietAddsWell(s, Restored(s, m), rules);
        if SerialReroute(s, m, key, body, rules) == Routed(Suspended(s, m), s.seqno + 1, s.seqno + 2, key, body, rules)
           && (key.Some? && key.value in rules.exclusive ==> NoneLive(Suspended(s, m), key.value, s.seqno + 2)) {
          RoutedAddsWell(s, Suspended(s, m), key, body, rules);
        }
      }
  }

  lemma ShiftFiles(s: System, p: Pid)
    requires MoversOk(s) && p in s.workers && s.workers[p].job.Shift?
    ensures ShiftStep(s, p).tasks == s.tasks && ShiftStep(s, p).copies.Keys == s.copies.Keys
  {
    UnlockedFiles(s, p);
    hide Unlocked;
    var job := s.workers[p].job;
    assert s.workers[p].pc.Between? ==> job.message in s.copies;
    assert InForce(CopiesOf(s, job.message)) == Some(job.from) ==> job.message in s.copies;
    hide InForce;
    hide MoversOk;
  }

  lemma StepOneSettled(s: System, s': System, rules: Rules)
    requires OneSettled(s, rules) && Grows(s, s') && Firm(s, s') && AddsWell(s, s', rules)
    requires forall t, u :: t in s'.tasks && u in s'.tasks && t != u ==> s'.tasks[t].message != s'.tasks[u].message
    ensures OneSettled(s', rules)
  {
    forall t, u | Rivals(s', rules, t, u) ensures Settled(s', s'.tasks[t]) || Settled(s', s'.tasks[u]) {
      if t in s.tasks && u in s.tasks {
        assert Rivals(s, rules, t, u);
      } else if t !in s.tasks {
        assert NoneLive(s', s'.tasks[t].key.value, s'.tasks[t].message);
      } else {
        assert NoneLive(s', s'.tasks[u].key.value, s'.tasks[u].message);
      }
    }
  }

  /** No event of the schedule kills a mover between its two writes. */
  ghost predicate NoneStranded(s: System, events: seq<Event>, rules: Rules) {
    forall i :: 0 <= i < |events| ==> !Strands(Run(s, events[..i], rules), events[i])
  }

  lemma {:induction false} StaysTidy(s: System, events: seq<Event>, rules: Rules)
    requires Initial(s) && NoneStranded(s, events, rules)
    ensures var now := Run(s, events, rules); Sane(now, rules) && Tidy(now) && OneSettled(now, rules)
  {
    hide Sane;
    hide Do;
    hide Strands;
    AlwaysSane(s, events, rules);
    if events != [] {
      var n := |events| - 1;
      var before := events[..n];
      forall i | 0 <= i < n ensures before[..i] == events[..i] && before[i] == events[i] {}
      StaysTidy(s, before, rules);
      var t := Run(s, before, rules);
      assert !Strands(t, events[n]);
      hide Tidy;
      hide OneSettled;
      DoTidy(t, events[n], rules);
      DoKeeps(t, events[n], rules);
      DoAddsWell(t, events[n], rules);
      MessagesDiffer(Do(t, events[n], rules)) by { SaneNumbers(Do(t, events[n], rules), rules); }
      StepOneSettled(t, Do(t, events[n], rules), rules);
    }
  }

  lemma SaneNumbers(s: System, rules: Rules)
    requires Sane(s, rules)
    ensures NumbersOk(s)
  {
    hide NumbersOk;
  }

  /** All copies of the receipt are done or dead. */
  predicate Finished(s: System, t: TaskFile) {
    t.message in s.copies && s.copies[t.message] != {} && Over(s.copies[t.message])
  }

  /** Any interleaving of routes, keyed and plain adds, sends, reads, completions and requeues with serial
      reroutes, in which no mover is killed between its two writes: of two tasks with one exclusive key
      neither of which is in the middle of a move, one has nothing but finished copies. */
  lemma OneLiveTaskPerKey(s: System, events: seq<Event>, rules: Rules, t: TaskId, u: TaskId)
    requires Initial(s) && NoneStranded(s, events, rules)
    requires var now := Run(s, events, rules);
             && Rivals(now, rules, t, u)
             && !MidMove(now, now.tasks[t].message) && !MidMove(now, now.tasks[u].message)
    ensures var now := Run(s, events, rules); Finished(now, now.tasks[t]) || Finished(now, now.tasks[u])
  {
    hide Run;
    hide Sane;
    hide NoneStranded;
    hide MidMove;
    StaysTidy(s, events, rules);
  }

  /** In such a schedule a receipt has copies on both sides only while its mover is between its writes. */
  lemma SplitIsMoving(s: System, events: seq<Event>, rules: Rules, t: TaskId)
    requires Initial(s) && NoneStranded(s, events, rules)
    requires var now := Run(s, events, rules); t in now.tasks && Split(now, now.tasks[t])
    ensures var now := Run(s, events, rules); MidMove(now, now.tasks[t].message)
  {
    hide Run;
    hide Sane;
    hide NoneStranded;
    hide MidMove;
    StaysTidy(s, events, rules);
  }

  // ------------------------------------------------- with crashes, exactly

  /** The copy in force is live although another one is finished. */
  predicate Split(s: System, t: TaskFile) {
    Live(s, t) && Settled(s, t)
  }

  /** At most one task of each exclusive key has its copy in force in unread or active. */
  ghost predicate NoClash(s: System, rules: Rules) {
    forall t, u :: Rivals(s, rules, t, u) ==> !(Live(s, s.tasks[t]) && Live(s, s.tasks[u]))
  }

  /** The event delivers the receipt of a task beside a task with its exclusive key whose receipt has
      copies on both sides. */
  ghost predicate Overlaps(s: System, e: Event, rules: Rules) {
    var s' := Do(s, e, rules);
    exists t, u :: Rivals(s', rules, t, u)
                   && s'.tasks[u].message in s'.copies && s'.tasks[u].message !in s.copies
                   && Split(s', s'.tasks[t])
  }

  lemma LiveBefore(s: System, s': System, t: TaskId)
    requires Grows(s, s') && t in s'.tasks && Live(s', s'.tasks[t])
    ensures t in s.tasks && s.tasks[t].message in s.copies ==> Live(s, s.tasks[t])
  {
  }

  lemma LiveHasReceipt(s: System, t: TaskFile)
    requires Live(s, t)
    ensures t.message in s.copies
  {
  }

  /** Where nothing clashed before, a clash begins exactly with such a delivery. */
  lemma ClashBegins(s: System, e: Event, rules: Rules)
    requires Sane(s, rules) && NoClash(s, rules)
    ensures NoClash(Do(s, e, rules), rules) <==> !Overlaps(s, e, rules)
  {
    hide Sane;
    hide Do;
    hide Settled;
    var s' := Do(s, e, rules);
    DoKeeps(s, e, rules);
    DoAddsWell(s, e, rules);
    MessagesDiffer(s') by { SaneNumbers(s', rules); }
    if t, u :| Rivals(s', rules, t, u) && Live(s', s'.tasks[t]) && Live(s', s'.tasks[u]) {
      Newcomer(s, s', rules, t, u);
    }
    if t, u :| Rivals(s', rules, t, u) && s'.tasks[u].message in s'.copies && s'.tasks[u].message !in s.copies
               && Split(s', s'.tasks[t]) {
      assert s'.copies[s'.tasks[u].message] == {Unread};
      assert Live(s', s'.tasks[u]);
    }
  }

  /** One of the two has just been delivered, and then the other one is settled. */
  lemma Newcomer(s: System, s': System, rules: Rules, t: TaskId, u: TaskId)
    requires NoClash(s, rules) && Grows(s, s') && AddsWell(s, s', rules) && DeliversWell(s, s', rules)
    requires forall a, b :: a in s'.tasks && b in s'.tasks && a != b ==> s'.tasks[a].message != s'.tasks[b].message
    requires Rivals(s', rules, t, u) && Live(s', s'.tasks[t]) && Live(s', s'.tasks[u])
    ensures exists a, b :: Rivals(s', rules, a, b)
                           && s'.tasks[b].message in s'.copies && s'.tasks[b].message !in s.copies && Split(s', s'.tasks[a])
  {
    hide Settled;
    LiveHasReceipt(s', s'.tasks[t]);
    LiveHasReceipt(s', s'.tasks[u]);
    var mt, mu := s'.tasks[t].message, s'.tasks[u].message;
    LiveBefore(s, s', t);
    LiveBefore(s, s', u);
    assert mt in s.copies && mu in s.copies ==> Rivals(s, rules, t, u);
    hide Live;
    if mu !in s.copies {
      assert NoneLive(s', s'.tasks[u].key.value, mu);
      assert Split(s', s'.tasks[t]);
    } else if mt !in s.copies {
      assert NoneLive(s', s'.tasks[t].key.value, mt);
      assert Split(s', s'.tasks[u]) && Rivals(s', rules, u, t);
    }
  }

  ghost predicate NoClashAt(s: System, events: seq<Event>, rules: Rules, i: nat)
    requires i <= |events|
  {
    NoClash(Run(s, events[..i], rules), rules)
  }

  ghost predicate OverlapAt(s: System, events: seq<Event>, rules: Rules, i: nat)
    requires i < |events|
  {
    Overlaps(Run(s, events[..i], rules), events[i], rules)
  }

  /** Over every schedule, with any crashes: at most one task of each exclusive key has its copy in force
      in unread or active at every moment, exactly when no receipt is ever delivered beside one of its key
      that has copies on both sides. */
  lemma {:induction false} OneInForceExactly(s: System, events: seq<Event>, rules: Rules)
    requires Initial(s)
    ensures (forall i :: 0 <= i <= |events| ==> NoClashAt(s, events, rules, i))
            <==> (forall i :: 0 <= i < |events| ==> !OverlapAt(s, events, rules, i))
  {
    hide NoClashAt;
    hide OverlapAt;
    if events == [] {
      NothingClashes(s, rules);
    } else {
      var n := |events| - 1;
      var before := events[..n];
      OneInForceExactly(s, before, rules);
      forall i | 0 <= i <= n ensures NoClashAt(s, events, rules, i) <==> NoClashAt(s, before, rules, i) {
        SamePrefix(s, events, rules, i);
      }
      forall i | 0 <= i < n ensures OverlapAt(s, events, rules, i) <==> OverlapAt(s, before, rules, i) {
        SamePrefix(s, events, rules, i);
      }
      LastBegins(s, events, rules);
    }
  }

  lemma SamePrefix(s: System, events: seq<Event>, rules: Rules, i: nat)
    requires i < |events|
    ensures var before := events[..|events| - 1];
            && (NoClashAt(s, events, rules, i) <==> NoClashAt(s, before, rules, i))
            && (i < |before| ==> (OverlapAt(s, events, rules, i) <==> OverlapAt(s, before, rules, i)))
  {
    hide Run;
    hide NoClash;
    hide Overlaps;
    assert events[..|events| - 1][..i] == events[..i];
  }

  lemma LastBegins(s: System, events: seq<Event>, rules: Rules)
    requires Initial(s) && events != []
    ensures NoClashAt(s, events, rules, |events| - 1) ==>
              (NoClashAt(s, events, rules, |events|) <==> !OverlapAt(s, events, rules, |events| - 1))
  {
    hide Sane;
    hide Do;
    hide NoClash;
    hide Overlaps;
    var n := |events| - 1;
    AlwaysSane(s, events[..n], rules);
    hide Initial;
    assert events[..|events|] == events;
    var t := Run(s, events[..n], rules);
    if NoClash(t, rules) { ClashBegins(t, events[n], rules); }
  }

  lemma NothingClashes(s: System, rules: Rules)
    requires Initial(s)
    ensures NoClashAt(s, [], rules, 0)
  {
  }

  // --------------------------------------------------------- the lookup

  predicate FoundFinished(last: Option<Folder>) {
    last == Some(Done) || last == Some(Dead)
  }

  /** Process p is still in the look at task t that began in state a, with what a had already finished
      caught once its folder is passed; or it has left that look and will not come back to it. */
  ghost predicate InLook(a: System, c: System, p: Pid, todo: set<TaskId>, t: TaskId)
    requires t in a.tasks
  {
    && p in c.workers && c.workers[p].job.Send? && t in c.tasks && c.tasks[t] == a.tasks[t]
    && match c.workers[p].pc
       case Begin => false
       case Checking(td) => td <= todo
       case Looking(td, u, i, last) =>
         if u == t
         then && td == todo && i <= 4
              && (forall f :: f in CopiesOf(a, a.tasks[t].message) && (f == Done || f == Dead) ==>
                    && f in CopiesOf(c, c.tasks[t].message)
                    && (i > ReceiptProtocol.Rank(f) ==> FoundFinished(last)))
         else td <= todo
       case _ => true
  }

  /** One folder more of the same look. */
  lemma LookAdvances(a: System, c: System, p: Pid, todo: set<TaskId>, t: TaskId, choice: TaskId, rules: Rules)
    requires t in a.tasks && InLook(a, c, p, todo, t)
    requires c.workers[p].pc.Looking? && c.workers[p].pc.task == t && c.workers[p].pc.i < 4
    ensures InLook(a, Check(c, p, rules, choice), p, todo, t)
  {
    hide Unlocked;
    var pc := c.workers[p].pc;
    var c' := Check(c, p, rules, choice);
    var next := c'.workers[p].pc;
    assert c'.tasks == c.tasks && c'.copies == c.copies && next.Looking? && next.task == t && next.i == pc.i + 1;
    assert pc.i == 2 ==> ReceiptProtocol.FolderAt(pc.i) == Done;
    assert pc.i == 3 ==> ReceiptProtocol.FolderAt(pc.i) == Dead;
    assert pc.i >= 2 && FoundFinished(pc.last) ==> FoundFinished(next.last);
    assert pc.i == 2 && Done in CopiesOf(c, c.tasks[t].message) ==> FoundFinished(next.last);
    assert pc.i == 3 && Dead in CopiesOf(c, c.tasks[t].message) ==> FoundFinished(next.last);
  }

  /** Every other step of the sender. */
  lemma LookLeaves(a: System, c: System, p: Pid, todo: set<TaskId>, t: TaskId, choice: TaskId, rules: Rules)
    requires t in a.tasks && t !in todo && InLook(a, c, p, todo, t)
    requires c.workers[p].pc.Checking? || c.workers[p].pc.Looking?
    requires c.workers[p].pc.Looking? ==> c.workers[p].pc.task != t || c.workers[p].pc.i == 4
    ensures InLook(a, Check(c, p, rules, choice), p, todo, t)
  {
    hide ReceiptProtocol.FolderAt;
    UnlockedTasks(c, p);
    hide Unlocked;
    hide CopiesOf;
  }

  predicate PastLook(pc: Pc) {
    !pc.Begin? && !pc.Checking? && !pc.Looking?
  }

  /** A sender that has left its lookups does not come back to them. */
  lemma StaysPast(c: System, p: Pid, rules: Rules)
    requires p in c.workers && c.workers[p].job.Send? && PastLook(c.workers[p].pc)
    ensures var c' := Deliver(c, p, rules);
            p in c'.workers && c'.workers[p].job == c.workers[p].job && PastLook(c'.workers[p].pc)
  {
    assert Quit(c, p).workers == At(c, p, Gone).workers by { UnlockedTasks(c, p); }
    assert At(Unlocked(c, p), p, Finish).workers == At(c, p, Finish).workers by { UnlockedTasks(c, p); }
    hide Quit;
    hide Unlocked;
    hide EnvelopeOf;
    match c.workers[p].pc
    case Numbered(id, m) =>
    case Staging(id, m, env, body) =>
    case Delivering(id, m) =>
    case _ =>
  }

  lemma LookStep(a: System, c: System, p: Pid, todo: set<TaskId>, t: TaskId, choice: TaskId, rules: Rules)
    requires t in a.tasks && t !in todo && InLook(a, c, p, todo, t)
    ensures Grows(c, SendStep(c, p, rules, choice)) ==> InLook(a, SendStep(c, p, rules, choice), p, todo, t)
  {
    hide Unlocked;
    hide EnvelopeOf;
    hide CopiesOf;
    hide Check;
    hide Deliver;
    var pc := c.workers[p].pc;
    if PastLook(pc) { StaysPast(c, p, rules); }
    else if pc.Looking? && pc.task == t && pc.i < 4 { LookAdvances(a, c, p, todo, t, choice, rules); }
    else { LookLeaves(a, c, p, todo, t, choice, rules); }
  }

  /** What others do leaves the look alone while firm growth is all there is. */
  lemma OthersLook(a: System, c: System, c': System, p: Pid, todo: set<TaskId>, t: TaskId)
    requires t in a.tasks && InLook(a, c, p, todo, t) && Grows(c, c')
    requires p in c'.workers && c'.workers[p] == c.workers[p] && (c.workers[p].pc.Looking? ==> Firm(c, c'))
    ensures InLook(a, c', p, todo, t)
  {
  }

  /** An event of another process leaves p alone. */
  lemma DoOthers(c: System, e: Event, p: Pid, rules: Rules)
    requires MoversOk(c) && p in c.workers && !(e.Go? && e.p == p) && !(e.Die? && e.p == p)
    ensures var c' := Do(c, e, rules); p in c'.workers && c'.workers[p] == c.workers[p]
  {
    hide SendStep;
    if e.Go? && e.p in c.workers && c.workers[e.p].job.Send? {
      SendTouches(c, e.p, rules, e.choice);
    } else if e.Reroute? {
      hide Suspended;
      hide Restored;
      hide NoneLive;
      if e.message in c.copies { RestoredGrows(c, e.message); }
    } else if !e.Reroute? && e.p in c.workers {
      UnlockedTasks(c, e.p);
      hide Unlocked;
      hide InForce;
      hide CopiesOf;
      hide MoversOk;
    }
  }

  lemma LookDo(a: System, c: System, e: Event, p: Pid, todo: set<TaskId>, t: TaskId, rules: Rules)
    requires Sane(c, rules) && t in a.tasks && t !in todo && InLook(a, c, p, todo, t)
    ensures InLook(a, Do(c, e, rules), p, todo, t)
  {
    Pieces(c, p, rules);
    DoKeeps(c, e, rules);
    hide Sane;
    hide Grows;
    hide Firm;
    hide NumbersOk;
    hide MoversOk;
    hide FilesOk;
    hide RouteLockOk;
    assert c.workers[p].pc.Looking? ==> c.routeLock == Some(p);
    hide WorkerOk;
    hide InLook;
    if e.Go? && e.p == p {
      assert c.workers[p].job.Send? by { LookerSends(a, c, p, todo, t); }
      hide SendStep;
      LookStep(a, c, p, todo, t, e.choice, rules);
    } else if e.Die? && e.p == p {
      DeadLook(a, c, p, todo, t);
    } else {
      DoOthers(c, e, p, rules);
      GrowsRefl(c);
      assert e.Reroute? && c.workers[p].pc.Looking? ==> Do(c, e, rules) == c;
      OthersLook(a, c, Do(c, e, rules), p, todo, t);
    }
  }

  lemma LookerSends(a: System, c: System, p: Pid, todo: set<TaskId>, t: TaskId)
    requires t in a.tasks && InLook(a, c, p, todo, t)
    ensures p in c.workers && c.workers[p].job.Send?
  {
  }

  lemma DeadLook(a: System, c: System, p: Pid, todo: set<TaskId>, t: TaskId)
    requires t in a.tasks && InLook(a, c, p, todo, t)
    ensures InLook(a, Quit(c, p), p, todo, t)
  {
    UnlockedTasks(c, p);
    hide Unlocked;
    hide CopiesOf;
  }

  lemma {:induction false} LookRuns(s: System, before: seq<Event>, during: seq<Event>, p: Pid, todo: set<TaskId>, t: TaskId, rules: Rules)
    requires Initial(s)
    requires var a := Run(s, before, rules); p in a.workers && a.workers[p].job.Send? && a.workers[p].pc == Looking(todo, t, 0, None)
    ensures var a := Run(s, before, rules);
            t in a.tasks && t !in todo && Sane(Run(s, before + during, rules), rules)
            && InLook(a, Run(s, before + during, rules), p, todo, t)
  {
    hide Do;
    var a := Run(s, before, rules);
    AlwaysSane(s, before, rules);
    AlwaysSane(s, before + during, rules);
    Pieces(a, p, rules);
    hide Sane;
    hide Initial;
    if during == [] {
      assert before + during == before;
    } else {
      var n := |during| - 1;
      LookRuns(s, before, during[..n], p, todo, t, rules);
      assert (before + during)[..|before + during| - 1] == before + during[..n];
      hide InLook;
      LookDo(a, Run(s, before + during[..n], rules), during[n], p, todo, t, rules);
    }
  }

  /** The scan behind the duplicate lookup, whatever goes on beside it. At its end the last folder that
      held the receipt decides: what had a done or dead copy when the scan began is taken for finished, and
      what is taken for finished has such a copy now. */
  lemma LookConcludes(s: System, before: seq<Event>, during: seq<Event>, p: Pid, todo: set<TaskId>, t: TaskId,
                      last: Option<Folder>, rules: Rules)
    requires Initial(s)
    requires var a := Run(s, before, rules); p in a.workers && a.workers[p].job.Send? && a.workers[p].pc == Looking(todo, t, 0, None)
    requires var b := Run(s, before + during, rules); p in b.workers && b.workers[p].pc == Looking(todo, t, 4, last)
    ensures var a, b := Run(s, before, rules), Run(s, before + during, rules);
            && t in a.tasks && t in b.tasks
            && (Settled(a, a.tasks[t]) ==> FoundFinished(last))
            && (FoundFinished(last) ==> Settled(b, b.tasks[t]))
  {
    hide Run;
    hide Initial;
    hide NumbersOk;
    hide MoversOk;
    hide FilesOk;
    hide RouteLockOk;
    LookRuns(s, before, during, p, todo, t, rules);
    Pieces(Run(s, before + during, rules), p, rules);
  }

  /** What the lookup takes for finished stays finished, unless its receipt has copies on both sides. */
  lemma AcceptedForGood(s: System, events: seq<Event>, i: nat, p: Pid, todo: set<TaskId>, t: TaskId,
                        last: Option<Folder>, rules: Rules)
    requires Initial(s) && i <= |events| && FoundFinished(last)
    requires var a := Run(s, events[..i], rules); p in a.workers && a.workers[p].job.Send? && a.workers[p].pc == Looking(todo, t, 4, last)
    ensures var a, b := Run(s, events[..i], rules), Run(s, events, rules);
            && t in a.tasks && t in b.tasks
            && (Live(b, b.tasks[t]) ==> Split(a, a.tasks[t]))
  {
    hide Run;
    hide NumbersOk;
    hide MoversOk;
    hide FilesOk;
    hide RouteLockOk;
    AlwaysSane(s, events[..i], rules);
    CommittedForGood(s, events, rules, i);
    var a, b := Run(s, events[..i], rules), Run(s, events, rules);
    Pieces(a, p, rules);
    if Live(b, b.tasks[t]) { LiveBefore(a, b, t); }
  }

  lemma UnlockedTasks(s: System, p: Pid)
    ensures Unlocked(s, p).tasks == s.tasks && Unlocked(s, p).workers == s.workers
  {
  }
}
