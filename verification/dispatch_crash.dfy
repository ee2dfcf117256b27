/** A completion that dies between its two writes, and two live tasks with one exclusive key. */
module DispatchCrash {
  import opened Wrappers
  import opened Protocol
  import opened Dispatch
  import opened DispatchHistories
  import ReceiptProtocol

  function Steps(s: System, p: Pid, n: nat, rules: Rules): System {
    if n == 0 then s else Do(Steps(s, p, n - 1, rules), Go(p, 1), rules)
  }

  function Turns(p: Pid, n: nat): seq<Event> {
    if n == 0 then [] else Turns(p, n - 1) + [Go(p, 1)]
  }

  lemma {:induction false} RunTurns(s: System, events: seq<Event>, p: Pid, n: nat, rules: Rules)
    ensures Run(s, events + Turns(p, n), rules) == Steps(Run(s, events, rules), p, n, rules)
  {
    hide Do;
    if n == 0 {
      assert events + Turns(p, 0) == events;
    } else {
      RunTurns(s, events, p, n - 1, rules);
      var all := events + Turns(p, n - 1);
      assert events + Turns(p, n) == all + [Go(p, 1)];
      RunOneMore(s, all, Go(p, 1), rules);
    }
  }

  lemma RunOneMore(s: System, events: seq<Event>, e: Event, rules: Rules)
    ensures Run(s, events + [e], rules) == Do(Run(s, events, rules), e, rules)
  {
    hide Do;
    assert (events + [e])[..|events|] == events;
  }

  lemma AtAt(s: System, p: Pid, pc: Pc, pc': Pc)
    requires p in s.workers
    ensures At(At(s, p, pc), p, pc') == At(s, p, pc')
  {
    assert s.workers[p := s.workers[p].(pc := pc)][p := s.workers[p].(pc := pc')] == s.workers[p := s.workers[p].(pc := pc')];
  }

  lemma OneMore(s: System, p: Pid, n: nat, rules: Rules)
    ensures Steps(s, p, n + 1, rules) == Do(Steps(s, p, n, rules), Go(p, 1), rules)
  {
  }

  /** A keyed sender that finds every task looked at adds one by itself. */
  lemma AddAlone(s: System, p: Pid, n: nat, t: System, rules: Rules)
    requires p in t.workers && Steps(s, p, n, rules) == At(t, p, Checking({})) && Keyed(t.workers[p].job)
    requires t.seqno + 1 !in t.tasks && t.seqno + 2 !in t.messages && t.seqno + 2 !in t.copies
    requires t.routeLock == Some(p) && forall x :: x in t.locks ==> t.locks[x] != p
    ensures var id, m, job := t.seqno + 1, t.seqno + 2, t.workers[p].job;
            Steps(s, p, n + 6, rules)
            == At(t.(routeLock := None, seqno := m, tasks := t.tasks[id := TaskFile(job.key, m)],
                      messages := t.messages[m := Stored(EnvelopeOf(rules, job.body, Some(id)), job.body)],
                      copies := t.copies[m := {Unread}]), p, Finish)
  {
    hide Steps;
    hide EnvelopeOf;
    var id, m, job := t.seqno + 1, t.seqno + 2, t.workers[p].job;
    var env := EnvelopeOf(rules, job.body, Some(id));
    var t1 := t.(seqno := m);
    var t2 := t1.(tasks := t.tasks[id := TaskFile(job.key, m)]);
    var t3 := t2.(messages := t.messages[m := Stored(env, job.body)]);
    var t4 := t3.(copies := t.copies[m := {Unread}]);
    hide Do;
    NumberOne(t, p, rules);
    OneMore(s, p, n, rules);
    WriteOne(t1, p, id, m, rules);
    OneMore(s, p, n + 1, rules);
    StageOne(t2, p, id, m, env, rules);
    OneMore(s, p, n + 2, rules);
    CommitOne(t2, p, id, m, env, rules);
    OneMore(s, p, n + 3, rules);
    ReceiptOne(t3, p, id, m, rules);
    OneMore(s, p, n + 4, rules);
    LeaveStep(t4, p, rules);
    OneMore(s, p, n + 5, rules);
  }

  lemma NumberOne(t: System, p: Pid, rules: Rules)
    requires p in t.workers && t.workers[p].job.Send?
    ensures Do(At(t, p, Checking({})), Go(p, 1), rules)
            == At(t.(seqno := t.seqno + 2), p, Numbered(t.seqno + 1, t.seqno + 2))
  {
    AtAt(t.(seqno := t.seqno + 2), p, Checking({}), Numbered(t.seqno + 1, t.seqno + 2));
  }

  lemma WriteOne(t: System, p: Pid, id: TaskId, m: MessageId, rules: Rules)
    requires p in t.workers && Keyed(t.workers[p].job) && id !in t.tasks
    ensures Do(At(t, p, Numbered(id, m)), Go(p, 1), rules)
            == At(t.(tasks := t.tasks[id := TaskFile(t.workers[p].job.key, m)]), p,
                  Staging(id, m, EnvelopeOf(rules, t.workers[p].job.body, Some(id)), None))
  {
    hide EnvelopeOf;
    var env := EnvelopeOf(rules, t.workers[p].job.body, Some(id));
    AtAt(t.(tasks := t.tasks[id := TaskFile(t.workers[p].job.key, m)]), p, Numbered(id, m), Staging(id, m, env, None));
  }

  lemma StageOne(t: System, p: Pid, id: TaskId, m: MessageId, env: Envelope, rules: Rules)
    requires p in t.workers && t.workers[p].job.Send?
    ensures Do(At(t, p, Staging(id, m, env, None)), Go(p, 1), rules)
            == At(t, p, Staging(id, m, env, Some(t.workers[p].job.body)))
  {
    AtAt(t, p, Staging(id, m, env, None), Staging(id, m, env, Some(t.workers[p].job.body)));
  }

  lemma CommitOne(t: System, p: Pid, id: TaskId, m: MessageId, env: Envelope, rules: Rules)
    requires p in t.workers && t.workers[p].job.Send? && m !in t.messages
    ensures var body := t.workers[p].job.body;
            Do(At(t, p, Staging(id, m, env, Some(body))), Go(p, 1), rules)
            == At(t.(messages := t.messages[m := Stored(env, body)]), p, Delivering(id, m))
  {
    var body := t.workers[p].job.body;
    AtAt(t.(messages := t.messages[m := Stored(env, body)]), p, Staging(id, m, env, Some(body)), Delivering(id, m));
  }

  lemma ReceiptOne(t: System, p: Pid, id: TaskId, m: MessageId, rules: Rules)
    requires p in t.workers && t.workers[p].job.Send? && m !in t.copies
    ensures Do(At(t, p, Delivering(id, m)), Go(p, 1), rules) == At(t.(copies := t.copies[m := {Unread}]), p, Clearing)
  {
    AtAt(t.(copies := t.copies[m := {Unread}]), p, Delivering(id, m), Clearing);
  }

  lemma LeaveStep(t: System, p: Pid, rules: Rules)
    requires p in t.workers && t.workers[p].job.Send? && t.routeLock == Some(p) && forall x :: x in t.locks ==> t.locks[x] != p
    ensures Do(At(t, p, Clearing), Go(p, 1), rules) == At(t.(routeLock := None), p, Finish)
  {
    AtAt(t.(routeLock := None), p, Clearing, Finish);
    assert Unlocked(At(t, p, Clearing), p) == At(t.(routeLock := None), p, Clearing);
  }

  lemma OpenAlone(s: System, p: Pid, rules: Rules)
    requires p in s.workers && Keyed(s.workers[p].job) && s.workers[p].pc.Begin? && s.routeLock.None?
    ensures Steps(s, p, 1, rules) == At(s.(routeLock := Some(p)), p, Checking(s.tasks.Keys))
  {
    assert Steps(s, p, 0, rules) == s;
  }

  /** A task whose receipt stands in active and in done is passed over. */
  lemma LookAlone(s: System, p: Pid, t: System, rules: Rules)
    requires p in t.workers && Steps(s, p, 1, rules) == At(t, p, Checking({1})) && Keyed(t.workers[p].job)
    requires 1 in t.tasks && t.tasks[1].key == t.workers[p].job.key && CopiesOf(t, t.tasks[1].message) == {Active, Done}
    ensures Steps(s, p, 6, rules) == At(t, p, Looking({}, 1, 4, Some(Done)))
    ensures Steps(s, p, 7, rules) == At(t, p, Checking({}))
  {
    hide Steps;
    hide Do;
    ListOne(t, p, rules);
    OneMore(s, p, 1, rules);
    LookOne(t, p, 0, None, rules);
    OneMore(s, p, 2, rules);
    LookOne(t, p, 1, None, rules);
    OneMore(s, p, 3, rules);
    LookOne(t, p, 2, Some(Active), rules);
    OneMore(s, p, 4, rules);
    LookOne(t, p, 3, Some(Done), rules);
    OneMore(s, p, 5, rules);
    PassOne(t, p, rules);
    OneMore(s, p, 6, rules);
  }

  lemma ListOne(t: System, p: Pid, rules: Rules)
    requires p in t.workers && t.workers[p].job.Send? && 1 in t.tasks && t.tasks[1].key == t.workers[p].job.key
    ensures Do(At(t, p, Checking({1})), Go(p, 1), rules) == At(t, p, Looking({}, 1, 0, None))
  {
    hide CopiesOf;
    assert {1} - {1} == {};
    AtAt(t, p, Checking({1}), Looking({}, 1, 0, None));
  }

  lemma PassOne(t: System, p: Pid, rules: Rules)
    requires p in t.workers && t.workers[p].job.Send? && 1 in t.tasks
    ensures Do(At(t, p, Looking({}, 1, 4, Some(Done))), Go(p, 1), rules) == At(t, p, Checking({}))
  {
    hide CopiesOf;
    AtAt(t, p, Looking({}, 1, 4, Some(Done)), Checking({}));
  }

  lemma LookOne(t: System, p: Pid, i: nat, last: Option<Folder>, rules: Rules)
    requires p in t.workers && t.workers[p].job.Send? && 1 in t.tasks && i < 4
    ensures var f := ReceiptProtocol.FolderAt(i);
            Do(At(t, p, Looking({}, 1, i, last)), Go(p, 1), rules)
            == At(t, p, Looking({}, 1, i + 1, if f in CopiesOf(t, t.tasks[1].message) then Some(f) else last))
  {
    var f := ReceiptProtocol.FolderAt(i);
    AtAt(t, p, Looking({}, 1, i, last), Looking({}, 1, i + 1, if f in CopiesOf(t, t.tasks[1].message) then Some(f) else last));
  }

  /** A move by itself first leaves both copies on disk. */
  lemma MoveHalf(s: System, p: Pid, rules: Rules)
    requires p in s.workers && s.workers[p].job.Shift? && s.workers[p].pc.Begin? && s.workers[p].job.message !in s.locks
    requires InForce(CopiesOf(s, s.workers[p].job.message)) == Some(s.workers[p].job.from)
    ensures var job := s.workers[p].job;
            Steps(s, p, 2, rules)
            == At(s.(locks := s.locks[job.message := p],
                     copies := s.copies[job.message := CopiesOf(s, job.message) + {job.to}]), p, Between)
  {
    hide InForce;
    var job := s.workers[p].job;
    var t := s.(locks := s.locks[job.message := p]);
    assert Steps(s, p, 0, rules) == s;
    OneMore(s, p, 0, rules);
    hide Steps;
    assert Steps(s, p, 1, rules) == At(t, p, Holding);
    assert CopiesOf(At(t, p, Holding), job.message) == CopiesOf(s, job.message);
    OneMore(s, p, 1, rules);
    AtAt(t.(copies := s.copies[job.message := CopiesOf(s, job.message) + {job.to}]), p, Holding, Between);
  }

  lemma MoveWhole(s: System, p: Pid, rules: Rules)
    requires p in s.workers && s.workers[p].job.Shift? && s.workers[p].pc.Begin? && s.locks == map[]
    requires InForce(CopiesOf(s, s.workers[p].job.message)) == Some(s.workers[p].job.from)
    ensures var job := s.workers[p].job;
            Steps(s, p, 3, rules)
            == At(s.(copies := s.copies[job.message := CopiesOf(s, job.message) + {job.to} - {job.from}],
                     routeLock := if s.routeLock == Some(p) then None else s.routeLock), p, Finish)
  {
    hide InForce;
    MoveHalf(s, p, rules);
    hide Steps;
    OneMore(s, p, 2, rules);
    var job := s.workers[p].job;
    var both := s.(locks := map[job.message := p], copies := s.copies[job.message := CopiesOf(s, job.message) + {job.to}]);
    AtAt(Unlocked(both, p).(copies := both.copies[job.message := CopiesOf(both, job.message) - {job.from}]), p, Between, Finish);
    assert Unlocked(both, p).locks == map[];
    assert both.copies[job.message := CopiesOf(both, job.message) - {job.from}]
           == s.copies[job.message := CopiesOf(s, job.message) + {job.to} - {job.from}];
    assert Unlocked(At(both, p, Between), p).(copies := both.copies[job.message := CopiesOf(both, job.message) - {job.from}])
           == At(Unlocked(both, p).(copies := both.copies[job.message := CopiesOf(both, job.message) - {job.from}]), p, Between);
  }

  /** Two routes with one key, a read and a completion. */
  function Quartet(key: string, body: string, pcs: (Pc, Pc, Pc, Pc)): map<Pid, Worker> {
    map[0 := Worker(Send(Some(key), true, body), pcs.0), 1 := Worker(Shift(2, Unread, Active), pcs.1),
        2 := Worker(Shift(2, Active, Done), pcs.2), 3 := Worker(Send(Some(key), true, body), pcs.3)]
  }

  function Stage(key: string, body: string, n: nat, rules: Rules, copies: map<MessageId, set<Folder>>,
                 locks: map<MessageId, Pid>, pcs: (Pc, Pc, Pc, Pc)): System {
    var one := map[1 := TaskFile(Some(key), 2)];
    var sent := map[2 := Stored(EnvelopeOf(rules, body, Some(1)), body)];
    System(2 * n,
           if n == 0 then map[] else if n == 1 then one else one[3 := TaskFile(Some(key), 4)],
           if n == 0 then map[] else if n == 1 then sent else sent[4 := Stored(EnvelopeOf(rules, body, Some(3)), body)],
           copies, None, locks, Quartet(key, body, pcs))
  }

  /** What the second route adds. */
  lemma StageAdds(key: string, body: string, rules: Rules, copies: map<MessageId, set<Folder>>, pcs: (Pc, Pc, Pc, Pc))
    ensures var s := Stage(key, body, 1, rules, copies, map[], pcs);
            At(s.(seqno := 4, tasks := s.tasks[3 := TaskFile(Some(key), 4)],
                  messages := s.messages[4 := Stored(EnvelopeOf(rules, body, Some(3)), body)],
                  copies := copies[4 := {Unread}]), 3, Finish)
            == Stage(key, body, 2, rules, copies[4 := {Unread}], map[], (pcs.0, pcs.1, pcs.2, Finish))
  {
    hide EnvelopeOf;
  }

  /** The first route, and its task is read. */
  lemma ReadFirst(key: string, body: string, rules: Rules)
    ensures Run(Stage(key, body, 0, rules, map[], map[], (Begin, Begin, Begin, Begin)), Turns(0, 7) + Turns(1, 3), rules)
            == Stage(key, body, 1, rules, map[2 := {Active}], map[], (Finish, Finish, Begin, Begin))
  {
    hide Steps;
    hide Turns;
    hide Run;
    hide Do;
    hide EnvelopeOf;
    var s0 := Stage(key, body, 0, rules, map[], map[], (Begin, Begin, Begin, Begin));
    OpenAlone(s0, 0, rules);
    assert s0.tasks.Keys == {};
    AddAlone(s0, 0, 1, s0.(routeLock := Some(0)), rules);
    RunTurns(s0, [], 0, 7, rules);
    RunNothing(s0, rules);
    assert [] + Turns(0, 7) == Turns(0, 7);
    var s1 := Stage(key, body, 1, rules, map[2 := {Unread}], map[], (Finish, Begin, Begin, Begin));
    assert Run(s0, Turns(0, 7), rules) == s1;
    MoveWhole(s1, 1, rules);
    RunTurns(s0, Turns(0, 7), 1, 3, rules);
    assert {Unread} + {Active} - {Unread} == {Active};
    assert s1.copies[2 := {Active}] == map[2 := {Active}];
  }

  lemma RunNothing(s: System, rules: Rules)
    ensures Run(s, [], rules) == s
  {
  }

  /** The completion dies between its two writes: the receipt is left active and done. */
  lemma CompletionDies(key: string, body: string, rules: Rules)
    ensures var s := Stage(key, body, 1, rules, map[2 := {Active}], map[], (Finish, Finish, Begin, Begin));
            Do(Steps(s, 2, 2, rules), Die(2), rules)
            == Stage(key, body, 1, rules, map[2 := {Active, Done}], map[], (Finish, Finish, Gone, Begin))
  {
    hide Steps;
    hide EnvelopeOf;
    var s := Stage(key, body, 1, rules, map[2 := {Active}], map[], (Finish, Finish, Begin, Begin));
    MoveHalf(s, 2, rules);
    var half := Stage(key, body, 1, rules, map[2 := {Active, Done}], map[2 := 2], (Finish, Finish, Between, Begin));
    assert {Active} + {Done} == {Active, Done};
    assert Steps(s, 2, 2, rules) == half;
    assert Unlocked(half, 2).locks == map[];
  }

  /** A route, a read, a completion killed between its two writes, and a second route of the same
      exclusive key: it passes over the receipt that stands in done, and the copy in force of both tasks
      is live. */
  lemma TwoInForce(key: string, body: string, rules: Rules) returns (events: seq<Event>)
    requires key in rules.exclusive
    ensures var s := Stage(key, body, 0, rules, map[], map[], (Begin, Begin, Begin, Begin));
            var now := Run(s, events, rules);
            && Initial(s) && Rivals(now, rules, 1, 3)
            && now.copies == map[2 := {Active, Done}, 4 := {Unread}]
            && Live(now, now.tasks[1]) && Live(now, now.tasks[3])
  {
    hide Steps;
    hide Turns;
    hide EnvelopeOf;
    var s0 := Stage(key, body, 0, rules, map[], map[], (Begin, Begin, Begin, Begin));
    assert Initial(s0);
    ReadFirst(key, body, rules);
    CompletionDies(key, body, rules);
    var read := Turns(0, 7) + Turns(1, 3);
    RunTurns(s0, read, 2, 2, rules);
    RunOneMore(s0, read + Turns(2, 2), Die(2), rules);
    hide Run;
    hide Do;
    PassesAbandoned(key, body, rules);
    events := read + Turns(2, 2) + [Die(2)] + Turns(3, 13);
    RunTurns(s0, read + Turns(2, 2) + [Die(2)], 3, 13, rules);
  }

  /** The second route beside the abandoned completion. */
  lemma PassesAbandoned(key: string, body: string, rules: Rules)
    ensures var s := Stage(key, body, 1, rules, map[2 := {Active, Done}], map[], (Finish, Finish, Gone, Begin));
            Steps(s, 3, 13, rules)
            == Stage(key, body, 2, rules, map[2 := {Active, Done}, 4 := {Unread}], map[], (Finish, Finish, Gone, Finish))
  {
    hide Steps;
    hide EnvelopeOf;
    hide Do;
    var s := Stage(key, body, 1, rules, map[2 := {Active, Done}], map[], (Finish, Finish, Gone, Begin));
    OpenAlone(s, 3, rules);
    var open := s.(routeLock := Some(3));
    assert s.tasks.Keys == {1};
    LookAlone(s, 3, open, rules);
    AddAlone(s, 3, 7, open, rules);
    StageAdds(key, body, rules, map[2 := {Active, Done}], (Finish, Finish, Gone, Begin));
    assert s.seqno == 2 && open.copies[4 := {Unread}] == map[2 := {Active, Done}, 4 := {Unread}];
    assert open.workers[3].job == Send(Some(key), true, body);
    hide Stage;
  }

  lemma {:induction false} TurnsGo(p: Pid, n: nat)
    ensures forall e :: e in Turns(p, n) ==> e.Go?
  {
    if n > 0 { TurnsGo(p, n - 1); }
  }

  /** A completion between its two writes. */
  lemma HalfDone(key: string, body: string, rules: Rules)
    ensures Steps(Stage(key, body, 1, rules, map[2 := {Active}], map[], (Finish, Finish, Begin, Begin)), 2, 2, rules)
            == Stage(key, body, 1, rules, map[2 := {Active, Done}], map[2 := 2], (Finish, Finish, Between, Begin))
  {
    hide Steps;
    hide EnvelopeOf;
    var s := Stage(key, body, 1, rules, map[2 := {Active}], map[], (Finish, Finish, Begin, Begin));
    MoveHalf(s, 2, rules);
    assert {Active} + {Done} == {Active, Done};
  }

  /** The completion goes on while the second route holds the route lock. */
  lemma DoneRemoved(key: string, body: string, rules: Rules)
    ensures var open := Stage(key, body, 1, rules, map[2 := {Active, Done}], map[2 := 2], (Finish, Finish, Between, Checking({})));
            var clear := Stage(key, body, 1, rules, map[2 := {Done}], map[], (Finish, Finish, Finish, Checking({})));
            Do(open.(routeLock := Some(3)), Go(2, 1), rules) == clear.(routeLock := Some(3))
  {
    hide EnvelopeOf;
    var open := Stage(key, body, 1, rules, map[2 := {Active, Done}], map[2 := 2], (Finish, Finish, Between, Checking({})));
    assert {Active, Done} - {Active} == {Done};
    assert Unlocked(open.(routeLock := Some(3)), 2).locks == map[];
  }

  function Looked(): seq<Event> {
    Turns(0, 7) + Turns(1, 3) + Turns(2, 2)
  }

  /** The second route passes over the receipt while its completion is between its two writes. */
  lemma PassesOver(key: string, body: string, rules: Rules)
    ensures var s := Stage(key, body, 0, rules, map[], map[], (Begin, Begin, Begin, Begin));
            var look := Stage(key, body, 1, rules, map[2 := {Active, Done}], map[2 := 2],
                              (Finish, Finish, Between, Looking({}, 1, 4, Some(Done))));
            var open := Stage(key, body, 1, rules, map[2 := {Active, Done}], map[2 := 2], (Finish, Finish, Between, Checking({})));
            && Run(s, Looked() + Turns(3, 6), rules) == look.(routeLock := Some(3))
            && Run(s, Looked() + Turns(3, 7), rules) == open.(routeLock := Some(3))
  {
    hide Steps;
    hide EnvelopeOf;
    hide Do;
    hide Turns;
    hide Run;
    var s0 := Stage(key, body, 0, rules, map[], map[], (Begin, Begin, Begin, Begin));
    ReadFirst(key, body, rules);
    var read := Turns(0, 7) + Turns(1, 3);
    RunTurns(s0, read, 2, 2, rules);
    HalfDone(key, body, rules);
    var half := Stage(key, body, 1, rules, map[2 := {Active, Done}], map[2 := 2], (Finish, Finish, Between, Begin));
    OpenAlone(half, 3, rules);
    assert half.tasks.Keys == {1};
    LookAlone(half, 3, half.(routeLock := Some(3)), rules);
    RunTurns(s0, Looked(), 3, 6, rules);
    RunTurns(s0, Looked(), 3, 7, rules);
  }

  /** Passing over a receipt with copies on both sides does no harm by itself: where its mover goes on, the
      receipt is finished by the time the second one is delivered. */
  lemma PassedInTime(key: string, body: string, rules: Rules) returns (before: seq<Event>, events: seq<Event>)
    requires key in rules.exclusive
    ensures var s := Stage(key, body, 0, rules, map[], map[], (Begin, Begin, Begin, Begin));
            var passing, now := Run(s, before, rules), Run(s, events, rules);
            && Initial(s) && before <= events && (forall e :: e in events ==> e.Go?)
            && 3 in passing.workers && passing.workers[3].pc == Looking({}, 1, 4, Some(Done))
            && 1 in passing.tasks && Split(passing, passing.tasks[1])
            && Rivals(now, rules, 1, 3) && now.copies == map[2 := {Done}, 4 := {Unread}]
            && Live(now, now.tasks[3]) && !Live(now, now.tasks[1])
  {
    hide Steps;
    hide EnvelopeOf;
    hide Do;
    hide Turns;
    var s0 := Stage(key, body, 0, rules, map[], map[], (Begin, Begin, Begin, Begin));
    assert Initial(s0);
    hide Run;
    PassesOver(key, body, rules);
    before := Looked() + Turns(3, 6);
    RunOneMore(s0, Looked() + Turns(3, 7), Go(2, 1), rules);
    DoneRemoved(key, body, rules);
    events := Looked() + Turns(3, 7) + [Go(2, 1)] + Turns(3, 6);
    RunTurns(s0, Looked() + Turns(3, 7) + [Go(2, 1)], 3, 6, rules);
    TurnsExtend(3, 6);
    AllGo();
    LastAdds(key, body, rules);
  }

  lemma LastAdds(key: string, body: string, rules: Rules)
    ensures var clear := Stage(key, body, 1, rules, map[2 := {Done}], map[], (Finish, Finish, Finish, Checking({})));
            Steps(clear.(routeLock := Some(3)), 3, 6, rules)
            == Stage(key, body, 2, rules, map[2 := {Done}, 4 := {Unread}], map[], (Finish, Finish, Finish, Finish))
  {
    hide Steps;
    hide EnvelopeOf;
    hide Do;
    var s := Stage(key, body, 1, rules, map[2 := {Done}], map[], (Finish, Finish, Finish, Checking({})));
    var clear := s.(routeLock := Some(3));
    OneMoreNone(clear, 3, rules);
    assert clear == At(clear, 3, Checking({})) by { assert clear.workers[3 := clear.workers[3]] == clear.workers; }
    AddAlone(clear, 3, 0, clear, rules);
    StageAdds(key, body, rules, map[2 := {Done}], (Finish, Finish, Finish, Checking({})));
    assert s.seqno == 2 && clear.copies[4 := {Unread}] == map[2 := {Done}, 4 := {Unread}];
    assert clear.workers[3].job == Send(Some(key), true, body);
    hide Stage;
  }

  lemma OneMoreNone(s: System, p: Pid, rules: Rules)
    ensures Steps(s, p, 0, rules) == s
  {
  }

  lemma TurnsExtend(p: Pid, n: nat)
    ensures Turns(p, n) <= Turns(p, n + 1)
  {
  }

  lemma AllGo()
    ensures forall p, n, e :: e in Turns(p, n) ==> e.Go?
  {
    forall p, n, e | e in Turns(p, n) ensures e.Go? { TurnsGo(p, n); }
  }
}
