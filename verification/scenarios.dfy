/** Command lists from the empty session that reach the states in which the code does not do what one would expect. */
module Scenarios {
  import opened Wrappers
  import opened Text
  import opened Protocol
  import opened Routing
  import opened Coordinator
  import opened Invariant
  import opened TaskSteps
  import opened CaseWrites
  import opened RerouteSteps
  import opened RerouteWrites
  import opened BlockerSteps
  import opened ResolveSteps
  import opened RerouteOutcomes
  import opened HandoffSteps
  import opened Evolution
  import opened Commands
  import opened RunGraph
  import opened Integrity
  import opened FanoutPolicy
  import opened Histories
  import opened Team
  import opened GraphLoader
  import opened RunSummary
  import opened SummaryFacts
  import Domains

  function By(command: Command): Step {
    Step(command, Quiet(), 1)
  }

  lemma Then(steps: seq<Step>, step: Step)
    ensures After(TeamConfig(), steps + [step]) == Execute(After(TeamConfig(), steps), TeamConfig(), step).st
  {
    hide Execute;
    hide TeamConfig;
    assert (steps + [step])[..|steps|] == steps;
  }

  // ------------------------------------------------------------ the run

  const START := CmdStart("goal", "lead", "lead")

  function Doc(): CoordinatorRun {
    CoordinatorRun(1, "goal", "lead", "lead", 1, 2, 2, OWNERS)
  }

  function Started(): State {
    State(2, map[2 := Message(2, Task, "lead", "lead", None, true, None)], map[ReceiptKey("lead", 2) := NEW_RECEIPT],
          map[1 := RunDir(Doc(), map[], map[], map[], map[])])
  }

  lemma Owners()
    ensures AllowedOwnersOf(TeamConfig().agents, ["ann", "rev"]) == OWNERS
  {
    var agents := TeamConfig().agents;
    assert agents[1..] == [Ann(), Rev()] && agents[1..][1..] == [Rev()] && agents[1..][1..][1..] == [];
    assert AllowedOwnersOf(agents[1..][1..][1..], ["ann", "rev"]) == [];
    assert AllowedOwnersOf(agents[1..][1..], ["ann", "rev"]) == ["rev"];
    assert AllowedOwnersOf(agents[1..], ["ann", "rev"]) == ["ann", "rev"];
  }

  lemma DocValid()
    ensures RunValid(Doc())
  {
    hide Blank;
    VisibleHead("goal");
    VisibleHead("lead");
    VisibleHead("ann");
    VisibleHead("rev");
  }

  lemma FirstDelivered()
    ensures var s := EMPTY_STATE.(seqno := 2, runs := map[1 := RunDir(Doc(), map[], map[], map[], map[])]);
            Deliver(s, 2, Message(2, Task, "lead", "lead", None, true, None)) == Ok(Started(), ())
  {
  }

  lemma StartRuns(goal: string, name: string, agent: Agent)
    requires Trim(goal) == goal && !Blank(goal) && Trim(name) == name && !Blank(name)
    requires ResolveIn(TeamConfig().agents, name) == Some(agent) && agent.name == name
    requires AllowedOwnersOf(TeamConfig().agents, agent.teammates) == OWNERS && BaselineTargetsKnown(TeamConfig(), agent)
    requires RunValid(CoordinatorRun(1, goal, name, name, 1, 2, 2, OWNERS))
    ensures var doc := CoordinatorRun(1, goal, name, name, 1, 2, 2, OWNERS);
            var s := EMPTY_STATE.(seqno := 2, runs := map[1 := RunDir(doc, map[], map[], map[], map[])]);
            var d := Deliver(s, 2, Message(2, Task, name, name, None, true, None));
            d.Ok? ==> StartRun(EMPTY_STATE, TeamConfig(), goal, name, name, 1) == Ok(d.st, 1)
  {
    hide Trim;
    hide Blank;
    hide RunValid;
    hide AllowedOwnersOf;
    hide TeamConfig;
    hide ResolveIn;
    hide BaselineTargetsKnown;
    hide Deliver;
    assert EMPTY_STATE.runs[1 := RunDir(CoordinatorRun(1, goal, name, name, 1, 2, 2, OWNERS), map[], map[], map[], map[])]
           == map[1 := RunDir(CoordinatorRun(1, goal, name, name, 1, 2, 2, OWNERS), map[], map[], map[], map[])];
  }

  lemma StartWorks()
    ensures Execute(EMPTY_STATE, TeamConfig(), By(START)) == StepResult(Started(), true)
  {
    Unspaced("goal");
    Unspaced("lead");
    LeadFound();
    Owners();
    DocValid();
    FirstDelivered();
    hide Trim;
    hide Blank;
    hide RunValid;
    hide AllowedOwnersOf;
    hide ResolveIn;
    hide BaselineTargetsKnown;
    hide Deliver;
    hide StartRun;
    StartRuns("goal", "lead", Lead());
  }

  lemma LeadFound()
    ensures ResolveIn(TeamConfig().agents, "lead") == Some(Lead()) && BaselineTargetsKnown(TeamConfig(), Lead())
  {
    NoTarget();
    hide Blank;
  }

  lemma StartedIsGoing()
    ensures Started() == After(TeamConfig(), [By(START)])
    ensures Going(Started()) && AllLoad(Started())
  {
    hide Execute;
    StartWorks();
    Then([], By(START));
    assert [] + [By(START)] == [By(START)];
    ReachableIsGood(TeamConfig(), [By(START)]);
    DocValid();
    hide RunValid;
    hide Inv;
  }

  // ------------------------------------------------------ routed and read

  function RouteFor(c: TaskClass): Command {
    CmdRoute(RequestFor(c, "goal", "output", false))
  }

  function FirstTask(c: TaskClass): ChildTask {
    TeamTask(Started(), c, "goal", "output", false, 1)
  }

  /** The run has one task, of the class, with its receipt in the folder. */
  ghost predicate SoleTask(s: State, c: TaskClass, folder: Folder) {
    && Going(s) && s.seqno == 4
    && s.runs[1].tasks == map[3 := FirstTask(c)]
    && 4 in s.messages && s.messages[4].meta == Some(TaskRef(1, 3))
    && var k := ReceiptKey(OwnerFor(c), 4);
       k in s.receipts && s.receipts[k].folder == folder && s.receipts[k].claimedBy.None?
  }

  /** And nothing else. */
  ghost predicate OneTask(s: State, c: TaskClass, folder: Folder) {
    SoleTask(s, c, folder) && s.runs[1].cases == map[] && s.runs[1].replans == map[]
  }

  lemma AddedIsOneTask(s: State, c: TaskClass, t: ChildTask)
    requires Inv(s) && Added(Started(), s, 1, t) && t == TeamTask(Started(), c, "goal", "output", false, 1)
    ensures OneTask(s, c, Unread)
  {
    hide Inv;
    hide TaskValid;
    hide Canonical;
    hide NoneLive;
    hide Trim;
    hide RouteOf;
    assert map[][3 := t] == map[3 := t];
    hide TeamTask;
  }

  lemma NothingYet(key: string)
    ensures NoneLive(Started().runs[1].tasks, Started().receipts, key)
  {
  }

  lemma FirstRoute(c: TaskClass)
    requires c == Implementation || c == Review
    ensures var o := RouteChildTask(Started(), TeamConfig(), Quiet(), RequestFor(c, "goal", "output", false), 1);
            o.Ok? && Added(Started(), o.st, 1, o.value) && o.value == TeamTask(Started(), c, "goal", "output", false, 1)
  {
    hide *;
    StartedIsGoing();
    WordsVisible();
    VisibleHead("goal");
    VisibleHead("output");
    NothingYet(KeyOf(1, c, CORE));
    RouteWorks(Started(), c, "goal", "output", false, 1);
  }

  lemma WordsVisible()
    ensures !IsSpace("goal"[0]) && !IsSpace("output"[0])
  {
  }

  lemma RouteStage(c: TaskClass)
    requires c == Implementation || c == Review
    ensures Execute(Started(), TeamConfig(), By(RouteFor(c))).ok
    ensures OneTask(After(TeamConfig(), [By(START), By(RouteFor(c))]), c, Unread)
  {
    hide RouteChildTask;
    hide After;
    hide TeamTask;
    hide Added;
    hide OneTask;
    hide NoneLive;
    hide Inv;
    hide Policy;
    hide Going;
    hide Started;
    hide TeamConfig;
    hide RequestFor;
    FirstRoute(c);
    StartedIsGoing();
    Then([By(START)], By(RouteFor(c)));
    assert [By(START)] + [By(RouteFor(c))] == [By(START), By(RouteFor(c))];
    ReachableIsGood(TeamConfig(), [By(START), By(RouteFor(c))]);
    AddedIsOneTask(After(TeamConfig(), [By(START), By(RouteFor(c))]), c,
                   RouteChildTask(Started(), TeamConfig(), Quiet(), RequestFor(c, "goal", "output", false), 1).value);
  }

  lemma OwnersResolve(c: TaskClass)
    ensures Resolve(TeamConfig(), OwnerFor(c)) == Some(OwnerFor(c))
  {
    var agents := TeamConfig().agents;
    assert agents[1..] == [Ann(), Rev()] && agents[1..][1..] == [Rev()];
  }

  /** The owner of an unread receipt reads it. */
  lemma ReadWorks(s: State, c: TaskClass, m: MessageId)
    requires Inv(s) && m in s.messages
    requires var k := ReceiptKey(OwnerFor(c), m); k in s.receipts && s.receipts[k].folder == Unread
    ensures var k := ReceiptKey(OwnerFor(c), m);
            var r := s.receipts[k];
            Execute(s, TeamConfig(), By(CmdRead(OwnerFor(c), m)))
            == StepResult(s.(receipts := s.receipts[k := r.(ackedAt := Some(1), revision := r.revision + 1, folder := Active)]), true)
  {
    OwnersResolve(c);
    hide Resolve;
    hide RunsOk;
    hide IdsOk;
    hide MetasOk;
    hide Blank;
    hide TeamConfig;
    var k := ReceiptKey(OwnerFor(c), m);
    assert ReceiptOk(k, s.receipts[k], s.messages);
    hide OwnerFor;
    var s1 := UpdateReceipt(s, k, Acknowledge(1));
    assert s1.Ok?;
    assert MoveReceipt(s1.st, k, Unread, Active).st.receipts
           == s.receipts[k := s.receipts[k].(ackedAt := Some(1), revision := s.receipts[k].revision + 1, folder := Active)];
  }

  function ReadList(c: TaskClass): seq<Step> {
    [By(START), By(RouteFor(c)), By(CmdRead(OwnerFor(c), 4))]
  }

  lemma ReadStage(c: TaskClass)
    requires c == Implementation || c == Review
    ensures OneTask(After(TeamConfig(), ReadList(c)), c, Active) && AllLoad(After(TeamConfig(), ReadList(c)))
  {
    hide Execute;
    hide After;
    hide AllLoad;
    hide Inv;
    RouteStage(c);
    StartedIsGoing();
    var s := After(TeamConfig(), [By(START), By(RouteFor(c))]);
    Then([By(START)], By(RouteFor(c)));
    assert [By(START)] + [By(RouteFor(c))] == [By(START), By(RouteFor(c))];
    StepLoadsExactly(Started(), TeamConfig(), By(RouteFor(c)));
    ReadWorks(s, c, 4);
    Then([By(START), By(RouteFor(c))], By(CmdRead(OwnerFor(c), 4)));
    assert [By(START), By(RouteFor(c))] + [By(CmdRead(OwnerFor(c), 4))] == ReadList(c);
    StepLoadsExactly(s, TeamConfig(), By(CmdRead(OwnerFor(c), 4)));
  }

  // --------------------------------------------- a dependency nobody has

  function Dangling(): ChildRequest {
    ChildRequest("ann", "goal", "output", [50], false, None)
  }

  function DanglingTask(): ChildTask {
    ChildTask(3, 1, "ann", "goal", "output", [50], false, None, 4, 2, 1)
  }

  lemma DanglingValid()
    ensures ChildRequestValid(1, Dangling()) && TaskValid(DanglingTask()) && Canonical(DanglingTask()) == DanglingTask()
    ensures Trim("goal") == "goal" && Trim("output") == "output"
  {
    Unspaced("goal");
    Unspaced("output");
    Unspaced("ann");
    hide Trim;
    hide Blank;
  }

  lemma AnnFound()
    ensures ResolveIn(TeamConfig().agents, "ann") == Some(Ann()) && FindByName(TeamConfig().agents, "lead") == Some(Lead())
    ensures TargetKnown(TeamConfig(), Ann())
  {
    NoTarget();
    hide Blank;
    var agents := TeamConfig().agents;
    assert agents[1..] == [Ann(), Rev()];
  }

  lemma DanglingAdded()
    ensures AddResolved(Started(), TeamConfig(), 1, "ann", Dangling(), 1).Ok?
  {
    DanglingValid();
    hide TaskValid;
    hide Canonical;
    hide Trim;
    assert Started().runs[1].doc.rootThread == 2;
  }

  lemma DanglingWorks()
    ensures AddChildTask(Started(), TeamConfig(), 1, Dangling(), 1).Ok?
  {
    DanglingAdded();
    DanglingValid();
    AnnFound();
    DocValid();
    hide RunValid;
    hide ChildRequestValid;
    hide AddResolved;
    hide TargetKnown;
    hide ResolveIn;
    hide FindByName;
    hide TaskValid;
    hide Trim;
  }

  /** From the empty session: a run is started, a task that depends on one that does not exist is added
      successfully, and the run no longer loads. */
  lemma MissingDependencyReached() returns (steps: seq<Step>)
    ensures |steps| == 2 && AllLoad(After(TeamConfig(), steps[..1]))
    ensures Succeeded(TeamConfig(), steps, 1) && !AllLoad(After(TeamConfig(), steps))
  {
    hide AllLoad;
    hide Inv;
    hide AddChildTask;
    hide After;
    StartedIsGoing();
    DanglingWorks();
    var add := By(CmdAdd(1, Dangling()));
    steps := [By(START), add];
    assert steps[..1] == [By(START)] && [By(START)] + [add] == steps;
    Then([By(START)], add);
    AddMissingDependencyBreaks(Started(), TeamConfig(), Quiet(), 1, Dangling(), 1, 50);
  }

  // --------------------------------------------------- routing in its place

  lemma FirstTaskFields(c: TaskClass)
    ensures var t := FirstTask(c);
            && t.id == 3 && t.message == 4 && t.owner == OwnerFor(c) && t.route == Some(RouteOf(c)) && !t.reviewRequired
            && KeyOfTask(t) == ReceiptKey(OwnerFor(c), 4)
            && t.parentRun == 1 && t.Class() == Some(c) && t.dependsOn == []
  {
    hide Trim;
  }

  lemma FirstTaskVisible(s: State, c: TaskClass, folder: Folder)
    requires SoleTask(s, c, folder)
    ensures !Blank(FirstTask(c).goal) && !Blank(FirstTask(c).expectedOutput)
  {
    hide Inv;
    hide Canonical;
    hide RouteInfoValid;
    hide Blank;
    hide FirstTask;
    TaskFacts(s, 1, 3);
  }

  lemma SuspendedGoing(s: State, c: TaskClass, key: string)
    requires SoleTask(s, c, Active)
    ensures var k := ReceiptKey(OwnerFor(c), 4);
            var s1 := SuspendedState(s, k);
            && SuspendReceipt(s, k) == Ok(s1, Some(s.receipts[k])) && Going(s1)
            && s1.runs == s.runs && s1.seqno == s.seqno && s1.messages == s.messages
            && NoneLive(s1.runs[1].tasks, s1.receipts, key)
  {
    hide FirstTask;
    hide RunsOk;
    hide IdsOk;
    hide MetasOk;
    hide ReceiptsOk;
    hide SuspendReceipt;
    hide OwnerFor;
    var k := ReceiptKey(OwnerFor(c), 4);
    SuspendIs(s, k);
    SuspendedKeepsInv(s, k);
    FirstTaskFields(c);
    assert Finished(SuspendedState(s, k).receipts[k].folder);
  }

  /** A task of either class can be routed in the place of the only one. */
  lemma InPlaceWorks(s: State, c: TaskClass, d: TaskClass, goal: string, output: string)
    requires SoleTask(s, c, Active) && (d == Implementation || d == Review) && !Blank(goal) && !Blank(output)
    ensures var k := ReceiptKey(OwnerFor(c), 4);
            var s1 := SuspendedState(s, k);
            var o := RouteInPlaceOf(s, TeamConfig(), Quiet(), k, RequestFor(d, goal, output, false), 1);
            && o.Ok? && 1 in s1.runs && Added(s1, o.st, 1, o.value) && o.value == TeamTask(s1, d, goal, output, false, 1)
  {
    var k := ReceiptKey(OwnerFor(c), 4);
    SuspendedGoing(s, c, KeyOf(1, d, CORE));
    RouteWorks(SuspendedState(s, k), d, goal, output, false, 1);
    hide Going;
    hide SoleTask;
    hide Blank;
    hide TeamTask;
    hide Added;
    hide NoneLive;
    hide KeyOf;
    hide SuspendedState;
    hide SuspendReceipt;
    hide RestoreReceipt;
    hide RouteChildTask;
    hide RequestFor;
    hide TeamConfig;
  }

  // -------------------------------------------------- a reason that is blank

  lemma RerouteIsRequest(c: TaskClass, reason: string)
    ensures var t := FirstTask(c);
            && t.route.Some? && RouteDomains(t.route.value) == CORE
            && RerouteRequest(1, t, t, "", reason) == RequestFor(c, t.goal, t.expectedOutput, false)
  {
    FirstTaskFields(c);
    hide FirstTask;
    hide Trim;
    hide KeyOf;
    assert [OwnerFor(c)][1..] == [];
    assert NextOwner([OwnerFor(c)], OwnerFor(c)) == "";
  }

  lemma RerouteWorks(s: State, c: TaskClass, reason: string)
    requires SoleTask(s, c, Active) && (c == Implementation || c == Review)
    ensures RerouteTask(s, TeamConfig(), Quiet(), 1, FirstTask(c), FirstTask(c), "", reason, 1).Ok?
  {
    RerouteIsRequest(c, reason);
    FirstTaskFields(c);
    FirstTaskVisible(s, c, Active);
    hide FirstTask;
    hide SoleTask;
    hide Blank;
    hide RouteInPlaceOf;
    hide RerouteRequest;
    hide RequestFor;
    hide TeamConfig;
    hide RouteDomains;
    InPlaceWorks(s, c, c, FirstTask(c).goal, FirstTask(c).expectedOutput);
  }

  lemma BlankSpace()
    ensures Blank(" ") && " " != ""
  {
    assert TrimLeft(" ") == TrimLeft("") by { assert " "[1..] == ""; }
  }

  /** The owner of the active task may wait or block on it, and the case that holds it is its own. */
  lemma FirstTaskActs(s: State, c: TaskClass, d: Declared, reason: string)
    requires OneTask(s, c, Active) && reason != ""
    ensures Carries(s, 4, 1, 3) && Holds(s.runs[1], 3, 3)
    ensures RecordBlocker(s, TeamConfig(), Quiet(), OwnerFor(c), 4, d, reason, 1)
            == ActOnBlocker(s, TeamConfig(), Quiet(), 1, None, 3, 3, OwnerFor(c), 4, d, reason, 1)
  {
    FirstTaskFields(c);
    OwnersResolve(c);
    hide FirstTask;
    hide Inv;
    hide Resolve;
    hide TeamConfig;
    hide LoadActiveTask;
    hide RecordBlocker;
    hide ActOnBlocker;
    OwnerLoadsActive(s, TeamConfig(), OwnerFor(c), 4, 1, 1, 3);
    var k := BlockActs(s, TeamConfig(), Quiet(), OwnerFor(c), 4, d, reason, 1, 1, 3);
  }

  /** From the empty session: a task is routed and read, and its owner blocks on it with a reason that is a
      space. The command fails, but the task has moved on: its receipt is dead, a new task is on disk, and
      no case knows of either. */
  lemma BlankReasonReached() returns (steps: seq<Step>)
    ensures |steps| == 4 && !Succeeded(TeamConfig(), steps, 3)
    ensures var before, after := After(TeamConfig(), steps[..3]), After(TeamConfig(), steps);
            && 1 in before.runs && 3 in before.runs[1].tasks && before.runs[1].tasks.Keys == {3}
            && !ReceiptFinished(before.receipts, before.runs[1].tasks[3])
            && 1 in after.runs && |after.runs[1].tasks| == 2 && after.runs[1].cases == map[]
            && ReceiptFinished(after.receipts, before.runs[1].tasks[3])
  {
    hide OneTask;
    hide FirstTask;
    hide After;
    hide Execute;
    hide Inv;
    hide AllLoad;
    hide ReceiptFinished;
    var block := By(CmdBlock("ann", 4, Block(RerouteNeeded), " "));
    steps := ReadList(Implementation) + [block];
    assert steps[..3] == ReadList(Implementation);
    Then(ReadList(Implementation), block);
    ReadStage(Implementation);
    var s := After(TeamConfig(), ReadList(Implementation));
    BlankActs(s);
  }

  lemma BlankActs(s: State)
    requires OneTask(s, Implementation, Active)
    ensures var result := Execute(s, TeamConfig(), By(CmdBlock("ann", 4, Block(RerouteNeeded), " ")));
            && 1 in s.runs && 3 in s.runs[1].tasks && s.runs[1].tasks.Keys == {3}
            && !ReceiptFinished(s.receipts, s.runs[1].tasks[3])
            && !result.ok && 1 in result.st.runs && |result.st.runs[1].tasks| == 2 && result.st.runs[1].cases == map[]
            && ReceiptFinished(result.st.receipts, s.runs[1].tasks[3])
  {
    hide FirstTask;
    hide Inv;
    hide Blank;
    hide RecordBlocker;
    hide ActOnBlocker;
    hide RerouteTask;
    hide Holds;
    hide TeamConfig;
    hide Budget;
    BlankSpace();
    FirstTaskFields(Implementation);
    FirstTaskActs(s, Implementation, Block(RerouteNeeded), " ");
    RerouteWorks(s, Implementation, " ");
    OneReroute(s, Implementation);
    BlankReasonLosesReroute(s, TeamConfig(), Quiet(), 1, 3, 3, " ", 1);
    assert |s.runs[1].tasks| == 1;
  }

  lemma OneReroute(s: State, c: TaskClass)
    requires OneTask(s, c, Active)
    ensures Budget(TeamConfig(), s.runs[1], 3) == 1
  {
    hide Inv;
    hide FirstTask;
  }

  // ----------------------------------------------- escalated and replanned

  function EscalateBy(c: TaskClass): Command {
    CmdBlock(OwnerFor(c), 4, Block(HumanDecision), "stuck")
  }

  /** The case of the only task waits for the operator. */
  ghost predicate EscalatedCase(s: State, c: TaskClass) {
    && SoleTask(s, c, Active) && s.runs[1].replans == map[]
    && s.runs[1].cases.Keys == {3} && s.runs[1].cases[3].status == Escalated
    && s.runs[1].cases[3].sourceTask == 3 && s.runs[1].cases[3].currentTask == 3
  }

  lemma StuckVisible()
    ensures !Blank("stuck") && Trim("stuck") == "stuck"
  {
    Unspaced("stuck");
  }

  lemma EscalateActs(s: State, c: TaskClass)
    requires OneTask(s, c, Active)
    ensures var o := ActOnBlocker(s, TeamConfig(), Quiet(), 1, None, 3, 3, OwnerFor(c), 4, Block(HumanDecision), "stuck", 1);
            && o.Ok? && 1 in s.runs && 1 in o.st.runs && o.st == s.(runs := s.runs[1 := o.st.runs[1]])
            && 3 in o.st.runs[1].cases && o.st.runs[1] == s.runs[1].(cases := map[3 := o.st.runs[1].cases[3]])
            && o.st.runs[1].cases[3].status == Escalated
            && o.st.runs[1].cases[3].sourceTask == 3 && o.st.runs[1].cases[3].currentTask == 3
  {
    hide FirstTask;
    hide Inv;
    hide Blank;
    hide RerouteTask;
    hide Holds;
    hide Trim;
    hide CaseValid;
    hide Recommend;
    hide TeamConfig;
    hide Ceiling;
    hide RecordBlocker;
    StuckVisible();
    FirstTaskFields(c);
    FirstTaskActs(s, c, Block(HumanDecision), "stuck");
    ActSucceedsExactly(s, TeamConfig(), Quiet(), 1, 3, 3, Block(HumanDecision), "stuck", 1);
  }

  lemma EscalateWorks(s: State, c: TaskClass)
    requires OneTask(s, c, Active)
    ensures var result := Execute(s, TeamConfig(), By(EscalateBy(c)));
            result.ok && EscalatedCase(result.st, c)
  {
    hide Inv;
    hide FirstTask;
    hide TeamConfig;
    hide ActOnBlocker;
    hide RecordBlocker;
    hide Policy;
    hide Effect;
    hide Evolves;
    hide Holds;
    hide Carries;
    FirstTaskActs(s, c, Block(HumanDecision), "stuck");
    EscalateActs(s, c);
    StepKeeps(s, TeamConfig(), By(EscalateBy(c)));
  }

  function ReplanOpts(): ResolveOpts {
    ResolveOpts(1, 3, PartialReplanAction, "", "stuck", "", Some(Implementation), CORE, "goal", "output")
  }

  lemma OptsValid()
    ensures ResolveOptsValid(ReplanOpts())
    ensures forall t: ChildTask :: !t.reviewRequired ==> ReplanRequest(ReplanOpts(), t) == RequestFor(Implementation, "goal", "output", false)
    ensures !Blank("goal") && !Blank("output")
  {
    StuckVisible();
    Unspaced("goal");
    Unspaced("output");
    EmptyTrimmed();
    CoreIsNormal();
    hide Trim;
    hide Blank;
    hide Domains.Normalize;
  }

  /** The task of class c has been replaced by an implementation task that is still unread. */
  ghost predicate Replaced(s: State, c: TaskClass, folder: Folder) {
    && Inv(s) && 1 in s.runs
    && 3 in s.runs[1].tasks && s.runs[1].tasks[3].Class() == Some(c)
    && 5 in s.runs[1].tasks && s.runs[1].tasks[5].owner == "ann" && s.runs[1].tasks[5].message == 6
    && s.runs[1].tasks[5].Class() == Some(Implementation)
    && 3 in s.runs[1].cases && s.runs[1].cases[3].currentTask == 5 && 3 in s.runs[1].replans
    && 6 in s.messages && s.messages[6].meta == Some(TaskRef(1, 5))
    && var k := ReceiptKey("ann", 6);
       k in s.receipts && s.receipts[k].folder == folder && s.receipts[k].claimedBy.None?
  }

  lemma ReplanIsValid(t: ChildTask, u: ChildTask)
    requires TaskValid(t) && TaskValid(u) && t.id == 3 && t.message == 4 && u.id == 5 && u.message == 6
    ensures ReplanValid(ReplanOf(ReplanOpts(), t, t, u, 1))
  {
    StuckVisible();
    hide Trim;
    hide Blank;
    hide RouteInfoValid;
  }

  function Key(c: TaskClass): ReceiptKey {
    ReceiptKey(OwnerFor(c), 4)
  }

  /** The replacement as it is routed. */
  function SecondTask(s: State, c: TaskClass): ChildTask
    requires 1 in s.runs
  {
    TeamTask(s, Implementation, "goal", "output", false, 1)
  }

  lemma SecondFields(s: State, c: TaskClass)
    requires SoleTask(s, c, Active)
    ensures var t := SecondTask(SuspendedState(s, Key(c)), c);
            && t.id == 5 && t.message == 6 && t.owner == "ann" && t.Class() == Some(Implementation) && t.dependsOn == []
            && t.parentRun == 1
  {
    SuspendedGoing(s, c, "");
    hide Trim;
    hide SuspendedState;
    hide Inv;
    hide FirstTask;
  }

  /** The replacement is routed and both documents are written. */
  lemma ReplanSteps(s: State, c: TaskClass)
    requires EscalatedCase(s, c)
    ensures var k := Key(c);
            var s1 := RouteInPlaceOf(s, TeamConfig(), Quiet(), k, RequestFor(Implementation, "goal", "output", false), 1);
            && s1.Ok? && 1 in s1.st.runs && s1.value.id == 5 && s1.value.message == 6 && s1.value.owner == "ann"
            && s1.value.Class() == Some(Implementation) && TaskValid(s1.value)
            && Added(SuspendedState(s, k), s1.st, 1, s1.value) && TasksOnly(s, s1.st, 1)
            && CreateReplan(s1.st, ReplanOf(ReplanOpts(), FirstTask(c), FirstTask(c), s1.value, 1)).Ok?
  {
    hide FirstTask;
    hide Inv;
    hide Trim;
    hide TeamTask;
    hide RouteInPlaceOf;
    hide RequestFor;
    hide TeamConfig;
    hide ReplanOf;
    hide ReplanValid;
    hide Added;
    hide TaskValid;
    hide SuspendedState;
    hide ReceiptFinished;
    OptsValid();
    hide Blank;
    InPlaceWorks(s, c, Implementation, "goal", "output");
    SecondFields(s, c);
    FirstTaskFields(c);
    var k := Key(c);
    var o := RouteInPlaceOf(s, TeamConfig(), Quiet(), k, RequestFor(Implementation, "goal", "output", false), 1);
    AddedValid(SuspendedState(s, k), o.st, 1, o.value);
    assert TaskValid(FirstTask(c)) by { TaskFacts(s, 1, 3); }
    ReplanIsValid(FirstTask(c), o.value);
    AddedTasksOnly(s, o.st, k, 1, o.value);
    ReplanFields(1, ReplanOf(ReplanOpts(), FirstTask(c), FirstTask(c), o.value, 1), FirstTask(c), FirstTask(c), o.value, ReplanOpts(), 1);
    hide Grows;
    hide NoDeps;
    assert o.st.runs[1].replans == map[];
  }

  /** A partial replan whose route and record succeed ends in the update of its case. */
  lemma ResolveIsReplan(s: State, o: ResolveOpts, t: ChildTask, s1: State)
    requires ResolveOptsValid(o) && o.action == PartialReplanAction && o.run in s.runs && o.sourceTask in s.runs[o.run].cases
    requires var rd, b := s.runs[o.run], s.runs[o.run].cases[o.sourceTask];
             && CaseReadable(o.run, o.sourceTask, b) && b.status == Escalated && o.sourceTask !in rd.replans
             && b.sourceTask in rd.tasks && b.currentTask in rd.tasks
             && RouteInPlaceOf(s, TeamConfig(), Quiet(), KeyOfTask(rd.tasks[b.currentTask]),
                               ReplanRequest(o, rd.tasks[b.sourceTask]), 1) == Ok(s1, t)
             && CreateReplan(s1, ReplanOf(o, rd.tasks[b.sourceTask], rd.tasks[b.currentTask], t, 1)).Ok?
    ensures var rd, b := s.runs[o.run], s.runs[o.run].cases[o.sourceTask];
            BlockerResolve(s, TeamConfig(), Quiet(), o, 1)
            == ResolveCase(CreateReplan(s1, ReplanOf(o, rd.tasks[b.sourceTask], rd.tasks[b.currentTask], t, 1)).st,
                           o.run, o.sourceTask,
                           b.(currentTask := t.id, currentMessage := t.message, currentOwner := t.owner),
                           Resolution(o.action, Some(t.id), Some(t.message), Trim(o.reason), 1), 1)
  {
    hide Trim;
    hide RouteInPlaceOf;
    hide ReplanRequest;
    hide TeamConfig;
    hide ReplanOf;
    hide CreateReplan;
    hide ResolveCase;
    hide ResolveOptsValid;
    hide CaseReadable;
  }

  lemma ReplanDone(s: State, c: TaskClass)
    requires EscalatedCase(s, c)
    ensures var o := BlockerResolve(s, TeamConfig(), Quiet(), ReplanOpts(), 1);
            o.Ok? && Replaced(o.st, c, Unread)
  {
    hide FirstTask;
    hide Inv;
    hide Trim;
    hide Blank;
    hide RouteInPlaceOf;
    hide RequestFor;
    hide ReplanRequest;
    hide TeamConfig;
    hide ReplanOf;
    hide CreateReplan;
    hide ResolveCase;
    hide ResolveOptsValid;
    hide CaseReadable;
    hide TaskValid;
    hide TasksOnly;
    hide Added;
    hide SuspendedState;
    hide BothWritten;
    hide Replaced;
    hide BlockerResolve;
    hide Evolves;
    hide NoNewDeps;
    hide CaseStep;
    hide ReplanMade;
    hide ResolvedDoc;
    var routed := RouteInPlaceOf(s, TeamConfig(), Quiet(), Key(c), RequestFor(Implementation, "goal", "output", false), 1);
    ReplanSteps(s, c);
    FirstTaskFields(c);
    OptsValid();
    StuckVisible();
    CaseNamesSource(s, 1, 3);
    var t := routed.value;
    var res := Resolution(PartialReplanAction, Some(t.id), Some(t.message), "stuck", 1);
    ResolveIsReplan(s, ReplanOpts(), t, routed.st);
    ReplanKeepsInv(s, routed.st, TeamConfig(), ReplanOpts(), t, res, 1);
    ReplacedIs(s, c, routed.st, t, res);
  }

  lemma ReplacedIs(s: State, c: TaskClass, s1: State, t: ChildTask, res: Resolution)
    requires EscalatedCase(s, c) && 1 in s1.runs && Added(SuspendedState(s, Key(c)), s1, 1, t) && TasksOnly(s, s1, 1)
    requires t.id == 5 && t.message == 6 && t.owner == "ann" && t.Class() == Some(Implementation)
    requires var b := s.runs[1].cases[3];
             var b1 := b.(currentTask := t.id, currentMessage := t.message, currentOwner := t.owner);
             Inv(BothWritten(s1, 1, ResolvedDoc(b, b1, res, 1), ReplanOf(ReplanOpts(), FirstTask(c), FirstTask(c), t, 1)))
    ensures var b := s.runs[1].cases[3];
            var b1 := b.(currentTask := t.id, currentMessage := t.message, currentOwner := t.owner);
            Replaced(BothWritten(s1, 1, ResolvedDoc(b, b1, res, 1), ReplanOf(ReplanOpts(), FirstTask(c), FirstTask(c), t, 1)), c, Unread)
  {
    FirstTaskFields(c);
    hide FirstTask;
    hide Inv;
    hide TaskValid;
    hide Canonical;
    hide NoneLive;
    hide ReplanOf;
    hide Grows;
    hide NoDeps;
    hide Trim;
  }

  function ReplanList(c: TaskClass): seq<Step> {
    ReadList(c) + [By(EscalateBy(c))] + [By(CmdResolve(ReplanOpts()))]
  }

  /** From the empty session: a task is routed, read, blocked on, and replanned. */
  lemma ReplanStage(c: TaskClass)
    requires c == Implementation || c == Review
    ensures Replaced(After(TeamConfig(), ReplanList(c)), c, Unread) && AllLoad(After(TeamConfig(), ReplanList(c)))
  {
    hide After;
    hide AllLoad;
    hide Inv;
    hide FirstTask;
    hide TeamConfig;
    hide RecordBlocker;
    hide BlockerResolve;
    hide Replaced;
    hide ReadList;
    hide Going;
    hide ReplanOpts;
    ReadStage(c);
    var s := After(TeamConfig(), ReadList(c));
    EscalateWorks(s, c);
    Then(ReadList(c), By(EscalateBy(c)));
    assert Inv(s) by { ReachableIsGood(TeamConfig(), ReadList(c)); }
    StepLoadsExactly(s, TeamConfig(), By(EscalateBy(c)));
    var s1 := After(TeamConfig(), ReadList(c) + [By(EscalateBy(c))]);
    ReplanDone(s1, c);
    Then(ReadList(c) + [By(EscalateBy(c))], By(CmdResolve(ReplanOpts())));
    assert Inv(s1) by { ReachableIsGood(TeamConfig(), ReadList(c) + [By(EscalateBy(c))]); }
    StepLoadsExactly(s1, TeamConfig(), By(CmdResolve(ReplanOpts())));
  }

  /** From the empty session: a review task is replanned. Its replacement is live and is not a review, the
      run loads, and no row of the summary shows it. */
  lemma HiddenReached() returns (steps: seq<Step>)
    ensures var s := After(TeamConfig(), steps);
            && AllLoad(s) && 1 in s.runs && 5 in s.runs[1].tasks
            && !ReceiptFinished(s.receipts, s.runs[1].tasks[5]) && s.runs[1].tasks[5].Class() == Some(Implementation)
            && HiddenByReview(s.runs[1], 5)
            && (forall g: Graph :: IsGraphOf(g, s.runs[1], s.receipts) ==>
                  NodesFor(g.nodes, g.order) && forall i :: 0 <= i < |SummaryRows(g)| ==> SummaryRows(g)[i].currentTask != 5)
  {
    hide After;
    hide AllLoad;
    hide Inv;
    hide IsGraphOf;
    hide SummaryRows;
    steps := ReplanList(Review);
    ReplanStage(Review);
    var s := After(TeamConfig(), steps);
    forall g: Graph | IsGraphOf(g, s.runs[1], s.receipts)
      ensures NodesFor(g.nodes, g.order) && forall i :: 0 <= i < |SummaryRows(g)| ==> SummaryRows(g)[i].currentTask != 5
    {
      LiveShownExactly(s, 1, g, 5);
    }
  }

  lemma SecondRead(s: State, c: TaskClass)
    requires Replaced(s, c, Unread)
    ensures var result := Execute(s, TeamConfig(), By(CmdRead("ann", 6)));
            result.ok && (Inv(result.st) ==> Replaced(result.st, c, Active))
  {
    hide Inv;
    hide TeamConfig;
    ReadWorks(s, Implementation, 6);
    hide Execute;
  }

  lemma SecondWaitBreaks(s: State, c: TaskClass)
    requires Replaced(s, c, Active) && AllLoad(s)
    ensures var result := Execute(s, TeamConfig(), By(CmdBlock("ann", 6, Wait(ExternalEvent), "later")));
            result.ok && !AllLoad(result.st)
  {
    hide Inv;
    hide AllLoad;
    hide Resolve;
    hide Execute;
    hide TeamConfig;
    OwnersResolve(Implementation);
    Unspaced("later");
    hide Blank;
    WaitOnReplacementBreaks(s, TeamConfig(), Quiet(), "ann", 6, ExternalEvent, "later", 1, 1, 5, 3);
  }

  /** From the empty session: a task is replanned, its replacement is read, and its owner waits on it. All
      runs load until the wait, which succeeds, and from then on the run does not load. */
  lemma WaitReached() returns (steps: seq<Step>)
    ensures |steps| == 7 && AllLoad(After(TeamConfig(), steps[..6]))
    ensures Succeeded(TeamConfig(), steps, 6) && !AllLoad(After(TeamConfig(), steps))
  {
    hide After;
    hide AllLoad;
    hide Inv;
    hide Replaced;
    hide Execute;
    hide TeamConfig;
    var replanned := ReplanList(Implementation);
    assert |replanned| == 5;
    ReplanStage(Implementation);
    hide ReplanList;
    var s := After(TeamConfig(), replanned);
    var read, wait := By(CmdRead("ann", 6)), By(CmdBlock("ann", 6, Wait(ExternalEvent), "later"));
    assert Inv(s) by { ReachableIsGood(TeamConfig(), replanned); }
    SecondRead(s, Implementation);
    Then(replanned, read);
    StepLoadsExactly(s, TeamConfig(), read);
    ReachableIsGood(TeamConfig(), replanned + [read]);
    SecondWaitBreaks(After(TeamConfig(), replanned + [read]), Implementation);
    Then(replanned + [read], wait);
    steps := replanned + [read] + [wait];
    assert steps[..6] == replanned + [read];
  }
}
