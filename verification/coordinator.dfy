/** The session state and what each command does to it, one command at a time and without I/O faults.
    A receipt is one value here; modules ReceiptProtocol and MailboxStore treat its copies on disk. */
module Coordinator {
  import opened Wrappers
  import opened Text
  import opened Protocol
  import opened Routing
  import Domains

  datatype ReceiptKey = ReceiptKey(agent: AgentName, message: MessageId)

  /** One directory below coordinator/runs. */
  datatype RunDir = RunDir(
    doc: CoordinatorRun, tasks: map<TaskId, ChildTask>, handoffs: map<TaskId, ReviewHandoff>,
    cases: map<TaskId, BlockerCase>, replans: map<TaskId, PartialReplan>)

  datatype State = State(
    seqno: nat, messages: map<MessageId, Message>, receipts: map<ReceiptKey, Receipt>, runs: map<RunId, RunDir>)

  const EMPTY_STATE := State(0, map[], map[], map[])

  datatype Error = Missing | Malformed | Conflict | DuplicateTask(task: TaskId) | RouteFailed(error: RouteError)

  /** A command's result together with the state it leaves, which an error may have changed too. */
  datatype Outcome<+T> = Ok(st: State, value: T) | Err(st: State, error: Error) {
    predicate IsFailure() { Err? }

    function PropagateFailure<U>(): Outcome<U>
      requires Err?
    {
      Err(st, error)
    }

    function Extract(): (State, T)
      requires Ok?
    {
      (st, value)
    }
  }

  // -------------------------------------------------------- receipts

  function UpdateReceipt(s: State, k: ReceiptKey, fn: Receipt -> Receipt): Outcome<()> {
    if k !in s.receipts then Err(s, Missing)
    else
      var r := fn(s.receipts[k]);
      if r.folder != s.receipts[k].folder || !ReceiptValid(r) then Err(s, Malformed)
      else Ok(s.(receipts := s.receipts[k := r]), ())
  }

  function MoveReceipt(s: State, k: ReceiptKey, from: Folder, to: Folder): Outcome<()> {
    if k !in s.receipts then Err(s, Missing)
    else if s.receipts[k].folder != from then Err(s, Conflict)
    else
      var r := s.receipts[k].(folder := to);
      if !ReceiptValid(r) then Err(s, Malformed) else Ok(s.(receipts := s.receipts[k := r]), ())
  }

  /** A message and its unread receipt; both names must be unused. */
  function Deliver(s: State, id: MessageId, msg: Message): Outcome<()> {
    if id in s.messages then Err(s, Conflict)
    else
      var s1 := s.(messages := s.messages[id := msg]);
      var k := ReceiptKey(msg.to, id);
      if k in s.receipts then Err(s1, Conflict)
      else Ok(s1.(receipts := s1.receipts[k := NEW_RECEIPT]), ())
  }

  function Acknowledge(now: Time): Receipt -> Receipt {
    (r: Receipt) => r.(ackedAt := Some(now), revision := r.revision + 1)
  }

  function Claim(agent: AgentName, now: Time): Receipt -> Receipt {
    (r: Receipt) =>
      if r.claimedBy.Some? && r.claimedBy.value != agent then r
      else r.(claimedBy := Some(agent), claimedAt := Some(now), revision := r.revision + 1)
  }

  function Complete(now: Time): Receipt -> Receipt {
    (r: Receipt) => r.(claimedBy := None, claimedAt := None, doneAt := Some(now), revision := r.revision + 1)
  }

  function Suspend(): Receipt -> Receipt {
    (r: Receipt) => r.(claimedBy := None, claimedAt := None, doneAt := None, revision := r.revision + 1)
  }

  function Restore(from: Receipt): Receipt -> Receipt {
    (r: Receipt) => r.(claimedBy := from.claimedBy, claimedAt := from.claimedAt, doneAt := from.doneAt,
                       revision := r.revision + 1)
  }

  function StopSession(): Receipt -> Receipt {
    (r: Receipt) => r.(claimedBy := None, claimedAt := None, lastError := Some("session_stopped"),
                       revision := r.revision + 1)
  }

  /** Reading a message moves an unread receipt to active. */
  function ReadMsg(s: State, cfg: Config, agent: string, m: MessageId, now: Time): Outcome<Message> {
    var name := Resolve(cfg, agent);
    if name.None? then Err(s, Missing)
    else
      var k := ReceiptKey(name.value, m);
      if k !in s.receipts || m !in s.messages then Err(s, Missing)
      else if s.receipts[k].folder == Unread then
        var (s1, _) :- UpdateReceipt(s, k, Acknowledge(now));
        var (s2, _) :- MoveReceipt(s1, k, Unread, Active);
        Ok(s2, s.messages[m])
      else Ok(s, s.messages[m])
  }

  datatype ActiveTask = ActiveTask(agent: AgentName, receipt: Receipt, msg: Message)

  function LoadActiveTask(s: State, cfg: Config, agent: string, m: MessageId, now: Time): Outcome<ActiveTask> {
    var name := Resolve(cfg, agent);
    if name.None? then Err(s, Missing)
    else
      var k := ReceiptKey(name.value, m);
      if k !in s.receipts then Err(s, Missing)
      else if s.receipts[k].folder != Active then Err(s, Conflict)
      else
        var (s1, msg) :- ReadMsg(s, cfg, name.value, m, now);
        Ok(s1, ActiveTask(name.value, s.receipts[k], msg))
  }

  predicate ClaimedByOther(a: ActiveTask) {
    a.msg.requiresClaim && a.receipt.claimedBy.Some? && a.receipt.claimedBy.value != a.agent
  }

  function TaskAccept(s: State, cfg: Config, agent: string, m: MessageId, now: Time): Outcome<()> {
    var name := Resolve(cfg, agent);
    if name.None? then Err(s, Missing)
    else
      var (s1, msg) :- ReadMsg(s, cfg, name.value, m, now);
      if !Claimable(msg.kind) then Err(s1, Conflict)
      else if !msg.requiresClaim then Ok(s1, ())
      else
        var k := ReceiptKey(name.value, m);
        var (s2, _) :- UpdateReceipt(s1, k, Claim(name.value, now));
        if k in s2.receipts && s2.receipts[k].claimedBy.Some? && s2.receipts[k].claimedBy.value != name.value
        then Err(s2, Conflict)
        else Ok(s2, ())
  }

  /** The loop body of the shutdown: an active receipt goes back to unread. */
  function Requeue(s: State, k: ReceiptKey): Outcome<()> {
    if k !in s.receipts || s.receipts[k].folder != Active then Err(s, Missing)
    else
      var (s1, _) :- UpdateReceipt(s, k, StopSession());
      MoveReceipt(s1, k, Active, Unread)
  }

  /** A plain message: no task travels with it. */
  function Send(s: State, cfg: Config, to: string, from: AgentName, kind: Kind, thread: Option<ThreadId>,
                replyTo: Option<MessageId>, body: string): Outcome<MessageId> {
    if Blank(to) || Blank(body) then Err(s, Malformed)
    else
      var name := Resolve(cfg, to);
      if name.None? then Err(s, Missing)
      else
        var id := s.seqno + 1;
        var s1 := s.(seqno := id);
        var msg := Message(if thread.Some? then thread.value else id, kind, from, name.value, replyTo, false, None);
        var (s2, _) :- Deliver(s1, id, msg);
        Ok(s2, id)
  }

  // ------------------------------------------------------------ runs

  function AllowedOwnersOf(agents: seq<Agent>, teammates: seq<string>): seq<AgentName> {
    if agents == [] then []
    else
      var rest := AllowedOwnersOf(agents[1..], teammates);
      if agents[0].name in teammates && agents[0].kind.Some? then [agents[0].name] + rest else rest
  }

  /** The targets a team snapshot names: the coordinator's and those of the owners. */
  predicate BaselineTargetsKnown(cfg: Config, coordinator: Agent) {
    && TargetKnown(cfg, coordinator)
    && forall i :: 0 <= i < |cfg.agents| && cfg.agents[i].name in coordinator.teammates && cfg.agents[i].kind.Some? ==>
         TargetKnown(cfg, cfg.agents[i])
  }

  function StartRun(s: State, cfg: Config, goal: string, coordinator: string, createdBy: string, now: Time)
    : Outcome<RunId>
  {
    if Blank(goal) || Blank(coordinator) || Blank(createdBy) then Err(s, Malformed)
    else
      var agent := ResolveIn(cfg.agents, coordinator);
      if agent.None? then Err(s, Missing)
      else
        var owners := AllowedOwnersOf(cfg.agents, agent.value.teammates);
        if owners == [] || !BaselineTargetsKnown(cfg, agent.value) then Err(s, Malformed)
        else
          var r, m := s.seqno + 1, s.seqno + 2;
          var s1 := s.(seqno := m);
          var doc := CoordinatorRun(r, Trim(goal), agent.value.name, Trim(createdBy), now, m, m, owners);
          if !RunValid(doc) then Err(s1, Malformed)
          else if r in s1.runs then Err(s1, Conflict)
          else
            var s2 := s1.(runs := s1.runs[r := RunDir(doc, map[], map[], map[], map[])]);
            var (s3, _) :- Deliver(s2, m, Message(m, Task, doc.createdBy, doc.coordinator, None, true, None));
            Ok(s3, r)
  }

  // ------------------------------------------------------- duplicates

  predicate ReceiptFinished(receipts: map<ReceiptKey, Receipt>, t: ChildTask) {
    ReceiptKey(t.owner, t.message) in receipts && Finished(receipts[ReceiptKey(t.owner, t.message)].folder)
  }

  ghost function MinOf(ids: set<nat>): (m: nat)
    requires ids != {}
    ensures m in ids && forall x :: x in ids ==> m <= x
  {
    var x :| x in ids;
    if ids == {x} then x
    else
      var y := MinOf(ids - {x});
      assert ids == (ids - {x}) + {x};
      if x <= y then x else y
  }

  /** Tasks under the key that are not known to be done or dead. */
  function Suspects(tasks: map<TaskId, ChildTask>, receipts: map<ReceiptKey, Receipt>, key: string): set<TaskId> {
    set t | t in tasks && tasks[t].Key() == Some(key) && !ReceiptFinished(receipts, tasks[t])
  }

  predicate AllTasksValid(tasks: map<TaskId, ChildTask>) {
    forall t :: t in tasks ==> TaskValid(tasks[t])
  }

  /** The first such task in directory order; one without a receipt makes the lookup fail. */
  ghost function FindActiveDuplicate(s: State, r: RunId, key: string): Result<Option<TaskId>, Error> {
    if Blank(key) || r !in s.runs then Success(None)
    else if !AllTasksValid(s.runs[r].tasks) then Failure(Malformed)
    else
      var suspects := Suspects(s.runs[r].tasks, s.receipts, key);
      if suspects == {} then Success(None)
      else
        var t := s.runs[r].tasks[MinOf(suspects)];
        if ReceiptKey(t.owner, t.message) !in s.receipts then Failure(Missing)
        else Success(Some(MinOf(suspects)))
  }

  // ----------------------------------------------------- adding tasks

  datatype ChildRequest = ChildRequest(
    owner: string, goal: string, expectedOutput: string, dependsOn: seq<TaskId>, reviewRequired: bool,
    route: Option<RouteInfo>)

  predicate ChildRequestValid(r: RunId, req: ChildRequest) {
    && Generated(r) && !Blank(req.owner) && !Blank(req.goal) && !Blank(req.expectedOutput)
    && (forall i :: 0 <= i < |req.dependsOn| ==> Generated(req.dependsOn[i]))
    && (req.route.Some? ==> RouteInfoValid(r, req.route.value))
  }

  /** The decision recorded with a task: the duplicate status is looked up again under the route lock. */
  ghost function RecordedRoute(s: State, cfg: Config, r: RunId, owner: AgentName, route: Option<RouteInfo>)
    : Result<Option<RouteInfo>, Error>
  {
    if route.None? then Success(None)
    else
      var duplicate :- FindActiveDuplicate(s, r, route.value.duplicateKey);
      if duplicate.Some? && route.value.taskClass !in cfg.fanout then Failure(DuplicateTask(duplicate.value))
      else
        var d := route.value.decision;
        Success(Some(route.value.(
          decision := d.(status := Trim(d.status), selectedOwner := owner,
                         duplicateStatus := DuplicateStatus(duplicate), matched := duplicate),
          duplicateKey := Trim(route.value.duplicateKey),
          overrideReason := Trim(route.value.overrideReason))))
  }

  function MessageKindOf(t: ChildTask): Kind {
    if t.Class() == Some(Review) then ReviewRequest else Task
  }

  /** Sequence numbers first, then the task file, then the message, then the receipt. */
  ghost function AddResolved(s: State, cfg: Config, r: RunId, owner: AgentName, req: ChildRequest, now: Time)
    : Outcome<ChildTask>
    requires r in s.runs
  {
    match RecordedRoute(s, cfg, r, owner, req.route)
    case Failure(e) => Err(s, e)
    case Success(route) =>
      var doc := s.runs[r].doc;
      var t, m := s.seqno + 1, s.seqno + 2;
      var s1 := s.(seqno := m);
      var task := ChildTask(t, r, owner, Trim(req.goal), Trim(req.expectedOutput), req.dependsOn,
                            req.reviewRequired, route, m, doc.rootThread, now);
      if !TaskValid(task) then Err(s1, Malformed)
      else if t in s1.runs[r].tasks then Err(s1, Conflict)
      else
        var s2 := PutTask(s1, r, Canonical(task));
        var (s3, _) :- Deliver(s2, m, Message(doc.rootThread, MessageKindOf(task), doc.coordinator, owner,
                                              Some(doc.rootMessage), true, Some(TaskRef(r, t))));
        Ok(s3, Canonical(task))
  }

  function PutTask(s: State, r: RunId, t: ChildTask): State
    requires r in s.runs
  {
    s.(runs := s.runs[r := s.runs[r].(tasks := s.runs[r].tasks[t.id := t])])
  }

  ghost function AddChildTask(s: State, cfg: Config, r: RunId, req: ChildRequest, now: Time): Outcome<ChildTask> {
    if !ChildRequestValid(r, req) then Err(s, Malformed)
    else if r !in s.runs || !RunValid(s.runs[r].doc) then Err(s, Missing)
    else
      var owner := ResolveIn(cfg.agents, req.owner);
      var coordinator := FindByName(cfg.agents, s.runs[r].doc.coordinator);
      if owner.None? || owner.value.kind.None? || coordinator.None? then Err(s, Missing)
      else if owner.value.name !in coordinator.value.teammates || owner.value.name !in s.runs[r].doc.allowedOwners
      then Err(s, Conflict)
      else if !TargetKnown(cfg, owner.value) then Err(s, Malformed)
      else AddResolved(s, cfg, r, owner.value.name, req, now)
  }

  predicate RequestValid(req: Request) {
    && Generated(req.run)
    && Domains.Normalize(req.domains).Success? && Domains.Normalize(req.domains).value != []
    && !Blank(req.goal) && !Blank(req.expectedOutput)
    && (req.ownerOverride != "" ==> !Blank(req.overrideReason))
  }

  ghost function RouteChildTask(s: State, cfg: Config, env: Environment, req: Request, now: Time): Outcome<ChildTask> {
    if !RequestValid(req) then Err(s, Malformed)
    else if req.run !in s.runs || !RunValid(s.runs[req.run].doc) then Err(s, Missing)
    else
      var domains := Domains.Normalize(req.domains).value;
      var key := KeyOf(req.run, req.taskClass, domains);
      match FindActiveDuplicate(s, req.run, key)
      case Failure(e) => Err(s, e)
      case Success(duplicate) =>
        if duplicate.Some? && req.taskClass !in cfg.fanout then Err(s, DuplicateTask(duplicate.value))
        else
          match SelectRoutedOwner(cfg, env, s.runs[req.run].doc.allowedOwners, req.(domains := domains), duplicate)
          case Failure(e) => Err(s, RouteFailed(e))
          case Success(decision) =>
            var route := RouteInfo(req.taskClass, domains, domains, key, decision, req.overrideReason);
            AddResolved(s, cfg, req.run, decision.selectedOwner,
                        ChildRequest(decision.selectedOwner, req.goal, req.expectedOutput, [],
                                     req.reviewRequired, Some(route)), now)
  }

  // --------------------------------------------------------- handoffs

  function PutHandoff(s: State, r: RunId, h: ReviewHandoff): State
    requires r in s.runs
  {
    s.(runs := s.runs[r := s.runs[r].(handoffs := s.runs[r].handoffs[h.sourceTask := h])])
  }

  function CreateHandoff(s: State, h: ReviewHandoff): Outcome<()> {
    if !HandoffValid(h) then Err(s, Malformed)
    else if h.run !in s.runs then Err(s, Missing)
    else if h.sourceTask in s.runs[h.run].handoffs then Err(s, Conflict)
    else Ok(PutHandoff(s, h.run, h), ())
  }

  /** Records a failed handoff, keeping what an existing record already knows. */
  function UpsertFailedHandoff(s: State, h: ReviewHandoff): Outcome<()> {
    if h.run in s.runs && h.sourceTask in s.runs[h.run].handoffs then
      var prior := s.runs[h.run].handoffs[h.sourceTask];
      var updated := prior.(
        reviewTask := if h.reviewTask.Some? then h.reviewTask else prior.reviewTask,
        reviewMessage := if h.reviewMessage.Some? then h.reviewMessage else prior.reviewMessage,
        reviewer := if h.reviewer != "" then h.reviewer else prior.reviewer,
        status := HandoffFailed, failureSummary := h.failureSummary);
      if !HandoffValid(updated) then Err(s, Malformed)
      else Ok(s.(runs := s.runs[h.run := s.runs[h.run].(handoffs := s.runs[h.run].handoffs[h.sourceTask := updated])]), ())
    else CreateHandoff(s, h.(status := HandoffFailed))
  }

  function FailedHandoff(ref: TaskRef, m: MessageId, summary: string, now: Time): ReviewHandoff {
    ReviewHandoff(ref.run, ref.task, m, None, None, "", HandoffFailed, summary, None, None, now, None)
  }

  predicate NeedsReview(t: ChildTask) {
    t.Class() == Some(Implementation) && t.reviewRequired
  }

  const REVIEW_GOAL := "Review implementation task: "
  const REVIEW_OUTPUT := "Submit approved or changes_requested via tmuxicate review respond"

  /** After a task is done: an implementation task that asked for review is handed to a reviewer. */
  ghost function HandoffAfterDone(s: State, cfg: Config, env: Environment, m: MessageId, now: Time): Outcome<()> {
    if m !in s.messages then Err(s, Missing)
    else if s.messages[m].meta.None? then Ok(s, ())
    else
      var ref := s.messages[m].meta.value;
      if ref.run !in s.runs || ref.task !in s.runs[ref.run].tasks
      then UpsertFailedHandoff(s, FailedHandoff(ref, m, "source task could not be loaded for review routing", now))
      else
        var source := s.runs[ref.run].tasks[ref.task];
        if !NeedsReview(source) then Ok(s, ())
        else if ref.task in s.runs[ref.run].handoffs then
          if HandoffValid(s.runs[ref.run].handoffs[ref.task]) then Ok(s, ()) else Err(s, Malformed)
        else
          var req := Request(source.parentRun, Review, source.route.value.normalizedDomains,
                             REVIEW_GOAL + source.goal, REVIEW_OUTPUT, false, "", "");
          match RouteChildTask(s, cfg, env, req, now)
          case Err(s1, _) => UpsertFailedHandoff(s1, FailedHandoff(ref, m, "route review handoff", now))
          case Ok(s1, review) =>
            var h := ReviewHandoff(ref.run, ref.task, m, Some(review.id), Some(review.message), review.owner,
                                   Pending, "", None, None, now, None);
            match CreateHandoff(s1, h)
            case Ok(s2, _) => Ok(s2, ())
            case Err(s2, _) =>
              UpsertFailedHandoff(s2, h.(status := HandoffFailed, failureSummary := "persist review handoff"))
  }

  ghost function TaskDone(s: State, cfg: Config, env: Environment, agent: string, m: MessageId, now: Time): Outcome<()> {
    var (s1, active) :- LoadActiveTask(s, cfg, agent, m, now);
    if ClaimedByOther(active) then Err(s1, Conflict)
    else
      var k := ReceiptKey(active.agent, m);
      var (s2, _) :- UpdateReceipt(s1, k, Complete(now));
      var (s3, _) :- MoveReceipt(s2, k, Active, Done);
      HandoffAfterDone(s3, cfg, env, m, now)
  }

  function HandoffsFor(rd: RunDir, t: TaskId): set<TaskId> {
    set k | k in rd.handoffs && rd.handoffs[k].reviewTask == Some(t)
  }

  ghost predicate AllHandoffsValid(rd: RunDir) {
    forall k :: k in rd.handoffs ==> HandoffValid(rd.handoffs[k])
  }

  /** The handoff a review task answers; more than one is an error. */
  ghost function FindHandoff(rd: RunDir, t: TaskId): Result<ReviewHandoff, Error> {
    if !AllHandoffsValid(rd) then Failure(Malformed)
    else if HandoffsFor(rd, t) == {} then Failure(Missing)
    else if |HandoffsFor(rd, t)| > 1 then Failure(Malformed)
    else Success(rd.handoffs[MinOf(HandoffsFor(rd, t))])
  }

  ghost function ReviewRespond(s: State, cfg: Config, agent: string, m: MessageId, outcome: ReviewOutcome,
                               body: string, now: Time): Outcome<MessageId>
  {
    if Blank(body) then Err(s, Malformed)
    else
      var (s1, active) :- LoadActiveTask(s, cfg, agent, m, now);
      if ClaimedByOther(active) then Err(s1, Conflict)
      else if active.msg.kind != ReviewRequest || active.msg.meta.None? then Err(s1, Malformed)
      else
        var ref := active.msg.meta.value;
        if ref.run !in s1.runs then Err(s1, Missing)
        else
          match FindHandoff(s1.runs[ref.run], ref.task)
          case Failure(e) => Err(s1, e)
          case Success(h) =>
            var sender := Resolve(cfg, active.agent);
            if h.status != Pending || h.reviewMessage != Some(m) || h.reviewer != active.agent then Err(s1, Conflict)
            else if sender.None? then Err(s1, Missing)
            else
              var id := s1.seqno + 1;
              var reply := Message(active.msg.thread, ReplyKind(active.msg.kind), sender.value, active.msg.from,
                                   Some(m), false, None);
              var (s2, _) :- Deliver(s1.(seqno := id), id, reply);
              var k := ReceiptKey(active.agent, m);
              var (s3, _) :- UpdateReceipt(s2, k, Complete(now));
              var (s4, _) :- MoveReceipt(s3, k, Active, Done);
              var h' := h.(responseMessage := Some(id), outcome := Some(outcome), respondedAt := Some(now),
                           status := Responded);
              if !HandoffValid(h') || ref.run !in s4.runs then Err(s4, Malformed)
              else Ok(PutHandoff(s4, ref.run, h'), id)
  }

  // --------------------------------------------------------- blockers

  function WaitPolicy(k: WaitKind): BlockerAction {
    match k
    case DependencyReply => Watch
    case ExternalEvent => Watch
  }

  function SelectAction(d: Declared, count: int, ceiling: int): BlockerAction {
    match d
    case Wait(k) => WaitPolicy(k)
    case Block(RerouteNeeded) => if count >= ceiling then Escalate else Reroute
    case Block(AgentClarification) => ClarificationRequest
    case Block(HumanDecision) => Escalate
    case Block(Unsupported) => Escalate
  }

  function Ceiling(cfg: Config, source: ChildTask): nat {
    if source.Class().Some? && source.Class().value in cfg.maxReroutesByClass
    then cfg.maxReroutesByClass[source.Class().value]
    else cfg.maxReroutesDefault
  }

  function Recommend(d: Declared, reason: string): Recommended {
    var note := Trim(reason);
    if d == Block(RerouteNeeded)
    then Recommended(ManualReroute, if note == "" then "reroute ceiling reached" else note)
    else Recommended(Clarify, if note == "" then "operator clarification required" else note)
  }

  function CasesFor(rd: RunDir, t: TaskId): set<TaskId> {
    set k | k in rd.cases && rd.cases[k].currentTask == t
  }

  ghost predicate CaseReadable(r: RunId, k: TaskId, b: BlockerCase) {
    CaseValid(b) && b.run == r && b.sourceTask == k
  }

  ghost predicate AllCasesReadable(r: RunId, rd: RunDir) {
    forall k :: k in rd.cases ==> CaseReadable(r, k, rd.cases[k])
  }

  /** The case whose current task this is, if any; more than one is an error. */
  ghost function FindCase(r: RunId, rd: RunDir, t: TaskId): Result<Option<BlockerCase>, Error> {
    if !AllCasesReadable(r, rd) then Failure(Malformed)
    else if CasesFor(rd, t) == {} then Success(None)
    else if |CasesFor(rd, t)| > 1 then Failure(Malformed)
    else Success(Some(rd.cases[MinOf(CasesFor(rd, t))]))
  }

  /** The case document before its action is taken. */
  function PrepareCase(cfg: Config, r: RunId, existing: Option<BlockerCase>, source: ChildTask, current: ChildTask,
                       agent: AgentName, m: MessageId, d: Declared, reason: string, now: Time): BlockerCase
  {
    var b := if existing.Some? then existing.value
             else BlockerCase(r, source.id, source.message, source.owner, 0, 0, "", d, "", Watch, CaseActive, 0, 0,
                              None, None, now, now, None, None, []);
    b.(currentTask := current.id, currentMessage := m, currentOwner := agent, declared := d,
       reason := Trim(reason), selected := SelectAction(d, b.rerouteCount, Ceiling(cfg, source)),
       status := CaseActive, maxReroutes := Ceiling(cfg, source), recommended := None, resolution := None,
       updatedAt := now, resolvedAt := None, escalatedAt := None)
  }

  function PutCase(s: State, r: RunId, b: BlockerCase): State
    requires r in s.runs
  {
    s.(runs := s.runs[r := s.runs[r].(cases := s.runs[r].cases[b.sourceTask := b])])
  }

  function PersistCase(s: State, b: BlockerCase, create: bool): Outcome<()> {
    if !CaseValid(b) then Err(s, Malformed)
    else if b.run !in s.runs then Err(s, Missing)
    else if create && b.sourceTask in s.runs[b.run].cases then Err(s, Conflict)
    else if !create && b.sourceTask !in s.runs[b.run].cases then Err(s, Missing)
    else Ok(PutCase(s, b.run, b), ())
  }

  /** Takes a live receipt out of the way before its task is routed again. */
  function SuspendReceipt(s: State, k: ReceiptKey): Outcome<Option<Receipt>> {
    if k !in s.receipts then Err(s, Missing)
    else if Finished(s.receipts[k].folder) then Ok(s, None)
    else
      var original := s.receipts[k];
      var (s1, _) :- UpdateReceipt(s, k, Suspend());
      var (s2, _) :- MoveReceipt(s1, k, original.folder, Dead);
      Ok(s2, Some(original))
  }

  /** Undoes the suspension. */
  function RestoreReceipt(s: State, k: ReceiptKey, original: Option<Receipt>): Outcome<()> {
    if original.None? then Ok(s, ())
    else
      var (s1, _) :- MoveReceipt(s, k, Dead, original.value.folder);
      UpdateReceipt(s1, k, Restore(original.value))
  }

  function NextOwner(candidates: seq<AgentName>, current: AgentName): AgentName {
    if candidates == [] then ""
    else if candidates[0] == "" || candidates[0] == current then NextOwner(candidates[1..], current)
    else candidates[0]
  }

  /** Suspend the current receipt, route, and restore the receipt if routing fails. */
  ghost function RouteInPlaceOf(s: State, cfg: Config, env: Environment, k: ReceiptKey, req: Request, now: Time)
    : Outcome<ChildTask>
  {
    var (s1, original) :- SuspendReceipt(s, k);
    match RouteChildTask(s1, cfg, env, req, now)
    case Ok(s2, t) => Ok(s2, t)
    case Err(s2, e) => Err(RestoreReceipt(s2, k, original).st, e)
  }

  function RouteDomains(route: RouteInfo): seq<string> {
    if route.normalizedDomains != [] then route.normalizedDomains else route.domains
  }

  /** The request a reroute sends: class, domains and goal of the source task. */
  function RerouteRequest(r: RunId, source: ChildTask, current: ChildTask, overrideOwner: string, reason: string): Request
    requires source.route.Some?
  {
    var owner := if overrideOwner != "" then overrideOwner
                 else NextOwner(source.route.value.decision.candidates, current.owner);
    var note := if Trim(reason) != "" then Trim(reason) else "reroute to another owner";
    Request(r, source.route.value.taskClass, RouteDomains(source.route.value), source.goal,
            source.expectedOutput, source.reviewRequired, owner, if owner != "" then note else "")
  }

  ghost function RerouteTask(s: State, cfg: Config, env: Environment, r: RunId, source: ChildTask, current: ChildTask,
                             overrideOwner: string, reason: string, now: Time): Outcome<ChildTask>
  {
    if source.route.None? || RouteDomains(source.route.value) == [] then Err(s, Malformed)
    else RouteInPlaceOf(s, cfg, env, ReceiptKey(current.owner, current.message),
                        RerouteRequest(r, source, current, overrideOwner, reason), now)
  }

  /** The case after its action: routed on, escalated, or left to be watched. */
  function Rerouted(b: BlockerCase, t: ChildTask, note: string, now: Time): BlockerCase {
    b.(currentTask := t.id, currentMessage := t.message, currentOwner := t.owner,
       attempts := b.attempts + [Attempt(t.id, t.message, t.owner, note, now)])
  }

  ghost function RecordBlocker(s: State, cfg: Config, env: Environment, agent: string, m: MessageId,
                               d: Declared, reason: string, now: Time): Outcome<()>
  {
    if reason == "" then Err(s, Malformed)
    else
      var (s1, active) :- LoadActiveTask(s, cfg, agent, m, now);
      if ClaimedByOther(active) then Err(s1, Conflict)
      else if active.msg.meta.None? then Ok(s1, ())
      else
        var r, t := active.msg.meta.value.run, active.msg.meta.value.task;
        if r !in s1.runs || t !in s1.runs[r].tasks then Err(s1, Missing)
        else
          match FindCase(r, s1.runs[r], t)
          case Failure(e) => Err(s1, e)
          case Success(existing) =>
            var k := if existing.Some? then existing.value.sourceTask else t;
            if k !in s1.runs[r].tasks then Err(s1, Missing)
            else ActOnBlocker(s1, cfg, env, r, existing, k, t, active.agent, m, d, reason, now)
  }

  ghost function ActOnBlocker(s: State, cfg: Config, env: Environment, r: RunId, existing: Option<BlockerCase>,
                              k: TaskId, t: TaskId, agent: AgentName, m: MessageId,
                              d: Declared, reason: string, now: Time): Outcome<()>
    requires r in s.runs && k in s.runs[r].tasks && t in s.runs[r].tasks
  {
    var source, current := s.runs[r].tasks[k], s.runs[r].tasks[t];
    var b := PrepareCase(cfg, r, existing, source, current, agent, m, d, reason, now);
    match b.selected
    case Watch => PersistCase(s, b, existing.None?)
    case ClarificationRequest => PersistCase(s, b, existing.None?)
    case Escalate =>
      PersistCase(s, b.(status := Escalated, recommended := Some(Recommend(d, reason)), escalatedAt := Some(now)),
                  existing.None?)
    case Reroute =>
      var (s1, task) :- RerouteTask(s, cfg, env, r, source, current, "", reason, now);
      PersistCase(s1, Rerouted(b, task, Trim(reason), now).(rerouteCount := b.rerouteCount + 1), existing.None?)
  }

  // -------------------------------------------------------- resolution

  datatype ResolveOpts = ResolveOpts(
    run: RunId, sourceTask: TaskId, action: ResolutionAction, owner: string, reason: string, body: string,
    taskClass: Option<TaskClass>, domains: seq<string>, goal: string, expectedOutput: string)

  predicate ResolveOptsValid(o: ResolveOpts) {
    && (o.action != Clarify ==> !Blank(o.reason))
    && (o.action == Clarify ==> !Blank(o.body))
    && (o.action == PartialReplanAction ==>
          && o.taskClass.Some? && o.taskClass.value != Review
          && o.domains != [] && Domains.Normalize(o.domains).Success?
          && !Blank(o.goal) && !Blank(o.expectedOutput))
  }

  /** The update every resolution ends with. */
  function ResolveCase(s: State, r: RunId, k: TaskId, b: BlockerCase, res: Resolution, now: Time): Outcome<()> {
    if r !in s.runs || k !in s.runs[r].cases then Err(s, Missing)
    else
      var b' := s.runs[r].cases[k].(
        status := Resolved, resolution := Some(res), resolvedAt := Some(now), updatedAt := now,
        currentTask := b.currentTask, currentMessage := b.currentMessage, currentOwner := b.currentOwner,
        attempts := b.attempts);
      if !CaseValid(b') then Err(s, Malformed) else Ok(PutCase(s, r, b'), ())
  }

  function ReplanRequest(o: ResolveOpts, source: ChildTask): Request
    requires o.taskClass.Some?
  {
    var owner := Trim(o.owner);
    Request(o.run, o.taskClass.value, o.domains, Trim(o.goal), Trim(o.expectedOutput), source.reviewRequired,
            owner, if owner != "" then Trim(o.reason) else "")
  }

  function ReplanOf(o: ResolveOpts, source: ChildTask, current: ChildTask, replacement: ChildTask, now: Time): PartialReplan {
    PartialReplan(o.run, source.id, source.message, source.id, current.id, current.message, current.owner,
                  replacement.id, replacement.message, replacement.owner, Trim(o.reason), now, now)
  }

  function CreateReplan(s: State, p: PartialReplan): Outcome<()> {
    if !ReplanValid(p) then Err(s, Malformed)
    else if p.run !in s.runs then Err(s, Missing)
    else if p.sourceTask in s.runs[p.run].replans then Err(s, Conflict)
    else Ok(s.(runs := s.runs[p.run := s.runs[p.run].(replans := s.runs[p.run].replans[p.sourceTask := p])]), ())
  }

  ghost function BlockerResolve(s: State, cfg: Config, env: Environment, o: ResolveOpts, now: Time): Outcome<()> {
    if !ResolveOptsValid(o) then Err(s, Malformed)
    else if o.run !in s.runs || o.sourceTask !in s.runs[o.run].cases then Err(s, Missing)
    else
      var b := s.runs[o.run].cases[o.sourceTask];
      var res := Resolution(o.action, None, None, Trim(o.reason), now);
      if !CaseReadable(o.run, o.sourceTask, b) then Err(s, Malformed)
      else if b.status != Escalated then Err(s, Conflict)
      else
        match o.action
        case Dismiss => ResolveCase(s, o.run, o.sourceTask, b, res, now)
        case Clarify =>
          var (s1, id) :- Send(s, cfg, b.currentOwner, "human", Decision, Some(s.runs[o.run].doc.rootThread),
                               Some(b.currentMessage), o.body);
          ResolveCase(s1, o.run, o.sourceTask, b, res.(createdMessage := Some(id)), now)
        case ManualReroute =>
          if b.sourceTask !in s.runs[o.run].tasks || b.currentTask !in s.runs[o.run].tasks then Err(s, Missing)
          else
            var source, current := s.runs[o.run].tasks[b.sourceTask], s.runs[o.run].tasks[b.currentTask];
            var (s1, t) :- RerouteTask(s, cfg, env, o.run, source, current, Trim(o.owner), Trim(o.reason), now);
            ResolveCase(s1, o.run, o.sourceTask, Rerouted(b, t, Trim(o.reason), now),
                        res.(createdTask := Some(t.id), createdMessage := Some(t.message)), now)
        case PartialReplanAction =>
          if o.sourceTask in s.runs[o.run].replans then Err(s, Conflict)
          else if b.sourceTask !in s.runs[o.run].tasks || b.currentTask !in s.runs[o.run].tasks then Err(s, Missing)
          else
            var source, current := s.runs[o.run].tasks[b.sourceTask], s.runs[o.run].tasks[b.currentTask];
            var (s1, t) :- RouteInPlaceOf(s, cfg, env, ReceiptKey(current.owner, current.message),
                                          ReplanRequest(o, source), now);
            var (s2, _) :- CreateReplan(s1, ReplanOf(o, source, current, t, now));
            ResolveCase(s2, o.run, o.sourceTask,
                        b.(currentTask := t.id, currentMessage := t.message, currentOwner := t.owner),
                        res.(createdTask := Some(t.id), createdMessage := Some(t.message)), now)
  }

  // ---------------------------------------------------------- commands

  datatype Command =
    | CmdStart(goal: string, coordinator: string, createdBy: string)
    | CmdAdd(run: RunId, req: ChildRequest)
    | CmdRoute(request: Request)
    | CmdRead(agent: string, msg: MessageId)
    | CmdAccept(agent: string, msg: MessageId)
    | CmdBlock(agent: string, msg: MessageId, declared: Declared, reason: string)
    | CmdDone(agent: string, msg: MessageId)
    | CmdRespond(agent: string, msg: MessageId, outcome: ReviewOutcome, body: string)
    | CmdResolve(opts: ResolveOpts)
    | CmdRequeue(key: ReceiptKey)
    | CmdSend(to: string, from: AgentName, kind: Kind, thread: Option<ThreadId>, replyTo: Option<MessageId>, body: string)

  /** One command with the routing environment and the time it runs at. */
  datatype Step = Step(command: Command, env: Environment, now: Time)

  datatype StepResult = StepResult(st: State, ok: bool)

  function ResultOf<T>(o: Outcome<T>): StepResult {
    StepResult(o.st, o.Ok?)
  }

  /** CmdBlock stands for both task wait and task block. */
  ghost function Execute(s: State, cfg: Config, step: Step): StepResult {
    match step.command
    case CmdStart(goal, coordinator, createdBy) => ResultOf(StartRun(s, cfg, goal, coordinator, createdBy, step.now))
    case CmdAdd(r, req) => ResultOf(AddChildTask(s, cfg, r, req, step.now))
    case CmdRoute(req) => ResultOf(RouteChildTask(s, cfg, step.env, req, step.now))
    case CmdRead(agent, m) => ResultOf(ReadMsg(s, cfg, agent, m, step.now))
    case CmdAccept(agent, m) => ResultOf(TaskAccept(s, cfg, agent, m, step.now))
    case CmdBlock(agent, m, d, reason) => ResultOf(RecordBlocker(s, cfg, step.env, agent, m, d, reason, step.now))
    case CmdDone(agent, m) => ResultOf(TaskDone(s, cfg, step.env, agent, m, step.now))
    case CmdRespond(agent, m, outcome, body) => ResultOf(ReviewRespond(s, cfg, agent, m, outcome, body, step.now))
    case CmdResolve(o) => ResultOf(BlockerResolve(s, cfg, step.env, o, step.now))
    case CmdRequeue(k) => ResultOf(Requeue(s, k))
    case CmdSend(to, from, kind, thread, replyTo, body) =>
      ResultOf(Send(s, cfg, to, from, kind, thread, replyTo, body))
  }
}
