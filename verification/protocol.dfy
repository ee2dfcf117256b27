/** The records of the coordination protocol and the checks each one passes before it is stored. */
module Protocol {
  import opened Wrappers
  import opened Text
  import Ids
  import Domains

  type AgentName = string
  /** Identifiers are the sequence numbers they are formatted from (module Ids). */
  type RunId = nat
  type TaskId = nat
  type MessageId = nat
  type ThreadId = nat
  /** An opaque time stamp; zero is the absent time. */
  type Time = t: nat | 0 < t witness 1

  predicate Generated(id: nat) {
    id < Ids.ID_LIMIT
  }

  datatype TaskClass = Implementation | Research | Review

  function ClassName(c: TaskClass): string {
    match c
    case Implementation => "implementation"
    case Research => "research"
    case Review => "review"
  }

  // ---------------------------------------------------------- mailbox

  datatype Folder = Unread | Active | Done | Dead

  predicate Finished(f: Folder) {
    f == Done || f == Dead
  }

  datatype Kind =
    | Task | Question | ReviewRequest | ReviewResponse
    | Decision | StatusRequest | StatusResponse | Note

  function ReplyKind(parent: Kind): Kind {
    match parent
    case ReviewRequest => ReviewResponse
    case StatusRequest => StatusResponse
    case _ => Note
  }

  predicate Claimable(k: Kind) {
    k == Task || k == Question || k == ReviewRequest || k == StatusRequest
  }

  /** The parent_run_id and task_id a task message carries. */
  datatype TaskRef = TaskRef(run: RunId, task: TaskId)

  datatype Message = Message(
    thread: ThreadId, kind: Kind, from: AgentName, to: AgentName,
    replyTo: Option<MessageId>, requiresClaim: bool, meta: Option<TaskRef>)

  datatype Receipt = Receipt(
    folder: Folder, revision: nat, ackedAt: Option<Time>, claimedBy: Option<AgentName>,
    claimedAt: Option<Time>, doneAt: Option<Time>, lastError: Option<string>)

  predicate ReceiptValid(r: Receipt) {
    && r.claimedBy != Some("")
    && (r.lastError.Some? ==> !Blank(r.lastError.value))
    && (r.folder == Unread ==> r.doneAt.None?)
    && (r.folder == Done ==> r.doneAt.Some?)
  }

  const NEW_RECEIPT := Receipt(Unread, 0, None, None, None, None, None)

  // ------------------------------------------------------------- runs

  datatype CoordinatorRun = CoordinatorRun(
    id: RunId, goal: string, coordinator: AgentName, createdBy: AgentName, createdAt: Time,
    rootMessage: MessageId, rootThread: ThreadId, allowedOwners: seq<AgentName>)

  predicate RunValid(r: CoordinatorRun) {
    && Generated(r.id) && !Blank(r.goal) && !Blank(r.coordinator) && !Blank(r.createdBy)
    && r.allowedOwners != []
    && forall i :: 0 <= i < |r.allowedOwners| ==> !Blank(r.allowedOwners[i])
  }

  // ---------------------------------------------------------- routing

  datatype Evidence = Evidence(
    run: RunId, sourceTask: TaskId, message: MessageId, status: string, note: string)

  predicate EvidenceValid(e: Evidence) {
    Generated(e.run) && Generated(e.sourceTask) && !Blank(e.status) && !Blank(e.note)
  }

  function StatusRank(status: string): int {
    if status == "completed" then 1
    else if status == "approved" then 2
    else if status == "changes_requested" then 3
    else if status == "blocked" then 4
    else if status == "waiting" then 5
    else if status == "escalated" then 6
    else 99
  }

  /** Evidence order: run, source task, message, status rank, note. */
  predicate EvidenceLess(a: Evidence, b: Evidence) {
    if a.run != b.run then a.run < b.run
    else if a.sourceTask != b.sourceTask then a.sourceTask < b.sourceTask
    else if a.message != b.message then a.message < b.message
    else if StatusRank(a.status) != StatusRank(b.status) then StatusRank(a.status) < StatusRank(b.status)
    else Less(a.note, b.note)
  }

  predicate EvidenceSorted(s: seq<Evidence>) {
    forall i :: 0 < i < |s| ==> !EvidenceLess(s[i], s[i - 1])
  }

  predicate EvidenceListValid(s: seq<Evidence>) {
    EvidenceSorted(s) && forall i :: 0 <= i < |s| ==> EvidenceValid(s[i])
  }

  datatype Preference = Preference(
    key: string, taskClass: TaskClass, domains: seq<string>, owner: AgentName,
    historical: int, manual: int, total: int, evidence: seq<Evidence>)

  predicate PreferenceValid(p: Preference) {
    && Domains.Normalize(p.domains) == Success(p.domains) && p.domains != []
    && !Blank(p.owner)
    && p.manual >= 0 && p.total == p.historical + p.manual
    && p.key == Domains.PreferenceKey(ClassName(p.taskClass), p.domains, p.owner)
    && (p.historical != 0 ==> p.evidence != [])
    && EvidenceListValid(p.evidence)
  }

  predicate PreferencesValid(ps: seq<Preference>) {
    forall i :: 0 <= i < |ps| ==> PreferenceValid(ps[i])
  }

  datatype Adaptive = Adaptive(
    applied: bool, baseline: AgentName, preferred: AgentName,
    historical: int, manual: int, total: int, reason: string, evidence: seq<Evidence>)

  predicate AdaptiveValid(a: Adaptive) {
    && a.manual >= 0 && a.total == a.historical + a.manual
    && (a.applied ==> !Blank(a.baseline) && !Blank(a.reason))
    && EvidenceListValid(a.evidence)
  }

  datatype Exclusion = Exclusion(owner: AgentName, target: string, status: string, reason: string)

  predicate ExclusionValid(e: Exclusion) {
    !Blank(e.owner) && !Blank(e.target) && !Blank(e.status) && !Blank(e.reason)
  }

  datatype RoutingDecision = RoutingDecision(
    status: string, selectedOwner: AgentName, candidates: seq<AgentName>, tieBreak: string,
    duplicateStatus: string, matched: Option<TaskId>, suggestions: seq<string>,
    excluded: seq<Exclusion>, adaptive: Option<Adaptive>)

  const OWNER_OVERRIDE := "owner_override"

  predicate DecisionValid(d: RoutingDecision) {
    && !Blank(d.status) && !Blank(d.selectedOwner) && !Blank(d.tieBreak) && d.candidates != []
    && !Blank(d.duplicateStatus)
    && (d.matched.Some? ==> Generated(d.matched.value))
    && (forall i :: 0 <= i < |d.suggestions| ==> !Blank(d.suggestions[i]))
    && (forall i :: 0 <= i < |d.excluded| ==> ExclusionValid(d.excluded[i]))
    && (d.adaptive.Some? ==> AdaptiveValid(d.adaptive.value))
  }

  // ------------------------------------------------------------ tasks

  datatype RouteInfo = RouteInfo(
    taskClass: TaskClass, domains: seq<string>, normalizedDomains: seq<string>,
    duplicateKey: string, decision: RoutingDecision, overrideReason: string)

  function KeyOf(run: RunId, taskClass: TaskClass, domains: seq<string>): string {
    Domains.DuplicateKey(Ids.NewId(Ids.RUN_PREFIX, run), ClassName(taskClass), domains)
  }

  predicate RouteInfoValid(run: RunId, r: RouteInfo) {
    && Domains.Normalize(r.domains).Success?
    && Domains.Normalize(r.domains).value != []
    && Domains.Normalize(r.normalizedDomains) == Domains.Normalize(r.domains)
    && r.duplicateKey == KeyOf(run, r.taskClass, Domains.Normalize(r.domains).value)
    && DecisionValid(r.decision)
    && (r.decision.tieBreak == OWNER_OVERRIDE ==> !Blank(r.overrideReason))
  }

  datatype ChildTask = ChildTask(
    id: TaskId, parentRun: RunId, owner: AgentName, goal: string, expectedOutput: string,
    dependsOn: seq<TaskId>, reviewRequired: bool, route: Option<RouteInfo>,
    message: MessageId, thread: ThreadId, createdAt: Time)
  {
    function Class(): Option<TaskClass> {
      if route.Some? then Some(route.value.taskClass) else None
    }

    /** The key an active duplicate is looked up by; a task added without metadata has none. */
    function Key(): Option<string> {
      if route.Some? then Some(route.value.duplicateKey) else None
    }
  }

  predicate TaskValid(t: ChildTask) {
    && Generated(t.id) && Generated(t.parentRun)
    && !Blank(t.owner) && !Blank(t.goal) && !Blank(t.expectedOutput)
    && (forall i :: 0 <= i < |t.dependsOn| ==> Generated(t.dependsOn[i]))
    && (t.route.Some? ==> RouteInfoValid(t.parentRun, t.route.value))
  }

  /** Validation also rewrites both domain lists to their normal form. */
  function Canonical(t: ChildTask): ChildTask
    requires TaskValid(t)
  {
    if t.route.None? then t
    else
      var d := Domains.Normalize(t.route.value.domains).value;
      t.(route := Some(t.route.value.(domains := d, normalizedDomains := d)))
  }

  /** What is written to disk passes the same validation when it is read back, unchanged. */
  lemma CanonicalValid(t: ChildTask)
    requires TaskValid(t)
    ensures TaskValid(Canonical(t)) && Canonical(Canonical(t)) == Canonical(t)
    ensures Canonical(t).Key() == t.Key() && Canonical(t).Class() == t.Class()
  {
    hide Domains.Normalize;
    hide Trim;
    if t.route.Some? {
      Domains.NormalizeIdempotent(t.route.value.domains);
    }
  }

  // ---------------------------------------------------------- reviews

  datatype ReviewOutcome = Approved | ChangesRequested

  datatype HandoffStatus = Pending | Responded | HandoffFailed

  datatype ReviewHandoff = ReviewHandoff(
    run: RunId, sourceTask: TaskId, sourceMessage: MessageId,
    reviewTask: Option<TaskId>, reviewMessage: Option<MessageId>, reviewer: AgentName,
    status: HandoffStatus, failureSummary: string,
    responseMessage: Option<MessageId>, outcome: Option<ReviewOutcome>,
    createdAt: Time, respondedAt: Option<Time>)

  predicate HandoffValid(h: ReviewHandoff) {
    && Generated(h.run) && Generated(h.sourceTask)
    && (h.reviewTask.Some? ==> Generated(h.reviewTask.value))
    && (h.reviewer != "" ==> !Blank(h.reviewer))
    && (h.status != HandoffFailed ==> h.reviewTask.Some? && h.reviewMessage.Some? && !Blank(h.reviewer))
    && (h.status == Responded ==> h.responseMessage.Some? && h.outcome.Some? && h.respondedAt.Some?)
    && (h.status == HandoffFailed ==> !Blank(h.failureSummary))
  }

  // --------------------------------------------------------- blockers

  datatype WaitKind = DependencyReply | ExternalEvent

  datatype BlockKind = AgentClarification | RerouteNeeded | HumanDecision | Unsupported

  /** declared_state together with its wait_kind or block_kind. */
  datatype Declared = Wait(waitKind: WaitKind) | Block(blockKind: BlockKind)

  datatype BlockerAction = Watch | ClarificationRequest | Reroute | Escalate

  datatype BlockerStatus = CaseActive | Escalated | Resolved

  datatype ResolutionAction = ManualReroute | PartialReplanAction | Clarify | Dismiss

  datatype Recommended = Recommended(kind: ResolutionAction, note: string)

  datatype Attempt = Attempt(task: TaskId, message: MessageId, owner: AgentName, note: string, createdAt: Time)

  datatype Resolution = Resolution(
    action: ResolutionAction, createdTask: Option<TaskId>, createdMessage: Option<MessageId>,
    note: string, createdAt: Time)

  datatype BlockerCase = BlockerCase(
    run: RunId, sourceTask: TaskId, sourceMessage: MessageId, sourceOwner: AgentName,
    currentTask: TaskId, currentMessage: MessageId, currentOwner: AgentName,
    declared: Declared, reason: string, selected: BlockerAction, status: BlockerStatus,
    rerouteCount: int, maxReroutes: int,
    recommended: Option<Recommended>, resolution: Option<Resolution>,
    createdAt: Time, updatedAt: Time, escalatedAt: Option<Time>, resolvedAt: Option<Time>,
    attempts: seq<Attempt>)

  predicate AttemptValid(a: Attempt) {
    Generated(a.task) && (a.owner != "" ==> !Blank(a.owner))
  }

  predicate CaseValid(b: BlockerCase) {
    && Generated(b.run) && Generated(b.sourceTask) && Generated(b.currentTask)
    && !Blank(b.sourceOwner) && !Blank(b.currentOwner) && !Blank(b.reason)
    && b.rerouteCount >= 0 && b.maxReroutes >= 0
    && (b.resolution.Some? && b.resolution.value.createdTask.Some? ==>
          Generated(b.resolution.value.createdTask.value))
    && (forall i :: 0 <= i < |b.attempts| ==> AttemptValid(b.attempts[i]))
    && (b.status == Escalated ==> b.recommended.Some? && b.escalatedAt.Some?)
    && (b.status == Resolved ==> b.resolution.Some? && b.resolvedAt.Some?)
  }

  datatype PartialReplan = PartialReplan(
    run: RunId, sourceTask: TaskId, sourceMessage: MessageId, blockerSourceTask: TaskId,
    supersededTask: TaskId, supersededMessage: MessageId, supersededOwner: AgentName,
    replacementTask: TaskId, replacementMessage: MessageId, replacementOwner: AgentName,
    reason: string, createdAt: Time, updatedAt: Time)

  predicate ReplanValid(p: PartialReplan) {
    && Generated(p.run) && Generated(p.sourceTask) && Generated(p.sourceMessage)
    && p.blockerSourceTask == p.sourceTask
    && Generated(p.supersededTask) && Generated(p.supersededMessage) && !Blank(p.supersededOwner)
    && Generated(p.replacementTask) && Generated(p.replacementMessage) && !Blank(p.replacementOwner)
    && p.replacementTask != p.sourceTask && p.replacementTask != p.supersededTask
    && !Blank(p.reason)
  }

  // ------------------------------------------------- configuration

  datatype Agent = Agent(
    name: AgentName, alias: string, kind: Option<TaskClass>, domains: seq<string>,
    priority: int, target: string, teammates: seq<string>)

  datatype ManualPreference = ManualPreference(
    taskClass: TaskClass, domains: seq<string>, owner: AgentName, weight: nat)

  datatype AdaptiveConfig = AdaptiveConfig(
    enabled: bool, lookbackRuns: nat, successWeight: nat, approvalWeight: nat,
    changesRequestedPenalty: nat, blockedPenalty: nat, waitPenalty: nat,
    manual: seq<ManualPreference>)

  datatype Config = Config(
    agents: seq<Agent>, targets: seq<string>, fanout: set<TaskClass>,
    maxReroutesDefault: nat, maxReroutesByClass: map<TaskClass, nat>, adaptive: AdaptiveConfig)

  /** The loader refuses two agents of one name. */
  ghost predicate DistinctNames(cfg: Config) {
    forall i, j :: 0 <= i < j < |cfg.agents| ==> cfg.agents[i].name != cfg.agents[j].name
  }

  /** The first agent whose name or alias is the target. */
  function ResolveIn(agents: seq<Agent>, target: string): Option<Agent> {
    if agents == [] then None
    else if agents[0].name == target || agents[0].alias == target then Some(agents[0])
    else ResolveIn(agents[1..], target)
  }

  function FindByName(agents: seq<Agent>, name: AgentName): Option<Agent> {
    if agents == [] then None
    else if agents[0].name == name then Some(agents[0])
    else FindByName(agents[1..], name)
  }

  function Resolve(cfg: Config, target: string): Option<AgentName> {
    match ResolveIn(cfg.agents, target)
    case Some(a) => Some(a.name)
    case None => None
  }

  datatype Availability = Unknown | Ready | Degraded | Offline | Disabled

  predicate BlocksRouting(a: Availability) {
    a == Offline || a == Disabled
  }

  function AvailabilityName(a: Availability): string {
    match a
    case Unknown => "unknown"
    case Ready => "ready"
    case Degraded => "degraded"
    case Offline => "offline"
    case Disabled => "disabled"
  }

  /** Health of one execution target as routing sees it. */
  datatype Health = Health(availability: Availability, summary: string)

  /** What routing reads besides the session: target health and the stored preference rows. */
  datatype Environment = Environment(health: map<string, Health>, preferences: Option<seq<Preference>>)
}
