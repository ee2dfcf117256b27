/** The session as the commands work on it: state updated in place, step by step. Each method is tied
    to the function of module Coordinator that says what the whole command does, and promises its caller
    what a good state keeps and what a failure leaves. */
module Sessions {
  import opened Wrappers
  import opened Text
  import opened Protocol
  import opened Routing
  import opened RouteChoice
  import opened Lookups
  import opened Coordinator
  import opened Invariant
  import opened Evolution
  import opened ReceiptSteps
  import opened TaskSteps
  import opened RerouteSteps
  import opened RerouteWrites
  import opened HandoffSteps
  import opened BlockerSteps
  import opened ResolveSteps
  import opened RerouteOutcomes
  import opened Commands
  import Domains

  class Session {
    var seqno: nat
    var messages: map<MessageId, Message>
    var receipts: map<ReceiptKey, Receipt>
    var runs: map<RunId, RunDir>

    constructor ()
      ensures Now() == EMPTY_STATE
    {
      seqno, messages, receipts, runs := 0, map[], map[], map[];
    }

    function Now(): State
      reads this
    {
      State(seqno, messages, receipts, runs)
    }

    /** The call left the state and returned the result that the function describes. */
    ghost predicate Did<T>(r: Result<T, Error>, o: Outcome<T>)
      reads this
    {
      Left(Now(), r) == o
    }

    // -------------------------------------------------------- mailbox

    method AllocateSeq() returns (n: nat)
      modifies this`seqno
      ensures n == seqno == old(seqno) + 1
    {
      seqno := seqno + 1;
      n := seqno;
    }

    method UpdateReceipt(k: ReceiptKey, fn: Receipt -> Receipt) returns (r: Result<(), Error>)
      modifies this`receipts
      ensures Did(r, Coordinator.UpdateReceipt(old(Now()), k, fn))
      ensures receipts.Keys == old(receipts).Keys
      ensures forall j :: j in receipts ==> receipts[j].folder == old(receipts)[j].folder && (j != k ==> receipts[j] == old(receipts)[j])
      ensures (k in old(receipts) ==> fn(old(receipts)[k]).doneAt.None? || old(receipts)[k].folder != Active) ==>
                (Inv(old(Now())) ==> Inv(Now()))
    {
      hide Inv;
      if Inv(Now()) && (k in receipts ==> fn(receipts[k]).doneAt.None? || receipts[k].folder != Active) {
        UpdateReceiptKeepsInv(Now(), k, fn);
      }
      if k !in receipts {
        return Failure(Missing);
      }
      var receipt := receipts[k];
      var originalFolder := receipt.folder;
      receipt := fn(receipt);
      if receipt.folder != originalFolder || !ReceiptValid(receipt) {
        return Failure(Malformed);
      }
      receipts := receipts[k := receipt];
      return Success(());
    }

    method MoveReceipt(k: ReceiptKey, from: Folder, to: Folder) returns (r: Result<(), Error>)
      modifies this`receipts
      ensures Did(r, Coordinator.MoveReceipt(old(Now()), k, from, to))
      ensures receipts.Keys == old(receipts).Keys && (r.Failure? ==> receipts == old(receipts))
      ensures r.Success? ==> k in receipts && receipts[k].folder == to && receipts[k := receipts[k].(folder := from)] == old(receipts)
      ensures !Finished(from) && (to == Active ==> from == Unread) ==> (Inv(old(Now())) ==> Inv(Now()))
    {
      hide Inv;
      if Inv(Now()) && !Finished(from) && (to == Active ==> from == Unread) {
        MoveReceiptKeepsInv(Now(), k, from, to);
      }
      if k !in receipts {
        return Failure(Missing);
      }
      var receipt := receipts[k];
      if receipt.folder != from {
        return Failure(Conflict);
      }
      receipt := receipt.(folder := to);
      if !ReceiptValid(receipt) {
        return Failure(Malformed);
      }
      receipts := receipts[k := receipt];
      return Success(());
    }

    /** The message first, then its unread receipt. */
    method Deliver(id: MessageId, msg: Message) returns (r: Result<(), Error>)
      modifies this`messages, this`receipts
      ensures Did(r, Coordinator.Deliver(old(Now()), id, msg))
    {
      if id in messages {
        return Failure(Conflict);
      }
      messages := messages[id := msg];
      var k := ReceiptKey(msg.to, id);
      if k in receipts {
        return Failure(Conflict);
      }
      receipts := receipts[k := NEW_RECEIPT];
      return Success(());
    }

    method ReadMsg(cfg: Config, agent: string, m: MessageId, now: Time) returns (r: Result<Message, Error>)
      modifies this`receipts
      ensures Did(r, Coordinator.ReadMsg(old(Now()), cfg, agent, m, now))
      ensures Inv(old(Now())) ==> Inv(Now()) && SameProgress(old(receipts), receipts)
      ensures r.Success? ==> && m in messages && r.value == messages[m] && Resolve(cfg, agent).Some?
                             && var k := ReceiptKey(Resolve(cfg, agent).value, m); k in receipts && receipts[k].folder != Unread
    {
      hide Inv;
      hide SameProgress;
      if Inv(Now()) { ReadMsgKeepsInv(Now(), cfg, agent, m, now); }
      ReadIsRead(Now(), cfg, agent, m, now);
      ReadKeepsClaims(Now(), cfg, agent, m, now);
      hide Resolve;
      hide ReceiptValid;
      var name := Resolve(cfg, agent);
      if name.None? {
        return Failure(Missing);
      }
      var k := ReceiptKey(name.value, m);
      if k !in receipts || m !in messages {
        return Failure(Missing);
      }
      if receipts[k].folder == Unread {
        var _ :- UpdateReceipt(k, Acknowledge(now));
        var _ :- MoveReceipt(k, Unread, Active);
      }
      return Success(messages[m]);
    }

    method LoadActiveTask(cfg: Config, agent: string, m: MessageId, now: Time) returns (r: Result<ActiveTask, Error>)
      modifies this`receipts
      ensures Did(r, Coordinator.LoadActiveTask(old(Now()), cfg, agent, m, now))
    {
      hide Resolve;
      hide Coordinator.ReadMsg;
      var name := Resolve(cfg, agent);
      if name.None? {
        return Failure(Missing);
      }
      var k := ReceiptKey(name.value, m);
      if k !in receipts {
        return Failure(Missing);
      }
      var receipt := receipts[k];
      if receipt.folder != Active {
        return Failure(Conflict);
      }
      var msg :- ReadMsg(cfg, name.value, m, now);
      return Success(ActiveTask(name.value, receipt, msg));
    }

    method TaskAccept(cfg: Config, agent: string, m: MessageId, now: Time) returns (r: Result<(), Error>)
      modifies this`receipts
      ensures Did(r, Coordinator.TaskAccept(old(Now()), cfg, agent, m, now))
      ensures Inv(old(Now())) ==> Inv(Now()) && Evolves(old(Now()), Now())
      ensures r.Success? ==> && Resolve(cfg, agent).Some? && m in messages
                             && (messages[m].requiresClaim ==>
                                   var k := ReceiptKey(Resolve(cfg, agent).value, m);
                                   k in receipts && receipts[k].claimedBy == Some(k.agent))
      ensures forall k :: k in old(receipts) && old(receipts)[k].claimedBy.Some? ==>
                k in receipts && receipts[k].claimedBy == old(receipts)[k].claimedBy
    {
      hide Inv;
      hide Evolves;
      hide Grows;
      if Inv(Now()) {
        AcceptKeepsInv(Now(), cfg, agent, m, now);
        SentEvolves(Now(), Coordinator.TaskAccept(Now(), cfg, agent, m, now).st);
      }
      AcceptClaims(Now(), cfg, agent, m, now);
      hide Resolve;
      hide Coordinator.ReadMsg;
      hide ReceiptValid;
      var name := Resolve(cfg, agent);
      if name.None? {
        return Failure(Missing);
      }
      var msg :- ReadMsg(cfg, name.value, m, now);
      if !Claimable(msg.kind) {
        return Failure(Conflict);
      }
      if msg.requiresClaim {
        var k := ReceiptKey(name.value, m);
        var _ :- UpdateReceipt(k, Claim(name.value, now));
        if k in receipts && receipts[k].claimedBy.Some? && receipts[k].claimedBy.value != name.value {
          return Failure(Conflict);
        }
      }
      return Success(());
    }

    method Requeue(k: ReceiptKey) returns (r: Result<(), Error>)
      modifies this`receipts
      ensures Did(r, Coordinator.Requeue(old(Now()), k))
    {
      hide ReceiptValid;
      if k !in receipts || receipts[k].folder != Active {
        return Failure(Missing);
      }
      var _ :- UpdateReceipt(k, StopSession());
      r := MoveReceipt(k, Active, Unread);
    }

    method Send(cfg: Config, to: string, from: AgentName, kind: Kind, thread: Option<ThreadId>,
                replyTo: Option<MessageId>, body: string) returns (r: Result<MessageId, Error>)
      modifies this`seqno, this`messages, this`receipts
      ensures Did(r, Coordinator.Send(old(Now()), cfg, to, from, kind, thread, replyTo, body))
    {
      hide Resolve;
      hide Trim;
      if Blank(to) || Blank(body) {
        return Failure(Malformed);
      }
      var name := Resolve(cfg, to);
      if name.None? {
        return Failure(Missing);
      }
      var id := AllocateSeq();
      var threadId := if thread.Some? then thread.value else id;
      var _ :- Deliver(id, Message(threadId, kind, from, name.value, replyTo, false, None));
      return Success(id);
    }

    // ----------------------------------------------------------- runs

    method StartRun(cfg: Config, goal: string, coordinator: string, createdBy: string, now: Time)
      returns (r: Result<RunId, Error>)
      modifies this
      ensures Did(r, Coordinator.StartRun(old(Now()), cfg, goal, coordinator, createdBy, now))
      ensures StartPromise(old(Now()), Left(Now(), r))
    {
      hide StartPromise;
      StartPromised(Now(), cfg, goal, coordinator, createdBy, now);
      hide Trim;
      hide RunValid;
      hide ResolveIn;
      hide BaselineTargetsKnown;
      if Blank(goal) || Blank(coordinator) || Blank(createdBy) {
        return Failure(Malformed);
      }
      var agent := ResolveIn(cfg.agents, coordinator);
      if agent.None? {
        return Failure(Missing);
      }
      var owners := AllowedOwnersOf(cfg.agents, agent.value.teammates);
      if owners == [] || !BaselineTargetsKnown(cfg, agent.value) {
        return Failure(Malformed);
      }
      var run := AllocateSeq();
      var m := AllocateSeq();
      var doc := CoordinatorRun(run, Trim(goal), agent.value.name, Trim(createdBy), now, m, m, owners);
      if !RunValid(doc) {
        return Failure(Malformed);
      }
      if run in runs {
        return Failure(Conflict);
      }
      runs := runs[run := RunDir(doc, map[], map[], map[], map[])];
      var _ :- Deliver(m, Message(m, Task, doc.createdBy, doc.coordinator, None, true, None));
      return Success(run);
    }

    /** The duplicate lookup and policy check that precede every task, and the decision to record. */
    method RecordRoute(cfg: Config, run: RunId, owner: AgentName, route: Option<RouteInfo>)
      returns (r: Result<Option<RouteInfo>, Error>)
      ensures r == RecordedRoute(Now(), cfg, run, owner, route)
    {
      hide FindActiveDuplicate;
      hide Trim;
      if route.None? {
        return Success(None);
      }
      var duplicate :- FindActiveDuplicateTask(Now(), run, route.value.duplicateKey);
      if duplicate.Some? && route.value.taskClass !in cfg.fanout {
        return Failure(DuplicateTask(duplicate.value));
      }
      var decision := route.value.decision;
      decision := decision.(status := Trim(decision.status), selectedOwner := owner);
      if duplicate.Some? {
        decision := decision.(duplicateStatus := "fanout", matched := duplicate);
      } else {
        decision := decision.(duplicateStatus := "unique", matched := None);
      }
      return Success(Some(route.value.(decision := decision, duplicateKey := Trim(route.value.duplicateKey),
                                       overrideReason := Trim(route.value.overrideReason))));
    }

    method AddResolved(cfg: Config, run: RunId, owner: AgentName, req: ChildRequest, now: Time)
      returns (r: Result<ChildTask, Error>)
      requires run in runs
      modifies this
      ensures Did(r, Coordinator.AddResolved(old(Now()), cfg, run, owner, req, now))
      ensures AddPromise(old(Now()), Left(Now(), r), run, owner, req)
    {
      AddPromised(Now(), cfg, run, owner, req, now);
      hide AddPromise;
      hide RecordedRoute;
      hide TaskValid;
      hide Canonical;
      hide Trim;
      var route :- RecordRoute(cfg, run, owner, req.route);
      var doc := runs[run].doc;
      var t := AllocateSeq();
      var m := AllocateSeq();
      var task := ChildTask(t, run, owner, Trim(req.goal), Trim(req.expectedOutput), req.dependsOn,
                            req.reviewRequired, route, m, doc.rootThread, now);
      if !TaskValid(task) {
        return Failure(Malformed);
      }
      if t in runs[run].tasks {
        return Failure(Conflict);
      }
      CanonicalId(task);
      runs := runs[run := runs[run].(tasks := runs[run].tasks[t := Canonical(task)])];
      var _ :- Deliver(m, Message(doc.rootThread, MessageKindOf(task), doc.coordinator, owner, Some(doc.rootMessage),
                                  true, Some(TaskRef(run, t))));
      return Success(Canonical(task));
    }

    method AddChildTask(cfg: Config, run: RunId, req: ChildRequest, now: Time) returns (r: Result<ChildTask, Error>)
      modifies this
      ensures Did(r, Coordinator.AddChildTask(old(Now()), cfg, run, req, now))
      ensures Inv(old(Now())) ==>
                && Inv(Now()) && Evolves(old(Now()), Now())
                && (r.Success? ==> Added(old(Now()), Now(), run, r.value) && r.value.dependsOn == req.dependsOn)
                && (r.Failure? ==> runs == old(runs) && messages == old(messages) && receipts == old(receipts))
    {
      hide Inv;
      hide Evolves;
      hide Added;
      if Inv(Now()) {
        AddChildKeepsInv(Now(), cfg, run, req, now);
        AddChildEvolves(Now(), cfg, run, req, now);
      }
      hide ChildRequestValid;
      hide RunValid;
      hide TargetKnown;
      hide Coordinator.AddResolved;
      if !ChildRequestValid(run, req) {
        return Failure(Malformed);
      }
      if run !in runs || !RunValid(runs[run].doc) {
        return Failure(Missing);
      }
      var owner := ResolveIn(cfg.agents, req.owner);
      var coordinator := FindByName(cfg.agents, runs[run].doc.coordinator);
      if owner.None? || owner.value.kind.None? || coordinator.None? {
        return Failure(Missing);
      }
      if owner.value.name !in coordinator.value.teammates || owner.value.name !in runs[run].doc.allowedOwners {
        return Failure(Conflict);
      }
      if !TargetKnown(cfg, owner.value) {
        return Failure(Malformed);
      }
      r := AddResolved(cfg, run, owner.value.name, req, now);
    }

    method RouteChildTask(cfg: Config, env: Environment, req: Request, now: Time) returns (r: Result<ChildTask, Error>)
      modifies this
      ensures Did(r, Coordinator.RouteChildTask(old(Now()), cfg, env, req, now))
      ensures RoutePromise(old(Now()), Left(Now(), r), req)
    {
      hide RoutePromise;
      RoutePromised(Now(), cfg, env, req, now);
      hide RunValid;
      hide Blank;
      hide FindActiveDuplicate;
      hide SelectRoutedOwner;
      hide Coordinator.AddResolved;
      var normalized := Domains.NormalizeRouteDomains(req.domains);
      hide Domains.Normalize;
      if !RequestValid(req) {
        return Failure(Malformed);
      }
      if req.run !in runs || !RunValid(runs[req.run].doc) {
        return Failure(Missing);
      }
      var key := KeyOf(req.run, req.taskClass, normalized.value);
      var duplicate :- FindActiveDuplicateTask(Now(), req.run, key);
      if duplicate.Some? && req.taskClass !in cfg.fanout {
        return Failure(DuplicateTask(duplicate.value));
      }
      var decision := ChooseOwner(cfg, env, runs[req.run].doc.allowedOwners, req.(domains := normalized.value), duplicate);
      if decision.Failure? {
        return Failure(RouteFailed(decision.error));
      }
      var route := RouteInfo(req.taskClass, normalized.value, normalized.value, key, decision.value, req.overrideReason);
      r := AddResolved(cfg, req.run, decision.value.selectedOwner,
                       ChildRequest(decision.value.selectedOwner, req.goal, req.expectedOutput, [],
                                    req.reviewRequired, Some(route)), now);
    }

    // ------------------------------------------------------- handoffs

    method CreateHandoff(h: ReviewHandoff) returns (r: Result<(), Error>)
      modifies this`runs
      ensures Did(r, Coordinator.CreateHandoff(old(Now()), h))
    {
      hide HandoffValid;
      if !HandoffValid(h) {
        return Failure(Malformed);
      }
      if h.run !in runs {
        return Failure(Missing);
      }
      if h.sourceTask in runs[h.run].handoffs {
        return Failure(Conflict);
      }
      runs := runs[h.run := runs[h.run].(handoffs := runs[h.run].handoffs[h.sourceTask := h])];
      return Success(());
    }

    method UpsertFailedHandoff(h: ReviewHandoff) returns (r: Result<(), Error>)
      modifies this`runs
      ensures Did(r, Coordinator.UpsertFailedHandoff(old(Now()), h))
      ensures r.Failure? ==> runs == old(runs)
      ensures r.Success? ==>
                && h.run in old(runs) && h.run in runs && h.sourceTask in runs[h.run].handoffs
                && var was, made := old(runs)[h.run], runs[h.run].handoffs[h.sourceTask];
                   && runs == old(runs)[h.run := was.(handoffs := was.handoffs[h.sourceTask := made])]
                   && HandoffValid(made) && made.status == HandoffFailed && made.failureSummary == h.failureSummary
                   && (h.sourceTask in was.handoffs ==> KnowsAsMuch(was.handoffs[h.sourceTask], made))
    {
      hide HandoffValid;
      if h.run in runs && h.sourceTask in runs[h.run].handoffs {
        var existing := runs[h.run].handoffs[h.sourceTask];
        if h.reviewTask.Some? { existing := existing.(reviewTask := h.reviewTask); }
        if h.reviewMessage.Some? { existing := existing.(reviewMessage := h.reviewMessage); }
        if h.reviewer != "" { existing := existing.(reviewer := h.reviewer); }
        existing := existing.(status := HandoffFailed, failureSummary := h.failureSummary);
        if !HandoffValid(existing) {
          return Failure(Malformed);
        }
        runs := runs[h.run := runs[h.run].(handoffs := runs[h.run].handoffs[h.sourceTask := existing])];
        return Success(());
      }
      r := CreateHandoff(h.(status := HandoffFailed));
    }

    method CreateReviewHandoffAfterTaskDone(cfg: Config, env: Environment, m: MessageId, now: Time)
      returns (r: Result<(), Error>)
      modifies this
      ensures Did(r, HandoffAfterDone(old(Now()), cfg, env, m, now))
      ensures HandoffPromise(old(Now()), Left(Now(), r), m)
    {
      hide HandoffPromise;
      HandoffPromised(Now(), cfg, env, m, now);
      hide HandoffValid;
      hide Coordinator.RouteChildTask;
      hide Coordinator.UpsertFailedHandoff;
      if m !in messages {
        return Failure(Missing);
      }
      if messages[m].meta.None? {
        return Success(());
      }
      var ref := messages[m].meta.value;
      if ref.run !in runs || ref.task !in runs[ref.run].tasks {
        r := UpsertFailedHandoff(FailedHandoff(ref, m, "source task could not be loaded for review routing", now));
        return;
      }
      var source := runs[ref.run].tasks[ref.task];
      if !NeedsReview(source) {
        return Success(());
      }
      if ref.task in runs[ref.run].handoffs {
        if HandoffValid(runs[ref.run].handoffs[ref.task]) {
          return Success(());
        }
        return Failure(Malformed);
      }
      var review := RouteChildTask(cfg, env,
        Request(source.parentRun, Review, source.route.value.normalizedDomains, REVIEW_GOAL + source.goal,
                REVIEW_OUTPUT, false, "", ""), now);
      if review.Failure? {
        r := UpsertFailedHandoff(FailedHandoff(ref, m, "route review handoff", now));
        return;
      }
      var handoff := ReviewHandoff(ref.run, ref.task, m, Some(review.value.id), Some(review.value.message),
                                   review.value.owner, Pending, "", None, None, now, None);
      r := CreateHandoff(handoff);
      if r.Failure? {
        r := UpsertFailedHandoff(handoff.(status := HandoffFailed, failureSummary := "persist review handoff"));
      }
    }

    method TaskDone(cfg: Config, env: Environment, agent: string, m: MessageId, now: Time) returns (r: Result<(), Error>)
      modifies this
      ensures Did(r, Coordinator.TaskDone(old(Now()), cfg, env, agent, m, now))
      ensures NoCasePromise(old(Now()), Now())
      ensures DonePromise(cfg, old(Now()), Left(Now(), r), agent, m)
    {
      hide NoCasePromise;
      hide DonePromise;
      DonePromised(Now(), cfg, env, agent, m, now);
      hide Coordinator.LoadActiveTask;
      hide Coordinator.UpdateReceipt;
      hide Coordinator.MoveReceipt;
      hide HandoffAfterDone;
      var active :- LoadActiveTask(cfg, agent, m, now);
      if ClaimedByOther(active) {
        return Failure(Conflict);
      }
      var k := ReceiptKey(active.agent, m);
      var _ :- UpdateReceipt(k, Complete(now));
      var _ :- MoveReceipt(k, Active, Done);
      r := CreateReviewHandoffAfterTaskDone(cfg, env, m, now);
    }

    method ReviewRespond(cfg: Config, agent: string, m: MessageId, outcome: ReviewOutcome, body: string, now: Time)
      returns (r: Result<MessageId, Error>)
      modifies this
      ensures Did(r, Coordinator.ReviewRespond(old(Now()), cfg, agent, m, outcome, body, now))
      ensures NoCasePromise(old(Now()), Now())
    {
      hide NoCasePromise;
      RespondPromised(Now(), cfg, agent, m, outcome, body, now);
      hide Trim;
      hide Resolve;
      hide HandoffValid;
      hide FindHandoff;
      hide Coordinator.LoadActiveTask;
      hide Coordinator.UpdateReceipt;
      hide Coordinator.MoveReceipt;
      hide Coordinator.Deliver;
      if Blank(body) {
        return Failure(Malformed);
      }
      var active :- LoadActiveTask(cfg, agent, m, now);
      if ClaimedByOther(active) {
        return Failure(Conflict);
      }
      if active.msg.kind != ReviewRequest || active.msg.meta.None? {
        return Failure(Malformed);
      }
      var ref := active.msg.meta.value;
      if ref.run !in runs {
        return Failure(Missing);
      }
      var handoff :- FindReviewHandoff(runs[ref.run], ref.task);
      if handoff.status != Pending || handoff.reviewMessage != Some(m) || handoff.reviewer != active.agent {
        return Failure(Conflict);
      }
      var sender := Resolve(cfg, active.agent);
      if sender.None? {
        return Failure(Missing);
      }
      var id := AllocateSeq();
      var _ :- Deliver(id, Message(active.msg.thread, ReplyKind(active.msg.kind), sender.value, active.msg.from,
                                   Some(m), false, None));
      var k := ReceiptKey(active.agent, m);
      var _ :- UpdateReceipt(k, Complete(now));
      var _ :- MoveReceipt(k, Active, Done);
      handoff := handoff.(responseMessage := Some(id), outcome := Some(outcome), respondedAt := Some(now),
                          status := Responded);
      if !HandoffValid(handoff) || ref.run !in runs {
        return Failure(Malformed);
      }
      runs := runs[ref.run := runs[ref.run].(handoffs := runs[ref.run].handoffs[handoff.sourceTask := handoff])];
      return Success(id);
    }

    // ------------------------------------------------------- blockers

    method PersistCase(b: BlockerCase, create: bool) returns (r: Result<(), Error>)
      modifies this`runs
      ensures Did(r, Coordinator.PersistCase(old(Now()), b, create))
    {
      hide CaseValid;
      if !CaseValid(b) {
        return Failure(Malformed);
      }
      if b.run !in runs {
        return Failure(Missing);
      }
      if create && b.sourceTask in runs[b.run].cases {
        return Failure(Conflict);
      }
      if !create && b.sourceTask !in runs[b.run].cases {
        return Failure(Missing);
      }
      runs := runs[b.run := runs[b.run].(cases := runs[b.run].cases[b.sourceTask := b])];
      return Success(());
    }

    method SuspendReceipt(k: ReceiptKey) returns (r: Result<Option<Receipt>, Error>)
      modifies this`receipts
      ensures Did(r, Coordinator.SuspendReceipt(old(Now()), k))
    {
      hide ReceiptValid;
      if k !in receipts {
        return Failure(Missing);
      }
      var receipt := receipts[k];
      if Finished(receipt.folder) {
        return Success(None);
      }
      var _ :- UpdateReceipt(k, Suspend());
      var _ :- MoveReceipt(k, receipt.folder, Dead);
      return Success(Some(receipt));
    }

    /** The closure a suspension returns. */
    method RestoreReceipt(k: ReceiptKey, original: Option<Receipt>) returns (r: Result<(), Error>)
      modifies this`receipts
      ensures Did(r, Coordinator.RestoreReceipt(old(Now()), k, original))
    {
      hide ReceiptValid;
      if original.None? {
        return Success(());
      }
      var _ :- MoveReceipt(k, Dead, original.value.folder);
      r := UpdateReceipt(k, Restore(original.value));
    }

    method RouteInPlaceOf(cfg: Config, env: Environment, k: ReceiptKey, req: Request, now: Time)
      returns (r: Result<ChildTask, Error>)
      modifies this
      ensures Did(r, Coordinator.RouteInPlaceOf(old(Now()), cfg, env, k, req, now))
      ensures Inv(old(Now())) ==> Inv(Now())
      ensures Inv(old(Now())) && r.Success? ==> Added(SuspendedState(old(Now()), k), Now(), req.run, r.value)
      ensures Inv(old(Now())) && r.Failure? ==>
                runs == old(runs) && messages == old(messages) && receipts == RestoredReceipts(old(Now()), k)
    {
      hide Inv;
      hide Added;
      hide SuspendedState;
      hide RestoredReceipts;
      if Inv(Now()) { RoutedOrRestored(Now(), cfg, env, k, req, now); }
      hide Coordinator.RouteChildTask;
      hide Coordinator.SuspendReceipt;
      hide Coordinator.RestoreReceipt;
      var original :- SuspendReceipt(k);
      r := RouteChildTask(cfg, env, req, now);
      if r.Failure? {
        var _ := RestoreReceipt(k, original);
      }
    }

    method RerouteTask(cfg: Config, env: Environment, run: RunId, source: ChildTask, current: ChildTask,
                       overrideOwner: string, reason: string, now: Time) returns (r: Result<ChildTask, Error>)
      modifies this
      ensures Did(r, Coordinator.RerouteTask(old(Now()), cfg, env, run, source, current, overrideOwner, reason, now))
    {
      hide Coordinator.RouteInPlaceOf;
      hide RerouteRequest;
      if source.route.None? || RouteDomains(source.route.value) == [] {
        return Failure(Malformed);
      }
      r := RouteInPlaceOf(cfg, env, ReceiptKey(current.owner, current.message),
                          RerouteRequest(run, source, current, overrideOwner, reason), now);
    }

    method RecordBlocker(cfg: Config, env: Environment, agent: string, m: MessageId, d: Declared, reason: string, now: Time)
      returns (r: Result<(), Error>)
      modifies this
      ensures Did(r, Coordinator.RecordBlocker(old(Now()), cfg, env, agent, m, d, reason, now))
      ensures BlockPromise(cfg, old(Now()), Left(Now(), r), m)
    {
      hide BlockPromise;
      BlockPromised(Now(), cfg, env, agent, m, d, reason, now);
      hide Coordinator.LoadActiveTask;
      hide FindCase;
      hide ActOnBlocker;
      if reason == "" {
        return Failure(Malformed);
      }
      var active :- LoadActiveTask(cfg, agent, m, now);
      if ClaimedByOther(active) {
        return Failure(Conflict);
      }
      if active.msg.meta.None? {
        return Success(());
      }
      var run, t := active.msg.meta.value.run, active.msg.meta.value.task;
      if run !in runs || t !in runs[run].tasks {
        return Failure(Missing);
      }
      var existing :- FindBlockerCase(run, runs[run], t);
      var k := if existing.Some? then existing.value.sourceTask else t;
      if k !in runs[run].tasks {
        return Failure(Missing);
      }
      r := Act(cfg, env, run, existing, k, t, active.agent, m, d, reason, now);
    }

    /** The switch over the selected action, filling in the case document on the way. */
    method Act(cfg: Config, env: Environment, run: RunId, existing: Option<BlockerCase>, k: TaskId, t: TaskId,
               agent: AgentName, m: MessageId, d: Declared, reason: string, now: Time) returns (r: Result<(), Error>)
      requires run in runs && k in runs[run].tasks && t in runs[run].tasks
      modifies this
      ensures Did(r, ActOnBlocker(old(Now()), cfg, env, run, existing, k, t, agent, m, d, reason, now))
      ensures ActPromise(cfg, old(Now()), Left(Now(), r), run, existing, k, t, agent, m)
    {
      hide ActPromise;
      hide PrepareCase;
      hide Recommend;
      hide Trim;
      hide Coordinator.PersistCase;
      hide Coordinator.RerouteTask;
      ghost var outcome := ActOutcome(Now(), cfg, env, run, existing, k, t, agent, m, d, reason, now);
      var source, current := runs[run].tasks[k], runs[run].tasks[t];
      var caseDoc := PrepareCase(cfg, run, existing, source, current, agent, m, d, reason, now);
      match caseDoc.selected {
        case Watch =>
        case ClarificationRequest =>
        case Escalate =>
          caseDoc := caseDoc.(status := Escalated, recommended := Some(Recommend(d, reason)), escalatedAt := Some(now));
        case Reroute =>
          var rerouted :- RerouteTask(cfg, env, run, source, current, "", reason, now);
          caseDoc := Rerouted(caseDoc, rerouted, Trim(reason), now);
          caseDoc := caseDoc.(rerouteCount := caseDoc.rerouteCount + 1);
      }
      r := PersistCase(caseDoc, existing.None?);
    }

    // ------------------------------------------------------ resolution

    method ResolveCase(run: RunId, k: TaskId, b: BlockerCase, res: Resolution, now: Time) returns (r: Result<(), Error>)
      modifies this`runs
      ensures Did(r, Coordinator.ResolveCase(old(Now()), run, k, b, res, now))
    {
      hide CaseValid;
      if run !in runs || k !in runs[run].cases {
        return Failure(Missing);
      }
      var existing := runs[run].cases[k];
      existing := existing.(status := Resolved, resolution := Some(res), resolvedAt := Some(now), updatedAt := now);
      existing := existing.(currentTask := b.currentTask, currentMessage := b.currentMessage,
                            currentOwner := b.currentOwner, attempts := b.attempts);
      if !CaseValid(existing) {
        return Failure(Malformed);
      }
      runs := runs[run := runs[run].(cases := runs[run].cases[existing.sourceTask := existing])];
      return Success(());
    }

    method CreateReplan(p: PartialReplan) returns (r: Result<(), Error>)
      modifies this`runs
      ensures Did(r, Coordinator.CreateReplan(old(Now()), p))
    {
      hide ReplanValid;
      if !ReplanValid(p) {
        return Failure(Malformed);
      }
      if p.run !in runs {
        return Failure(Missing);
      }
      if p.sourceTask in runs[p.run].replans {
        return Failure(Conflict);
      }
      runs := runs[p.run := runs[p.run].(replans := runs[p.run].replans[p.sourceTask := p])];
      return Success(());
    }

    method BlockerResolve(cfg: Config, env: Environment, o: ResolveOpts, now: Time) returns (r: Result<(), Error>)
      modifies this
      ensures Did(r, Coordinator.BlockerResolve(old(Now()), cfg, env, o, now))
      ensures ResolvePromise(cfg, old(Now()), Left(Now(), r), o)
    {
      hide ResolvePromise;
      ResolvePromised(Now(), cfg, env, o, now);
      hide Trim;
      hide Domains.Normalize;
      hide CaseValid;
      hide Coordinator.ResolveCase;
      hide Coordinator.CreateReplan;
      hide Coordinator.RerouteTask;
      hide Coordinator.RouteInPlaceOf;
      hide Coordinator.Send;
      hide ReplanRequest;
      hide ReplanOf;
      if !ResolveOptsValid(o) {
        return Failure(Malformed);
      }
      if o.run !in runs || o.sourceTask !in runs[o.run].cases {
        return Failure(Missing);
      }
      var caseDoc := runs[o.run].cases[o.sourceTask];
      if !Readable(o.run, o.sourceTask, caseDoc) {
        return Failure(Malformed);
      }
      if caseDoc.status != Escalated {
        return Failure(Conflict);
      }
      var res := Resolution(o.action, None, None, Trim(o.reason), now);
      match o.action {
        case Dismiss =>
        case Clarify =>
          var id :- Send(cfg, caseDoc.currentOwner, "human", Decision, Some(runs[o.run].doc.rootThread),
                         Some(caseDoc.currentMessage), o.body);
          res := res.(createdMessage := Some(id));
        case ManualReroute =>
          if caseDoc.sourceTask !in runs[o.run].tasks || caseDoc.currentTask !in runs[o.run].tasks {
            return Failure(Missing);
          }
          var source, current := runs[o.run].tasks[caseDoc.sourceTask], runs[o.run].tasks[caseDoc.currentTask];
          var rerouted :- RerouteTask(cfg, env, o.run, source, current, Trim(o.owner), Trim(o.reason), now);
          caseDoc := Rerouted(caseDoc, rerouted, Trim(o.reason), now);
          res := res.(createdTask := Some(rerouted.id), createdMessage := Some(rerouted.message));
        case PartialReplanAction =>
          if o.sourceTask in runs[o.run].replans {
            return Failure(Conflict);
          }
          if caseDoc.sourceTask !in runs[o.run].tasks || caseDoc.currentTask !in runs[o.run].tasks {
            return Failure(Missing);
          }
          var source, current := runs[o.run].tasks[caseDoc.sourceTask], runs[o.run].tasks[caseDoc.currentTask];
          var replacement :- RouteInPlaceOf(cfg, env, ReceiptKey(current.owner, current.message),
                                            ReplanRequest(o, source), now);
          var _ :- CreateReplan(ReplanOf(o, source, current, replacement, now));
          caseDoc := caseDoc.(currentTask := replacement.id, currentMessage := replacement.message,
                              currentOwner := replacement.owner);
          res := res.(createdTask := Some(replacement.id), createdMessage := Some(replacement.message));
      }
      r := ResolveCase(o.run, o.sourceTask, caseDoc, res, now);
    }

    // -------------------------------------------------------- shutdown

    /** The inner loop of the shutdown: the active inbox of one agent, in any order. */
    method StopAgent(name: AgentName) returns (r: Result<(), Error>)
      modifies this`receipts
      ensures r.Success? ==> receipts == StoppedAt(old(receipts), ActiveFor(old(receipts), name))
      ensures ReceiptsOk(old(messages), old(receipts)) ==> r.Success?
      ensures Inv(old(Now())) ==> Inv(Now())
    {
      hide Inv;
      hide ReceiptsOk;
      hide StoppedAt;
      hide StoppedReceipt;
      hide Grows;
      hide Coordinator.Requeue;
      ghost var was := receipts;
      ghost var done: set<ReceiptKey> := {};
      var entries := set k | k in receipts && k.agent == name && receipts[k].folder == Active;
      StopNone(was);
      while entries != {}
        invariant done + entries == ActiveFor(was, name) && done !! entries
        invariant receipts == StoppedAt(was, done)
        invariant ReceiptsOk(messages, was) ==> ReceiptsOk(messages, receipts)
        invariant Inv(old(Now())) ==> Inv(Now())
        decreases |entries|
      {
        var k :| k in entries;
        entries := entries - {k};
        ghost var before := Now();
        StopStep(before, was, done, k);
        var _ :- Requeue(k);
        done := done + {k};
      }
      return Success(());
    }

    /** The shutdown: every active receipt of every configured agent goes back to unread, unclaimed,
        and nothing else changes. */
    method Down(cfg: Config) returns (r: Result<(), Error>)
      modifies this`receipts
      ensures r.Success? ==> receipts == StoppedAt(old(receipts), ActiveOf(old(receipts), cfg.agents))
      ensures Inv(old(Now())) ==> r.Success? && Inv(Now())
    {
      hide RunsOk;
      hide IdsOk;
      hide MetasOk;
      hide ReceiptsOk;
      hide StoppedAt;
      ghost var was := receipts;
      StopNone(was);
      for i := 0 to |cfg.agents|
        invariant receipts == StoppedAt(was, ActiveOf(was, cfg.agents[..i]))
        invariant Inv(old(Now())) ==> Inv(Now())
      {
        var _ :- StopAgent(cfg.agents[i].name);
        StopNext(was, cfg.agents, i);
      }
      assert cfg.agents[..|cfg.agents|] == cfg.agents;
      return Success(());
    }
  }

  /** A failed handoff keeps what the record before it knew. */
  ghost predicate KnowsAsMuch(was: ReviewHandoff, made: ReviewHandoff) {
    && (was.reviewTask.Some? ==> made.reviewTask.Some?) && (was.reviewMessage.Some? ==> made.reviewMessage.Some?)
    && (was.reviewer != "" ==> made.reviewer != "")
    && made.run == was.run && made.sourceTask == was.sourceTask && made.sourceMessage == was.sourceMessage
    && made.responseMessage == was.responseMessage && made.outcome == was.outcome && made.createdAt == was.createdAt
  }

  /** The arguments with which a wait or block acts: those of the current task and of the case that holds it. */
  ghost predicate ActsOn(s: State, run: RunId, existing: Option<BlockerCase>, k: TaskId, t: TaskId, agent: AgentName, m: MessageId) {
    && Inv(s) && run in s.runs && Holds(s.runs[run], k, t) && existing == CaseAt(s.runs[run], k)
    && agent == s.runs[run].tasks[t].owner && m == s.runs[run].tasks[t].message
  }

  /** A result together with the state it was returned in. */
  function Left<T>(s: State, r: Result<T, Error>): Outcome<T> {
    match r
    case Success(value) => Ok(s, value)
    case Failure(error) => Err(s, error)
  }

  // ------------------------------------------------ what a caller is promised

  /** A start adds exactly the empty run it returns; a failed one touches nothing but the counter. */
  ghost predicate StartPromise(s: State, o: Outcome<RunId>) {
    Inv(s) ==> && Inv(o.st) && Evolves(s, o.st)
               && (if o.Ok? then RunStarted(s, o.st, o.value) else o.st == s.(seqno := o.st.seqno))
  }

  lemma StartPromised(s: State, cfg: Config, goal: string, coordinator: string, createdBy: string, now: Time)
    ensures StartPromise(s, Coordinator.StartRun(s, cfg, goal, coordinator, createdBy, now))
  {
    hide Inv;
    hide Evolves;
    hide RunStarted;
    hide Coordinator.StartRun;
    if Inv(s) {
      StartEvolves(s, cfg, goal, coordinator, createdBy, now);
      StartsOneRun(s, cfg, goal, coordinator, createdBy, now);
    }
  }

  /** Where the route carries the key of its own run, class and domains: one task is added for the owner, with
      the dependencies, review flag and class asked for, whole with its message and receipt and, unless it is
      recorded as fanout, with no live task of its key beside it; or nothing but the counter changes, and on a
      rejection not even that. */
  ghost predicate AddPromise(s: State, o: Outcome<ChildTask>, run: RunId, owner: AgentName, req: ChildRequest) {
    Inv(s) && run in s.runs && (req.route.Some? ==> RouteKeyed(run, req.route.value)) ==>
      && Inv(o.st)
      && (if o.Ok? then
            && Added(s, o.st, run, o.value) && o.value.owner == owner && o.value.dependsOn == req.dependsOn
            && o.value.reviewRequired == req.reviewRequired && (req.route.None? ==> o.value.route.None?)
            && (req.route.Some? ==> o.value.Class() == Some(req.route.value.taskClass))
          else o.st == s || (o.st == s.(seqno := s.seqno + 2) && !Rejection(o.error)))
  }

  lemma AddPromised(s: State, cfg: Config, run: RunId, owner: AgentName, req: ChildRequest, now: Time)
    requires run in s.runs
    ensures AddPromise(s, Coordinator.AddResolved(s, cfg, run, owner, req, now), run, owner, req)
  {
    hide Inv;
    hide Added;
    hide RouteKeyed;
    hide Coordinator.AddResolved;
    if Inv(s) && (req.route.Some? ==> RouteKeyed(run, req.route.value)) {
      AddResolvedAdds(s, cfg, run, owner, req, now);
      BumpKeepsInv(s, s.seqno + 2);
      var o := Coordinator.AddResolved(s, cfg, run, owner, req, now);
      if o.Ok? { AddedKeepsInv(s, o.st, run, o.value); }
    }
  }

  /** A route adds one task of the class without dependencies, whole with its message and receipt; a failed
      one touches nothing but the counter. */
  ghost predicate RoutePromise(s: State, o: Outcome<ChildTask>, req: Request) {
    Inv(s) ==> && Inv(o.st)
               && (if o.Ok? then Added(s, o.st, req.run, o.value) && o.value.dependsOn == [] && o.value.Class() == Some(req.taskClass)
                   else o.st == s.(seqno := o.st.seqno))
  }

  lemma RoutePromised(s: State, cfg: Config, env: Environment, req: Request, now: Time)
    ensures RoutePromise(s, Coordinator.RouteChildTask(s, cfg, env, req, now), req)
  {
    hide Inv;
    hide Added;
    hide Coordinator.RouteChildTask;
    if Inv(s) { RouteAdds(s, cfg, env, req, now); }
  }

  /** The invariant is kept, nothing is undone, and no case is written. */
  ghost predicate NoCasePromise(s: State, s': State) {
    Inv(s) ==> Inv(s') && Evolves(s, s') && CasesSame(s, s')
  }

  lemma RespondPromised(s: State, cfg: Config, agent: string, m: MessageId, outcome: ReviewOutcome, body: string, now: Time)
    ensures NoCasePromise(s, Coordinator.ReviewRespond(s, cfg, agent, m, outcome, body, now).st)
  {
    hide Inv;
    hide Evolves;
    hide CasesSame;
    hide Calm;
    hide Coordinator.ReviewRespond;
    if Inv(s) { RespondKeepsInv(s, cfg, agent, m, outcome, body, now); }
  }

  /** The receipt of a completed task is done, and if it asked for review its handoff is on disk. */
  ghost predicate DonePromise(cfg: Config, s: State, o: Outcome<()>, agent: string, m: MessageId) {
    Inv(s) && o.Ok? ==>
      && Resolve(cfg, agent).Some? && m in s.messages
      && (var k := ReceiptKey(Resolve(cfg, agent).value, m); k in o.st.receipts && o.st.receipts[k].folder == Done)
      && (s.messages[m].meta.Some? ==>
            var ref := s.messages[m].meta.value;
            && ref.run in s.runs && ref.task in s.runs[ref.run].tasks && ref.run in o.st.runs
            && (NeedsReview(s.runs[ref.run].tasks[ref.task]) ==> ref.task in o.st.runs[ref.run].handoffs))
  }

  lemma DonePromised(s: State, cfg: Config, env: Environment, agent: string, m: MessageId, now: Time)
    ensures var o := Coordinator.TaskDone(s, cfg, env, agent, m, now);
            NoCasePromise(s, o.st) && DonePromise(cfg, s, o, agent, m)
  {
    hide Inv;
    hide Evolves;
    hide CasesSame;
    hide Calm;
    hide NeedsReview;
    hide Resolve;
    hide Coordinator.TaskDone;
    if Inv(s) {
      DoneEvolves(s, cfg, env, agent, m, now);
      DoneHandsOff(s, cfg, env, agent, m, now);
    }
  }

  /** A done task that asked for review is handed off once: where it has a handoff nothing changes at all. */
  ghost predicate HandoffPromise(s: State, o: Outcome<()>, m: MessageId) {
    Inv(s) && m in s.messages ==>
      && Inv(o.st) && o.Ok?
      && (s.messages[m].meta.Some? ==>
            var ref := s.messages[m].meta.value;
            && ref.run in s.runs && ref.task in s.runs[ref.run].tasks
            && if !NeedsReview(s.runs[ref.run].tasks[ref.task]) || ref.task in s.runs[ref.run].handoffs
               then o.st == s else HandoffMade(s, o.st, ref.run, ref.task))
  }

  lemma HandoffPromised(s: State, cfg: Config, env: Environment, m: MessageId, now: Time)
    ensures HandoffPromise(s, HandoffAfterDone(s, cfg, env, m, now), m)
  {
    hide Inv;
    hide HandoffMade;
    hide NeedsReview;
    hide HandoffAfterDone;
    if Inv(s) && m in s.messages { HandoffAfterDoneKeepsInv(s, cfg, env, m, now); }
  }

  /** A wait or block on the case that holds the task writes that case alone or, when it fails, none; and
      where its routing was rejected, everything is as it was but for two revisions. */
  ghost predicate ActPromise(cfg: Config, s: State, o: Outcome<()>, run: RunId, existing: Option<BlockerCase>, k: TaskId,
                             t: TaskId, agent: AgentName, m: MessageId)
  {
    ActsOn(s, run, existing, k, t, agent, m) ==>
      && Inv(o.st) && Evolves(s, o.st) && run in s.runs && t in s.runs[run].tasks
      && (if o.Ok? then CaseStep(cfg, s, o.st, run, k, 0) && Reopened(o.st, run, k) else CasesSame(s, o.st))
      && (o.Err? && Rejection(o.error) ==> OnlyRevised(s, o.st, KeyOfTask(s.runs[run].tasks[t])))
  }

  lemma ActPromised(s: State, cfg: Config, env: Environment, run: RunId, existing: Option<BlockerCase>, k: TaskId, t: TaskId,
                    agent: AgentName, m: MessageId, d: Declared, reason: string, now: Time)
    requires run in s.runs && k in s.runs[run].tasks && t in s.runs[run].tasks
    ensures ActPromise(cfg, s, ActOnBlocker(s, cfg, env, run, existing, k, t, agent, m, d, reason, now), run, existing, k, t, agent, m)
  {
    hide Inv;
    hide Evolves;
    hide Calm;
    hide CaseStep;
    hide CasesSame;
    hide Reopened;
    hide OnlyRevised;
    hide ActOnBlocker;
    if ActsOn(s, run, existing, k, t, agent, m) {
      ActKeepsInv(s, cfg, env, run, k, t, d, reason, now);
      ActRejectedRestores(s, cfg, env, run, k, t, d, reason, now);
    }
  }

  lemma ActOutcome(s: State, cfg: Config, env: Environment, run: RunId, existing: Option<BlockerCase>, k: TaskId, t: TaskId,
                 agent: AgentName, m: MessageId, d: Declared, reason: string, now: Time) returns (o: Outcome<()>)
    requires run in s.runs && k in s.runs[run].tasks && t in s.runs[run].tasks
    ensures o == ActOnBlocker(s, cfg, env, run, existing, k, t, agent, m, d, reason, now)
    ensures ActPromise(cfg, s, o, run, existing, k, t, agent, m)
  {
    hide ActPromise;
    hide ActOnBlocker;
    ActPromised(s, cfg, env, run, existing, k, t, agent, m, d, reason, now);
    o := ActOnBlocker(s, cfg, env, run, existing, k, t, agent, m, d, reason, now);
  }

  /** A successful wait or block writes the case that holds the carried task and clears its resolution; a
      failed one writes no case. */
  ghost predicate BlockPromise(cfg: Config, s: State, o: Outcome<()>, m: MessageId) {
    Inv(s) ==> Inv(o.st) && Evolves(s, o.st) && BlockEffect(cfg, s, m, o)
  }

  lemma BlockPromised(s: State, cfg: Config, env: Environment, agent: string, m: MessageId, d: Declared, reason: string, now: Time)
    ensures BlockPromise(cfg, s, Coordinator.RecordBlocker(s, cfg, env, agent, m, d, reason, now), m)
  {
    hide Inv;
    hide Evolves;
    hide Calm;
    hide BlockEffect;
    hide Coordinator.RecordBlocker;
    if Inv(s) { RecordBlockerKeepsInv(s, cfg, env, agent, m, d, reason, now); }
  }

  /** A successful resolution writes the escalated case, and a replan with it if that was the action; a failed
      one writes neither; and where its routing was rejected, everything is as it was but for two revisions. */
  ghost predicate ResolvePromise(cfg: Config, s: State, o: Outcome<()>, opts: ResolveOpts) {
    && (Inv(s) ==> Resolves(cfg, s, opts, o))
    && (Inv(s) && Escalation(s, opts) && o.Err? && Rejection(o.error) ==>
          var rd := s.runs[opts.run];
          && rd.cases[opts.sourceTask].currentTask in rd.tasks
          && OnlyRevised(s, o.st, KeyOfTask(rd.tasks[rd.cases[opts.sourceTask].currentTask])))
  }

  lemma ResolvePromised(s: State, cfg: Config, env: Environment, opts: ResolveOpts, now: Time)
    ensures ResolvePromise(cfg, s, Coordinator.BlockerResolve(s, cfg, env, opts, now), opts)
  {
    hide Inv;
    hide Resolves;
    hide OnlyRevised;
    hide Coordinator.BlockerResolve;
    if Inv(s) {
      ResolveKeepsInv(s, cfg, env, opts, now);
      if Escalation(s, opts) { RejectedResolveRestores(s, cfg, env, opts, now); }
    }
  }

  lemma CanonicalId(t: ChildTask)
    requires TaskValid(t)
    ensures Canonical(t).id == t.id
  {
    hide Domains.Normalize;
    hide Blank;
  }

  /** An active receipt after the shutdown. */
  function StoppedReceipt(r: Receipt): Receipt {
    r.(folder := Unread, claimedBy := None, claimedAt := None, lastError := Some("session_stopped"),
       revision := r.revision + 1)
  }

  function ActiveFor(rs: Receipts, name: AgentName): set<ReceiptKey> {
    set k | k in rs && k.agent == name && rs[k].folder == Active
  }

  /** The active receipts of the agents. */
  function ActiveOf(rs: Receipts, agents: seq<Agent>): set<ReceiptKey> {
    if agents == [] then {} else ActiveOf(rs, agents[..|agents| - 1]) + ActiveFor(rs, agents[|agents| - 1].name)
  }

  function StoppedAt(was: Receipts, done: set<ReceiptKey>): Receipts {
    map k | k in was :: if k in done then StoppedReceipt(was[k]) else was[k]
  }

  lemma StopNone(was: Receipts)
    ensures StoppedAt(was, {}) == was
  {
  }

  lemma StopOther(was: Receipts, done: set<ReceiptKey>, k: ReceiptKey)
    requires k in was && k !in done
    ensures k in StoppedAt(was, done) && StoppedAt(was, done)[k] == was[k]
  {
  }

  lemma StopOne(was: Receipts, done: set<ReceiptKey>, k: ReceiptKey)
    requires k in was
    ensures StoppedAt(was, done + {k}) == StoppedAt(was, done)[k := StoppedReceipt(was[k])]
  {
  }

  lemma {:induction false} ActiveOfMeans(rs: Receipts, agents: seq<Agent>)
    ensures forall k :: k in ActiveOf(rs, agents) ==> k in rs && rs[k].folder == Active
  {
    if agents != [] { ActiveOfMeans(rs, agents[..|agents| - 1]); }
  }

  /** Stopping one agent after others is stopping them all at once. */
  lemma StopNext(was: Receipts, agents: seq<Agent>, i: nat)
    requires i < |agents|
    ensures var rs := StoppedAt(was, ActiveOf(was, agents[..i]));
            StoppedAt(rs, ActiveFor(rs, agents[i].name)) == StoppedAt(was, ActiveOf(was, agents[..i + 1]))
  {
    assert agents[..i + 1][..i] == agents[..i];
    ActiveOfMeans(was, agents[..i]);
  }

  lemma StoppedStaysOk(ms: Messages, rs: Receipts, k: ReceiptKey)
    requires k in rs && rs[k].folder == Active
    ensures ReceiptsOk(ms, rs) ==> ReceiptsOk(ms, rs[k := StoppedReceipt(rs[k])])
  {
    hide Trim;
    VisibleHead("session_stopped");
    if ReceiptsOk(ms, rs) {
      assert ReceiptOk(k, rs[k], ms);
    }
  }

  /** One turn of the inner loop. */
  lemma StopStep(s: State, was: Receipts, done: set<ReceiptKey>, k: ReceiptKey)
    requires s.receipts == StoppedAt(was, done) && k in was && k !in done && was[k].folder == Active
    ensures var o := Coordinator.Requeue(s, k);
            && (o.Ok? ==> o.st == s.(receipts := StoppedAt(was, done + {k})))
            && (ReceiptsOk(s.messages, s.receipts) ==> o.Ok? && ReceiptsOk(s.messages, StoppedAt(was, done + {k})))
            && (Inv(s) ==> Inv(o.st))
  {
    hide Inv;
    hide ReceiptsOk;
    hide StoppedAt;
    hide StoppedReceipt;
    hide Coordinator.Requeue;
    StopOther(was, done, k);
    if Inv(s) { RequeueKeepsInv(s, k); }
    RequeueStops(s, k);
    StopOne(was, done, k);
    StoppedStaysOk(s.messages, s.receipts, k);
  }

  lemma RequeueStops(s: State, k: ReceiptKey)
    requires k in s.receipts && s.receipts[k].folder == Active
    ensures var o := Coordinator.Requeue(s, k);
            && (o.Ok? ==> o.st == s.(receipts := s.receipts[k := StoppedReceipt(s.receipts[k])]))
            && (ReceiptsOk(s.messages, s.receipts) ==> o.Ok?)
  {
    hide Trim;
    VisibleHead("session_stopped");
    if ReceiptsOk(s.messages, s.receipts) { assert ReceiptOk(k, s.receipts[k], s.messages); }
    var s1 := Coordinator.UpdateReceipt(s, k, StopSession());
    if s1.Ok? {
      assert Coordinator.MoveReceipt(s1.st, k, Active, Unread).Ok? ==>
               Coordinator.MoveReceipt(s1.st, k, Active, Unread).st.receipts
               == s.receipts[k := StoppedReceipt(s.receipts[k])];
    }
  }
}
