/** The mailbox commands keep the invariant, whatever their arguments. */
module ReceiptSteps {
  import opened Wrappers
  import opened Text
  import opened Protocol
  import opened Coordinator
  import opened Invariant

  // -------------------------------------------------------- receipts

  lemma UpdateReceiptKeepsInv(s: State, k: ReceiptKey, fn: Receipt -> Receipt)
    requires Inv(s)
    requires k in s.receipts ==> fn(s.receipts[k]).doneAt.None? || s.receipts[k].folder != Active
    ensures Inv(UpdateReceipt(s, k, fn).st)
  {
    hide RunsOk;
    hide ReceiptValid;
    if k in s.receipts {
      assert ReceiptOk(k, s.receipts[k], s.messages);
      var r := fn(s.receipts[k]);
      if r.folder == s.receipts[k].folder && ReceiptValid(r) {
        SetReceiptKeepsInv(s, k, r);
      }
    }
  }

  lemma MoveReceiptKeepsInv(s: State, k: ReceiptKey, from: Folder, to: Folder)
    requires Inv(s) && !Finished(from) && (to == Active ==> from == Unread)
    ensures Inv(MoveReceipt(s, k, from, to).st)
  {
    hide RunsOk;
    if k in s.receipts {
      assert ReceiptOk(k, s.receipts[k], s.messages);
      if s.receipts[k].folder == from && ReceiptValid(s.receipts[k].(folder := to)) {
        SetReceiptKeepsInv(s, k, s.receipts[k].(folder := to));
      }
    }
  }

  /** Completion sets the time while the receipt is still active, so the two steps go together. */
  lemma CompleteKeepsInv(s: State, k: ReceiptKey, now: Time)
    requires Inv(s) && k in s.receipts && s.receipts[k].folder == Active
    ensures var o := UpdateReceipt(s, k, Complete(now));
            var o2 := MoveReceipt(o.st, k, Active, Done);
            && o.Ok? && o2.Ok? && Inv(o2.st)
            && o2.st == s.(receipts := s.receipts[k := Complete(now)(s.receipts[k]).(folder := Done)])
  {
    hide RunsOk;
    assert ReceiptOk(k, s.receipts[k], s.messages);
    SetReceiptKeepsInv(s, k, Complete(now)(s.receipts[k]).(folder := Done));
    var o := UpdateReceipt(s, k, Complete(now));
    assert MoveReceipt(o.st, k, Active, Done).st.receipts
           == s.receipts[k := Complete(now)(s.receipts[k]).(folder := Done)];
  }

  lemma ReadMsgKeepsInv(s: State, cfg: Config, agent: string, m: MessageId, now: Time)
    requires Inv(s)
    ensures var o := ReadMsg(s, cfg, agent, m, now);
            && Inv(o.st) && o.st.runs == s.runs && o.st.messages == s.messages && o.st.seqno == s.seqno
            && SameProgress(s.receipts, o.st.receipts)
            && (o.Ok? ==> m in s.messages && o.value == s.messages[m])
  {
    hide Resolve;
    hide RunsOk;
    hide IdsOk;
    hide MetasOk;
    hide Trim;
    var name := Resolve(cfg, agent);
    if name.Some? && ReceiptKey(name.value, m) in s.receipts {
      var k := ReceiptKey(name.value, m);
      assert ReceiptOk(k, s.receipts[k], s.messages);
      UpdateReceiptKeepsInv(s, k, Acknowledge(now));
      MoveReceiptKeepsInv(UpdateReceipt(s, k, Acknowledge(now)).st, k, Unread, Active);
    }
  }

  /** The same receipts, the finished ones where they were and no other one finished. */
  ghost predicate SameProgress(rs: Receipts, rs': Receipts) {
    rs'.Keys == rs.Keys
    && forall k :: k in rs ==> (Finished(rs[k].folder) ==> rs'[k].folder == rs[k].folder)
                               && (Finished(rs'[k].folder) ==> Finished(rs[k].folder))
                               && (rs[k].folder == Active ==> rs'[k] == rs[k])
  }

  lemma LoadActiveKeepsInv(s: State, cfg: Config, agent: string, m: MessageId, now: Time)
    requires Inv(s)
    ensures var o := LoadActiveTask(s, cfg, agent, m, now);
            && Inv(o.st) && o.st.runs == s.runs && o.st.messages == s.messages && o.st.seqno == s.seqno
            && SameProgress(s.receipts, o.st.receipts)
            && (o.Ok? ==>
                  var k := ReceiptKey(o.value.agent, m);
                  && m in s.messages && o.value.msg == s.messages[m] && s.messages[m].to == o.value.agent
                  && k in s.receipts && s.receipts[k].folder == Active
                  && k in o.st.receipts && o.st.receipts[k] == s.receipts[k])
  {
    hide RunsOk;
    hide Resolve;
    hide ReadMsg;
    var name := Resolve(cfg, agent);
    if name.Some? && ReceiptKey(name.value, m) in s.receipts {
      assert ReceiptOk(ReceiptKey(name.value, m), s.receipts[ReceiptKey(name.value, m)], s.messages);
      ReadMsgKeepsInv(s, cfg, name.value, m, now);
    }
  }

  lemma AcceptKeepsInv(s: State, cfg: Config, agent: string, m: MessageId, now: Time)
    requires Inv(s)
    ensures var o := TaskAccept(s, cfg, agent, m, now);
            && Inv(o.st) && o.st.runs == s.runs && o.st.messages == s.messages && o.st.seqno == s.seqno
            && Grows(s.messages, s.receipts, o.st.messages, o.st.receipts)
  {
    hide RunsOk;
    hide IdsOk;
    hide MetasOk;
    hide ReceiptValid;
    hide Resolve;
    hide ReadMsg;
    var name := Resolve(cfg, agent);
    if name.Some? {
      ReadMsgKeepsInv(s, cfg, name.value, m, now);
      var s1, k := ReadMsg(s, cfg, name.value, m, now).st, ReceiptKey(name.value, m);
      if k in s1.receipts {
        assert ReceiptOk(k, s1.receipts[k], s1.messages);
      }
      UpdateReceiptKeepsInv(s1, k, Claim(name.value, now));
    }
  }

  /** Who has accepted a task holds its claim, and nobody's claim is ever taken away. */
  lemma AcceptClaims(s: State, cfg: Config, agent: string, m: MessageId, now: Time)
    ensures var o := TaskAccept(s, cfg, agent, m, now);
            && (o.Ok? ==>
                  && Resolve(cfg, agent).Some? && m in s.messages
                  && (s.messages[m].requiresClaim ==>
                        var k := ReceiptKey(Resolve(cfg, agent).value, m);
                        k in o.st.receipts && o.st.receipts[k].claimedBy == Some(k.agent)))
            && (forall k :: k in s.receipts ==>
                  k in o.st.receipts && (s.receipts[k].claimedBy.Some? ==> o.st.receipts[k].claimedBy == s.receipts[k].claimedBy))
  {
    hide ReceiptValid;
    hide Resolve;
    hide ReadMsg;
    var name := Resolve(cfg, agent);
    if name.Some? {
      ReadKeepsClaims(s, cfg, name.value, m, now);
    }
  }

  lemma ReadKeepsClaims(s: State, cfg: Config, agent: string, m: MessageId, now: Time)
    ensures var o := ReadMsg(s, cfg, agent, m, now);
            && o.st.messages == s.messages && o.st.receipts.Keys == s.receipts.Keys
            && (o.Ok? ==> m in s.messages && o.value == s.messages[m])
            && (forall k :: k in s.receipts ==> k in o.st.receipts && o.st.receipts[k].claimedBy == s.receipts[k].claimedBy)
  {
    hide ReceiptValid;
    hide Resolve;
  }

  /** What was read is not unread any more. */
  lemma ReadIsRead(s: State, cfg: Config, agent: string, m: MessageId, now: Time)
    ensures var o := ReadMsg(s, cfg, agent, m, now);
            o.Ok? ==> && Resolve(cfg, agent).Some?
                      && var k := ReceiptKey(Resolve(cfg, agent).value, m);
                         k in o.st.receipts && o.st.receipts[k].folder != Unread
  {
    hide ReceiptValid;
    hide Resolve;
  }

  lemma RequeueKeepsInv(s: State, k: ReceiptKey)
    requires Inv(s)
    ensures var o := Requeue(s, k);
            && Inv(o.st) && o.st.runs == s.runs && o.st.messages == s.messages && o.st.seqno == s.seqno
            && Grows(s.messages, s.receipts, o.st.messages, o.st.receipts)
  {
    hide RunsOk;
    hide IdsOk;
    hide MetasOk;
    if k in s.receipts && s.receipts[k].folder == Active {
      assert ReceiptOk(k, s.receipts[k], s.messages);
      UpdateReceiptKeepsInv(s, k, StopSession());
      MoveReceiptKeepsInv(UpdateReceipt(s, k, StopSession()).st, k, Active, Unread);
    }
  }

  lemma SendKeepsInv(s: State, cfg: Config, to: string, from: AgentName, kind: Kind, thread: Option<ThreadId>,
                     replyTo: Option<MessageId>, body: string)
    requires Inv(s)
    ensures var o := Send(s, cfg, to, from, kind, thread, replyTo, body);
            && Inv(o.st) && o.st.runs == s.runs
            && Grows(s.messages, s.receipts, o.st.messages, o.st.receipts)
            && (o.Ok? ==> o.value in o.st.messages)
  {
    hide Inv;
    hide Resolve;
    hide Trim;
    var name := Resolve(cfg, to);
    if name.Some? {
      var id := s.seqno + 1;
      DeliverPlain(s, id, Message(if thread.Some? then thread.value else id, kind, from, name.value, replyTo, false, None));
    }
  }
}
