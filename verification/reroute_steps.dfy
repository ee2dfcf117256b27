/** Taking a task out of the way, routing in its place, and putting it back when routing fails. */
module RerouteSteps {
  import opened Wrappers
  import opened Text
  import opened Protocol
  import opened Routing
  import opened Coordinator
  import opened Invariant
  import opened TaskSteps

  function Suspended(r: Receipt): Receipt {
    r.(folder := Dead, claimedBy := None, claimedAt := None, doneAt := None, revision := r.revision + 1)
  }

  predicate Live(s: State, k: ReceiptKey) {
    k in s.receipts && !Finished(s.receipts[k].folder)
  }

  /** The state after the suspension of k, which does nothing to a finished receipt. */
  function SuspendedState(s: State, k: ReceiptKey): State {
    if Live(s, k) then s.(receipts := s.receipts[k := Suspended(s.receipts[k])]) else s
  }

  /** What a rejected reroute leaves of the receipts: two revisions more, and nothing else. */
  function RestoredReceipts(s: State, k: ReceiptKey): Receipts {
    if Live(s, k) then s.receipts[k := s.receipts[k].(revision := s.receipts[k].revision + 2)] else s.receipts
  }

  lemma SuspendIs(s: State, k: ReceiptKey)
    requires ReceiptsOk(s.messages, s.receipts)
    ensures SuspendReceipt(s, k)
            == if k !in s.receipts then Err(s, Missing)
               else Ok(SuspendedState(s, k), if Live(s, k) then Some(s.receipts[k]) else None)
  {
    if Live(s, k) {
      assert ReceiptOk(k, s.receipts[k], s.messages);
      var s1 := UpdateReceipt(s, k, Suspend()).st;
      assert MoveReceipt(s1, k, s.receipts[k].folder, Dead).st.receipts
             == s.receipts[k := Suspended(s.receipts[k])];
    }
  }

  lemma RestoreIs(s: State, s2: State, k: ReceiptKey)
    requires ReceiptsOk(s.messages, s.receipts) && k in s.receipts
    requires s2.receipts == SuspendedState(s, k).receipts
    ensures RestoreReceipt(s2, k, if Live(s, k) then Some(s.receipts[k]) else None)
            == Ok(s2.(receipts := RestoredReceipts(s, k)), ())
  {
    if Live(s, k) {
      var r := s.receipts[k];
      assert ReceiptOk(k, r, s.messages);
      var s3 := MoveReceipt(s2, k, Dead, r.folder);
      assert s3.Ok?;
      assert UpdateReceipt(s3.st, k, Restore(r)).st.receipts == RestoredReceipts(s, k);
    }
  }

  lemma SuspendedKeepsInv(s: State, k: ReceiptKey)
    requires Inv(s)
    ensures Inv(SuspendedState(s, k))
    ensures Inv(s.(receipts := RestoredReceipts(s, k)))
    ensures Grows(s.messages, s.receipts, SuspendedState(s, k).messages, SuspendedState(s, k).receipts)
  {
    hide RunsOk;
    if Live(s, k) {
      var r := s.receipts[k];
      assert ReceiptOk(k, r, s.messages);
      SetReceiptKeepsInv(s, k, Suspended(r));
      SetReceiptKeepsInv(s, k, r.(revision := r.revision + 2));
    }
  }

  /** Routing in place of a task either succeeds, and then adds one task to the suspended state,
      or fails, and then restores everything but the revision of a receipt that was live. */
  lemma RoutedOrRestored(s: State, cfg: Config, env: Environment, k: ReceiptKey, req: Request, now: Time)
    requires Inv(s)
    ensures var o := RouteInPlaceOf(s, cfg, env, k, req, now);
            && Inv(o.st)
            && (o.Ok? ==>
                  && k in s.receipts
                  && Added(SuspendedState(s, k), o.st, req.run, o.value)
                  && o.value.Class() == Some(req.taskClass)
                  && o.value.dependsOn == [] && o.value.reviewRequired == req.reviewRequired)
            && (o.Err? ==>
                  && o.st == s.(seqno := o.st.seqno, receipts := RestoredReceipts(s, k))
                  && (o.st.seqno == s.seqno || o.st.seqno == s.seqno + 2)
                  && (Rejection(o.error) ==> o.st.seqno == s.seqno))
  {
    hide RouteChildTask;
    hide Added;
    hide RunsOk;
    hide IdsOk;
    hide MetasOk;
    hide RestoreReceipt;
    hide SuspendReceipt;
    SuspendIs(s, k);
    if k in s.receipts {
      SuspendedKeepsInv(s, k);
      var s1 := SuspendedState(s, k);
      RouteAdds(s1, cfg, env, req, now);
      var o := RouteChildTask(s1, cfg, env, req, now);
      if o.Err? {
        RestoreIs(s, o.st, k);
        var restored := s.(receipts := RestoredReceipts(s, k));
        BumpKeepsInv(restored, o.st.seqno);
      }
    }
  }

  /** A task routed in place of another one: the other is finished from now on. */
  lemma RoutedGrows(s: State, s': State, k: ReceiptKey, r: RunId, t: ChildTask)
    requires Inv(s) && k in s.receipts && Added(SuspendedState(s, k), s', r, t)
    ensures Inv(s') && Grows(s.messages, s.receipts, s'.messages, s'.receipts)
    ensures k in s'.receipts && Finished(s'.receipts[k].folder)
  {
    hide Inv;
    hide Added;
    var s1 := SuspendedState(s, k);
    SuspendedKeepsInv(s, k);
    AddedKeepsInv(s1, s', r, t);
    assert k in s1.receipts && Finished(s1.receipts[k].folder);
    GrowsTransitive(s.messages, s.receipts, s1.messages, s1.receipts, s'.messages, s'.receipts);
  }
}
