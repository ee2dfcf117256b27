/** The mailbox store on its files, as one process runs it, and how that matches the step protocol. */
module MailboxStore {
  import opened Wrappers
  import opened Protocol
  import opened ReceiptProtocol
  import ReceiptHistories
  import opened ReceiptRetries

  /** One receipt file: its name is made of the sequence number and the message id. */
  datatype Slot = Slot(agent: AgentName, folder: Folder, message: MessageId)

  /** Length and digest as the envelope records them. */
  datatype Envelope = Envelope(sha: string, bytes: nat, meta: Option<TaskRef>)

  /** A message directory, possibly half written. */
  datatype Draft = Draft(envelope: Option<Envelope>, body: Option<string>)

  datatype StoreError = NotFound | Exists | Mismatch | WrongFolder | NotValid

  // --------------------------------------------- a receipt operation alone

  function FirstOf(files: Copies): Option<Folder> {
    if Unread in files then Some(Unread)
    else if Active in files then Some(Active)
    else if Done in files then Some(Done)
    else if Dead in files then Some(Dead)
    else None
  }

  lemma FirstOfIsFirst(files: Copies, f: Folder)
    ensures FirstOf(files) == Some(f) <==> IsFirst(files, f)
  {
    if FirstOf(files) == Some(f) {
      forall g | g in files ensures Rank(f) <= Rank(g) {
        assert g == Unread || g == Active || g == Done || g == Dead;
      }
    }
    if IsFirst(files, f) {
      assert f == Unread || f == Active || f == Done || f == Dead;
    }
  }

  /** What an update or move does to the copies when nothing else runs: it works on the first copy,
      and a move writes its destination before it removes its source. */
  function Alone(files: Copies, op: Op): (Copies, bool) {
    match FirstOf(files)
    case None => (files, false)
    case Some(f) =>
      if !Writable(op, f, files[f]) then (files, false)
      else
        var doc := Written(op, files[f]);
        var files1 := files[doc.folder := doc];
        (if op.Move? then files1 - {op.from} else files1, true)
  }

  /** The step protocol, left to itself, does exactly that. */
  lemma AloneRuns(s: System, p: Pid)
    requires p in s.procs && !s.procs[p].op.Lookup? && s.procs[p].pc.Idle? && s.lock.None? && s.files != map[]
    ensures exists n :: && Steps(s, p, n).files == Alone(s.files, s.procs[p].op).0
                        && Steps(s, p, n).lock.None?
                        && Steps(s, p, n).procs
                           == s.procs[p := Proc(s.procs[p].op, Ended(Alone(s.files, s.procs[p].op).1))]
  {
    hide Steps;
    hide ReceiptValid;
    var op := s.procs[p].op;
    ReceiptHistories.SomeFirst(s.files);
    var f :| IsFirst(s.files, f);
    FirstOfIsFirst(s.files, f);
    if !Writable(op, f, s.files[f]) {
      RefusedAlone(s, p, f);
      assert Steps(s, p, Rank(f) + 4).lock.None?;
    } else if op.Move? {
      MoveFinishes(s, p);
      assert Steps(s, p, Rank(f) + 6).lock.None?;
    } else {
      UpdateAlone(s, p, f);
      assert Steps(s, p, Rank(f) + 5).lock.None?;
    }
  }

  /** On a receipt with one copy a move from its folder leaves one copy in the destination; a move
      from a folder to itself deletes the receipt. */
  lemma OneCopyMoves(r: Receipt, to: Folder)
    requires ReceiptValid(r.(folder := to))
    ensures Alone(map[r.folder := r], Move(r.folder, to))
            == (if to == r.folder then map[] else map[to := r.(folder := to)], true)
  {
    hide ReceiptValid;
    var files: Copies := map[r.folder := r];
    assert IsFirst(files, r.folder);
    FirstOfIsFirst(files, r.folder);
    assert files[to := r.(folder := to)] - {r.folder} == if to == r.folder then map[] else map[to := r.(folder := to)];
  }

  function CopiesIn(inbox: map<Slot, Receipt>, agent: AgentName, m: MessageId): Copies {
    map f | f in {Unread, Active, Done, Dead} && Slot(agent, f, m) in inbox :: inbox[Slot(agent, f, m)]
  }

  lemma CopyAt(inbox: map<Slot, Receipt>, agent: AgentName, m: MessageId, f: Folder)
    ensures f in CopiesIn(inbox, agent, m) <==> Slot(agent, f, m) in inbox
    ensures f in CopiesIn(inbox, agent, m) ==> CopiesIn(inbox, agent, m)[f] == inbox[Slot(agent, f, m)]
  {
    assert f == Unread || f == Active || f == Done || f == Dead;
  }

  lemma PutCopy(inbox: map<Slot, Receipt>, agent: AgentName, m: MessageId, f: Folder, r: Receipt)
    ensures CopiesIn(inbox[Slot(agent, f, m) := r], agent, m) == CopiesIn(inbox, agent, m)[f := r]
  {
    assert f == Unread || f == Active || f == Done || f == Dead;
  }

  lemma DropCopy(inbox: map<Slot, Receipt>, agent: AgentName, m: MessageId, f: Folder)
    ensures CopiesIn(inbox - {Slot(agent, f, m)}, agent, m) == CopiesIn(inbox, agent, m) - {f}
  {
  }

  // ------------------------------------------------------------ the store

  class Store {
    var inbox: map<Slot, Receipt>
    var counter: Option<nat>
    var staging: map<MessageId, Draft>
    var committed: map<MessageId, Draft>
    const digest: string -> string
    const wellFormed: Envelope -> bool

    constructor (digest: string -> string, wellFormed: Envelope -> bool)
      ensures inbox == map[] && counter == None && staging == map[] && committed == map[]
      ensures this.digest == digest && this.wellFormed == wellFormed
    {
      inbox, counter, staging, committed := map[], None, map[], map[];
      this.digest, this.wellFormed := digest, wellFormed;
    }

    /** The copies of one receipt. */
    function CopiesOf(agent: AgentName, m: MessageId): Copies
      reads this
    {
      CopiesIn(inbox, agent, m)
    }

    /** Nothing but the copies of this receipt changes. */
    twostate predicate OnlyReceipt(agent: AgentName, m: MessageId)
      reads this
    {
      forall x: Slot :: x.agent != agent || x.message != m ==>
        (x in inbox <==> x in old(inbox)) && (x in inbox ==> inbox[x] == old(inbox[x]))
    }

    /** The folder scan in its fixed order. */
    method FindReceiptPath(agent: AgentName, m: MessageId) returns (found: Option<Folder>)
      ensures found == FirstOf(CopiesOf(agent, m))
    {
      var folders := [Unread, Active, Done, Dead];
      for i := 0 to |folders|
        invariant forall j :: 0 <= j < i ==> Slot(agent, folders[j], m) !in inbox
      {
        if Slot(agent, folders[i], m) in inbox {
          CopyAt(inbox, agent, m, Unread);
          CopyAt(inbox, agent, m, Active);
          CopyAt(inbox, agent, m, Done);
          CopyAt(inbox, agent, m, Dead);
          assert Slot(agent, Unread, m) !in inbox || i == 0 by { if i > 0 { assert folders[0] == Unread; } }
          assert Slot(agent, Active, m) !in inbox || i <= 1 by { if i > 1 { assert folders[1] == Active; } }
          assert Slot(agent, Done, m) !in inbox || i <= 2 by { if i > 2 { assert folders[2] == Done; } }
          return Some(folders[i]);
        }
      }
      assert folders[0] == Unread && folders[1] == Active && folders[2] == Done && folders[3] == Dead;
      return None;
    }

    method UpdateReceipt(agent: AgentName, m: MessageId, fn: Receipt -> Receipt) returns (ok: bool)
      modifies this`inbox
      ensures (CopiesOf(agent, m), ok) == Alone(old(CopiesOf(agent, m)), Update(fn))
      ensures OnlyReceipt(agent, m)
    {
      hide ReceiptValid;
      hide CopiesIn;
      var found := FindReceiptPath(agent, m);
      if found.None? {
        return false;
      }
      var folder := found.value;
      var path := Slot(agent, folder, m);
      CopyAt(inbox, agent, m, folder);
      var receipt := inbox[path];
      var originalFolder := receipt.folder;
      receipt := fn(receipt);
      if receipt.folder != originalFolder || receipt.folder != folder || !ReceiptValid(receipt) {
        return false;
      }
      PutCopy(inbox, agent, m, folder, receipt);
      inbox := inbox[path := receipt];
      return true;
    }

    /** Destination first, then the source goes. */
    method MoveReceipt(agent: AgentName, m: MessageId, from: Folder, to: Folder) returns (ok: bool)
      modifies this`inbox
      ensures (CopiesOf(agent, m), ok) == Alone(old(CopiesOf(agent, m)), Move(from, to))
      ensures OnlyReceipt(agent, m)
    {
      hide ReceiptValid;
      hide CopiesIn;
      var found := FindReceiptPath(agent, m);
      if found.None? || found.value != from {
        return false;
      }
      var path := Slot(agent, from, m);
      CopyAt(inbox, agent, m, from);
      var receipt := inbox[path];
      receipt := receipt.(folder := to);
      if !ReceiptValid(receipt) {
        return false;
      }
      PutCopy(inbox, agent, m, to, receipt);
      inbox := inbox[Slot(agent, to, m) := receipt];
      DropCopy(inbox, agent, m, from);
      inbox := inbox - {path};
      return true;
    }

    /** A receipt file is created once. */
    method CreateReceipt(agent: AgentName, m: MessageId, r: Receipt) returns (e: Option<StoreError>)
      modifies this`inbox
      ensures e.None? <==> ReceiptValid(r) && old(Slot(agent, r.folder, m) !in inbox)
      ensures inbox == if e.None? then old(inbox)[Slot(agent, r.folder, m) := r] else old(inbox)
    {
      hide ReceiptValid;
      if !ReceiptValid(r) {
        return Some(NotValid);
      }
      if Slot(agent, r.folder, m) in inbox {
        return Some(Exists);
      }
      inbox := inbox[Slot(agent, r.folder, m) := r];
      return None;
    }

    /** The next-seq file: a missing one counts as zero. */
    method AllocateSeq() returns (next: nat)
      modifies this`counter
      ensures next == (if old(counter).Some? then old(counter).value else 0) + 1
      ensures counter == Some(next)
    {
      var current := 0;
      if counter.Some? {
        current := counter.value;
      }
      next := current + 1;
      counter := Some(next);
    }

    predicate BodyMatches(env: Envelope, body: string) {
      env.sha == digest(body) && env.bytes == |body|
    }

    /** A message is written aside and then moved into place, unless its id is taken. */
    method CreateMessage(id: MessageId, env: Envelope, body: string) returns (e: Option<StoreError>)
      modifies this`staging, this`committed
      ensures e.None? <==> wellFormed(env) && BodyMatches(env, body) && id !in old(committed)
      ensures committed == if e.None? then old(committed)[id := Draft(Some(env), Some(body))] else old(committed)
      ensures staging == if wellFormed(env) && BodyMatches(env, body) then old(staging) - {id} else old(staging)
    {
      if !wellFormed(env) {
        return Some(NotValid);
      }
      if !BodyMatches(env, body) {
        return Some(Mismatch);
      }
      staging := staging - {id};
      staging := staging[id := Draft(Some(env), None)];
      staging := staging[id := staging[id].(body := Some(body))];
      if id in committed {
        staging := staging - {id};
        return Some(Exists);
      }
      committed := committed[id := staging[id]];
      staging := staging - {id};
      return None;
    }

    method ReadMessage(id: MessageId) returns (r: Result<(Envelope, string), StoreError>)
      ensures r.Success? <==> && id in committed && committed[id].envelope.Some? && committed[id].body.Some?
                              && wellFormed(committed[id].envelope.value)
                              && BodyMatches(committed[id].envelope.value, committed[id].body.value)
      ensures r.Success? ==> committed[id] == Draft(Some(r.value.0), Some(r.value.1))
    {
      if id !in committed || committed[id].envelope.None? {
        return Failure(NotFound);
      }
      var env := committed[id].envelope.value;
      if !wellFormed(env) {
        return Failure(NotValid);
      }
      if committed[id].body.None? {
        return Failure(NotFound);
      }
      var body := committed[id].body.value;
      if !BodyMatches(env, body) {
        return Failure(Mismatch);
      }
      return Success((env, body));
    }
  }
}
