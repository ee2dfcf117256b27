/** When a lookup without the lock misses the receipt: exactly when a backward move passes behind it. */
module ReceiptLookups {
  import opened Wrappers
  import opened Protocol
  import opened ReceiptProtocol
  import opened ReceiptSchedules

  ghost predicate Looks(s: System, p: Pid) {
    p in s.procs && s.procs[p].op.Lookup? && s.procs[p].pc.Scanning?
  }

  /** No copy is left at the place the lookup has come to or further on. */
  ghost predicate Blind(s: System, p: Pid)
    requires Looks(s, p)
  {
    forall f :: f in s.files ==> Rank(f) < s.procs[p].pc.i
  }

  /** The event takes the last copy from in front of the lookup: the removal of a source at or ahead of its
      place, by a move whose destination is behind. */
  ghost predicate Hides(s: System, e: Event, p: Pid) {
    && Looks(s, p) && e.Go? && e.p in s.procs && s.procs[e.p].pc.Removing? && s.procs[e.p].op.Move?
    && var op, i := s.procs[e.p].op, s.procs[p].pc.i;
       && Rank(op.to) < i <= Rank(op.from) && op.from in s.files
       && forall f :: f in s.files && f != op.from ==> Rank(f) < i
  }

  /** The event writes a copy in front of the lookup. */
  ghost predicate Reveals(s: System, e: Event, p: Pid) {
    && Looks(s, p) && e.Go? && e.p in s.procs && s.procs[e.p].pc.Writing?
    && Rank(s.procs[e.p].pc.doc.folder) >= s.procs[p].pc.i
  }

  // -------------------------------------------------------- one event

  /** Another process's event: the lookup is blind after it exactly when it hides the receipt, or when the
      lookup was blind and nothing is revealed. */
  lemma OtherBlinds(s: System, e: Event, p: Pid)
    requires Sane(s) && Looks(s, p) && e.p != p
    ensures Looks(Do(s, e), p) && Do(s, e).procs[p] == s.procs[p]
    ensures Blind(Do(s, e), p) <==> Hides(s, e, p) || (Blind(s, p) && !Reveals(s, e, p))
  {
    hide FilesOk;
    match e
    case Kill(q) =>
    case Go(q) =>
      if q in s.procs && s.procs[q].pc.Removing? {
        RemovalBlinds(s, q, p);
      } else if q in s.procs && s.procs[q].pc.Writing? {
        WriteBlinds(s, q, p);
      } else {
        QuietStep(s, q);
      }
  }

  lemma WriteBlinds(s: System, q: Pid, p: Pid)
    requires Sane(s) && Looks(s, p) && q != p && q in s.procs && s.procs[q].pc.Writing?
    ensures Looks(Step(s, q), p) && !Hides(s, Go(q), p)
    ensures Blind(Step(s, q), p) <==> Blind(s, p) && !Reveals(s, Go(q), p)
  {
    hide ReceiptValid;
    hide FilesOk;
    var s', doc := Step(s, q), s.procs[q].pc.doc;
    assert s'.files == s.files[doc.folder := doc];
    assert doc.folder in s'.files;
    forall f | f in s.files ensures f in s'.files {}
  }

  lemma RemovalBlinds(s: System, q: Pid, p: Pid)
    requires Sane(s) && Looks(s, p) && q != p && q in s.procs && s.procs[q].pc.Removing?
    ensures Looks(Step(s, q), p)
    ensures Blind(Step(s, q), p) <==> Hides(s, Go(q), p) || (Blind(s, p) && !Reveals(s, Go(q), p))
  {
    hide ReceiptValid;
    hide FilesOk;
    var s', op := Step(s, q), s.procs[q].op;
    assert s.lock == Some(q) && HolderKnows(s.files, s.procs[q]);
    assert s'.files == s.files - {op.from};
    forall f ensures f in s'.files <==> f in s.files && f != op.from {}
    assert op.to in s'.files;
  }

  /** The lookup's own step: it goes on as blind as it was, and ends with what it was not blind to. */
  lemma OwnStep(s: System, p: Pid)
    requires Sane(s) && Looks(s, p)
    ensures var s' := Step(s, p);
            && p in s'.procs && s'.procs[p].op == s.procs[p].op && s'.files == s.files
            && (s'.procs[p].pc.Scanning? || s'.procs[p].pc.Ended?)
            && (s'.procs[p].pc.Scanning? ==> (Blind(s', p) <==> Blind(s, p)))
            && (s'.procs[p].pc.Ended? ==> (s'.procs[p].pc == Ended(false) <==> Blind(s, p)))
  {
    hide ReceiptValid;
    var i := s.procs[p].pc.i;
    forall f | f in s.files ensures Rank(f) < 4 && (Rank(f) == i ==> i < 4 && f == FolderAt(i)) {
      if Rank(f) == i { RankInjective(f, FolderAt(i)); }
    }
  }

  // ------------------------------------------------------- whole schedules

  ghost predicate HidesAt(s: System, events: seq<Event>, p: Pid, k: nat)
    requires k < |events|
  {
    Hides(Run(s, events[..k]), events[k], p)
  }

  ghost predicate RevealsAt(s: System, events: seq<Event>, p: Pid, k: nat)
    requires k < |events|
  {
    Reveals(Run(s, events[..k]), events[k], p)
  }

  /** At some event the receipt was hidden from the lookup, and nothing has revealed it since. */
  ghost predicate Hidden(s: System, events: seq<Event>, p: Pid) {
    exists k: nat :: k < |events| && HidesAt(s, events, p, k) && forall j :: k < j < |events| ==> !RevealsAt(s, events, p, j)
  }

  lemma HiddenStep(s: System, events: seq<Event>, p: Pid)
    requires events != []
    ensures var n, before := |events| - 1, events[..|events| - 1];
            Hidden(s, events, p) <==> HidesAt(s, events, p, n) || (Hidden(s, before, p) && !RevealsAt(s, events, p, n))
  {
    hide Hides;
    hide Reveals;
    hide Run;
    var n, before := |events| - 1, events[..|events| - 1];
    forall k: nat | k < n
      ensures HidesAt(s, events, p, k) <==> HidesAt(s, before, p, k)
      ensures RevealsAt(s, events, p, k) <==> RevealsAt(s, before, p, k)
    {
      assert before[..k] == events[..k];
    }
    hide HidesAt;
    hide RevealsAt;
    if Hidden(s, before, p) && !RevealsAt(s, events, p, n) {
      var k: nat :| k < |before| && HidesAt(s, before, p, k) && forall j :: k < j < |before| ==> !RevealsAt(s, before, p, j);
      assert HidesAt(s, events, p, k);
    }
    if Hidden(s, events, p) && !HidesAt(s, events, p, n) {
      var k: nat :| k < |events| && HidesAt(s, events, p, k) && forall j :: k < j < |events| ==> !RevealsAt(s, events, p, j);
      assert HidesAt(s, before, p, k);
    }
  }

  /** What a lookup that has begun has to do with what was hidden from it. */
  ghost predicate Exact(t: System, p: Pid, hidden: bool) {
    p in t.procs && t.procs[p].op.Lookup?
    && match t.procs[p].pc
       case Scanning(_) => Blind(t, p) <==> hidden
       case Ended(ok) => !ok <==> hidden
       case Crashed => true
       case _ => t.procs[p].pc.Idle? && !hidden
  }

  lemma EventExact(t: System, e: Event, p: Pid, hidden: bool)
    requires Sane(t) && Exact(t, p, hidden)
    ensures Exact(Do(t, e), p, Hides(t, e, p) || (hidden && !Reveals(t, e, p)))
  {
    hide ReceiptValid;
    hide HolderKnows;
    if Looks(t, p) {
      if e.p != p {
        OtherBlinds(t, e, p);
      } else {
        OwnStep(t, p);
        hide Blind;
        hide Sane;
      }
    } else if e == Go(p) && t.procs[p].pc.Idle? {
      var f :| f in t.files;
    }
  }

  lemma {:induction false} AlwaysExact(s: System, events: seq<Event>, p: Pid)
    requires Initial(s) && p in s.procs && s.procs[p].op.Lookup?
    ensures Exact(Run(s, events), p, Hidden(s, events, p))
  {
    hide Sane;
    hide FilesOk;
    hide Hidden;
    hide Do;
    if events == [] {
      assert !Hidden(s, [], p) by { NothingHidden(s, p); }
    } else {
      var before := events[..|events| - 1];
      AlwaysExact(s, before, p);
      AlwaysSane(s, before);
      HiddenStep(s, events, p);
      EventExact(Run(s, before), events[|events| - 1], p, Hidden(s, before, p));
    }
  }

  lemma NothingHidden(s: System, p: Pid)
    ensures !Hidden(s, [], p)
  {
  }

  /** Over every schedule with any crashes: a lookup that has come to its end comes back empty-handed exactly
      when a backward move took the last copy from in front of it and nothing was written in front of it
      afterwards. */
  lemma LookupMissesExactly(s: System, events: seq<Event>, p: Pid)
    requires Initial(s) && p in s.procs && s.procs[p].op.Lookup?
    ensures var t := Run(s, events);
            p in t.procs && (t.procs[p].pc.Ended? ==> (t.procs[p].pc == Ended(false) <==> Hidden(s, events, p)))
  {
    hide Hidden;
    AlwaysExact(s, events, p);
  }

  /** All moves go forward in the order unread, active, done, dead. */
  ghost predicate ForwardOnly(s: System) {
    forall p :: p in s.procs && s.procs[p].op.Move? ==> Rank(s.procs[p].op.from) < Rank(s.procs[p].op.to)
  }

  /** A lookup without the lock always finds the receipt while moves only go forward, whatever the
      schedule and the crashes. */
  lemma LookupFinds(s: System, events: seq<Event>, p: Pid)
    requires Initial(s) && ForwardOnly(s) && p in s.procs && s.procs[p].op.Lookup?
    ensures Run(s, events).procs.Keys == s.procs.Keys && Run(s, events).procs[p].pc != Ended(false)
  {
    hide Initial;
    LookupMissesExactly(s, events, p);
    OpsStay(s, events);
    hide Looks;
    forall k: nat | k < |events| ensures !HidesAt(s, events, p, k) { OpsStay(s, events[..k]); }
    hide HidesAt;
  }

  // ------------------------------------------------- the write behind it

  /** The mover is about to write its destination, which the lookup has passed. */
  ghost predicate WritesBehind(t: System, p: Pid, q: Pid) {
    && Looks(t, p) && q in t.procs && t.procs[q].pc.Writing? && t.procs[q].op.Move?
    && t.procs[q].pc.doc.folder == t.procs[q].op.to && Rank(t.procs[q].op.to) < t.procs[p].pc.i
  }

  /** It wrote its destination when the lookup had already passed it. */
  ghost predicate WroteBehind(s: System, events: seq<Event>, p: Pid, q: Pid) {
    exists j: nat :: j < |events| && events[j] == Go(q) && WritesBehind(Run(s, events[..j]), p, q)
  }

  lemma WroteBefore(s: System, events: seq<Event>, p: Pid, q: Pid)
    requires events != [] && WroteBehind(s, events[..|events| - 1], p, q)
    ensures WroteBehind(s, events, p, q)
  {
    hide Run;
    hide WritesBehind;
    var before := events[..|events| - 1];
    var j: nat :| j < |before| && before[j] == Go(q) && WritesBehind(Run(s, before[..j]), p, q);
    assert before[..j] == events[..j] && events[j] == Go(q);
  }

  /** A mover between its two writes whose destination the lookup has passed. */
  ghost predicate Passes(t: System, p: Pid, q: Pid) {
    && Looks(t, p) && q in t.procs && t.procs[q].pc.Removing? && t.procs[q].op.Move?
    && Rank(t.procs[q].op.to) < t.procs[p].pc.i
  }

  /** A lookup does not pass the destination of a mover that is between its two writes. */
  lemma NotByLookup(t: System, p: Pid, q: Pid)
    requires Sane(t) && p in t.procs && t.procs[p].op.Lookup? && Passes(Step(t, p), p, q)
    ensures Passes(t, p, q)
  {
    hide ReceiptValid;
    hide FilesOk;
    assert q in t.procs && q != p && t.procs[q].pc.Removing?;
    assert t.lock == Some(q) && HolderKnows(t.files, t.procs[q]);
    assert t.procs[q].op.to in t.files;
    FolderAtRank(t.procs[q].op.to);
  }

  /** A mover comes between its writes by the first of them. */
  lemma ByWriting(t: System, q: Pid)
    requires Sane(t) && q in t.procs && t.procs[q].op.Move? && !t.procs[q].pc.Removing?
    requires q in Step(t, q).procs && Step(t, q).procs[q].pc.Removing?
    ensures t.procs[q].pc.Writing? && t.procs[q].pc.doc.folder == t.procs[q].op.to
  {
    hide ReceiptValid;
    hide FilesOk;
  }

  /** It comes to that by the mover's write, and not by the lookup's step. */
  lemma PassesFrom(t: System, e: Event, p: Pid, q: Pid)
    requires Sane(t) && p in t.procs && t.procs[p].op.Lookup? && Passes(Do(t, e), p, q) && !Passes(t, p, q)
    ensures e == Go(q) && WritesBehind(t, p, q)
  {
    if e == Go(p) { NotByLookup(t, p, q); }
    if e == Go(q) && q != p {
      StaysSame(t, q, p);
      ByWriting(t, q);
    }
    if e.p != p && e.p != q { OthersSame(t, e, p, q); }
    hide Sane;
    hide Step;
  }

  lemma StaysSame(t: System, q: Pid, p: Pid)
    requires p in t.procs && p != q
    ensures p in Step(t, q).procs && Step(t, q).procs[p] == t.procs[p]
    ensures q in Step(t, q).procs ==> q in t.procs && Step(t, q).procs[q].op == t.procs[q].op
  {
    hide ReceiptValid;
  }

  lemma OthersSame(t: System, e: Event, p: Pid, q: Pid)
    requires e.p != p && e.p != q
    ensures p in Do(t, e).procs <==> p in t.procs
    ensures q in Do(t, e).procs <==> q in t.procs
    ensures p in t.procs ==> Do(t, e).procs[p] == t.procs[p]
    ensures q in t.procs ==> Do(t, e).procs[q] == t.procs[q]
  {
    hide ReceiptValid;
  }

  lemma FolderAtRank(f: Folder)
    ensures Rank(f) < 4 && FolderAt(Rank(f)) == f
  {
    RankInjective(f, FolderAt(Rank(f)));
  }

  lemma {:induction false} PassedBehind(s: System, events: seq<Event>, p: Pid, q: Pid)
    requires Initial(s) && p in s.procs && s.procs[p].op.Lookup? && Passes(Run(s, events), p, q)
    ensures WroteBehind(s, events, p, q)
  {
    hide Sane;
    hide FilesOk;
    hide WroteBehind;
    if events != [] {
      var before, e := events[..|events| - 1], events[|events| - 1];
      AlwaysSane(s, before);
      OpsStay(s, before);
      hide Do;
      if Passes(Run(s, before), p, q) {
        PassedBehind(s, before, p, q);
        WroteBefore(s, events, p, q);
      } else {
        PassesFrom(Run(s, before), e, p, q);
        WrittenNow(s, events, p, q);
      }
    }
  }

  lemma WrittenNow(s: System, events: seq<Event>, p: Pid, q: Pid)
    requires events != [] && events[|events| - 1] == Go(q)
    requires WritesBehind(Run(s, events[..|events| - 1]), p, q)
    ensures WroteBehind(s, events, p, q)
  {
    hide Run;
    hide WritesBehind;
  }

  /** Whoever hides the receipt by a removal ahead of the lookup has written it behind the lookup before. */
  lemma HidesFromBehind(s: System, events: seq<Event>, p: Pid, k: nat)
    requires Initial(s) && p in s.procs && s.procs[p].op.Lookup? && k < |events| && HidesAt(s, events, p, k)
    ensures WroteBehind(s, events[..k], p, events[k].p)
  {
    hide Run;
    hide WroteBehind;
    hide Initial;
    PassedBehind(s, events[..k], p, events[k].p);
  }
}
