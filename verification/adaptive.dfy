/** Building the adaptive routing preferences from the summaries of completed runs. */
module Adaptive {
  import opened Wrappers
  import opened Text
  import opened Protocol
  import opened RunSummary
  import Domains

  /** One summary item with the source task it is about. */
  datatype Entry = Entry(run: RunId, item: Item, task: ChildTask)

  /** A completed run as it was loaded: its summary items and its tasks. */
  datatype RunInput = RunInput(id: RunId, items: seq<Item>, tasks: map<TaskId, ChildTask>)

  // ---------------------------------------------------------- signals

  function OwnerOf(e: Entry): AgentName {
    if e.item.currentOwner != "" then e.item.currentOwner else e.task.owner
  }

  /** Only routed tasks with domains and an owner take part. */
  predicate HasMetadata(t: ChildTask) {
    t.route.Some? && t.route.value.normalizedDomains != [] && !Blank(t.owner)
  }

  function KeyOfEntry(e: Entry): Option<string> {
    if !HasMetadata(e.task) then None
    else Some(Domains.PreferenceKey(ClassName(e.task.route.value.taskClass), e.task.route.value.normalizedDomains, OwnerOf(e)))
  }

  function EvidenceAt(e: Entry, status: string, note: string): Evidence {
    Evidence(e.run, e.item.sourceTask, e.task.message, status, note)
  }

  datatype Signal = Signal(score: int, evidence: seq<Evidence>)

  const SILENCE := Signal(0, [])

  // In two parts: the first character of a literal of this length is beyond the verifier's reach.
  const COMPLETED_NOTE := "completed source task" + " without blocker or review downgrade"

  function CompletionSignal(cfg: AdaptiveConfig, e: Entry): Signal {
    if e.item.status == Completed
    then Signal(cfg.successWeight, [EvidenceAt(e, "completed", COMPLETED_NOTE)])
    else SILENCE
  }

  function ReviewSignal(cfg: AdaptiveConfig, e: Entry): Signal {
    match e.item.Outcome()
    case Some(Approved) => Signal(cfg.approvalWeight, [EvidenceAt(e, "approved", "approved review outcome for the source task")])
    case Some(ChangesRequested) =>
      Signal(-(cfg.changesRequestedPenalty as int),
             [EvidenceAt(e, "changes_requested", "changes_requested review outcome for the source task")])
    case None => SILENCE
  }

  function BlockerSignal(cfg: AdaptiveConfig, e: Entry): Signal {
    match e.item.status
    case EscalatedRow => Signal(-(cfg.blockedPenalty as int), [EvidenceAt(e, "escalated", "source task escalated to a human operator")])
    case BlockedRow => Signal(-(cfg.blockedPenalty as int), [EvidenceAt(e, "blocked", "source task blocked during execution")])
    case WaitingRow =>
      Signal(-(cfg.waitPenalty as int), [EvidenceAt(e, "waiting", "source task waiting on a dependency or external event")])
    case _ => SILENCE
  }

  /** Score and evidence of one item: completion, review outcome, and open blockers. */
  function Signals(cfg: AdaptiveConfig, e: Entry): Signal {
    var a, b, c := CompletionSignal(cfg, e), ReviewSignal(cfg, e), BlockerSignal(cfg, e);
    Signal(a.score + b.score + c.score, a.evidence + b.evidence + c.evidence)
  }

  // ------------------------------------------- sums over matching items

  /** The sum of the signals of exactly the items with this key. */
  function Score(cfg: AdaptiveConfig, entries: seq<Entry>, key: string): int {
    if entries == [] then 0
    else
      var last := entries[|entries| - 1];
      Score(cfg, entries[..|entries| - 1], key) + if KeyOfEntry(last) == Some(key) then Signals(cfg, last).score else 0
  }

  function Gathered(cfg: AdaptiveConfig, entries: seq<Entry>, key: string): seq<Evidence> {
    if entries == [] then []
    else
      var last := entries[|entries| - 1];
      Gathered(cfg, entries[..|entries| - 1], key) + if KeyOfEntry(last) == Some(key) then Signals(cfg, last).evidence else []
  }

  /** The first item with the key gives its row class, domains and owner. */
  function FirstWith(entries: seq<Entry>, key: string): Option<Entry> {
    if entries == [] then None
    else
      var front, last := FirstWith(entries[..|entries| - 1], key), entries[|entries| - 1];
      if front.Some? then front else if KeyOfEntry(last) == Some(key) then Some(last) else None
  }

  function KeysOf(entries: seq<Entry>): set<string> {
    if entries == [] then {}
    else
      var last := entries[|entries| - 1];
      KeysOf(entries[..|entries| - 1]) + match KeyOfEntry(last) case Some(k) => {k} case None => {}
  }

  lemma {:induction false} FirstWithExists(entries: seq<Entry>, key: string)
    ensures key in KeysOf(entries) <==> FirstWith(entries, key).Some?
    ensures FirstWith(entries, key).Some? ==>
              FirstWith(entries, key).value in entries && KeyOfEntry(FirstWith(entries, key).value) == Some(key)
  {
    hide KeyOfEntry;
    if entries != [] {
      FirstWithExists(entries[..|entries| - 1], key);
    }
  }

  lemma {:induction false} NothingGathered(cfg: AdaptiveConfig, entries: seq<Entry>, key: string)
    requires key !in KeysOf(entries)
    ensures Score(cfg, entries, key) == 0 && Gathered(cfg, entries, key) == []
  {
    hide KeyOfEntry;
    hide Signals;
    if entries != [] {
      NothingGathered(cfg, entries[..|entries| - 1], key);
    }
  }

  /** The row of a key before manual weights: an empty one has nothing but its name. */
  function RowOf(cfg: AdaptiveConfig, entries: seq<Entry>, key: string): Preference
    requires FirstWith(entries, key).Some?
  {
    var first := FirstWith(entries, key).value;
    if first.task.route.None? then Preference(key, Implementation, [], "", 0, 0, 0, [])
    else Preference(key, first.task.route.value.taskClass, first.task.route.value.normalizedDomains, OwnerOf(first),
                    Score(cfg, entries, key), 0, 0, Gathered(cfg, entries, key))
  }

  ghost predicate RowsAre(cfg: AdaptiveConfig, rows: map<string, Preference>, entries: seq<Entry>) {
    && rows.Keys == KeysOf(entries)
    && forall k :: k in rows ==> FirstWith(entries, k).Some? && rows[k] == RowOf(cfg, entries, k)
  }

  /** The body of the aggregation loop. */
  function AddEntry(cfg: AdaptiveConfig, rows: map<string, Preference>, e: Entry): map<string, Preference> {
    match KeyOfEntry(e)
    case None => rows
    case Some(key) =>
      var row := if key in rows then rows[key]
                 else Preference(key, e.task.route.value.taskClass, e.task.route.value.normalizedDomains, OwnerOf(e),
                                 0, 0, 0, []);
      rows[key := row.(historical := row.historical + Signals(cfg, e).score, evidence := row.evidence + Signals(cfg, e).evidence)]
  }

  lemma AddEntryKeeps(cfg: AdaptiveConfig, rows: map<string, Preference>, entries: seq<Entry>, e: Entry)
    requires RowsAre(cfg, rows, entries)
    ensures RowsAre(cfg, AddEntry(cfg, rows, e), entries + [e])
  {
    hide Signals;
    hide Blank;
    hide Domains.PreferenceKey;
    var all := entries + [e];
    assert all[..|all| - 1] == entries;
    forall k | k in KeysOf(all)
      ensures FirstWith(all, k).Some? && k in AddEntry(cfg, rows, e) && AddEntry(cfg, rows, e)[k] == RowOf(cfg, all, k)
    {
      AddEntryRow(cfg, rows, entries, e, k);
    }
  }

  lemma AddEntryRow(cfg: AdaptiveConfig, rows: map<string, Preference>, entries: seq<Entry>, e: Entry, k: string)
    requires RowsAre(cfg, rows, entries) && k in KeysOf(entries + [e])
    ensures FirstWith(entries + [e], k).Some? && k in AddEntry(cfg, rows, e)
    ensures AddEntry(cfg, rows, e)[k] == RowOf(cfg, entries + [e], k)
  {
    hide Signals;
    hide Blank;
    hide Domains.PreferenceKey;
    var all := entries + [e];
    assert all[..|all| - 1] == entries && all[|all| - 1] == e;
    FirstWithExists(entries, k);
    if k !in KeysOf(entries) { NothingGathered(cfg, entries, k); }
  }

  // -------------------------------------------------- manual preferences

  function ManualKey(m: ManualPreference): string {
    Domains.PreferenceKey(ClassName(m.taskClass), m.domains, m.owner)
  }

  /** The last manual preference with a key is the one that counts. */
  function ManualMap(manual: seq<ManualPreference>): map<string, ManualPreference> {
    if manual == [] then map[]
    else
      var last := manual[|manual| - 1];
      ManualMap(manual[..|manual| - 1])[ManualKey(last) := last]
  }

  lemma {:induction false} ManualMapMembers(manual: seq<ManualPreference>)
    ensures forall k :: k in ManualMap(manual) ==> ManualMap(manual)[k] in manual && ManualKey(ManualMap(manual)[k]) == k
  {
    hide ManualKey;
    if manual != [] {
      ManualMapMembers(manual[..|manual| - 1]);
    }
  }

  /** A row with its manual weight. */
  function Weighted(rows: map<string, Preference>, manual: map<string, ManualPreference>, k: string): Preference
    requires k in rows || k in manual
  {
    var row := if k in rows then rows[k]
               else Preference(k, manual[k].taskClass, manual[k].domains, manual[k].owner, 0, 0, 0, []);
    if k in manual then row.(manual := row.manual + manual[k].weight) else row
  }

  // ------------------------------------------------------ evidence order

  /** Stable insertion from the right. */
  function InsertEvidence(s: seq<Evidence>, e: Evidence): (r: seq<Evidence>)
    ensures |r| == |s| + 1
  {
    if s == [] then [e]
    else if EvidenceLess(e, s[|s| - 1]) then InsertEvidence(s[..|s| - 1], e) + [s[|s| - 1]]
    else s + [e]
  }

  function SortEvidence(s: seq<Evidence>): seq<Evidence> {
    if s == [] then [] else InsertEvidence(SortEvidence(s[..|s| - 1]), s[|s| - 1])
  }

  lemma EvidenceLessAsymmetric(a: Evidence, b: Evidence)
    requires EvidenceLess(a, b)
    ensures !EvidenceLess(b, a)
  {
    hide StatusRank;
    if Less(a.note, b.note) && Less(b.note, a.note) {
      LessTransitive(a.note, b.note, a.note);
      LessIrreflexive(a.note);
    }
  }

  lemma {:induction false} InsertEvidenceSorted(s: seq<Evidence>, e: Evidence)
    requires EvidenceSorted(s)
    ensures EvidenceSorted(InsertEvidence(s, e))
    ensures var r := InsertEvidence(s, e); r[|r| - 1] == e || (s != [] && r[|r| - 1] == s[|s| - 1])
    ensures multiset(InsertEvidence(s, e)) == multiset(s) + multiset{e}
  {
    hide EvidenceLess;
    if s != [] {
      var front, last := s[..|s| - 1], s[|s| - 1];
      assert s == front + [last];
      if EvidenceLess(e, last) {
        InsertEvidenceSorted(front, e);
        EvidenceLessAsymmetric(e, last);
      }
    }
  }

  lemma {:induction false} SortEvidenceSorted(s: seq<Evidence>)
    ensures EvidenceSorted(SortEvidence(s)) && multiset(SortEvidence(s)) == multiset(s)
  {
    if s != [] {
      var front, last := s[..|s| - 1], s[|s| - 1];
      assert s == front + [last];
      SortEvidenceSorted(front);
      InsertEvidenceSorted(SortEvidence(front), last);
    }
  }

  // ---------------------------------------------------------- the set

  /** A finished row: evidence in order and the total. */
  function Finished(row: Preference): Preference {
    row.(evidence := SortEvidence(row.evidence), total := row.historical + row.manual)
  }

  function PreferencesFor(rows: map<string, Preference>, manual: map<string, ManualPreference>, keys: seq<string>): seq<Preference>
    requires AllSomewhere(keys, rows, manual)
  {
    seq(|keys|, i requires 0 <= i < |keys| => Finished(Weighted(rows, manual, keys[i])))
  }

  /** All items of the runs, in order; none when an item's source task is missing. */
  function EntriesOf(run: RunInput, n: nat): Result<seq<Entry>, TaskId>
    requires n <= |run.items|
  {
    if n == 0 then Success([])
    else
      var front :- EntriesOf(run, n - 1);
      var item := run.items[n - 1];
      if item.sourceTask !in run.tasks then Failure(item.sourceTask)
      else Success(front + [Entry(run.id, item, run.tasks[item.sourceTask])])
  }

  function AllEntries(runs: seq<RunInput>): Result<seq<Entry>, TaskId> {
    if runs == [] then Success([])
    else
      var front :- AllEntries(runs[..|runs| - 1]);
      var last :- EntriesOf(runs[|runs| - 1], |runs[|runs| - 1].items|);
      Success(front + last)
  }

  function Window<T>(cfg: AdaptiveConfig, runs: seq<T>): seq<T> {
    if cfg.lookbackRuns > 0 && |runs| > cfg.lookbackRuns then runs[..cfg.lookbackRuns] else runs
  }

  lemma {:induction false} EntriesFailOn(run: RunInput, n: nat, m: nat)
    requires n <= m <= |run.items|
    ensures EntriesOf(run, n).Failure? ==> EntriesOf(run, m).Failure?
  {
    if n < m { EntriesFailOn(run, n, m - 1); }
  }

  lemma {:induction false} AllEntriesFailOn(runs: seq<RunInput>, i: nat)
    requires i <= |runs|
    ensures AllEntries(runs[..i]).Failure? ==> AllEntries(runs).Failure?
    decreases |runs| - i
  {
    hide EntriesOf;
    if i == |runs| {
      assert runs[..i] == runs;
    } else {
      assert runs[..i + 1][..i] == runs[..i];
      AllEntriesFailOn(runs, i + 1);
    }
  }

  // ----------------------------------------------------------- the loops

  method AggregateRows(cfg: AdaptiveConfig, runs: seq<RunInput>) returns (rows: Result<map<string, Preference>, TaskId>)
    ensures rows.Success? <==> AllEntries(runs).Success?
    ensures rows.Success? ==> RowsAre(cfg, rows.value, AllEntries(runs).value)
  {
    hide RowsAre;
    hide KeyOfEntry;
    var found: map<string, Preference> := map[];
    assert RowsAre(cfg, found, []) by { NoRows(cfg); }
    for i := 0 to |runs|
      invariant AllEntries(runs[..i]).Success? && RowsAre(cfg, found, AllEntries(runs[..i]).value)
    {
      var run := runs[i];
      assert runs[..i + 1][..i] == runs[..i];
      ghost var before := AllEntries(runs[..i]).value;
      assert before + [] == before;
      for n := 0 to |run.items|
        invariant EntriesOf(run, n).Success? && RowsAre(cfg, found, before + EntriesOf(run, n).value)
      {
        var item := run.items[n];
        if item.sourceTask !in run.tasks {
          EntriesFailOn(run, n + 1, |run.items|);
          AllEntriesFailOn(runs, i + 1);
          return Failure(item.sourceTask);
        }
        var entry := Entry(run.id, item, run.tasks[item.sourceTask]);
        AddEntryKeeps(cfg, found, before + EntriesOf(run, n).value, entry);
        assert before + EntriesOf(run, n).value + [entry] == before + EntriesOf(run, n + 1).value;
        found := AddEntry(cfg, found, entry);
      }
    }
    assert runs[..|runs|] == runs;
    return Success(found);
  }

  lemma NoRows(cfg: AdaptiveConfig)
    ensures RowsAre(cfg, map[], [])
  {
  }

  method CollectManual(manual: seq<ManualPreference>) returns (byKey: map<string, ManualPreference>)
    ensures byKey == ManualMap(manual)
  {
    byKey := map[];
    for i := 0 to |manual|
      invariant byKey == ManualMap(manual[..i])
    {
      assert manual[..i + 1][..i] == manual[..i];
      byKey := byKey[ManualKey(manual[i]) := manual[i]];
    }
    assert manual[..|manual|] == manual;
  }

  predicate AllSomewhere(keys: seq<string>, rows: map<string, Preference>, manual: map<string, ManualPreference>) {
    forall k :: k in keys ==> k in rows || k in manual
  }

  /** Goes through both maps in an order of its own choosing and lists their keys. */
  method CollectKeys(rows: map<string, Preference>, manual: map<string, ManualPreference>) returns (keys: seq<string>)
    ensures forall k :: k in keys <==> k in rows || k in manual
  {
    keys := [];
    var rest := rows.Keys;
    while rest != {}
      invariant rest <= rows.Keys && forall k :: k in keys <==> k in rows && k !in rest
      decreases |rest|
    {
      var k :| k in rest;
      rest := rest - {k};
      keys := keys + [k];
    }
    rest := manual.Keys;
    while rest != {}
      invariant rest <= manual.Keys && forall k :: k in keys <==> k in rows || (k in manual && k !in rest)
      decreases |rest|
    {
      var k :| k in rest;
      rest := rest - {k};
      if k !in rows {
        keys := keys + [k];
      }
    }
  }

  /** Sorts the keys, drops repeats and finishes the rows. */
  method FinishRows(rows: map<string, Preference>, manual: map<string, ManualPreference>, ghost list: seq<string>)
    returns (preferences: seq<Preference>)
    requires forall k :: k in list <==> k in rows || k in manual
    ensures AllSomewhere(SortUnique(list), rows, manual)
    ensures preferences == PreferencesFor(rows, manual, SortUnique(list))
  {
    hide Finished;
    hide Weighted;
    var keys := CollectKeys(rows, manual);
    KeysSorted(keys, list);
    SortUniqueSorted(keys);
    keys := SortUnique(keys);
    preferences := [];
    for i := 0 to |keys|
      invariant |preferences| == i
      invariant forall j :: 0 <= j < i ==> preferences[j] == Finished(Weighted(rows, manual, keys[j]))
    {
      assert keys[i] in keys;
      preferences := preferences + [Finished(Weighted(rows, manual, keys[i]))];
    }
  }

  /** The whole computation: whatever order the maps are gone through in, the result is the same list. */
  method BuildPreferences(cfg: AdaptiveConfig, runs: seq<RunInput>) returns (r: Option<seq<Preference>>)
    ensures !cfg.enabled ==> r == Some([])
    ensures cfg.enabled && AllEntries(Window(cfg, runs)).Failure? ==> r.None?
    ensures cfg.enabled && AllEntries(Window(cfg, runs)).Success? ==>
              r == var ps := Preferences(cfg, AllEntries(Window(cfg, runs)).value);
                   if PreferencesValid(ps) then Some(ps) else None
  {
    hide PreferencesValid;
    hide RowsAre;
    hide RowsOf;
    hide PreferencesFor;
    if !cfg.enabled {
      return Some([]);
    }
    var rows := AggregateRows(cfg, Window(cfg, runs));
    if rows.Failure? {
      return None;
    }
    ghost var entries := AllEntries(Window(cfg, runs)).value;
    RowsUnique(cfg, rows.value, entries);
    KeyListMembers(cfg, entries);
    var manual := CollectManual(cfg.manual);
    var preferences := FinishRows(rows.value, manual, KeyList(entries, cfg.manual));
    if !PreferencesValid(preferences) {
      return None;
    }
    return Some(preferences);
  }

  // ------------------------------------------------- the list, declared

  ghost function RowsOf(cfg: AdaptiveConfig, entries: seq<Entry>): map<string, Preference> {
    map k | k in KeysOf(entries) && FirstWith(entries, k).Some? :: RowOf(cfg, entries, k)
  }

  lemma RowsUnique(cfg: AdaptiveConfig, rows: map<string, Preference>, entries: seq<Entry>)
    requires RowsAre(cfg, rows, entries)
    ensures rows == RowsOf(cfg, entries)
  {
    hide RowOf;
    hide KeyOfEntry;
  }

  /** All keys, of items and of manual preferences. */
  function KeyList(entries: seq<Entry>, manual: seq<ManualPreference>): seq<string> {
    if entries != [] then
      KeyList(entries[..|entries| - 1], manual)
      + match KeyOfEntry(entries[|entries| - 1]) case Some(k) => [k] case None => []
    else if manual != [] then KeyList([], manual[..|manual| - 1]) + [ManualKey(manual[|manual| - 1])]
    else []
  }

  lemma {:induction false} KeyListHas(entries: seq<Entry>, manual: seq<ManualPreference>)
    ensures forall k :: k in KeyList(entries, manual) <==> k in KeysOf(entries) || k in ManualMap(manual)
    decreases |entries|, |manual|
  {
    hide KeyOfEntry;
    hide ManualKey;
    if entries != [] {
      KeyListHas(entries[..|entries| - 1], manual);
    } else if manual != [] {
      KeyListHas([], manual[..|manual| - 1]);
    }
  }

  lemma {:induction false} RowsOfKeys(cfg: AdaptiveConfig, entries: seq<Entry>)
    ensures RowsOf(cfg, entries).Keys == KeysOf(entries)
  {
    hide KeyOfEntry;
    hide RowOf;
    forall k | k in KeysOf(entries) ensures FirstWith(entries, k).Some? { FirstWithExists(entries, k); }
  }

  lemma KeyListMembers(cfg: AdaptiveConfig, entries: seq<Entry>)
    ensures forall k :: k in KeyList(entries, cfg.manual) <==> k in RowsOf(cfg, entries) || k in ManualMap(cfg.manual)
    ensures AllSomewhere(SortUnique(KeyList(entries, cfg.manual)), RowsOf(cfg, entries), ManualMap(cfg.manual))
  {
    hide RowsOf;
    KeyListHas(entries, cfg.manual);
    RowsOfKeys(cfg, entries);
    SortUniqueSorted(KeyList(entries, cfg.manual));
    assert forall k :: k in RowsOf(cfg, entries) <==> k in RowsOf(cfg, entries).Keys;
  }

  lemma KeysSorted(keys: seq<string>, list: seq<string>)
    ensures (forall k :: k in keys <==> k in list) ==> SortUnique(keys) == SortUnique(list)
  {
    if forall k :: k in keys <==> k in list {
      SortUniqueSorted(keys);
      SortUniqueSorted(list);
      StrictlySortedUnique(SortUnique(keys), SortUnique(list));
    }
  }

  /** The preferences of a list of items: one row for each key, in the order of the keys. */
  ghost function Preferences(cfg: AdaptiveConfig, entries: seq<Entry>): seq<Preference> {
    KeyListMembers(cfg, entries);
    PreferencesFor(RowsOf(cfg, entries), ManualMap(cfg.manual), SortUnique(KeyList(entries, cfg.manual)))
  }

  // ------------------------------------------------------- its meaning

  /** What a loaded run and a loaded configuration provide. */
  ghost predicate EntryOk(e: Entry) {
    && TaskValid(e.task) && Canonical(e.task) == e.task
    && Generated(e.run) && Generated(e.item.sourceTask)
    && (e.item.currentOwner != "" ==> !Blank(e.item.currentOwner))
  }

  ghost predicate ManualOk(m: ManualPreference) {
    Domains.Normal(m.domains) && m.domains != [] && !Blank(m.owner)
  }

  /** The manual weight of a key: that of the last manual preference with it, or none. */
  function ManualWeight(cfg: AdaptiveConfig, k: string): nat {
    if k in ManualMap(cfg.manual) then ManualMap(cfg.manual)[k].weight else 0
  }

  /** Keys are strictly ascending and each row adds up exactly its own items inside the window: the
      historical score is the sum of their signals, the evidence is theirs in order, and the manual
      weight is the last one configured. */
  lemma RowsAddUp(cfg: AdaptiveConfig, entries: seq<Entry>)
    ensures var ps, keys := Preferences(cfg, entries), SortUnique(KeyList(entries, cfg.manual));
            && StrictlySorted(keys) && |ps| == |keys|
            && (forall k :: k in keys <==> k in KeysOf(entries) || k in ManualMap(cfg.manual))
            && forall i :: 0 <= i < |ps| ==> AddsUp(cfg, entries, keys[i], ps[i])
  {
    hide RowOf;
    hide KeyList;
    hide EvidenceLess;
    var ps, keys := Preferences(cfg, entries), SortUnique(KeyList(entries, cfg.manual));
    KeyListMembers(cfg, entries);
    KeyListHas(entries, cfg.manual);
    SortUniqueSorted(KeyList(entries, cfg.manual));
    forall i | 0 <= i < |ps| ensures AddsUp(cfg, entries, keys[i], ps[i]) {
      assert keys[i] in keys;
      RowAddsUp(cfg, entries, keys[i]);
    }
  }

  ghost predicate AddsUp(cfg: AdaptiveConfig, entries: seq<Entry>, k: string, p: Preference) {
    && p.key == k
    && p.historical == Score(cfg, entries, k)
    && p.manual == ManualWeight(cfg, k)
    && p.total == p.historical + p.manual
    && multiset(p.evidence) == multiset(Gathered(cfg, entries, k)) && EvidenceSorted(p.evidence)
  }

  lemma RowAddsUp(cfg: AdaptiveConfig, entries: seq<Entry>, k: string)
    requires k in RowsOf(cfg, entries) || k in ManualMap(cfg.manual)
    ensures AddsUp(cfg, entries, k, Finished(Weighted(RowsOf(cfg, entries), ManualMap(cfg.manual), k)))
  {
    hide EvidenceLess;
    hide EvidenceSorted;
    hide Signals;
    FirstWithExists(entries, k);
    if k !in KeysOf(entries) { NothingGathered(cfg, entries, k); }
    SortEvidenceSorted(Weighted(RowsOf(cfg, entries), ManualMap(cfg.manual), k).evidence);
  }

  lemma {:induction false} ScoreNeedsEvidence(cfg: AdaptiveConfig, entries: seq<Entry>, key: string)
    ensures Gathered(cfg, entries, key) == [] ==> Score(cfg, entries, key) == 0
  {
    hide KeyOfEntry;
    hide EvidenceAt;
    if entries != [] { ScoreNeedsEvidence(cfg, entries[..|entries| - 1], key); }
  }

  lemma EvidenceAtValid(e: Entry, status: string, note: string)
    requires EntryOk(e) && status != "" && !IsSpace(status[0]) && note != "" && !IsSpace(note[0])
    ensures EvidenceValid(EvidenceAt(e, status, note))
  {
    hide Blank;
    hide TaskValid;
    hide Canonical;
    VisibleHead(status);
    VisibleHead(note);
  }

  lemma SignalEvidenceValid(cfg: AdaptiveConfig, e: Entry)
    requires EntryOk(e)
    ensures forall x :: x in Signals(cfg, e).evidence ==> EvidenceValid(x)
  {
    hide EntryOk;
    hide EvidenceValid;
    hide EvidenceAt;
    EvidenceAtValid(e, "completed", COMPLETED_NOTE);
    EvidenceAtValid(e, "approved", "approved review outcome for the source task");
    EvidenceAtValid(e, "changes_requested", "changes_requested review outcome for the source task");
    EvidenceAtValid(e, "escalated", "source task escalated to a human operator");
    EvidenceAtValid(e, "blocked", "source task blocked during execution");
    EvidenceAtValid(e, "waiting", "source task waiting on a dependency or external event");
  }

  lemma {:induction false} GatheredValid(cfg: AdaptiveConfig, entries: seq<Entry>, key: string)
    requires forall e :: e in entries ==> EntryOk(e)
    ensures forall x :: x in Gathered(cfg, entries, key) ==> EvidenceValid(x)
  {
    hide EntryOk;
    hide EvidenceValid;
    hide Signals;
    hide KeyOfEntry;
    if entries != [] {
      GatheredValid(cfg, entries[..|entries| - 1], key);
      SignalEvidenceValid(cfg, entries[|entries| - 1]);
    }
  }

  /** Class, domains and owner of a row are well-formed and make up its key. */
  ghost predicate Named(p: Preference) {
    && Domains.Normalize(p.domains) == Success(p.domains) && p.domains != [] && !Blank(p.owner)
    && p.key == Domains.PreferenceKey(ClassName(p.taskClass), p.domains, p.owner)
  }

  lemma EntryNamed(e: Entry, p: Preference)
    requires EntryOk(e) && KeyOfEntry(e) == Some(p.key)
    requires p.taskClass == e.task.route.value.taskClass && p.domains == e.task.route.value.normalizedDomains
    requires p.owner == OwnerOf(e)
    ensures Named(p)
  {
    hide Blank;
    hide Domains.Normalize;
    Domains.NormalizeIdempotent(e.task.route.value.domains);
  }

  lemma ManualNamed(m: ManualPreference, p: Preference)
    requires ManualOk(m) && p.key == ManualKey(m) && p.taskClass == m.taskClass && p.domains == m.domains && p.owner == m.owner
    ensures Named(p)
  {
    hide Blank;
    hide Domains.Normalize;
    Domains.NormalizeFixpoints(m.domains);
  }

  lemma RowNamed(cfg: AdaptiveConfig, entries: seq<Entry>, k: string)
    requires forall e :: e in entries ==> EntryOk(e)
    requires forall m :: m in cfg.manual ==> ManualOk(m)
    requires k in RowsOf(cfg, entries) || k in ManualMap(cfg.manual)
    ensures Named(Finished(Weighted(RowsOf(cfg, entries), ManualMap(cfg.manual), k)))
  {
    hide EntryOk;
    hide ManualOk;
    hide Named;
    hide Blank;
    hide Signals;
    hide Domains.PreferenceKey;
    var p := Finished(Weighted(RowsOf(cfg, entries), ManualMap(cfg.manual), k));
    FirstWithExists(entries, k);
    ManualMapMembers(cfg.manual);
    if k in RowsOf(cfg, entries) {
      EntryNamed(FirstWith(entries, k).value, p);
    } else {
      ManualNamed(ManualMap(cfg.manual)[k], p);
    }
  }

  /** The set that is built always passes the protocol's own validator. */
  lemma BuiltSetIsValid(cfg: AdaptiveConfig, entries: seq<Entry>)
    requires forall e :: e in entries ==> EntryOk(e)
    requires forall m :: m in cfg.manual ==> ManualOk(m)
    ensures PreferencesValid(Preferences(cfg, entries))
  {
    hide EntryOk;
    hide ManualOk;
    hide Named;
    hide AddsUp;
    hide RowsOf;
    hide Finished;
    hide Weighted;
    hide PreferenceValid;
    hide ManualMap;
    var ps, keys := Preferences(cfg, entries), SortUnique(KeyList(entries, cfg.manual));
    RowsAddUp(cfg, entries);
    KeyListMembers(cfg, entries);
    forall i | 0 <= i < |ps| ensures PreferenceValid(ps[i]) {
      assert keys[i] in keys;
      RowNamed(cfg, entries, keys[i]);
      AddedUpIsValid(cfg, entries, keys[i], ps[i]);
    }
  }

  lemma AddedUpIsValid(cfg: AdaptiveConfig, entries: seq<Entry>, k: string, p: Preference)
    requires forall e :: e in entries ==> EntryOk(e)
    requires Named(p) && AddsUp(cfg, entries, k, p)
    ensures PreferenceValid(p)
  {
    hide EntryOk;
    hide EvidenceSorted;
    hide EvidenceValid;
    hide Domains.Normalize;
    hide Domains.PreferenceKey;
    hide Blank;
    hide ManualMap;
    ScoreNeedsEvidence(cfg, entries, k);
    GatheredValid(cfg, entries, k);
    var gathered := Gathered(cfg, entries, k);
    assert |p.evidence| == |multiset(p.evidence)| && |gathered| == |multiset(gathered)|;
    forall i | 0 <= i < |p.evidence| ensures EvidenceValid(p.evidence[i]) {
      assert p.evidence[i] in multiset(p.evidence);
      assert p.evidence[i] in gathered;
    }
  }
}
