/** Which runs the preferences are built from, and that loaded runs give valid preferences. */
module AdaptiveRuns {
  import opened Wrappers
  import opened Text
  import opened Protocol
  import opened Coordinator
  import opened Invariant
  import opened CaseWrites
  import opened RunGraph
  import opened GraphLoader
  import opened RunSummary
  import opened SummaryFacts
  import opened Adaptive
  import Domains

  /** Newest first; equal times by run identifier, highest first. */
  predicate Newer(runs: map<RunId, RunDir>, a: RunId, b: RunId)
    requires a in runs && b in runs
  {
    if runs[a].doc.createdAt != runs[b].doc.createdAt then runs[a].doc.createdAt > runs[b].doc.createdAt else a > b
  }

  /** A run of the coordinator whose root message is done. */
  predicate IsCompleted(s: State, coordinator: AgentName, r: RunId)
    requires r in s.runs
  {
    var doc := s.runs[r].doc;
    var k := ReceiptKey(doc.coordinator, doc.rootMessage);
    doc.coordinator == coordinator && k in s.receipts && s.receipts[k].folder == Done
  }

  ghost predicate NewestFirst(runs: map<RunId, RunDir>, list: seq<RunId>) {
    && (forall i :: 0 <= i < |list| ==> list[i] in runs)
    && forall i, j :: 0 <= i < j < |list| ==> Newer(runs, list[i], list[j])
  }

  function InsertRun(runs: map<RunId, RunDir>, list: seq<RunId>, r: RunId): seq<RunId>
    requires r in runs && forall i :: 0 <= i < |list| ==> list[i] in runs
  {
    if list == [] then [r]
    else if Newer(runs, r, list[0]) then [r] + list
    else [list[0]] + InsertRun(runs, list[1..], r)
  }

  lemma {:induction false} InsertRunSorted(runs: map<RunId, RunDir>, list: seq<RunId>, r: RunId)
    requires r in runs && NewestFirst(runs, list) && r !in list
    ensures NewestFirst(runs, InsertRun(runs, list, r))
    ensures forall x :: x in InsertRun(runs, list, r) <==> x == r || x in list
  {
    if list != [] && !Newer(runs, r, list[0]) {
      assert list == [list[0]] + list[1..];
      InsertRunSorted(runs, list[1..], r);
      var rest := InsertRun(runs, list[1..], r);
      forall j | 0 <= j < |rest| ensures Newer(runs, list[0], rest[j]) {
        assert rest[j] in rest;
      }
    }
  }

  ghost predicate Lists(s: State, coordinator: AgentName, list: seq<RunId>) {
    && NewestFirst(s.runs, list)
    && forall r :: r in list <==> r in s.runs && IsCompleted(s, coordinator, r)
  }

  /** There is one such list. */
  lemma {:induction false} OneList(s: State, a: seq<RunId>, b: seq<RunId>)
    requires NewestFirst(s.runs, a) && NewestFirst(s.runs, b) && forall r :: r in a <==> r in b
    ensures a == b
  {
    if a != [] && b != [] {
      assert a[0] in b && b[0] in a;
      var j :| 0 <= j < |b| && b[j] == a[0];
      var i :| 0 <= i < |a| && a[i] == b[0];
      assert a[0] == b[0];
      assert a == [a[0]] + a[1..] && b == [b[0]] + b[1..];
      forall r ensures r in a[1..] <==> r in b[1..] {
        if r in a[1..] { var k :| 0 <= k < |a[1..]| && a[1..][k] == r; assert Newer(s.runs, a[0], a[k + 1]); assert r in b; }
        if r in b[1..] { var k :| 0 <= k < |b[1..]| && b[1..][k] == r; assert Newer(s.runs, b[0], b[k + 1]); assert r in a; }
      }
      OneList(s, a[1..], b[1..]);
    } else {
      HasMember(a);
      HasMember(b);
    }
  }

  lemma HasMember(list: seq<RunId>)
    ensures list == [] || exists r :: r in list
  {
    if list != [] { assert list[0] in list; }
  }

  /** The scan of the run directories, kept newest first; it gives up on a run that does not validate. */
  method LoadCompletedRuns(s: State, coordinator: AgentName) returns (list: Result<seq<RunId>, Error>)
    ensures list.Success? <==> forall r :: r in s.runs ==> RunValid(s.runs[r].doc)
    ensures list.Success? ==> Lists(s, coordinator, list.value)
  {
    hide RunValid;
    var found: seq<RunId> := [];
    var remaining := s.runs.Keys;
    while remaining != {}
      invariant remaining <= s.runs.Keys && NewestFirst(s.runs, found)
      invariant forall r :: r in s.runs && r !in remaining ==> RunValid(s.runs[r].doc)
      invariant forall r :: r in found <==> r in s.runs && r !in remaining && IsCompleted(s, coordinator, r)
      decreases |remaining|
    {
      var r :| r in remaining;
      if !RunValid(s.runs[r].doc) {
        return Failure(Malformed);
      }
      remaining := remaining - {r};
      if IsCompleted(s, coordinator, r) {
        InsertRunSorted(s.runs, found, r);
        found := InsertRun(s.runs, found, r);
      }
    }
    return Success(found);
  }

  /** Cutting to the lookback keeps the newest runs. */
  lemma WindowIsNewest(runs: map<RunId, RunDir>, list: seq<RunId>, n: nat, a: RunId, b: RunId)
    requires NewestFirst(runs, list) && n <= |list| && a in list[..n] && b in list && b !in list[..n]
    ensures Newer(runs, a, b)
  {
    var i :| 0 <= i < n && list[..n][i] == a;
    assert forall j :: 0 <= j < n ==> list[j] in list[..n];
    var j :| 0 <= j < |list| && list[j] == b;
  }

  /** A loaded run of a reachable state as input. */
  function InputOf(r: RunId, rd: RunDir, g: Graph): RunInput
    requires NodesFor(g.nodes, g.order)
  {
    RunInput(r, SummaryRows(g), rd.tasks)
  }

  lemma RowEntryOk(s: State, r: RunId, g: Graph, i: nat)
    requires Graphed(s, r, g) && NodesFor(g.nodes, g.order) && i < |SummaryRows(g)|
    ensures var item := SummaryRows(g)[i];
            item.sourceTask in s.runs[r].tasks && EntryOk(Entry(r, item, s.runs[r].tasks[item.sourceTask]))
  {
    hide Inv;
    hide IsGraphOf;
    hide Blank;
    RowAt(s, r, g, i);
    RowOwner(s, r, g, i);
    var t := SummaryRows(g)[i].sourceTask;
    TaskFacts(s, r, t);
    EffectiveIsCurrent(s, r, g, t);
    TaskFacts(s, r, CurrentOf(s.runs[r], t));
    OwnerVisible(s.runs[r].tasks[t]);
    OwnerVisible(s.runs[r].tasks[CurrentOf(s.runs[r], t)]);
  }

  lemma OwnerVisible(t: ChildTask)
    requires TaskValid(t)
    ensures !Blank(t.owner) && Generated(t.id) && Generated(t.parentRun)
  {
  }

  /** The owner a row shows is that of its current task. */
  lemma RowOwner(s: State, r: RunId, g: Graph, i: nat)
    requires Graphed(s, r, g) && NodesFor(g.nodes, g.order) && i < |SummaryRows(g)|
    ensures var item := SummaryRows(g)[i];
            && item.sourceTask in s.runs[r].tasks && CurrentOf(s.runs[r], item.sourceTask) in s.runs[r].tasks
            && item.currentOwner == s.runs[r].tasks[CurrentOf(s.runs[r], item.sourceTask)].owner
  {
    hide Inv;
    hide IsGraphOf;
    hide Effective;
    hide EffectiveReview;
    hide DeriveStatus;
    GraphOrder(s, r, g);
    RowsMean(g.nodes, ExcludedIn(g.nodes, g.order), g.order);
    RowAt(s, r, g, i);
    EffectiveIsCurrent(s, r, g, SummaryRows(g)[i].sourceTask);
  }

  lemma {:induction false} RunEntriesOk(s: State, r: RunId, g: Graph, n: nat)
    requires Graphed(s, r, g) && NodesFor(g.nodes, g.order) && n <= |SummaryRows(g)|
    ensures var entries := EntriesOf(InputOf(r, s.runs[r], g), n);
            entries.Success? && forall e :: e in entries.value ==> EntryOk(e)
  {
    hide Graphed;
    hide EntryOk;
    hide SummaryRows;
    if n > 0 {
      RunEntriesOk(s, r, g, n - 1);
      assert r in s.runs by { GraphedRun(s, r, g); }
      RowEntryOk(s, r, g, n - 1);
    }
  }

  lemma GraphedRun(s: State, r: RunId, g: Graph)
    requires Graphed(s, r, g)
    ensures r in s.runs
  {
    hide Inv;
    hide IsGraphOf;
  }

  /** All runs of the list, loaded. */
  ghost predicate Inputs(s: State, list: seq<RunId>, graphs: map<RunId, Graph>, runs: seq<RunInput>) {
    && |runs| == |list|
    && forall i :: 0 <= i < |list| ==>
         && list[i] in graphs && Graphed(s, list[i], graphs[list[i]])
         && NodesFor(graphs[list[i]].nodes, graphs[list[i]].order)
         && list[i] in s.runs && runs[i] == InputOf(list[i], s.runs[list[i]], graphs[list[i]])
  }

  lemma {:induction false} InputsOk(s: State, list: seq<RunId>, graphs: map<RunId, Graph>, runs: seq<RunInput>)
    requires Inputs(s, list, graphs, runs)
    ensures AllEntries(runs).Success? && forall e :: e in AllEntries(runs).value ==> EntryOk(e)
  {
    hide Graphed;
    hide EntryOk;
    hide SummaryRows;
    if runs != [] {
      var n := |runs| - 1;
      InputsOk(s, list[..n], graphs, runs[..n]);
      RunEntriesOk(s, list[n], graphs[list[n]], |runs[n].items|);
    }
  }

  /** In every good state, whatever runs are loaded and whatever the lookback: building the preferences
      succeeds, for any configuration the loader accepts. */
  lemma PreferencesAlwaysBuild(s: State, cfg: AdaptiveConfig, list: seq<RunId>, graphs: map<RunId, Graph>, runs: seq<RunInput>)
    requires Inputs(s, list, graphs, runs) && forall m :: m in cfg.manual ==> ManualOk(m)
    ensures AllEntries(Window(cfg, runs)).Success?
    ensures PreferencesValid(Preferences(cfg, AllEntries(Window(cfg, runs)).value))
  {
    hide Graphed;
    hide EntryOk;
    hide ManualOk;
    hide Preferences;
    hide PreferencesValid;
    hide SummaryRows;
    var window := Window(cfg, runs);
    InputsOk(s, list[..|window|], graphs, window);
    BuiltSetIsValid(cfg, AllEntries(window).value);
  }

  // ------------------------------------------------ from the session

  /** The run was loaded into this input. */
  ghost predicate LoadedAs(s: State, r: RunId, input: RunInput) {
    && r in s.runs && Loads(s.runs[r], s.messages, s.receipts)
    && exists g :: IsGraphOf(g, s.runs[r], s.receipts) && IsInputOf(r, s.runs[r], g, input)
  }

  ghost predicate IsInputOf(r: RunId, rd: RunDir, g: Graph, input: RunInput) {
    NodesFor(g.nodes, g.order) && input == InputOf(r, rd, g)
  }

  /** The inputs are the runs of the list, each loaded. */
  ghost predicate AllLoadedAs(s: State, list: seq<RunId>, inputs: seq<RunInput>) {
    |inputs| == |list| && forall i :: 0 <= i < |list| ==> LoadedAs(s, list[i], inputs[i])
  }

  /** What a caller gets back: the preferences of the coordinator's newest completed runs, all of them loaded. */
  ghost predicate PreferencesOf(s: State, cfg: AdaptiveConfig, coordinator: AgentName, ps: seq<Preference>) {
    exists list, inputs ::
      && Lists(s, coordinator, list) && AllLoadedAs(s, Window(cfg, list), inputs)
      && AllEntries(inputs).Success? && ps == Preferences(cfg, AllEntries(inputs).value)
  }

  lemma LoadedNodes(rd: RunDir, rs: Receipts, g: Graph)
    requires IsGraphOf(g, rd, rs)
    ensures NodesFor(g.nodes, g.order)
  {
    hide NodeOf;
  }

  lemma {:induction false} LoadedInputs(s: State, list: seq<RunId>, inputs: seq<RunInput>) returns (graphs: map<RunId, Graph>)
    requires Inv(s) && AllLoadedAs(s, list, inputs) && forall i, j :: 0 <= i < j < |list| ==> list[i] != list[j]
    ensures Inputs(s, list, graphs, inputs) && forall r :: r in graphs ==> r in list
  {
    hide Inv;
    hide Loads;
    hide IsGraphOf;
    hide InputOf;
    if list == [] {
      graphs := map[];
    } else {
      var n := |list| - 1;
      assert LoadedAs(s, list[n], inputs[n]);
      var g :| IsGraphOf(g, s.runs[list[n]], s.receipts) && IsInputOf(list[n], s.runs[list[n]], g, inputs[n]);
      graphs := LoadedInputs(s, list[..n], inputs[..n]);
      assert list[n] !in list[..n];
      graphs := graphs[list[n] := g];
      forall i | 0 <= i < |list|
        ensures && list[i] in graphs && Graphed(s, list[i], graphs[list[i]])
                && NodesFor(graphs[list[i]].nodes, graphs[list[i]].order)
                && list[i] in s.runs && inputs[i] == InputOf(list[i], s.runs[list[i]], graphs[list[i]])
      {
        if i < n {
          assert list[..n][i] == list[i] && inputs[..n][i] == inputs[i];
          assert list[i] in list[..n];
        }
      }
    }
  }

  /** In a good state loaded runs always give valid preferences. */
  lemma LoadedAlwaysBuild(s: State, cfg: AdaptiveConfig, coordinator: AgentName, list: seq<RunId>, inputs: seq<RunInput>)
    requires Inv(s) && Lists(s, coordinator, list) && AllLoadedAs(s, Window(cfg, list), inputs)
    requires forall m :: m in cfg.manual ==> ManualOk(m)
    ensures AllEntries(inputs).Success? && PreferencesValid(Preferences(cfg, AllEntries(inputs).value))
  {
    hide Inv;
    hide AllLoadedAs;
    hide ManualOk;
    hide Preferences;
    hide PreferencesValid;
    hide Inputs;
    var window := Window(cfg, list);
    var graphs := LoadedInputs(s, window, inputs);
    assert |inputs| == |window| by { LengthsMatch(s, window, inputs); }
    assert Window(cfg, inputs) == inputs;
    PreferencesAlwaysBuild(s, cfg, window, graphs, inputs);
  }

  lemma LengthsMatch(s: State, list: seq<RunId>, inputs: seq<RunInput>)
    requires AllLoadedAs(s, list, inputs)
    ensures |inputs| == |list|
  {
    hide LoadedAs;
  }

  /** The whole build: it lists the runs, loads the graph of each run in the window, summarises and aggregates.
      In a good state with a configuration the loader accepts, it succeeds exactly when every run in the window loads. */
  method BuildForCoordinator(cfg: AdaptiveConfig, s: State, coordinator: AgentName) returns (r: Option<seq<Preference>>)
    requires forall x :: x in s.runs ==> Filed(s.runs[x])
    ensures !cfg.enabled ==> r == Some([])
    ensures cfg.enabled && r.Some? ==> PreferencesOf(s, cfg, coordinator, r.value) && PreferencesValid(r.value)
    ensures cfg.enabled && Inv(s) && (forall m :: m in cfg.manual ==> ManualOk(m)) ==>
              forall list: seq<RunId> | Lists(s, coordinator, list) ::
                r.Some? <==> forall x :: x in Window<RunId>(cfg, list) ==> x in s.runs && Loads(s.runs[x], s.messages, s.receipts)
  {
    hide Inv;
    hide Loads;
    hide ManualOk;
    hide Preferences;
    hide PreferencesValid;
    hide IsGraphOf;
    hide RunValid;
    hide Filed;
    hide IsCompleted;
    if !cfg.enabled {
      return Some([]);
    }
    var completed := LoadCompletedRuns(s, coordinator);
    if completed.Failure? {
      if Inv(s) { DocsValid(s); }
      return None;
    }
    forall list | Lists(s, coordinator, list) ensures list == completed.value { OneList(s, list, completed.value); }
    var window: seq<RunId> := Window(cfg, completed.value);
    var inputs: seq<RunInput> := [];
    for i := 0 to |window|
      invariant AllLoadedAs(s, window[..i], inputs)
    {
      var g := LoadRunGraph(s.runs, s.messages, s.receipts, window[i]);
      if g.Failure? {
        assert window[i] in window;
        return None;
      }
      LoadedNodes(s.runs[window[i]], s.receipts, g.value);
      var items := BuildRunSummary(g.value);
      var input := RunInput(window[i], items, s.runs[window[i]].tasks);
      assert IsInputOf(window[i], s.runs[window[i]], g.value, input);
      inputs := inputs + [input];
      assert window[..i + 1] == window[..i] + [window[i]];
    }
    assert window[..|window|] == window;
    assert Window(cfg, inputs) == inputs;
    if Inv(s) && forall m :: m in cfg.manual ==> ManualOk(m) {
      LoadedAlwaysBuild(s, cfg, coordinator, completed.value, inputs);
    }
    r := BuildPreferences(cfg, inputs);
  }

  lemma DocsValid(s: State)
    requires Inv(s)
    ensures forall r :: r in s.runs ==> RunValid(s.runs[r].doc)
  {
    hide RunValid;
    hide TasksOk;
    hide HandoffsOk;
    hide CasesOk;
    hide ReplansOk;
    hide ClassesKept;
    forall r | r in s.runs ensures RunValid(s.runs[r].doc) {
      assert RunOk(r, s.runs[r], s.messages, s.receipts);
    }
  }
}
