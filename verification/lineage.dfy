/** The loops that build the lineage graph, extending nodes, edges and the set of known ids in place. */
module LineageService {
  import opened LineageGraph
  import opened LineageTheorems
  import opened Options

  method AddSourceNodes(sources: seq<File>) returns (g: Graph, nodeIds: set<string>)
    ensures g == AddSources(sources) && nodeIds == Ids(g)
  {
    g, nodeIds := Graph([], []), {};
    for i := 0 to |sources|
      invariant g == AddSources(sources[..i]) && nodeIds == Ids(g)
    {
      assert sources[..i + 1][..i] == sources[..i];
      IdsWithNode(g, sources[i].id, SourceNode);
      g := WithNode(g, sources[i].id, SourceNode);
      nodeIds := nodeIds + {sources[i].id};
    }
    assert sources[..|sources|] == sources;
  }

  method SourceInPlan(names: seq<string>, nodeIds: set<string>) returns (found: Option<string>)
    ensures found == FirstKnown(nodeIds, names)
  {
    found := None;
    for i := 0 to |names|
      invariant found == None && FirstKnown(nodeIds, names) == FirstKnown(nodeIds, names[i..])
    {
      if names[i] in nodeIds { return Some(names[i]); }
    }
  }

  method AddRunAndGate(before: Graph, knownIds: set<string>, run: Run) returns (g: Graph, nodeIds: set<string>)
    requires knownIds == Ids(before)
    ensures g == AddGate(AddRunNode(before, run), run) && nodeIds == Ids(g)
  {
    IdsWithNode(before, run.id, RunNode);
    g, nodeIds := WithNode(before, run.id, RunNode), knownIds + {run.id};
    var connected: Option<string> := None;
    if run.sourceId.Some? && run.sourceId.value != "" && run.sourceId.value in nodeIds {
      connected := run.sourceId;
    } else {
      connected := SourceInPlan(run.sources, nodeIds);
    }
    if connected.Some? && connected.value != "" {
      g := WithEdge(g, connected.value, run.id, AnalyzedBy);
    }
    if run.gate.Some? {
      IdsWithNode(g, run.gate.value, GateNode);
      g := WithEdge(WithNode(g, run.gate.value, GateNode), run.id, run.gate.value, GatedBy);
      nodeIds := nodeIds + {run.gate.value};
    }
  }

  method AddRunArtifacts(before: Graph, knownIds: set<string>, files: seq<File>, run: Run)
    returns (g: Graph, nodeIds: set<string>)
    requires knownIds == Ids(before)
    ensures g == AddClaimed(before, files, run) && nodeIds == Ids(g)
  {
    g, nodeIds := before, knownIds;
    for i := 0 to |files|
      invariant g == AddClaimed(before, files[..i], run) && nodeIds == Ids(g)
    {
      assert files[..i + 1][..i] == files[..i];
      var f := files[i];
      if Claims(run, f) {
        if f.id !in nodeIds {
          IdsWithNode(g, f.id, ArtifactKind(f));
          g := WithNode(g, f.id, ArtifactKind(f));
          nodeIds := nodeIds + {f.id};
        }
        g := WithEdge(g, ParentOf(run), f.id, GeneratedBy);
      }
    }
    assert files[..|files|] == files;
  }

  method AddRemainingArtifacts(before: Graph, knownIds: set<string>, files: seq<File>, anchor: Option<string>)
    returns (g: Graph)
    requires knownIds == Ids(before)
    ensures g == AddRemaining(before, files, Ids(before), anchor)
  {
    g := before;
    for i := 0 to |files|
      invariant g == AddRemaining(before, files[..i], Ids(before), anchor)
    {
      assert files[..i + 1][..i] == files[..i];
      var f := files[i];
      if !IsSource(f) && f.id !in knownIds {
        g := WithNode(g, f.id, ArtifactKind(f));
        if anchor.Some? {
          g := WithEdge(g, anchor.value, f.id, GeneratedBy);
        }
      }
    }
    assert files[..|files|] == files;
  }

  /** The lineage of a space: closed always, complete and without repetition when no identifiers clash. */
  method GetSpaceLineage(files: seq<File>, runs: seq<Run>) returns (g: Graph)
    ensures g == Lineage(files, runs)
    ensures Closed(g)
    ensures Ids(g) == FileIds(files) + RunIds(runs) + GateIds(runs)
    ensures WellKeyed(files, runs) ==> DistinctNodes(g) && |g.nodes| == |files| + |runs| + Gated(runs)
    ensures HasAnchor(files, runs) ==> OutputsHang(g)
  {
    var nodeIds;
    var sources := Sources(files);
    g, nodeIds := AddSourceNodes(sources);
    for i := 0 to |runs|
      invariant g == AddRuns(files, runs[..i]) && nodeIds == Ids(g)
    {
      assert runs[..i + 1][..i] == runs[..i];
      g, nodeIds := AddRunAndGate(g, nodeIds, runs[i]);
      g, nodeIds := AddRunArtifacts(g, nodeIds, files, runs[i]);
    }
    assert runs[..|runs|] == runs;
    var anchor := if runs != [] then Some(runs[|runs| - 1].id) else if sources != [] then Some(sources[0].id) else None;
    g := AddRemainingArtifacts(g, nodeIds, files, anchor);
    LineageIsClosed(files, runs);
    NodesAreExactly(files, runs);
    if WellKeyed(files, runs) { NodesAreCounted(files, runs); }
    if HasAnchor(files, runs) { EveryArtifactHasAnOrigin(files, runs); }
  }

  // ----- the condition of acyclicity is needed -----

  const OUTPUT := File("art", PdxArtifact, Some("run-1"))

  const FIRST := Run("run-1", None, [], None, [], None)

  /** Works on the first run's output and lists it among its own. */
  const SECOND := Run("run-2", Some("art"), [], None, ["art"], None)

  /** A run that takes an earlier run's artifact as its source, and claims it as its output, closes a cycle. */
  lemma OutputAsSourceMakesACycle()
    ensures WellKeyed([OUTPUT], [FIRST, SECOND]) && !SourcesAreSources([OUTPUT], [FIRST, SECOND])
    ensures IsPath(Lineage([OUTPUT], [FIRST, SECOND]), ["art", "run-2", "art"])
  {
    IdsDoNotClash();
    OutputIsNoSource();
    var g1 := AddRuns([OUTPUT], [FIRST]);
    var g2 := AddRun(g1, [OUTPUT], SECOND);
    TwoRuns();
    SecondRunCloses(g1);
    RemainingKeepsEdges(g2, [OUTPUT], Ids(g2), AnchorOf([OUTPUT], [FIRST, SECOND]));
    assert Leads(Lineage([OUTPUT], [FIRST, SECOND]), "art", "run-2")
        && Leads(Lineage([OUTPUT], [FIRST, SECOND]), "run-2", "art");
  }

  lemma TwoRuns()
    ensures AddRuns([OUTPUT], [FIRST, SECOND]) == AddRun(AddRuns([OUTPUT], [FIRST]), [OUTPUT], SECOND)
    ensures "art" in Ids(AddRuns([OUTPUT], [FIRST]))
  {
    assert [FIRST, SECOND][..1] == [FIRST];
    var g := AddRuns([OUTPUT], [FIRST][..0]);
    OneFile(AddGate(AddRunNode(g, FIRST), FIRST), FIRST);
  }

  lemma SecondRunCloses(g: Graph)
    requires "art" in Ids(g)
    ensures Edge("art", "run-2", AnalyzedBy) in AddRun(g, [OUTPUT], SECOND).edges
    ensures Edge("run-2", "art", GeneratedBy) in AddRun(g, [OUTPUT], SECOND).edges
  {
    IdsWithNode(g, "run-2", RunNode);
    OneFile(AddGate(AddRunNode(g, SECOND), SECOND), SECOND);
  }

  lemma IdsDoNotClash()
    ensures WellKeyed([OUTPUT], [FIRST, SECOND])
  {
    assert "run-1" != "run-2" && "art" != "run-1" && "art" != "run-2" by {
      assert |"art"| == 3 && |"run-1"| == 5 && "run-1"[4] != "run-2"[4];
    }
  }

  lemma OutputIsNoSource()
    ensures !SourcesAreSources([OUTPUT], [FIRST, SECOND])
  {
    assert OUTPUT in [OUTPUT] && SECOND in [FIRST, SECOND];
    assert Names(SECOND, "art") && IsRecorded([OUTPUT], [FIRST, SECOND], "art");
    assert "art" !in SourceIds([OUTPUT]);
  }

  lemma OneFile(g: Graph, run: Run)
    requires Claims(run, OUTPUT)
    ensures AddClaimed(g, [OUTPUT], run) == AddArtifact(g, OUTPUT, ParentOf(run))
    ensures "art" in Ids(AddClaimed(g, [OUTPUT], run))
  {
    assert [OUTPUT][..0] == [];
    IdsWithNode(g, "art", ArtifactNode);
  }

  lemma {:induction false} RemainingKeepsEdges(g: Graph, files: seq<File>, known: set<string>, anchor: Option<string>)
    ensures g.edges <= AddRemaining(g, files, known, anchor).edges
  {
    if files != [] { RemainingKeepsEdges(g, files[..|files| - 1], known, anchor); }
  }
}
