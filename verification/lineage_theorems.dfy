/** What the lineage graph promises when identifiers do not clash, and when it has no cycles. */
module LineageTheorems {
  import opened LineageGraph
  import opened Options

  /** No identifier names two things. */
  ghost predicate WellKeyed(files: seq<File>, runs: seq<Run>) {
    && (forall i, j :: 0 <= i < j < |files| ==> files[i].id != files[j].id)
    && (forall i, j :: 0 <= i < j < |runs| ==> runs[i].id != runs[j].id)
    && (forall i, j :: 0 <= i < j < |runs| && runs[i].gate.Some? ==> runs[i].gate != runs[j].gate)
    && FileIds(files) !! RunIds(runs) && FileIds(files) !! GateIds(runs) && RunIds(runs) !! GateIds(runs)
  }

  ghost predicate DistinctNodes(g: Graph) {
    forall i, j :: 0 <= i < j < |g.nodes| ==> g.nodes[i].id != g.nodes[j].id
  }

  lemma DistinctWithNode(g: Graph, id: string, kind: NodeKind)
    requires DistinctNodes(g) && id !in Ids(g)
    ensures DistinctNodes(WithNode(g, id, kind))
  {
    forall i | 0 <= i < |g.nodes| ensures g.nodes[i].id != id {
      assert g.nodes[i] in g.nodes;
    }
  }

  // ----- distinct nodes -----

  lemma {:induction false} DistinctSources(files: seq<File>)
    requires forall i, j :: 0 <= i < j < |files| ==> files[i].id != files[j].id
    ensures DistinctNodes(AddSources(Sources(files))) && Ids(AddSources(Sources(files))) == SourceIds(files)
  {
    IdsOfSources(Sources(files));
    if files != [] {
      var before, last := files[..|files| - 1], files[|files| - 1];
      DistinctSources(before);
      assert last.id !in SourceIds(before);
      if IsSource(last) {
        assert Sources(files)[..|Sources(before)|] == Sources(before);
        DistinctWithNode(AddSources(Sources(before)), last.id, SourceNode);
      } else {
        assert Sources(files) == Sources(before);
      }
    }
  }

  lemma {:induction false} DistinctClaimed(g: Graph, files: seq<File>, run: Run)
    requires DistinctNodes(g)
    ensures DistinctNodes(AddClaimed(g, files, run))
  {
    if files != [] {
      var h, f := AddClaimed(g, files[..|files| - 1], run), files[|files| - 1];
      DistinctClaimed(g, files[..|files| - 1], run);
      if f.id !in Ids(h) { DistinctWithNode(h, f.id, ArtifactKind(f)); }
    }
  }

  lemma WellKeyedPrefix(files: seq<File>, before: seq<Run>, run: Run)
    requires WellKeyed(files, before + [run])
    ensures WellKeyed(files, before)
    ensures run.id !in FileIds(files) + RunIds(before) + GateIds(before)
    ensures run.gate.Some? ==> run.gate.value !in FileIds(files) + RunIds(before) + GateIds(before) + {run.id}
  {
    var runs := before + [run];
    RunIdsSplit(before, run);
    assert forall i :: 0 <= i < |before| ==> runs[i] == before[i] && runs[i].id != runs[|before|].id;
    assert forall i :: 0 <= i < |before| && runs[i].gate.Some? ==> runs[i].gate != runs[|before|].gate;
  }

  lemma {:induction false} DistinctRuns(files: seq<File>, runs: seq<Run>)
    requires WellKeyed(files, runs)
    ensures DistinctNodes(AddRuns(files, runs))
  {
    if runs == [] {
      DistinctSources(files);
    } else {
      var before, run := runs[..|runs| - 1], runs[|runs| - 1];
      assert runs == before + [run];
      WellKeyedPrefix(files, before, run);
      DistinctRuns(files, before);
      IdsOfRuns(files, before);
      DistinctRun(AddRuns(files, before), run);
      DistinctClaimed(AddGate(AddRunNode(AddRuns(files, before), run), run), files, run);
    }
  }

  lemma DistinctRun(g: Graph, run: Run)
    requires DistinctNodes(g) && run.id !in Ids(g) && (run.gate.Some? ==> run.gate.value !in Ids(g) + {run.id})
    ensures DistinctNodes(AddGate(AddRunNode(g, run), run))
  {
    DistinctWithNode(g, run.id, RunNode);
    IdsWithNode(g, run.id, RunNode);
    if run.gate.Some? { DistinctWithNode(AddRunNode(g, run), run.gate.value, GateNode); }
  }

  lemma {:induction false} DistinctRemaining(g: Graph, files: seq<File>, anchor: Option<string>)
    requires DistinctNodes(g) && forall i, j :: 0 <= i < j < |files| ==> files[i].id != files[j].id
    ensures DistinctNodes(AddRemaining(g, files, Ids(g), anchor))
  {
    if files != [] {
      var before, f := files[..|files| - 1], files[|files| - 1];
      var h := AddRemaining(g, before, Ids(g), anchor);
      DistinctRemaining(g, before, anchor);
      IdsOfRemaining(g, before, anchor);
      if f.id !in Ids(g) { DistinctWithNode(h, f.id, ArtifactKind(f)); }
    }
  }

  lemma {:induction false} DistinctCount(nodes: seq<Node>)
    requires DistinctNodes(Graph(nodes, []))
    ensures |Ids(Graph(nodes, []))| == |nodes|
  {
    if nodes != [] {
      var before, last := nodes[..|nodes| - 1], nodes[|nodes| - 1];
      DistinctCount(before);
      IdsWithNode(Graph(before, []), last.id, last.kind);
      assert nodes == before + [Node(last.id, last.kind)];
      assert last.id !in Ids(Graph(before, []));
    }
  }

  lemma {:induction false} FileCount(files: seq<File>)
    requires forall i, j :: 0 <= i < j < |files| ==> files[i].id != files[j].id
    ensures |FileIds(files)| == |files|
  {
    if files != [] {
      var before, last := files[..|files| - 1], files[|files| - 1];
      FileCount(before);
      assert files == before + [last];
      assert FileIds(files) == FileIds(before) + {last.id};
      assert last.id !in FileIds(before);
    }
  }

  function Gated(runs: seq<Run>): nat {
    if runs == [] then 0 else Gated(runs[..|runs| - 1]) + (if runs[|runs| - 1].gate.Some? then 1 else 0)
  }

  lemma {:induction false} RunCount(files: seq<File>, runs: seq<Run>)
    requires WellKeyed(files, runs)
    ensures |RunIds(runs)| == |runs| && |GateIds(runs)| == Gated(runs)
  {
    if runs != [] {
      var before, last := runs[..|runs| - 1], runs[|runs| - 1];
      assert runs == before + [last];
      WellKeyedPrefix(files, before, last);
      RunCount(files, before);
      RunIdsSplit(before, last);
      OneMoreId(RunIds(before), last.id);
      if last.gate.Some? { OneMoreId(GateIds(before), last.gate.value); }
      GateOfOne(last);
    }
  }

  lemma OneMoreId(ids: set<string>, id: string)
    requires id !in ids
    ensures |ids + {id}| == |ids| + 1
  {
  }

  lemma GateOfOne(run: Run)
    ensures GateIds([run]) == if run.gate.Some? then {run.gate.value} else {}
  {
  }

  /** Every file, run and gate is a node once. */
  lemma NodesAreCounted(files: seq<File>, runs: seq<Run>)
    requires WellKeyed(files, runs)
    ensures DistinctNodes(Lineage(files, runs))
    ensures |Lineage(files, runs).nodes| == |files| + |runs| + Gated(runs)
  {
    var g := Lineage(files, runs);
    DistinctRuns(files, runs);
    DistinctRemaining(AddRuns(files, runs), files, AnchorOf(files, runs));
    DistinctCount(g.nodes);
    NodesAreExactly(files, runs);
    assert Ids(Graph(g.nodes, [])) == Ids(g);
    FileCount(files);
    RunCount(files, runs);
  }

  // ----- no artifact is left hanging -----

  predicate IsOutput(n: Node) { n.kind == ArtifactNode || n.kind == ManifestNode }

  ghost predicate HasIncoming(g: Graph, id: string) { exists e :: e in g.edges && e.to == id }

  ghost predicate OutputsHang(g: Graph) {
    forall n :: n in g.nodes && IsOutput(n) ==> HasIncoming(g, n.id)
  }

  lemma IncomingStays(g: Graph, h: Graph, id: string)
    requires HasIncoming(g, id) && g.edges <= h.edges
    ensures HasIncoming(h, id)
  {
    var e :| e in g.edges && e.to == id;
    assert e in h.edges;
  }

  lemma HangWithNode(g: Graph, id: string, kind: NodeKind)
    requires OutputsHang(g) && !IsOutput(Node(id, kind))
    ensures OutputsHang(WithNode(g, id, kind))
  {
    forall n | n in WithNode(g, id, kind).nodes && IsOutput(n) ensures HasIncoming(WithNode(g, id, kind), n.id) {
      IncomingStays(g, WithNode(g, id, kind), n.id);
    }
  }

  lemma HangWithEdge(g: Graph, from: string, to: string, relation: Relation, base: Graph)
    requires OutputsHang(base) && base.edges == g.edges
    requires forall n :: n in g.nodes && IsOutput(n) ==> n in base.nodes || n.id == to
    ensures OutputsHang(WithEdge(g, from, to, relation))
  {
    var h := WithEdge(g, from, to, relation);
    assert Edge(from, to, relation) in h.edges;
    forall n | n in h.nodes && IsOutput(n) ensures HasIncoming(h, n.id) {
      if n.id != to { IncomingStays(base, h, n.id); }
    }
  }

  lemma HangRun(g: Graph, run: Run)
    requires OutputsHang(g)
    ensures OutputsHang(AddGate(AddRunNode(g, run), run))
  {
    var h := WithNode(g, run.id, RunNode);
    HangWithNode(g, run.id, RunNode);
    var source := ConnectedSource(Ids(h), run);
    if source.Some? { HangWithEdge(h, source.value, run.id, AnalyzedBy, h); }
    if run.gate.Some? {
      HangWithNode(AddRunNode(g, run), run.gate.value, GateNode);
      HangWithEdge(WithNode(AddRunNode(g, run), run.gate.value, GateNode), run.id, run.gate.value, GatedBy,
                   WithNode(AddRunNode(g, run), run.gate.value, GateNode));
    }
  }

  lemma {:induction false} HangClaimed(g: Graph, files: seq<File>, run: Run)
    requires OutputsHang(g)
    ensures OutputsHang(AddClaimed(g, files, run))
  {
    if files != [] {
      var h, f := AddClaimed(g, files[..|files| - 1], run), files[|files| - 1];
      HangClaimed(g, files[..|files| - 1], run);
      if Claims(run, f) {
        HangWithEdge(if f.id in Ids(h) then h else WithNode(h, f.id, ArtifactKind(f)), ParentOf(run), f.id,
            GeneratedBy, h);
      }
    }
  }

  lemma {:induction false} SourcesAreNoOutputs(files: seq<File>)
    ensures forall n :: n in AddSources(files).nodes ==> !IsOutput(n)
  {
    if files != [] { SourcesAreNoOutputs(files[..|files| - 1]); }
  }

  lemma {:induction false} HangRuns(files: seq<File>, runs: seq<Run>)
    ensures OutputsHang(AddRuns(files, runs))
  {
    if runs == [] {
      SourcesAreNoOutputs(Sources(files));
    } else {
      var g, run := AddRuns(files, runs[..|runs| - 1]), runs[|runs| - 1];
      HangRuns(files, runs[..|runs| - 1]);
      HangRun(g, run);
      HangClaimed(AddGate(AddRunNode(g, run), run), files, run);
    }
  }

  lemma {:induction false} HangRemaining(g: Graph, files: seq<File>, known: set<string>, anchor: Option<string>)
    requires OutputsHang(g) && anchor.Some?
    ensures OutputsHang(AddRemaining(g, files, known, anchor))
  {
    if files != [] {
      var h, f := AddRemaining(g, files[..|files| - 1], known, anchor), files[|files| - 1];
      HangRemaining(g, files[..|files| - 1], known, anchor);
      if !IsSource(f) && f.id !in known {
        HangWithEdge(WithNode(h, f.id, ArtifactKind(f)), anchor.value, f.id, GeneratedBy, h);
      }
    }
  }

  predicate HasAnchor(files: seq<File>, runs: seq<Run>) {
    runs != [] || exists f :: f in files && IsSource(f)
  }

  /** As soon as there is a run or a source, every artifact and manifest has something it came from. */
  lemma EveryArtifactHasAnOrigin(files: seq<File>, runs: seq<Run>)
    requires HasAnchor(files, runs)
    ensures OutputsHang(Lineage(files, runs))
  {
    if runs == [] {
      var f :| f in files && IsSource(f);
      assert f in Sources(files);
    }
    HangRuns(files, runs);
    HangRemaining(AddRuns(files, runs), files, Ids(AddRuns(files, runs)), AnchorOf(files, runs));
  }

  // ----- cycles -----

  /** Sources, then runs, then gates, then artifacts. */
  function Rank(files: seq<File>, runs: seq<Run>, id: string): nat {
    if id in SourceIds(files) then 0 else if id in RunIds(runs) then 1 else if id in GateIds(runs) then 2 else 3
  }

  predicate Rises(files: seq<File>, runs: seq<Run>, e: Edge) {
    Rank(files, runs, e.from) < Rank(files, runs, e.to)
  }

  /** An edge is fine unless it connects a run to something other than an upload or an extract. */
  ghost predicate RisesUnlessOddSource(files: seq<File>, runs: seq<Run>, e: Edge) {
    Rises(files, runs, e) <==> (e.relation == AnalyzedBy ==> e.from in SourceIds(files))
  }

  ghost predicate OnlyOddSourcesFall(files: seq<File>, runs: seq<Run>, g: Graph) {
    forall e :: e in g.edges ==> RisesUnlessOddSource(files, runs, e)
  }

  lemma RanksOf(files: seq<File>, runs: seq<Run>)
    requires WellKeyed(files, runs)
    ensures forall r :: r in runs ==> Rank(files, runs, r.id) == 1
    ensures forall r :: r in runs && r.gate.Some? ==> Rank(files, runs, r.gate.value) == 2
    ensures forall f :: f in files && !IsSource(f) ==> Rank(files, runs, f.id) == 3
    ensures SourceIds(files) <= FileIds(files)
  {
    forall f | f in files && !IsSource(f) ensures f.id in FileIds(files) && f.id !in SourceIds(files) {
      forall other | other in files && IsSource(other) ensures other.id != f.id {
        var i :| 0 <= i < |files| && files[i] == f;
        var j :| 0 <= j < |files| && files[j] == other;
        assert i != j;
      }
    }
  }

  lemma RunRises(files: seq<File>, runs: seq<Run>, g: Graph, run: Run)
    requires WellKeyed(files, runs) && run in runs && OnlyOddSourcesFall(files, runs, g)
    ensures OnlyOddSourcesFall(files, runs, AddGate(AddRunNode(g, run), run))
  {
    RanksOf(files, runs);
  }

  lemma {:induction false} ClaimedRises(files: seq<File>, runs: seq<Run>, g: Graph, some: seq<File>, run: Run)
    requires WellKeyed(files, runs) && run in runs && OnlyOddSourcesFall(files, runs, g)
    requires forall f :: f in some ==> f in files
    ensures OnlyOddSourcesFall(files, runs, AddClaimed(g, some, run))
  {
    if some != [] {
      var f := some[|some| - 1];
      assert f in some;
      ClaimedRises(files, runs, g, some[..|some| - 1], run);
      RanksOf(files, runs);
    }
  }

  lemma {:induction false} RunsRise(files: seq<File>, runs: seq<Run>, some: seq<Run>)
    requires WellKeyed(files, runs) && forall r :: r in some ==> r in runs
    ensures OnlyOddSourcesFall(files, runs, AddRuns(files, some))
  {
    if some == [] {
      IdsOfSources(Sources(files));
    } else {
      var g, run := AddRuns(files, some[..|some| - 1]), some[|some| - 1];
      assert run in some;
      RunsRise(files, runs, some[..|some| - 1]);
      RunRises(files, runs, g, run);
      ClaimedRises(files, runs, AddGate(AddRunNode(g, run), run), files, run);
    }
  }

  lemma {:induction false} RemainingRises(files: seq<File>, runs: seq<Run>, g: Graph, some: seq<File>,
                                          known: set<string>)
    requires WellKeyed(files, runs) && OnlyOddSourcesFall(files, runs, g)
    requires forall f :: f in some ==> f in files
    ensures OnlyOddSourcesFall(files, runs, AddRemaining(g, some, known, AnchorOf(files, runs)))
  {
    if some != [] {
      var f := some[|some| - 1];
      assert f in some;
      RemainingRises(files, runs, g, some[..|some| - 1], known);
      RanksOf(files, runs);
      assert runs != [] ==> runs[|runs| - 1] in runs;
      assert Sources(files) != [] ==> Sources(files)[0] in files && IsSource(Sources(files)[0]);
    }
  }

  /** Sources lead to runs, runs to gates and these to artifacts, except for edges from an odd source of a run. */
  lemma EdgesRiseIffSourcesAreSources(files: seq<File>, runs: seq<Run>)
    requires WellKeyed(files, runs)
    ensures (forall e :: e in Lineage(files, runs).edges ==> Rises(files, runs, e))
       <==> (forall e :: e in Lineage(files, runs).edges && e.relation == AnalyzedBy ==> e.from in SourceIds(files))
  {
    RunsRise(files, runs, runs);
    RemainingRises(files, runs, AddRuns(files, runs), files, Ids(AddRuns(files, runs)));
    assert OnlyOddSourcesFall(files, runs, Lineage(files, runs));
  }

  ghost predicate Leads(g: Graph, a: string, b: string) { exists e :: e in g.edges && e.from == a && e.to == b }

  ghost predicate IsPath(g: Graph, path: seq<string>) {
    forall i, j :: 0 <= i && j == i + 1 < |path| ==> Leads(g, path[i], path[j])
  }

  lemma {:induction false} PathsRise(files: seq<File>, runs: seq<Run>, path: seq<string>)
    requires forall e :: e in Lineage(files, runs).edges ==> Rises(files, runs, e)
    requires |path| > 1 && IsPath(Lineage(files, runs), path)
    ensures Rank(files, runs, path[0]) < Rank(files, runs, path[|path| - 1])
  {
    var n := |path| - 1;
    assert Leads(Lineage(files, runs), path[n - 1], path[n]);
    if n > 1 {
      PathsRise(files, runs, path[..n]);
    }
  }

  predicate Names(run: Run, id: string) { run.sourceId == Some(id) || id in run.sources }

  predicate IsRecorded(files: seq<File>, runs: seq<Run>, id: string) {
    id in FileIds(files) + RunIds(runs) + GateIds(runs)
  }

  /** The names a run gives as its sources can only be of uploads and extracts, as far as they name anything here. */
  ghost predicate SourcesAreSources(files: seq<File>, runs: seq<Run>) {
    forall r, id :: r in runs && Names(r, id) && IsRecorded(files, runs, id) ==> id in SourceIds(files)
  }

  lemma RunConnectsToSource(files: seq<File>, runs: seq<Run>, g: Graph, run: Run)
    requires SourcesAreSources(files, runs) && run in runs && Ids(g) <= FileIds(files) + RunIds(runs) + GateIds(runs)
    requires forall e :: e in g.edges && e.relation == AnalyzedBy ==> e.from in SourceIds(files)
    ensures forall e :: e in AddRunNode(g, run).edges && e.relation == AnalyzedBy ==> e.from in SourceIds(files)
  {
    var h := WithNode(g, run.id, RunNode);
    IdsWithNode(g, run.id, RunNode);
    FirstKnownIsKnown(Ids(h), run.sources);
    var source := ConnectedSource(Ids(h), run);
    assert run.id in RunIds(runs);
    assert source.Some? ==> Names(run, source.value) && IsRecorded(files, runs, source.value);
  }

  lemma {:induction false} ClaimsConnectNothing(g: Graph, files: seq<File>, run: Run)
    ensures forall e :: e in AddClaimed(g, files, run).edges && e.relation == AnalyzedBy ==> e in g.edges
  {
    if files != [] { ClaimsConnectNothing(g, files[..|files| - 1], run); }
  }

  lemma {:induction false} RemainingConnectNothing(g: Graph, files: seq<File>, known: set<string>,
                                                   anchor: Option<string>)
    ensures forall e :: e in AddRemaining(g, files, known, anchor).edges && e.relation == AnalyzedBy ==> e in g.edges
  {
    if files != [] { RemainingConnectNothing(g, files[..|files| - 1], known, anchor); }
  }

  lemma {:induction false} RunsConnectToSources(files: seq<File>, runs: seq<Run>, n: nat)
    requires SourcesAreSources(files, runs) && n <= |runs|
    ensures forall e :: e in AddRuns(files, runs[..n]).edges && e.relation == AnalyzedBy ==> e.from in SourceIds(files)
  {
    if n == 0 {
      IdsOfSources(Sources(files));
    } else {
      var g, run := AddRuns(files, runs[..n - 1]), runs[n - 1];
      assert runs[..n][..n - 1] == runs[..n - 1];
      RunsConnectToSources(files, runs, n - 1);
      IdsOfRuns(files, runs[..n - 1]);
      assert RunIds(runs[..n - 1]) <= RunIds(runs) && GateIds(runs[..n - 1]) <= GateIds(runs);
      RunConnectsToSource(files, runs, g, run);
      ClaimsConnectNothing(AddGate(AddRunNode(g, run), run), files, run);
    }
  }

  /** When runs name only uploads and extracts as their sources, no path through the graph comes back to its start. */
  lemma LineageIsAcyclic(files: seq<File>, runs: seq<Run>, path: seq<string>)
    requires WellKeyed(files, runs) && SourcesAreSources(files, runs)
    requires |path| > 1 && IsPath(Lineage(files, runs), path)
    ensures path[0] != path[|path| - 1]
  {
    RunsConnectToSources(files, runs, |runs|);
    assert runs[..|runs|] == runs;
    RemainingConnectNothing(AddRuns(files, runs), files, Ids(AddRuns(files, runs)), AnchorOf(files, runs));
    EdgesRiseIffSourcesAreSources(files, runs);
    PathsRise(files, runs, path);
  }

  // ----- which edges there are -----

  ghost predicate IsGateEdge(runs: seq<Run>, e: Edge) {
    exists r :: r in runs && r.gate == Some(e.to) && e.from == r.id
  }

  ghost predicate IsOutputEdge(files: seq<File>, runs: seq<Run>, e: Edge) {
    exists r, f :: r in runs && f in files && Claims(r, f) && e.from == ParentOf(r) && e.to == f.id
  }

  ghost predicate IsClaimEdge(files: seq<File>, run: Run, e: Edge) {
    exists f :: f in files && Claims(run, f) && e == Edge(ParentOf(run), f.id, GeneratedBy)
  }

  lemma {:induction false} ClaimedEdges(g: Graph, files: seq<File>, run: Run, e: Edge)
    ensures e in AddClaimed(g, files, run).edges <==> e in g.edges || IsClaimEdge(files, run, e)
  {
    if files != [] {
      var before, f := files[..|files| - 1], files[|files| - 1];
      ClaimedEdges(g, before, run, e);
      assert files == before + [f];
    }
  }

  lemma GateEdges(g: Graph, run: Run, e: Edge)
    ensures e in AddGate(g, run).edges <==>
              e in g.edges || (e.relation == GatedBy && run.gate == Some(e.to) && e.from == run.id)
  {
  }

  lemma RunNodeEdges(g: Graph, run: Run, e: Edge)
    requires e.relation != AnalyzedBy
    ensures e in AddRunNode(g, run).edges <==> e in g.edges
  {
  }

  /** Before the left-overs, an edge that is not an analysis is a gate of its run or a claimed output of its
      run's gate, or of the run where there is no gate; and each of those is there. */
  lemma {:induction false} EdgesOfRuns(files: seq<File>, runs: seq<Run>, e: Edge)
    requires e.relation != AnalyzedBy
    ensures e in AddRuns(files, runs).edges <==>
              if e.relation == GatedBy then IsGateEdge(runs, e) else IsOutputEdge(files, runs, e)
  {
    if runs == [] {
      IdsOfSources(Sources(files));
    } else {
      var before, run := runs[..|runs| - 1], runs[|runs| - 1];
      var g := AddRuns(files, before);
      EdgesOfRuns(files, before, e);
      RunNodeEdges(g, run, e);
      GateEdges(AddRunNode(g, run), run, e);
      ClaimedEdges(AddGate(AddRunNode(g, run), run), files, run, e);
      assert runs == before + [run];
    }
  }

  ghost predicate IsLeftOverEdge(files: seq<File>, known: set<string>, anchor: Option<string>, e: Edge) {
    && e.relation == GeneratedBy && anchor == Some(e.from)
    && exists f :: f in files && !IsSource(f) && f.id !in known && e.to == f.id
  }

  lemma {:induction false} RemainingEdges(g: Graph, files: seq<File>, known: set<string>, anchor: Option<string>,
                                          e: Edge)
    ensures e in AddRemaining(g, files, known, anchor).edges <==>
              e in g.edges || IsLeftOverEdge(files, known, anchor, e)
  {
    if files != [] {
      var before, f := files[..|files| - 1], files[|files| - 1];
      RemainingEdges(g, before, known, anchor, e);
      assert files == before + [f];
    }
  }

  /** Exactly which edges say where a gate or an artifact comes from. */
  lemma EdgesAreExactly(files: seq<File>, runs: seq<Run>, e: Edge)
    requires e.relation != AnalyzedBy
    ensures e in Lineage(files, runs).edges <==>
              if e.relation == GatedBy then IsGateEdge(runs, e)
              else (|| IsOutputEdge(files, runs, e)
                    || IsLeftOverEdge(files, Ids(AddRuns(files, runs)), AnchorOf(files, runs), e))
  {
    EdgesOfRuns(files, runs, e);
    RemainingEdges(AddRuns(files, runs), files, Ids(AddRuns(files, runs)), AnchorOf(files, runs), e);
  }

  lemma EdgeStays(files: seq<File>, before: seq<Run>, run: Run, e: Edge)
    requires e in AddRuns(files, before).edges || e in AddRunNode(AddRuns(files, before), run).edges
    ensures e in AddRuns(files, before + [run]).edges
  {
    assert (before + [run])[..|before|] == before;
    var g := AddRuns(files, before);
    assert e in AddRunNode(g, run).edges;
    GateEdges(AddRunNode(g, run), run, e);
    ClaimedEdges(AddGate(AddRunNode(g, run), run), files, run, e);
  }

  /** A run whose own source is an upload or extract of the space hangs on it. */
  lemma {:induction false} RunHangsOnItsSource(files: seq<File>, runs: seq<Run>, run: Run, source: string)
    requires run in runs && run.sourceId == Some(source) && source != "" && source in SourceIds(files)
    ensures Edge(source, run.id, AnalyzedBy) in AddRuns(files, runs).edges
    ensures Edge(source, run.id, AnalyzedBy) in Lineage(files, runs).edges
  {
    var before, last, e := runs[..|runs| - 1], runs[|runs| - 1], Edge(source, run.id, AnalyzedBy);
    assert runs == before + [last];
    if run in before {
      RunHangsOnItsSource(files, before, run, source);
    } else {
      IdsOfRuns(files, before);
      IdsWithNode(AddRuns(files, before), run.id, RunNode);
    }
    EdgeStays(files, before, last, e);
    RemainingEdges(AddRuns(files, runs), files, Ids(AddRuns(files, runs)), AnchorOf(files, runs), e);
  }
}
