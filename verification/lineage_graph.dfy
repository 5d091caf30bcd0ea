/** The lineage graph of backend/app/services/lineage_service.py: what is built, and what holds of it. */
module LineageGraph {
  import opened Options

  datatype Kind = UserUpload | ProdocuxExtract | PdxArtifact | ManifestFile

  datatype File = File(id: string, kind: Kind, runId: Option<string>)

  /** `sources` are the source ids named in the plan. */
  datatype Run = Run(id: string, sourceId: Option<string>, sources: seq<string>, gate: Option<string>,
                     outputs: seq<string>, manifest: Option<string>)

  datatype NodeKind = SourceNode | RunNode | GateNode | ArtifactNode | ManifestNode

  datatype Node = Node(id: string, kind: NodeKind)

  datatype Relation = AnalyzedBy | GatedBy | GeneratedBy

  datatype Edge = Edge(from: string, to: string, relation: Relation)

  datatype Graph = Graph(nodes: seq<Node>, edges: seq<Edge>)

  predicate IsSource(f: File) { f.kind == UserUpload || f.kind == ProdocuxExtract }

  function Sources(files: seq<File>): (r: seq<File>)
    ensures forall f :: f in r <==> f in files && IsSource(f)
  {
    if files == [] then []
    else Sources(files[..|files| - 1]) + (if IsSource(files[|files| - 1]) then [files[|files| - 1]] else [])
  }

  function Ids(g: Graph): set<string> { set n | n in g.nodes :: n.id }

  // ----- the steps -----

  function WithNode(g: Graph, id: string, kind: NodeKind): Graph { g.(nodes := g.nodes + [Node(id, kind)]) }

  function WithEdge(g: Graph, from: string, to: string, relation: Relation): Graph {
    g.(edges := g.edges + [Edge(from, to, relation)])
  }

  function ArtifactKind(f: File): NodeKind { if f.kind == PdxArtifact then ArtifactNode else ManifestNode }

  function AddSources(files: seq<File>): Graph {
    if files == [] then Graph([], [])
    else WithNode(AddSources(files[..|files| - 1]), files[|files| - 1].id, SourceNode)
  }

  function FirstKnown(ids: set<string>, names: seq<string>): Option<string> {
    if names == [] then None
    else if names[0] in ids then Some(names[0])
    else FirstKnown(ids, names[1..])
  }

  /** The source a run is connected to: its own when that is already a node, else the plan's first that is. */
  function ConnectedSource(ids: set<string>, run: Run): Option<string> {
    var found :=
      if run.sourceId.Some? && run.sourceId.value != "" && run.sourceId.value in ids then run.sourceId
      else FirstKnown(ids, run.sources);
    if found.Some? && found.value != "" then found else None
  }

  function AddRunNode(g: Graph, run: Run): Graph {
    var h := WithNode(g, run.id, RunNode);
    var source := ConnectedSource(Ids(h), run);
    if source.Some? then WithEdge(h, source.value, run.id, AnalyzedBy) else h
  }

  function AddGate(g: Graph, run: Run): Graph {
    if run.gate.None? then g
    else WithEdge(WithNode(g, run.gate.value, GateNode), run.id, run.gate.value, GatedBy)
  }

  function ParentOf(run: Run): string { if run.gate.Some? then run.gate.value else run.id }

  /** An output of the run: by the file's own run id, the run's output list, or as its manifest. */
  predicate Claims(run: Run, f: File) {
    && !IsSource(f)
    && (f.runId == Some(run.id) || f.id in run.outputs || run.manifest == Some(f.id))
  }

  function AddArtifact(g: Graph, f: File, parent: string): Graph {
    WithEdge(if f.id in Ids(g) then g else WithNode(g, f.id, ArtifactKind(f)), parent, f.id, GeneratedBy)
  }

  function AddClaimed(g: Graph, files: seq<File>, run: Run): Graph {
    if files == [] then g
    else
      var h, f := AddClaimed(g, files[..|files| - 1], run), files[|files| - 1];
      if Claims(run, f) then AddArtifact(h, f, ParentOf(run)) else h
  }

  function AddRun(g: Graph, files: seq<File>, run: Run): Graph {
    AddClaimed(AddGate(AddRunNode(g, run), run), files, run)
  }

  function AddRuns(files: seq<File>, runs: seq<Run>): Graph {
    if runs == [] then AddSources(Sources(files))
    else AddRun(AddRuns(files, runs[..|runs| - 1]), files, runs[|runs| - 1])
  }

  /** Who the left-over artifacts hang on: the last run, else the first source. */
  function AnchorOf(files: seq<File>, runs: seq<Run>): Option<string> {
    if runs != [] then Some(runs[|runs| - 1].id)
    else if Sources(files) != [] then Some(Sources(files)[0].id)
    else None
  }

  /** The artifacts no run claimed; `known` are the nodes there were before the first of them. */
  function AddRemaining(g: Graph, files: seq<File>, known: set<string>, anchor: Option<string>): Graph {
    if files == [] then g
    else
      var h, f := AddRemaining(g, files[..|files| - 1], known, anchor), files[|files| - 1];
      if IsSource(f) || f.id in known then h
      else
        var i := WithNode(h, f.id, ArtifactKind(f));
        if anchor.Some? then WithEdge(i, anchor.value, f.id, GeneratedBy) else i
  }

  function Lineage(files: seq<File>, runs: seq<Run>): Graph {
    var g := AddRuns(files, runs);
    AddRemaining(g, files, Ids(g), AnchorOf(files, runs))
  }

  // ----- which nodes there are -----

  function FileIds(files: seq<File>): set<string> { set f | f in files :: f.id }

  function SourceIds(files: seq<File>): set<string> { set f | f in files && IsSource(f) :: f.id }

  function RunIds(runs: seq<Run>): set<string> { set r | r in runs :: r.id }

  function GateIds(runs: seq<Run>): set<string> { set r | r in runs && r.gate.Some? :: r.gate.value }

  lemma IdsWithNode(g: Graph, id: string, kind: NodeKind)
    ensures Ids(WithNode(g, id, kind)) == Ids(g) + {id}
  {
    var nodes := WithNode(g, id, kind).nodes;
    assert nodes[|g.nodes|] == Node(id, kind);
    forall n | n in g.nodes ensures n in nodes {}
  }

  lemma {:induction false} IdsOfSources(files: seq<File>)
    ensures Ids(AddSources(files)) == FileIds(files) && AddSources(files).edges == []
  {
    if files != [] {
      var last := files[|files| - 1];
      IdsOfSources(files[..|files| - 1]);
      IdsWithNode(AddSources(files[..|files| - 1]), last.id, SourceNode);
      assert files == files[..|files| - 1] + [last];
    }
  }

  lemma IdsOfRunNode(g: Graph, run: Run)
    ensures Ids(AddGate(AddRunNode(g, run), run)) == Ids(g) + {run.id} + GateIds([run])
  {
    IdsWithNode(g, run.id, RunNode);
    if run.gate.Some? { IdsWithNode(AddRunNode(g, run), run.gate.value, GateNode); }
  }

  lemma {:induction false} IdsOfClaimed(g: Graph, files: seq<File>, run: Run)
    ensures Ids(g) <= Ids(AddClaimed(g, files, run)) <= Ids(g) + FileIds(files)
  {
    if files != [] {
      var h, f := AddClaimed(g, files[..|files| - 1], run), files[|files| - 1];
      IdsOfClaimed(g, files[..|files| - 1], run);
      IdsWithNode(h, f.id, ArtifactKind(f));
      assert f in files;
    }
  }

  lemma {:induction false} IdsOfRuns(files: seq<File>, runs: seq<Run>)
    ensures SourceIds(files) + RunIds(runs) + GateIds(runs) <= Ids(AddRuns(files, runs))
         <= FileIds(files) + RunIds(runs) + GateIds(runs)
  {
    if runs == [] {
      IdsOfSources(Sources(files));
    } else {
      var before, run := runs[..|runs| - 1], runs[|runs| - 1];
      var g := AddRuns(files, before);
      IdsOfRuns(files, before);
      IdsOfRunNode(g, run);
      IdsOfClaimed(AddGate(AddRunNode(g, run), run), files, run);
      RunIdsSplit(before, run);
      assert runs == before + [run];
    }
  }

  lemma RunIdsSplit(before: seq<Run>, run: Run)
    ensures RunIds(before + [run]) == RunIds(before) + {run.id}
    ensures GateIds(before + [run]) == GateIds(before) + GateIds([run])
  {
    assert forall r :: r in before + [run] <==> r in before || r == run;
  }

  lemma {:induction false} IdsOfRemaining(g: Graph, files: seq<File>, anchor: Option<string>)
    ensures Ids(AddRemaining(g, files, Ids(g), anchor))
         == Ids(g) + (set f | f in files && !IsSource(f) :: f.id)
  {
    if files != [] {
      var h, f := AddRemaining(g, files[..|files| - 1], Ids(g), anchor), files[|files| - 1];
      IdsOfRemaining(g, files[..|files| - 1], anchor);
      IdsWithNode(h, f.id, ArtifactKind(f));
      assert files == files[..|files| - 1] + [f];
    }
  }

  /** Every file, run and gate is a node, and nothing else is. */
  lemma NodesAreExactly(files: seq<File>, runs: seq<Run>)
    ensures Ids(Lineage(files, runs)) == FileIds(files) + RunIds(runs) + GateIds(runs)
  {
    IdsOfRuns(files, runs);
    IdsOfRemaining(AddRuns(files, runs), files, AnchorOf(files, runs));
  }

  // ----- no edge dangles -----

  ghost predicate Closed(g: Graph) {
    forall e :: e in g.edges ==> e.from in Ids(g) && e.to in Ids(g)
  }

  lemma FirstKnownIsKnown(ids: set<string>, names: seq<string>)
    ensures FirstKnown(ids, names).Some? ==>
              FirstKnown(ids, names).value in ids && FirstKnown(ids, names).value in names
  {
  }

  lemma ClosedRun(g: Graph, run: Run)
    requires Closed(g)
    ensures Closed(AddGate(AddRunNode(g, run), run)) && ParentOf(run) in Ids(AddGate(AddRunNode(g, run), run))
  {
    var h := WithNode(g, run.id, RunNode);
    IdsWithNode(g, run.id, RunNode);
    FirstKnownIsKnown(Ids(h), run.sources);
    assert Ids(AddRunNode(g, run)) == Ids(h);
    assert Closed(AddRunNode(g, run));
    if run.gate.Some? { IdsWithNode(AddRunNode(g, run), run.gate.value, GateNode); }
  }

  lemma {:induction false} ClosedClaimed(g: Graph, files: seq<File>, run: Run)
    requires Closed(g) && ParentOf(run) in Ids(g)
    ensures Closed(AddClaimed(g, files, run)) && ParentOf(run) in Ids(AddClaimed(g, files, run))
  {
    if files != [] {
      var h, f := AddClaimed(g, files[..|files| - 1], run), files[|files| - 1];
      ClosedClaimed(g, files[..|files| - 1], run);
      IdsWithNode(h, f.id, ArtifactKind(f));
    }
  }

  lemma {:induction false} ClosedRuns(files: seq<File>, runs: seq<Run>)
    ensures Closed(AddRuns(files, runs))
  {
    if runs == [] {
      IdsOfSources(Sources(files));
    } else {
      var g, run := AddRuns(files, runs[..|runs| - 1]), runs[|runs| - 1];
      ClosedRuns(files, runs[..|runs| - 1]);
      ClosedRun(g, run);
      ClosedClaimed(AddGate(AddRunNode(g, run), run), files, run);
    }
  }

  lemma {:induction false} ClosedRemaining(g: Graph, files: seq<File>, known: set<string>, anchor: Option<string>)
    requires Closed(g) && (anchor.Some? ==> anchor.value in Ids(g))
    ensures Closed(AddRemaining(g, files, known, anchor)) && Ids(g) <= Ids(AddRemaining(g, files, known, anchor))
  {
    if files != [] {
      var h, f := AddRemaining(g, files[..|files| - 1], known, anchor), files[|files| - 1];
      ClosedRemaining(g, files[..|files| - 1], known, anchor);
      IdsWithNode(h, f.id, ArtifactKind(f));
    }
  }

  /** Both ends of every edge are nodes, whatever the records say. */
  lemma LineageIsClosed(files: seq<File>, runs: seq<Run>)
    ensures Closed(Lineage(files, runs))
  {
    ClosedRuns(files, runs);
    IdsOfRuns(files, runs);
    assert runs != [] ==> runs[|runs| - 1] in runs;
    assert Sources(files) != [] ==> Sources(files)[0] in files && IsSource(Sources(files)[0]);
    ClosedRemaining(AddRuns(files, runs), files, Ids(AddRuns(files, runs)), AnchorOf(files, runs));
  }
}
