/** Which records make a lineage graph with a cycle: a condition on the runs, their gates and what they claim. */
module LineageCycles {
  import opened LineageGraph
  import opened LineageTheorems
  import opened Options

  // ----- what a run is connected to, told from the records -----

  function ClaimedIds(files: seq<File>, runs: seq<Run>): set<string> {
    set r, f | r in runs && f in files && Claims(r, f) :: f.id
  }

  /** What the graph knows when a run looks for its source: the uploads and extracts, the runs up to this one, and the
      gates and claimed outputs of the earlier ones. */
  function KnownTo(files: seq<File>, runs: seq<Run>, i: nat): set<string>
    requires i < |runs|
  {
    SourceIds(files) + RunIds(runs[..i + 1]) + GateIds(runs[..i]) + ClaimedIds(files, runs[..i])
  }

  function SourceOf(files: seq<File>, runs: seq<Run>, i: nat): Option<string>
    requires i < |runs|
  {
    ConnectedSource(KnownTo(files, runs, i), runs[i])
  }

  lemma ClaimedSplit(files: seq<File>, before: seq<Run>, run: Run)
    ensures ClaimedIds(files, before + [run]) == ClaimedIds(files, before) + ClaimedIds(files, [run])
  {
    assert forall r :: r in before + [run] <==> r in before || r == run;
  }

  lemma {:induction false} ClaimedAreAdded(g: Graph, files: seq<File>, run: Run)
    ensures Ids(AddClaimed(g, files, run)) == Ids(g) + ClaimedIds(files, [run])
  {
    if files != [] {
      var before, f := files[..|files| - 1], files[|files| - 1];
      var h := AddClaimed(g, before, run);
      ClaimedAreAdded(g, before, run);
      IdsWithNode(h, f.id, ArtifactKind(f));
      assert files == before + [f];
      assert ClaimedIds(files, [run]) == ClaimedIds(before, [run]) + (if Claims(run, f) then {f.id} else {});
    }
  }

  lemma IdsOfRun(files: seq<File>, before: seq<Run>, run: Run)
    ensures Ids(AddRuns(files, before + [run]))
         == Ids(AddRuns(files, before)) + {run.id} + GateIds([run]) + ClaimedIds(files, [run])
  {
    assert (before + [run])[..|before|] == before;
    IdsOfRunNode(AddRuns(files, before), run);
    ClaimedAreAdded(AddGate(AddRunNode(AddRuns(files, before), run), run), files, run);
  }

  lemma IdsBeforeRuns(files: seq<File>)
    ensures Ids(AddRuns(files, [])) == SourceIds(files) + RunIds([]) + GateIds([]) + ClaimedIds(files, [])
  {
    IdsOfSources(Sources(files));
    assert forall f :: f in Sources(files) <==> f in files && IsSource(f);
    assert FileIds(Sources(files)) == SourceIds(files);
  }

  lemma {:induction false} KnownAfter(files: seq<File>, runs: seq<Run>)
    ensures Ids(AddRuns(files, runs)) == SourceIds(files) + RunIds(runs) + GateIds(runs) + ClaimedIds(files, runs)
  {
    hide *;
    if runs == [] {
      IdsBeforeRuns(files);
    } else {
      var before, run := runs[..|runs| - 1], runs[|runs| - 1];
      assert runs == before + [run];
      KnownAfter(files, before);
      IdsOfRun(files, before, run);
      RunIdsSplit(before, run);
      ClaimedSplit(files, before, run);
    }
  }

  ghost predicate IsAnalysis(files: seq<File>, runs: seq<Run>, i: nat, e: Edge) {
    i < |runs| && e == Edge(e.from, runs[i].id, AnalyzedBy) && SourceOf(files, runs, i) == Some(e.from)
  }

  lemma SourceOfPrefix(files: seq<File>, before: seq<Run>, run: Run, i: nat)
    requires i < |before|
    ensures SourceOf(files, before + [run], i) == SourceOf(files, before, i)
  {
    assert (before + [run])[..i] == before[..i] && (before + [run])[..i + 1] == before[..i + 1];
  }

  lemma LastAnalysis(files: seq<File>, before: seq<Run>, run: Run, e: Edge)
    requires e.relation == AnalyzedBy
    ensures e in AddRunNode(AddRuns(files, before), run).edges <==>
              e in AddRuns(files, before).edges || IsAnalysis(files, before + [run], |before|, e)
  {
    var runs := before + [run];
    KnownAfter(files, before);
    IdsWithNode(AddRuns(files, before), run.id, RunNode);
    RunIdsSplit(before, run);
    assert runs[..|before|] == before && runs[..|before| + 1] == runs;
    assert Ids(WithNode(AddRuns(files, before), run.id, RunNode)) == KnownTo(files, runs, |before|);
  }

  /** Exactly which edges say what a run works on. */
  lemma {:induction false} AnalysesAreExactly(files: seq<File>, runs: seq<Run>, e: Edge)
    requires e.relation == AnalyzedBy
    ensures e in AddRuns(files, runs).edges <==> exists i: nat :: IsAnalysis(files, runs, i, e)
  {
    if runs == [] {
      IdsOfSources(Sources(files));
    } else {
      var n := |runs| - 1;
      var before, run := runs[..n], runs[n];
      assert runs == before + [run];
      AnalysesAreExactly(files, before, e);
      LastAnalysis(files, before, run, e);
      GateEdges(AddRunNode(AddRuns(files, before), run), run, e);
      ClaimedEdges(AddGate(AddRunNode(AddRuns(files, before), run), run), files, run, e);
      forall i: nat | i < n ensures IsAnalysis(files, before, i, e) <==> IsAnalysis(files, runs, i, e) {
        SourceOfPrefix(files, before, run, i);
      }
    }
  }

  lemma AnalysesOfLineage(files: seq<File>, runs: seq<Run>, e: Edge)
    requires e.relation == AnalyzedBy
    ensures e in Lineage(files, runs).edges <==> exists i: nat :: IsAnalysis(files, runs, i, e)
  {
    AnalysesAreExactly(files, runs, e);
    RemainingEdges(AddRuns(files, runs), files, Ids(AddRuns(files, runs)), AnchorOf(files, runs), e);
  }

  /** Sources lead to runs, runs to gates and these to artifacts, exactly when every run that is connected to
      something is connected to an upload or an extract. */
  lemma EdgesRiseIffRunsHangOnSources(files: seq<File>, runs: seq<Run>)
    requires WellKeyed(files, runs)
    ensures (forall e :: e in Lineage(files, runs).edges ==> Rises(files, runs, e))
       <==> (forall i: nat :: i < |runs| && SourceOf(files, runs, i).Some? ==>
               SourceOf(files, runs, i).value in SourceIds(files))
  {
    EdgesRiseIffSourcesAreSources(files, runs);
    forall i: nat | i < |runs| && SourceOf(files, runs, i).Some?
      ensures Edge(SourceOf(files, runs, i).value, runs[i].id, AnalyzedBy) in Lineage(files, runs).edges
    {
      var e := Edge(SourceOf(files, runs, i).value, runs[i].id, AnalyzedBy);
      assert IsAnalysis(files, runs, i, e);
      AnalysesOfLineage(files, runs, e);
    }
    forall e | e in Lineage(files, runs).edges && e.relation == AnalyzedBy
      ensures exists i: nat :: IsAnalysis(files, runs, i, e)
    {
      AnalysesOfLineage(files, runs, e);
    }
  }

  // ----- cycles of the graph and circles of runs -----

  /** The run itself, its gate, or an output it claims. */
  ghost predicate Produces(files: seq<File>, run: Run, id: string) {
    id == run.id || run.gate == Some(id) || exists f :: f in files && Claims(run, f) && f.id == id
  }

  /** Run `j` works on something of run `i`. */
  ghost predicate Feeds(files: seq<File>, runs: seq<Run>, i: nat, j: nat) {
    && i < |runs| && j < |runs|
    && SourceOf(files, runs, j).Some? && Produces(files, runs[i], SourceOf(files, runs, j).value)
  }

  ghost predicate IsChain(files: seq<File>, runs: seq<Run>, chain: seq<nat>) {
    && chain != [] && chain[0] < |runs|
    && forall k, l :: 0 <= k && l == k + 1 < |chain| ==> Feeds(files, runs, chain[k], chain[l])
  }

  ghost predicate FeedInACircle(files: seq<File>, runs: seq<Run>) {
    exists chain :: |chain| > 1 && IsChain(files, runs, chain) && chain[0] == chain[|chain| - 1]
  }

  ghost predicate HasCycle(g: Graph) {
    exists path :: |path| > 1 && IsPath(g, path) && path[0] == path[|path| - 1]
  }

  // ----- from a circle of runs to a cycle -----

  lemma LeadsByEdge(g: Graph, e: Edge)
    requires e in g.edges
    ensures Leads(g, e.from, e.to)
  {
  }

  lemma JoinPaths(g: Graph, p: seq<string>, q: seq<string>)
    requires p != [] && q != [] && IsPath(g, p) && IsPath(g, q) && p[|p| - 1] == q[0]
    ensures IsPath(g, p + q[1..])
  {
    var r := p + q[1..];
    forall i, j | 0 <= i && j == i + 1 < |r| ensures Leads(g, r[i], r[j]) {
      if j < |p| {
        assert r[i] == p[i] && r[j] == p[j];
      } else {
        assert r[i] == q[j - |p|] && r[j] == q[j - |p| + 1];
      }
    }
  }

  /** From a run to what it produces. */
  lemma PathToProduct(files: seq<File>, runs: seq<Run>, i: nat, id: string) returns (path: seq<string>)
    requires i < |runs| && Produces(files, runs[i], id)
    ensures path != [] && IsPath(Lineage(files, runs), path) && path[0] == runs[i].id && path[|path| - 1] == id
  {
    var g, run := Lineage(files, runs), runs[i];
    path := [run.id];
    if id != run.id {
      if run.gate.Some? {
        EdgesAreExactly(files, runs, Edge(run.id, run.gate.value, GatedBy));
        LeadsByEdge(g, Edge(run.id, run.gate.value, GatedBy));
        path := path + [run.gate.value];
      }
      if run.gate != Some(id) {
        EdgesAreExactly(files, runs, Edge(ParentOf(run), id, GeneratedBy));
        LeadsByEdge(g, Edge(ParentOf(run), id, GeneratedBy));
        path := path + [id];
      }
    }
  }

  lemma PathOfFeed(files: seq<File>, runs: seq<Run>, i: nat, j: nat) returns (path: seq<string>)
    requires Feeds(files, runs, i, j)
    ensures |path| > 1 && IsPath(Lineage(files, runs), path)
    ensures path[0] == runs[i].id && path[|path| - 1] == runs[j].id
  {
    var g, source := Lineage(files, runs), SourceOf(files, runs, j).value;
    var head := PathToProduct(files, runs, i, source);
    var e := Edge(source, runs[j].id, AnalyzedBy);
    assert IsAnalysis(files, runs, j, e);
    AnalysesOfLineage(files, runs, e);
    LeadsByEdge(g, e);
    JoinPaths(g, head, [source, runs[j].id]);
    path := head + [source, runs[j].id][1..];
  }

  lemma {:induction false} PathOfChain(files: seq<File>, runs: seq<Run>, chain: seq<nat>) returns (path: seq<string>)
    requires IsChain(files, runs, chain) && |chain| > 1
    ensures |path| > 1 && IsPath(Lineage(files, runs), path)
    ensures chain[|chain| - 1] < |runs|
    ensures path[0] == runs[chain[0]].id && path[|path| - 1] == runs[chain[|chain| - 1]].id
    decreases |chain|
  {
    var n := |chain| - 1;
    assert Feeds(files, runs, chain[n - 1], chain[n]);
    path := PathOfFeed(files, runs, chain[n - 1], chain[n]);
    if n > 1 {
      var front := PathOfChain(files, runs, chain[..n]);
      JoinPaths(Lineage(files, runs), front, path);
      path := front + path[1..];
    }
  }

  // ----- from a cycle to a circle of runs -----

  /** An edge that run `i` brought into the graph. */
  ghost predicate MadeBy(files: seq<File>, runs: seq<Run>, i: nat, a: string, b: string) {
    && i < |runs|
    && (|| (a == runs[i].id && runs[i].gate == Some(b))
        || (a == ParentOf(runs[i]) && exists f :: f in files && Claims(runs[i], f) && f.id == b)
        || (SourceOf(files, runs, i) == Some(a) && b == runs[i].id))
  }

  lemma ConnectedIsKnown(ids: set<string>, run: Run)
    ensures ConnectedSource(ids, run).Some? ==> ConnectedSource(ids, run).value in ids
  {
    FirstKnownIsKnown(ids, run.sources);
  }

  lemma KnownGrows(files: seq<File>, runs: seq<Run>, i: nat)
    requires i < |runs|
    ensures KnownTo(files, runs, i) <= Ids(AddRuns(files, runs))
  {
    KnownAfter(files, runs);
    assert forall r :: r in runs[..i] || r in runs[..i + 1] ==> r in runs;
  }

  /** Nothing leads on from an artifact that no run claims. */
  lemma LeftOverIsADeadEnd(files: seq<File>, runs: seq<Run>, f: File, e: Edge)
    requires WellKeyed(files, runs) && f in files && !IsSource(f) && f.id !in Ids(AddRuns(files, runs))
    requires e in Lineage(files, runs).edges
    ensures e.from != f.id
  {
    RanksOf(files, runs);
    KnownAfter(files, runs);
    if e.relation == AnalyzedBy {
      AnalysesOfLineage(files, runs, e);
      var i: nat :| IsAnalysis(files, runs, i, e);
      ConnectedIsKnown(KnownTo(files, runs, i), runs[i]);
      KnownGrows(files, runs, i);
    } else {
      EdgesAreExactly(files, runs, e);
      assert runs != [] ==> runs[|runs| - 1] in runs;
      assert Sources(files) != [] ==> Sources(files)[0] in files && IsSource(Sources(files)[0]);
    }
  }

  /** On a path that goes on, a run made each step. */
  lemma StepIsMade(files: seq<File>, runs: seq<Run>, a: string, b: string, c: string) returns (i: nat)
    requires WellKeyed(files, runs) && Leads(Lineage(files, runs), a, b) && Leads(Lineage(files, runs), b, c)
    ensures MadeBy(files, runs, i, a, b)
  {
    var e :| e in Lineage(files, runs).edges && e.from == a && e.to == b;
    var next :| next in Lineage(files, runs).edges && next.from == b && next.to == c;
    if e.relation == AnalyzedBy {
      AnalysesOfLineage(files, runs, e);
      i :| IsAnalysis(files, runs, i, e);
    } else {
      EdgesAreExactly(files, runs, e);
      if e.relation == GatedBy {
        var r :| r in runs && r.gate == Some(e.to) && e.from == r.id;
        i :| 0 <= i < |runs| && runs[i] == r;
      } else if IsOutputEdge(files, runs, e) {
        var r, f :| r in runs && f in files && Claims(r, f) && e.from == ParentOf(r) && e.to == f.id;
        i :| 0 <= i < |runs| && runs[i] == r;
      } else {
        var f :| f in files && !IsSource(f) && f.id !in Ids(AddRuns(files, runs)) && e.to == f.id;
        LeftOverIsADeadEnd(files, runs, f, next);
        assert false;
      }
    }
  }

  /** Only one run has a given id or gate. */
  lemma ParentIsUnique(files: seq<File>, runs: seq<Run>, i: nat, j: nat, id: string)
    requires WellKeyed(files, runs) && i < |runs| && j < |runs|
    requires Produces(files, runs[i], id) && (id == runs[j].id || runs[j].gate == Some(id))
    ensures i == j
  {
    assert runs[i] in runs && runs[j] in runs;
    assert runs[i].id in RunIds(runs) && runs[j].id in RunIds(runs);
    assert runs[i].gate.Some? ==> runs[i].gate.value in GateIds(runs);
    assert runs[j].gate.Some? ==> runs[j].gate.value in GateIds(runs);
    assert forall f :: f in files ==> f.id in FileIds(files);
  }

  lemma Follow(files: seq<File>, runs: seq<Run>, i: nat, j: nat, a: string, b: string)
    requires WellKeyed(files, runs) && i < |runs| && Produces(files, runs[i], a) && MadeBy(files, runs, j, a, b)
    ensures Produces(files, runs[j], b)
    ensures Feeds(files, runs, i, j) || (i == j && Rank(files, runs, a) < Rank(files, runs, b))
  {
    if !Feeds(files, runs, i, j) {
      ParentIsUnique(files, runs, i, j, a);
      RanksOf(files, runs);
      assert runs[j] in runs;
    }
  }

  /** The runs that made the first steps of a path, each feeding the next. */
  lemma {:induction false} Walk(files: seq<File>, runs: seq<Run>, path: seq<string>, start: nat, k: nat)
    returns (chain: seq<nat>)
    requires WellKeyed(files, runs) && IsPath(Lineage(files, runs), path) && k + 1 < |path|
    requires start < |runs| && Produces(files, runs[start], path[0])
    ensures IsChain(files, runs, chain) && chain[0] == start
    ensures chain[|chain| - 1] < |runs| && Produces(files, runs[chain[|chain| - 1]], path[k])
    ensures |chain| == 1 ==> Rank(files, runs, path[0]) + k <= Rank(files, runs, path[k])
  {
    if k == 0 {
      return [start];
    }
    chain := Walk(files, runs, path, start, k - 1);
    assert Leads(Lineage(files, runs), path[k - 1], path[k]) && Leads(Lineage(files, runs), path[k], path[k + 1]);
    var i := chain[|chain| - 1];
    var j := StepIsMade(files, runs, path[k - 1], path[k], path[k + 1]);
    Follow(files, runs, i, j, path[k - 1], path[k]);
    if Feeds(files, runs, i, j) { chain := chain + [j]; }
  }

  lemma CircleOfCycle(files: seq<File>, runs: seq<Run>, path: seq<string>) returns (chain: seq<nat>)
    requires WellKeyed(files, runs) && |path| > 1 && IsPath(Lineage(files, runs), path) && path[0] == path[|path| - 1]
    ensures |chain| > 1 && IsChain(files, runs, chain) && chain[0] == chain[|chain| - 1]
  {
    var n := |path| - 1;
    assert Leads(Lineage(files, runs), path[n - 1], path[n]) && Leads(Lineage(files, runs), path[0], path[1]);
    var last := StepIsMade(files, runs, path[n - 1], path[n], path[1]);
    assert Produces(files, runs[last], path[0]);
    chain := Walk(files, runs, path, last, n - 1);
    var i := chain[|chain| - 1];
    Follow(files, runs, i, last, path[n - 1], path[n]);
    if Feeds(files, runs, i, last) { chain := chain + [last]; }
  }

  /** Exactly which records close a cycle: those in which runs feed each other in a circle. */
  lemma CycleIffRunsFeedInACircle(files: seq<File>, runs: seq<Run>)
    requires WellKeyed(files, runs)
    ensures HasCycle(Lineage(files, runs)) <==> FeedInACircle(files, runs)
  {
    if HasCycle(Lineage(files, runs)) {
      var path :| |path| > 1 && IsPath(Lineage(files, runs), path) && path[0] == path[|path| - 1];
      var _ := CircleOfCycle(files, runs, path);
    }
    if FeedInACircle(files, runs) {
      var chain :| |chain| > 1 && IsChain(files, runs, chain) && chain[0] == chain[|chain| - 1];
      var _ := PathOfChain(files, runs, chain);
    }
  }

  /** A run that works on itself, or on an output that it claims, closes a cycle. */
  lemma OwnProductClosesACycle(files: seq<File>, runs: seq<Run>, i: nat)
    requires WellKeyed(files, runs) && Feeds(files, runs, i, i)
    ensures HasCycle(Lineage(files, runs))
  {
    assert IsChain(files, runs, [i, i]) && FeedInACircle(files, runs);
    CycleIffRunsFeedInACircle(files, runs);
  }
}
