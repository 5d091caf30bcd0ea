/** The lineage graph told from the records alone: which nodes and edges a reader of the files and runs should find. */
module LineageRecords {
  import opened LineageGraph
  import opened LineageTheorems
  import opened LineageCycles
  import opened Options

  // ----- reading the records -----

  predicate CameIn(f: File) { f.kind in {UserUpload, ProdocuxExtract} }

  predicate CameOutOf(f: File, r: Run) {
    && f.kind in {PdxArtifact, ManifestFile}
    && (f.runId == Some(r.id) || f.id in r.outputs || r.manifest == Some(f.id))
  }

  /** What is in the graph when run `i` looks for its source. */
  predicate Visible(files: seq<File>, runs: seq<Run>, i: nat, id: string)
    requires i < |runs|
  {
    || (exists f :: f in files && CameIn(f) && f.id == id)
    || (exists j :: 0 <= j <= i && runs[j].id == id)
    || (exists j :: 0 <= j < i && runs[j].gate == Some(id))
    || (exists j, f :: 0 <= j < i && f in files && CameOutOf(f, runs[j]) && f.id == id)
  }

  predicate IsFirstVisible(files: seq<File>, runs: seq<Run>, i: nat, k: nat)
    requires i < |runs|
  {
    && k < |runs[i].sources| && Visible(files, runs, i, runs[i].sources[k])
    && forall l :: 0 <= l < k ==> !Visible(files, runs, i, runs[i].sources[l])
  }

  predicate OwnSourceIsVisible(files: seq<File>, runs: seq<Run>, i: nat)
    requires i < |runs|
  {
    runs[i].sourceId.Some? && runs[i].sourceId.value != "" && Visible(files, runs, i, runs[i].sourceId.value)
  }

  /** Its own source if that is in the graph, else the first source of its plan that is. */
  ghost predicate WorksOn(files: seq<File>, runs: seq<Run>, i: nat, source: string) {
    && i < |runs| && source != ""
    && if OwnSourceIsVisible(files, runs, i) then runs[i].sourceId.value == source
       else exists k: nat :: IsFirstVisible(files, runs, i, k) && runs[i].sources[k] == source
  }

  /** An output that is in no run's hands and whose id names nothing else. */
  predicate IsLeftOver(files: seq<File>, runs: seq<Run>, f: File) {
    && f.kind in {PdxArtifact, ManifestFile}
    && (forall g :: g in files && CameIn(g) ==> g.id != f.id)
    && (forall r :: r in runs ==> r.id != f.id && r.gate != Some(f.id))
    && (forall r, g :: r in runs && g in files && CameOutOf(g, r) ==> g.id != f.id)
  }

  predicate IsFirstIn(files: seq<File>, k: nat) {
    k < |files| && CameIn(files[k]) && forall l :: 0 <= l < k ==> !CameIn(files[l])
  }

  /** The last run, or without runs the first upload or extract. */
  ghost predicate CatchesLeftOvers(files: seq<File>, runs: seq<Run>, id: string) {
    if runs != [] then id == runs[|runs| - 1].id else exists k: nat :: IsFirstIn(files, k) && id == files[k].id
  }

  // ----- edges -----

  lemma {:induction false} FirstSource(files: seq<File>)
    ensures Sources(files) == [] <==> forall f :: f in files ==> !CameIn(f)
    ensures Sources(files) != [] ==> exists k: nat :: IsFirstIn(files, k) && Sources(files)[0] == files[k]
  {
    if files != [] {
      var before, last := files[..|files| - 1], files[|files| - 1];
      FirstSource(before);
      assert files == before + [last];
      if Sources(before) != [] {
        var k: nat :| IsFirstIn(before, k) && Sources(before)[0] == before[k];
        assert IsFirstIn(files, k) && Sources(files)[0] == files[k];
      } else if CameIn(last) {
        assert IsFirstIn(files, |before|) && Sources(files)[0] == files[|before|];
      }
    }
  }

  lemma AnchorCatches(files: seq<File>, runs: seq<Run>, id: string)
    ensures AnchorOf(files, runs) == Some(id) <==> CatchesLeftOvers(files, runs, id)
  {
    FirstSource(files);
    if runs == [] && Sources(files) != [] {
      var k: nat :| IsFirstIn(files, k) && Sources(files)[0] == files[k];
      forall l: nat | IsFirstIn(files, l) ensures l == k {}
    }
  }

  lemma LeftOverIsUnknown(files: seq<File>, runs: seq<Run>, f: File)
    requires f in files
    ensures !IsSource(f) && f.id !in Ids(AddRuns(files, runs)) <==> IsLeftOver(files, runs, f)
  {
    hide AddRuns, Ids;
    KnownAfter(files, runs);
    ClaimedAreThoseThatCameOut(files, runs, f.id);
    assert f.id in SourceIds(files) <==> exists g :: g in files && CameIn(g) && g.id == f.id;
  }

  lemma ClaimedAreThoseThatCameOut(files: seq<File>, runs: seq<Run>, id: string)
    ensures id in ClaimedIds(files, runs) <==> exists r, g :: r in runs && g in files && CameOutOf(g, r) && g.id == id
  {
    forall r, f | r in runs && f in files ensures Claims(r, f) <==> CameOutOf(f, r) {}
  }

  /** Exactly which edges say where an output comes from. */
  lemma OutputsComeFrom(files: seq<File>, runs: seq<Run>, e: Edge)
    requires e.relation == GeneratedBy
    ensures e in Lineage(files, runs).edges <==>
              || (exists r, f :: r in runs && f in files && CameOutOf(f, r) && e.to == f.id
                              && e.from == if r.gate.Some? then r.gate.value else r.id)
              || (CatchesLeftOvers(files, runs, e.from)
                  && exists f :: f in files && IsLeftOver(files, runs, f) && e.to == f.id)
  {
    EdgesAreExactly(files, runs, e);
    AnchorCatches(files, runs, e.from);
    forall f | f in files ensures !IsSource(f) && f.id !in Ids(AddRuns(files, runs)) <==> IsLeftOver(files, runs, f) {
      LeftOverIsUnknown(files, runs, f);
    }
    forall r, f | r in runs && f in files ensures Claims(r, f) <==> CameOutOf(f, r) {}
  }

  lemma KnownIsVisible(files: seq<File>, runs: seq<Run>, i: nat, id: string)
    requires i < |runs|
    ensures id in KnownTo(files, runs, i) <==> Visible(files, runs, i, id)
  {
    assert id in SourceIds(files) <==> exists f :: f in files && CameIn(f) && f.id == id;
    assert forall j :: 0 <= j < i ==> runs[..i][j] == runs[j];
    assert forall j :: 0 <= j <= i ==> runs[..i + 1][j] == runs[j];
    if exists j :: 0 <= j <= i && runs[j].id == id {
      var j :| 0 <= j <= i && runs[j].id == id;
      assert runs[..i + 1][j] in runs[..i + 1];
    }
    if exists j :: 0 <= j < i && runs[j].gate == Some(id) {
      var j :| 0 <= j < i && runs[j].gate == Some(id);
      assert runs[..i][j] in runs[..i];
    }
    if exists j, f :: 0 <= j < i && f in files && CameOutOf(f, runs[j]) && f.id == id {
      var j, f :| 0 <= j < i && f in files && CameOutOf(f, runs[j]) && f.id == id;
      assert runs[..i][j] in runs[..i] && Claims(runs[..i][j], f);
    }
  }

  lemma {:induction false} FirstKnownIsFirst(ids: set<string>, names: seq<string>)
    ensures FirstKnown(ids, names).None? <==> forall k :: 0 <= k < |names| ==> names[k] !in ids
    ensures FirstKnown(ids, names).Some? ==>
              exists k :: 0 <= k < |names| && names[k] in ids && FirstKnown(ids, names) == Some(names[k])
                       && forall l :: 0 <= l < k ==> names[l] !in ids
  {
    if names != [] && names[0] !in ids {
      FirstKnownIsFirst(ids, names[1..]);
      if FirstKnown(ids, names[1..]).Some? {
        var k :| 0 <= k < |names| - 1 && names[1..][k] in ids && FirstKnown(ids, names[1..]) == Some(names[1..][k])
              && forall l :: 0 <= l < k ==> names[1..][l] !in ids;
        assert names[k + 1] == names[1..][k];
        forall l | 0 <= l < k + 1 ensures names[l] !in ids {
          if l > 0 { assert names[l] == names[1..][l - 1]; }
        }
      } else {
        forall k | 0 <= k < |names| ensures names[k] !in ids {
          if k > 0 { assert names[k] == names[1..][k - 1]; }
        }
      }
    }
  }

  lemma SourceIsWorkedOn(files: seq<File>, runs: seq<Run>, i: nat, source: string)
    requires i < |runs|
    ensures SourceOf(files, runs, i) == Some(source) <==> WorksOn(files, runs, i, source)
  {
    var known, names := KnownTo(files, runs, i), runs[i].sources;
    forall id ensures id in known <==> Visible(files, runs, i, id) { KnownIsVisible(files, runs, i, id); }
    FirstKnownIsFirst(known, names);
    if FirstKnown(known, names).Some? {
      var k :| 0 <= k < |names| && names[k] in known && FirstKnown(known, names) == Some(names[k])
            && forall l :: 0 <= l < k ==> names[l] !in known;
      assert IsFirstVisible(files, runs, i, k);
      forall l: nat | IsFirstVisible(files, runs, i, l) ensures l == k {}
    }
  }

  /** Exactly which edges say what a run works on. */
  lemma RunsWorkOn(files: seq<File>, runs: seq<Run>, e: Edge)
    requires e.relation == AnalyzedBy
    ensures e in Lineage(files, runs).edges <==>
              exists i: nat :: WorksOn(files, runs, i, e.from) && e.to == runs[i].id
  {
    AnalysesOfLineage(files, runs, e);
    forall i: nat ensures IsAnalysis(files, runs, i, e) <==> WorksOn(files, runs, i, e.from) && e.to == runs[i].id {
      if i < |runs| { SourceIsWorkedOn(files, runs, i, e.from); }
    }
  }

  // ----- nodes -----

  /** What a file is shown as. */
  predicate IsShownAs(f: File, kind: NodeKind) {
    match f.kind
    case UserUpload => kind == SourceNode
    case ProdocuxExtract => kind == SourceNode
    case PdxArtifact => kind == ArtifactNode
    case ManifestFile => kind == ManifestNode
  }

  predicate IsRecord(files: seq<File>, runs: seq<Run>, n: Node) {
    || (exists f :: f in files && n.id == f.id && IsShownAs(f, n.kind))
    || (exists r :: r in runs && n == Node(r.id, RunNode))
    || (exists r :: r in runs && r.gate.Some? && n == Node(r.gate.value, GateNode))
  }

  ghost predicate OnlyRecords(files: seq<File>, runs: seq<Run>, g: Graph) {
    forall n :: n in g.nodes ==> IsRecord(files, runs, n)
  }

  lemma {:induction false} SourcesAreRecords(files: seq<File>, runs: seq<Run>, some: seq<File>)
    requires forall f :: f in some ==> f in files && IsSource(f)
    ensures OnlyRecords(files, runs, AddSources(some))
  {
    if some != [] {
      assert some[|some| - 1] in some;
      SourcesAreRecords(files, runs, some[..|some| - 1]);
    }
  }

  lemma {:induction false} ClaimedAreRecords(files: seq<File>, runs: seq<Run>, g: Graph, some: seq<File>, run: Run)
    requires OnlyRecords(files, runs, g) && forall f :: f in some ==> f in files
    ensures OnlyRecords(files, runs, AddClaimed(g, some, run))
  {
    if some != [] {
      var f := some[|some| - 1];
      assert f in some;
      ClaimedAreRecords(files, runs, g, some[..|some| - 1], run);
      if !IsSource(f) { assert IsShownAs(f, ArtifactKind(f)); }
    }
  }

  lemma {:induction false} RunsAreRecords(files: seq<File>, runs: seq<Run>, n: nat)
    requires n <= |runs|
    ensures OnlyRecords(files, runs, AddRuns(files, runs[..n]))
  {
    if n == 0 {
      SourcesAreRecords(files, runs, Sources(files));
    } else {
      var g, run := AddRuns(files, runs[..n - 1]), runs[n - 1];
      assert runs[..n][..n - 1] == runs[..n - 1] && run in runs;
      RunsAreRecords(files, runs, n - 1);
      assert OnlyRecords(files, runs, AddGate(AddRunNode(g, run), run));
      ClaimedAreRecords(files, runs, AddGate(AddRunNode(g, run), run), files, run);
    }
  }

  lemma {:induction false} RemainingAreRecords(files: seq<File>, runs: seq<Run>, g: Graph, some: seq<File>,
                                               known: set<string>, anchor: Option<string>)
    requires OnlyRecords(files, runs, g) && forall f :: f in some ==> f in files
    ensures OnlyRecords(files, runs, AddRemaining(g, some, known, anchor))
  {
    if some != [] {
      var f := some[|some| - 1];
      assert f in some;
      RemainingAreRecords(files, runs, g, some[..|some| - 1], known, anchor);
      if !IsSource(f) { assert IsShownAs(f, ArtifactKind(f)); }
    }
  }

  lemma RecordIsUnique(files: seq<File>, runs: seq<Run>, m: Node, n: Node)
    requires WellKeyed(files, runs) && IsRecord(files, runs, m) && IsRecord(files, runs, n) && m.id == n.id
    ensures m == n
  {
    var id := m.id;
    assert id in FileIds(files) ==> id !in RunIds(runs) && id !in GateIds(runs);
    assert id in RunIds(runs) ==> id !in GateIds(runs);
    forall f, g | f in files && g in files && f.id == id && g.id == id ensures f == g {
      var i :| 0 <= i < |files| && files[i] == f;
      var j :| 0 <= j < |files| && files[j] == g;
    }
  }

  /** As long as identifiers do not clash, the nodes are exactly the files, the runs and their gates, each shown as
      what it is. */
  lemma NodesAreTheRecords(files: seq<File>, runs: seq<Run>, n: Node)
    requires WellKeyed(files, runs)
    ensures n in Lineage(files, runs).nodes <==> IsRecord(files, runs, n)
  {
    var g := Lineage(files, runs);
    assert runs[..|runs|] == runs;
    RunsAreRecords(files, runs, |runs|);
    RemainingAreRecords(files, runs, AddRuns(files, runs), files, Ids(AddRuns(files, runs)), AnchorOf(files, runs));
    if IsRecord(files, runs, n) {
      NodesAreExactly(files, runs);
      assert n.id in Ids(g);
      var m :| m in g.nodes && m.id == n.id;
      RecordIsUnique(files, runs, m, n);
    }
  }
}
