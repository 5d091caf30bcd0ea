/** Final Draft ingestion: paragraphs are grouped into scenes at their headings. */
module ScriptChunks {
  import opened Numerals
  import opened PyText
  import opened Sequences

  /** A paragraph element, of type Action unless it says otherwise, with the text nodes under it in document order. */
  datatype Paragraph = Paragraph(kind: string, texts: seq<string>)

  datatype SceneChunk = SceneChunk(number: nat, slugline: string, lines: seq<string>)

  function TextOf(p: Paragraph): string { Strip(Concat(p.texts)) }

  predicate IsHeading(p: Paragraph) { p.kind == "Scene Heading" }

  function Format(p: Paragraph, upper: string -> string): string {
    "[" + upper(p.kind) + "] " + TextOf(p)
  }

  function NonEmpty(paragraphs: seq<Paragraph>): seq<Paragraph> {
    if paragraphs == [] then []
    else
      var last := paragraphs[|paragraphs| - 1];
      NonEmpty(paragraphs[..|paragraphs| - 1]) + (if TextOf(last) != "" then [last] else [])
  }

  function Lines(scene: seq<Paragraph>, upper: string -> string): seq<string> {
    seq(|scene|, i requires 0 <= i < |scene| => Format(scene[i], upper))
  }

  /** A heading can only open a scene. */
  ghost predicate IsScene(scene: seq<Paragraph>) {
    scene != [] && forall i :: 0 < i < |scene| ==> !IsHeading(scene[i])
  }

  /** Every scene but the first is opened by a heading. */
  ghost predicate AreScenes(scenes: seq<seq<Paragraph>>) {
    && (forall i :: 0 <= i < |scenes| ==> IsScene(scenes[i]))
    && (forall i :: 0 < i < |scenes| ==> IsHeading(scenes[i][0]))
  }

  function Slugline(scene: seq<Paragraph>): string
    requires scene != []
  {
    if IsHeading(scene[0]) then TextOf(scene[0]) else "SCENE 1"
  }

  ghost predicate Numbered(scenes: seq<seq<Paragraph>>, chunks: seq<SceneChunk>, upper: string -> string) {
    && |chunks| == |scenes| && AreScenes(scenes)
    && forall i :: 0 <= i < |chunks| ==> chunks[i] == SceneChunk(i + 1, Slugline(scenes[i]), Lines(scenes[i], upper))
  }

  function AllLines(chunks: seq<SceneChunk>): seq<string> {
    if chunks == [] then [] else AllLines(chunks[..|chunks| - 1]) + chunks[|chunks| - 1].lines
  }

  lemma {:induction false} LinesOfBoth(a: seq<Paragraph>, b: seq<Paragraph>, upper: string -> string)
    ensures Lines(a + b, upper) == Lines(a, upper) + Lines(b, upper)
  {
    var all, parts := Lines(a + b, upper), Lines(a, upper) + Lines(b, upper);
    assert |all| == |parts|;
    forall i | 0 <= i < |all| ensures all[i] == parts[i] {
      assert (a + b)[i] == if i < |a| then a[i] else b[i - |a|];
    }
  }

  lemma {:induction false} LinesOfScenes(scenes: seq<seq<Paragraph>>, chunks: seq<SceneChunk>, upper: string -> string)
    requires Numbered(scenes, chunks, upper)
    ensures Lines(Concat(scenes), upper) == AllLines(chunks)
  {
    if scenes != [] {
      var last := |scenes| - 1;
      LinesOfScenes(scenes[..last], chunks[..last], upper);
      LinesOfBoth(Concat(scenes[..last]), scenes[last], upper);
    }
  }

  lemma FirstSceneIsNoLonger(a: seq<seq<Paragraph>>, b: seq<seq<Paragraph>>)
    requires a != [] && b != [] && AreScenes(a) && AreScenes(b) && Concat(a) == Concat(b)
    ensures |a[0]| <= |b[0]|
  {
    ConcatFromFront(a);
    ConcatFromFront(b);
    var all, n := Concat(a), |b[0]|;
    if b[1..] == [] {
      assert |all| == n;
    } else {
      ConcatFromFront(b[1..]);
      assert all[n] == b[1][0];
      assert forall i :: 0 < i < |a[0]| ==> all[i] == a[0][i] && !IsHeading(all[i]);
    }
  }

  /** The paragraphs determine the scenes. */
  lemma {:induction false} ScenesAreUnique(a: seq<seq<Paragraph>>, b: seq<seq<Paragraph>>)
    requires AreScenes(a) && AreScenes(b) && Concat(a) == Concat(b)
    ensures a == b
  {
    if a == [] {
      if b != [] { ConcatFromFront(b); }
    } else if b == [] {
      ConcatFromFront(a);
    } else {
      FirstSceneIsNoLonger(a, b);
      FirstSceneIsNoLonger(b, a);
      ConcatFromFront(a);
      ConcatFromFront(b);
      assert a[0] == Concat(a)[..|a[0]|] == b[0];
      assert Concat(a[1..]) == Concat(a)[|a[0]|..] == Concat(b[1..]);
      ScenesAreUnique(a[1..], b[1..]);
    }
  }

  // ----- what the lines and the count say -----

  /** What a line says: the text in brackets before the first closing one, and what follows it. */
  function ReadLine(line: string): (string, string) {
    var pieces := SplitOn(line, ']');
    (if pieces[0] != "" then pieces[0][1..] else "", if |pieces| > 1 then Join(pieces[1..], "]") else "")
  }

  /** A line tells the type of its paragraph and its text, exactly when the type holds no closing bracket. */
  lemma LineReadsBackIffPlain(p: Paragraph, upper: string -> string)
    ensures Format(p, upper)[0] == '['
    ensures ReadLine(Format(p, upper)) == (upper(p.kind), " " + TextOf(p)) <==> ']' !in upper(p.kind)
  {
    hide TextOf, Join, IsSpace;
    var line, head, tail := Format(p, upper), "[" + upper(p.kind), " " + TextOf(p);
    assert line == head + [']'] + tail;
    if ']' !in upper(p.kind) {
      SplitFirst(head, ']', tail);
      JoinOfSplit(tail, ']');
      assert ([head] + SplitOn(tail, ']'))[1..] == SplitOn(tail, ']');
    } else {
      var piece := SplitOn(line, ']')[0];
      assert ']' !in (if piece != "" then piece[1..] else "");
    }
  }

  /** The text of a paragraph is its text nodes one after another, without the white space at both ends. */
  lemma TextOfParagraph(p: Paragraph)
    ensures TextOf(p) == "" <==> IsBlank(Concat(p.texts))
    ensures exists i, j :: 0 <= i <= j <= |Concat(p.texts)| && TextOf(p) == Concat(p.texts)[i..j]
                        && IsBlank(Concat(p.texts)[..i]) && IsBlank(Concat(p.texts)[j..])
  {
    StripDropsOnlySpace(Concat(p.texts));
  }

  function Headings(paragraphs: seq<Paragraph>): nat {
    if paragraphs == [] then 0
    else
      var last := paragraphs[|paragraphs| - 1];
      Headings(paragraphs[..|paragraphs| - 1]) + (if last.kind == "Scene Heading" then 1 else 0)
  }

  lemma {:induction false} HeadingsOfBoth(a: seq<Paragraph>, b: seq<Paragraph>)
    ensures Headings(a + b) == Headings(a) + Headings(b)
  {
    if b == [] {
      assert a + b == a;
    } else {
      assert (a + b)[..|a + b| - 1] == a + b[..|b| - 1];
      HeadingsOfBoth(a, b[..|b| - 1]);
    }
  }

  lemma {:induction false} HeadingsOfScene(scene: seq<Paragraph>)
    requires IsScene(scene)
    ensures Headings(scene) == if scene[0].kind == "Scene Heading" then 1 else 0
  {
    var n := |scene| - 1;
    if n > 0 {
      HeadingsOfScene(scene[..n]);
      assert scene[..n][0] == scene[0] && !IsHeading(scene[n]);
    } else {
      assert scene[..0] == [];
    }
  }

  /** There is one scene for each heading, and one more when the script does not start with one. */
  lemma {:induction false} ScenesAreCounted(scenes: seq<seq<Paragraph>>)
    requires AreScenes(scenes)
    ensures Concat(scenes) == [] <==> scenes == []
    ensures scenes != [] ==> scenes[0] != [] && Concat(scenes)[0] == scenes[0][0]
    ensures |scenes| == Headings(Concat(scenes))
              + (if scenes != [] && Concat(scenes)[0].kind != "Scene Heading" then 1 else 0)
  {
    if scenes != [] {
      var last := |scenes| - 1;
      ScenesAreCounted(scenes[..last]);
      HeadingsOfScene(scenes[last]);
      HeadingsOfBoth(Concat(scenes[..last]), scenes[last]);
      assert last == 0 ==> Concat(scenes) == scenes[0];
    }
  }

  lemma OneMoreScene(scenes: seq<seq<Paragraph>>, scene: seq<Paragraph>, chunks: seq<SceneChunk>,
                     upper: string -> string)
    requires Numbered(scenes, chunks, upper) && IsScene(scene) && (scenes != [] ==> IsHeading(scene[0]))
    ensures Concat(scenes + [scene]) == Concat(scenes) + scene
    ensures Numbered(scenes + [scene], chunks + [SceneChunk(|chunks| + 1, Slugline(scene), Lines(scene, upper))], upper)
  {
    ConcatOneMore(scenes, scene);
  }

  /** The scene being read: its lines and slugline are known, and it is the first or has its heading. */
  ghost predicate Open(first: bool, scene: seq<Paragraph>, slugline: string, lines: seq<string>,
                       upper: string -> string) {
    && lines == Lines(scene, upper)
    && if scene == [] then first && slugline == "SCENE 1"
       else IsScene(scene) && slugline == Slugline(scene) && (!first ==> IsHeading(scene[0]))
  }

  lemma OpenWithOneMore(first: bool, scene: seq<Paragraph>, slugline: string, lines: seq<string>, p: Paragraph,
                        upper: string -> string)
    requires Open(first, scene, slugline, lines, upper) && !IsHeading(p)
    ensures Open(first, scene + [p], slugline, lines + [Format(p, upper)], upper)
  {
  }

  lemma OpenAtHeading(first: bool, p: Paragraph, upper: string -> string)
    requires IsHeading(p)
    ensures Open(first, [p], TextOf(p), [Format(p, upper)], upper)
  {
  }

  lemma {:induction false} NonEmptyOneMore(paragraphs: seq<Paragraph>, i: nat)
    requires i < |paragraphs|
    ensures NonEmpty(paragraphs[..i + 1])
         == NonEmpty(paragraphs[..i]) + (if TextOf(paragraphs[i]) != "" then [paragraphs[i]] else [])
  {
    assert paragraphs[..i + 1][..i] == paragraphs[..i];
  }

  /** Where the loop stands: the scenes closed, and the one being read. */
  datatype Reader = Reader(chunks: seq<SceneChunk>, number: nat, slugline: string, lines: seq<string>)

  ghost predicate Reading(r: Reader, scenes: seq<seq<Paragraph>>, scene: seq<Paragraph>, upper: string -> string) {
    && Numbered(scenes, r.chunks, upper) && r.number == |r.chunks| + 1
    && Open(scenes == [], scene, r.slugline, r.lines, upper)
  }

  method CloseScene(r: Reader, ghost scenes: seq<seq<Paragraph>>, ghost scene: seq<Paragraph>,
                    ghost upper: string -> string)
    returns (chunks: seq<SceneChunk>)
    requires Reading(r, scenes, scene, upper) && scene != []
    ensures Numbered(scenes + [scene], chunks, upper) && |chunks| == |r.chunks| + 1
    ensures Concat(scenes + [scene]) == Concat(scenes) + scene
  {
    OneMoreScene(scenes, scene, r.chunks, upper);
    chunks := r.chunks + [SceneChunk(r.number, r.slugline, r.lines)];
  }

  /** One non-empty paragraph. */
  method Take(r: Reader, p: Paragraph, upper: string -> string, ghost scenes: seq<seq<Paragraph>>,
              ghost scene: seq<Paragraph>)
    returns (r': Reader, ghost scenes': seq<seq<Paragraph>>, ghost scene': seq<Paragraph>)
    requires Reading(r, scenes, scene, upper)
    ensures Reading(r', scenes', scene', upper) && Concat(scenes') + scene' == Concat(scenes) + scene + [p]
              && scene' != []
  {
    if IsHeading(p) {
      var chunks, number := r.chunks, r.number;
      scenes' := scenes;
      if r.lines != [] {
        chunks := CloseScene(r, scenes, scene, upper);
        scenes', number := scenes + [scene], number + 1;
      }
      r', scene' := Reader(chunks, number, TextOf(p), [Format(p, upper)]), [p];
      OpenAtHeading(scenes' == [], p, upper);
    } else {
      r', scenes', scene' := r.(lines := r.lines + [Format(p, upper)]), scenes, scene + [p];
      OpenWithOneMore(scenes == [], scene, r.slugline, r.lines, p, upper);
    }
  }

  method GroupScenes(paragraphs: seq<Paragraph>, upper: string -> string)
    returns (chunks: seq<SceneChunk>, number: nat, ghost scenes: seq<seq<Paragraph>>)
    ensures Numbered(scenes, chunks, upper) && Concat(scenes) == NonEmpty(paragraphs)
    ensures number == Max(1, |chunks|)
  {
    var r := Reader([], 1, "SCENE 1", []);
    ghost var scene: seq<Paragraph> := [];
    scenes := [];
    for i := 0 to |paragraphs|
      invariant Reading(r, scenes, scene, upper) && Concat(scenes) + scene == NonEmpty(paragraphs[..i])
      invariant scene == [] ==> scenes == []
    {
      NonEmptyOneMore(paragraphs, i);
      if TextOf(paragraphs[i]) != "" {
        r, scenes, scene := Take(r, paragraphs[i], upper, scenes, scene);
      }
    }
    assert paragraphs[..|paragraphs|] == paragraphs;
    chunks, number := r.chunks, r.number;
    if r.lines != [] {
      chunks := CloseScene(r, scenes, scene, upper);
      scenes := scenes + [scene];
    }
  }

  /** Grouping loses nothing: the chunks' lines, one after another, are the formatted non-empty paragraphs, scene
      by scene, and the reported count is the number of scenes, or one. */
  method IngestFdx(paragraphs: seq<Paragraph>, upper: string -> string)
    returns (chunks: seq<SceneChunk>, count: nat, ghost scenes: seq<seq<Paragraph>>)
    ensures Numbered(scenes, chunks, upper) && Concat(scenes) == NonEmpty(paragraphs)
    ensures AllLines(chunks) == Lines(NonEmpty(paragraphs), upper)
    ensures count == Max(1, |chunks|)
    ensures var kept := NonEmpty(paragraphs);
      |chunks| == Headings(kept) + (if kept != [] && kept[0].kind != "Scene Heading" then 1 else 0)
  {
    var number;
    chunks, number, scenes := GroupScenes(paragraphs, upper);
    ScenesAreCounted(scenes);
    LinesOfScenes(scenes, chunks, upper);
    count := Max(1, number);
  }
}
