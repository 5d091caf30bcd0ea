/** Plain-text ingestion of backend/app/integrations/prodocux_facade.py: paragraphs are gathered into
    chunks of about a thousand characters, and every chunk records where its text stands in the document. */
module TextChunks {
  import opened Numerals
  import opened PyText
  import opened Sequences

  const DELIMITER: string := "\n\n"
  const TARGET: nat := 1000

  datatype RawChunk = RawChunk(page: nat, text: string)

  datatype DocumentChunk = DocumentChunk(chunkId: string, ordinal: nat, page: nat, text: string, charStart: nat,
                                         charEnd: nat)

  // ----- paragraphs -----

  /** Carriage returns, with or without a line feed after them, become line feeds. */
  function Normalized(s: string): (t: string)
    ensures '\r' !in t && ('\r' !in s ==> t == s)
  {
    if s == [] then []
    else if s[0] == '\r' then ['\n'] + Normalized(if |s| > 1 && s[1] == '\n' then s[2..] else s[1..])
    else [s[0]] + Normalized(s[1..])
  }

  predicate BreakAt(s: string, i: nat) {
    i + 1 < |s| && s[i] == '\n' && s[i + 1] == '\n'
  }

  ghost predicate Unbroken(s: string) { forall i: nat :: !BreakAt(s, i) }

  function FindBreak(s: string, from: nat): (k: nat)
    requires from <= |s|
    ensures from <= k <= |s| && (k < |s| ==> BreakAt(s, k))
    ensures forall i: nat :: from <= i < k ==> !BreakAt(s, i)
    decreases |s| - from
  {
    if from == |s| || BreakAt(s, from) then from else FindBreak(s, from + 1)
  }

  /** Splitting at blank lines, left to right. */
  function Split(s: string): seq<string> {
    var k := FindBreak(s, 0);
    if k == |s| then [s] else [s[..k]] + Split(s[k + 2..])
  }

  function KeepTrimmed(pieces: seq<string>): seq<string> {
    if pieces == [] then []
    else (if Strip(pieces[0]) != "" then [Strip(pieces[0])] else []) + KeepTrimmed(pieces[1..])
  }

  function Paragraphs(text: string): seq<string> { KeepTrimmed(Split(Normalized(text))) }

  /** A paragraph of some text: not blank, trimmed, without carriage returns or blank lines in it. */
  ghost predicate IsParagraph(p: string) {
    p != "" && IsTrim(p) && '\r' !in p && Unbroken(p)
  }

  lemma {:induction false} SplitPieces(s: string)
    requires '\r' !in s
    ensures forall i :: 0 <= i < |Split(s)| ==> Unbroken(Split(s)[i]) && '\r' !in Split(s)[i]
    decreases |s|
  {
    var k := FindBreak(s, 0);
    forall i: nat ensures !BreakAt(s[..k], i) {
      assert i < k ==> !BreakAt(s, i);
    }
    if k < |s| { SplitPieces(s[k + 2..]); }
  }

  lemma PartIsUnbroken(s: string, from: nat, to: nat)
    requires from <= to <= |s| && Unbroken(s) && '\r' !in s
    ensures Unbroken(s[from..to]) && '\r' !in s[from..to]
  {
    forall i: nat ensures !BreakAt(s[from..to], i) {
      assert !BreakAt(s, from + i);
    }
  }

  lemma StripKeepsParts(s: string)
    requires Unbroken(s) && '\r' !in s
    ensures Unbroken(Strip(s)) && '\r' !in Strip(s)
  {
    hide Unbroken, StripLeft, StripRight, IsSpace;
    var left := StripLeft(s);
    PartIsUnbroken(s, |s| - |left|, |s|);
    assert left == s[|s| - |left|..|s|];
    PartIsUnbroken(left, 0, |StripRight(left)|);
  }

  lemma {:induction false} KeptPieces(pieces: seq<string>)
    requires forall i :: 0 <= i < |pieces| ==> Unbroken(pieces[i]) && '\r' !in pieces[i]
    ensures forall i :: 0 <= i < |KeepTrimmed(pieces)| ==> IsParagraph(KeepTrimmed(pieces)[i])
  {
    if pieces != [] {
      StripKeepsParts(pieces[0]);
      KeptPieces(pieces[1..]);
    }
  }

  lemma ParagraphsAreParagraphs(text: string)
    ensures forall i :: 0 <= i < |Paragraphs(text)| ==> IsParagraph(Paragraphs(text)[i])
  {
    SplitPieces(Normalized(text));
    KeptPieces(Split(Normalized(text)));
  }

  lemma SplitOne(p: string)
    requires IsParagraph(p)
    ensures Split(p) == [p]
  {
    assert FindBreak(p, 0) == |p|;
  }

  lemma FirstBreak(p: string, rest: string)
    requires IsParagraph(p)
    ensures FindBreak(p + DELIMITER + rest, 0) == |p|
  {
    var s := p + DELIMITER + rest;
    assert BreakAt(s, |p|);
    forall i: nat | i < |p| ensures !BreakAt(s, i) {
      assert !BreakAt(p, i);
      assert p[|p| - 1] != '\n';
    }
  }

  lemma {:induction false} SplitOfJoin(paragraphs: seq<string>)
    requires paragraphs != [] && forall i :: 0 <= i < |paragraphs| ==> IsParagraph(paragraphs[i])
    ensures Split(Join(paragraphs, DELIMITER)) == paragraphs
  {
    var p := paragraphs[0];
    if |paragraphs| == 1 {
      SplitOne(p);
    } else {
      var rest := Join(paragraphs[1..], DELIMITER);
      var s := p + DELIMITER + rest;
      FirstBreak(p, rest);
      assert s[..|p|] == p && s[|p| + 2..] == rest;
      SplitOfJoin(paragraphs[1..]);
    }
  }

  lemma {:induction false} JoinHasNoReturns(paragraphs: seq<string>)
    requires forall i :: 0 <= i < |paragraphs| ==> IsParagraph(paragraphs[i])
    ensures '\r' !in Join(paragraphs, DELIMITER)
  {
    if |paragraphs| > 1 { JoinHasNoReturns(paragraphs[1..]); }
  }

  lemma {:induction false} KeepAll(paragraphs: seq<string>)
    requires forall i :: 0 <= i < |paragraphs| ==> IsParagraph(paragraphs[i])
    ensures KeepTrimmed(paragraphs) == paragraphs
  {
    if paragraphs != [] { KeepAll(paragraphs[1..]); }
  }

  lemma {:induction false} StreamIsStable(paragraphs: seq<string>)
    requires forall i :: 0 <= i < |paragraphs| ==> IsParagraph(paragraphs[i])
    ensures Paragraphs(Join(paragraphs, DELIMITER)) == paragraphs
  {
    if paragraphs == [] {
      assert Split("") == [""] && KeepTrimmed([""]) == [];
    } else {
      JoinHasNoReturns(paragraphs);
      SplitOfJoin(paragraphs);
      KeepAll(paragraphs);
    }
  }

  /** The stream that the offsets index is a normal form: ingesting it again finds the same paragraphs. */
  lemma {:induction false} StreamKeepsParagraphs(text: string)
    ensures Paragraphs(Join(Paragraphs(text), DELIMITER)) == Paragraphs(text)
  {
    ParagraphsAreParagraphs(text);
    StreamIsStable(Paragraphs(text));
  }

  // ----- nothing but white space is lost -----

  /** What is left without its white space. */
  function Ink(s: string): string {
    if s == [] then [] else (if IsSpace(s[0]) then [] else [s[0]]) + Ink(s[1..])
  }

  lemma {:induction false} InkOfBoth(a: string, b: string)
    ensures Ink(a + b) == Ink(a) + Ink(b)
  {
    if a == [] {
      assert a + b == b;
    } else {
      assert (a + b)[1..] == a[1..] + b;
      InkOfBoth(a[1..], b);
    }
  }

  lemma {:induction false} BlankHasNoInk(s: string)
    requires IsBlank(s)
    ensures Ink(s) == ""
  {
    if s != [] { BlankHasNoInk(s[1..]); }
  }

  lemma InkWithGap(head: string, gap: string, tail: string)
    requires IsBlank(gap)
    ensures Ink(head + gap + tail) == Ink(head) + Ink(tail)
  {
    hide Ink, IsBlank;
    BlankHasNoInk(gap);
    InkOfBoth(head, gap);
    InkOfBoth(head + gap, tail);
  }

  lemma StripKeepsInk(s: string)
    ensures Ink(Strip(s)) == Ink(s)
  {
    hide Strip, Ink, IsBlank;
    StripDropsOnlySpace(s);
    var i, j :| 0 <= i <= j <= |s| && Strip(s) == s[i..j] && IsBlank(s[..i]) && IsBlank(s[j..]);
    BlankHasNoInk(s[..i]);
    BlankHasNoInk(s[j..]);
    InkOfBoth(s[..i], s[i..j]);
    InkOfBoth(s[..i] + s[i..j], s[j..]);
    assert s == s[..i] + s[i..j] + s[j..];
  }

  lemma {:induction false} NormalizedKeepsInk(s: string)
    ensures Ink(Normalized(s)) == Ink(s)
    decreases |s|
  {
    if s != [] {
      var rest := if s[0] == '\r' && |s| > 1 && s[1] == '\n' then s[2..] else s[1..];
      NormalizedKeepsInk(rest);
      if |s| > 1 && s[0] == '\r' && s[1] == '\n' { assert rest == s[1..][1..]; }
      InkOfBoth([if s[0] == '\r' then '\n' else s[0]], Normalized(rest));
    }
  }

  lemma ConcatOfOne(s: string)
    ensures Concat([s]) == s
  {
    assert Concat([s][..0]) == [];
  }

  lemma BreakIsBlank(s: string, k: nat)
    requires BreakAt(s, k)
    ensures k + 2 <= |s| && IsBlank(s[k..k + 2])
  {
  }

  lemma {:induction false} SplitKeepsInk(s: string)
    ensures Ink(Concat(Split(s))) == Ink(s)
    decreases |s|
  {
    hide Ink, IsBlank, BreakAt, FindBreak, Concat;
    var k := FindBreak(s, 0);
    ConcatFromFront(Split(s));
    if k == |s| {
      ConcatOfOne(s);
    } else {
      BreakIsBlank(s, k);
      var tail := s[k + 2..];
      SplitKeepsInk(tail);
      assert Split(s)[1..] == Split(tail);
      InkOfBoth(s[..k], Concat(Split(tail)));
      InkWithGap(s[..k], s[k..k + 2], tail);
      assert s == s[..k] + s[k..k + 2] + tail;
    }
  }

  lemma {:induction false} KeptHaveTheInk(pieces: seq<string>)
    ensures Ink(Concat(KeepTrimmed(pieces))) == Ink(Concat(pieces))
  {
    hide Strip, Ink;
    if pieces != [] {
      var first, rest := Strip(pieces[0]), KeepTrimmed(pieces[1..]);
      KeptHaveTheInk(pieces[1..]);
      ConcatFromFront(pieces);
      InkOfBoth(pieces[0], Concat(pieces[1..]));
      StripKeepsInk(pieces[0]);
      InkOfBoth(first, Concat(rest));
      if first != "" {
        ConcatFromFront(KeepTrimmed(pieces));
        assert KeepTrimmed(pieces)[1..] == rest;
      } else {
        assert KeepTrimmed(pieces) == rest && first + Concat(rest) == Concat(rest);
      }
    }
  }

  /** The paragraphs hold every character of the text that is not white space, in order. */
  lemma ParagraphsKeepInk(text: string)
    ensures Ink(Concat(Paragraphs(text))) == Ink(text)
  {
    NormalizedKeepsInk(text);
    SplitKeepsInk(Normalized(text));
    KeptHaveTheInk(Split(Normalized(text)));
  }

  lemma {:induction false} InkOfJoin(parts: seq<string>)
    ensures Ink(Join(parts, DELIMITER)) == Ink(Concat(parts))
  {
    hide Ink;
    if |parts| == 1 {
      ConcatOfOne(parts[0]);
    } else if parts != [] {
      InkOfJoin(parts[1..]);
      ConcatFromFront(parts);
      InkOfBoth(parts[0], Concat(parts[1..]));
      InkWithGap(parts[0], DELIMITER, Join(parts[1..], DELIMITER));
    }
  }

  /** The joined document holds what the text holds, up to white space. */
  lemma DocumentKeepsInk(text: string)
    ensures Ink(Join(Paragraphs(text), DELIMITER)) == Ink(text)
  {
    hide Ink, Join, Concat, Paragraphs;
    ParagraphsKeepInk(text);
    InkOfJoin(Paragraphs(text));
  }

  /** The text with every line feed written as another line end. */
  function WithLineEnds(s: string, end: string): string {
    if s == [] then [] else (if s[0] == '\n' then end else [s[0]]) + WithLineEnds(s[1..], end)
  }

  lemma {:induction false} NormalizedOfLineEnds(s: string, end: string)
    requires '\r' !in s && end in {"\n", "\r\n", "\r"}
    ensures Normalized(WithLineEnds(s, end)) == s
  {
    if s != [] {
      var rest := WithLineEnds(s[1..], end);
      NormalizedOfLineEnds(s[1..], end);
      assert s == [s[0]] + s[1..];
      if s[0] != '\n' {
        assert ([s[0]] + rest)[1..] == rest;
      } else if end == "\r\n" {
        assert (end + rest)[2..] == rest;
      } else {
        assert (end + rest)[1..] == rest;
        assert end == "\r" && rest != [] ==> rest[0] != '\n';
      }
    }
  }

  /** A document has the same paragraphs whichever way its lines end. */
  lemma LineEndsDoNotMatter(s: string, end: string)
    requires '\r' !in s && end in {"\n", "\r\n", "\r"}
    ensures Paragraphs(WithLineEnds(s, end)) == Paragraphs(s)
  {
    NormalizedOfLineEnds(s, end);
  }

  // ----- gathering paragraphs -----

  predicate IsLong(group: seq<string>) { |Join(group, DELIMITER)| >= TARGET }

  /** A group stops at the paragraph that makes it long. */
  ghost predicate StopsInTime(group: seq<string>) {
    group != [] && !IsLong(group[..|group| - 1])
  }

  ghost predicate AllLong(groups: seq<seq<string>>) {
    forall i :: 0 <= i < |groups| ==> StopsInTime(groups[i]) && IsLong(groups[i])
  }

  /** Every group stops in time, and all but the last are long. */
  ghost predicate Greedy(groups: seq<seq<string>>) {
    && (forall i :: 0 <= i < |groups| ==> StopsInTime(groups[i]))
    && (forall i :: 0 <= i < |groups| - 1 ==> IsLong(groups[i]))
  }

  function Texts(groups: seq<seq<string>>): seq<string> {
    seq(|groups|, i requires 0 <= i < |groups| => Join(groups[i], DELIMITER))
  }

  ghost predicate Chunked(groups: seq<seq<string>>, raw: seq<RawChunk>) {
    |raw| == |groups| && forall i :: 0 <= i < |raw| ==> raw[i] == RawChunk(i + 1, Join(groups[i], DELIMITER))
  }

  ghost predicate Gathering(seen: seq<string>, groups: seq<seq<string>>, raw: seq<RawChunk>, current: seq<string>) {
    && Concat(groups) + current == seen && AllLong(groups) && Chunked(groups, raw)
    && !IsLong(current) && (current != [] ==> StopsInTime(current))
  }

  lemma GatheringNothing()
    ensures Gathering([], [], [], [])
  {
  }

  lemma KeepGathering(seen: seq<string>, groups: seq<seq<string>>, raw: seq<RawChunk>, current: seq<string>, p: string)
    requires Gathering(seen, groups, raw, current) && !IsLong(current + [p])
    ensures Gathering(seen + [p], groups, raw, current + [p])
  {
    assert (current + [p])[..|current|] == current;
  }

  lemma FlushGroup(groups: seq<seq<string>>, raw: seq<RawChunk>, group: seq<string>)
    requires AllLong(groups) && Chunked(groups, raw) && StopsInTime(group)
    ensures Concat(groups + [group]) == Concat(groups) + group
    ensures Greedy(groups + [group]) && (IsLong(group) ==> AllLong(groups + [group]))
    ensures Chunked(groups + [group], raw + [RawChunk(|raw| + 1, Join(group, DELIMITER))])
  {
    ConcatOneMore(groups, group);
  }

  lemma FlushLong(seen: seq<string>, groups: seq<seq<string>>, raw: seq<RawChunk>, current: seq<string>, p: string)
    requires Gathering(seen, groups, raw, current) && IsLong(current + [p])
    ensures Gathering(seen + [p], groups + [current + [p]],
                      raw + [RawChunk(|raw| + 1, Join(current + [p], DELIMITER))], [])
  {
    assert (current + [p])[..|current|] == current;
    FlushGroup(groups, raw, current + [p]);
  }

  /** The loop of _ingest_txt: `groups` are the paragraphs behind each chunk. */
  method Gather(paragraphs: seq<string>) returns (raw: seq<RawChunk>, pages: nat, ghost groups: seq<seq<string>>)
    ensures Concat(groups) == paragraphs && Greedy(groups) && Chunked(groups, raw)
    ensures forall i :: 0 <= i < |raw| ==> raw[i].page == i + 1 && (i < |raw| - 1 ==> |raw[i].text| >= TARGET)
    ensures pages == if groups != [] && IsLong(groups[|groups| - 1]) then |raw| + 1 else if raw == [] then 1 else |raw|
  {
    hide Join, Concat;
    raw, groups := [], [];
    var current: seq<string> := [];
    var page := 1;
    GatheringNothing();
    for i := 0 to |paragraphs|
      invariant Gathering(paragraphs[..i], groups, raw, current) && page == |raw| + 1
    {
      var p := paragraphs[i];
      assert paragraphs[..i + 1] == paragraphs[..i] + [p];
      if |Join(current + [p], DELIMITER)| >= 1000 {
        FlushLong(paragraphs[..i], groups, raw, current, p);
        raw := raw + [RawChunk(page, Join(current + [p], DELIMITER))];
        groups := groups + [current + [p]];
        current := [];
        page := page + 1;
      } else {
        KeepGathering(paragraphs[..i], groups, raw, current, p);
        current := current + [p];
      }
    }
    assert paragraphs[..|paragraphs|] == paragraphs;
    if current != [] {
      FlushGroup(groups, raw, current);
      raw := raw + [RawChunk(page, Join(current, DELIMITER))];
      groups := groups + [current];
    }
    pages := Max(1, page);
  }

  lemma {:induction false} PrefixJoinsShorter(group: seq<string>, n: nat)
    requires n <= |group|
    ensures |Join(group[..n], DELIMITER)| <= |Join(group, DELIMITER)|
    decreases |group| - n
  {
    if n == |group| {
      assert group[..n] == group;
    } else {
      PrefixJoinsShorter(group, n + 1);
      assert group[..n + 1] == group[..n] + [group[n]];
      if n > 0 { JoinAppend(group[..n], [group[n]], DELIMITER); }
    }
  }

  lemma {:induction false} FirstGroupIsNoShorter(a: seq<seq<string>>, b: seq<seq<string>>)
    requires a != [] && b != [] && Greedy(a) && Greedy(b) && Concat(a) == Concat(b)
    ensures |a[0]| >= |b[0]|
  {
    ConcatFromFront(a);
    ConcatFromFront(b);
    var all, n := Concat(a), |a[0]|;
    assert n < |b[0]| ==> !IsLong(a[0]) by {
      if n < |b[0]| {
        var short := b[0][..|b[0]| - 1];
        assert short[..n] == all[..n] == a[0];
        PrefixJoinsShorter(short, n);
      }
    }
    if !IsLong(a[0]) {
      assert |a| == 1 && Concat(a[1..]) == [];
      assert |b[0]| <= |all| == n;
    }
  }

  lemma {:induction false} NothingToGroup(groups: seq<seq<string>>)
    requires Greedy(groups) && Concat(groups) == []
    ensures groups == []
  {
    if groups != [] { ConcatFromFront(groups); }
  }

  lemma GreedyTail(groups: seq<seq<string>>)
    requires groups != [] && Greedy(groups)
    ensures Greedy(groups[1..])
  {
  }

  /** There is only one way to group greedily: the chunks are determined by the paragraphs. */
  lemma {:induction false} GreedyIsUnique(a: seq<seq<string>>, b: seq<seq<string>>)
    requires Greedy(a) && Greedy(b) && Concat(a) == Concat(b)
    ensures a == b
  {
    if a == [] {
      NothingToGroup(b);
    } else if b == [] {
      NothingToGroup(a);
    } else {
      FirstGroupIsNoShorter(a, b);
      FirstGroupIsNoShorter(b, a);
      ConcatFromFront(a);
      ConcatFromFront(b);
      assert a[0] == Concat(a)[..|a[0]|] == b[0];
      assert Concat(a[1..]) == Concat(a)[|a[0]|..] == Concat(b[1..]);
      GreedyTail(a);
      GreedyTail(b);
      GreedyIsUnique(a[1..], b[1..]);
    }
  }

  // ----- offsets and identifiers -----

  /** Where text i starts when all are joined. */
  function Offset(texts: seq<string>, i: nat): nat
    requires i <= |texts|
  {
    if i == 0 then 0 else Offset(texts, i - 1) + |texts[i - 1]| + 2
  }

  lemma {:induction false} OffsetIsJoined(texts: seq<string>, i: nat)
    requires 0 < i <= |texts|
    ensures Offset(texts, i) == |Join(texts[..i], DELIMITER)| + 2
  {
    if i == 1 {
      assert texts[..1] == [texts[0]];
    } else {
      OffsetIsJoined(texts, i - 1);
      assert texts[..i] == texts[..i - 1] + [texts[i - 1]];
      JoinAppend(texts[..i - 1], [texts[i - 1]], DELIMITER);
    }
  }

  predicate SliceAt(all: string, from: nat, word: string) {
    from + |word| <= |all| && all[from..from + |word|] == word
  }

  lemma StartsWithFirst(texts: seq<string>)
    requires texts != []
    ensures SliceAt(Join(texts, DELIMITER), 0, texts[0])
  {
  }

  lemma SliceAfter(head: string, tail: string, word: string)
    requires SliceAt(tail, 0, word)
    ensures SliceAt(head + DELIMITER + tail, |head| + 2, word)
  {
    assert (head + DELIMITER + tail)[|head| + 2..] == tail;
  }

  lemma JoinAtSplit(texts: seq<string>, i: nat)
    requires 0 < i < |texts|
    ensures Join(texts, DELIMITER) == Join(texts[..i], DELIMITER) + DELIMITER + Join(texts[i..], DELIMITER)
  {
    assert texts == texts[..i] + texts[i..];
    JoinAppend(texts[..i], texts[i..], DELIMITER);
  }

  /** The offsets of a chunk cut exactly its text out of the joined document. */
  lemma {:induction false} OffsetsSlice(texts: seq<string>, i: nat)
    requires i < |texts|
    ensures SliceAt(Join(texts, DELIMITER), Offset(texts, i), texts[i])
  {
    if i == 0 {
      StartsWithFirst(texts);
    } else {
      StartsWithFirst(texts[i..]);
      OffsetIsJoined(texts, i);
      JoinAtSplit(texts, i);
      SliceAfter(Join(texts[..i], DELIMITER), Join(texts[i..], DELIMITER), texts[i]);
    }
  }

  lemma {:induction false} JoinOfJoins(groups: seq<seq<string>>)
    requires forall i :: 0 <= i < |groups| ==> groups[i] != []
    ensures Join(Texts(groups), DELIMITER) == Join(Concat(groups), DELIMITER)
  {
    if |groups| == 0 {
    } else if |groups| == 1 {
      assert Concat(groups) == groups[0] by { assert Concat(groups[..0]) == []; }
    } else {
      var last := |groups| - 1;
      JoinOfJoins(groups[..last]);
      assert Texts(groups) == Texts(groups[..last]) + [Join(groups[last], DELIMITER)];
      JoinAppend(Texts(groups[..last]), [Join(groups[last], DELIMITER)], DELIMITER);
      assert Concat(groups[..last]) != [] by { ConcatFromFront(groups[..last]); }
      JoinAppend(Concat(groups[..last]), groups[last], DELIMITER);
    }
  }

  function ChunkId(fileId: string, generation: nat, ordinal: nat): string {
    "chk_" + fileId + "_g" + Print(generation, 10) + "_" + Padded(ordinal, 10, 4)
  }

  lemma LastUnderscore(a: string, n: string, b: string, m: string, mark: char)
    requires IsNumeral(n, 10) && IsNumeral(m, 10) && !IsDigit(mark, 10)
    requires a + [mark] + n == b + [mark] + m
    ensures a == b && n == m
  {
    var s := a + [mark] + n;
    assert s[|a|] == mark && s[|b|] == mark;
    assert forall i :: |a| < i < |s| ==> s[i] == n[i - |a| - 1];
    assert forall i :: |b| < i < |s| ==> s[i] == m[i - |b| - 1];
    assert a == s[..|a|] && b == s[..|b|] && n == s[|a| + 1..] && m == s[|b| + 1..];
  }

  /** No two chunks share an identifier: file, generation and position can be read off it. */
  lemma ChunkIdsAreUnambiguous(fileId: string, generation: nat, ordinal: nat, fileId': string, generation': nat,
                               ordinal': nat)
    requires ChunkId(fileId, generation, ordinal) == ChunkId(fileId', generation', ordinal')
    ensures fileId == fileId' && generation == generation' && ordinal == ordinal'
  {
    var head, head' := "chk_" + fileId + "_g" + Print(generation, 10), "chk_" + fileId' + "_g" + Print(generation', 10);
    LastUnderscore(head, Padded(ordinal, 10, 4), head', Padded(ordinal', 10, 4), '_');
    ValueOfPadded(ordinal, 10, 4);
    ValueOfPadded(ordinal', 10, 4);
    var file, file' := "chk_" + fileId + "_", "chk_" + fileId' + "_";
    assert head == file + ['g'] + Print(generation, 10) && head' == file' + ['g'] + Print(generation', 10);
    LastUnderscore(file, Print(generation, 10), file', Print(generation', 10), 'g');
    ValueOfPrint(generation, 10);
    ValueOfPrint(generation', 10);
    assert fileId == file[4..|file| - 1] && fileId' == file'[4..|file'| - 1];
  }

  ghost predicate Placed(raw: seq<RawChunk>, texts: seq<string>, chunks: seq<DocumentChunk>, fileId: string,
                         generation: nat) {
    && |chunks| <= |raw| == |texts|
    && forall i :: 0 <= i < |chunks| ==>
         chunks[i] == DocumentChunk(ChunkId(fileId, generation, i), i, raw[i].page, texts[i],
                                    Offset(texts, i), Offset(texts, i) + |texts[i]|)
  }

  method FinalizeChunks(raw: seq<RawChunk>, fileId: string, generation: nat, ghost texts: seq<string>)
    returns (chunks: seq<DocumentChunk>)
    requires |texts| == |raw| && forall i :: 0 <= i < |raw| ==> texts[i] == raw[i].text
    ensures |chunks| == |raw| && Placed(raw, texts, chunks, fileId, generation)
  {
    chunks := [];
    var offset := 0;
    for ordinal := 0 to |raw|
      invariant |chunks| == ordinal && Placed(raw, texts, chunks, fileId, generation)
      invariant offset == Offset(texts, ordinal)
    {
      var text := raw[ordinal].text;
      chunks := chunks + [DocumentChunk(ChunkId(fileId, generation, ordinal), ordinal, raw[ordinal].page, text, offset,
          offset + |text|)];
      offset := offset + |text| + 2;
    }
  }

  /** Chunks as readers of the document rely on them: each is the slice its offsets name, and together they are the
      document. */
  ghost predicate CoversExactly(chunks: seq<DocumentChunk>, document: string) {
    && (forall i :: 0 <= i < |chunks| ==>
          chunks[i].charEnd == chunks[i].charStart + |chunks[i].text|
              && SliceAt(document, chunks[i].charStart, chunks[i].text))
    && (forall i :: 0 <= i < |chunks| - 1 ==> chunks[i + 1].charStart == chunks[i].charEnd + 2)
    && (if chunks == [] then document == "" else chunks[0].charStart == 0 && chunks[|chunks| - 1].charEnd == |document|)
  }

  lemma OffsetsEndTheDocument(texts: seq<string>)
    requires texts != []
    ensures Offset(texts, |texts|) == |Join(texts, DELIMITER)| + 2
  {
    OffsetIsJoined(texts, |texts|);
    assert texts[..|texts|] == texts;
  }

  lemma {:induction false} PlacedCovers(raw: seq<RawChunk>, texts: seq<string>, chunks: seq<DocumentChunk>,
                                        fileId: string, generation: nat)
    requires |chunks| == |raw| && Placed(raw, texts, chunks, fileId, generation)
    ensures CoversExactly(chunks, Join(texts, DELIMITER))
  {
    forall i | 0 <= i < |chunks| ensures SliceAt(Join(texts, DELIMITER), chunks[i].charStart, chunks[i].text) {
      OffsetsSlice(texts, i);
    }
    if texts != [] { OffsetsEndTheDocument(texts); }
  }

  method ChunkParagraphs(paragraphs: seq<string>, fileId: string, generation: nat)
    returns (chunks: seq<DocumentChunk>, pages: nat, ghost groups: seq<seq<string>>)
    ensures Greedy(groups) && Concat(groups) == paragraphs
    ensures |chunks| == |groups| && forall i :: 0 <= i < |chunks| ==> chunks[i].text == Texts(groups)[i]
    ensures CoversExactly(chunks, Join(paragraphs, DELIMITER))
    ensures forall i :: 0 <= i < |chunks| ==>
              chunks[i].chunkId == ChunkId(fileId, generation, i) && chunks[i].page == i + 1
    ensures pages == if groups != [] && IsLong(groups[|groups| - 1]) then |chunks| + 1 else Max(1, |chunks|)
  {
    var raw;
    raw, pages, groups := Gather(paragraphs);
    ghost var texts := Texts(groups);
    chunks := FinalizeChunks(raw, fileId, generation, texts);
    PlacedCovers(raw, texts, chunks, fileId, generation);
    JoinOfJoins(groups);
  }

  method IngestTxt(text: string, fileId: string, generation: nat)
    returns (chunks: seq<DocumentChunk>, pages: nat, ghost groups: seq<seq<string>>)
    ensures Greedy(groups) && Concat(groups) == Paragraphs(text)
    ensures |chunks| == |groups| && forall i :: 0 <= i < |chunks| ==> chunks[i].text == Texts(groups)[i]
    ensures CoversExactly(chunks, Join(Paragraphs(text), DELIMITER))
    ensures Ink(Join(Paragraphs(text), DELIMITER)) == Ink(text)
    ensures forall i :: 0 <= i < |chunks| ==>
              chunks[i].chunkId == ChunkId(fileId, generation, i) && chunks[i].page == i + 1
    ensures pages == if groups != [] && IsLong(groups[|groups| - 1]) then |chunks| + 1 else Max(1, |chunks|)
  {
    var paragraphs := Paragraphs(text);
    chunks, pages, groups := ChunkParagraphs(paragraphs, fileId, generation);
    DocumentKeepsInk(text);
  }
}
