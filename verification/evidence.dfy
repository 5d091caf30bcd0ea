/** Packing document chunks into a token budget, after backend/app/services/document_context_service.py. */
module Evidence {
  import opened PyText

  /** `page` is 0 for a chunk without a page number. */
  datatype Chunk = Chunk(chunkId: string, page: int, ordinal: int, normalized: string, raw: string, tokens: int)

  /** A resolved document; `ready`: its ingestion is complete or partially complete. */
  datatype Document = Document(fileId: string, ready: bool, chunks: seq<Chunk>)

  /** What is packed of a chunk. */
  datatype Item = Item(chunkId: string, text: string, tokens: nat)

  datatype Block = Block(fileId: string, item: Item)

  /** The items a document offers, in order. */
  datatype Shelf = Shelf(fileId: string, items: seq<Item>)

  datatype Coverage = NoCoverage | Partial | Full

  datatype Diagnostic = NoDocumentsResolved | DocReady | NoEvidenceFound

  datatype Context = Context(blocks: seq<Block>, totalTokens: nat, coverage: Coverage, isReady: bool,
                             diagnostic: Diagnostic)

  // ----- one chunk -----

  function CjkCount(text: string): (n: nat)
    ensures n <= |text|
  {
    if text == [] then 0
    else CjkCount(text[..|text| - 1]) + (if '\U{4e00}' <= text[|text| - 1] <= '\U{9fff}' then 1 else 0)
  }

  function EstimateTokens(text: string): (n: nat) {
    var cjk := CjkCount(text);
    (cjk as real * 1.5 + (|text| - cjk) as real / 3.8).Floor
  }

  function Ideographs(text: string): set<nat> {
    set i: nat | i < |text| && 0x4e00 <= text[i] as int <= 0x9fff
  }

  lemma {:induction false} CjkCountsIdeographs(text: string)
    ensures CjkCount(text) == |Ideographs(text)|
  {
    if text != [] {
      var n := |text| - 1;
      CjkCountsIdeographs(text[..n]);
      assert n !in Ideographs(text[..n]);
      assert Ideographs(text) == Ideographs(text[..n]) + (if 0x4e00 <= text[n] as int <= 0x9fff then {n} else {});
    }
  }

  /** Three tokens to two ideographs and five to nineteen other characters, rounded down over the whole. */
  lemma TokensByCharacters(text: string)
    ensures EstimateTokens(text) == (57 * |Ideographs(text)| + 10 * (|text| - |Ideographs(text)|)) / 38
  {
    CjkCountsIdeographs(text);
    var cjk := CjkCount(text);
    FloorOfQuotient(57 * cjk + 10 * (|text| - cjk), 38);
  }

  lemma FloorOfQuotient(a: nat, b: nat)
    requires b > 0
    ensures (a as real / b as real).Floor == a / b
  {
    var q := a / b;
    assert q * b <= a < (q + 1) * b;
    assert q as real * b as real <= a as real < (q + 1) as real * b as real;
    assert q as real <= a as real / b as real < (q + 1) as real;
  }

  function CanonText(c: Chunk): string { Strip(if c.normalized != "" then c.normalized else c.raw) }

  function TokensOf(c: Chunk): nat { if c.tokens > 0 then c.tokens else EstimateTokens(CanonText(c)) }

  function ItemOf(c: Chunk): Item { Item(c.chunkId, CanonText(c), TokensOf(c)) }

  /** A chunk is packed under its own id, as its normalized text or, where there is none, its raw one, trimmed; its
      recorded token count is taken if it has one, else the estimate. */
  lemma ItemOfChunk(c: Chunk)
    ensures ItemOf(c).chunkId == c.chunkId
    ensures ItemOf(c).text == Strip(if |c.normalized| == 0 then c.raw else c.normalized)
    ensures ItemOf(c).tokens
         == if c.tokens >= 1 then c.tokens
            else (57 * |Ideographs(ItemOf(c).text)| + 10 * (|ItemOf(c).text| - |Ideographs(ItemOf(c).text)|)) / 38
  {
    TokensByCharacters(CanonText(c));
  }

  // ----- the order of a document's chunks -----

  predicate Before(a: Chunk, b: Chunk) {
    a.page < b.page || (a.page == b.page && a.ordinal < b.ordinal)
  }

  ghost predicate Sorted(chunks: seq<Chunk>) {
    forall i, j :: 0 <= i < j < |chunks| ==> !Before(chunks[j], chunks[i])
  }

  function Insert(c: Chunk, chunks: seq<Chunk>): (r: seq<Chunk>)
    ensures multiset(r) == multiset(chunks) + multiset{c} && |r| == |chunks| + 1
  {
    var n := |chunks|;
    if n == 0 || !Before(c, chunks[n - 1]) then chunks + [c]
    else
      assert chunks == chunks[..n - 1] + [chunks[n - 1]];
      Insert(c, chunks[..n - 1]) + [chunks[n - 1]]
  }

  /** sorted(chunks, key=(page, ordinal)): stable. */
  function SortChunks(chunks: seq<Chunk>): (r: seq<Chunk>)
    ensures multiset(r) == multiset(chunks) && |r| == |chunks|
  {
    if chunks == [] then []
    else
      assert chunks == chunks[..|chunks| - 1] + [chunks[|chunks| - 1]];
      Insert(chunks[|chunks| - 1], SortChunks(chunks[..|chunks| - 1]))
  }

  lemma {:induction false} InsertSorts(c: Chunk, chunks: seq<Chunk>)
    requires Sorted(chunks)
    ensures Sorted(Insert(c, chunks))
  {
    var n := |chunks|;
    if n > 0 && Before(c, chunks[n - 1]) {
      var head := Insert(c, chunks[..n - 1]);
      InsertSorts(c, chunks[..n - 1]);
      forall i | 0 <= i < |head| ensures !Before(chunks[n - 1], head[i]) {
        assert head[i] in multiset(head);
      }
    }
  }

  lemma {:induction false} SortingSorts(chunks: seq<Chunk>)
    ensures Sorted(SortChunks(chunks))
  {
    if chunks != [] {
      SortingSorts(chunks[..|chunks| - 1]);
      InsertSorts(chunks[|chunks| - 1], SortChunks(chunks[..|chunks| - 1]));
    }
  }

  // ----- packing -----

  function Items(chunks: seq<Chunk>): (items: seq<Item>)
    ensures |items| == |chunks|
  {
    seq(|chunks|, i requires 0 <= i < |chunks| => ItemOf(chunks[i]))
  }

  function NonBlank(items: seq<Item>): (kept: seq<Item>)
    ensures |kept| <= |items|
  {
    if items == [] then []
    else
      var last := items[|items| - 1];
      NonBlank(items[..|items| - 1]) + (if last.text != "" then [last] else [])
  }

  function ShelfOf(doc: Document): Shelf {
    Shelf(doc.fileId, if doc.ready then NonBlank(Items(SortChunks(doc.chunks))) else [])
  }

  function Shelves(docs: seq<Document>): seq<Shelf> {
    seq(|docs|, d requires 0 <= d < |docs| => ShelfOf(docs[d]))
  }

  function Cost(items: seq<Item>): nat {
    if items == [] then 0 else Cost(items[..|items| - 1]) + items[|items| - 1].tokens
  }

  function BlocksOf(fileId: string, items: seq<Item>): (blocks: seq<Block>)
    ensures |blocks| == |items|
  {
    seq(|items|, i requires 0 <= i < |items| => Block(fileId, items[i]))
  }

  /** The first n items fit what is left of the budget, and no longer prefix does. */
  ghost predicate LongestFit(items: seq<Item>, n: nat, left: int) {
    && n <= |items| && (n > 0 ==> Cost(items[..n]) <= left)
    && forall m :: n < m <= |items| ==> Cost(items[..m]) > left
  }

  lemma {:induction false} LongerCostsMore(items: seq<Item>, n: nat, m: nat)
    requires n <= m <= |items|
    ensures Cost(items[..n]) <= Cost(items[..m])
    decreases m
  {
    if n < m {
      assert items[..m][..m - 1] == items[..m - 1];
      LongerCostsMore(items, n, m - 1);
    }
  }

  lemma NonBlankOneMore(items: seq<Item>, item: Item)
    ensures NonBlank(items + [item]) == NonBlank(items) + (if item.text != "" then [item] else [])
  {
    assert (items + [item])[..|items|] == items;
  }

  lemma NextItem(items: seq<Item>, i: nat, taken: nat)
    requires i < |items| && taken <= |NonBlank(items)| && NonBlank(items[..i]) == NonBlank(items)[..taken]
    ensures items[i].text == "" ==> NonBlank(items[..i + 1]) == NonBlank(items)[..taken]
    ensures items[i].text != "" ==>
      taken < |NonBlank(items)| && NonBlank(items)[taken] == items[i]
          && NonBlank(items[..i + 1]) == NonBlank(items)[..taken + 1]
  {
    var item := items[i];
    assert items[..i + 1] == items[..i] + [item];
    NonBlankOneMore(items[..i], item);
    NonBlankIsPrefix(items, i + 1);
    if item.text != "" { PrefixOneMore(NonBlank(items), taken, item); }
  }

  lemma PrefixOneMore(all: seq<Item>, n: nat, item: Item)
    requires n <= |all| && all[..n] + [item] <= all
    ensures n < |all| && all[n] == item && all[..n + 1] == all[..n] + [item]
  {
    assert (all[..n] + [item])[n] == item;
  }

  lemma {:induction false} NonBlankIsPrefix(items: seq<Item>, i: nat)
    requires i <= |items|
    ensures NonBlank(items[..i]) <= NonBlank(items)
    decreases |items|
  {
    if i < |items| {
      assert items[..|items| - 1][..i] == items[..i];
      NonBlankIsPrefix(items[..|items| - 1], i);
    } else {
      assert items[..i] == items;
    }
  }

  /** The first of the readable items are packed, and they fit. */
  ghost predicate Taking(fileId: string, readable: seq<Item>, n: nat, blocks: seq<Block>, total: nat, used: nat,
                         budget: int) {
    && n <= |readable| && blocks == BlocksOf(fileId, readable[..n])
    && total == used + Cost(readable[..n]) && (n > 0 ==> total <= budget)
  }

  lemma TakeOneMore(fileId: string, readable: seq<Item>, n: nat, blocks: seq<Block>, total: nat, used: nat, budget: int)
    requires Taking(fileId, readable, n, blocks, total, used, budget) && n < |readable|
    requires total + readable[n].tokens <= budget
    ensures Taking(fileId, readable, n + 1, blocks + [Block(fileId, readable[n])], total + readable[n].tokens, used,
              budget)
  {
    assert readable[..n + 1][..n] == readable[..n];
  }

  lemma StoppedAtLongest(fileId: string, readable: seq<Item>, n: nat, blocks: seq<Block>, total: nat, used: nat,
                         budget: int)
    requires Taking(fileId, readable, n, blocks, total, used, budget) && n < |readable|
    requires total + readable[n].tokens > budget
    ensures LongestFit(readable, n, budget - used)
  {
    assert readable[..n + 1][..n] == readable[..n];
    forall m | n < m <= |readable| ensures Cost(readable[..m]) > budget - used {
      LongerCostsMore(readable, n + 1, m);
    }
  }

  lemma AllTaken(fileId: string, readable: seq<Item>, n: nat, blocks: seq<Block>, total: nat, used: nat, budget: int)
    requires Taking(fileId, readable, n, blocks, total, used, budget) && readable[..n] == readable
    ensures LongestFit(readable, n, budget - used)
  {
    assert n == |readable|;
  }

  /** The inner loop: one document's chunks in order, up to the first that no longer fits. */
  method PackItems(fileId: string, items: seq<Item>, used: nat, budget: int)
    returns (blocks: seq<Block>, total: nat, ghost taken: nat)
    ensures Taking(fileId, NonBlank(items), taken, blocks, total, used, budget)
    ensures LongestFit(NonBlank(items), taken, budget - used)
  {
    ghost var readable := NonBlank(items);
    blocks, total, taken := [], used, 0;
    for i := 0 to |items|
      invariant Taking(fileId, readable, taken, blocks, total, used, budget)
                && NonBlank(items[..i]) == readable[..taken]
    {
      var item := items[i];
      NextItem(items, i, taken);
      if item.text != "" {
        if total + item.tokens > budget {
          StoppedAtLongest(fileId, readable, taken, blocks, total, used, budget);
          return;
        }
        TakeOneMore(fileId, readable, taken, blocks, total, used, budget);
        blocks := blocks + [Block(fileId, item)];
        total := total + item.tokens;
        taken := taken + 1;
      }
    }
    assert items[..|items|] == items;
    AllTaken(fileId, readable, taken, blocks, total, used, budget);
  }

  method PackDocument(doc: Document, used: nat, budget: int) returns (blocks: seq<Block>, total: nat, ghost taken: nat)
    ensures LongestFit(ShelfOf(doc).items, taken, budget - used)
    ensures blocks == BlocksOf(doc.fileId, ShelfOf(doc).items[..taken])
    ensures total == used + Tokens(blocks)
  {
    blocks, total, taken := [], used, 0;
    if doc.ready {
      blocks, total, taken := PackItems(doc.fileId, Items(SortChunks(doc.chunks)), used, budget);
      TokensAreCost(doc.fileId, ShelfOf(doc).items[..taken]);
    }
  }

  function Available(docs: seq<Document>): nat {
    if docs == [] then 0
    else
      var last := docs[|docs| - 1];
      Available(docs[..|docs| - 1]) + (if last.ready then |last.chunks| else 0)
  }

  /** What the shelves contributed, given how many items were taken of each. */
  function Packed(shelves: seq<Shelf>, taken: seq<nat>): seq<Block>
    requires |taken| == |shelves| && forall d :: 0 <= d < |shelves| ==> taken[d] <= |shelves[d].items|
  {
    if shelves == [] then []
    else
      var d := |shelves| - 1;
      Packed(shelves[..d], taken[..d]) + BlocksOf(shelves[d].fileId, shelves[d].items[..taken[d]])
  }

  function Tokens(blocks: seq<Block>): nat {
    if blocks == [] then 0 else Tokens(blocks[..|blocks| - 1]) + blocks[|blocks| - 1].item.tokens
  }

  lemma {:induction false} TokensOfBoth(a: seq<Block>, b: seq<Block>)
    ensures Tokens(a + b) == Tokens(a) + Tokens(b)
  {
    if b == [] {
      assert a + b == a;
    } else {
      assert (a + b)[..|a + b| - 1] == a + b[..|b| - 1];
      TokensOfBoth(a, b[..|b| - 1]);
    }
  }

  lemma {:induction false} TokensAreCost(fileId: string, items: seq<Item>)
    ensures Tokens(BlocksOf(fileId, items)) == Cost(items)
  {
    if items != [] {
      assert BlocksOf(fileId, items)[..|items| - 1] == BlocksOf(fileId, items[..|items| - 1]);
      TokensAreCost(fileId, items[..|items| - 1]);
    }
  }

  ghost predicate InRange(shelves: seq<Shelf>, taken: seq<nat>) {
    |taken| == |shelves| && forall d :: 0 <= d < |shelves| ==> taken[d] <= |shelves[d].items|
  }

  /** Each document gives the longest prefix of its readable chunks that fits what the documents before it left. */
  ghost predicate Greedy(shelves: seq<Shelf>, taken: seq<nat>, budget: int) {
    && InRange(shelves, taken)
    && (shelves != [] ==>
          var d := |shelves| - 1;
          && Greedy(shelves[..d], taken[..d], budget)
          && LongestFit(shelves[d].items, taken[d], budget - Tokens(Packed(shelves[..d], taken[..d]))))
  }

  lemma LongestFitIsUnique(items: seq<Item>, n: nat, m: nat, left: int)
    requires LongestFit(items, n, left) && LongestFit(items, m, left)
    ensures n == m
  {
  }

  lemma GreedyOneMore(shelves: seq<Shelf>, taken: seq<nat>, shelf: Shelf, n: nat, budget: int)
    requires Greedy(shelves, taken, budget)
    requires LongestFit(shelf.items, n, budget - Tokens(Packed(shelves, taken)))
    ensures Greedy(shelves + [shelf], taken + [n], budget)
    ensures Packed(shelves + [shelf], taken + [n]) == Packed(shelves, taken) + BlocksOf(shelf.fileId, shelf.items[..n])
  {
    assert (shelves + [shelf])[..|shelves|] == shelves;
    assert (taken + [n])[..|taken|] == taken;
  }

  /** The same chunks are packed on every run: a greedy choice is determined by documents and budget. */
  lemma {:induction false} GreedyIsUnique(shelves: seq<Shelf>, a: seq<nat>, b: seq<nat>, budget: int)
    requires Greedy(shelves, a, budget) && Greedy(shelves, b, budget)
    ensures a == b
  {
    if shelves != [] {
      var d := |shelves| - 1;
      GreedyIsUnique(shelves[..d], a[..d], b[..d], budget);
      LongestFitIsUnique(shelves[d].items, a[d], b[d], budget - Tokens(Packed(shelves[..d], a[..d])));
      assert a == a[..d] + [a[d]] && b == b[..d] + [b[d]];
    }
  }

  lemma {:induction false} WithinBudget(shelves: seq<Shelf>, taken: seq<nat>, budget: int)
    requires Greedy(shelves, taken, budget)
    ensures Packed(shelves, taken) != [] ==> Tokens(Packed(shelves, taken)) <= budget
  {
    if shelves != [] {
      var d := |shelves| - 1;
      WithinBudget(shelves[..d], taken[..d], budget);
      var items := shelves[d].items[..taken[d]];
      var before, mine := Packed(shelves[..d], taken[..d]), BlocksOf(shelves[d].fileId, items);
      TokensOfBoth(before, mine);
      TokensAreCost(shelves[d].fileId, items);
      assert mine == [] ==> before + mine == before;
    }
  }

  /** Nothing is packed that is not there. */
  lemma {:induction false} PackedIsAvailable(docs: seq<Document>, taken: seq<nat>)
    requires InRange(Shelves(docs), taken)
    ensures |Packed(Shelves(docs), taken)| <= Available(docs)
  {
    if docs != [] {
      var d := |docs| - 1;
      assert Shelves(docs)[..d] == Shelves(docs[..d]);
      PackedIsAvailable(docs[..d], taken[..d]);
    }
  }

  // ----- coverage -----

  function CoverageOf(included: nat, available: nat): Coverage {
    var pct := if available > 0 then included as real / available as real * 100.0 else 0.0;
    if pct >= 99.0 then Full else if pct > 0.0 then Partial else NoCoverage
  }

  lemma CoverageExactly(included: nat, available: nat)
    requires included <= available
    ensures CoverageOf(included, available) == Full <==> available > 0 && 100 * included >= 99 * available
    ensures CoverageOf(included, available) == NoCoverage <==> included == 0
  {
    if available > 0 { RatioAtLeast(included as real, available as real); }
  }

  lemma RatioAtLeast(i: real, a: real)
    requires a > 0.0 && i >= 0.0
    ensures i / a * 100.0 >= 99.0 <==> i * 100.0 >= 99.0 * a
    ensures i / a * 100.0 > 0.0 <==> i > 0.0
  {
    var q := i / a;
    assert q * a == i;
    ScaleKeepsOrder(q, 0.99, a);
    ScaleKeepsOrder(0.0, q, a);
    ScaleKeepsOrder(q, 0.0, a);
  }

  lemma ScaleKeepsOrder(x: real, y: real, a: real)
    requires a > 0.0
    ensures x >= y <==> x * a >= y * a
  {
    if x > y { assert (x - y) * a > 0.0; }
    if x < y { assert (y - x) * a > 0.0; }
  }

  /** "full" means that every chunk is there exactly when there are fewer than a hundred of them. */
  lemma FullMeansAllIffFewerThanHundred(available: nat)
    requires available > 0
    ensures (forall included: nat :: included <= available && CoverageOf(included, available) == Full ==>
              included == available)
       <==> available < 100
  {
    forall included: nat | included <= available
      ensures CoverageOf(included, available) == Full <==> 100 * included >= 99 * available
    {
      CoverageExactly(included, available);
    }
    if available >= 100 {
      assert CoverageOf(available - 1, available) == Full;
    }
  }

  lemma ShelvesOneMore(docs: seq<Document>, d: nat)
    requires d < |docs|
    ensures Shelves(docs[..d + 1]) == Shelves(docs[..d]) + [ShelfOf(docs[d])]
    ensures Available(docs[..d + 1]) == Available(docs[..d]) + (if docs[d].ready then |docs[d].chunks| else 0)
  {
    assert docs[..d + 1][..d] == docs[..d];
  }

  method PackDocuments(docs: seq<Document>, budget: int)
    returns (blocks: seq<Block>, total: nat, available: nat, ghost taken: seq<nat>)
    ensures Greedy(Shelves(docs), taken, budget) && blocks == Packed(Shelves(docs), taken)
    ensures total == Tokens(blocks) && available == Available(docs)
  {
    blocks, total, available, taken := [], 0, 0, [];
    for d := 0 to |docs|
      invariant Greedy(Shelves(docs[..d]), taken, budget) && blocks == Packed(Shelves(docs[..d]), taken)
      invariant total == Tokens(blocks) && available == Available(docs[..d])
    {
      ShelvesOneMore(docs, d);
      var mine;
      ghost var n;
      mine, total, n := PackDocument(docs[d], total, budget);
      available := available + (if docs[d].ready then |docs[d].chunks| else 0);
      GreedyOneMore(Shelves(docs[..d]), taken, ShelfOf(docs[d]), n, budget);
      TokensOfBoth(blocks, mine);
      blocks := blocks + mine;
      taken := taken + [n];
    }
    assert docs[..|docs|] == docs;
  }

  method BuildContextForDiscussion(docs: seq<Document>, budget: int) returns (r: Context, ghost taken: seq<nat>)
    ensures Greedy(Shelves(docs), taken, budget) && r.blocks == Packed(Shelves(docs), taken)
    ensures r.totalTokens == Tokens(r.blocks) && (r.blocks != [] ==> r.totalTokens <= budget)
    ensures r.coverage == Full <==> Available(docs) > 0 && 100 * |r.blocks| >= 99 * Available(docs)
    ensures r.coverage == Full && Available(docs) < 100 ==> |r.blocks| == Available(docs)
    ensures r.coverage == NoCoverage <==> r.blocks == []
    ensures r.isReady <==> r.blocks != []
    ensures r.diagnostic
         == if docs == [] then NoDocumentsResolved else if r.blocks == [] then NoEvidenceFound else DocReady
  {
    if docs == [] {
      return Context([], 0, NoCoverage, false, NoDocumentsResolved), [];
    }
    var blocks, total, available;
    blocks, total, available, taken := PackDocuments(docs, budget);
    WithinBudget(Shelves(docs), taken, budget);
    PackedIsAvailable(docs, taken);
    CoverageExactly(|blocks|, available);
    r := Context(blocks, total, CoverageOf(|blocks|, available), |blocks| > 0,
                 if |blocks| > 0 then DocReady else NoEvidenceFound);
  }
}
