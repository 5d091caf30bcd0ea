/** Spreadsheet ingestion: the body of a sheet is cut into batches of 25 rows, each labelled with its sheet rows. */
module RowBatches {
  import opened Numerals
  import opened PyText
  import opened Sequences

  type Row = seq<string>

  datatype Batch = Batch(startRow: nat, endRow: nat, page: nat, rows: seq<Row>, display: seq<Row>)

  datatype Ingested = EmptySheet | Ready(batches: seq<Batch>, pages: nat)

  const SIZE: nat := 25

  predicate HasText(rows: seq<Row>) {
    exists i, j :: 0 <= i < |rows| && 0 <= j < |rows[i]| && Strip(rows[i][j]) != ""
  }

  lemma TextIsNotBlank(rows: seq<Row>)
    ensures HasText(rows) <==> exists i, j :: 0 <= i < |rows| && 0 <= j < |rows[i]| && !IsBlank(rows[i][j])
  {
    forall i, j | 0 <= i < |rows| && 0 <= j < |rows[i]| ensures Strip(rows[i][j]) != "" <==> !IsBlank(rows[i][j]) {
      StripDropsOnlySpace(rows[i][j]);
    }
  }

  /** The rows after the header, or all of them when there is nothing after it. */
  function Body(rows: seq<Row>, headerRows: nat): seq<Row> {
    if |rows| <= headerRows then rows else rows[headerRows..]
  }

  ghost predicate IsBatch(batch: Batch, k: nat, body: seq<Row>, headerRows: nat) {
    && SIZE * k < |body|
    && batch.rows == body[SIZE * k..Min(SIZE * k + SIZE, |body|)]
    && batch.startRow == SIZE * k + headerRows + 1 && batch.endRow == batch.startRow + |batch.rows| - 1
    && batch.page == k + 1
  }

  ghost predicate AreBatches(batches: seq<Batch>, body: seq<Row>, headerRows: nat) {
    forall k :: 0 <= k < |batches| ==> IsBatch(batches[k], k, body, headerRows)
  }

  function RowsOf(batches: seq<Batch>): seq<seq<Row>> {
    seq(|batches|, k requires 0 <= k < |batches| => batches[k].rows)
  }

  lemma {:induction false} BatchesCover(batches: seq<Batch>, body: seq<Row>, headerRows: nat)
    requires AreBatches(batches, body, headerRows)
    ensures Concat(RowsOf(batches)) == body[..Min(SIZE * |batches|, |body|)]
  {
    if batches != [] {
      var last := |batches| - 1;
      BatchesCover(batches[..last], body, headerRows);
      assert RowsOf(batches) == RowsOf(batches[..last]) + [batches[last].rows];
      ConcatOneMore(RowsOf(batches[..last]), batches[last].rows);
    }
  }

  /** One batch ends where the next begins. */
  lemma BatchesAreContiguous(batches: seq<Batch>, body: seq<Row>, headerRows: nat, k: nat)
    requires AreBatches(batches, body, headerRows) && k + 1 < |batches|
    ensures batches[k + 1].startRow == batches[k].endRow + 1 && |batches[k].rows| == SIZE
  {
    assert IsBatch(batches[k], k, body, headerRows) && IsBatch(batches[k + 1], k + 1, body, headerRows);
  }

  predicate IsSheetRow(rows: seq<Row>, n: nat, row: Row) { 0 < n <= |rows| && rows[n - 1] == row }

  /** Row j of a batch is the sheet's row startRow + j, counted from one. */
  ghost predicate LocatorsExact(batches: seq<Batch>, rows: seq<Row>) {
    forall k, j :: 0 <= k < |batches| && 0 <= j < |batches[k].rows| ==>
      IsSheetRow(rows, batches[k].startRow + j, batches[k].rows[j])
  }

  lemma LabelsAfterHeader(batches: seq<Batch>, rows: seq<Row>, headerRows: nat)
    requires headerRows < |rows| && AreBatches(batches, Body(rows, headerRows), headerRows)
    ensures LocatorsExact(batches, rows)
  {
    forall k, j | 0 <= k < |batches| && 0 <= j < |batches[k].rows|
      ensures IsSheetRow(rows, batches[k].startRow + j, batches[k].rows[j])
    {
      assert IsBatch(batches[k], k, Body(rows, headerRows), headerRows);
    }
  }

  /** The labels are the sheet's row numbers exactly when some row follows the header: a sheet that is
      nothing but its header is labelled one row too far. */
  lemma LocatorsExactIffBodyFollowsHeader(batches: seq<Batch>, rows: seq<Row>, headerRows: nat)
    requires headerRows <= 1 && rows != [] && batches != []
    requires AreBatches(batches, Body(rows, headerRows), headerRows)
    ensures LocatorsExact(batches, rows) <==> headerRows < |rows|
  {
    if headerRows < |rows| {
      LabelsAfterHeader(batches, rows, headerRows);
    } else {
      assert IsBatch(batches[0], 0, rows, 1);
      assert !IsSheetRow(rows, batches[0].startRow + 0, batches[0].rows[0]);
    }
  }

  method BatchRows(rows: seq<Row>, headerRows: nat) returns (batches: seq<Batch>)
    requires rows != [] && headerRows <= 1
    ensures AreBatches(batches, Body(rows, headerRows), headerRows)
    ensures |batches| == (|Body(rows, headerRows)| + 24) / 25
    ensures forall k :: 0 <= k < |batches| ==> batches[k].display == rows[..headerRows] + batches[k].rows
    ensures Concat(RowsOf(batches)) == Body(rows, headerRows)
    ensures forall k :: 0 <= k < |batches| ==> 1 <= |batches[k].rows| <= 25
  {
    var header, body := rows[..headerRows], Body(rows, headerRows);
    batches := [];
    var offset := 0;
    while offset < |body|
      invariant offset == SIZE * |batches| < |body| + SIZE
      invariant AreBatches(batches, body, headerRows)
      invariant forall k :: 0 <= k < |batches| ==> batches[k].display == header + batches[k].rows
    {
      var batch := body[offset..Min(offset + SIZE, |body|)];
      var startRow := offset + headerRows + 1;
      var display := if headerRows > 0 then header + batch else batch;
      batches := batches + [Batch(startRow, startRow + |batch| - 1, offset / SIZE + 1, batch, display)];
      offset := offset + SIZE;
    }
    BatchesCover(batches, body, headerRows);
  }

  method IngestCsv(rows: seq<Row>, hasHeader: bool) returns (r: Ingested)
    ensures r == EmptySheet <==> forall i, j :: 0 <= i < |rows| && 0 <= j < |rows[i]| ==> IsBlank(rows[i][j])
    ensures r.Ready? ==>
      var headerRows := if hasHeader then 1 else 0;
      && AreBatches(r.batches, Body(rows, headerRows), headerRows)
      && Concat(RowsOf(r.batches)) == Body(rows, headerRows)
      && r.pages == |r.batches| > 0
      && (LocatorsExact(r.batches, rows) <==> |rows| > headerRows)
      && Concat(RowsOf(r.batches)) == (if hasHeader && |rows| > 1 then rows[1..] else rows)
      && (forall k :: 0 <= k < |r.batches| ==>
            && 1 <= |r.batches[k].rows| <= 25
            && r.batches[k].display == (if hasHeader then [rows[0]] else []) + r.batches[k].rows)
  {
    TextIsNotBlank(rows);
    if rows == [] || !HasText(rows) { return EmptySheet; }
    var headerRows := if hasHeader then 1 else 0;
    var batches := BatchRows(rows, headerRows);
    assert rows[..headerRows] == if hasHeader then [rows[0]] else [];
    LocatorsExactIffBodyFollowsHeader(batches, rows, headerRows);
    var count := (|Body(rows, headerRows)| + SIZE - 1) / SIZE;
    return Ready(batches, Max(1, count));
  }
}
