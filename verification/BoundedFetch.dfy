/** Reading a query result in batches, bounded by a number of rows and by a number of bytes. */
module BoundedFetch {
  import opened Wrappers

  type Raw = seq<string>
  type Row = map<string, string>

  datatype Stop = ResultBytes | RowLimit

  /** stop says why reading ended before the result did, if it did. */
  datatype Page = Page(rows: seq<Row>, bytes: nat, stop: Option<Stop>)

  datatype Error = DuplicateNames | WidthMismatch

  const BATCH := 50

  predicate Unique(columns: seq<string>) {
    forall i, j :: 0 <= i < j < |columns| ==> columns[i] != columns[j]
  }

  function Named(columns: seq<string>, raw: Raw): Row
    requires |columns| == |raw|
  {
    if columns == [] then map[]
    else Named(columns[..|columns| - 1], raw[..|raw| - 1])[columns[|columns| - 1] := raw[|raw| - 1]]
  }

  /** A row pairs each column with the value at its place, and holds nothing else. */
  lemma {:induction false} NamedPairs(columns: seq<string>, raw: Raw)
    requires |columns| == |raw| && Unique(columns)
    ensures forall c :: c in Named(columns, raw) <==> c in columns
    ensures forall i :: 0 <= i < |columns| ==> Named(columns, raw)[columns[i]] == raw[i]
  {
    if columns != [] {
      var n := |columns| - 1;
      NamedPairs(columns[..n], raw[..n]);
      assert columns == columns[..n] + [columns[n]];
      forall i | 0 <= i < |columns| ensures Named(columns, raw)[columns[i]] == raw[i] {
        if i < n {
          assert columns[..n][i] == columns[i] && raw[..n][i] == raw[i];
        }
      }
    }
  }

  /** size is the length of a row's JSON text in bytes. */
  datatype Bounds = Bounds(columns: seq<string>, size: Row -> nat, maxRows: int, maxBytes: int)

  /** Reading row by row, with these rows taken so far. */
  function Scan(source: seq<Raw>, b: Bounds, rows: seq<Row>, bytes: nat): Result<Page, Error>
    requires |rows| <= |source|
    decreases |source| - |rows|
  {
    var n := |rows|;
    if n >= b.maxRows then Ok(Page(rows, bytes, Some(RowLimit)))
    else if n == |source| then Ok(Page(rows, bytes, None))
    else if |source[n]| != |b.columns| then Err(WidthMismatch)
    else
      var row := Named(b.columns, source[n]);
      if bytes + b.size(row) > b.maxBytes then Ok(Page(rows, bytes, Some(ResultBytes)))
      else Scan(source, b, rows + [row], bytes + b.size(row))
  }

  function Fetched(source: seq<Raw>, b: Bounds): Result<Page, Error> {
    if !Unique(b.columns) then Err(DuplicateNames) else Scan(source, b, [], 0)
  }

  /******* What the page holds *******/

  function Total(size: Row -> nat, rows: seq<Row>): nat {
    if rows == [] then 0 else Total(size, rows[..|rows| - 1]) + size(rows[|rows| - 1])
  }

  predicate IsPrefix(source: seq<Raw>, b: Bounds, rows: seq<Row>) {
    |rows| <= |source|
    && forall i :: 0 <= i < |rows| ==> |source[i]| == |b.columns| && rows[i] == Named(b.columns, source[i])
  }

  predicate Within(b: Bounds, rows: seq<Row>, bytes: nat) {
    bytes == Total(b.size, rows) && (rows == [] || (bytes <= b.maxBytes && |rows| <= b.maxRows))
  }

  /** Why a page of this many rows ends where it does. */
  predicate StopIs(source: seq<Raw>, b: Bounds, p: Page) {
    var n := |p.rows|;
    match p.stop
    case None => n == |source| && n < b.maxRows
    case Some(RowLimit) => b.maxRows <= n
    case Some(ResultBytes) =>
      n < |source| && n < b.maxRows && |source[n]| == |b.columns|
      && p.bytes + b.size(Named(b.columns, source[n])) > b.maxBytes
  }

  lemma {:induction false} ScanReads(source: seq<Raw>, b: Bounds, rows: seq<Row>, bytes: nat)
    requires IsPrefix(source, b, rows)
    ensures Scan(source, b, rows, bytes).Ok? ==>
              && rows <= Scan(source, b, rows, bytes).value.rows
              && IsPrefix(source, b, Scan(source, b, rows, bytes).value.rows)
    ensures Scan(source, b, rows, bytes).Err? ==> Scan(source, b, rows, bytes).error == WidthMismatch
    decreases |source| - |rows|
  {
    var n := |rows|;
    if n < b.maxRows && n < |source| && |source[n]| == |b.columns| {
      var row := Named(b.columns, source[n]);
      if bytes + b.size(row) <= b.maxBytes {
        ScanReads(source, b, rows + [row], bytes + b.size(row));
        assert rows <= rows + [row];
      }
    }
  }

  lemma {:induction false} ScanStaysWithin(source: seq<Raw>, b: Bounds, rows: seq<Row>, bytes: nat)
    requires |rows| <= |source| && Within(b, rows, bytes)
    ensures Scan(source, b, rows, bytes).Ok? ==>
              Within(b, Scan(source, b, rows, bytes).value.rows, Scan(source, b, rows, bytes).value.bytes)
    decreases |source| - |rows|
  {
    var n := |rows|;
    if n < b.maxRows && n < |source| && |source[n]| == |b.columns| {
      var row := Named(b.columns, source[n]);
      if bytes + b.size(row) <= b.maxBytes {
        assert (rows + [row])[..n] == rows;
        ScanStaysWithin(source, b, rows + [row], bytes + b.size(row));
      }
    }
  }

  lemma {:induction false} ScanStops(source: seq<Raw>, b: Bounds, rows: seq<Row>, bytes: nat)
    requires |rows| <= |source|
    ensures Scan(source, b, rows, bytes).Ok? ==> StopIs(source, b, Scan(source, b, rows, bytes).value)
    decreases |source| - |rows|
  {
    var n := |rows|;
    if n < b.maxRows && n < |source| && |source[n]| == |b.columns| {
      var row := Named(b.columns, source[n]);
      if bytes + b.size(row) <= b.maxBytes {
        ScanStops(source, b, rows + [row], bytes + b.size(row));
      }
    }
  }

  predicate Bounded(source: seq<Raw>, b: Bounds, p: Page) {
    IsPrefix(source, b, p.rows) && Within(b, p.rows, p.bytes) && StopIs(source, b, p)
  }

  lemma ScanIsBounded(source: seq<Raw>, b: Bounds)
    ensures Scan(source, b, [], 0).Ok? ==> Bounded(source, b, Scan(source, b, [], 0).value)
    ensures Scan(source, b, [], 0).Err? ==> Scan(source, b, [], 0).error == WidthMismatch
  {
    ScanReads(source, b, [], 0);
    ScanStaysWithin(source, b, [], 0);
    ScanStops(source, b, [], 0);
  }

  /** The row after these is read and has another number of values than there are columns. */
  predicate Misfit(source: seq<Raw>, b: Bounds, rows: seq<Row>) {
    && IsPrefix(source, b, rows) && Within(b, rows, Total(b.size, rows))
    && |rows| < |source| && |rows| < b.maxRows && |source[|rows|]| != |b.columns|
  }

  lemma {:induction false} ScanFails(source: seq<Raw>, b: Bounds, rows: seq<Row>, bytes: nat) returns (read: seq<Row>)
    requires IsPrefix(source, b, rows) && Within(b, rows, bytes) && Scan(source, b, rows, bytes).Err?
    ensures Misfit(source, b, read)
    decreases |source| - |rows|
  {
    var n := |rows|;
    if |source[n]| != |b.columns| {
      read := rows;
    } else {
      var row := Named(b.columns, source[n]);
      assert (rows + [row])[..n] == rows;
      read := ScanFails(source, b, rows + [row], bytes + b.size(row));
    }
  }

  lemma {:induction false} MisfitFails(source: seq<Raw>, b: Bounds, rows: seq<Row>, k: nat)
    requires Misfit(source, b, rows) && k <= |rows|
    ensures Scan(source, b, rows[..k], Total(b.size, rows[..k])) == Err(WidthMismatch)
    decreases |rows| - k
  {
    if k == |rows| {
      assert rows[..k] == rows;
    } else {
      assert rows[..k + 1][..k] == rows[..k] && rows[..k + 1] == rows[..k] + [rows[k]];
      TotalGrows(b.size, rows, k + 1);
      MisfitFails(source, b, rows, k + 1);
    }
  }

  /** What is refused: columns that share a name, and a row that is reached and does not fit them. */
  lemma RefusedExactly(source: seq<Raw>, b: Bounds)
    ensures Fetched(source, b) == Err(DuplicateNames)
            <==> exists i, j :: 0 <= i < j < |b.columns| && b.columns[i] == b.columns[j]
    ensures Fetched(source, b) == Err(WidthMismatch) <==> Unique(b.columns) && exists rows :: Misfit(source, b, rows)
  {
    if Unique(b.columns) {
      ScanIsBounded(source, b);
      if Fetched(source, b).Err? {
        var read := ScanFails(source, b, [], 0);
      }
      if rows :| Misfit(source, b, rows) {
        MisfitFails(source, b, rows, 0);
      }
    }
  }

  lemma {:induction false} TotalGrows(size: Row -> nat, rows: seq<Row>, n: nat)
    requires n <= |rows|
    ensures Total(size, rows[..n]) <= Total(size, rows)
  {
    if n < |rows| {
      TotalGrows(size, rows[..|rows| - 1], n);
      assert rows[..|rows| - 1][..n] == rows[..n];
    } else {
      assert rows[..n] == rows;
    }
  }

  /** The page is the longest prefix of the result within both bounds, and its reason is the first bound
      that stopped it: any page with these properties is this one, and none is answered otherwise. */
  lemma PageIsLongestPrefix(source: seq<Raw>, b: Bounds, p: Page)
    ensures Fetched(source, b) == Ok(p)
            <==> Unique(b.columns) && Bounded(source, b, p)
  {
    if Unique(b.columns) {
      ScanIsBounded(source, b);
      if Bounded(source, b, p) {
        if Fetched(source, b).Ok? {
          SamePage(source, b, p, Fetched(source, b).value);
        } else {
          var rows := ScanFails(source, b, [], 0);
          StoppedBefore(source, b, p, rows);
        }
      }
    }
  }

  lemma SamePage(source: seq<Raw>, b: Bounds, p: Page, q: Page)
    requires Bounded(source, b, p) && Bounded(source, b, q)
    ensures p == q
  {
    if |p.rows| < |q.rows| {
      Stopped(source, b, p, q);
    } else if |q.rows| < |p.rows| {
      Stopped(source, b, q, p);
    }
    assert p.rows == q.rows;
  }

  lemma StoppedBefore(source: seq<Raw>, b: Bounds, p: Page, rows: seq<Row>)
    requires Misfit(source, b, rows) && IsPrefix(source, b, p.rows) && Within(b, p.rows, p.bytes)
    ensures !StopIs(source, b, p)
  {
    if |p.rows| < |rows| {
      Stopped(source, b, p, Page(rows, Total(b.size, rows), None));
    }
  }

  lemma Stopped(source: seq<Raw>, b: Bounds, p: Page, q: Page)
    requires IsPrefix(source, b, p.rows) && Within(b, p.rows, p.bytes)
    requires IsPrefix(source, b, q.rows) && Within(b, q.rows, q.bytes) && |p.rows| < |q.rows|
    ensures !StopIs(source, b, p)
  {
    var n := |p.rows|;
    assert q.rows[..n] == p.rows && q.rows[..n + 1][..n] == p.rows;
    TotalGrows(b.size, q.rows, n + 1);
  }

  /******* Reading from a cursor *******/

  class Cursor {
    const source: seq<Raw>
    var at: nat

    constructor (source: seq<Raw>)
      ensures this.source == source && at == 0
    {
      this.source := source;
      at := 0;
    }

    /** The driver answers a full batch unless the result ends. */
    method FetchMany(size: nat) returns (batch: seq<Raw>)
      requires at <= |source|
      modifies this`at
      ensures old(at) <= at <= |source| && at - old(at) <= size
      ensures batch == source[old(at)..at]
      ensures at - old(at) < size ==> at == |source|
    {
      var end := if at + size < |source| then at + size else |source|;
      batch := source[at..end];
      at := end;
    }
  }

  /** Batching changes nothing: the page is the one read row by row, and the database never hands out more
      than the row bound. */
  method FetchBoundedRows(cursor: Cursor, b: Bounds) returns (r: Result<Page, Error>)
    requires cursor.at == 0
    modifies cursor`at
    ensures r == Fetched(cursor.source, b)
    ensures cursor.at == 0 || cursor.at <= b.maxRows
  {
    if !Unique(b.columns) {
      return Err(DuplicateNames);
    }
    var rows: seq<Row> := [];
    var bytes: nat := 0;
    while |rows| < b.maxRows
      invariant |rows| == cursor.at <= |cursor.source|
      invariant cursor.at == 0 || cursor.at <= b.maxRows
      invariant Fetched(cursor.source, b) == Scan(cursor.source, b, rows, bytes)
      decreases b.maxRows - |rows|
    {
      var size := if b.maxRows - |rows| < BATCH then b.maxRows - |rows| else BATCH;
      var start := cursor.at;
      var batch := cursor.FetchMany(size);
      if batch == [] {
        return Ok(Page(rows, bytes, None));
      }
      for i := 0 to |batch|
        invariant |rows| == start + i
        invariant Fetched(cursor.source, b) == Scan(cursor.source, b, rows, bytes)
      {
        if |batch[i]| != |b.columns| {
          return Err(WidthMismatch);
        }
        var row := Named(b.columns, batch[i]);
        if bytes + b.size(row) > b.maxBytes {
          return Ok(Page(rows, bytes, Some(ResultBytes)));
        }
        rows := rows + [row];
        bytes := bytes + b.size(row);
      }
      if |batch| < size {
        return Ok(Page(rows, bytes, None));
      }
    }
    r := Ok(Page(rows, bytes, Some(RowLimit)));
  }
}
