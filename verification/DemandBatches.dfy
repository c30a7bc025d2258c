/** One frozen query slate, exported by hand over several files: the batch validator
    and the aggregate it publishes.  Modelling starts from parsed rows. */
module DemandBatches {
  import opened Common
  import opened Rounding
  import opened DescendingOrder

  /** How one volume text is classified. */
  datatype Volume = Whole(value: real) | CommaWhole(value: real) | Fractional(value: real) | NoData | Rejected(text: Id)

  /** A parsed row: its normalized query, None when blank. */
  datatype Row = Row(wellFormed: bool, query: Option<Id>, japan: bool, volume: Volume)

  datatype File = File(hash: Id, readable: bool, rows: seq<Row>)

  datatype Parameters = Parameters(slate: Id, universe: Id, observedOn: int, nextReviewOn: int, target: int,
                                   epc: real, ctr: real)

  datatype BatchError =
    | FileCount | UniverseSize | DuplicateUniverse | Unreadable | Malformed | BlankQuery | DuplicateQuery
    | UnknownQuery | WrongLocation | EmptyFile | Incomplete | BadTarget | BadEpc | BadCtr

  datatype Capacity = InsufficientEvenAtFullCapture | BelowRequiredIncomplete | FloorMetNotProven

  datatype Concentration = High | NotHigh | InsufficientRows | NotRecomputable

  datatype Addressable = UnknownConcentrated | NotSeparated | UnknownInsufficient | UnknownReexport

  datatype Shares = Shares(top2: Option<real>, top5: Option<real>, status: Concentration, addressable: Addressable)

  datatype RejectedRow = RejectedRow(batch: nat, line: nat, text: Id)

  /** What does not depend on how the rows were split. */
  datatype Figures = Figures(
    keywords: nat, known: nat, noData: nat, rejected: nat, whole: nat, commaWhole: nat, fractional: nat,
    total: real, noDataRate: real, shares: Shares, clicks: int, sessions: int, capacity: Capacity, expand: bool)

  datatype Summary = Summary(parameters: Parameters, files: nat, figures: Figures, rejectedRows: seq<RejectedRow>,
                             hashes: seq<Id>)

  // ---------- Rows and classifications ----------

  predicate IsKnown(v: Volume) {
    v.Whole? || v.CommaWhole? || v.Fractional?
  }

  predicate ValidVolume(v: Volume) {
    IsKnown(v) ==> v.value >= 0.0
  }

  predicate ValidFiles(files: seq<File>) {
    forall f, r | f in files && r in f.rows :: ValidVolume(r.volume)
  }

  function AllRows(files: seq<File>): seq<Row> {
    if files == [] then [] else AllRows(files[..|files| - 1]) + files[|files| - 1].rows
  }

  function Volumes(rows: seq<Row>): seq<Volume> {
    if rows == [] then [] else Volumes(rows[..|rows| - 1]) + [rows[|rows| - 1].volume]
  }

  function KnownValues(vs: seq<Volume>): seq<real> {
    if vs == [] then []
    else KnownValues(vs[..|vs| - 1]) + if IsKnown(vs[|vs| - 1]) then [vs[|vs| - 1].value] else []
  }

  function Count(vs: seq<Volume>, p: Volume -> bool): nat {
    if vs == [] then 0 else Count(vs[..|vs| - 1], p) + if p(vs[|vs| - 1]) then 1 else 0
  }

  // ---------- The figures of a list of classifications ----------

  /** The two largest and the five largest known volumes against their total. */
  function Concentrate(vs: seq<Volume>): Shares {
    var known := Sort(KnownValues(vs));
    var total := Sum(known);
    if |known| < 5 || total <= 0.0 then Shares(None, None, InsufficientRows, UnknownInsufficient)
    else
      var top2, top5 := HalfUp(Sum(known[..2]) / total), HalfUp(Sum(known[..5]) / total);
      if top2 >= 0.5 || top5 >= 0.8 then Shares(Some(top2), Some(top5), High, UnknownConcentrated)
      else Shares(Some(top2), Some(top5), NotHigh, NotSeparated)
  }

  function RequiredClicks(p: Parameters): int
    requires p.epc > 0.0
  {
    Ceil(p.target as real / p.epc)
  }

  function RequiredSessions(p: Parameters): int
    requires p.epc > 0.0 && p.ctr > 0.0
  {
    Ceil(RequiredClicks(p) as real / p.ctr)
  }

  function Decide(below: bool, incomplete: bool): Capacity {
    if !below then FloorMetNotProven else if incomplete then BelowRequiredIncomplete else InsufficientEvenAtFullCapture
  }

  function FiguresOf(p: Parameters, vs: seq<Volume>, keywords: nat): Figures
    requires p.epc > 0.0 && p.ctr > 0.0 && keywords > 0
  {
    var noData, rejected := Count(vs, (v: Volume) => v.NoData?), Count(vs, (v: Volume) => v.Rejected?);
    var total, sessions := Sum(KnownValues(vs)), RequiredSessions(p);
    Figures(keywords, Count(vs, IsKnown), noData, rejected, Count(vs, (v: Volume) => v.Whole?),
            Count(vs, (v: Volume) => v.CommaWhole?), Count(vs, (v: Volume) => v.Fractional?), total,
            HalfUp(noData as real / keywords as real), Concentrate(vs), RequiredClicks(p), sessions,
            Decide(total < sessions as real, noData > 0 || rejected > 0), total < sessions as real)
  }

  // ---------- Which batch sets are accepted ----------

  predicate RowOk(r: Row, expected: set<Id>) {
    r.wellFormed && r.query.Some? && r.query.value in expected && r.japan
  }

  predicate DistinctQueries(rows: seq<Row>) {
    forall i, j | 0 <= i < j < |rows| :: rows[i].query != rows[j].query
  }

  function Queries(rows: seq<Row>): set<Id> {
    set r | r in rows && r.query.Some? :: r.query.value
  }

  predicate Accepts(files: seq<File>, universe: seq<Id>, p: Parameters) {
    var rows := AllRows(files);
    && 1 <= |files| <= 20 && 1 <= |Elements(universe)| <= 200 && |Elements(universe)| == |universe|
    && (forall f | f in files :: f.readable && f.rows != [])
    && (forall r | r in rows :: RowOk(r, Elements(universe)))
    && DistinctQueries(rows) && Queries(rows) == Elements(universe)
    && p.target > 0 && p.epc > 0.0 && 0.0 < p.ctr <= 1.0
  }

  function RejectedIn(rows: seq<Row>, batch: nat): seq<RejectedRow> {
    if rows == [] then []
    else RejectedIn(rows[..|rows| - 1], batch)
         + if rows[|rows| - 1].volume.Rejected? then [RejectedRow(batch, |rows| + 1, rows[|rows| - 1].volume.text)] else []
  }

  /** Batches count from one; a file's rows start at its line two. */
  function RejectedRows(files: seq<File>): seq<RejectedRow> {
    if files == [] then [] else RejectedRows(files[..|files| - 1]) + RejectedIn(files[|files| - 1].rows, |files|)
  }

  function Hashes(files: seq<File>): seq<Id> {
    if files == [] then [] else Hashes(files[..|files| - 1]) + [files[|files| - 1].hash]
  }

  function SummaryOf(files: seq<File>, universe: seq<Id>, p: Parameters): Summary
    requires Accepts(files, universe, p)
  {
    Summary(p, |files|, FiguresOf(p, Volumes(AllRows(files)), |universe|), RejectedRows(files), Hashes(files))
  }

  // ---------- The validator's loops ----------

  lemma RowsStep(rows: seq<Row>, i: nat)
    requires i < |rows|
    ensures Volumes(rows[..i + 1]) == Volumes(rows[..i]) + [rows[i].volume]
    ensures Queries(rows[..i + 1]) == Queries(rows[..i]) + if rows[i].query.Some? then {rows[i].query.value} else {}
  {
    assert rows[..i + 1][..i] == rows[..i];
    assert rows[..i + 1] == rows[..i] + [rows[i]];
    assert rows[i] in rows[..i + 1];
    assert forall r | r in rows[..i] :: r in rows[..i + 1];
  }

  lemma {:induction false} VolumesConcat(a: seq<Row>, b: seq<Row>)
    ensures Volumes(a + b) == Volumes(a) + Volumes(b)
    decreases |b|
  {
    if b == [] {
      assert a + b == a;
    } else {
      var n := |b| - 1;
      VolumesConcat(a, b[..n]);
      assert (a + b)[..|a + b| - 1] == a + b[..n];
      assert Volumes(a) + (Volumes(b[..n]) + [b[n].volume]) == Volumes(a) + Volumes(b[..n]) + [b[n].volume];
    }
  }

  /** One row, checked against what was seen before. */
  method CheckRow(r: Row, expected: set<Id>, observed: set<Id>) returns (error: Option<BatchError>)
    ensures error.None? <==> RowOk(r, expected) && r.query.value !in observed
  {
    if !r.wellFormed {
      return Some(Malformed);
    }
    if r.query.None? {
      return Some(BlankQuery);
    }
    if r.query.value in observed {
      return Some(DuplicateQuery);
    }
    if r.query.value !in expected {
      return Some(UnknownQuery);
    }
    if !r.japan {
      return Some(WrongLocation);
    }
    return None;
  }

  /** Rows seen so far are fine on their own and among themselves. */
  predicate RowsOk(rows: seq<Row>, expected: set<Id>) {
    (forall r | r in rows :: RowOk(r, expected)) && DistinctQueries(rows)
  }

  lemma DistinctExtend(rows: seq<Row>, r: Row)
    requires DistinctQueries(rows) && r.query.Some? && r.query.value !in Queries(rows)
    ensures DistinctQueries(rows + [r])
  {
    forall i, j | 0 <= i < j < |rows + [r]| ensures (rows + [r])[i].query != (rows + [r])[j].query {
      assert (rows + [r])[i] == rows[i] && rows[i] in rows;
    }
  }

  lemma RepeatedQuery(rows: seq<Row>, r: Row)
    requires r.query.Some? && r.query.value in Queries(rows)
    ensures !DistinctQueries(rows + [r])
  {
    var x :| x in rows && x.query.Some? && x.query.value == r.query.value;
    var i :| 0 <= i < |rows| && rows[i] == x;
    assert (rows + [r])[i].query == (rows + [r])[|rows|].query;
  }

  lemma RowsOkExtend(rows: seq<Row>, r: Row, expected: set<Id>)
    requires RowsOk(rows, expected)
    ensures RowsOk(rows + [r], expected) <==> RowOk(r, expected) && r.query.value !in Queries(rows)
    ensures Volumes(rows + [r]) == Volumes(rows) + [r.volume]
    ensures Queries(rows + [r]) == Queries(rows) + if r.query.Some? then {r.query.value} else {}
  {
    var more := rows + [r];
    RowsStep(more, |rows|);
    assert more[..|rows|] == rows && more[..|rows| + 1] == more;
    assert forall x :: x in more <==> x in rows || x == r;
    if r.query.Some? {
      if r.query.value in Queries(rows) {
        RepeatedQuery(rows, r);
      } else {
        DistinctExtend(rows, r);
      }
    }
  }

  lemma RowsOkPrefix(a: seq<Row>, b: seq<Row>, expected: set<Id>)
    ensures RowsOk(a + b, expected) ==> RowsOk(a, expected)
  {
    assert forall r | r in a :: r in a + b;
    assert forall i | 0 <= i < |a| :: (a + b)[i] == a[i];
  }

  lemma {:induction false} AllRowsConcat(a: seq<File>, b: seq<File>)
    ensures AllRows(a + b) == AllRows(a) + AllRows(b)
    decreases |b|
  {
    if b == [] {
      assert a + b == a;
    } else {
      var n := |b| - 1;
      AllRowsConcat(a, b[..n]);
      assert (a + b)[..|a + b| - 1] == a + b[..n];
      assert AllRows(a) + (AllRows(b[..n]) + b[n].rows) == AllRows(a) + AllRows(b[..n]) + b[n].rows;
    }
  }

  lemma LocalStep(rows: seq<Row>, i: nat, batch: nat)
    requires i < |rows|
    ensures Volumes(rows[..i + 1]) == Volumes(rows[..i]) + [rows[i].volume]
    ensures RejectedIn(rows[..i + 1], batch)
            == RejectedIn(rows[..i], batch)
               + (if rows[i].volume.Rejected? then [RejectedRow(batch, i + 2, rows[i].volume.text)] else [])
  {
    assert rows[..i + 1][..i] == rows[..i];
  }

  lemma SeenStep(rows: seq<Row>, i: nat, expected: set<Id>, seen: seq<Row>)
    requires i < |rows| && RowsOk(seen + rows[..i], expected)
    ensures var r := rows[i];
            && (RowsOk(seen + rows[..i + 1], expected) <==> RowOk(r, expected) && r.query.value !in Queries(seen + rows[..i]))
            && Queries(seen + rows[..i + 1]) == Queries(seen + rows[..i]) + (if r.query.Some? then {r.query.value} else {})
  {
    RowsOkExtend(seen + rows[..i], rows[i], expected);
    assert seen + rows[..i] + [rows[i]] == seen + rows[..i + 1];
  }

  lemma SeenPrefix(rows: seq<Row>, i: nat, expected: set<Id>, seen: seq<Row>)
    requires i <= |rows|
    ensures RowsOk(seen + rows, expected) ==> RowsOk(seen + rows[..i], expected)
  {
    assert rows == rows[..i] + rows[i..];
    assert seen + rows == (seen + rows[..i]) + rows[i..];
    RowsOkPrefix(seen + rows[..i], rows[i..], expected);
  }

  /** The rows of one file, after the rows of the files before it. */
  method ReadFile(f: File, batch: nat, expected: set<Id>, before: set<Id>, ghost seen: seq<Row>)
    returns (error: Option<BatchError>, observed: set<Id>, volumes: seq<Volume>, rejected: seq<RejectedRow>)
    requires RowsOk(seen, expected) && before == Queries(seen)
    ensures error.None? <==> f.readable && f.rows != [] && RowsOk(seen + f.rows, expected)
    ensures error.None? ==> observed == Queries(seen + f.rows) && volumes == Volumes(f.rows)
                            && rejected == RejectedIn(f.rows, batch)
  {
    observed, volumes, rejected := before, [], [];
    if !f.readable {
      return Some(Unreadable), observed, volumes, rejected;
    }
    assert seen + f.rows[..0] == seen;
    for i := 0 to |f.rows|
      invariant RowsOk(seen + f.rows[..i], expected) && observed == Queries(seen + f.rows[..i])
      invariant volumes == Volumes(f.rows[..i]) && rejected == RejectedIn(f.rows[..i], batch)
    {
      var r := f.rows[i];
      var bad := CheckRow(r, expected, observed);
      LocalStep(f.rows, i, batch);
      SeenStep(f.rows, i, expected, seen);
      SeenPrefix(f.rows, i + 1, expected, seen);
      if bad.Some? {
        return bad, observed, volumes, rejected;
      }
      observed := observed + {r.query.value};
      volumes := volumes + [r.volume];
      if r.volume.Rejected? {
        rejected := rejected + [RejectedRow(batch, i + 2, r.volume.text)];
      }
    }
    assert f.rows[..|f.rows|] == f.rows;
    error := if f.rows == [] then Some(EmptyFile) else None;
  }

  /** The files read so far are fine. */
  predicate FilesOk(files: seq<File>, expected: set<Id>) {
    (forall f | f in files :: f.readable && f.rows != []) && RowsOk(AllRows(files), expected)
  }

  lemma FilesOkPrefix(files: seq<File>, i: nat, expected: set<Id>)
    requires i <= |files|
    ensures FilesOk(files, expected) ==> FilesOk(files[..i], expected)
  {
    assert files == files[..i] + files[i..];
    AllRowsConcat(files[..i], files[i..]);
    RowsOkPrefix(AllRows(files[..i]), AllRows(files[i..]), expected);
  }

  lemma FilesOkExtend(files: seq<File>, f: File, expected: set<Id>)
    requires FilesOk(files, expected)
    ensures FilesOk(files + [f], expected) <==> f.readable && f.rows != [] && RowsOk(AllRows(files) + f.rows, expected)
    ensures AllRows(files + [f]) == AllRows(files) + f.rows
  {
    assert (files + [f])[..|files|] == files;
    assert f in files + [f];
  }

  method ReadFiles(files: seq<File>, expected: set<Id>)
    returns (error: Option<BatchError>, observed: set<Id>, volumes: seq<Volume>, rejected: seq<RejectedRow>, hashes: seq<Id>)
    ensures error.None? <==> FilesOk(files, expected)
    ensures error.None? ==> observed == Queries(AllRows(files)) && volumes == Volumes(AllRows(files))
                            && rejected == RejectedRows(files) && hashes == Hashes(files)
  {
    error, observed, volumes, rejected, hashes := None, {}, [], [], [];
    for i := 0 to |files|
      invariant error.None? && FilesOk(files[..i], expected)
      invariant observed == Queries(AllRows(files[..i])) && volumes == Volumes(AllRows(files[..i]))
      invariant rejected == RejectedRows(files[..i]) && hashes == Hashes(files[..i])
    {
      var bad, seen, more, refused := ReadFile(files[i], i + 1, expected, observed, AllRows(files[..i]));
      FilesOkExtend(files[..i], files[i], expected);
      assert files[..i] + [files[i]] == files[..i + 1];
      FilesOkPrefix(files, i + 1, expected);
      if bad.Some? {
        return bad, observed, volumes, rejected, hashes;
      }
      VolumesConcat(AllRows(files[..i]), files[i].rows);
      assert files[..i + 1][..i] == files[..i];
      observed, volumes := seen, volumes + more;
      rejected, hashes := rejected + refused, hashes + [files[i].hash];
    }
    assert files[..|files|] == files;
  }

  /** The counting loop over the classifications. */
  method Tally(vs: seq<Volume>) returns (whole: nat, commaWhole: nat, fractional: nat, noData: nat, rejected: nat, total: real)
    ensures whole == Count(vs, (v: Volume) => v.Whole?) && commaWhole == Count(vs, (v: Volume) => v.CommaWhole?)
    ensures fractional == Count(vs, (v: Volume) => v.Fractional?) && noData == Count(vs, (v: Volume) => v.NoData?)
    ensures rejected == Count(vs, (v: Volume) => v.Rejected?) && total == Sum(KnownValues(vs))
  {
    whole, commaWhole, fractional, noData, rejected, total := 0, 0, 0, 0, 0, 0.0;
    for i := 0 to |vs|
      invariant whole == Count(vs[..i], (v: Volume) => v.Whole?)
      invariant commaWhole == Count(vs[..i], (v: Volume) => v.CommaWhole?)
      invariant fractional == Count(vs[..i], (v: Volume) => v.Fractional?)
      invariant noData == Count(vs[..i], (v: Volume) => v.NoData?)
      invariant rejected == Count(vs[..i], (v: Volume) => v.Rejected?)
      invariant total == Sum(KnownValues(vs[..i]))
    {
      assert vs[..i + 1][..i] == vs[..i];
      assert KnownValues(vs[..i]) + [] == KnownValues(vs[..i]);
      match vs[i] {
        case Whole(_) => whole := whole + 1;
        case CommaWhole(_) => commaWhole := commaWhole + 1;
        case Fractional(_) => fractional := fractional + 1;
        case NoData => noData := noData + 1;
        case Rejected(_) => rejected := rejected + 1;
      }
      if IsKnown(vs[i]) {
        SumAppend(KnownValues(vs[..i]), vs[i].value);
        total := total + vs[i].value;
      }
    }
    assert vs[..|vs|] == vs;
  }

  lemma {:induction false} KnownIsSum(vs: seq<Volume>)
    ensures Count(vs, IsKnown) == Count(vs, (v: Volume) => v.Whole?) + Count(vs, (v: Volume) => v.CommaWhole?)
                                  + Count(vs, (v: Volume) => v.Fractional?) == |KnownValues(vs)|
    ensures Count(vs, IsKnown) + Count(vs, (v: Volume) => v.NoData?) + Count(vs, (v: Volume) => v.Rejected?) == |vs|
  {
    if vs != [] {
      KnownIsSum(vs[..|vs| - 1]);
    }
  }

  method ValidateBatches(files: seq<File>, universe: seq<Id>, p: Parameters) returns (r: Result<Summary, BatchError>)
    ensures r.Ok? <==> Accepts(files, universe, p)
    ensures r.Ok? ==> r.value == SummaryOf(files, universe, p)
  {
    if !(1 <= |files| <= 20) {
      return Err(FileCount);
    }
    var expected := Elements(universe);
    if !(1 <= |expected| <= 200) {
      return Err(UniverseSize);
    }
    if |expected| != |universe| {
      return Err(DuplicateUniverse);
    }
    var error, observed, volumes, rejectedRows, hashes := ReadFiles(files, expected);
    if error.Some? {
      return Err(error.value);
    }
    if observed != expected {
      return Err(Incomplete);
    }
    if p.target <= 0 {
      return Err(BadTarget);
    }
    if p.epc <= 0.0 {
      return Err(BadEpc);
    }
    if !(0.0 < p.ctr <= 1.0) {
      return Err(BadCtr);
    }
    var whole, commaWhole, fractional, noData, rejected, total := Tally(volumes);
    KnownIsSum(volumes);
    var clicks, sessions := RequiredClicks(p), RequiredSessions(p);
    var below := total < sessions as real;
    var figures := Figures(
      |expected|, whole + commaWhole + fractional, noData, rejected, whole, commaWhole, fractional, total,
      HalfUp(noData as real / |expected| as real), Concentrate(volumes), clicks, sessions,
      Decide(below, noData > 0 || rejected > 0), below);
    return Ok(Summary(p, |files|, figures, rejectedRows, hashes));
  }
}
