/** What an accepted batch set is, what its figures depend on, and when its summary is
    valid. */
module DemandBatchesOrder {
  import opened Common
  import opened Collections
  import opened Rounding
  import opened DescendingOrder
  import opened DemandBatches

  // ---------- One row per frozen query ----------

  lemma {:induction false} DistinctQueryCount(rows: seq<Row>)
    requires DistinctQueries(rows) && forall r | r in rows :: r.query.Some?
    ensures |Queries(rows)| == |rows|
  {
    if rows != [] {
      var n := |rows| - 1;
      var less, last := rows[..n], rows[n];
      assert rows == less + [last];
      assert last in rows && forall r | r in less :: r in rows;
      LessIsDistinct(rows);
      DistinctQueryCount(less);
      RowsStep(rows, n);
      assert rows[..n + 1] == rows;
    } else {
      assert Queries(rows) == {};
    }
  }

  lemma LessIsDistinct(rows: seq<Row>)
    requires DistinctQueries(rows) && rows != [] && rows[|rows| - 1].query.Some?
    ensures var n := |rows| - 1; DistinctQueries(rows[..n]) && rows[n].query.value !in Queries(rows[..n])
  {
    var n := |rows| - 1;
    assert forall i | 0 <= i < n :: rows[..n][i] == rows[i];
  }

  ghost predicate ExactlyOnce(rows: seq<Row>, q: Id) {
    exists i | 0 <= i < |rows| :: rows[i].query == Some(q) && forall j | 0 <= j < |rows| && rows[j].query == Some(q) :: j == i
  }

  /** The rows of an accepted batch set are in bijection with the frozen slate. */
  lemma AcceptedIsBijection(files: seq<File>, universe: seq<Id>, p: Parameters)
    requires Accepts(files, universe, p)
    ensures var rows := AllRows(files);
            && |rows| == |universe|
            && (forall r | r in rows :: r.query.Some? && r.query.value in universe)
            && forall q | q in universe :: ExactlyOnce(rows, q)
  {
    var rows := AllRows(files);
    DistinctQueryCount(rows);
    forall r | r in rows ensures r.query.Some? && r.query.value in universe {
      assert r.query.value in Elements(universe);
    }
    forall q | q in universe ensures ExactlyOnce(rows, q) {
      assert q in Elements(universe) && q in Queries(rows);
      var r :| r in rows && r.query.Some? && r.query.value == q;
      var i :| 0 <= i < |rows| && rows[i] == r;
      assert forall j | 0 <= j < |rows| && rows[j].query == Some(q) :: j == i;
    }
  }

  // ---------- Every split and every order ----------

  function KnownBag(r: Row): multiset<real> {
    if IsKnown(r.volume) then multiset{r.volume.value} else multiset{}
  }

  lemma {:induction false} KnownValuesAreBag(rows: seq<Row>)
    ensures multiset(KnownValues(Volumes(rows))) == SumOf(rows, KnownBag)
  {
    if rows != [] {
      var n := |rows| - 1;
      KnownValuesAreBag(rows[..n]);
      var vs := Volumes(rows);
      assert vs[..|vs| - 1] == Volumes(rows[..n]);
    }
  }

  ghost function Marks(p: Volume -> bool): Row -> multiset<int> {
    (r: Row) => if p(r.volume) then multiset{0} else multiset{}
  }

  lemma {:induction false} CountIsBag(rows: seq<Row>, p: Volume -> bool)
    ensures Count(Volumes(rows), p) == |SumOf(rows, Marks(p))|
  {
    if rows != [] {
      var n := |rows| - 1;
      CountIsBag(rows[..n], p);
      var vs := Volumes(rows);
      assert vs[..|vs| - 1] == Volumes(rows[..n]);
    }
  }

  lemma SameCount(a: seq<Row>, b: seq<Row>, p: Volume -> bool)
    requires multiset(a) == multiset(b)
    ensures Count(Volumes(a), p) == Count(Volumes(b), p)
  {
    CountIsBag(a, p);
    CountIsBag(b, p);
    Collections.SumForgetsOrder(a, b, Marks(p));
  }

  lemma SameKnownValues(a: seq<Row>, b: seq<Row>)
    requires multiset(a) == multiset(b)
    ensures Sort(KnownValues(Volumes(a))) == Sort(KnownValues(Volumes(b)))
    ensures Sum(KnownValues(Volumes(a))) == Sum(KnownValues(Volumes(b)))
  {
    KnownValuesAreBag(a);
    KnownValuesAreBag(b);
    Collections.SumForgetsOrder(a, b, KnownBag);
    DescendingOrder.SortForgetsOrder(KnownValues(Volumes(a)), KnownValues(Volumes(b)));
    DescendingOrder.SumForgetsOrder(KnownValues(Volumes(a)), KnownValues(Volumes(b)));
  }

  /** The figures read the classifications only through counts and known values. */
  lemma FiguresReadCounts(p: Parameters, vs: seq<Volume>, ws: seq<Volume>, keywords: nat)
    requires p.epc > 0.0 && p.ctr > 0.0 && keywords > 0
    requires Count(vs, IsKnown) == Count(ws, IsKnown)
    requires Count(vs, (v: Volume) => v.Whole?) == Count(ws, (v: Volume) => v.Whole?)
    requires Count(vs, (v: Volume) => v.CommaWhole?) == Count(ws, (v: Volume) => v.CommaWhole?)
    requires Count(vs, (v: Volume) => v.Fractional?) == Count(ws, (v: Volume) => v.Fractional?)
    requires Count(vs, (v: Volume) => v.NoData?) == Count(ws, (v: Volume) => v.NoData?)
    requires Count(vs, (v: Volume) => v.Rejected?) == Count(ws, (v: Volume) => v.Rejected?)
    requires Sum(KnownValues(vs)) == Sum(KnownValues(ws)) && Sort(KnownValues(vs)) == Sort(KnownValues(ws))
    ensures FiguresOf(p, vs, keywords) == FiguresOf(p, ws, keywords)
  {
    assert Concentrate(vs) == Concentrate(ws);
  }

  lemma FiguresForgetOrder(a: seq<Row>, b: seq<Row>, p: Parameters, keywords: nat)
    requires p.epc > 0.0 && p.ctr > 0.0 && keywords > 0 && multiset(a) == multiset(b)
    ensures FiguresOf(p, Volumes(a), keywords) == FiguresOf(p, Volumes(b), keywords)
  {
    SameKnownValues(a, b);
    SameCount(a, b, IsKnown);
    SameCount(a, b, (v: Volume) => v.Whole?);
    SameCount(a, b, (v: Volume) => v.CommaWhole?);
    SameCount(a, b, (v: Volume) => v.Fractional?);
    SameCount(a, b, (v: Volume) => v.NoData?);
    SameCount(a, b, (v: Volume) => v.Rejected?);
    FiguresReadCounts(p, Volumes(a), Volumes(b), keywords);
  }

  /** Counts, totals and shares are the same for every split of the rows over files and
      every order of rows and files. */
  lemma FiguresForgetSplit(a: seq<File>, b: seq<File>, universe: seq<Id>, p: Parameters)
    requires Accepts(a, universe, p) && Accepts(b, universe, p)
    requires multiset(AllRows(a)) == multiset(AllRows(b))
    ensures SummaryOf(a, universe, p).figures == SummaryOf(b, universe, p).figures
    ensures |RejectedRows(a)| == |RejectedRows(b)|
  {
    FiguresForgetOrder(AllRows(a), AllRows(b), p, |universe|);
    SameCount(AllRows(a), AllRows(b), (v: Volume) => v.Rejected?);
    RejectedCount(a);
    RejectedCount(b);
  }

  lemma {:induction false} RejectedInCount(rows: seq<Row>, batch: nat)
    ensures |RejectedIn(rows, batch)| == Count(Volumes(rows), (v: Volume) => v.Rejected?)
  {
    if rows != [] {
      var n := |rows| - 1;
      RejectedInCount(rows[..n], batch);
      var vs := Volumes(rows);
      assert vs[..|vs| - 1] == Volumes(rows[..n]);
    }
  }

  lemma {:induction false} CountConcat(a: seq<Volume>, b: seq<Volume>, p: Volume -> bool)
    ensures Count(a + b, p) == Count(a, p) + Count(b, p)
    decreases |b|
  {
    if b == [] {
      assert a + b == a;
    } else {
      var n := |b| - 1;
      CountConcat(a, b[..n], p);
      assert (a + b)[..|a + b| - 1] == a + b[..n];
    }
  }

  /** As many rejected rows as rejected classifications. */
  lemma {:induction false} RejectedCount(files: seq<File>)
    ensures |RejectedRows(files)| == Count(Volumes(AllRows(files)), (v: Volume) => v.Rejected?)
  {
    if files != [] {
      var n := |files| - 1;
      RejectedCount(files[..n]);
      RejectedInCount(files[n].rows, |files|);
      VolumesConcat(AllRows(files[..n]), files[n].rows);
      CountConcat(Volumes(AllRows(files[..n])), Volumes(files[n].rows), (v: Volume) => v.Rejected?);
    }
  }

  // ---------- Shares ----------

  lemma {:induction false} KnownAreNonNegative(vs: seq<Volume>)
    requires forall v | v in vs :: ValidVolume(v)
    ensures forall x | x in KnownValues(vs) :: x >= 0.0
  {
    if vs != [] {
      var n := |vs| - 1;
      assert vs == vs[..n] + [vs[n]];
      KnownAreNonNegative(vs[..n]);
      assert ValidVolume(vs[n]);
    }
  }

  lemma RatioIsMonotone(a: real, b: real, c: real)
    requires 0.0 <= a <= b && c > 0.0
    ensures 0.0 <= a / c <= b / c
  {
    assert b / c - a / c == (b - a) / c;
  }

  lemma RatioToItself(c: real)
    requires c > 0.0
    ensures c / c == 1.0
  {
  }

  /** Rounding half up keeps shares of a total in order and in [0, 1]. */
  lemma RoundedSharesAreOrdered(a: real, b: real, total: real)
    requires 0.0 <= a <= b <= total && total > 0.0
    ensures 0.0 <= HalfUp(a / total) <= HalfUp(b / total) <= 1.0
  {
    RatioIsMonotone(a, b, total);
    RatioIsMonotone(b, total, total);
    RatioToItself(total);
    HalfUpIsMonotone(0.0, a / total);
    HalfUpIsMonotone(a / total, b / total);
    HalfUpIsMonotone(b / total, 1.0);
    HalfUpOfUnit();
  }

  /** The two largest known volumes sum to at most the five largest, and these to the total. */
  lemma TopSums(vs: seq<Volume>)
    requires (forall v | v in vs :: ValidVolume(v)) && |Sort(KnownValues(vs))| >= 5
    ensures var known := Sort(KnownValues(vs)); 0.0 <= Sum(known[..2]) <= Sum(known[..5]) <= Sum(known)
  {
    var known := Sort(KnownValues(vs));
    KnownAreNonNegative(vs);
    SortSorts(KnownValues(vs));
    forall x | x in known ensures x >= 0.0 {
      assert x in multiset(known) && x in multiset(KnownValues(vs));
      assert x in KnownValues(vs);
    }
    PrefixSum(known, 2, 5);
    PrefixSum(known, 5, |known|);
    assert known[..|known|] == known;
  }

  /** The top two's share is at most the top five's, and both lie in [0, 1]. */
  lemma SharesAreOrdered(vs: seq<Volume>)
    requires forall v | v in vs :: ValidVolume(v)
    ensures var s := Concentrate(vs);
            && (s.top2.Some? <==> s.top5.Some?)
            && (s.top2.Some? ==> 0.0 <= s.top2.value <= s.top5.value <= 1.0
                                 && EightPlaces(s.top2.value) && EightPlaces(s.top5.value))
  {
    var known := Sort(KnownValues(vs));
    var total := Sum(known);
    if |known| >= 5 && total > 0.0 {
      TopSums(vs);
      var a, b := Sum(known[..2]), Sum(known[..5]);
      RoundedSharesAreOrdered(a, b, total);
      HalfUpHasEightPlaces(a / total);
      HalfUpHasEightPlaces(b / total);
    }
  }

  // ---------- The summary's own validator ----------

  predicate ValidShares(s: Shares) {
    && (s.top2.Some? <==> s.top5.Some?)
    && (if s.top2.Some? then
          && 0.0 <= s.top2.value <= s.top5.value <= 1.0 && EightPlaces(s.top2.value) && EightPlaces(s.top5.value)
          && s.status == (if s.top2.value >= 0.5 || s.top5.value >= 0.8 then High else NotHigh)
        else s.status == InsufficientRows || s.status == NotRecomputable)
    && s.addressable == (match s.status
                         case High => UnknownConcentrated
                         case NotHigh => NotSeparated
                         case InsufficientRows => UnknownInsufficient
                         case NotRecomputable => UnknownReexport)
  }

  predicate ValidFigures(f: Figures) {
    && 1 <= f.keywords <= 200 && f.known <= 200 && f.noData <= 200 && f.rejected <= 200
    && f.known + f.noData + f.rejected == f.keywords && f.whole + f.commaWhole + f.fractional == f.known
    && f.total >= 0.0 && 0.0 <= f.noDataRate <= 1.0 && EightPlaces(f.noDataRate)
    && f.noDataRate == HalfUp(f.noData as real / f.keywords as real)
    && ValidShares(f.shares) && f.clicks > 0 && f.sessions > 0
    && f.capacity == Decide(f.total < f.sessions as real, f.noData > 0 || f.rejected > 0)
    && f.expand == (f.total < f.sessions as real)
  }

  predicate ValidParameters(p: Parameters) {
    && p.observedOn < p.nextReviewOn <= p.observedOn + 90
    && p.target > 0 && p.epc > 0.0 && EightPlaces(p.epc) && 0.0 < p.ctr <= 1.0 && EightPlaces(p.ctr)
  }

  predicate ValidSummary(s: Summary) {
    && ValidParameters(s.parameters) && ValidFigures(s.figures)
    && 1 <= s.files <= 20 && |s.hashes| == s.files && |s.rejectedRows| == s.figures.rejected
  }

  lemma {:induction false} HashesCount(files: seq<File>)
    ensures |Hashes(files)| == |files|
  {
    if files != [] {
      HashesCount(files[..|files| - 1]);
    }
  }

  lemma {:induction false} VolumesAreValid(rows: seq<Row>)
    requires forall r | r in rows :: ValidVolume(r.volume)
    ensures |Volumes(rows)| == |rows| && forall v | v in Volumes(rows) :: ValidVolume(v)
  {
    if rows != [] {
      var n := |rows| - 1;
      assert rows == rows[..n] + [rows[n]];
      VolumesAreValid(rows[..n]);
      assert rows[n] in rows;
    }
  }

  lemma {:induction false} RowsAreValid(files: seq<File>)
    requires ValidFiles(files)
    ensures forall r | r in AllRows(files) :: ValidVolume(r.volume)
  {
    if files != [] {
      var n := |files| - 1;
      assert files == files[..n] + [files[n]];
      RowsAreValid(files[..n]);
      assert files[n] in files;
    }
  }

  lemma RequirementsArePositive(p: Parameters)
    requires p.target > 0 && p.epc > 0.0 && 0.0 < p.ctr
    ensures RequiredClicks(p) > 0 && RequiredSessions(p) > 0
  {
    assert p.target as real / p.epc > 0.0;
    assert RequiredClicks(p) as real / p.ctr > 0.0;
  }

  lemma NoDataRateIsValid(noData: nat, keywords: nat)
    requires noData <= keywords && keywords > 0
    ensures var r := HalfUp(noData as real / keywords as real); 0.0 <= r <= 1.0 && EightPlaces(r)
  {
    var x := noData as real / keywords as real;
    RatioIsMonotone(0.0, noData as real, keywords as real);
    RatioIsMonotone(noData as real, keywords as real, keywords as real);
    RatioToItself(keywords as real);
    HalfUpIsMonotone(0.0, x);
    HalfUpIsMonotone(x, 1.0);
    HalfUpOfUnit();
    HalfUpHasEightPlaces(x);
  }

  lemma SumIsNonNegative(s: seq<real>)
    requires forall x | x in s :: x >= 0.0
    ensures Sum(s) >= 0.0
  {
    PrefixSum(s, 0, |s|);
    assert s[..|s|] == s;
  }

  lemma FiguresAreValid(p: Parameters, vs: seq<Volume>, keywords: nat)
    requires p.target > 0 && p.epc > 0.0 && 0.0 < p.ctr && 1 <= keywords <= 200 && |vs| == keywords
    requires forall v | v in vs :: ValidVolume(v)
    ensures ValidFigures(FiguresOf(p, vs, keywords))
  {
    KnownIsSum(vs);
    KnownAreNonNegative(vs);
    SumIsNonNegative(KnownValues(vs));
    NoDataRateIsValid(Count(vs, (v: Volume) => v.NoData?), keywords);
    SharesAreOrdered(vs);
    RequirementsArePositive(p);
  }

  lemma SummaryParts(files: seq<File>, universe: seq<Id>, p: Parameters)
    requires ValidFiles(files) && Accepts(files, universe, p)
    ensures var s := SummaryOf(files, universe, p);
            && ValidFigures(s.figures) && 1 <= s.files <= 20 && |s.hashes| == s.files && |s.rejectedRows| == s.figures.rejected
            && s.parameters == p
  {
    AcceptedIsBijection(files, universe, p);
    RowsAreValid(files);
    VolumesAreValid(AllRows(files));
    FiguresAreValid(p, Volumes(AllRows(files)), |universe|);
    RejectedCount(files);
    HashesCount(files);
  }

  /** The summary of an accepted batch set is valid exactly when the review date and the
      two assumptions meet the limits that the batch loop itself does not check. */
  lemma SummaryIsValidIff(files: seq<File>, universe: seq<Id>, p: Parameters)
    requires ValidFiles(files) && Accepts(files, universe, p)
    ensures ValidSummary(SummaryOf(files, universe, p)) <==>
            p.observedOn < p.nextReviewOn <= p.observedOn + 90 && EightPlaces(p.epc) && EightPlaces(p.ctr)
  {
    SummaryParts(files, universe, p);
  }

  lemma OneFileRows(f: File)
    ensures AllRows([f]) == f.rows
  {
    assert [f][..0] == [];
  }

  lemma OneRowIsFine(r: Row, universe: seq<Id>)
    requires r.wellFormed && r.query.Some? && r.japan && universe == [r.query.value]
    ensures Elements(universe) == {r.query.value} && |Elements(universe)| == 1
    ensures RowsOk([r], Elements(universe)) && Queries([r]) == Elements(universe)
  {
    assert r in [r] && r.query.value in universe;
  }

  lemma OneRowIsAccepted(p: Parameters)
    requires p.target > 0 && p.epc > 0.0 && 0.0 < p.ctr <= 1.0
    ensures var files := [File(0, true, [Row(true, Some(0), true, Whole(1.0))])];
            Accepts(files, [0], p) && ValidFiles(files)
  {
    var row := Row(true, Some(0), true, Whole(1.0));
    OneFileRows(File(0, true, [row]));
    OneRowIsFine(row, [0]);
  }

  /** One row, accepted by the loop and refused by the validator: its review is due on
      the day of the observation. */
  lemma SameDayReviewIsRefused()
    ensures var files := [File(0, true, [Row(true, Some(0), true, Whole(1.0))])];
            var p := Parameters(0, 0, 0, 0, 200_000, 60.0, 0.15);
            Accepts(files, [0], p) && !ValidSummary(SummaryOf(files, [0], p))
  {
    var p := Parameters(0, 0, 0, 0, 200_000, 60.0, 0.15);
    OneRowIsAccepted(p);
    SummaryIsValidIff([File(0, true, [Row(true, Some(0), true, Whole(1.0))])], [0], p);
  }
}
