/** What the export validator accepts and publishes, with limits, roundings and line
    numbers written out. */
module DemandRules {
  import opened Common
  import opened Rounding
  import opened DescendingOrder
  import opened DemandBatches
  import opened DemandBatchesOrder

  // ---------- Acceptance ----------

  /** A batch set is accepted exactly when 1 to 20 readable, non-empty files list well-formed
      Japanese rows that match 1 to 200 distinct frozen queries one to one, under a
      positive target and EPC and a click rate in (0, 1]. */
  lemma AcceptRules(files: seq<File>, universe: seq<Id>, p: Parameters)
    ensures Accepts(files, universe, p) <==>
            var rows := AllRows(files);
            && 1 <= |files| && |files| <= 20 && 1 <= |universe| && |universe| <= 200
            && (forall i, j | 0 <= i < j < |universe| :: universe[i] != universe[j])
            && (forall f | f in files :: f.readable && |f.rows| > 0)
            && (forall r | r in rows :: r.wellFormed && r.japan && r.query.Some? && r.query.value in universe)
            && (forall q | q in universe :: ExactlyOnce(rows, q))
            && p.target > 0 && p.epc > 0.0 && p.ctr > 0.0 && p.ctr <= 1.0
  {
    DistinctCount(universe);
    var rows := AllRows(files);
    if Accepts(files, universe, p) {
      AcceptedIsBijection(files, universe, p);
    }
    if && (forall r | r in rows :: r.wellFormed && r.japan && r.query.Some? && r.query.value in universe)
       && (forall q | q in universe :: ExactlyOnce(rows, q))
    {
      OnceMeansDistinct(rows, universe);
    }
  }

  lemma {:induction false} DistinctCount(s: seq<Id>)
    ensures |Elements(s)| <= |s|
    ensures |Elements(s)| == |s| <==> forall i, j | 0 <= i < j < |s| :: s[i] != s[j]
  {
    if s != [] {
      var n := |s| - 1;
      DistinctCount(s[..n]);
      assert Elements(s) == Elements(s[..n]) + {s[n]};
      if s[n] in Elements(s[..n]) {
        var i :| 0 <= i < n && s[..n][i] == s[n];
        assert s[i] == s[n];
      }
    }
  }

  lemma OnceMeansDistinct(rows: seq<Row>, universe: seq<Id>)
    requires forall r | r in rows :: r.query.Some? && r.query.value in universe
    requires forall q | q in universe :: ExactlyOnce(rows, q)
    ensures DistinctQueries(rows) && Queries(rows) == Elements(universe)
  {
    forall i, j | 0 <= i < j < |rows| ensures rows[i].query != rows[j].query {
      assert rows[i] in rows && rows[j] in rows;
      assert ExactlyOnce(rows, rows[i].query.value);
    }
    forall q ensures q in Queries(rows) <==> q in Elements(universe) {
      if q in universe {
        assert ExactlyOnce(rows, q);
        var i :| 0 <= i < |rows| && rows[i].query == Some(q);
        assert rows[i] in rows;
      }
    }
  }

  // ---------- Lists over the files ----------

  /** The rows of all files, and what is known of them, one more at a time. */
  lemma RowRules(files: seq<File>, f: File, rows: seq<Row>, r: Row)
    ensures AllRows([]) == [] && AllRows(files + [f]) == AllRows(files) + f.rows
    ensures Volumes([]) == [] && Volumes(rows + [r]) == Volumes(rows) + [r.volume]
    ensures Hashes([]) == [] && Hashes(files + [f]) == Hashes(files) + [f.hash]
  {
    assert (files + [f])[..|files|] == files && (rows + [r])[..|rows|] == rows;
  }

  /** Known volumes are not negative. */
  lemma FileRules(files: seq<File>)
    ensures ValidFiles(files) <==>
            forall f, r | f in files && r in f.rows :: !r.volume.NoData? && !r.volume.Rejected? ==> r.volume.value >= 0.0
  {
  }

  lemma VolumeRules(vs: seq<Volume>, v: Volume)
    ensures KnownValues([]) == []
    ensures v.Whole? || v.CommaWhole? || v.Fractional? ==> KnownValues(vs + [v]) == KnownValues(vs) + [v.value]
    ensures v.NoData? || v.Rejected? ==> KnownValues(vs + [v]) == KnownValues(vs)
    ensures forall p: Volume -> bool :: Count(vs + [v], p) == Count(vs, p) + if p(v) then 1 else 0
    ensures forall p: Volume -> bool :: Count([], p) == 0
  {
    assert (vs + [v])[..|vs|] == vs;
  }

  lemma {:induction false} RejectedLine(rows: seq<Row>, batch: nat, b: nat, line: nat, text: Id)
    ensures RejectedRow(b, line, text) in RejectedIn(rows, batch) <==>
            b == batch && 2 <= line <= |rows| + 1 && rows[line - 2].volume == Rejected(text)
  {
    if rows != [] {
      RejectedLine(rows[..|rows| - 1], batch, b, line, text);
    }
  }

  /** A rejected row is reported under its file's number from one and its line from two. */
  lemma {:induction false} RejectedRules(files: seq<File>, b: nat, line: nat, text: Id)
    ensures RejectedRow(b, line, text) in RejectedRows(files) <==>
            1 <= b <= |files| && 2 <= line <= |files[b - 1].rows| + 1 && files[b - 1].rows[line - 2].volume == Rejected(text)
  {
    if files != [] {
      var n := |files| - 1;
      RejectedRules(files[..n], b, line, text);
      RejectedLine(files[n].rows, |files|, b, line, text);
    }
  }

  // ---------- Figures ----------

  /** Rounding to eight places takes the nearest value, halves upward. */
  lemma RoundRules(x: real) returns (k: int)
    ensures HalfUp(x) * 100_000_000.0 == k as real && k as real - 0.5 <= x * 100_000_000.0 < k as real + 0.5
  {
    k := (x * SCALE + 0.5).Floor;
    assert HalfUp(x) == k as real / SCALE;
    assert k as real / SCALE * SCALE == k as real;
  }

  /** Known volumes in descending order, repetitions kept. */
  function Ranked(vs: seq<Volume>): seq<real> {
    Sort(KnownValues(vs))
  }

  lemma RankRules(vs: seq<Volume>)
    ensures multiset(Ranked(vs)) == multiset(KnownValues(vs))
    ensures forall i, j | 0 <= i < j < |Ranked(vs)| :: Ranked(vs)[i] >= Ranked(vs)[j]
    ensures Sum(Ranked(vs)) == Sum(KnownValues(vs))
  {
    SortSorts(KnownValues(vs));
    SumSort(KnownValues(vs));
  }

  lemma FirstSums(s: seq<real>)
    requires |s| >= 5
    ensures Sum(s[..2]) == s[0] + s[1] && Sum(s[..5]) == s[0] + s[1] + s[2] + s[3] + s[4]
  {
    assert s[..2] == [s[0], s[1]] && s[..5] == [s[0], s[1], s[2], s[3], s[4]];
    SumOfTwo(s[0], s[1]);
    SumOfFive(s[0], s[1], s[2], s[3], s[4]);
  }

  lemma SumOfTwo(a: real, b: real)
    ensures Sum([a, b]) == a + b
  {
    assert [a, b][1..] == [b] && [b][1..] == [];
    assert Sum([b]) == b + Sum([]);
  }

  lemma SumOfFive(a: real, b: real, c: real, d: real, e: real)
    ensures Sum([a, b, c, d, e]) == a + b + c + d + e
  {
    assert [a, b, c, d, e][1..] == [b, c, d, e] && [b, c, d, e][1..] == [c, d, e] && [c, d, e][1..] == [d, e];
    SumOfTwo(d, e);
    assert Sum([c, d, e]) == c + Sum([d, e]) && Sum([b, c, d, e]) == b + Sum([c, d, e]);
  }

  /** Shares are the two, respectively five, largest known volumes by the total of all, and
      there are none for fewer than five volumes or a total of zero; half of the total in
      two or four fifths in five is a high concentration. */
  lemma ShareRules(vs: seq<Volume>)
    ensures var k, s := Ranked(vs), Concentrate(vs);
            if |k| < 5 || Sum(k) <= 0.0 then s == Shares(None, None, InsufficientRows, UnknownInsufficient)
            else
              && s.top2 == Some(HalfUp((k[0] + k[1]) / Sum(k)))
              && s.top5 == Some(HalfUp((k[0] + k[1] + k[2] + k[3] + k[4]) / Sum(k)))
              && (if s.top2.value >= 0.5 || s.top5.value >= 0.8 then s.status == High && s.addressable == UnknownConcentrated
                  else s.status == NotHigh && s.addressable == NotSeparated)
  {
    if |Ranked(vs)| >= 5 {
      FirstSums(Ranked(vs));
    }
  }

  /** The requirement is the least number of clicks that earns the target, and the least
      number of sessions that yields them. */
  lemma RequirementRules(p: Parameters)
    requires p.epc > 0.0 && p.ctr > 0.0
    ensures var clicks, sessions := RequiredClicks(p), RequiredSessions(p);
            && (clicks as real - 1.0) * p.epc < p.target as real <= clicks as real * p.epc
            && (sessions as real - 1.0) * p.ctr < clicks as real <= sessions as real * p.ctr
  {
    LeastMultiple(p.target as real, p.epc);
    LeastMultiple(RequiredClicks(p) as real, p.ctr);
  }

  lemma LeastMultiple(a: real, b: real)
    requires b > 0.0
    ensures (Ceil(a / b) as real - 1.0) * b < a <= Ceil(a / b) as real * b
  {
    ScaledDown(Ceil(a / b) as real - 1.0, a / b, b);
    ScaledDown(a / b, Ceil(a / b) as real, b);
    assert a / b * b == a;
  }

  lemma ScaledDown(x: real, y: real, b: real)
    requires b > 0.0
    ensures x < y ==> x * b < y * b
    ensures x <= y ==> x * b <= y * b
  {
    assert y * b - x * b == (y - x) * b;
    if x < y {
      assert (y - x) * b > 0.0;
    }
  }

  /** The known total either meets the required sessions; or it does not, and more may be
      hidden in rows without a known volume; or it cannot.  Only in the last two cases is
      a wider scope recommended. */
  lemma CapacityRules(p: Parameters, vs: seq<Volume>, keywords: nat)
    requires p.epc > 0.0 && p.ctr > 0.0 && keywords > 0
    ensures var x := FiguresOf(p, vs, keywords);
            && (x.capacity == FloorMetNotProven <==> x.total >= x.sessions as real)
            && (x.capacity == BelowRequiredIncomplete <==> x.total < x.sessions as real && x.noData + x.rejected > 0)
            && (x.capacity == InsufficientEvenAtFullCapture <==> x.total < x.sessions as real && x.noData + x.rejected == 0)
            && (x.expand <==> x.total < x.sessions as real)
            && x.total == Sum(KnownValues(vs)) && x.clicks == RequiredClicks(p) && x.sessions == RequiredSessions(p)
            && x.keywords == keywords && x.noDataRate == HalfUp(x.noData as real / keywords as real)
            && x.shares == Concentrate(vs)
            && x.whole == Count(vs, (v: Volume) => v.Whole?) && x.commaWhole == Count(vs, (v: Volume) => v.CommaWhole?)
            && x.fractional == Count(vs, (v: Volume) => v.Fractional?) && x.known == x.whole + x.commaWhole + x.fractional
            && x.noData == Count(vs, (v: Volume) => v.NoData?) && x.rejected == Count(vs, (v: Volume) => v.Rejected?)
  {
    KnownIsSum(vs);
  }

  /** The summary holds the parameters, the figures of all rows, the rejected rows and one
      hash for each file, in order. */
  lemma SummaryRules(files: seq<File>, universe: seq<Id>, p: Parameters)
    requires Accepts(files, universe, p)
    ensures var s := SummaryOf(files, universe, p);
            && s.parameters == p && s.files == |files| && s.figures == FiguresOf(p, Volumes(AllRows(files)), |universe|)
            && s.rejectedRows == RejectedRows(files)
            && |s.hashes| == |files| && forall i | 0 <= i < |files| :: s.hashes[i] == files[i].hash
  {
    HashRules(files);
  }

  lemma {:induction false} HashRules(files: seq<File>)
    ensures |Hashes(files)| == |files| && forall i | 0 <= i < |files| :: Hashes(files)[i] == files[i].hash
  {
    if files != [] {
      HashRules(files[..|files| - 1]);
    }
  }

  // ---------- The summary's validator ----------

  /** Shares come in pairs of eight places, ordered within the unit interval, and with the
      status their size gives them. */
  ghost predicate SharesFit(s: Shares) {
    || (&& s.top2.Some? && s.top5.Some? && 0.0 <= s.top2.value && s.top2.value <= s.top5.value && s.top5.value <= 1.0
        && EightPlaces(s.top2.value) && EightPlaces(s.top5.value)
        && (s.top2.value >= 0.5 || s.top5.value >= 0.8 ==> s.status == High && s.addressable == UnknownConcentrated)
        && (s.top2.value < 0.5 && s.top5.value < 0.8 ==> s.status == NotHigh && s.addressable == NotSeparated))
    || (&& s.top2.None? && s.top5.None?
        && ((s.status == InsufficientRows && s.addressable == UnknownInsufficient)
            || (s.status == NotRecomputable && s.addressable == UnknownReexport)))
  }

  lemma ValidatorRules(s: Summary)
    ensures ValidSummary(s) <==>
            var p, f := s.parameters, s.figures;
            var below := f.total < f.sessions as real;
            && p.observedOn < p.nextReviewOn && p.nextReviewOn - p.observedOn <= 90
            && p.target > 0 && p.epc > 0.0 && EightPlaces(p.epc) && p.ctr > 0.0 && p.ctr <= 1.0 && EightPlaces(p.ctr)
            && 1 <= s.files && s.files <= 20 && |s.hashes| == s.files
            && 1 <= f.keywords && f.keywords <= 200 && f.known + f.noData + f.rejected == f.keywords
            && f.whole + f.commaWhole + f.fractional == f.known && |s.rejectedRows| == f.rejected
            && f.total >= 0.0 && f.noDataRate == HalfUp(f.noData as real / f.keywords as real)
            && 0.0 <= f.noDataRate && f.noDataRate <= 1.0 && EightPlaces(f.noDataRate)
            && SharesFit(f.shares) && f.clicks > 0 && f.sessions > 0 && (f.expand <==> below)
            && (!below ==> f.capacity == FloorMetNotProven)
            && (below && f.noData + f.rejected > 0 ==> f.capacity == BelowRequiredIncomplete)
            && (below && f.noData + f.rejected == 0 ==> f.capacity == InsufficientEvenAtFullCapture)
  {
    assert ValidShares(s.figures.shares) <==> SharesFit(s.figures.shares);
  }
}
