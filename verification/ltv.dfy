/**
 * ltv_tables: cohort_rev left-merged with acq_counts on the cohort month,
 * revenue per acquired customer, pivoted to one row per cohort month and one
 * column per month offset (missing cells 0), and summed cumulatively along
 * each row.
 */
module Ltv {

  import opened Options
  import opened Grouping
  import opened Mart

  /** A row of the merged table: a cohort_rev row, its cohort's new_customers and its ltv. */
  datatype LtvPoint = LtvPoint(
    cohortMonth: int,
    monthsSinceCohort: int,
    revenue: real,
    newCustomers: Option<nat>,  // None: the cohort month has no acq_counts row
    ltv: Option<real>)          // None: pandas' NaN

  /**
   * ltv_cum: the pivot's index (cohort months), its columns (month offsets)
   * and, row by row, the cumulative per-customer revenue.
   */
  datatype LtvMatrix = LtvMatrix(cohorts: seq<int>, offsets: seq<int>, cumulative: seq<seq<real>>)

  /** Why the pivot fails: a (cohort month, offset) pair occurs in two merged rows. */
  datatype LtvError = DuplicateCell

  function LtvCohort(p: LtvPoint): int { p.cohortMonth }
  function LtvOffset(p: LtvPoint): int { p.monthsSinceCohort }
  function LtvCell(p: LtvPoint): (int, int) { (p.cohortMonth, p.monthsSinceCohort) }
  function LtvRevenue(p: LtvPoint): real { p.revenue }
  /** The pivoted value of a row after fillna(0). */
  function LtvOrZero(p: LtvPoint): real { p.ltv.GetOr(0.0) }

  /** A matrix shaped as the pivot is: ascending index and columns, one full row per cohort. */
  predicate WellFormed(m: LtvMatrix) {
    && Ascending(m.cohorts)
    && Ascending(m.offsets)
    && |m.cumulative| == |m.cohorts|
    && (forall i :: 0 <= i < |m.cumulative| ==> |m.cumulative[i]| == |m.offsets|)
  }

  // ---------------------------------------------------------------------------
  // The merge

  /** revenue / new_customers.replace(0, NaN): undefined without customers. */
  function PerCustomer(revenue: real, n: Option<nat>): (ltv: Option<real>)
    ensures ltv.Some? <==> n.Some? && n.value > 0
    ensures ltv.Some? ==> ltv.value * (n.value as real) == revenue
  {
    match n
    case None => None
    case Some(k) => if k == 0 then None else Some(revenue / k as real)
  }

  /** A cohort_rev row joined with an acq_counts row, or with none. */
  function Attach(r: RevenuePoint, a: Option<AcquisitionCount>): LtvPoint {
    var n := match a case Some(row) => Some(row.newCustomers) case None => None;
    LtvPoint(r.cohortMonth, r.monthsSinceCohort, r.revenue, n, PerCustomer(r.revenue, n))
  }

  /** A left merge emits one row per matching acq_counts row, or one unmatched row. */
  function MergeRow(r: RevenuePoint, acq: seq<AcquisitionCount>): (out: seq<LtvPoint>)
    ensures out != []
    ensures forall k :: 0 <= k < |out| ==> LtvCell(out[k]) == PointCell(r) && out[k].revenue == r.revenue
  {
    var ms := Filter(acq, AcqMonth, r.cohortMonth);
    if ms == [] then [Attach(r, None)]
    else seq(|ms|, i requires 0 <= i < |ms| => Attach(r, Some(ms[i])))
  }

  /** cohort_rev.merge(acq_counts, on="cohort_month", how="left"). */
  function LeftMerge(rev: seq<RevenuePoint>, acq: seq<AcquisitionCount>): seq<LtvPoint> {
    if rev == [] then [] else MergeRow(rev[0], acq) + LeftMerge(rev[1..], acq)
  }

  /** The new_customers a cohort month merges with when acq_counts has unique months. */
  function NewCustomersOf(acq: seq<AcquisitionCount>, c: int): Option<nat> {
    match Lookup(acq, AcqMonth, c)
    case Some(a) => Some(a.newCustomers)
    case None => None
  }

  /** With unique months in acq_counts, every cohort_rev row merges with exactly one row. */
  lemma MergeRowUnique(r: RevenuePoint, acq: seq<AcquisitionCount>)
    requires UniqueKeys(acq, AcqMonth)
    ensures MergeRow(r, acq) == [Attach(r, Lookup(acq, AcqMonth, r.cohortMonth))]
  {
    FilterUnique(acq, AcqMonth, r.cohortMonth);
  }

  /**
   * With unique months in acq_counts the merge keeps every cohort_rev row
   * once, in order, with its cohort's new_customers.
   */
  lemma {:induction false} LeftMergeOneToOne(rev: seq<RevenuePoint>, acq: seq<AcquisitionCount>)
    requires UniqueKeys(acq, AcqMonth)
    ensures |LeftMerge(rev, acq)| == |rev|
    ensures forall i :: 0 <= i < |rev| ==>
      LeftMerge(rev, acq)[i] == Attach(rev[i], Lookup(acq, AcqMonth, rev[i].cohortMonth))
  {
    if rev != [] {
      MergeRowUnique(rev[0], acq);
      LeftMergeOneToOne(rev[1..], acq);
      assert forall i :: 1 <= i < |rev| ==> rev[i] == rev[1..][i - 1];
    }
  }

  /** The merge keeps exactly the (cohort month, offset) pairs of cohort_rev. */
  lemma {:induction false} LeftMergeCells(rev: seq<RevenuePoint>, acq: seq<AcquisitionCount>)
    ensures forall k :: HasKey(LeftMerge(rev, acq), LtvCell, k) <==> HasKey(rev, PointCell, k)
  {
    if rev != [] {
      var head := MergeRow(rev[0], acq);
      var rest := LeftMerge(rev[1..], acq);
      LeftMergeCells(rev[1..], acq);
      HasKeyCons(rev, PointCell);
      forall k ensures HasKey(head + rest, LtvCell, k) <==> PointCell(rev[0]) == k || HasKey(rest, LtvCell, k) {
        if HasKey(head + rest, LtvCell, k) {
          var x :| x in head + rest && LtvCell(x) == k;
          if x in head {
            var j :| 0 <= j < |head| && head[j] == x;
          }
        }
        if PointCell(rev[0]) == k {
          assert head[0] in head + rest;
        }
        if HasKey(rest, LtvCell, k) {
          var x :| x in rest && LtvCell(x) == k;
          assert x in head + rest;
        }
      }
    }
  }

  /** A cohort month or an offset occurs in the merge exactly when it occurs in cohort_rev. */
  lemma LeftMergeKeys(rev: seq<RevenuePoint>, acq: seq<AcquisitionCount>)
    ensures forall c :: HasKey(LeftMerge(rev, acq), LtvCohort, c) <==> HasKey(rev, PointCohort, c)
    ensures forall o :: HasKey(LeftMerge(rev, acq), LtvOffset, o) <==> HasKey(rev, PointOffset, o)
  {
    var pts := LeftMerge(rev, acq);
    LeftMergeCells(rev, acq);
    forall c ensures HasKey(pts, LtvCohort, c) <==> HasKey(rev, PointCohort, c) {
      if HasKey(pts, LtvCohort, c) {
        var x :| x in pts && LtvCohort(x) == c;
        assert HasKey(pts, LtvCell, LtvCell(x));
        var r :| r in rev && PointCell(r) == LtvCell(x);
      }
      if HasKey(rev, PointCohort, c) {
        var r :| r in rev && PointCohort(r) == c;
        assert HasKey(rev, PointCell, PointCell(r));
        var x :| x in pts && LtvCell(x) == PointCell(r);
      }
    }
    forall o ensures HasKey(pts, LtvOffset, o) <==> HasKey(rev, PointOffset, o) {
      if HasKey(pts, LtvOffset, o) {
        var x :| x in pts && LtvOffset(x) == o;
        assert HasKey(pts, LtvCell, LtvCell(x));
        var r :| r in rev && PointCell(r) == LtvCell(x);
      }
      if HasKey(rev, PointOffset, o) {
        var r :| r in rev && PointOffset(r) == o;
        assert HasKey(rev, PointCell, PointCell(r));
        var x :| x in pts && LtvCell(x) == PointCell(r);
      }
    }
  }

  // ---------------------------------------------------------------------------
  // The pivot and the cumulative sum

  /** The pivot cell of cohort month c and offset o after fillna(0). */
  function CellValue(pts: seq<LtvPoint>, c: int, o: int): real {
    match Lookup(pts, LtvCell, (c, o))
    case Some(p) => LtvOrZero(p)
    case None => 0.0
  }

  /** The pivot row of cohort month c over the columns os. */
  function CellRow(pts: seq<LtvPoint>, c: int, os: seq<int>): seq<real> {
    seq(|os|, k requires 0 <= k < |os| => CellValue(pts, c, os[k]))
  }

  /** The sum of a row of values. */
  function Total(xs: seq<real>): real {
    if xs == [] then 0.0 else Total(xs[..|xs| - 1]) + xs[|xs| - 1]
  }

  /** cumsum along a row: each entry adds the next value to the running total. */
  function PrefixSums(xs: seq<real>): (r: seq<real>)
    ensures |r| == |xs|
    ensures forall j :: 0 <= j < |xs| ==> r[j] == Total(xs[..j + 1])
  {
    if xs == [] then []
    else
      var n := |xs| - 1;
      var p := PrefixSums(xs[..n]);
      forall j | 0 <= j < n ensures p[j] == Total(xs[..j + 1]) {
        assert xs[..n][..j + 1] == xs[..j + 1];
      }
      assert xs[..n + 1] == xs;
      p + [(if p == [] then 0.0 else p[|p| - 1]) + xs[n]]
  }

  /** The cumulative sum starts with the first value ... */
  lemma PrefixSumsFirst(xs: seq<real>)
    requires |xs| > 0
    ensures PrefixSums(xs)[0] == xs[0]
  {
    assert xs[..1] == [xs[0]] && xs[..1][..0] == [];
  }

  /** ... and each further column adds its own value to the previous one. */
  lemma PrefixSumsStep(xs: seq<real>, j: nat)
    requires j + 1 < |xs|
    ensures PrefixSums(xs)[j + 1] == PrefixSums(xs)[j] + xs[j + 1]
  {
    assert xs[..j + 2][..j + 1] == xs[..j + 1];
  }

  /**
   * ltv_tables: the pivot fails on a repeated (cohort month, offset) pair;
   * otherwise one row per cohort month and one column per offset, both
   * ascending, each row the cumulative sum of its cells.
   */
  function LtvTables(rev: seq<RevenuePoint>, acq: seq<AcquisitionCount>): (r: Result<LtvMatrix, LtvError>)
    ensures r.Success? ==> WellFormed(r.value)
    ensures r.Success? ==> forall c :: c in r.value.cohorts <==> HasKey(rev, PointCohort, c)
    ensures r.Success? ==> forall o :: o in r.value.offsets <==> HasKey(rev, PointOffset, o)
  {
    var pts := LeftMerge(rev, acq);
    LeftMergeKeys(rev, acq);
    if !UniqueKeys(pts, LtvCell) then Failure(DuplicateCell)
    else
      var cs := Keys(pts, LtvCohort);
      var os := Keys(pts, LtvOffset);
      Success(LtvMatrix(cs, os, seq(|cs|, i requires 0 <= i < |cs| => PrefixSums(CellRow(pts, cs[i], os)))))
  }

  // ---------------------------------------------------------------------------
  // What ltv_cum holds

  /** cohort_rev's revenue for cohort month c at offset o, 0 where there is none. */
  function RevenueAt(rev: seq<RevenuePoint>, c: int, o: int): real {
    match Lookup(rev, PointCell, (c, o))
    case Some(p) => p.revenue
    case None => 0.0
  }

  /**
   * The revenue per acquired customer of cohort month c at offset o: 0 when
   * the cell has no revenue, the cohort has no acq_counts row, or it counts
   * no customers.
   */
  function LtvAt(rev: seq<RevenuePoint>, acq: seq<AcquisitionCount>, c: int, o: int): real {
    match Lookup(rev, PointCell, (c, o))
    case Some(p) => PerCustomer(p.revenue, NewCustomersOf(acq, c)).GetOr(0.0)
    case None => 0.0
  }

  /** The per-customer revenue of cohort month c at each of the offsets os. */
  function LtvRow(rev: seq<RevenuePoint>, acq: seq<AcquisitionCount>, c: int, os: seq<int>): seq<real> {
    seq(|os|, k requires 0 <= k < |os| => LtvAt(rev, acq, c, os[k]))
  }

  /** Looking a cell up in the merge finds the cohort_rev row of that cell, merged. */
  lemma {:induction false} LookupMerged(rev: seq<RevenuePoint>, acq: seq<AcquisitionCount>, k: (int, int))
    requires UniqueKeys(acq, AcqMonth)
    ensures Lookup(LeftMerge(rev, acq), LtvCell, k) ==
      match Lookup(rev, PointCell, k)
      case Some(r) => Some(Attach(r, Lookup(acq, AcqMonth, r.cohortMonth)))
      case None => None
  {
    if rev != [] {
      MergeRowUnique(rev[0], acq);
      LookupMerged(rev[1..], acq, k);
      var a := Attach(rev[0], Lookup(acq, AcqMonth, rev[0].cohortMonth));
      assert ([a] + LeftMerge(rev[1..], acq))[1..] == LeftMerge(rev[1..], acq);
    }
  }

  /** A pivot cell is the cohort's revenue at that offset per acquired customer. */
  lemma CellValueIsLtvAt(rev: seq<RevenuePoint>, acq: seq<AcquisitionCount>, c: int, o: int)
    requires UniqueKeys(acq, AcqMonth)
    ensures CellValue(LeftMerge(rev, acq), c, o) == LtvAt(rev, acq, c, o)
  {
    LookupMerged(rev, acq, (c, o));
  }

  /** With unique months in acq_counts the pivot succeeds exactly when cohort_rev's cells are unique. */
  lemma LtvTablesSucceeds(rev: seq<RevenuePoint>, acq: seq<AcquisitionCount>)
    requires UniqueKeys(acq, AcqMonth)
    ensures LtvTables(rev, acq).Success? <==> UniqueKeys(rev, PointCell)
  {
    var pts := LeftMerge(rev, acq);
    LeftMergeOneToOne(rev, acq);
    assert forall i :: 0 <= i < |pts| ==> LtvCell(pts[i]) == PointCell(rev[i]);
  }

  /**
   * Each row of ltv_cum is the running total, column by column, of the
   * cohort's revenue per acquired customer.
   */
  lemma LtvRowIsRunningTotal(rev: seq<RevenuePoint>, acq: seq<AcquisitionCount>, m: LtvMatrix, i: nat)
    requires UniqueKeys(acq, AcqMonth)
    requires LtvTables(rev, acq) == Success(m)
    requires i < |m.cohorts|
    ensures m.cumulative[i] == PrefixSums(LtvRow(rev, acq, m.cohorts[i], m.offsets))
  {
    var pts := LeftMerge(rev, acq);
    forall k | 0 <= k < |m.offsets|
      ensures CellRow(pts, m.cohorts[i], m.offsets)[k] == LtvRow(rev, acq, m.cohorts[i], m.offsets)[k]
    {
      CellValueIsLtvAt(rev, acq, m.cohorts[i], m.offsets[k]);
    }
    assert CellRow(pts, m.cohorts[i], m.offsets) == LtvRow(rev, acq, m.cohorts[i], m.offsets);
  }

  /** Scaling every value of a row scales its total. */
  lemma {:induction false} TotalScaled(xs: seq<real>, ys: seq<real>, n: real)
    requires |xs| == |ys|
    requires forall k :: 0 <= k < |xs| ==> xs[k] * n == ys[k]
    ensures Total(xs) * n == Total(ys)
  {
    if xs != [] {
      var m := |xs| - 1;
      TotalScaled(xs[..m], ys[..m], n);
    }
  }

  /** The revenue of cohort month c at each of the offsets os. */
  function RevenueRow(rev: seq<RevenuePoint>, c: int, os: seq<int>): seq<real> {
    seq(|os|, k requires 0 <= k < |os| => RevenueAt(rev, c, os[k]))
  }

  /** Summing a cohort's revenue offset by offset sums its cohort_rev rows offset group by offset group. */
  lemma {:induction false} RevenueRowTotal(rev: seq<RevenuePoint>, c: int, os: seq<int>)
    requires UniqueKeys(rev, PointCell)
    ensures Total(RevenueRow(rev, c, os)) == SumOver(os, Filter(rev, PointCohort, c), PointOffset, PointRevenue)
  {
    if os != [] {
      var m := |os| - 1;
      assert RevenueRow(rev, c, os)[..m] == RevenueRow(rev, c, os[..m]);
      RevenueRowTotal(rev, c, os[..m]);
      FilterTwice(rev, PointCohort, PointOffset, PointCell, c, os[m]);
      FilterUnique(rev, PointCell, (c, os[m]));
      var g := Filter(rev, PointCell, (c, os[m]));
      assert g != [] ==> Sum(g, PointRevenue) == g[0].revenue + Sum(g[1..], PointRevenue);
    }
  }

  /** The revenue of a cohort is the sum of its cells over all of cohort_rev's offsets. */
  lemma CohortRevenueByOffsets(rev: seq<RevenuePoint>, c: int, os: seq<int>)
    requires UniqueKeys(rev, PointCell)
    requires Ascending(os)
    requires forall o :: o in os <==> HasKey(rev, PointOffset, o)
    ensures Total(RevenueRow(rev, c, os)) == Sum(Filter(rev, PointCohort, c), PointRevenue)
  {
    var g := Filter(rev, PointCohort, c);
    RevenueRowTotal(rev, c, os);
    forall j | 0 <= j < |g| ensures PointOffset(g[j]) in os {
      assert g[j] in rev;
    }
    PartitionSum(os, g, PointOffset, PointRevenue);
  }

  /** A cell's per-customer value times the cohort's new customers is the cell's revenue. */
  lemma LtvAtScaled(rev: seq<RevenuePoint>, acq: seq<AcquisitionCount>, c: int, o: int, n: nat)
    requires NewCustomersOf(acq, c) == Some(n) && n > 0
    ensures LtvAt(rev, acq, c, o) * (n as real) == RevenueAt(rev, c, o)
  {
  }

  /** Per-customer values times the cohort's new customers are the revenue values. */
  lemma LtvRowScaled(rev: seq<RevenuePoint>, acq: seq<AcquisitionCount>, c: int, os: seq<int>, n: nat, total: real, revenue: real)
    requires NewCustomersOf(acq, c) == Some(n) && n > 0
    requires total == Total(LtvRow(rev, acq, c, os))
    requires revenue == Total(RevenueRow(rev, c, os))
    ensures TimesCustomers(total, n) == revenue
  {
    var row := LtvRow(rev, acq, c, os);
    forall k | 0 <= k < |row| ensures row[k] * (n as real) == RevenueRow(rev, c, os)[k] {
      LtvAtScaled(rev, acq, c, os[k], n);
    }
    TotalScaled(row, RevenueRow(rev, c, os), n as real);
  }

  /** The last entry of a running total is the total. */
  lemma PrefixSumsLast(xs: seq<real>)
    requires |xs| > 0
    ensures PrefixSums(xs)[|xs| - 1] == Total(xs)
  {
    assert xs[..|xs|] == xs;
  }

  /** Over ltv_cum's columns, a cohort's revenue row adds up to the cohort's revenue. */
  lemma RevenueRowOfTable(rev: seq<RevenuePoint>, acq: seq<AcquisitionCount>, m: LtvMatrix, c: int)
    requires UniqueKeys(acq, AcqMonth)
    requires LtvTables(rev, acq) == Success(m)
    ensures Total(RevenueRow(rev, c, m.offsets)) == Sum(Filter(rev, PointCohort, c), PointRevenue)
  {
    LtvTablesSucceeds(rev, acq);
    CohortRevenueByOffsets(rev, c, m.offsets);
  }

  /**
   * The last column of ltv_cum holds the total of the cohort's per-customer
   * values, and over ltv_cum's columns the cohort's revenue adds up to all of it.
   */
  lemma LtvLastColumn(rev: seq<RevenuePoint>, acq: seq<AcquisitionCount>, m: LtvMatrix, i: nat)
    requires UniqueKeys(acq, AcqMonth)
    requires LtvTables(rev, acq) == Success(m)
    requires i < |m.cohorts| && |m.offsets| > 0
    ensures m.cumulative[i][|m.offsets| - 1] == Total(LtvRow(rev, acq, m.cohorts[i], m.offsets))
    ensures Total(RevenueRow(rev, m.cohorts[i], m.offsets)) == Sum(Filter(rev, PointCohort, m.cohorts[i]), PointRevenue)
  {
    LtvRowIsRunningTotal(rev, acq, m, i);
    PrefixSumsLast(LtvRow(rev, acq, m.cohorts[i], m.offsets));
    RevenueRowOfTable(rev, acq, m, m.cohorts[i]);
  }

  /**
   * The last column of a cohort's row, times the cohort's new customers, is
   * the cohort's whole revenue: the latest cumulative LTV is revenue per
   * acquired customer.
   */
  lemma LtvLatest(rev: seq<RevenuePoint>, acq: seq<AcquisitionCount>, m: LtvMatrix, i: nat, n: nat)
    requires UniqueKeys(acq, AcqMonth)
    requires LtvTables(rev, acq) == Success(m)
    requires i < |m.cohorts| && |m.offsets| > 0
    requires NewCustomersOf(acq, m.cohorts[i]) == Some(n) && n > 0
    ensures TimesCustomers(m.cumulative[i][|m.offsets| - 1], n) == Sum(Filter(rev, PointCohort, m.cohorts[i]), PointRevenue)
  {
    LtvLastColumn(rev, acq, m, i);
    LtvRowScaled(rev, acq, m.cohorts[i], m.offsets, n,
      m.cumulative[i][|m.offsets| - 1], Sum(Filter(rev, PointCohort, m.cohorts[i]), PointRevenue));
  }

  /** Without negative revenue no per-customer value is negative. */
  lemma LtvAtNonNegative(rev: seq<RevenuePoint>, acq: seq<AcquisitionCount>, c: int, o: int)
    requires forall j :: 0 <= j < |rev| ==> rev[j].revenue >= 0.0
    ensures LtvAt(rev, acq, c, o) >= 0.0
  {
    LookupSound(rev, PointCell, (c, o));
  }

  /** Without negative revenue, cumulative LTV never decreases along a row. */
  lemma LtvNondecreasing(rev: seq<RevenuePoint>, acq: seq<AcquisitionCount>, m: LtvMatrix, i: nat, k: nat)
    requires UniqueKeys(acq, AcqMonth)
    requires forall j :: 0 <= j < |rev| ==> rev[j].revenue >= 0.0
    requires LtvTables(rev, acq) == Success(m)
    requires i < |m.cohorts| && k + 1 < |m.offsets|
    ensures m.cumulative[i][k] <= m.cumulative[i][k + 1]
  {
    var c := m.cohorts[i];
    LtvRowIsRunningTotal(rev, acq, m, i);
    PrefixSumsStep(LtvRow(rev, acq, c, m.offsets), k);
    LtvAtNonNegative(rev, acq, c, m.offsets[k + 1]);
  }

  /** The merged rows of the worked example below. */
  function ExamplePoints(): seq<LtvPoint> {
    [LtvPoint(24276, 0, 100.0, Some(10), Some(10.0)), LtvPoint(24276, 1, 50.0, Some(10), Some(5.0))]
  }

  /** The merge of the worked example: both cells meet the cohort's 10 customers. */
  lemma ExampleMerge()
    ensures LeftMerge([RevenuePoint(24276, 0, 100.0), RevenuePoint(24276, 1, 50.0)], [AcquisitionCount(24276, 10)])
      == ExamplePoints()
  {
    var acq := [AcquisitionCount(24276, 10)];
    assert Filter(acq, AcqMonth, 24276) == acq;
  }

  /** The worked example has one cohort and the offsets 0 and 1. */
  lemma ExampleKeys()
    ensures Keys(ExamplePoints(), LtvCohort) == [24276]
    ensures Keys(ExamplePoints(), LtvOffset) == [0, 1]
  {
    var pts := ExamplePoints();
    forall x ensures x in Keys(pts, LtvCohort) <==> x in [24276] {
      assert pts[0] in pts && pts[1] in pts;
    }
    forall x ensures x in Keys(pts, LtvOffset) <==> x in [0, 1] {
      assert pts[0] in pts && pts[1] in pts;
    }
    AscendingDetermined(Keys(pts, LtvCohort), [24276]);
    AscendingDetermined(Keys(pts, LtvOffset), [0, 1]);
  }

  /** The worked example's per-period LTV row, before the running total. */
  lemma ExampleRow()
    ensures UniqueKeys(ExamplePoints(), LtvCell)
    ensures CellRow(ExamplePoints(), 24276, [0, 1]) == [10.0, 5.0]
  {
    var pts := ExamplePoints();
    LookupFinds(pts, LtvCell, 0);
    LookupFinds(pts, LtvCell, 1);
  }

  /**
   * The worked example: one cohort with revenue 100 at offset 0 and 50 at
   * offset 1 and 10 new customers has cumulative LTV 10 and then 15.
   */
  lemma LtvExample()
    ensures LtvTables([RevenuePoint(24276, 0, 100.0), RevenuePoint(24276, 1, 50.0)], [AcquisitionCount(24276, 10)])
      == Success(LtvMatrix([24276], [0, 1], [[10.0, 15.0]]))
  {
    var pts := ExamplePoints();
    ExampleMerge();
    ExampleKeys();
    ExampleRow();
    assert PrefixSums([10.0, 5.0]) == [10.0, 15.0];
    var cs := [24276];
    assert seq(|cs|, i requires 0 <= i < |cs| => PrefixSums(CellRow(pts, cs[i], [0, 1]))) == [[10.0, 15.0]];
  }
}
