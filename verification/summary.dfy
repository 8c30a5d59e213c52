/**
 * The Summary sheet of export_excel: each cohort month's cumulative LTV at the
 * latest month offset, left-merged with its CAC, and their ratio.
 */
module Summary {

  import opened Options
  import opened Grouping
  import opened Mart
  import opened Ltv

  /** One row of the Summary sheet. */
  datatype SummaryRow = SummaryRow(cohortMonth: int, ltvLatest: real, cac: Option<real>, ltvToCac: Option<real>)

  /** Why the summary fails: the latest column is not a column of ltv_cum (it has none). */
  datatype SummaryError = MissingLatestColumn

  /** The largest value of a non-empty sequence. */
  function Max(s: seq<int>): (r: int)
    requires s != []
    ensures r in s
    ensures forall k :: 0 <= k < |s| ==> s[k] <= r
  {
    if |s| == 1 then s[0]
    else
      var m := Max(s[1..]);
      assert forall k :: 1 <= k < |s| ==> s[k] == s[1..][k - 1];
      if s[0] >= m then s[0] else m
  }

  /** columns.max() if len(columns) else 0. */
  function LatestColumn(offsets: seq<int>): int {
    if offsets == [] then 0 else Max(offsets)
  }

  /** The position of a column label. */
  function ColumnIndex(offsets: seq<int>, column: int): (k: nat)
    requires column in offsets
    ensures k < |offsets| && offsets[k] == column
  {
    if offsets[0] == column then 0 else 1 + ColumnIndex(offsets[1..], column)
  }

  /** LTV_latest / CAC, undefined (NaN or inf in pandas) when CAC is undefined or 0. */
  function Ratio(ltv: real, cac: Option<real>): (r: Option<real>)
    ensures r.Some? <==> cac.Some? && cac.value != 0.0
    ensures r.Some? ==> r.value * cac.value == ltv
  {
    match cac
    case Some(c) => if c == 0.0 then None else Some(ltv / c)
    case None => None
  }

  /** The summary row of one cohort, left-merged with the CAC table on the cohort month. */
  function CohortSummary(c: int, ltvLatest: real, cac: seq<CacRow>): (out: seq<SummaryRow>)
    ensures out != []
    ensures forall k :: 0 <= k < |out| ==> out[k].cohortMonth == c && out[k].ltvLatest == ltvLatest
  {
    var ms := Filter(cac, CacMonth, c);
    if ms == [] then [SummaryRow(c, ltvLatest, None, None)]
    else seq(|ms|, k requires 0 <= k < |ms| => SummaryRow(c, ltvLatest, ms[k].cac, Ratio(ltvLatest, ms[k].cac)))
  }

  /** The summary rows of the cohorts cs with latest values vs, in order. */
  function SummaryRows(cs: seq<int>, vs: seq<real>, cac: seq<CacRow>): seq<SummaryRow>
    requires |cs| == |vs|
  {
    if cs == [] then [] else CohortSummary(cs[0], vs[0], cac) + SummaryRows(cs[1..], vs[1..], cac)
  }

  /**
   * The Summary sheet: the latest column of ltv_cum, one value per cohort
   * month, left-merged with the CAC table. It fails when ltv_cum has no
   * columns, since the default label 0 is then not a column.
   */
  function Summarize(m: LtvMatrix, cac: seq<CacRow>): (r: Result<seq<SummaryRow>, SummaryError>)
    requires WellFormed(m)
    ensures r.Failure? <==> m.offsets == []
  {
    var latest := LatestColumn(m.offsets);
    if latest !in m.offsets then Failure(MissingLatestColumn)
    else
      var k := ColumnIndex(m.offsets, latest);
      Success(SummaryRows(m.cohorts, seq(|m.cohorts|, i requires 0 <= i < |m.cohorts| => m.cumulative[i][k]), cac))
  }

  // ---------------------------------------------------------------------------
  // Lemmas

  /** Over ascending columns the latest column is the last one. */
  lemma LatestIsLast(offsets: seq<int>)
    requires Ascending(offsets) && offsets != []
    ensures LatestColumn(offsets) == offsets[|offsets| - 1]
    ensures ColumnIndex(offsets, LatestColumn(offsets)) == |offsets| - 1
  {
    var n := |offsets| - 1;
    var k := ColumnIndex(offsets, LatestColumn(offsets));
    assert offsets[n] <= offsets[k];
  }

  /** The CAC a cohort month merges with when the CAC table has unique months. */
  function CacOfMonth(cac: seq<CacRow>, c: int): Option<real> {
    match Lookup(cac, CacMonth, c)
    case Some(r) => r.cac
    case None => None
  }

  /** The CAC a cohort month with new customers merges with, times their number, is that month's spend. */
  lemma CacOfCohort(acq: seq<AcquisitionCount>, spend: seq<SpendRecord>, j: nat)
    requires AscendingBy(acq, AcqMonth)
    requires j < |acq| && acq[j].newCustomers >= 1
    ensures CacOfMonth(CacTable(acq, spend), acq[j].cohortMonth).Some?
    ensures TimesCustomers(CacOfMonth(CacTable(acq, spend), acq[j].cohortMonth).value, acq[j].newCustomers)
      == Sum(Filter(spend, SpendMonth, acq[j].cohortMonth), SpendAmount)
  {
    var cac := CacTable(acq, spend);
    CacTableUnique(acq, spend);
    CacTableSpend(acq, spend);
    LookupFinds(cac, CacMonth, j);
    var total := cac[j].spendTotal;
    assert CacOfMonth(cac, acq[j].cohortMonth) == CacOf(total, acq[j].newCustomers);
    assert total == Sum(Filter(spend, SpendMonth, acq[j].cohortMonth), SpendAmount);
  }

  /** The row a cohort gets when the CAC table has unique months. */
  function ExpectedRow(c: int, ltvLatest: real, cac: seq<CacRow>): SummaryRow {
    SummaryRow(c, ltvLatest, CacOfMonth(cac, c), Ratio(ltvLatest, CacOfMonth(cac, c)))
  }

  lemma CohortSummaryUnique(c: int, ltvLatest: real, cac: seq<CacRow>)
    requires UniqueKeys(cac, CacMonth)
    ensures CohortSummary(c, ltvLatest, cac) == [ExpectedRow(c, ltvLatest, cac)]
  {
    FilterUnique(cac, CacMonth, c);
  }

  lemma {:induction false} SummaryRowsOneToOne(cs: seq<int>, vs: seq<real>, cac: seq<CacRow>)
    requires |cs| == |vs|
    requires UniqueKeys(cac, CacMonth)
    ensures |SummaryRows(cs, vs, cac)| == |cs|
    ensures forall i :: 0 <= i < |cs| ==> SummaryRows(cs, vs, cac)[i] == ExpectedRow(cs[i], vs[i], cac)
  {
    if cs != [] {
      CohortSummaryUnique(cs[0], vs[0], cac);
      SummaryRowsOneToOne(cs[1..], vs[1..], cac);
      assert forall i :: 1 <= i < |cs| ==> cs[i] == cs[1..][i - 1] && vs[i] == vs[1..][i - 1];
    }
  }

  /**
   * With unique months in the CAC table the Summary sheet has one row per
   * cohort month of ltv_cum, in order, holding the cohort's last cumulative
   * LTV, its CAC and their ratio.
   */
  lemma SummaryOneToOne(m: LtvMatrix, cac: seq<CacRow>)
    requires WellFormed(m) && m.offsets != []
    requires UniqueKeys(cac, CacMonth)
    ensures Summarize(m, cac).Success?
    ensures |Summarize(m, cac).value| == |m.cohorts|
    ensures forall i :: 0 <= i < |m.cohorts| ==>
      Summarize(m, cac).value[i] == ExpectedRow(m.cohorts[i], m.cumulative[i][|m.offsets| - 1], cac)
  {
    LatestIsLast(m.offsets);
    var last := |m.offsets| - 1;
    var vs := seq(|m.cohorts|, i requires 0 <= i < |m.cohorts| => m.cumulative[i][last]);
    SummaryRowsOneToOne(m.cohorts, vs, cac);
  }
}
