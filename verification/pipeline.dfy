/**
 * The whole run of the cohort engine, from the orders and spend tables to
 * ltv_cum and the Summary sheet, and what holds of it end to end.
 */
module Pipeline {

  import opened Options
  import opened Calendar
  import opened Grouping
  import opened Mart
  import opened Ltv
  import opened Summary

  /** Everything a run produces: the mart tables, ltv_cum and the Summary sheet. */
  datatype Report = Report(mart: MartTables, ltv: LtvMatrix, summary: seq<SummaryRow>)

  /** Why a run stops: the pivot of ltv_tables or the column selection of the summary fails. */
  datatype RunError = PivotFailed(LtvError) | SummaryFailed(SummaryError)

  /** build_mart_and_cohorts, then ltv_tables, then the Summary sheet of export_excel. */
  function Run(orders: seq<Order>, spend: seq<SpendRecord>): Result<Report, RunError> {
    var mart := BuildMart(orders, spend);
    match LtvTables(mart.cohortRev, mart.acqCounts)
    case Failure(e) => Failure(PivotFailed(e))
    case Success(m) =>
      match Summarize(m, mart.cac)
      case Failure(e) => Failure(SummaryFailed(e))
      case Success(rows) => Success(Report(mart, m, rows))
  }

  /** The number of customers whose first order falls in cohort month c. */
  function CohortSize(orders: seq<Order>, c: int): nat {
    |Filter(FirstOrders(orders), CohortMonthOf, c)|
  }

  /** The revenue of all orders of the customers of cohort month c. */
  function CohortRevenueOf(orders: seq<Order>, c: int): real {
    Sum(Filter(Facts(orders), FactCohort, c), FactRevenue)
  }

  /** The spend over all channels of the records whose "YYYY-MM" month is cohort month c. */
  function MonthSpendOf(spend: seq<SpendRecord>, c: int): real {
    Sum(Filter(spend, SpendYearMonth, YearMonthOfKey(c)), SpendAmount)
  }

  /** fct of a run: every order joined to its customer's first_orders row. */
  function Facts(orders: seq<Order>): seq<EnrichedOrder> {
    Enrich(orders, FirstOrders(orders))
  }

  // ---------------------------------------------------------------------------
  // The join

  /** The first_orders row of the customer of order i. */
  function CohortOfOrder(orders: seq<Order>, i: nat): (row: CustomerCohort)
    requires i < |orders|
    ensures row.customer == orders[i].customer
    ensures IsFirstOrderOf(orders, row)
  {
    assert orders[i] in orders && CustomerOf(orders[i]) == orders[i].customer;
    CohortOfCustomer(orders, orders[i].customer)
  }

  /**
   * The join keeps every order exactly once, in order, with the cohort month
   * of its customer's first order and its offset in months from it.
   */
  lemma {:induction false} FactsOneToOne(orders: seq<Order>)
    ensures |Facts(orders)| == |orders|
    ensures forall i :: 0 <= i < |orders| ==> Facts(orders)[i] == Extend(orders[i], CohortOfOrder(orders, i))
  {
    var fo := FirstOrders(orders);
    forall i | 0 <= i < |orders| ensures HasKey(fo, CohortCustomer, orders[i].customer) {
      assert orders[i] in orders && CustomerOf(orders[i]) == orders[i].customer;
    }
    EnrichOneToOne(orders, fo);
    forall i | 0 <= i < |orders| ensures Facts(orders)[i] == Extend(orders[i], CohortOfOrder(orders, i)) {
      assert orders[i] in orders && CustomerOf(orders[i]) == orders[i].customer;
      FirstOrdersLookup(orders, orders[i].customer);
    }
  }

  /** With valid dates no order lies before its cohort: every offset is at least 0. */
  lemma FactOffsetsNonNegative(orders: seq<Order>)
    requires ValidOrders(orders)
    ensures forall i :: 0 <= i < |Facts(orders)| ==> Facts(orders)[i].monthsSinceCohort >= 0
  {
    FactsOneToOne(orders);
    forall i | 0 <= i < |orders| ensures Facts(orders)[i].monthsSinceCohort >= 0 {
      var row := CohortOfOrder(orders, i);
      var j :| 0 <= j < |orders| && orders[j].customer == row.customer && orders[j].date == row.firstOrderDate;
      MonthIndexMonotone(row.firstOrderDate, orders[i].date);
    }
  }

  /** Every customer's first order lies at offset 0 of the customer's cohort. */
  lemma FirstOrderAtOffsetZero(orders: seq<Order>, i: nat)
    requires i < |orders|
    ensures exists j :: (0 <= j < |orders| && orders[j].customer == orders[i].customer
      && j < |Facts(orders)| && Facts(orders)[j].monthsSinceCohort == 0)
  {
    FactsOneToOne(orders);
    var row := CohortOfOrder(orders, i);
    var j :| 0 <= j < |orders| && orders[j].customer == row.customer && orders[j].date == row.firstOrderDate;
    assert CohortOfOrder(orders, j) == row;
    assert Facts(orders)[j].monthsSinceCohort == 0;
  }

  /** The cohort row of every order is a row of first_orders. */
  lemma CohortOfOrderListed(orders: seq<Order>, i: nat)
    requires i < |orders|
    ensures CohortOfOrder(orders, i) in FirstOrders(orders)
  {
    assert orders[i] in orders && CustomerOf(orders[i]) == orders[i].customer;
    FirstOrdersLookup(orders, orders[i].customer);
    LookupSound(FirstOrders(orders), CohortCustomer, orders[i].customer);
  }

  /** Every row of first_orders is the cohort row of some order (its first one). */
  lemma FirstOrderRowOfSomeOrder(orders: seq<Order>, j: nat)
    requires j < |FirstOrders(orders)|
    ensures exists k :: 0 <= k < |orders| && CohortOfOrder(orders, k) == FirstOrders(orders)[j]
  {
    var fo := FirstOrders(orders);
    var row := fo[j];
    assert IsFirstOrderOf(orders, row);
    var k :| 0 <= k < |orders| && orders[k].customer == row.customer && orders[k].date == row.firstOrderDate;
    FirstOrdersLookup(orders, row.customer);
    LookupFinds(fo, CohortCustomer, j);
    assert CohortOfOrder(orders, k) == row;
  }

  /**
   * Orders joined to rows that all belong to fo, and that between them use every
   * row of fo, carry exactly the cohort months of fo.
   */
  lemma JoinedCohortMonths(orders: seq<Order>, rows: seq<CustomerCohort>, fct: seq<EnrichedOrder>, fo: seq<CustomerCohort>)
    requires |rows| == |orders| == |fct|
    requires forall i :: 0 <= i < |orders| ==> fct[i] == Extend(orders[i], rows[i])
    requires forall i :: 0 <= i < |rows| ==> rows[i] in fo
    requires forall j :: 0 <= j < |fo| ==> fo[j] in rows
    ensures forall c :: HasKey(fct, FactCohort, c) <==> HasKey(fo, CohortMonthOf, c)
  {
    forall c | HasKey(fct, FactCohort, c) ensures HasKey(fo, CohortMonthOf, c) {
      var e :| e in fct && FactCohort(e) == c;
      var i :| 0 <= i < |fct| && fct[i] == e;
      assert rows[i] in fo && CohortMonthOf(rows[i]) == c;
    }
    forall c | HasKey(fo, CohortMonthOf, c) ensures HasKey(fct, FactCohort, c) {
      var row :| row in fo && CohortMonthOf(row) == c;
      var j :| 0 <= j < |fo| && fo[j] == row;
      var k :| 0 <= k < |rows| && rows[k] == row;
      assert fct[k] in fct && FactCohort(fct[k]) == c;
    }
  }

  /** The cohort months that occur in fct are exactly those of first_orders. */
  lemma FactCohortMonths(orders: seq<Order>)
    ensures forall c :: HasKey(Facts(orders), FactCohort, c) <==> HasKey(FirstOrders(orders), CohortMonthOf, c)
  {
    var fo := FirstOrders(orders);
    var rows := seq(|orders|, i requires 0 <= i < |orders| => CohortOfOrder(orders, i));
    FactsOneToOne(orders);
    forall i | 0 <= i < |rows| ensures rows[i] in fo {
      CohortOfOrderListed(orders, i);
    }
    forall j | 0 <= j < |fo| ensures fo[j] in rows {
      FirstOrderRowOfSomeOrder(orders, j);
      var k :| 0 <= k < |orders| && CohortOfOrder(orders, k) == fo[j];
      assert rows[k] == fo[j];
    }
    JoinedCohortMonths(orders, rows, Facts(orders), fo);
  }

  // ---------------------------------------------------------------------------
  // build_mart_and_cohorts end to end

  /** cohort_rev and acq_counts cover the same cohort months. */
  lemma CohortMonthsAgree(orders: seq<Order>, spend: seq<SpendRecord>)
    ensures forall c :: (HasKey(BuildMart(orders, spend).cohortRev, PointCohort, c)
      <==> HasKey(BuildMart(orders, spend).acqCounts, AcqMonth, c))
  {
    FactCohortMonths(orders);
    CohortRevenueCohorts(Facts(orders));
  }

  /** No revenue is lost or invented: cohort_rev sums to the total order revenue. */
  lemma RevenueConserved(orders: seq<Order>, spend: seq<SpendRecord>)
    ensures Sum(BuildMart(orders, spend).cohortRev, PointRevenue) == Sum(orders, OrderRevenue)
  {
    var fo := FirstOrders(orders);
    forall i | 0 <= i < |orders| ensures HasKey(fo, CohortCustomer, orders[i].customer) {
      assert orders[i] in orders && CustomerOf(orders[i]) == orders[i].customer;
    }
    EnrichRevenue(orders, fo);
    CohortRevenueTotal(Facts(orders));
  }

  /** The new customers of all cohort months add up to the number of distinct customers. */
  lemma NewCustomersTotal(orders: seq<Order>, spend: seq<SpendRecord>)
    ensures TotalNewCustomers(BuildMart(orders, spend).acqCounts) == |CustomerIds(orders)|
  {
    AcquisitionCountsTotal(FirstOrders(orders));
  }

  /** With valid dates every offset of cohort_rev is at least 0. */
  lemma CohortOffsetsNonNegative(orders: seq<Order>, spend: seq<SpendRecord>)
    requires ValidOrders(orders)
    ensures forall i :: 0 <= i < |BuildMart(orders, spend).cohortRev| ==> BuildMart(orders, spend).cohortRev[i].monthsSinceCohort >= 0
  {
    FactsOneToOne(orders);
    FactOffsetsNonNegative(orders);
    CohortRevenueOffsetsNonNegative(Facts(orders));
  }

  // ---------------------------------------------------------------------------
  // ltv_tables and the Summary sheet over the mart

  /**
   * Each row of the Summary sheet, over acq_counts that cover every cohort month
   * of cohort_rev with at least one customer: its cumulative LTV at the latest
   * column times the cohort's new customers is the cohort's revenue, its CAC times
   * them is the month's spend, and the ratio is taken of those two.
   */
  lemma SummaryRowMeaning(rev: seq<RevenuePoint>, acq: seq<AcquisitionCount>, spend: seq<SpendRecord>,
                          m: LtvMatrix, rows: seq<SummaryRow>, i: nat)
    requires ValidSpend(spend)
    requires AscendingBy(acq, AcqMonth)
    requires forall j :: 0 <= j < |acq| ==> acq[j].newCustomers >= 1
    requires forall c :: HasKey(rev, PointCohort, c) ==> HasKey(acq, AcqMonth, c)
    requires LtvTables(rev, acq) == Success(m)
    requires Summarize(m, CacTable(acq, spend)) == Success(rows)
    requires i < |m.cohorts|
    ensures |rows| == |m.cohorts|
    ensures Lookup(acq, AcqMonth, m.cohorts[i]).Some?
    ensures rows[i].cohortMonth == m.cohorts[i]
    ensures TimesCustomers(rows[i].ltvLatest, Lookup(acq, AcqMonth, m.cohorts[i]).value.newCustomers)
      == Sum(Filter(rev, PointCohort, m.cohorts[i]), PointRevenue)
    ensures rows[i].cac.Some?
    ensures TimesCustomers(rows[i].cac.value, Lookup(acq, AcqMonth, m.cohorts[i]).value.newCustomers)
      == MonthSpendOf(spend, m.cohorts[i])
    ensures rows[i].ltvToCac == Ratio(rows[i].ltvLatest, rows[i].cac)
  {
    var c := m.cohorts[i];
    var cac := CacTable(acq, spend);
    assert WellFormed(m) && m.offsets != [];
    AscendingUnique(acq, AcqMonth);
    CacTableUnique(acq, spend);
    SummaryOneToOne(m, cac);
    assert HasKey(rev, PointCohort, c);
    var a :| a in acq && AcqMonth(a) == c;
    var j :| 0 <= j < |acq| && acq[j] == a;
    LookupFinds(acq, AcqMonth, j);
    CacIsMonthSpend(acq, spend, j);
    LtvLatest(rev, acq, m, i, a.newCustomers);
  }

  /** A cohort's CAC times its new customers is the spend of the records dated in its month. */
  lemma CacIsMonthSpend(acq: seq<AcquisitionCount>, spend: seq<SpendRecord>, j: nat)
    requires ValidSpend(spend)
    requires AscendingBy(acq, AcqMonth)
    requires j < |acq| && acq[j].newCustomers >= 1
    ensures CacOfMonth(CacTable(acq, spend), acq[j].cohortMonth).Some?
    ensures TimesCustomers(CacOfMonth(CacTable(acq, spend), acq[j].cohortMonth).value, acq[j].newCustomers)
      == MonthSpendOf(spend, acq[j].cohortMonth)
  {
    CacOfCohort(acq, spend, j);
    SpendMonthByText(spend, acq[j].cohortMonth);
  }

  // ---------------------------------------------------------------------------
  // A whole run

  /** The stages a successful run went through. */
  lemma RunStages(orders: seq<Order>, spend: seq<SpendRecord>, rep: Report)
    requires Run(orders, spend) == Success(rep)
    ensures rep.mart == BuildMart(orders, spend)
    ensures LtvTables(rep.mart.cohortRev, rep.mart.acqCounts) == Success(rep.ltv)
    ensures Summarize(rep.ltv, rep.mart.cac) == Success(rep.summary)
  {
  }

  /** What ltv_tables and the Summary sheet rely on in the mart. */
  lemma MartShape(orders: seq<Order>, spend: seq<SpendRecord>)
    ensures BuildMart(orders, spend).cohortRev == CohortRevenue(Facts(orders))
    ensures BuildMart(orders, spend).acqCounts == AcquisitionCounts(FirstOrders(orders))
    ensures BuildMart(orders, spend).cac == CacTable(BuildMart(orders, spend).acqCounts, spend)
    ensures UniqueKeys(BuildMart(orders, spend).cohortRev, PointCell)
    ensures UniqueKeys(BuildMart(orders, spend).acqCounts, AcqMonth)
  {
    CohortRevenueSorted(Facts(orders));
    AscendingUnique(AcquisitionCounts(FirstOrders(orders)), AcqMonth);
  }

  /** cohort_rev has a row exactly when there is an order. */
  lemma CohortRevenueNonEmpty(orders: seq<Order>)
    ensures CohortRevenue(Facts(orders)) != [] <==> orders != []
  {
    var fct := Facts(orders);
    var rev := CohortRevenue(fct);
    FactsOneToOne(orders);
    CohortRevenueCohorts(fct);
    if orders != [] {
      assert fct[0] in fct && FactCohort(fct[0]) == fct[0].cohortMonth;
      assert HasKey(rev, PointCohort, fct[0].cohortMonth);
    }
    if rev != [] {
      assert rev[0] in rev && PointCohort(rev[0]) == rev[0].cohortMonth;
      assert HasKey(fct, FactCohort, rev[0].cohortMonth);
    }
  }

  /**
   * A run yields ltv_cum and the Summary sheet exactly when there is at least
   * one order; without orders ltv_cum has no column to take the latest of.
   */
  lemma RunSucceeds(orders: seq<Order>, spend: seq<SpendRecord>)
    ensures Run(orders, spend).Success? <==> orders != []
  {
    var mart := BuildMart(orders, spend);
    var rev := mart.cohortRev;
    MartShape(orders, spend);
    CohortRevenueNonEmpty(orders);
    LtvTablesSucceeds(rev, mart.acqCounts);
    var m := LtvTables(rev, mart.acqCounts).value;
    if rev != [] {
      assert rev[0] in rev && PointOffset(rev[0]) == rev[0].monthsSinceCohort;
      assert rev[0].monthsSinceCohort in m.offsets;
    } else {
      assert forall o :: o !in m.offsets;
    }
  }

  /**
   * ltv_cum and the Summary sheet of a run have one row per cohort month, in
   * ascending order, and every customer's cohort month is among them.
   */
  lemma RunCohorts(orders: seq<Order>, spend: seq<SpendRecord>, rep: Report)
    requires Run(orders, spend) == Success(rep)
    ensures Ascending(rep.ltv.cohorts)
    ensures forall c :: c in rep.ltv.cohorts <==> HasKey(FirstOrders(orders), CohortMonthOf, c)
    ensures |rep.summary| == |rep.ltv.cohorts|
    ensures forall i :: 0 <= i < |rep.summary| ==> rep.summary[i].cohortMonth == rep.ltv.cohorts[i]
  {
    RunStages(orders, spend, rep);
    MartShape(orders, spend);
    CohortMonthsAgree(orders, spend);
    SummaryOneToOne(rep.ltv, rep.mart.cac);
  }

  /**
   * Each row of a run's Summary sheet: the cohort has at least one customer; its
   * latest cumulative LTV times the cohort's size is the revenue of the cohort's
   * customers; its CAC is defined and times the cohort's size is the spend, over
   * all channels, of the records dated in that "YYYY-MM" month (spend months being
   * well-formed); LTV_to_CAC is their ratio.
   */
  lemma RunSummaryRow(orders: seq<Order>, spend: seq<SpendRecord>, rep: Report, i: nat)
    requires ValidSpend(spend)
    requires Run(orders, spend) == Success(rep)
    requires i < |rep.summary|
    ensures |rep.summary| == |rep.ltv.cohorts|
    ensures CohortSize(orders, rep.summary[i].cohortMonth) >= 1
    ensures TimesCustomers(rep.summary[i].ltvLatest, CohortSize(orders, rep.summary[i].cohortMonth))
      == CohortRevenueOf(orders, rep.summary[i].cohortMonth)
    ensures rep.summary[i].cac.Some?
    ensures TimesCustomers(rep.summary[i].cac.value, CohortSize(orders, rep.summary[i].cohortMonth))
      == MonthSpendOf(spend, rep.summary[i].cohortMonth)
    ensures rep.summary[i].ltvToCac == Ratio(rep.summary[i].ltvLatest, rep.summary[i].cac)
  {
    var fo := FirstOrders(orders);
    var acq := rep.mart.acqCounts;
    RunStages(orders, spend, rep);
    MartShape(orders, spend);
    CohortMonthsAgree(orders, spend);
    RunCohorts(orders, spend, rep);
    SummaryRowMeaning(rep.mart.cohortRev, acq, spend, rep.ltv, rep.summary, i);
    var c := rep.ltv.cohorts[i];
    LookupSound(acq, AcqMonth, c);
    var j :| 0 <= j < |acq| && acq[j] == Lookup(acq, AcqMonth, c).value;
    AcquisitionCountIsCohortSize(fo, j);
    CohortRevenueOfCohort(Facts(orders), c);
  }

  /** Without negative order revenue, a run's cumulative LTV never falls from one column to the next. */
  lemma RunLtvNondecreasing(orders: seq<Order>, spend: seq<SpendRecord>, rep: Report, i: nat, k: nat)
    requires forall j :: 0 <= j < |orders| ==> orders[j].revenue >= 0.0
    requires Run(orders, spend) == Success(rep)
    requires i < |rep.ltv.cohorts| && k + 1 < |rep.ltv.offsets|
    ensures rep.ltv.cumulative[i][k] <= rep.ltv.cumulative[i][k + 1]
  {
    RunStages(orders, spend, rep);
    MartShape(orders, spend);
    FactsOneToOne(orders);
    CohortRevenueNonNegative(Facts(orders));
    LtvNondecreasing(rep.mart.cohortRev, rep.mart.acqCounts, rep.ltv, i, k);
  }
}
