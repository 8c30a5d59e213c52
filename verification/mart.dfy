/**
 * The data mart built from orders and marketing spend: each customer's
 * acquisition cohort (the month of their first order), every order joined to
 * its customer's cohort with its offset in months, revenue per
 * (cohort month, offset), new customers per cohort month, and CAC per cohort.
 */
module Mart {

  import opened Options
  import opened Calendar
  import opened Grouping

  type CustomerId = string

  /** One row of the orders input. */
  datatype Order = Order(orderId: string, date: Date, customer: CustomerId, channel: string, revenue: real)

  /** One row of the spend input: what one channel spent in one month. */
  datatype SpendRecord = SpendRecord(month: YearMonth, channel: string, spend: real)

  /** A row of first_orders. */
  datatype CustomerCohort = CustomerCohort(customer: CustomerId, firstOrderDate: Date, cohortMonth: int)

  /** A row of fct: an order with its customer's cohort and its offset from it. */
  datatype EnrichedOrder = EnrichedOrder(order: Order, cohortMonth: int, monthsSinceCohort: int)

  /** A row of cohort_rev. */
  datatype RevenuePoint = RevenuePoint(cohortMonth: int, monthsSinceCohort: int, revenue: real)

  /** A row of acq_counts. */
  datatype AcquisitionCount = AcquisitionCount(cohortMonth: int, newCustomers: nat)

  /** A row of spend_by_month. */
  datatype MonthSpend = MonthSpend(month: int, spendTotal: real)

  /** A row of the CAC table; cac is None where pandas has NaN. */
  datatype CacRow = CacRow(cohortMonth: int, newCustomers: nat, spendTotal: real, cac: Option<real>)

  /** The three tables the mart hands on. */
  datatype MartTables = MartTables(cohortRev: seq<RevenuePoint>, acqCounts: seq<AcquisitionCount>, cac: seq<CacRow>)

  // Columns, as functions of a row (the keys and weights of the groupings).

  function CustomerOf(o: Order): CustomerId { o.customer }
  function OrderRevenue(o: Order): real { o.revenue }
  function CohortCustomer(r: CustomerCohort): CustomerId { r.customer }
  function CohortMonthOf(r: CustomerCohort): int { r.cohortMonth }
  function FactCohort(e: EnrichedOrder): int { e.cohortMonth }
  function FactOffset(e: EnrichedOrder): int { e.monthsSinceCohort }
  function FactCell(e: EnrichedOrder): (int, int) { (e.cohortMonth, e.monthsSinceCohort) }
  function FactRevenue(e: EnrichedOrder): real { e.order.revenue }
  function PointCohort(p: RevenuePoint): int { p.cohortMonth }
  function PointOffset(p: RevenuePoint): int { p.monthsSinceCohort }
  function PointCell(p: RevenuePoint): (int, int) { (p.cohortMonth, p.monthsSinceCohort) }
  function PointRevenue(p: RevenuePoint): real { p.revenue }
  function AcqMonth(a: AcquisitionCount): int { a.cohortMonth }
  function SpendMonth(s: SpendRecord): int { MonthKey(s.month.year, s.month.month) }
  function SpendYearMonth(s: SpendRecord): YearMonth { s.month }
  function SpendAmount(s: SpendRecord): real { s.spend }
  function MonthSpendMonth(m: MonthSpend): int { m.month }
  function CacMonth(r: CacRow): int { r.cohortMonth }

  predicate ValidOrders(orders: seq<Order>) {
    forall i :: 0 <= i < |orders| ==> ValidDate(orders[i].date)
  }

  /** Every spend month is a well-formed "YYYY-MM" text, its month between 01 and 12. */
  predicate ValidSpend(spend: seq<SpendRecord>) {
    forall i :: 0 <= i < |spend| ==> ValidYearMonth(spend[i].month)
  }

  predicate DistinctCustomers(fo: seq<CustomerCohort>) {
    forall i, j :: 0 <= i < j < |fo| ==> fo[i].customer != fo[j].customer
  }

  /**
   * row is the first_orders row of its customer: its date is the date of one of
   * that customer's orders and no later than any of them, and its cohort month
   * is that date's month.
   */
  ghost predicate IsFirstOrderOf(orders: seq<Order>, row: CustomerCohort) {
    && (exists i :: 0 <= i < |orders| && orders[i].customer == row.customer && orders[i].date == row.firstOrderDate)
    && (forall i :: 0 <= i < |orders| && orders[i].customer == row.customer ==> OnOrBefore(row.firstOrderDate, orders[i].date))
    && row.cohortMonth == MonthIndex(row.firstOrderDate)
  }

  // ---------------------------------------------------------------------------
  // first_orders: GROUP BY customer_id with MIN(order_date)

  /** MIN(order_date) over a non-empty group of orders. */
  function EarliestDate(os: seq<Order>): (d: Date)
    requires os != []
    ensures exists i :: 0 <= i < |os| && os[i].date == d
    ensures forall i :: 0 <= i < |os| ==> OnOrBefore(d, os[i].date)
  {
    if |os| == 1 then os[0].date
    else
      var rest := EarliestDate(os[1..]);
      assert forall i :: 1 <= i < |os| ==> os[1..][i - 1] == os[i];
      if OnOrBefore(os[0].date, rest) then os[0].date else rest
  }

  /** The customer ids of the orders, each once. */
  function CustomerIds(orders: seq<Order>): (cs: seq<CustomerId>)
    ensures NoDuplicates(cs)
    ensures forall c :: c in cs <==> HasKey(orders, CustomerOf, c)
  {
    var all := seq(|orders|, i requires 0 <= i < |orders| => orders[i].customer);
    assert forall c :: c in all <==> HasKey(orders, CustomerOf, c) by {
      forall c ensures c in all <==> HasKey(orders, CustomerOf, c) {
        if c in all {
          var i :| 0 <= i < |all| && all[i] == c;
          assert orders[i] in orders && CustomerOf(orders[i]) == c;
        }
        if HasKey(orders, CustomerOf, c) {
          var o :| o in orders && CustomerOf(o) == c;
          var i :| 0 <= i < |orders| && orders[i] == o;
          assert all[i] == c;
        }
      }
    }
    var cs := Distinct(all);
    assert forall c :: c in cs <==> c in all by {
      forall c ensures c in cs <==> c in all {
        if c in cs {
          var i :| 0 <= i < |cs| && cs[i] == c;
        }
        if c in all {
          var i :| 0 <= i < |all| && all[i] == c;
        }
      }
    }
    cs
  }

  /** The first_orders row of customer c. */
  function CohortOfCustomer(orders: seq<Order>, c: CustomerId): (row: CustomerCohort)
    requires HasKey(orders, CustomerOf, c)
    ensures row.customer == c
    ensures IsFirstOrderOf(orders, row)
  {
    FilterEmpty(orders, CustomerOf, c);
    var mine := Filter(orders, CustomerOf, c);
    var first := EarliestDate(mine);
    var row := CustomerCohort(c, first, MonthIndex(first));
    assert IsFirstOrderOf(orders, row) by {
      var k :| 0 <= k < |mine| && mine[k].date == first;
      var n :| 0 <= n < |orders| && orders[n] == mine[k];
      forall i | 0 <= i < |orders| && orders[i].customer == c
        ensures OnOrBefore(first, orders[i].date)
      {
        assert orders[i] in mine;
        var j :| 0 <= j < |mine| && mine[j] == orders[i];
      }
    }
    row
  }

  /**
   * first_orders: one row per customer that appears in the orders, with the
   * customer's earliest order date and its month.
   */
  function FirstOrders(orders: seq<Order>): (fo: seq<CustomerCohort>)
    ensures DistinctCustomers(fo)
    ensures forall c :: HasKey(fo, CohortCustomer, c) <==> HasKey(orders, CustomerOf, c)
    ensures forall i :: 0 <= i < |fo| ==> IsFirstOrderOf(orders, fo[i])
  {
    var cs := CustomerIds(orders);
    var fo := seq(|cs|, j requires 0 <= j < |cs| => CohortOfCustomer(orders, cs[j]));
    CustomersOfRows(cs, fo);
    fo
  }

  lemma CustomersOfRows(cs: seq<CustomerId>, fo: seq<CustomerCohort>)
    requires |fo| == |cs|
    requires forall j :: 0 <= j < |cs| ==> fo[j].customer == cs[j]
    ensures forall c :: HasKey(fo, CohortCustomer, c) <==> c in cs
  {
    forall c ensures HasKey(fo, CohortCustomer, c) <==> c in cs {
      if HasKey(fo, CohortCustomer, c) {
        var r :| r in fo && CohortCustomer(r) == c;
        var j :| 0 <= j < |fo| && fo[j] == r;
        assert cs[j] == c;
      }
      if c in cs {
        var j :| 0 <= j < |cs| && cs[j] == c;
        assert fo[j] in fo && CohortCustomer(fo[j]) == c;
      }
    }
  }

  /** Looking a customer up in first_orders finds that customer's cohort row. */
  lemma FirstOrdersLookup(orders: seq<Order>, c: CustomerId)
    requires HasKey(orders, CustomerOf, c)
    ensures Lookup(FirstOrders(orders), CohortCustomer, c) == Some(CohortOfCustomer(orders, c))
  {
    var cs := CustomerIds(orders);
    var fo := FirstOrders(orders);
    var j :| 0 <= j < |cs| && cs[j] == c;
    assert fo[j] == CohortOfCustomer(orders, c);
    LookupFinds(fo, CohortCustomer, j);
  }

  // ---------------------------------------------------------------------------
  // fct: fact_orders JOIN first_orders USING (customer_id)

  /** An order joined to a first_orders row, with its offset in months. */
  function Extend(o: Order, row: CustomerCohort): EnrichedOrder {
    EnrichedOrder(o, row.cohortMonth, MonthsBetween(row.firstOrderDate, o.date))
  }

  /** The joined rows one order contributes: one per first_orders row of its customer. */
  function JoinOrder(o: Order, fo: seq<CustomerCohort>): seq<EnrichedOrder> {
    if fo == [] then []
    else (if fo[0].customer == o.customer then [Extend(o, fo[0])] else []) + JoinOrder(o, fo[1..])
  }

  /** fct: the inner join of the orders with first_orders on the customer. */
  function Enrich(orders: seq<Order>, fo: seq<CustomerCohort>): seq<EnrichedOrder> {
    if orders == [] then [] else JoinOrder(orders[0], fo) + Enrich(orders[1..], fo)
  }

  /** An order whose customer has no first_orders row is dropped by the inner join. */
  lemma {:induction false} JoinOrderNoMatch(o: Order, fo: seq<CustomerCohort>)
    requires forall k :: 0 <= k < |fo| ==> fo[k].customer != o.customer
    ensures JoinOrder(o, fo) == []
  {
    if fo != [] {
      assert forall k :: 0 <= k < |fo| - 1 ==> fo[1..][k] == fo[k + 1];
      JoinOrderNoMatch(o, fo[1..]);
    }
  }

  /** An order whose customer has exactly one first_orders row yields exactly one joined row. */
  lemma {:induction false} JoinOrderUnique(o: Order, fo: seq<CustomerCohort>)
    requires DistinctCustomers(fo)
    requires HasKey(fo, CohortCustomer, o.customer)
    ensures Lookup(fo, CohortCustomer, o.customer).Some?
    ensures JoinOrder(o, fo) == [Extend(o, Lookup(fo, CohortCustomer, o.customer).value)]
  {
    HasKeyCons(fo, CohortCustomer);
    assert forall k :: 0 <= k < |fo| - 1 ==> fo[1..][k] == fo[k + 1];
    if fo[0].customer == o.customer {
      JoinOrderNoMatch(o, fo[1..]);
    } else {
      JoinOrderUnique(o, fo[1..]);
    }
  }

  /**
   * When every order's customer has exactly one first_orders row, the join
   * keeps every order exactly once, in order, each with its customer's row.
   */
  lemma {:induction false} EnrichOneToOne(os: seq<Order>, fo: seq<CustomerCohort>)
    requires DistinctCustomers(fo)
    requires forall i :: 0 <= i < |os| ==> HasKey(fo, CohortCustomer, os[i].customer)
    ensures |Enrich(os, fo)| == |os|
    ensures forall i :: 0 <= i < |os| ==>
      && Lookup(fo, CohortCustomer, os[i].customer).Some?
      && Enrich(os, fo)[i] == Extend(os[i], Lookup(fo, CohortCustomer, os[i].customer).value)
  {
    if os != [] {
      JoinOrderUnique(os[0], fo);
      assert forall i :: 0 <= i < |os| - 1 ==> os[1..][i] == os[i + 1];
      EnrichOneToOne(os[1..], fo);
      assert Enrich(os, fo) == JoinOrder(os[0], fo) + Enrich(os[1..], fo);
    }
  }

  /** The join neither loses nor duplicates revenue when it keeps every order once. */
  lemma {:induction false} EnrichRevenue(os: seq<Order>, fo: seq<CustomerCohort>)
    requires DistinctCustomers(fo)
    requires forall i :: 0 <= i < |os| ==> HasKey(fo, CohortCustomer, os[i].customer)
    ensures Sum(Enrich(os, fo), FactRevenue) == Sum(os, OrderRevenue)
  {
    if os != [] {
      JoinOrderUnique(os[0], fo);
      assert forall i :: 0 <= i < |os| - 1 ==> os[1..][i] == os[i + 1];
      EnrichRevenue(os[1..], fo);
      SumConcat(JoinOrder(os[0], fo), Enrich(os[1..], fo), FactRevenue);
    }
  }

  // ---------------------------------------------------------------------------
  // cohort_rev: SUM(revenue) GROUP BY cohort_month, months_since_cohort ORDER BY 1, 2

  /** The rows of one cohort for the given offsets, each with its summed revenue. */
  function OffsetRows(ec: seq<EnrichedOrder>, c: int, os: seq<int>): seq<RevenuePoint> {
    seq(|os|, i requires 0 <= i < |os| => RevenuePoint(c, os[i], Sum(Filter(ec, FactOffset, os[i]), FactRevenue)))
  }

  /** The cohort_rev rows of cohort c: one per offset present in c, ascending. */
  function CohortBlock(fct: seq<EnrichedOrder>, c: int): seq<RevenuePoint> {
    var ec := Filter(fct, FactCohort, c);
    OffsetRows(ec, c, Keys(ec, FactOffset))
  }

  /** The cohort_rev rows of the cohorts cs, cohort after cohort. */
  function CohortBlocks(fct: seq<EnrichedOrder>, cs: seq<int>): seq<RevenuePoint> {
    if cs == [] then [] else CohortBlocks(fct, cs[..|cs| - 1]) + CohortBlock(fct, cs[|cs| - 1])
  }

  /** cohort_rev. */
  function CohortRevenue(fct: seq<EnrichedOrder>): seq<RevenuePoint> {
    CohortBlocks(fct, Keys(fct, FactCohort))
  }

  /** Sorted by (cohort month, offset), no key twice. */
  predicate CellsAscending(ps: seq<RevenuePoint>) {
    forall i, j :: 0 <= i < j < |ps| ==>
      || ps[i].cohortMonth < ps[j].cohortMonth
      || (ps[i].cohortMonth == ps[j].cohortMonth && ps[i].monthsSinceCohort < ps[j].monthsSinceCohort)
  }

  /** A cohort_rev row whose key occurs in fct and whose revenue is the sum over its group. */
  ghost predicate FaithfulPoint(fct: seq<EnrichedOrder>, p: RevenuePoint) {
    && HasKey(fct, FactCell, PointCell(p))
    && p.revenue == Sum(Filter(fct, FactCell, PointCell(p)), FactRevenue)
  }

  lemma {:induction false} OffsetRowsSum(ec: seq<EnrichedOrder>, c: int, os: seq<int>)
    ensures Sum(OffsetRows(ec, c, os), PointRevenue) == SumOver(os, ec, FactOffset, FactRevenue)
  {
    if os != [] {
      var n := |os| - 1;
      assert OffsetRows(ec, c, os) == OffsetRows(ec, c, os[..n]) + [OffsetRows(ec, c, os)[n]];
      OffsetRowsSum(ec, c, os[..n]);
      SumConcat(OffsetRows(ec, c, os[..n]), [OffsetRows(ec, c, os)[n]], PointRevenue);
    }
  }

  /** The rows of a cohort carry exactly the cohort's revenue. */
  lemma CohortBlockSum(fct: seq<EnrichedOrder>, c: int)
    ensures Sum(CohortBlock(fct, c), PointRevenue) == Sum(Filter(fct, FactCohort, c), FactRevenue)
  {
    var ec := Filter(fct, FactCohort, c);
    var os := Keys(ec, FactOffset);
    OffsetRowsSum(ec, c, os);
    KeysCover(ec, FactOffset);
    PartitionSum(os, ec, FactOffset, FactRevenue);
  }

  lemma {:induction false} CohortBlocksSum(fct: seq<EnrichedOrder>, cs: seq<int>)
    ensures Sum(CohortBlocks(fct, cs), PointRevenue) == SumOver(cs, fct, FactCohort, FactRevenue)
  {
    if cs != [] {
      var n := |cs| - 1;
      CohortBlocksSum(fct, cs[..n]);
      CohortBlockSum(fct, cs[n]);
      SumConcat(CohortBlocks(fct, cs[..n]), CohortBlock(fct, cs[n]), PointRevenue);
    }
  }

  /** The rows of one cohort are all in that cohort, offsets ascending. */
  lemma CohortBlockSorted(fct: seq<EnrichedOrder>, c: int)
    ensures forall i :: 0 <= i < |CohortBlock(fct, c)| ==> CohortBlock(fct, c)[i].cohortMonth == c
    ensures CellsAscending(CohortBlock(fct, c))
  {
  }

  /** Each row of one cohort is the sum over its group. */
  lemma CohortBlockFaithful(fct: seq<EnrichedOrder>, c: int)
    ensures forall i :: 0 <= i < |CohortBlock(fct, c)| ==> FaithfulPoint(fct, CohortBlock(fct, c)[i])
  {
    var ec := Filter(fct, FactCohort, c);
    var os := Keys(ec, FactOffset);
    var b := CohortBlock(fct, c);
    forall i | 0 <= i < |b| ensures FaithfulPoint(fct, b[i]) {
      FilterTwice(fct, FactCohort, FactOffset, FactCell, c, os[i]);
      assert HasKey(ec, FactOffset, os[i]);
      var x :| x in ec && FactOffset(x) == os[i];
      var k :| 0 <= k < |ec| && ec[k] == x;
      assert x in fct && FactCell(x) == PointCell(b[i]);
    }
  }

  /** Cohort after cohort, in ascending cohort order, gives rows sorted by (cohort, offset). */
  lemma {:induction false} CohortBlocksShape(fct: seq<EnrichedOrder>, cs: seq<int>)
    requires Ascending(cs)
    ensures forall i :: 0 <= i < |CohortBlocks(fct, cs)| ==> CohortBlocks(fct, cs)[i].cohortMonth in cs
    ensures CellsAscending(CohortBlocks(fct, cs))
    ensures forall i :: 0 <= i < |CohortBlocks(fct, cs)| ==> FaithfulPoint(fct, CohortBlocks(fct, cs)[i])
  {
    if cs != [] {
      var n := |cs| - 1;
      var front, last := CohortBlocks(fct, cs[..n]), CohortBlock(fct, cs[n]);
      CohortBlocksShape(fct, cs[..n]);
      CohortBlockSorted(fct, cs[n]);
      CohortBlockFaithful(fct, cs[n]);
      forall i | 0 <= i < |front| ensures front[i].cohortMonth < cs[n] {
        var k :| 0 <= k < n && cs[..n][k] == front[i].cohortMonth;
      }
      assert CohortBlocks(fct, cs) == front + last;
    }
  }

  /** Picking a cohort that is not among cs out of the cohort blocks gives nothing. */
  lemma {:induction false} FilterCohortBlocksOut(fct: seq<EnrichedOrder>, cs: seq<int>, c: int)
    requires c !in cs
    ensures Filter(CohortBlocks(fct, cs), PointCohort, c) == []
  {
    if cs != [] {
      var n := |cs| - 1;
      var front, last := CohortBlocks(fct, cs[..n]), CohortBlock(fct, cs[n]);
      assert c !in cs[..n];
      FilterCohortBlocksOut(fct, cs[..n], c);
      CohortBlockSorted(fct, cs[n]);
      FilterNone(last, PointCohort, c);
      FilterConcat(front, last, PointCohort, c);
    }
  }

  /** Picking one cohort of cs out of the cohort blocks gives that cohort's block. */
  lemma {:induction false} FilterCohortBlocks(fct: seq<EnrichedOrder>, cs: seq<int>, c: int)
    requires Ascending(cs)
    requires c in cs
    ensures Filter(CohortBlocks(fct, cs), PointCohort, c) == CohortBlock(fct, c)
  {
    var n := |cs| - 1;
    var front, last := CohortBlocks(fct, cs[..n]), CohortBlock(fct, cs[n]);
    assert CohortBlocks(fct, cs) == front + last;
    assert cs == cs[..n] + [cs[n]];
    FilterConcat(front, last, PointCohort, c);
    CohortBlockSorted(fct, cs[n]);
    if c == cs[n] {
      assert c !in cs[..n];
      FilterCohortBlocksOut(fct, cs[..n], c);
      FilterAll(last, PointCohort, c);
    } else {
      assert c in cs[..n];
      FilterCohortBlocks(fct, cs[..n], c);
      FilterNone(last, PointCohort, c);
    }
  }

  /** cohort_rev is sorted by (cohort month, offset), so no key appears twice. */
  lemma CohortRevenueSorted(fct: seq<EnrichedOrder>)
    ensures CellsAscending(CohortRevenue(fct))
    ensures UniqueKeys(CohortRevenue(fct), PointCell)
  {
    CohortBlocksShape(fct, Keys(fct, FactCohort));
  }

  /**
   * Every cohort_rev row is a (cohort month, offset) key of fct with the revenue
   * summed over that key's orders, and every key of fct has a row.
   */
  lemma CohortRevenueGroups(fct: seq<EnrichedOrder>)
    ensures forall i :: 0 <= i < |CohortRevenue(fct)| ==> FaithfulPoint(fct, CohortRevenue(fct)[i])
    ensures forall i :: 0 <= i < |fct| ==> HasKey(CohortRevenue(fct), PointCell, FactCell(fct[i]))
  {
    var cs := Keys(fct, FactCohort);
    var rev := CohortRevenue(fct);
    CohortBlocksShape(fct, cs);
    KeysCover(fct, FactCohort);
    forall i | 0 <= i < |fct| ensures HasKey(rev, PointCell, FactCell(fct[i])) {
      var x := fct[i];
      var c := x.cohortMonth;
      var ec := Filter(fct, FactCohort, c);
      assert x in ec;
      var k :| 0 <= k < |ec| && ec[k] == x;
      KeysCover(ec, FactOffset);
      var os := Keys(ec, FactOffset);
      var m :| 0 <= m < |os| && os[m] == x.monthsSinceCohort;
      FilterCohortBlocks(fct, cs, c);
      var p := CohortBlock(fct, c)[m];
      assert p in Filter(rev, PointCohort, c);
      var q :| 0 <= q < |Filter(rev, PointCohort, c)| && Filter(rev, PointCohort, c)[q] == p;
      assert p in rev && PointCell(p) == FactCell(x);
    }
  }

  /** The cohort months that occur in cohort_rev are exactly those of fct. */
  lemma CohortRevenueCohorts(fct: seq<EnrichedOrder>)
    ensures forall c :: HasKey(CohortRevenue(fct), PointCohort, c) <==> HasKey(fct, FactCohort, c)
  {
    var rev := CohortRevenue(fct);
    CohortRevenueGroups(fct);
    forall c | HasKey(rev, PointCohort, c) ensures HasKey(fct, FactCohort, c) {
      var p :| p in rev && PointCohort(p) == c;
      var i :| 0 <= i < |rev| && rev[i] == p;
      assert FaithfulPoint(fct, rev[i]);
      var e :| e in fct && FactCell(e) == PointCell(p);
      assert FactCohort(e) == c;
    }
    forall c | HasKey(fct, FactCohort, c) ensures HasKey(rev, PointCohort, c) {
      var e :| e in fct && FactCohort(e) == c;
      var i :| 0 <= i < |fct| && fct[i] == e;
      assert HasKey(rev, PointCell, FactCell(fct[i]));
      var p :| p in rev && PointCell(p) == FactCell(e);
      assert PointCohort(p) == c;
    }
  }

  /** The offsets that occur in cohort_rev are exactly those of fct. */
  lemma CohortRevenueOffsets(fct: seq<EnrichedOrder>)
    ensures forall o :: HasKey(CohortRevenue(fct), PointOffset, o) <==> HasKey(fct, FactOffset, o)
  {
    var rev := CohortRevenue(fct);
    CohortRevenueGroups(fct);
    forall o | HasKey(rev, PointOffset, o) ensures HasKey(fct, FactOffset, o) {
      var p :| p in rev && PointOffset(p) == o;
      var i :| 0 <= i < |rev| && rev[i] == p;
      assert FaithfulPoint(fct, rev[i]);
      var e :| e in fct && FactCell(e) == PointCell(p);
      assert FactOffset(e) == o;
    }
    forall o | HasKey(fct, FactOffset, o) ensures HasKey(rev, PointOffset, o) {
      var e :| e in fct && FactOffset(e) == o;
      var i :| 0 <= i < |fct| && fct[i] == e;
      assert HasKey(rev, PointCell, FactCell(fct[i]));
      var p :| p in rev && PointCell(p) == FactCell(e);
      assert PointOffset(p) == o;
    }
  }

  /** When no order of fct lies before its cohort, no row of cohort_rev does either. */
  lemma CohortRevenueOffsetsNonNegative(fct: seq<EnrichedOrder>)
    requires forall i :: 0 <= i < |fct| ==> fct[i].monthsSinceCohort >= 0
    ensures forall i :: 0 <= i < |CohortRevenue(fct)| ==> CohortRevenue(fct)[i].monthsSinceCohort >= 0
  {
    var rev := CohortRevenue(fct);
    CohortRevenueGroups(fct);
    forall i | 0 <= i < |rev| ensures rev[i].monthsSinceCohort >= 0 {
      assert FaithfulPoint(fct, rev[i]);
      var e :| e in fct && FactCell(e) == PointCell(rev[i]);
      var k :| 0 <= k < |fct| && fct[k] == e;
    }
  }

  /** Without negative order revenue no cohort_rev row has negative revenue. */
  lemma CohortRevenueNonNegative(fct: seq<EnrichedOrder>)
    requires forall i :: 0 <= i < |fct| ==> fct[i].order.revenue >= 0.0
    ensures forall i :: 0 <= i < |CohortRevenue(fct)| ==> CohortRevenue(fct)[i].revenue >= 0.0
  {
    var rev := CohortRevenue(fct);
    CohortRevenueGroups(fct);
    forall i | 0 <= i < |rev| ensures rev[i].revenue >= 0.0 {
      assert FaithfulPoint(fct, rev[i]);
      var g := Filter(fct, FactCell, PointCell(rev[i]));
      forall x | x in g ensures FactRevenue(x) >= 0.0 {
        var k :| 0 <= k < |fct| && fct[k] == x;
      }
      SumNonNegative(g, FactRevenue);
    }
  }

  /** cohort_rev carries all of fct's revenue. */
  lemma CohortRevenueTotal(fct: seq<EnrichedOrder>)
    ensures Sum(CohortRevenue(fct), PointRevenue) == Sum(fct, FactRevenue)
  {
    var cs := Keys(fct, FactCohort);
    CohortBlocksSum(fct, cs);
    KeysCover(fct, FactCohort);
    PartitionSum(cs, fct, FactCohort, FactRevenue);
  }

  /** The cohort_rev rows of one cohort carry exactly that cohort's revenue. */
  lemma CohortRevenueOfCohort(fct: seq<EnrichedOrder>, c: int)
    ensures Sum(Filter(CohortRevenue(fct), PointCohort, c), PointRevenue) == Sum(Filter(fct, FactCohort, c), FactRevenue)
  {
    var cs := Keys(fct, FactCohort);
    if c in cs {
      FilterCohortBlocks(fct, cs, c);
      CohortBlockSum(fct, c);
    } else {
      FilterCohortBlocksOut(fct, cs, c);
      FilterEmpty(fct, FactCohort, c);
    }
  }

  // ---------------------------------------------------------------------------
  // acq_counts: COUNT(DISTINCT customer_id) GROUP BY cohort_month ORDER BY 1

  /** COUNT(DISTINCT customer_id) over some first_orders rows. */
  function NewCustomers(rows: seq<CustomerCohort>): nat {
    |Distinct(seq(|rows|, i requires 0 <= i < |rows| => rows[i].customer))|
  }

  /** The acq_counts rows for the cohort months ms. */
  function AcquisitionRows(fo: seq<CustomerCohort>, ms: seq<int>): seq<AcquisitionCount> {
    seq(|ms|, i requires 0 <= i < |ms| => AcquisitionCount(ms[i], NewCustomers(Filter(fo, CohortMonthOf, ms[i]))))
  }

  /**
   * acq_counts: one row per cohort month of first_orders, ascending, each
   * counting at least one customer.
   */
  function AcquisitionCounts(fo: seq<CustomerCohort>): (acq: seq<AcquisitionCount>)
    ensures AscendingBy(acq, AcqMonth)
    ensures forall m :: HasKey(acq, AcqMonth, m) <==> HasKey(fo, CohortMonthOf, m)
    ensures forall i :: 0 <= i < |acq| ==> acq[i].newCustomers >= 1
  {
    var ms := Keys(fo, CohortMonthOf);
    AcquisitionRowsShape(fo, ms);
    AcquisitionRows(fo, ms)
  }

  /** Rows for months that occur in fo are in the order of the months, each with a customer. */
  lemma AcquisitionRowsShape(fo: seq<CustomerCohort>, ms: seq<int>)
    requires forall m :: m in ms <==> HasKey(fo, CohortMonthOf, m)
    ensures forall i :: 0 <= i < |ms| ==> AcquisitionRows(fo, ms)[i].cohortMonth == ms[i]
    ensures forall i :: 0 <= i < |ms| ==> AcquisitionRows(fo, ms)[i].newCustomers >= 1
    ensures forall m :: HasKey(AcquisitionRows(fo, ms), AcqMonth, m) <==> m in ms
  {
    var acq := AcquisitionRows(fo, ms);
    forall i | 0 <= i < |ms| ensures acq[i].newCustomers >= 1 {
      FilterEmpty(fo, CohortMonthOf, ms[i]);
      var rows := Filter(fo, CohortMonthOf, ms[i]);
      var ids := seq(|rows|, k requires 0 <= k < |rows| => rows[k].customer);
      assert ids[0] in Distinct(ids);
    }
    forall m ensures HasKey(acq, AcqMonth, m) <==> m in ms {
      if HasKey(acq, AcqMonth, m) {
        var a :| a in acq && AcqMonth(a) == m;
        var i :| 0 <= i < |acq| && acq[i] == a;
      }
      if m in ms {
        var i :| 0 <= i < |ms| && ms[i] == m;
        assert acq[i] in acq;
      }
    }
  }

  /** Each cohort month's count is the number of customers whose first order falls in it. */
  lemma AcquisitionCountIsCohortSize(fo: seq<CustomerCohort>, i: nat)
    requires DistinctCustomers(fo)
    requires i < |AcquisitionCounts(fo)|
    ensures AcquisitionCounts(fo)[i].newCustomers == |Filter(fo, CohortMonthOf, AcquisitionCounts(fo)[i].cohortMonth)|
  {
    var ms := Keys(fo, CohortMonthOf);
    assert AcquisitionCounts(fo) == AcquisitionRows(fo, ms);
    FilterKeepsCustomersDistinct(fo, ms[i]);
    NewCustomersOfDistinct(Filter(fo, CohortMonthOf, ms[i]));
  }

  /** The number of new customers summed over all cohort months. */
  function TotalNewCustomers(acq: seq<AcquisitionCount>): nat {
    if acq == [] then 0 else TotalNewCustomers(acq[..|acq| - 1]) + acq[|acq| - 1].newCustomers
  }

  /** Keeping some rows of first_orders keeps their customers distinct. */
  lemma {:induction false} FilterKeepsCustomersDistinct(fo: seq<CustomerCohort>, m: int)
    requires DistinctCustomers(fo)
    ensures DistinctCustomers(Filter(fo, CohortMonthOf, m))
  {
    if fo != [] {
      var rest := Filter(fo[1..], CohortMonthOf, m);
      assert forall k :: 0 <= k < |fo| - 1 ==> fo[1..][k] == fo[k + 1];
      FilterKeepsCustomersDistinct(fo[1..], m);
      forall k | 0 <= k < |rest| ensures rest[k].customer != fo[0].customer {
        var n :| 0 <= n < |fo[1..]| && fo[1..][n] == rest[k];
      }
    }
  }

  /** Over rows with distinct customers, COUNT(DISTINCT customer_id) counts the rows. */
  lemma NewCustomersOfDistinct(rows: seq<CustomerCohort>)
    requires DistinctCustomers(rows)
    ensures NewCustomers(rows) == |rows|
  {
    var ids := seq(|rows|, i requires 0 <= i < |rows| => rows[i].customer);
    DistinctOfNoDuplicates(ids);
  }

  lemma {:induction false} AcquisitionRowsTotal(fo: seq<CustomerCohort>, ms: seq<int>)
    requires DistinctCustomers(fo)
    ensures TotalNewCustomers(AcquisitionRows(fo, ms)) == CountOver(ms, fo, CohortMonthOf)
  {
    if ms != [] {
      var n := |ms| - 1;
      assert AcquisitionRows(fo, ms)[..n] == AcquisitionRows(fo, ms[..n]);
      AcquisitionRowsTotal(fo, ms[..n]);
      FilterKeepsCustomersDistinct(fo, ms[n]);
      NewCustomersOfDistinct(Filter(fo, CohortMonthOf, ms[n]));
    }
  }

  /** Summed over the cohort months, the new-customer counts count every customer once. */
  lemma AcquisitionCountsTotal(fo: seq<CustomerCohort>)
    requires DistinctCustomers(fo)
    ensures TotalNewCustomers(AcquisitionCounts(fo)) == |fo|
  {
    var ms := Keys(fo, CohortMonthOf);
    AcquisitionRowsTotal(fo, ms);
    KeysCover(fo, CohortMonthOf);
    PartitionCount(ms, fo, CohortMonthOf);
  }

  // ---------------------------------------------------------------------------
  // spend_by_month and the CAC table

  /** spend_by_month: spend summed over channels per month, months ascending. */
  function SpendByMonth(spend: seq<SpendRecord>): (sbm: seq<MonthSpend>)
    ensures AscendingBy(sbm, MonthSpendMonth)
    ensures forall m :: HasKey(sbm, MonthSpendMonth, m) <==> HasKey(spend, SpendMonth, m)
    ensures forall i :: 0 <= i < |sbm| ==> sbm[i].spendTotal == Sum(Filter(spend, SpendMonth, sbm[i].month), SpendAmount)
  {
    var ms := Keys(spend, SpendMonth);
    var sbm := seq(|ms|, i requires 0 <= i < |ms| => MonthSpend(ms[i], Sum(Filter(spend, SpendMonth, ms[i]), SpendAmount)));
    forall m ensures HasKey(sbm, MonthSpendMonth, m) <==> m in ms {
      if HasKey(sbm, MonthSpendMonth, m) {
        var r :| r in sbm && MonthSpendMonth(r) == m;
        var i :| 0 <= i < |sbm| && sbm[i] == r;
      }
      if m in ms {
        var i :| 0 <= i < |ms| && ms[i] == m;
        assert sbm[i] in sbm;
      }
    }
    sbm
  }

  /** spend_total after the left join and fillna(0): the month's spend, or 0 without a spend row. */
  function SpendTotal(sbm: seq<MonthSpend>, m: int): real {
    match Lookup(sbm, MonthSpendMonth, m)
    case Some(r) => r.spendTotal
    case None => 0.0
  }

  /** A per-customer amount scaled back up to a cohort of n customers. */
  function TimesCustomers(perCustomer: real, n: nat): real {
    perCustomer * (n as real)
  }

  /** spend_total / new_customers.replace(0, NaN). */
  function CacOf(spendTotal: real, newCustomers: nat): (cac: Option<real>)
    ensures cac.None? <==> newCustomers == 0
    ensures cac.Some? ==> TimesCustomers(cac.value, newCustomers) == spendTotal
  {
    if newCustomers == 0 then None else Some(spendTotal / newCustomers as real)
  }

  /**
   * cac: acq_counts left-joined with spend_by_month. Every acquisition row is
   * kept, in order, with its spend total and CAC.
   */
  function CacTable(acq: seq<AcquisitionCount>, spend: seq<SpendRecord>): (cac: seq<CacRow>)
    ensures |cac| == |acq|
    ensures forall i :: 0 <= i < |acq| ==>
      cac[i] == CacRow(acq[i].cohortMonth, acq[i].newCustomers, cac[i].spendTotal, CacOf(cac[i].spendTotal, acq[i].newCustomers))
  {
    var sbm := SpendByMonth(spend);
    seq(|acq|, i requires 0 <= i < |acq| =>
      var total := SpendTotal(sbm, acq[i].cohortMonth);
      CacRow(acq[i].cohortMonth, acq[i].newCustomers, total, CacOf(total, acq[i].newCustomers)))
  }

  /**
   * With well-formed spend months, the records with a month key are exactly the
   * records whose "YYYY-MM" text is that key's month.
   */
  lemma {:induction false} SpendMonthByText(spend: seq<SpendRecord>, k: int)
    requires ValidSpend(spend)
    ensures Filter(spend, SpendMonth, k) == Filter(spend, SpendYearMonth, YearMonthOfKey(k))
  {
    if spend != [] {
      var ym := YearMonthOfKey(k);
      MonthKeyInjective(spend[0].month.year, spend[0].month.month, ym.year, ym.month);
      assert forall i :: 0 <= i < |spend| - 1 ==> spend[1..][i] == spend[i + 1];
      SpendMonthByText(spend[1..], k);
    }
  }

  /** A month's spend total is its spend summed over all channels; 0 when it has none. */
  lemma SpendTotalIsSum(spend: seq<SpendRecord>, m: int)
    ensures SpendTotal(SpendByMonth(spend), m) == Sum(Filter(spend, SpendMonth, m), SpendAmount)
    ensures !HasKey(spend, SpendMonth, m) ==> SpendTotal(SpendByMonth(spend), m) == 0.0
  {
    var sbm := SpendByMonth(spend);
    LookupSound(sbm, MonthSpendMonth, m);
    FilterEmpty(spend, SpendMonth, m);
    if HasKey(sbm, MonthSpendMonth, m) {
      var r :| r in sbm && MonthSpendMonth(r) == m;
      var i :| 0 <= i < |sbm| && sbm[i] == r;
      AscendingUnique(sbm, MonthSpendMonth);
      LookupFinds(sbm, MonthSpendMonth, i);
    }
  }

  /** Each CAC row's spend total is that cohort month's spend over all channels (0 without spend). */
  lemma CacTableSpend(acq: seq<AcquisitionCount>, spend: seq<SpendRecord>)
    ensures forall i :: 0 <= i < |acq| ==>
      CacTable(acq, spend)[i].spendTotal == Sum(Filter(spend, SpendMonth, acq[i].cohortMonth), SpendAmount)
  {
    forall i | 0 <= i < |acq|
      ensures CacTable(acq, spend)[i].spendTotal == Sum(Filter(spend, SpendMonth, acq[i].cohortMonth), SpendAmount)
    {
      SpendTotalIsSum(spend, acq[i].cohortMonth);
    }
  }

  /** The CAC table keeps the cohort months of acq_counts, so they stay unique. */
  lemma CacTableUnique(acq: seq<AcquisitionCount>, spend: seq<SpendRecord>)
    requires AscendingBy(acq, AcqMonth)
    ensures UniqueKeys(CacTable(acq, spend), CacMonth)
  {
  }

  // ---------------------------------------------------------------------------
  // build_mart_and_cohorts

  /** The three tables build_mart_and_cohorts returns. */
  function BuildMart(orders: seq<Order>, spend: seq<SpendRecord>): MartTables {
    var fo := FirstOrders(orders);
    var acq := AcquisitionCounts(fo);
    MartTables(CohortRevenue(Enrich(orders, fo)), acq, CacTable(acq, spend))
  }
}
