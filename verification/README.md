# Cohort CAC / LTV engine — a Dafny model

GTM Cohort CAC/LTV is a command-line tool. It reads an orders table and a marketing-spend table and builds a small data mart:

- every customer is assigned to an acquisition cohort, the month of their first order;
- every order is placed at its offset in months from that cohort;
- revenue is summed per (cohort month, offset);
- new customers are counted per cohort month;
- CAC (customer acquisition cost) is the month's total spend divided by that month's new customers.

From the mart it derives a per-customer LTV (lifetime value) for every (cohort, offset) cell. It pivots these into a cohort × offset matrix with the missing cells set to 0, and takes the running total along each row to get cumulative LTV (`ltv_cum`). Finally, the Summary sheet pairs each cohort's cumulative LTV at the latest column with its CAC, and their ratio `LTV_to_CAC`.

The model is written as pure functions over finite tables. A table is a `seq` of rows.

- `Grouping` gives the SQL and pandas building blocks their meaning once, for any row type: GROUP BY keys in ascending order, WHERE-style groups, SUM, COUNT(DISTINCT) and the key lookup behind a join.
- `Calendar` holds dates and the month index `year*12 + month - 1`. Month strings such as `2023-04` are represented by this index.
- `Mart` models `build_mart_and_cohorts`: first_orders, fct, cohort_rev, acq_counts and the CAC table.
- `Ltv` models `ltv_tables`: the left merge, per-period LTV, the pivot with `fillna(0)`, and the cumulative sum.
- `Summary` models the Summary-sheet arithmetic of `export_excel`.
- `Pipeline` chains the three steps into `Run` and states what holds of a whole run.

Amounts are `real`. A value pandas leaves undefined (NaN, or inf after a division by 0) is `None` in an `Option`. The two ways the source can raise are modelled as `Failure` results:

- the pivot rejects a duplicated (cohort, offset) cell;
- the summary finds no latest column when `ltv_cum` has no columns.

## Model

| member | source | states |
|---|---|---|
| Calendar.MonthsBetween | src/cohort_cli.py:64-66 | the month difference of two dates is the difference of their `year*12+month` indices |
| Calendar.YearMonthOfKey | src/cohort_cli.py:29 | every month key stands for a well-formed "YYYY-MM" month whose key it is |
| Calendar.MonthKeyInjective | src/cohort_cli.py:51 | for months 01 to 12 two "YYYY-MM" texts get the same key exactly when they are the same text |
| Calendar.MonthIndexMonotone | src/cohort_cli.py:64-66 | a date no later than another has a month index no larger, so offsets from an earliest date are never negative |
| Mart.EarliestDate | src/cohort_cli.py:50 | MIN(order_date) is the date of one of the group's orders and on or before every one of them |
| Mart.CustomerIds | src/cohort_cli.py:49-54 | the GROUP BY customer_id keys: each customer of the orders once, and no other |
| Mart.CohortOfCustomer | src/cohort_cli.py:48-51 | a customer's first_orders row: the customer, the earliest date of their orders, and that date's month as the cohort month |
| Mart.FirstOrders | src/cohort_cli.py:46-55 | first_orders has exactly one row per customer that has an order, and every row is that customer's first order and cohort month |
| Mart.FirstOrdersLookup | src/cohort_cli.py:67-68 | joining a customer's orders to first_orders pairs them with that customer's cohort row |
| Mart.Extend | src/cohort_cli.py:61-66 | an fct row: the order with its customer's cohort month and its offset in months from the first order's month (`Pipeline.FactsOneToOne`, `Pipeline.FactOffsetsNonNegative`) |
| Mart.Enrich | src/cohort_cli.py:58-69 | the inner join of the orders with first_orders: one row per order when each customer has one cohort row (`Mart.EnrichOneToOne`), orders without one dropped (`Mart.JoinOrderNoMatch`), revenue kept (`Mart.EnrichRevenue`) |
| Mart.JoinOrderNoMatch | src/cohort_cli.py:67-68 | an order whose customer has no first_orders row contributes nothing to the inner join |
| Mart.JoinOrderUnique | src/cohort_cli.py:58-69 | an order whose customer has one first_orders row yields exactly one fct row carrying that row's cohort month and offset |
| Mart.EnrichOneToOne | src/cohort_cli.py:58-69 | when every customer has exactly one first_orders row, fct has one row per order, in order |
| Mart.EnrichRevenue | src/cohort_cli.py:58-69 | under the same condition the join keeps the total revenue of the orders |
| Mart.CohortRevenue | src/cohort_cli.py:71-76 | cohort_rev: sorted by (cohort, offset) with unique keys (`Mart.CohortRevenueSorted`), exactly the keys of fct each with its SUM(revenue) (`Mart.CohortRevenueGroups`), the same total (`Mart.CohortRevenueTotal`) |
| Mart.CohortBlockSorted | src/cohort_cli.py:71-76 | one cohort's rows of cohort_rev all carry that cohort and are ordered by offset |
| Mart.CohortBlocksShape | src/cohort_cli.py:71-76 | cohort_rev built over ascending cohort months is sorted by (cohort, offset), and each row is a key of fct carrying that key's summed revenue |
| Mart.CohortRevenueSorted | src/cohort_cli.py:74-75 | cohort_rev is ordered by (cohort month, offset) and no key appears twice |
| Mart.CohortRevenueGroups | src/cohort_cli.py:71-76 | every cohort_rev row is a (cohort, offset) key of fct with SUM(revenue) over that key, and every key of fct has a row |
| Mart.CohortRevenueCohorts | src/cohort_cli.py:71-76 | the cohort months of cohort_rev are exactly those of fct |
| Mart.CohortRevenueOffsets | src/cohort_cli.py:71-76 | the offsets of cohort_rev are exactly those of fct |
| Mart.CohortRevenueOffsetsNonNegative | src/cohort_cli.py:71-76 | if no fct offset is negative then no cohort_rev offset is |
| Mart.CohortRevenueNonNegative | src/cohort_cli.py:72 | without negative order revenue every SUM(revenue) of cohort_rev is non-negative |
| Mart.CohortRevenueTotal | src/cohort_cli.py:71-76 | the revenues of cohort_rev add up to the revenue of fct |
| Mart.CohortRevenueOfCohort | src/cohort_cli.py:71-76 | a cohort's rows in cohort_rev add up to the revenue of that cohort's fct rows |
| Mart.AcquisitionCounts | src/cohort_cli.py:78-83 | acq_counts is strictly ascending by cohort month, has a row exactly for the cohort months of first_orders, and counts at least one customer in each |
| Mart.AcquisitionRowsShape | src/cohort_cli.py:78-83 | the rows built for the months present in first_orders follow those months and each counts at least one customer |
| Mart.NewCustomers | src/cohort_cli.py:79 | COUNT(DISTINCT customer_id): the number of rows when the customers are distinct (`Mart.NewCustomersOfDistinct`) |
| Mart.AcquisitionCountIsCohortSize | src/cohort_cli.py:79 | COUNT(DISTINCT customer_id) of a cohort month is the number of first_orders rows in it |
| Mart.NewCustomersOfDistinct | src/cohort_cli.py:79 | over rows with distinct customers COUNT(DISTINCT) is the row count |
| Mart.FilterKeepsCustomersDistinct | src/cohort_cli.py:80-81 | one cohort month's first_orders rows still have distinct customers |
| Mart.AcquisitionCountsTotal | src/cohort_cli.py:78-83 | the new customers of all cohort months add up to the number of first_orders rows |
| Mart.SpendByMonth | src/cohort_cli.py:87-88 | spend_by_month has one row per spend month, ascending, holding that month's spend summed over all channels |
| Mart.SpendMonthByText | src/cohort_cli.py:87-89 | with well-formed spend months, the records a month key selects are exactly those whose "YYYY-MM" text is that month |
| Mart.SpendTotal | src/cohort_cli.py:89 | the left join's spend_total after `fillna(0)`: the month's spend over all channels, 0 for a month without spend (`Mart.SpendTotalIsSum`) |
| Mart.SpendTotalIsSum | src/cohort_cli.py:87-89 | a month's spend_total after the left join and `fillna(0)` is its spend over all channels, and 0 for a month without spend |
| Mart.CacOf | src/cohort_cli.py:90 | CAC is undefined exactly when new_customers is 0, and otherwise CAC × new_customers = spend_total |
| Mart.CacTable | src/cohort_cli.py:89-90 | the CAC table keeps every acq_counts row, in order, with its month, its count and the CAC of its spend total |
| Mart.CacTableSpend | src/cohort_cli.py:89 | each CAC row's spend_total is the spend of its cohort month over all channels |
| Mart.CacTableUnique | src/cohort_cli.py:89 | the left join keeps the cohort months of acq_counts unique |
| Mart.BuildMart | src/cohort_cli.py:33-92 | the three tables of build_mart_and_cohorts; what holds of them end to end is stated by `Pipeline.FactsOneToOne`, `Pipeline.RevenueConserved`, `Pipeline.NewCustomersTotal`, `Pipeline.CohortMonthsAgree` and `Pipeline.MartShape` |
| Ltv.PerCustomer | src/cohort_cli.py:97 | per-period LTV is defined exactly when new_customers is present and positive, and then LTV × new_customers = revenue |
| Ltv.MergeRow | src/cohort_cli.py:96 | the left merge emits at least one row for each cohort_rev row, all with its cell and revenue |
| Ltv.LeftMerge | src/cohort_cli.py:96 | the left merge of cohort_rev with acq_counts: one row per cohort_rev row in order when months are unique (`Ltv.LeftMergeOneToOne`), with exactly its cells, cohorts and offsets (`Ltv.LeftMergeCells`, `Ltv.LeftMergeKeys`) |
| Ltv.MergeRowUnique | src/cohort_cli.py:96 | with unique months in acq_counts, a cohort_rev row merges into exactly one row carrying its cohort's count, or none |
| Ltv.LeftMergeOneToOne | src/cohort_cli.py:96 | with unique months in acq_counts the merge has one row per cohort_rev row, in order |
| Ltv.LeftMergeCells | src/cohort_cli.py:96 | the merge has exactly the (cohort, offset) cells of cohort_rev |
| Ltv.LeftMergeKeys | src/cohort_cli.py:96-98 | the merge has exactly the cohort months and the offsets of cohort_rev, which become the pivot's index and columns |
| Ltv.PrefixSums | src/cohort_cli.py:99 | `cumsum` keeps the row length and puts at each column the total of the values up to it |
| Ltv.PrefixSumsFirst | src/cohort_cli.py:99 | the first cumulative value is the first value |
| Ltv.PrefixSumsStep | src/cohort_cli.py:99 | each cumulative value adds the next value to the previous one |
| Ltv.PrefixSumsLast | src/cohort_cli.py:99 | the last cumulative value is the total of the row |
| Ltv.LtvTables | src/cohort_cli.py:95-100 | ltv_cum has ascending cohort months and offsets, exactly those present in cohort_rev, and one full row per cohort |
| Ltv.LookupMerged | src/cohort_cli.py:96-98 | the merged row of a cell is that cell's cohort_rev row with its cohort's count attached |
| Ltv.CellValueIsLtvAt | src/cohort_cli.py:97-98 | each pivot cell after `fillna(0)` is the cell's revenue divided by its cohort's new customers, or 0 where there is no revenue or no count |
| Ltv.CellValue | src/cohort_cli.py:98 | a pivot cell after `fillna(0)`: the cell's revenue per new customer, or 0 (`Ltv.CellValueIsLtvAt`) |
| Ltv.LtvTablesSucceeds | src/cohort_cli.py:98 | with unique months in acq_counts the pivot succeeds exactly when no (cohort, offset) cell is repeated |
| Ltv.LtvRowIsRunningTotal | src/cohort_cli.py:96-99 | each row of ltv_cum is the running total, over the ascending offset columns, of the cohort's per-customer revenue, with 0 at missing offsets |
| Ltv.TotalScaled | src/cohort_cli.py:97 | scaling every value of a row scales its total |
| Ltv.RevenueRowTotal | src/cohort_cli.py:98 | a cohort's revenue taken offset by offset adds up its cohort_rev rows group by group |
| Ltv.CohortRevenueByOffsets | src/cohort_cli.py:98 | over all offset columns a cohort's revenue row adds up to the cohort's whole revenue |
| Ltv.RevenueRowOfTable | src/cohort_cli.py:98 | over the columns of ltv_cum a cohort's revenue row adds up to the cohort's whole revenue |
| Ltv.LtvAtScaled | src/cohort_cli.py:97 | a cell's per-customer value times the cohort's new customers is the cell's revenue |
| Ltv.LtvRowScaled | src/cohort_cli.py:97-99 | the total of a cohort's per-customer row times its new customers is the total of its revenue row |
| Ltv.LtvLastColumn | src/cohort_cli.py:98-99 | the last column of ltv_cum is the total of the cohort's per-customer row, whose revenue counterpart is the cohort's revenue |
| Ltv.LtvLatest | src/cohort_cli.py:98-99 | cumulative LTV at the last column times the cohort's new customers is the cohort's total revenue, although that column is the largest offset of any cohort |
| Ltv.LtvAtNonNegative | src/cohort_cli.py:97 | without negative revenue no per-customer value is negative |
| Ltv.LtvNondecreasing | src/cohort_cli.py:99 | without negative revenue cumulative LTV never decreases from one offset column to the next |
| Ltv.ExampleMerge | tests/test_ltv.py:6-11 | the worked example's merge gives per-customer values 10 and 5 |
| Ltv.ExampleKeys | tests/test_ltv.py:6-11 | the worked example has one cohort and the offsets 0 and 1 |
| Ltv.ExampleRow | tests/test_ltv.py:6-11 | the worked example's pivot row is 10 and 5 |
| Ltv.LtvExample | tests/test_ltv.py:4-15 | revenues 100 and 50 for a cohort of 10 customers give cumulative LTV 10 at offset 0 and 15 at offset 1 |
| Summary.Max | src/cohort_cli.py:106 | `columns.max()` is a column no smaller than any other |
| Summary.LatestIsLast | src/cohort_cli.py:106 | over the ascending columns of ltv_cum the latest column is the last one |
| Summary.LatestColumn | src/cohort_cli.py:106 | `columns.max() if len(columns) else 0`: over the ascending columns of ltv_cum the last column (`Summary.LatestIsLast`), and not a column when there is none (`Summary.Summarize`) |
| Summary.ColumnIndex | src/cohort_cli.py:107 | selecting a column label finds the position holding it |
| Summary.Ratio | src/cohort_cli.py:109 | LTV_to_CAC is defined exactly when CAC is defined and non-zero, and then LTV_to_CAC × CAC = LTV_latest |
| Summary.CohortSummary | src/cohort_cli.py:108-109 | the left merge with the CAC table keeps at least one row for the cohort, all with its LTV_latest |
| Summary.SummaryRows | src/cohort_cli.py:107-108 | the latest values of the cohorts left-merged with the CAC table: one row per cohort, in order, when CAC months are unique (`Summary.SummaryRowsOneToOne`) |
| Summary.Summarize | src/cohort_cli.py:106-109 | the Summary sheet cannot be built exactly when ltv_cum has no columns |
| Summary.CacOfCohort | src/cohort_cli.py:108 | a cohort month with new customers merges with a defined CAC, and CAC × new customers is that month's spend |
| Summary.CohortSummaryUnique | src/cohort_cli.py:108 | with unique months in the CAC table each cohort gets exactly one summary row |
| Summary.SummaryRowsOneToOne | src/cohort_cli.py:107-109 | with unique months in the CAC table the summary rows follow the cohorts one to one |
| Summary.SummaryOneToOne | src/cohort_cli.py:106-109 | the Summary sheet has one row per cohort of ltv_cum, in order, holding its last cumulative value, its CAC and their ratio |
| Pipeline.Run | src/cohort_cli.py:147-150 | build_mart_and_cohorts, then ltv_tables, then the Summary sheet: it succeeds exactly when there is an order (`Pipeline.RunSucceeds`), one ascending row per cohort (`Pipeline.RunCohorts`), each row's values tied to the cohort's revenue, size and spend (`Pipeline.RunSummaryRow`) |
| Pipeline.CohortOfOrder | src/cohort_cli.py:46-55 | the first_orders row of an order's customer is that customer's first order |
| Pipeline.FactsOneToOne | src/cohort_cli.py:58-69 | the join loses and duplicates no order: fct is the orders in order, each with its customer's cohort month and offset |
| Pipeline.FactOffsetsNonNegative | src/cohort_cli.py:64-66 | with valid dates no months_since_cohort is negative |
| Pipeline.FirstOrderAtOffsetZero | src/cohort_cli.py:58-69 | every customer has an order at offset 0 |
| Pipeline.CohortOfOrderListed | src/cohort_cli.py:67-68 | the cohort row an order is joined to is a row of first_orders |
| Pipeline.FirstOrderRowOfSomeOrder | src/cohort_cli.py:46-55 | every first_orders row is the cohort row of some order |
| Pipeline.JoinedCohortMonths | src/cohort_cli.py:58-69 | orders joined to rows that are exactly the rows of first_orders carry exactly its cohort months |
| Pipeline.FactCohortMonths | src/cohort_cli.py:58-69 | the cohort months of fct are exactly those of first_orders |
| Pipeline.CohortMonthsAgree | src/cohort_cli.py:71-83 | cohort_rev and acq_counts cover the same cohort months |
| Pipeline.RevenueConserved | src/cohort_cli.py:58-76 | cohort_rev sums to the total revenue of the orders |
| Pipeline.NewCustomersTotal | src/cohort_cli.py:46-83 | the new customers of all cohort months add up to the number of distinct customers |
| Pipeline.CohortOffsetsNonNegative | src/cohort_cli.py:58-76 | with valid dates no offset in cohort_rev is negative |
| Pipeline.SummaryRowMeaning | src/cohort_cli.py:95-109 | with well-formed spend months, for every cohort the latest cumulative LTV times new customers is the cohort's revenue, CAC is defined and times new customers is the spend of the records dated in that "YYYY-MM" month, and LTV_to_CAC is their ratio |
| Pipeline.CacIsMonthSpend | src/cohort_cli.py:87-90 | with well-formed spend months, a cohort with customers has a CAC, and CAC × new_customers is the spend of the records whose "YYYY-MM" month is the cohort's |
| Pipeline.MartShape | src/cohort_cli.py:71-83 | a mart's cohort_rev has unique cells and its acq_counts unique months |
| Pipeline.CohortRevenueNonEmpty | src/cohort_cli.py:58-76 | cohort_rev has a row exactly when there is an order |
| Pipeline.RunSucceeds | src/cohort_cli.py:95-107 | a run yields ltv_cum and the Summary sheet exactly when there is at least one order |
| Pipeline.RunCohorts | src/cohort_cli.py:95-108 | a run's ltv_cum and Summary sheet have one row per customer cohort month, ascending |
| Pipeline.RunSummaryRow | src/cohort_cli.py:87-109 | each Summary row: the cohort has a customer; LTV_latest × cohort size = the revenue of its customers' orders; CAC is defined and × cohort size = the spend of the records whose "YYYY-MM" month is the cohort month (spend months well-formed); LTV_to_CAC is their ratio |
| Pipeline.RunLtvNondecreasing | src/cohort_cli.py:95-99 | without negative order revenue a run's cumulative LTV never decreases along a row |

## Left out

- Reading the CSV files, parsing dates and deriving the `YYYY-MM` keys (src/cohort_cli.py:24-30). Dates are given as (year, month, day), and month keys as the index `year*12 + month - 1`. String comparison of `YYYY-MM` keys orders months as the index does.
- No validation of input records (a `MalformedRecord` condition). The source validates nothing. Preconditions (`ValidOrders`, non-negative revenue) state what the lemmas need instead.
- Mart.SpendByMonth: spend months are assumed to be well-formed "YYYY-MM" text, month 01 to 12 (`Mart.ValidSpend`). In the source an ill-formed month such as "2023-13" stays its own text key, which no cohort month matches. Here it would share the key of 2024-01. The lemmas that relate CAC to spend (`Pipeline.SummaryRowMeaning`, `Pipeline.RunSummaryRow`) require `ValidSpend`.
- Mart.AcquisitionCounts: a missing customer_id cannot be represented, because a customer is a string. The same goes for a missing revenue or spend amount, because amounts are exact reals. In the source an empty customer_id reaches the SQL as NULL:
  - `GROUP BY customer_id` (line 54) keeps a NULL group in first_orders;
  - `COUNT(DISTINCT customer_id)` (line 79) counts that group as 0;
  - the `JOIN ... USING (customer_id)` (line 68) drops its orders.

  This is the only way new_customers = 0 arises, the case the `.replace(0, np.nan)` at lines 90 and 97 guards. For such input, neither the count of at least 1 in every acq_counts row nor `Pipeline.RevenueConserved` holds of the source.
- The DuckDB connection, table registration and the `fact_orders` copy (src/cohort_cli.py:34-43). The SQL's meaning is modelled, not the engine.
- `acquisition_channel` (`ANY_VALUE(channel)`, src/cohort_cli.py:52 and 63). It is nondeterministic, and nothing downstream reads it.
- Writing the Excel workbook, column autosizing, the PNG chart and the command line (src/cohort_cli.py:103-105, 111-158).
- Floating point. Amounts are exact reals. NaN and inf become `None`:
  - CAC with 0 new customers (NaN in pandas);
  - per-period LTV without a count (NaN);
  - LTV_to_CAC when CAC is missing (NaN) or 0. Dividing by a CAC of 0 gives ±inf in pandas when LTV_latest is not 0, and NaN when it is 0; this model yields `None` in every such case.
- An orphan order (one whose customer has no cohort row). The inner join drops it, as in the source, and no `OrphanOrder` error is modelled. `Pipeline.FactsOneToOne` proves that no order is orphaned.
- Ltv.LtvTables: the pivot's failure on a duplicated (cohort, offset) cell is modelled as the error `DuplicateCell`, without pandas' message. It cannot occur for a mart's tables (`Mart.CohortRevenueSorted`).
- Summary.Summarize: when `ltv_cum` has no columns the source raises `KeyError` on column 0. It is modelled as the error `MissingLatestColumn`.
- Three behaviours of the code the model keeps:
  - the revenue and acquisition tables are left-merged in `ltv_tables`, not inner-joined;
  - the Summary takes the single largest offset column of `ltv_cum` for every cohort, not each cohort's own largest offset (`Ltv.LtvLatest` shows the value is the same);
  - the Summary has one row per cohort of `ltv_cum`, not per cohort of acq_counts (`Pipeline.CohortMonthsAgree` shows the two sets of cohorts are the same).
