/** The verdicts of the four data-quality asset checks. Each check reads a
    few aggregate numbers from warehouse query results and turns them into a
    result: whether it passed, an optional severity and a description. The
    queries themselves are not modelled: each check takes the rows its
    queries returned as parameters. */
module AssetChecks {
  import opened Wrappers
  import opened Text

  datatype Severity = Warn | Error

  /** What a check reports; `severity` is `None` where the source passes no
      severity (or passes `None`). */
  datatype CheckResult = CheckResult(passed: bool, severity: Option<Severity>, description: string)

  /** One row of a query result: its integer columns in SELECT order. */
  type Row = seq<int>

  /** The rows one query returned; possibly none. */
  type QueryResult = seq<Row>

  /** The checks read only the first row, and only the columns their SELECT
      lists, so a first row must carry at least `n` columns. */
  predicate HasColumns(rows: QueryResult, n: nat) {
    rows != [] ==> n <= |rows[0]|
  }

  /** `rows[0][column] if rows else default` */
  function FirstOr(rows: QueryResult, column: nat, default: int): (v: int)
    requires HasColumns(rows, column + 1)
    ensures rows == [] ==> v == default
    ensures rows != [] ==> v == rows[0][column]
  {
    if rows == [] then default else rows[0][column]
  }

  /** A single-count query read the source's way: no rows reads as 0. */
  function Count(rows: QueryResult): (c: int)
    requires HasColumns(rows, 1)
    ensures rows == [] ==> c == 0
    ensures rows != [] ==> c == rows[0][0]
  {
    FirstOr(rows, 0, 0)
  }

  /** The order in which severities escalate: none, then WARN, then ERROR. */
  function Rank(severity: Option<Severity>): nat {
    match severity
    case None => 0
    case Some(Warn) => 1
    case Some(Error) => 2
  }

  /** Severity is reported exactly when the check fails. */
  predicate SeverityOnlyOnFailure(r: CheckResult) {
    r.severity.None? <==> r.passed
  }

  // ---------------------------------------------------------------------
  // customer_metrics_quality_check

  /** A failing customer-metrics check escalates from WARN to ERROR once the
      three counts add up to this many. */
  const CustomerMetricsErrorTotal := 10

  const CustomerMetricsPassedText := "All customer metrics quality checks passed"

  function CustomerMetricsFailedText(nullKeys: int, invalidBalances: int, logicErrors: int): string {
    "Quality issues found: " + IntToString(nullKeys) + " null keys, "
    + IntToString(invalidBalances) + " invalid balances, "
    + IntToString(logicErrors) + " logic errors"
  }

  /** The verdict on the counts of null customer keys, of negative balances
      with positive spend, and of customers in the wrong value segment. */
  function CustomerMetricsQualityCheck(nullKeysRows: QueryResult, invalidBalancesRows: QueryResult,
                                       logicErrorsRows: QueryResult): (r: CheckResult)
    requires HasColumns(nullKeysRows, 1) && HasColumns(invalidBalancesRows, 1) && HasColumns(logicErrorsRows, 1)
    ensures var nullKeys, invalidBalances, logicErrors := Count(nullKeysRows), Count(invalidBalancesRows), Count(logicErrorsRows);
      && (r.passed <==> nullKeys == 0 && invalidBalances == 0 && logicErrors == 0)
      && SeverityOnlyOnFailure(r)
      && (!r.passed ==> (r.severity == Some(Warn) <==> nullKeys + invalidBalances + logicErrors < CustomerMetricsErrorTotal))
      && (!r.passed ==> (r.severity == Some(Error) <==> nullKeys + invalidBalances + logicErrors >= CustomerMetricsErrorTotal))
      && r.description == if r.passed then CustomerMetricsPassedText
                          else CustomerMetricsFailedText(nullKeys, invalidBalances, logicErrors)
  {
    var nullKeys := Count(nullKeysRows);
    var invalidBalances := Count(invalidBalancesRows);
    var logicErrors := Count(logicErrorsRows);
    var passed := nullKeys == 0 && invalidBalances == 0 && logicErrors == 0;
    if passed then
      CheckResult(true, None, CustomerMetricsPassedText)
    else
      CheckResult(false,
                  Some(if nullKeys + invalidBalances + logicErrors < CustomerMetricsErrorTotal then Warn else Error),
                  CustomerMetricsFailedText(nullKeys, invalidBalances, logicErrors))
  }

  /** Among failing customer-metrics results, a larger total of problems
      never gets a lower severity. */
  lemma CustomerMetricsSeverityEscalates(a1: QueryResult, b1: QueryResult, c1: QueryResult,
                                         a2: QueryResult, b2: QueryResult, c2: QueryResult)
    requires HasColumns(a1, 1) && HasColumns(b1, 1) && HasColumns(c1, 1)
    requires HasColumns(a2, 1) && HasColumns(b2, 1) && HasColumns(c2, 1)
    requires !CustomerMetricsQualityCheck(a1, b1, c1).passed && !CustomerMetricsQualityCheck(a2, b2, c2).passed
    requires Count(a1) + Count(b1) + Count(c1) <= Count(a2) + Count(b2) + Count(c2)
    ensures Rank(CustomerMetricsQualityCheck(a1, b1, c1).severity) <= Rank(CustomerMetricsQualityCheck(a2, b2, c2).severity)
  {
  }

  // ---------------------------------------------------------------------
  // order_analytics_quality_check

  function OrderAnalyticsText(invalidTotals: int, ordersNoItems: int, invalidDiscounts: int): string {
    "Order analytics check: " + IntToString(invalidTotals) + " invalid totals, "
    + IntToString(ordersNoItems) + " orders without items, "
    + IntToString(invalidDiscounts) + " invalid discounts"
  }

  /** The verdict on the counts of non-positive order totals, of orders
      without line items and of discounts outside [0, 1]. */
  function OrderAnalyticsQualityCheck(invalidTotalsRows: QueryResult, ordersNoItemsRows: QueryResult,
                                      invalidDiscountsRows: QueryResult): (r: CheckResult)
    requires HasColumns(invalidTotalsRows, 1) && HasColumns(ordersNoItemsRows, 1) && HasColumns(invalidDiscountsRows, 1)
    ensures var invalidTotals, ordersNoItems, invalidDiscounts := Count(invalidTotalsRows), Count(ordersNoItemsRows), Count(invalidDiscountsRows);
      && (r.passed <==> invalidTotals + ordersNoItems + invalidDiscounts == 0)
      && (r.severity == Some(Error) <==> invalidTotals + ordersNoItems + invalidDiscounts > 0)
      && r.severity != Some(Warn)
      && r.description == OrderAnalyticsText(invalidTotals, ordersNoItems, invalidDiscounts)
  {
    var invalidTotals := Count(invalidTotalsRows);
    var ordersNoItems := Count(ordersNoItemsRows);
    var invalidDiscounts := Count(invalidDiscountsRows);
    var issues := invalidTotals + ordersNoItems + invalidDiscounts;
    CheckResult(issues == 0, if issues > 0 then Some(Error) else None,
                OrderAnalyticsText(invalidTotals, ordersNoItems, invalidDiscounts))
  }

  /** The source tests `issues == 0` for passing but `issues > 0` for the
      severity, so the two agree only because COUNT(*) is never negative. */
  lemma OrderAnalyticsSeverityOnlyOnFailure(invalidTotalsRows: QueryResult, ordersNoItemsRows: QueryResult,
                                            invalidDiscountsRows: QueryResult)
    requires HasColumns(invalidTotalsRows, 1) && HasColumns(ordersNoItemsRows, 1) && HasColumns(invalidDiscountsRows, 1)
    requires Count(invalidTotalsRows) >= 0 && Count(ordersNoItemsRows) >= 0 && Count(invalidDiscountsRows) >= 0
    ensures SeverityOnlyOnFailure(OrderAnalyticsQualityCheck(invalidTotalsRows, ordersNoItemsRows, invalidDiscountsRows))
  {
  }

  // ---------------------------------------------------------------------
  // daily_sales_completeness_check

  /** What `days_behind` reads as when its query returns no rows. */
  const MissingDaysBehind := 999

  /** Data this many days behind (or fewer) is still fresh. */
  const FreshDaysBehind := 3

  /** This many zero-revenue days (or more) make the data invalid. */
  const ZeroRevenueDaysLimit := 30

  function DailySalesText(daysBehind: int, zeroRevenueDays: int, negativeMetrics: int): string {
    "Data freshness: " + IntToString(daysBehind) + " days behind, "
    + IntToString(zeroRevenueDays) + " zero-revenue days, "
    + IntToString(negativeMetrics) + " negative metrics"
  }

  /** `days_behind` read the source's way: no rows reads as 999. */
  function DaysBehind(rows: QueryResult): (d: int)
    requires HasColumns(rows, 1)
    ensures rows == [] ==> d == MissingDaysBehind && !IsFresh(d)
    ensures rows != [] ==> d == rows[0][0]
  {
    FirstOr(rows, 0, MissingDaysBehind)
  }

  predicate IsFresh(daysBehind: int) {
    daysBehind <= FreshDaysBehind
  }

  predicate HasValidData(zeroRevenueDays: int, negativeMetrics: int) {
    zeroRevenueDays < ZeroRevenueDaysLimit && negativeMetrics == 0
  }

  /** The verdict on how many days the summary lags today, how many days
      show zero revenue and how many rows hold a negative metric. Invalid
      data is an ERROR whether or not it is also stale; stale but valid data
      is a WARN. */
  function DailySalesCompletenessCheck(daysBehindRows: QueryResult, zeroRevenueRows: QueryResult,
                                       negativeMetricsRows: QueryResult): (r: CheckResult)
    requires HasColumns(daysBehindRows, 1) && HasColumns(zeroRevenueRows, 1) && HasColumns(negativeMetricsRows, 1)
    ensures var daysBehind, zeroRevenueDays, negativeMetrics := DaysBehind(daysBehindRows), Count(zeroRevenueRows), Count(negativeMetricsRows);
      && (r.passed <==> daysBehind <= 3 && zeroRevenueDays < 30 && negativeMetrics == 0)
      && (r.severity == Some(Error) <==> !HasValidData(zeroRevenueDays, negativeMetrics))
      && (r.severity == Some(Warn) <==> HasValidData(zeroRevenueDays, negativeMetrics) && !IsFresh(daysBehind))
      && SeverityOnlyOnFailure(r)
      && r.description == DailySalesText(daysBehind, zeroRevenueDays, negativeMetrics)
  {
    var daysBehind := DaysBehind(daysBehindRows);
    var zeroRevenueDays := Count(zeroRevenueRows);
    var negativeMetrics := Count(negativeMetricsRows);
    var isFresh := IsFresh(daysBehind);
    var hasValidData := HasValidData(zeroRevenueDays, negativeMetrics);
    var severity := if !hasValidData then Some(Error) else if !isFresh then Some(Warn) else None;
    CheckResult(isFresh && hasValidData, severity, DailySalesText(daysBehind, zeroRevenueDays, negativeMetrics))
  }

  // ---------------------------------------------------------------------
  // Empty query results

  /** No rows reads as a count of 0, so three empty count queries pass;
      but no rows for `days_behind` reads as 999 days, which is never fresh. */
  lemma EmptyResultsReadAsDefaults(zeroRevenueRows: QueryResult, negativeMetricsRows: QueryResult)
    requires HasColumns(zeroRevenueRows, 1) && HasColumns(negativeMetricsRows, 1)
    ensures CustomerMetricsQualityCheck([], [], []) == CheckResult(true, None, CustomerMetricsPassedText)
    ensures OrderAnalyticsQualityCheck([], [], []).passed && OrderAnalyticsQualityCheck([], [], []).severity == None
    ensures !DailySalesCompletenessCheck([], zeroRevenueRows, negativeMetricsRows).passed
    ensures HasValidData(Count(zeroRevenueRows), Count(negativeMetricsRows))
            ==> DailySalesCompletenessCheck([], zeroRevenueRows, negativeMetricsRows).severity == Some(Warn)
  {
  }

  // ---------------------------------------------------------------------
  // business_kpis_validation_check

  const NoSourceDataText := "Could not retrieve source data for validation"
  const NoCustomersIssue := "No customers found"
  const HighValueExceedsTotalIssue := "High value customers exceed total customers"
  const NoIssuesText := "All checks passed"

  /** The issues the two consistency tests find, in the order they are
      tested: no customers at all, then more high-value customers than
      customers. */
  function KpiIssues(totalCustomers: int, highValueCustomers: int): (issues: seq<string>)
    ensures NoCustomersIssue in issues <==> totalCustomers == 0
    ensures HighValueExceedsTotalIssue in issues <==> highValueCustomers > totalCustomers
    ensures forall i :: 0 <= i < |issues| ==> issues[i] == NoCustomersIssue || issues[i] == HighValueExceedsTotalIssue
    ensures |issues| <= 2
    ensures |issues| == 2 ==> issues == [NoCustomersIssue, HighValueExceedsTotalIssue]
  {
    (if totalCustomers == 0 then [NoCustomersIssue] else [])
    + (if highValueCustomers > totalCustomers then [HighValueExceedsTotalIssue] else [])
  }

  /** The description reports how many issues there are and then lists them,
      comma-separated, or says that all checks passed. */
  function KpiDescription(issues: seq<string>): (d: string)
    ensures issues == [] ==> d == "KPI validation: 0 issues found: " + NoIssuesText
    ensures |issues| == 1 ==> d == "KPI validation: 1 issues found: " + issues[0]
  {
    assert NatToString(0) == "0" && NatToString(1) == "1";
    "KPI validation: " + NatToString(|issues|) + " issues found: "
    + (if issues != [] then Join(issues, ", ") else NoIssuesText)
  }

  /** The verdict on the first row of the customer-count query: its total
      and its count of high-value customers. No rows at all fails with
      ERROR before any other test. */
  function BusinessKpisValidation(sourceRows: QueryResult): (r: CheckResult)
    requires HasColumns(sourceRows, 2)
    ensures sourceRows == [] ==> r == CheckResult(false, Some(Error), NoSourceDataText)
    ensures sourceRows != [] ==>
      var totalCustomers, highValueCustomers := sourceRows[0][0], sourceRows[0][1];
      && (r.passed <==> totalCustomers != 0 && highValueCustomers <= totalCustomers)
      && r.description == KpiDescription(KpiIssues(totalCustomers, highValueCustomers))
    ensures SeverityOnlyOnFailure(r) && r.severity != Some(Warn)
  {
    if sourceRows == [] then
      CheckResult(false, Some(Error), NoSourceDataText)
    else
      var issues := KpiIssues(sourceRows[0][0], sourceRows[0][1]);
      var passed := |issues| == 0;
      CheckResult(passed, if !passed then Some(Error) else None, KpiDescription(issues))
  }

  /** The check as the source runs it: the issues list grows one test at a
      time and `passed` is read off its length. */
  method BusinessKpisValidationCheck(sourceRows: QueryResult) returns (r: CheckResult)
    requires HasColumns(sourceRows, 2)
    ensures r == BusinessKpisValidation(sourceRows)
  {
    if sourceRows == [] {
      return CheckResult(false, Some(Error), NoSourceDataText);
    }
    var totalCustomers := sourceRows[0][0];
    var highValueCustomers := sourceRows[0][1];
    var issues: seq<string> := [];
    if totalCustomers == 0 {
      issues := issues + [NoCustomersIssue];
    }
    if highValueCustomers > totalCustomers {
      issues := issues + [HighValueExceedsTotalIssue];
    }
    var passed := |issues| == 0;
    var summary := if issues != [] then Join(issues, ", ") else NoIssuesText;
    r := CheckResult(passed, if !passed then Some(Error) else None,
                     "KPI validation: " + NatToString(|issues|) + " issues found: " + summary);
  }

  /** Two issues are reported as their count followed by both, comma-separated. */
  lemma KpiTwoIssuesText(first: string, second: string)
    ensures KpiDescription([first, second]) == "KPI validation: 2 issues found: " + first + ", " + second
  {
    assert NatToString(2) == "2";
  }

  /** With no customers and a positive high-value count both tests fire,
      and the description lists them in order. */
  lemma KpiBothIssuesDescription(highValueCustomers: int)
    requires highValueCustomers > 0
    ensures BusinessKpisValidation([[0, highValueCustomers]]).description
            == "KPI validation: 2 issues found: " + NoCustomersIssue + ", " + HighValueExceedsTotalIssue
  {
    assert KpiIssues(0, highValueCustomers) == [NoCustomersIssue, HighValueExceedsTotalIssue];
    KpiTwoIssuesText(NoCustomersIssue, HighValueExceedsTotalIssue);
  }
}
