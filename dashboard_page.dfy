/** The Dashboard page: the two chart series drawn from the statistics and
    the order table narrowed by a status filter and a search box. */
module DashboardPage {
  import opened JsValues
  import opened Text
  import opened Seqs
  import Storage

  /** One row of the order table as the page receives it; `items` is the
      stored text column. */
  datatype OrderRow = OrderRow(
    orderNo: string,
    customerName: string,
    items: string,
    orderStatus: string,
    paymentStatus: string)

  /** The status filter passes a row when it is "all" or names the row's
      order status or its payment status. */
  predicate MatchesStatus(o: OrderRow, statusFilter: string) {
    statusFilter == "all" || o.orderStatus == statusFilter || o.paymentStatus == statusFilter
  }

  /** The search passes a row when it is empty or, ignoring case, occurs in
      the customer name, the order number or the items text. */
  predicate MatchesSearch(o: OrderRow, searchFilter: string) {
    var q := Lower(searchFilter);
    searchFilter == ""
    || Contains(Lower(o.customerName), q)
    || Contains(Lower(o.orderNo), q)
    || Contains(Lower(o.items), q)
  }

  /** `filteredOrders`: the rows passing both filters, or none while the
      orders have not arrived. */
  function FilteredOrders(orders: Option<seq<OrderRow>>, statusFilter: string, searchFilter: string): (r: seq<OrderRow>)
    ensures orders.None? ==> r == []
    ensures orders.Some? ==> |r| <= |orders.value|
  {
    match orders
    case None => []
    case Some(rows) =>
      Filter(rows, (o: OrderRow) => MatchesStatus(o, statusFilter) && MatchesSearch(o, searchFilter))
  }

  /** The shown rows keep the table's order, a row is shown exactly when it
      is in the table and passes both filters, and a passing row is shown as
      many times as the table holds it. */
  lemma FilteredOrdersKeepMatches(rows: seq<OrderRow>, statusFilter: string, searchFilter: string)
    ensures IsSubsequence(FilteredOrders(Some(rows), statusFilter, searchFilter), rows)
    ensures forall o ::
      (o in FilteredOrders(Some(rows), statusFilter, searchFilter)
       <==> o in rows && MatchesStatus(o, statusFilter) && MatchesSearch(o, searchFilter))
    ensures forall o: OrderRow ::
      multiset(FilteredOrders(Some(rows), statusFilter, searchFilter))[o]
      == if MatchesStatus(o, statusFilter) && MatchesSearch(o, searchFilter) then multiset(rows)[o] else 0
  {
    var keep := (o: OrderRow) => MatchesStatus(o, statusFilter) && MatchesSearch(o, searchFilter);
    FilterIsSubsequence(rows, keep);
    forall o
      ensures o in FilteredOrders(Some(rows), statusFilter, searchFilter)
        <==> o in rows && MatchesStatus(o, statusFilter) && MatchesSearch(o, searchFilter)
      ensures multiset(FilteredOrders(Some(rows), statusFilter, searchFilter))[o]
        == if MatchesStatus(o, statusFilter) && MatchesSearch(o, searchFilter) then multiset(rows)[o] else 0
    {
      FilterMembers(rows, keep, o);
      FilterCounts(rows, keep, o);
    }
  }

  /** With the status filter on "all" and an empty search every row is shown. */
  lemma UnfilteredShowsAll(rows: seq<OrderRow>)
    ensures FilteredOrders(Some(rows), "all", "") == rows
  {
    FilterAll(rows, (o: OrderRow) => MatchesStatus(o, "all") && MatchesSearch(o, ""));
  }

  /** The search ignores the case of what is typed. */
  lemma SearchIgnoresCase(o: OrderRow, searchFilter: string)
    ensures MatchesSearch(o, Lower(searchFilter)) == MatchesSearch(o, searchFilter)
  {
    LowerIdempotent(searchFilter);
    assert |Lower(searchFilter)| == |searchFilter|;
  }

  const DayLabels: seq<string> := ["Mon", "Tue", "Wed", "Thu", "Fri", "Sat", "Sun"]
  const MonthLabels: seq<string> := ["Jan", "Feb", "Mar", "Apr", "May", "Jun"]

  /** A bar of the orders chart; an index past the label list has no label. */
  datatype DayPoint = DayPoint(day: Option<string>, orders: int)

  /** A point of the sales line. */
  datatype SalesPoint = SalesPoint(month: Option<string>, sales: int)

  function Label(labels: seq<string>, i: nat): Option<string> {
    if i < |labels| then Some(labels[i]) else None
  }

  /** `chartData`: one bar per count, labelled by position (not by the
      actual weekday); nothing while the statistics have not arrived. A count
      is a number, and `value || 0` leaves a number unchanged (0 stays 0). */
  function ChartData(stats: Option<Storage.DashboardStats>): (r: seq<DayPoint>)
    ensures stats.None? ==> r == []
    ensures stats.Some? ==>
      |r| == |stats.value.ordersPerDay|
      && forall i :: 0 <= i < |r| ==> r[i].orders == stats.value.ordersPerDay[i]
    ensures forall i :: 0 <= i < |r| ==> r[i].day == Label(DayLabels, i)
    ensures forall i :: 0 <= i < |r| ==> (r[i].day.Some? <==> i < 7)
  {
    match stats
    case None => []
    case Some(s) =>
      seq(|s.ordersPerDay|, i requires 0 <= i < |s.ordersPerDay| =>
        DayPoint(Label(DayLabels, i), s.ordersPerDay[i]))
  }

  /** `salesData`: one point per month total, labelled by position, with a
      total that is not a number (`NaN`) drawn as 0. */
  function SalesData(stats: Option<Storage.DashboardStats>): (r: seq<SalesPoint>)
    ensures stats.None? ==> r == []
    ensures stats.Some? ==>
      |r| == |stats.value.salesTrend|
      && forall i :: 0 <= i < |r| ==> r[i].sales == OrZero(stats.value.salesTrend[i])
    ensures forall i :: 0 <= i < |r| ==> r[i].month == Label(MonthLabels, i)
    ensures forall i :: 0 <= i < |r| ==> (r[i].month.Some? <==> i < 6)
  {
    match stats
    case None => []
    case Some(s) =>
      seq(|s.salesTrend|, i requires 0 <= i < |s.salesTrend| =>
        SalesPoint(Label(MonthLabels, i), OrZero(s.salesTrend[i])))
  }

  /** For statistics built by the server, the orders chart has a labelled bar
      Mon..Sun for each of the seven days, oldest first, and the sales line a
      labelled point Jan..Jun for each of the six months: so no bar or point is
      ever missing its label. */
  lemma ChartsOfServerStats(orders: seq<Storage.Order>, pendingUserCount: nat, pendingOrderCount: nat,
                            clock: Storage.Clock)
    requires Storage.WellFormedClock(clock) && Storage.Ascending(clock.dayStarts)
    ensures var stats := Storage.Stats(orders, pendingUserCount, pendingOrderCount, clock);
      var days := ChartData(Some(stats));
      var sales := SalesData(Some(stats));
      && |days| == 7
      && (forall i :: 0 <= i < 7 ==>
            days[i].day == Some(DayLabels[i]) && days[i].orders == Storage.DayCount(orders, clock.dayStarts, i))
      && |sales| == 6
      && (forall i :: 0 <= i < 6 ==> sales[i].month == Some(MonthLabels[i]))
  {
    var stats := Storage.Stats(orders, pendingUserCount, pendingOrderCount, clock);
    Storage.StatsShape(orders, pendingUserCount, pendingOrderCount, clock);
    var days := ChartData(Some(stats));
    var sales := SalesData(Some(stats));
    assert |days| == 7 && |sales| == 6;
  }
}
