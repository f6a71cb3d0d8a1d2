/** The admin dashboard: the four counters, the monthly earnings chart, the
    pie chart of counts and the table of the five most recent orders. Each
    order's month (0 to 11) and a comparable timestamp of its date are taken
    as given, in place of the date parsing the page performs. */
module Dashboard {
  import opened Catalog

  /** An order's `totalAmount`: a number, or something `Number` cannot turn
      into one (a missing field). */
  datatype Amount = Num(n: int) | Missing

  type Month = m: int | 0 <= m < 12

  datatype AdminOrder = AdminOrder(
    id: string,
    userId: Option<string>,
    userEmail: Option<string>,
    totalAmount: Amount,
    month: Month,
    orderDate: int,
    orderStatus: OrderStatus)

  /** `Number(o.totalAmount) || 0`: what one order adds to the earnings total. */
  function SaleValue(a: Amount): (r: int)
    ensures a.Num? ==> r == a.n
    ensures a.Missing? ==> r == 0
  {
    if a.Num? then a.n else 0
  }

  /** The sum of the orders' sale values, left to right. */
  function SumSales(orders: seq<AdminOrder>): int
    decreases |orders|
  {
    if orders == [] then 0
    else SumSales(orders[..|orders| - 1]) + SaleValue(orders[|orders| - 1].totalAmount)
  }

  /** The "Total Earning" counter: 0 without an order list. */
  function TotalSales(orderList: Option<seq<AdminOrder>>): (r: int)
    ensures orderList.None? ==> r == 0
    ensures orderList.Some? ==> r == SumSales(orderList.value)
  {
    if orderList.None? then 0 else SumSales(orderList.value)
  }

  /** Orders with non-negative amounts give non-negative earnings. */
  lemma {:induction false} SumSalesNonNegative(orders: seq<AdminOrder>)
    requires forall i :: 0 <= i < |orders| ==> SaleValue(orders[i].totalAmount) >= 0
    ensures SumSales(orders) >= 0
    decreases |orders|
  {
    if orders != [] {
      SumSalesNonNegative(orders[..|orders| - 1]);
    }
  }

  /** `order.userId || order.userEmail`: the key the distinct-user count uses;
      None stands for `undefined`. */
  function UserKey(o: AdminOrder): (r: Option<string>)
    ensures Truthy(o.userId) ==> r == o.userId
    ensures !Truthy(o.userId) ==> r == o.userEmail
  {
    if Truthy(o.userId) then o.userId else o.userEmail
  }

  /** The set the `Set` constructor builds from the mapped keys. */
  function UserKeys(orders: seq<AdminOrder>): (r: set<Option<string>>)
    ensures forall k :: k in r <==> exists i :: 0 <= i < |orders| && UserKey(orders[i]) == k
    decreases |orders|
  {
    if orders == [] then {}
    else
      var front := orders[..|orders| - 1];
      var keys := UserKeys(front);
      assert forall i :: 0 <= i < |front| ==> front[i] == orders[i];
      keys + {UserKey(orders[|orders| - 1])}
  }

  /** The "Total Users" counter: distinct keys; `new Set(undefined)` is empty. */
  function UniqueUsers(orderList: Option<seq<AdminOrder>>): (r: nat)
    ensures orderList.None? ==> r == 0
    ensures orderList.Some? ==> r == |UserKeys(orderList.value)|
  {
    if orderList.None? then 0 else |UserKeys(orderList.value)|
  }

  /** There are never more distinct users than orders, and a non-empty list
      has at least one. */
  lemma {:induction false} UniqueUsersBounds(orders: seq<AdminOrder>)
    ensures |UserKeys(orders)| <= |orders|
    ensures orders != [] ==> |UserKeys(orders)| >= 1
    decreases |orders|
  {
    if orders != [] {
      UniqueUsersBounds(orders[..|orders| - 1]);
      assert UserKey(orders[|orders| - 1]) in UserKeys(orders);
    }
  }

  /** One more order adds a user exactly when its key is new: orders by a
      user already counted leave the counter unchanged. */
  lemma NextOrderUserCount(orders: seq<AdminOrder>, o: AdminOrder)
    ensures UserKey(o) in UserKeys(orders) ==> |UserKeys(orders + [o])| == |UserKeys(orders)|
    ensures UserKey(o) !in UserKeys(orders) ==> |UserKeys(orders + [o])| == |UserKeys(orders)| + 1
  {
    var all := orders + [o];
    assert all[..|all| - 1] == orders;
    var keys := UserKeys(orders);
    assert UserKeys(all) == keys + {UserKey(o)};
    if UserKey(o) in keys {
      assert keys + {UserKey(o)} == keys;
    }
  }

  /** A cell of `monthlyEarnings`: a number, or NaN once an order without a
      numeric amount has been added to it. */
  datatype Bucket = Earned(total: int) | NaN

  /** `bucket += amount` in JavaScript arithmetic: NaN absorbs everything. */
  function AddAmount(b: Bucket, a: Amount): (r: Bucket)
    ensures r.Earned? <==> b.Earned? && a.Num?
    ensures r.Earned? ==> r.total == b.total + a.n
  {
    if b.Earned? && a.Num? then Earned(b.total + a.n) else NaN
  }

  /** What the bucket of month `m` holds after the orders are added in turn. */
  function MonthTotal(orders: seq<AdminOrder>, m: int): Bucket
    decreases |orders|
  {
    if orders == [] then Earned(0)
    else
      var last := orders[|orders| - 1];
      var before := MonthTotal(orders[..|orders| - 1], m);
      if last.month == m then AddAmount(before, last.totalAmount) else before
  }

  /** An order of month `m` whose amount is not a number. */
  predicate SpoilsMonth(o: AdminOrder, m: int)
  {
    o.month == m && o.totalAmount.Missing?
  }

  /** The numeric sum of the sale values of month `m`. */
  function MonthSum(orders: seq<AdminOrder>, m: int): int
    decreases |orders|
  {
    if orders == [] then 0
    else
      var last := orders[|orders| - 1];
      MonthSum(orders[..|orders| - 1], m) + (if last.month == m then SaleValue(last.totalAmount) else 0)
  }

  /** A bucket is NaN iff one of its month's orders has no numeric amount;
      otherwise it holds the month's sum. */
  lemma {:induction false} MonthTotalIsSum(orders: seq<AdminOrder>, m: int)
    ensures MonthTotal(orders, m) == NaN <==> exists i :: 0 <= i < |orders| && SpoilsMonth(orders[i], m)
    ensures MonthTotal(orders, m) != NaN ==> MonthTotal(orders, m) == Earned(MonthSum(orders, m))
    decreases |orders|
  {
    if orders != [] {
      var front := orders[..|orders| - 1];
      MonthTotalIsSum(front, m);
      assert forall i :: 0 <= i < |front| ==> front[i] == orders[i];
      if exists i :: 0 <= i < |front| && SpoilsMonth(front[i], m) {
        var i :| 0 <= i < |front| && SpoilsMonth(front[i], m);
        assert SpoilsMonth(orders[i], m);
      }
      if SpoilsMonth(orders[|orders| - 1], m) {
        assert 0 <= |orders| - 1 < |orders|;
      }
    }
  }

  /** The sum of the month sums of months 0 up to k - 1. */
  function SumMonths(orders: seq<AdminOrder>, k: nat): int
    decreases k
  {
    if k == 0 then 0 else SumMonths(orders, k - 1) + MonthSum(orders, k - 1)
  }

  lemma {:induction false} SumMonthsStep(orders: seq<AdminOrder>, k: nat)
    requires orders != []
    ensures var last := orders[|orders| - 1];
            SumMonths(orders, k) ==
            SumMonths(orders[..|orders| - 1], k) + (if last.month < k then SaleValue(last.totalAmount) else 0)
    decreases k
  {
    if k > 0 {
      SumMonthsStep(orders, k - 1);
    }
  }

  /** The twelve buckets together hold the "Total Earning": every order lands
      in exactly one month. */
  lemma {:induction false} MonthsSumToTotalSales(orders: seq<AdminOrder>)
    ensures SumMonths(orders, 12) == SumSales(orders)
    decreases |orders|
  {
    if orders != [] {
      SumMonthsStep(orders, 12);
      MonthsSumToTotalSales(orders[..|orders| - 1]);
    }
  }

  /** The `forEach` that fills the twelve buckets. */
  method MonthlyEarnings(orderList: Option<seq<AdminOrder>>) returns (monthlyEarnings: array<Bucket>)
    ensures fresh(monthlyEarnings) && monthlyEarnings.Length == 12
    ensures orderList.None? ==> forall m :: 0 <= m < 12 ==> monthlyEarnings[m] == Earned(0)
    ensures orderList.Some? ==> forall m :: 0 <= m < 12 ==> monthlyEarnings[m] == MonthTotal(orderList.value, m)
  {
    monthlyEarnings := new Bucket[12](_ => Earned(0));
    if orderList.None? {
      return;
    }
    var orders := orderList.value;
    var i := 0;
    while i < |orders|
      invariant 0 <= i <= |orders|
      invariant forall m :: 0 <= m < 12 ==> monthlyEarnings[m] == MonthTotal(orders[..i], m)
    {
      var order := orders[i];
      assert orders[..i + 1][..i] == orders[..i];
      monthlyEarnings[order.month] := AddAmount(monthlyEarnings[order.month], order.totalAmount);
      i := i + 1;
    }
    assert orders[..i] == orders;
  }

  /** The x-axis labels of the line chart. */
  const MonthNames: seq<string> := ["Jan", "Feb", "Mar", "Apr", "May", "Jun", "Jul", "Aug", "Sep", "Oct", "Nov", "Dec"]

  datatype ChartPoint = ChartPoint(name: string, sales: Bucket)

  /** One point per month, in calendar order, carrying that month's bucket. */
  function LineChartData(monthlyEarnings: seq<Bucket>): (r: seq<ChartPoint>)
    requires |monthlyEarnings| == 12
    ensures |r| == 12
    ensures forall i :: 0 <= i < 12 ==> r[i].sales == monthlyEarnings[i] && r[i].name == MonthNames[i]
  {
    seq(12, i requires 0 <= i < 12 => ChartPoint(MonthNames[i], monthlyEarnings[i]))
  }

  datatype PieSlice = PieSlice(name: string, value: nat)

  /** The pie chart: orders, products and users, in that order. */
  function PieChartData(productList: Option<seq<Product>>, orderList: Option<seq<AdminOrder>>): (r: seq<PieSlice>)
    ensures |r| == 3
    ensures r[0] == PieSlice("Total Orders", Count(orderList))
    ensures r[1] == PieSlice("Total Products", Count(productList))
    ensures r[2] == PieSlice("Total Users", UniqueUsers(orderList))
  {
    [PieSlice("Total Orders", Count(orderList)),
     PieSlice("Total Products", Count(productList)),
     PieSlice("Total Users", UniqueUsers(orderList))]
  }

  /** Newest first. */
  predicate NewestFirst(s: seq<AdminOrder>)
  {
    forall i, j :: 0 <= i < j < |s| ==> s[i].orderDate >= s[j].orderDate
  }

  /** Place `o` before the first order that is not newer than it. */
  function InsertByDate(o: AdminOrder, sorted: seq<AdminOrder>): (r: seq<AdminOrder>)
    requires NewestFirst(sorted)
    ensures |r| == |sorted| + 1
    ensures r[0] == o || (sorted != [] && r[0] == sorted[0])
    ensures NewestFirst(r)
    ensures multiset(r) == multiset(sorted) + multiset{o}
    decreases |sorted|
  {
    if sorted == [] || sorted[0].orderDate <= o.orderDate then [o] + sorted
    else
      var rest := InsertByDate(o, sorted[1..]);
      assert sorted == [sorted[0]] + sorted[1..];
      FirstIsNewest(sorted[0], rest);
      [sorted[0]] + rest
  }

  /** Putting an order no older than the head of a newest-first list in front
      keeps it newest first. */
  lemma FirstIsNewest(x: AdminOrder, rest: seq<AdminOrder>)
    requires NewestFirst(rest)
    requires rest != [] ==> x.orderDate >= rest[0].orderDate
    ensures NewestFirst([x] + rest)
  {
    var r := [x] + rest;
    forall i, j | 0 <= i < j < |r|
      ensures r[i].orderDate >= r[j].orderDate
    {
      if i == 0 {
        assert r[j] == rest[j - 1];
        if j > 1 {
          assert rest[0].orderDate >= rest[j - 1].orderDate;
        }
      } else {
        assert r[i] == rest[i - 1] && r[j] == rest[j - 1];
      }
    }
  }

  /** `slice().sort((a, b) => b.orderDate - a.orderDate)`: a copy of the list,
      newest first, holding the same orders. */
  function SortByDateDesc(orders: seq<AdminOrder>): (r: seq<AdminOrder>)
    ensures NewestFirst(r)
    ensures multiset(r) == multiset(orders)
    ensures |r| == |orders|
    decreases |orders|
  {
    if orders == [] then []
    else
      assert orders == [orders[0]] + orders[1..];
      InsertByDate(orders[0], SortByDateDesc(orders[1..]))
  }

  /** The table's rows: the first five of the sorted copy. */
  function RecentOrders(orderList: Option<seq<AdminOrder>>): (r: seq<AdminOrder>)
    ensures var n := Count(orderList); |r| == (if n < 5 then n else 5)
    ensures NewestFirst(r)
    ensures orderList.Some? ==> multiset(r) <= multiset(orderList.value)
  {
    var orders := if orderList.None? then [] else orderList.value;
    var sorted := SortByDateDesc(orders);
    var r := if |sorted| <= 5 then sorted else sorted[..5];
    assert sorted == r + sorted[|r|..];
    r
  }

  /** No order left out of the table is newer than any order in it. */
  lemma RecentOrdersAreNewest(orders: seq<AdminOrder>, o: AdminOrder)
    requires o in orders
    ensures o in RecentOrders(Some(orders)) ||
            forall x :: x in RecentOrders(Some(orders)) ==> x.orderDate >= o.orderDate
  {
    var sorted := SortByDateDesc(orders);
    var r := RecentOrders(Some(orders));
    assert o in multiset(sorted);
    var j :| 0 <= j < |sorted| && sorted[j] == o;
    if j < |r| {
      assert r == sorted[..|r|];
      assert r[j] == o;
    } else {
      assert r == sorted[..|r|];
      forall x | x in r
        ensures x.orderDate >= o.orderDate
      {
        var i :| 0 <= i < |r| && r[i] == x;
        assert sorted[i] == x;
      }
    }
  }

  /** The User column: the user id, else the e-mail, else "Guest". */
  function UserLabel(o: AdminOrder): (r: string)
    ensures Truthy(o.userId) ==> r == o.userId.value
    ensures !Truthy(o.userId) && Truthy(o.userEmail) ==> r == o.userEmail.value
    ensures !Truthy(o.userId) && !Truthy(o.userEmail) ==> r == "Guest"
    ensures r != ""
  {
    if Truthy(o.userId) then o.userId.value
    else if Truthy(o.userEmail) then o.userEmail.value
    else "Guest"
  }

  datatype StatusColor = Green | Red | Yellow

  /** The status pill: green for confirmed, red for rejected, yellow for any other. */
  function StatusColorOf(status: OrderStatus): (r: StatusColor)
    ensures r == Green <==> status == Confirmed
    ensures r == Red <==> status == Rejected
    ensures r == Yellow <==> status != Confirmed && status != Rejected
  {
    if status == Confirmed then Green else if status == Rejected then Red else Yellow
  }

  /** The pill compares the status string: green exactly for "confirmed", red
      exactly for "rejected". */
  lemma StatusColorOfName(name: string)
    ensures StatusColorOf(StatusFromName(name)) == Green <==> name == "confirmed"
    ensures StatusColorOf(StatusFromName(name)) == Red <==> name == "rejected"
  {
  }
}
