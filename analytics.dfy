/** The dashboard's analytics endpoints, each scoped to one tenant: headline
    totals, a per-day sales chart, the top spenders and customer growth. */
module Analytics {
  import opened Common
  import opened Tables
  import opened Store
  import opened Sorting
  import opened DateDict

  datatype Stats = Stats(totalCustomers: int, totalOrders: int, totalRevenue: Money)

  /** One point of the sales chart: `{ date, sales, orders }`. */
  datatype Bucket = Bucket(date: Day, sales: Money, orders: int)

  /** One point of the growth chart: `{ date, newCustomers, totalCustomers }`. */
  datatype Growth = Growth(date: Day, newCustomers: int, totalCustomers: int)

  const TenantRequired: string := "Tenant ID is required"

  // ---------------------------------------------------------------------
  // Queries

  /** `where: { tenantId }`: the tenant's rows, in storage order. */
  function TenantRows<P(==, !new)>(rows: seq<Row<P>>, tenantId: TenantId): (r: seq<Row<P>>)
    ensures |r| <= |rows|
    ensures forall x :: x in r <==> x in rows && x.key.tenantId == tenantId
    ensures forall x :: multiset(r)[x] == if x.key.tenantId == tenantId then multiset(rows)[x] else 0
  {
    if rows == [] then []
    else
      var x := rows[|rows| - 1];
      assert rows == rows[..|rows| - 1] + [x];
      assert multiset(rows) == multiset(rows[..|rows| - 1]) + multiset{x};
      var init := TenantRows(rows[..|rows| - 1], tenantId);
      if x.key.tenantId == tenantId then init + [x] else init
  }

  function CreatedAt<P>(r: Row<P>): int
  {
    r.createdAt
  }

  /** `findMany({ where: { tenantId }, orderBy: { createdAt: 'asc' } })` */
  function Query<P(==, !new)>(rows: seq<Row<P>>, tenantId: TenantId): (r: seq<Row<P>>)
    ensures |r| == |TenantRows(rows, tenantId)|
    ensures multiset(r) == multiset(TenantRows(rows, tenantId))
  {
    SortBy(TenantRows(rows, tenantId), CreatedAt)
  }

  lemma QueryAscending<P(!new)>(rows: seq<Row<P>>, tenantId: TenantId)
    ensures SortedBy(Query(rows, tenantId), CreatedAt)
  {
    SortBySorted(TenantRows(rows, tenantId), CreatedAt);
  }

  // ---------------------------------------------------------------------
  // Sums over rows, by creation day

  function One<P>(r: Row<P>): int
  {
    1
  }

  function Price(r: OrderRow): Money
  {
    r.fields.totalPrice
  }

  /** Sum of `w` over the rows. */
  function Total<P>(rows: seq<Row<P>>, w: Row<P> -> int): int
  {
    if rows == [] then 0 else Total(rows[..|rows| - 1], w) + w(rows[|rows| - 1])
  }

  /** Sum of `w` over the rows created on day `d`. */
  function On<P>(rows: seq<Row<P>>, d: Day, w: Row<P> -> int): int
  {
    if rows == [] then 0
    else On(rows[..|rows| - 1], d, w) + if rows[|rows| - 1].createdAt == d then w(rows[|rows| - 1]) else 0
  }

  /** Sum of `w` over the rows created on one of the days `ds`. */
  function In<P>(rows: seq<Row<P>>, ds: seq<Day>, w: Row<P> -> int): int
  {
    if rows == [] then 0
    else In(rows[..|rows| - 1], ds, w) + if rows[|rows| - 1].createdAt in ds then w(rows[|rows| - 1]) else 0
  }

  /** Sum of `w` over the rows created on day `d` or before. */
  function UpTo<P>(rows: seq<Row<P>>, d: Day, w: Row<P> -> int): int
  {
    if rows == [] then 0
    else UpTo(rows[..|rows| - 1], d, w) + if rows[|rows| - 1].createdAt <= d then w(rows[|rows| - 1]) else 0
  }

  /** `Σ k :: On(rows, ds[k], w)` */
  function SumOn<P>(rows: seq<Row<P>>, ds: seq<Day>, w: Row<P> -> int): int
  {
    if ds == [] then 0 else SumOn(rows, ds[..|ds| - 1], w) + On(rows, ds[|ds| - 1], w)
  }

  ghost predicate Increasing(ds: seq<Day>)
  {
    forall i, j :: 0 <= i < j < |ds| ==> ds[i] < ds[j]
  }

  lemma {:induction false} TotalOne<P>(rows: seq<Row<P>>)
    ensures Total(rows, One) == |rows|
  {
    if rows != [] {
      TotalOne(rows[..|rows| - 1]);
    }
  }

  lemma {:induction false} CountNonNegative<P>(rows: seq<Row<P>>, d: Day)
    ensures On(rows, d, One) >= 0
  {
    if rows != [] {
      CountNonNegative(rows[..|rows| - 1], d);
    }
  }

  /** A day on which no row was created sums to zero. */
  lemma {:induction false} EmptyDay<P>(rows: seq<Row<P>>, d: Day, w: Row<P> -> int)
    requires On(rows, d, One) == 0
    ensures On(rows, d, w) == 0
  {
    if rows != [] {
      CountNonNegative(rows[..|rows| - 1], d);
      EmptyDay(rows[..|rows| - 1], d, w);
    }
  }

  /** A day on which some row was created has a positive count. */
  lemma {:induction false} CountPositive<P>(rows: seq<Row<P>>, j: nat)
    requires j < |rows|
    ensures On(rows, rows[j].createdAt, One) > 0
  {
    var init := rows[..|rows| - 1];
    CountNonNegative(init, rows[j].createdAt);
    if j < |rows| - 1 {
      assert init[j] == rows[j];
      CountPositive(init, j);
    }
  }

  lemma {:induction false} InSnoc<P>(rows: seq<Row<P>>, ds: seq<Day>, d: Day, w: Row<P> -> int)
    requires d !in ds
    ensures In(rows, ds + [d], w) == In(rows, ds, w) + On(rows, d, w)
  {
    if rows != [] {
      InSnoc(rows[..|rows| - 1], ds, d, w);
    }
  }

  /** Summing the per-day sums over distinct days sums over the rows of those days. */
  lemma {:induction false} SumOnIsIn<P>(rows: seq<Row<P>>, ds: seq<Day>, w: Row<P> -> int)
    requires Increasing(ds)
    ensures SumOn(rows, ds, w) == In(rows, ds, w)
  {
    if ds == [] {
      InNone(rows, w);
    } else {
      var init := ds[..|ds| - 1];
      SumOnIsIn(rows, init, w);
      assert ds == init + [ds[|ds| - 1]];
      InSnoc(rows, init, ds[|ds| - 1], w);
    }
  }

  lemma {:induction false} InNone<P>(rows: seq<Row<P>>, w: Row<P> -> int)
    ensures In(rows, [], w) == 0
  {
    if rows != [] {
      InNone(rows[..|rows| - 1], w);
    }
  }

  /** Days that cover every row's creation day account for every row. */
  lemma {:induction false} InCovering<P>(rows: seq<Row<P>>, ds: seq<Day>, w: Row<P> -> int)
    requires forall j :: 0 <= j < |rows| ==> rows[j].createdAt in ds
    ensures In(rows, ds, w) == Total(rows, w)
  {
    if rows != [] {
      var init := rows[..|rows| - 1];
      assert forall j :: 0 <= j < |init| ==> init[j] == rows[j];
      InCovering(init, ds, w);
    }
  }

  /** Over increasing days that cover every row's day, the first `k + 1` days
      hold exactly the rows created up to `ds[k]`. */
  lemma {:induction false} InPrefixIsUpTo<P>(rows: seq<Row<P>>, ds: seq<Day>, k: nat, w: Row<P> -> int)
    requires Increasing(ds) && k < |ds|
    requires forall j :: 0 <= j < |rows| ==> rows[j].createdAt in ds
    ensures In(rows, ds[..k + 1], w) == UpTo(rows, ds[k], w)
  {
    if rows != [] {
      var init := rows[..|rows| - 1];
      assert forall j :: 0 <= j < |init| ==> init[j] == rows[j];
      InPrefixIsUpTo(init, ds, k, w);
      var c := rows[|rows| - 1].createdAt;
      assert c in ds[..k + 1] <==> c <= ds[k] by {
        var m :| 0 <= m < |ds| && ds[m] == c;
        if m <= k {
          assert ds[..k + 1][m] == c;
        } else {
          assert ds[k] < ds[m];
        }
      }
    }
  }

  lemma {:induction false} UpToCovering<P>(rows: seq<Row<P>>, d: Day, w: Row<P> -> int)
    requires forall j :: 0 <= j < |rows| ==> rows[j].createdAt <= d
    ensures UpTo(rows, d, w) == Total(rows, w)
  {
    if rows != [] {
      var init := rows[..|rows| - 1];
      assert forall j :: 0 <= j < |init| ==> init[j] == rows[j];
      UpToCovering(init, d, w);
    }
  }

  lemma {:induction false} UpToMonotone<P>(rows: seq<Row<P>>, d1: Day, d2: Day)
    requires d1 <= d2
    ensures UpTo(rows, d1, One) <= UpTo(rows, d2, One)
  {
    if rows != [] {
      UpToMonotone(rows[..|rows| - 1], d1, d2);
    }
  }

  lemma {:induction false} TotalCons<P>(x: Row<P>, s: seq<Row<P>>, w: Row<P> -> int)
    ensures Total([x] + s, w) == w(x) + Total(s, w)
  {
    if s != [] {
      var init := s[..|s| - 1];
      assert ([x] + s)[..|s|] == [x] + init;
      TotalCons(x, init, w);
    }
  }

  lemma {:induction false} TotalInsert<P>(x: Row<P>, s: seq<Row<P>>, w: Row<P> -> int)
    ensures Total(Insert(x, s, CreatedAt), w) == w(x) + Total(s, w)
  {
    if s == [] || x.createdAt <= s[0].createdAt {
      TotalCons(x, s, w);
    } else {
      TotalInsert(x, s[1..], w);
      TotalCons(s[0], Insert(x, s[1..], CreatedAt), w);
      assert s == [s[0]] + s[1..];
      TotalCons(s[0], s[1..], w);
    }
  }

  /** The `orderBy` of a query does not change its totals. */
  lemma {:induction false} TotalSorted<P>(s: seq<Row<P>>, w: Row<P> -> int)
    ensures Total(SortBy(s, CreatedAt), w) == Total(s, w)
  {
    if s != [] {
      TotalSorted(s[1..], w);
      TotalInsert(s[0], SortBy(s[1..], CreatedAt), w);
      assert s == [s[0]] + s[1..];
      TotalCons(s[0], s[1..], w);
    }
  }

  // ---------------------------------------------------------------------
  // getStats

  /** `aggregate({ _sum: { totalPrice: true } })`: null over no rows. */
  function SumPrices(rows: seq<OrderRow>): (r: Option<Money>)
    ensures r.None? <==> rows == []
    ensures r.Some? ==> r.value == Total(rows, Price)
  {
    if rows == [] then None else Some(Total(rows, Price))
  }

  /** `totalRevenue._sum.totalPrice || 0` */
  function OrZero(m: Option<Money>): (r: Money)
    ensures m.None? ==> r == 0
    ensures m.Some? ==> r == m.value
  {
    if m.Some? then m.value else 0
  }

  /** `GET /api/analytics/stats?tenantId=…` */
  function GetStats(s: DbState, tenantId: Option<string>, fault: bool): (r: Response<Stats>)
    ensures !Truthy(tenantId) ==> r == Error(400, TenantRequired)
    ensures Truthy(tenantId) && fault ==> r == Error(500, "Failed to fetch stats")
    ensures Truthy(tenantId) && !fault ==> (r.Ok? && r.status == 200 &&
      r.value.totalCustomers == |TenantRows(s.customers.rows, tenantId.value)| &&
      r.value.totalOrders == |TenantRows(s.orders.rows, tenantId.value)| &&
      r.value.totalRevenue == Total(TenantRows(s.orders.rows, tenantId.value), Price))
    ensures Truthy(tenantId) && !fault && TenantRows(s.orders.rows, tenantId.value) == [] ==> r.value.totalRevenue == 0
  {
    if !Truthy(tenantId) then Error(400, TenantRequired)
    else if fault then Error(500, "Failed to fetch stats")
    else
      var tid := tenantId.value;
      var orders := TenantRows(s.orders.rows, tid);
      Ok(200, Stats(|TenantRows(s.customers.rows, tid)|, |orders|, OrZero(SumPrices(orders))))
  }

  // ---------------------------------------------------------------------
  // getOrdersByDate

  /** The seven days ending today. */
  predicate InWindow(today: Day, d: Day)
  {
    today - 6 <= d <= today
  }

  function BucketDate(b: Bucket): int
  {
    b.date
  }

  /** What the chart of `rows` (the tenant's orders) must be: one bucket per
      day, in ascending order, for every day of the window and every day with
      an order and no other, each carrying that day's order count and sales. */
  ghost predicate ChartOf(rows: seq<OrderRow>, today: Day, bs: seq<Bucket>)
  {
    StrictlySortedBy(bs, BucketDate) &&
    (forall k :: 0 <= k < |bs| ==>
      bs[k].orders == On(rows, bs[k].date, One) && bs[k].sales == On(rows, bs[k].date, Price)) &&
    (forall k :: 0 <= k < |bs| ==> InWindow(today, bs[k].date) || On(rows, bs[k].date, One) > 0) &&
    (forall d :: InWindow(today, d) ==> exists k :: 0 <= k < |bs| && bs[k].date == d) &&
    (forall j :: 0 <= j < |rows| ==> exists k :: 0 <= k < |bs| && bs[k].date == rows[j].createdAt)
  }

  /** `GET /api/analytics/orders-by-date?tenantId=…` on day `today`. */
  method GetOrdersByDate(s: DbState, tenantId: Option<string>, today: Day, fault: bool) returns (r: Response<seq<Bucket>>)
    ensures !Truthy(tenantId) ==> r == Error(400, TenantRequired)
    ensures Truthy(tenantId) && fault ==> r == Error(500, "Failed to fetch orders by date")
    ensures Truthy(tenantId) && !fault ==> (r.Ok? && r.status == 200 &&
      ChartOf(Query(s.orders.rows, tenantId.value), today, r.value) && |r.value| >= 7)
  {
    if !Truthy(tenantId) {
      return Error(400, TenantRequired);
    }
    if fault {
      return Error(500, "Failed to fetch orders by date");
    }
    var orders := Query(s.orders.rows, tenantId.value);
    var salesByDate := SeedSales(today);
    salesByDate := TallySales(orders, today, salesByDate);
    SalesChart(orders, today, salesByDate);
    return Ok(200, SortBy(Values(salesByDate), BucketDate));
  }

  /** Seeds the dictionary with a zero bucket for each of the seven days ending today. */
  method SeedSales(today: Day) returns (m: Dict<Bucket>)
    ensures DistinctKeys(m) && |m| == 7
    ensures forall e :: Has(m, e) <==> InWindow(today, e)
    ensures forall e :: Has(m, e) ==> Get(m, e) == Bucket(e, 0, 0)
  {
    m := [];
    var i := 6;
    while i >= 0
      invariant -1 <= i <= 6
      invariant DistinctKeys(m) && |m| == 6 - i
      invariant forall e :: Has(m, e) <==> today - 6 <= e < today - i
      invariant forall e :: Has(m, e) ==> Get(m, e) == Bucket(e, 0, 0)
      decreases i + 1
    {
      var date := today - i;
      m := Put(m, date, Bucket(date, 0, 0));
      i := i - 1;
    }
  }

  /** `orders.forEach(...)`: each order adds its price and one order to the
      bucket of its creation day, which is created if missing. */
  method TallySales(orders: seq<OrderRow>, today: Day, m0: Dict<Bucket>) returns (m: Dict<Bucket>)
    requires DistinctKeys(m0) && |m0| >= 7
    requires forall e :: Has(m0, e) <==> InWindow(today, e)
    requires forall e :: Has(m0, e) ==> Get(m0, e) == Bucket(e, 0, 0)
    ensures DistinctKeys(m) && |m| >= 7
    ensures forall e :: Has(m, e) <==> InWindow(today, e) || On(orders, e, One) > 0
    ensures forall e :: Has(m, e) ==> Get(m, e) == Bucket(e, On(orders, e, Price), On(orders, e, One))
  {
    m := m0;
    for j := 0 to |orders|
      invariant DistinctKeys(m) && |m| >= 7
      invariant forall e :: Has(m, e) <==> InWindow(today, e) || On(orders[..j], e, One) > 0
      invariant forall e :: Has(m, e) ==> Get(m, e) == Bucket(e, On(orders[..j], e, Price), On(orders[..j], e, One))
    {
      var order := orders[j];
      var date := order.createdAt;
      assert orders[..j + 1][..j] == orders[..j];
      assert forall e :: On(orders[..j + 1], e, Price) == On(orders[..j], e, Price) + if e == date then order.fields.totalPrice else 0;
      CountNonNegative(orders[..j], date);
      if !Has(m, date) {
        EmptyDay(orders[..j], date, Price);
        m := Put(m, date, Bucket(date, 0, 0));
      }
      var b := Get(m, date);
      m := Put(m, date, Bucket(date, b.sales + order.fields.totalPrice, b.orders + 1));
    }
    assert orders[..|orders|] == orders;
  }

  /** Each value of the folded dictionary is the bucket of its key. */
  lemma SalesValues(rows: seq<OrderRow>, m: Dict<Bucket>)
    requires DistinctKeys(m)
    requires forall e :: Has(m, e) ==> Get(m, e) == Bucket(e, On(rows, e, Price), On(rows, e, One))
    ensures forall i :: 0 <= i < |m| ==> Values(m)[i] == Bucket(m[i].0, On(rows, m[i].0, Price), On(rows, m[i].0, One))
    ensures DistinctBy(Values(m), BucketDate)
  {
    forall i | 0 <= i < |m| ensures Values(m)[i] == Bucket(m[i].0, On(rows, m[i].0, Price), On(rows, m[i].0, One)) {
      EntryIsLookup(m, i);
    }
  }

  /** The sorted values of the folded dictionary form the chart. */
  lemma SalesChart(rows: seq<OrderRow>, today: Day, m: Dict<Bucket>)
    requires DistinctKeys(m)
    requires forall e :: Has(m, e) <==> InWindow(today, e) || On(rows, e, One) > 0
    requires forall e :: Has(m, e) ==> Get(m, e) == Bucket(e, On(rows, e, Price), On(rows, e, One))
    ensures ChartOf(rows, today, SortBy(Values(m), BucketDate))
  {
    var vs := Values(m);
    var bs := SortBy(vs, BucketDate);
    SalesValues(rows, m);
    SortByStrictlySorted(vs, BucketDate);
    forall k | 0 <= k < |bs|
      ensures bs[k].orders == On(rows, bs[k].date, One) && bs[k].sales == On(rows, bs[k].date, Price)
      ensures InWindow(today, bs[k].date) || On(rows, bs[k].date, One) > 0
    {
      assert bs[k] in multiset(vs);
      var i :| 0 <= i < |vs| && vs[i] == bs[k];
      assert Has(m, m[i].0);
    }
    forall e | Has(m, e) ensures exists k :: 0 <= k < |bs| && bs[k].date == e {
      var i := IndexOf(m, e).value;
      assert vs[i] in multiset(bs);
      var k :| 0 <= k < |bs| && bs[k] == vs[i];
    }
    forall j | 0 <= j < |rows| ensures Has(m, rows[j].createdAt) {
      CountPositive(rows, j);
    }
  }

  function SumOrders(bs: seq<Bucket>): int
  {
    if bs == [] then 0 else SumOrders(bs[..|bs| - 1]) + bs[|bs| - 1].orders
  }

  function SumSales(bs: seq<Bucket>): Money
  {
    if bs == [] then 0 else SumSales(bs[..|bs| - 1]) + bs[|bs| - 1].sales
  }

  /** The dates of a chart's points, in order. */
  function Dates<T>(xs: seq<T>, date: T -> Day): (ds: seq<Day>)
    ensures |ds| == |xs| && forall k :: 0 <= k < |xs| ==> ds[k] == date(xs[k])
  {
    seq(|xs|, k requires 0 <= k < |xs| => date(xs[k]))
  }

  lemma {:induction false} BucketSums(rows: seq<OrderRow>, bs: seq<Bucket>)
    requires forall k :: 0 <= k < |bs| ==>
      bs[k].orders == On(rows, bs[k].date, One) && bs[k].sales == On(rows, bs[k].date, Price)
    ensures SumOrders(bs) == SumOn(rows, Dates(bs, BucketDate), One)
    ensures SumSales(bs) == SumOn(rows, Dates(bs, BucketDate), Price)
  {
    if bs != [] {
      var init := bs[..|bs| - 1];
      BucketSums(rows, init);
      assert Dates(bs, BucketDate)[..|bs| - 1] == Dates(init, BucketDate);
    }
  }

  /** The chart accounts for every order and every cent of the tenant's orders. */
  lemma ChartTotals(rows: seq<OrderRow>, today: Day, bs: seq<Bucket>)
    requires ChartOf(rows, today, bs)
    ensures SumOrders(bs) == |rows|
    ensures SumSales(bs) == Total(rows, Price)
  {
    var ds := Dates(bs, BucketDate);
    BucketSums(rows, bs);
    SumOnIsIn(rows, ds, One);
    SumOnIsIn(rows, ds, Price);
    forall j | 0 <= j < |rows| ensures rows[j].createdAt in ds {
      var k :| 0 <= k < |bs| && bs[k].date == rows[j].createdAt;
      assert ds[k] == rows[j].createdAt;
    }
    InCovering(rows, ds, One);
    InCovering(rows, ds, Price);
    TotalOne(rows);
  }

  /** The chart and the headline stats agree: its buckets add up to the
      tenant's order count and revenue. */
  lemma ChartMatchesStats(s: DbState, tenantId: TenantId, today: Day, bs: seq<Bucket>)
    requires tenantId != ""
    requires ChartOf(Query(s.orders.rows, tenantId), today, bs)
    ensures SumOrders(bs) == GetStats(s, Some(tenantId), false).value.totalOrders
    ensures SumSales(bs) == GetStats(s, Some(tenantId), false).value.totalRevenue
  {
    ChartTotals(Query(s.orders.rows, tenantId), today, bs);
    TotalSorted(TenantRows(s.orders.rows, tenantId), Price);
  }

  // ---------------------------------------------------------------------
  // getTopCustomers

  const TopCount: nat := 5

  function NegSpent(c: CustomerRow): int
  {
    -c.fields.totalSpent
  }

  function Take<T>(s: seq<T>, n: nat): (r: seq<T>)
    ensures |r| == if |s| < n then |s| else n
    ensures r == s[..|r|]
  {
    if |s| <= n then s else s[..n]
  }

  /** `orderBy: { totalSpent: 'desc' }, take: 5` over the tenant's customers. */
  function Top(all: seq<CustomerRow>): (r: seq<CustomerRow>)
    ensures |r| == if |all| < TopCount then |all| else TopCount
    ensures multiset(r) <= multiset(all)
  {
    var ranked := SortBy(all, NegSpent);
    var top := Take(ranked, TopCount);
    assert ranked == top + ranked[|top|..];
    top
  }

  /** The top list has `min(5, |all|)` of the customers, biggest spenders first. */
  lemma TopRanked(all: seq<CustomerRow>)
    ensures |Top(all)| == if |all| < TopCount then |all| else TopCount
    ensures forall c :: c in Top(all) ==> c in all
    ensures multiset(Top(all)) <= multiset(all)
    ensures forall i, j :: 0 <= i < j < |Top(all)| ==> Top(all)[i].fields.totalSpent >= Top(all)[j].fields.totalSpent
  {
    var ranked := SortBy(all, NegSpent);
    SortBySorted(all, NegSpent);
    var top := Top(all);
    forall c | c in top ensures c in all {
      var k :| 0 <= k < |top| && top[k] == c;
      assert ranked[k] == c;
      assert c in multiset(ranked);
    }
    forall i, j | 0 <= i < j < |top| ensures top[i].fields.totalSpent >= top[j].fields.totalSpent {
      assert NegSpent(ranked[i]) <= NegSpent(ranked[j]);
    }
  }

  /** `GET /api/analytics/top-customers?tenantId=…` */
  function GetTopCustomers(s: DbState, tenantId: Option<string>, fault: bool): (r: Response<seq<CustomerRow>>)
    ensures !Truthy(tenantId) ==> r == Error(400, TenantRequired)
    ensures Truthy(tenantId) && fault ==> r == Error(500, "Failed to fetch top customers")
    ensures Truthy(tenantId) && !fault ==> (r.Ok? && r.status == 200 &&
      var all := TenantRows(s.customers.rows, tenantId.value);
      |r.value| == (if |all| < TopCount then |all| else TopCount) &&
      (forall c :: c in r.value ==> c in all) &&
      multiset(r.value) <= multiset(all) &&
      (forall i, j :: 0 <= i < j < |r.value| ==> r.value[i].fields.totalSpent >= r.value[j].fields.totalSpent))
  {
    if !Truthy(tenantId) then Error(400, TenantRequired)
    else if fault then Error(500, "Failed to fetch top customers")
    else
      var all := TenantRows(s.customers.rows, tenantId.value);
      TopRanked(all);
      Ok(200, Top(all))
  }

  /** No customer of the tenant left out of the top list spent more than the
      last one in it, and a customer is left out only when the list is full. */
  lemma TopCustomersAreTop(s: DbState, tenantId: TenantId, c: CustomerRow)
    requires tenantId != ""
    requires c in TenantRows(s.customers.rows, tenantId)
    requires c !in GetTopCustomers(s, Some(tenantId), false).value
    ensures var top := GetTopCustomers(s, Some(tenantId), false).value;
      |top| == TopCount && c.fields.totalSpent <= top[TopCount - 1].fields.totalSpent
  {
    var all := TenantRows(s.customers.rows, tenantId);
    var ranked := SortBy(all, NegSpent);
    SortBySorted(all, NegSpent);
    assert c in multiset(ranked);
    var k :| 0 <= k < |ranked| && ranked[k] == c;
    assert k >= |Top(all)|;
    assert c in ranked[TopCount..];
    SortedSplit(ranked, NegSpent, TopCount, c);
  }

  // ---------------------------------------------------------------------
  // getCustomersOverTime

  function DayKey(d: Day): int
  {
    d
  }

  /** What the growth chart of `rows` (the tenant's customers) must be: one
      point per day, ascending, for every day of the window and every day a
      customer was created and no other, with the customers created that day
      and the running total up to and including it. */
  ghost predicate GrowthOf(rows: seq<CustomerRow>, today: Day, gs: seq<Growth>)
  {
    (forall i, j :: 0 <= i < j < |gs| ==> gs[i].date < gs[j].date) &&
    (forall k :: 0 <= k < |gs| ==>
      gs[k].newCustomers == On(rows, gs[k].date, One) && gs[k].totalCustomers == UpTo(rows, gs[k].date, One)) &&
    (forall k :: 0 <= k < |gs| ==> InWindow(today, gs[k].date) || On(rows, gs[k].date, One) > 0) &&
    (forall d :: InWindow(today, d) ==> exists k :: 0 <= k < |gs| && gs[k].date == d) &&
    (forall j :: 0 <= j < |rows| ==> exists k :: 0 <= k < |gs| && gs[k].date == rows[j].createdAt)
  }

  /** `getCustomersOverTime` on day `today`. */
  method GetCustomersOverTime(s: DbState, tenantId: Option<string>, today: Day, fault: bool) returns (r: Response<seq<Growth>>)
    ensures !Truthy(tenantId) ==> r == Error(400, TenantRequired)
    ensures Truthy(tenantId) && fault ==> r == Error(500, "Failed to fetch customer growth data")
    ensures Truthy(tenantId) && !fault ==> (r.Ok? && r.status == 200 &&
      GrowthOf(Query(s.customers.rows, tenantId.value), today, r.value) && |r.value| >= 7)
  {
    if !Truthy(tenantId) {
      return Error(400, TenantRequired);
    }
    if fault {
      return Error(500, "Failed to fetch customer growth data");
    }
    var customers := Query(s.customers.rows, tenantId.value);
    var customersByDate := SeedCounts(today);
    customersByDate := TallyCustomers(customers, today, customersByDate);
    GrowthDays(customers, today, customersByDate);
    var dates := SortBy(Keys(customersByDate), DayKey);
    var result := Cumulate(customers, customersByDate, dates);
    GrowthChart(customers, today, customersByDate, dates, result);
    return Ok(200, result);
  }

  /** Seeds the dictionary with a zero count for each of the seven days ending today. */
  method SeedCounts(today: Day) returns (m: Dict<int>)
    ensures DistinctKeys(m) && |m| == 7
    ensures forall e :: Has(m, e) <==> InWindow(today, e)
    ensures forall e :: Has(m, e) ==> Get(m, e) == 0
  {
    m := [];
    var i := 6;
    while i >= 0
      invariant -1 <= i <= 6
      invariant DistinctKeys(m) && |m| == 6 - i
      invariant forall e :: Has(m, e) <==> today - 6 <= e < today - i
      invariant forall e :: Has(m, e) ==> Get(m, e) == 0
      decreases i + 1
    {
      m := Put(m, today - i, 0);
      i := i - 1;
    }
  }

  /** `customers.forEach(...)`: each customer adds one to the count of its creation day. */
  method TallyCustomers(customers: seq<CustomerRow>, today: Day, m0: Dict<int>) returns (m: Dict<int>)
    requires DistinctKeys(m0) && |m0| >= 7
    requires forall e :: Has(m0, e) <==> InWindow(today, e)
    requires forall e :: Has(m0, e) ==> Get(m0, e) == 0
    ensures DistinctKeys(m) && |m| >= 7
    ensures forall e :: Has(m, e) <==> InWindow(today, e) || On(customers, e, One) > 0
    ensures forall e :: Has(m, e) ==> Get(m, e) == On(customers, e, One)
  {
    m := m0;
    for j := 0 to |customers|
      invariant DistinctKeys(m) && |m| >= 7
      invariant forall e :: Has(m, e) <==> InWindow(today, e) || On(customers[..j], e, One) > 0
      invariant forall e :: Has(m, e) ==> Get(m, e) == On(customers[..j], e, One)
    {
      var date := customers[j].createdAt;
      assert customers[..j + 1][..j] == customers[..j];
      CountNonNegative(customers[..j], date);
      if !Has(m, date) {
        m := Put(m, date, 0);
      }
      m := Put(m, date, Get(m, date) + 1);
    }
    assert customers[..|customers|] == customers;
  }

  /** The `map` over the sorted days with its running `cumulative` total. */
  method Cumulate(customers: seq<CustomerRow>, m: Dict<int>, dates: seq<Day>) returns (result: seq<Growth>)
    requires Increasing(dates)
    requires forall k :: 0 <= k < |dates| ==> Has(m, dates[k]) && Get(m, dates[k]) == On(customers, dates[k], One)
    ensures |result| == |dates|
    ensures forall k :: 0 <= k < |dates| ==>
      result[k] == Growth(dates[k], On(customers, dates[k], One), In(customers, dates[..k + 1], One))
  {
    var cumulative := 0;
    result := [];
    InNone(customers, One);
    for k := 0 to |dates|
      invariant |result| == k
      invariant cumulative == In(customers, dates[..k], One)
      invariant forall i :: 0 <= i < k ==>
        result[i] == Growth(dates[i], On(customers, dates[i], One), In(customers, dates[..i + 1], One))
    {
      var date := dates[k];
      var n := Get(m, date);
      assert dates[..k + 1] == dates[..k] + [date];
      InSnoc(customers, dates[..k], date, One);
      cumulative := cumulative + n;
      result := result + [Growth(date, n, cumulative)];
    }
  }

  /** The sorted keys of the folded dictionary: increasing, covering the
      window and every customer's day, each looking up that day's count. */
  lemma GrowthDays(rows: seq<CustomerRow>, today: Day, m: Dict<int>)
    requires DistinctKeys(m) && |m| >= 7
    requires forall e :: Has(m, e) <==> InWindow(today, e) || On(rows, e, One) > 0
    requires forall e :: Has(m, e) ==> Get(m, e) == On(rows, e, One)
    ensures var ds := SortBy(Keys(m), DayKey);
      Increasing(ds) && |ds| >= 7 &&
      (forall k :: 0 <= k < |ds| ==> Has(m, ds[k]) && Get(m, ds[k]) == On(rows, ds[k], One)) &&
      (forall d :: Has(m, d) ==> d in ds)
  {
    var ks := Keys(m);
    var ds := SortBy(ks, DayKey);
    assert DistinctBy(ks, DayKey);
    SortByStrictlySorted(ks, DayKey);
    forall k | 0 <= k < |ds| ensures Has(m, ds[k]) {
      assert ds[k] in multiset(ks);
      var i :| 0 <= i < |ks| && ks[i] == ds[k];
      EntryIsLookup(m, i);
    }
    forall d | Has(m, d) ensures d in ds {
      var i := IndexOf(m, d).value;
      assert ks[i] in multiset(ds);
    }
  }

  lemma GrowthChart(rows: seq<CustomerRow>, today: Day, m: Dict<int>, ds: seq<Day>, gs: seq<Growth>)
    requires Increasing(ds) && |ds| >= 7
    requires forall e :: Has(m, e) <==> InWindow(today, e) || On(rows, e, One) > 0
    requires forall k :: 0 <= k < |ds| ==> Has(m, ds[k])
    requires forall d :: Has(m, d) ==> d in ds
    requires |gs| == |ds|
    requires forall k :: 0 <= k < |ds| ==> gs[k] == Growth(ds[k], On(rows, ds[k], One), In(rows, ds[..k + 1], One))
    ensures GrowthOf(rows, today, gs) && |gs| >= 7
  {
    forall j | 0 <= j < |rows| ensures rows[j].createdAt in ds {
      CountPositive(rows, j);
    }
    forall k | 0 <= k < |ds| ensures gs[k].totalCustomers == UpTo(rows, gs[k].date, One) {
      InPrefixIsUpTo(rows, ds, k, One);
    }
    forall d | InWindow(today, d) ensures exists k :: 0 <= k < |gs| && gs[k].date == d {
      var k :| 0 <= k < |ds| && ds[k] == d;
      assert gs[k].date == d;
    }
    forall j | 0 <= j < |rows| ensures exists k :: 0 <= k < |gs| && gs[k].date == rows[j].createdAt {
      var k :| 0 <= k < |ds| && ds[k] == rows[j].createdAt;
      assert gs[k].date == rows[j].createdAt;
    }
  }

  /** The running total never decreases, and the last point counts every
      customer of the tenant, as the headline stats do. */
  lemma GrowthTotals(s: DbState, tenantId: TenantId, today: Day, gs: seq<Growth>)
    requires tenantId != ""
    requires GrowthOf(Query(s.customers.rows, tenantId), today, gs)
    ensures forall i, j :: 0 <= i < j < |gs| ==> gs[i].totalCustomers <= gs[j].totalCustomers
    ensures |gs| > 0 ==> gs[|gs| - 1].totalCustomers == GetStats(s, Some(tenantId), false).value.totalCustomers
  {
    var rows := Query(s.customers.rows, tenantId);
    forall i, j | 0 <= i < j < |gs| ensures gs[i].totalCustomers <= gs[j].totalCustomers {
      UpToMonotone(rows, gs[i].date, gs[j].date);
    }
    if |gs| > 0 {
      GrowthLast(rows, today, gs);
    }
  }

  /** The last running total counts every row. */
  lemma GrowthLast(rows: seq<CustomerRow>, today: Day, gs: seq<Growth>)
    requires GrowthOf(rows, today, gs) && |gs| > 0
    ensures gs[|gs| - 1].totalCustomers == |rows|
  {
    var last := gs[|gs| - 1].date;
    forall j | 0 <= j < |rows| ensures rows[j].createdAt <= last {
      var k :| 0 <= k < |gs| && gs[k].date == rows[j].createdAt;
    }
    UpToCovering(rows, last, One);
    TotalOne(rows);
  }

  function SumNew(gs: seq<Growth>): int
  {
    if gs == [] then 0 else SumNew(gs[..|gs| - 1]) + gs[|gs| - 1].newCustomers
  }

  function GrowthDate(g: Growth): int
  {
    g.date
  }

  lemma {:induction false} NewSums(rows: seq<CustomerRow>, gs: seq<Growth>)
    requires forall k :: 0 <= k < |gs| ==> gs[k].newCustomers == On(rows, gs[k].date, One)
    ensures SumNew(gs) == SumOn(rows, Dates(gs, GrowthDate), One)
  {
    if gs != [] {
      var init := gs[..|gs| - 1];
      NewSums(rows, init);
      assert Dates(gs, GrowthDate)[..|gs| - 1] == Dates(init, GrowthDate);
    }
  }

  /** Each running total is the sum of `newCustomers` over that point and all
      earlier ones. */
  lemma GrowthPrefixSums(rows: seq<CustomerRow>, today: Day, gs: seq<Growth>, k: nat)
    requires GrowthOf(rows, today, gs) && k < |gs|
    ensures gs[k].totalCustomers == SumNew(gs[..k + 1])
  {
    var ds := Dates(gs, GrowthDate);
    var pre := gs[..k + 1];
    NewSums(rows, pre);
    assert Dates(pre, GrowthDate) == ds[..k + 1];
    SumOnIsIn(rows, ds[..k + 1], One);
    forall j | 0 <= j < |rows| ensures rows[j].createdAt in ds {
      var m :| 0 <= m < |gs| && gs[m].date == rows[j].createdAt;
      assert ds[m] == rows[j].createdAt;
    }
    InPrefixIsUpTo(rows, ds, k, One);
  }
}
