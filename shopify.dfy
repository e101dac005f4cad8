/** The Shopify client and the tenant sync: look the tenant up, build a
    client from its normalised shop URL and token, then upsert customers,
    products and orders, in that order, keyed by `(String(id), tenantId)`. */
module Shopify {
  import opened Common
  import opened Urls
  import opened Tables
  import opened Store

  /** The records the Admin API returns, with the fields the sync reads. */
  datatype ShopifyCustomer = ShopifyCustomer(id: nat, email: Option<string>, firstName: Option<string>, lastName: Option<string>, totalSpent: Money)

  datatype Variant = Variant(price: Option<Money>)

  datatype ShopifyProduct = ShopifyProduct(id: nat, title: string, variants: seq<Variant>)

  datatype CustomerRef = CustomerRef(id: nat)

  datatype ShopifyOrder = ShopifyOrder(
    id: nat, totalPrice: Money, currency: string,
    processedAt: Option<Day>, createdAt: Day, customer: Option<CustomerRef>)

  /** One GET: the records, or the error it was rethrown with. */
  datatype Fetch<T> = Fetched(items: seq<T>) | FetchFailed(message: string)

  /** What the shop answers to the customers, products and orders requests. */
  datatype ShopData = ShopData(customers: Fetch<ShopifyCustomer>, products: Fetch<ShopifyProduct>, orders: Fetch<ShopifyOrder>)

  /** The upstream store, as a function of the base URL and access token the requests carry. */
  type Upstream = (string, string) -> ShopData

  datatype SyncResult = Synced | SyncFailed(message: string)

  const TenantNotFound: string := "Tenant not found"

  class ShopifyService {
    const shopUrl: string
    const accessToken: string
    const baseUrl: string

    constructor (shopUrl: string, accessToken: string)
      ensures this.shopUrl == Normalize(shopUrl)
      ensures this.accessToken == accessToken
      ensures this.baseUrl == BaseUrl(this.shopUrl)
    {
      var host := Normalize(shopUrl);
      this.shopUrl := host;
      this.accessToken := accessToken;
      this.baseUrl := BaseUrl(host);
    }
  }

  /** The client reaches the same Admin API root whether the stored URL
      carries a protocol and a trailing slash or not. */
  lemma ServiceBaseUrl(protocol: string, host: string, slash: string)
    requires protocol == "" || protocol == Http || protocol == Https
    requires slash == "" || slash == "/"
    requires Host(host)
    ensures BaseUrl(Normalize(protocol + host + slash)) == Https + host + ApiPath
  {
    NormalizeUndecorates(protocol, host, slash);
  }

  /** The upsert key of a fetched record: `{ shopifyId: String(id), tenantId }`. */
  function KeyOf(id: nat, tenantId: TenantId): (k: Key)
    ensures k.tenantId == tenantId
    ensures 1 <= |k.shopifyId| && forall i :: 0 <= i < |k.shopifyId| ==> '0' <= k.shopifyId[i] <= '9'
  {
    Key(NatToString(id), tenantId)
  }

  /** Within one tenant, two records share an upsert key exactly when they
      have the same Shopify id. */
  lemma KeyOfInjective(a: nat, b: nat, tenantId: TenantId)
    ensures KeyOf(a, tenantId) == KeyOf(b, tenantId) <==> a == b
  {
    if KeyOf(a, tenantId) == KeyOf(b, tenantId) {
      NatToStringInjective(a, b);
    }
  }

  /** The upsert of one fetched customer; `createdAt` is left to the column default. */
  function CustomerWrite(c: ShopifyCustomer, tenantId: TenantId): (w: Write<CustomerFields>)
    ensures w.key == KeyOf(c.id, tenantId) && w.createdAt.None?
    ensures w.fields.email == c.email && w.fields.firstName == c.firstName && w.fields.lastName == c.lastName
    ensures w.fields.totalSpent == c.totalSpent
  {
    Write(KeyOf(c.id, tenantId), CustomerFields(c.email, c.firstName, c.lastName, c.totalSpent), None)
  }

  function CustomerWrites(cs: seq<ShopifyCustomer>, tenantId: TenantId): (ws: seq<Write<CustomerFields>>)
    ensures |ws| == |cs| && forall i :: 0 <= i < |cs| ==> ws[i] == CustomerWrite(cs[i], tenantId)
  {
    seq(|cs|, i requires 0 <= i < |cs| => CustomerWrite(cs[i], tenantId))
  }

  /** `product.variants[0]?.price || 0` */
  function ProductPrice(p: ShopifyProduct): (price: Money)
    ensures |p.variants| > 0 && p.variants[0].price.Some? ==> price == p.variants[0].price.value
    ensures |p.variants| == 0 || p.variants[0].price.None? ==> price == 0
  {
    if |p.variants| == 0 then 0
    else match p.variants[0].price
      case Some(v) => v
      case None => 0
  }

  /** The upsert of one fetched product; `createdAt` is left to the column default. */
  function ProductWrite(p: ShopifyProduct, tenantId: TenantId): (w: Write<ProductFields>)
    ensures w.key == KeyOf(p.id, tenantId) && w.createdAt.None?
    ensures w.fields.title == p.title && w.fields.price == ProductPrice(p)
  {
    Write(KeyOf(p.id, tenantId), ProductFields(p.title, ProductPrice(p)), None)
  }

  function ProductWrites(ps: seq<ShopifyProduct>, tenantId: TenantId): (ws: seq<Write<ProductFields>>)
    ensures |ws| == |ps| && forall i :: 0 <= i < |ps| ==> ws[i] == ProductWrite(ps[i], tenantId)
  {
    seq(|ps|, i requires 0 <= i < |ps| => ProductWrite(ps[i], tenantId))
  }

  /** The order's `customerId`: null unless the order names a customer whose
      row `(String(customer.id), tenantId)` exists, else that row's id. */
  function ResolveCustomer(customers: Table<CustomerFields>, tenantId: TenantId, ref: Option<CustomerRef>): (r: Option<RowId>)
    ensures r.None? <==> ref.None? || Find(customers.rows, KeyOf(ref.value.id, tenantId)).None?
    ensures r.Some? ==> r.value == customers.rows[Find(customers.rows, KeyOf(ref.value.id, tenantId)).value].id
  {
    match ref
    case None => None
    case Some(c) =>
      match Find(customers.rows, KeyOf(c.id, tenantId))
      case None => None
      case Some(i) => Some(customers.rows[i].id)
  }

  /** `createdAt: new Date(order.created_at)` is written only by the insert;
      an update leaves the stored `createdAt` alone. */
  function OrderWrite(o: ShopifyOrder, tenantId: TenantId, customers: Table<CustomerFields>): (w: Write<OrderFields>)
    ensures w.key == KeyOf(o.id, tenantId) && w.createdAt == Some(o.createdAt)
    ensures w.fields.totalPrice == o.totalPrice && w.fields.currency == o.currency && w.fields.processedAt == o.processedAt
    ensures w.fields.customerId == ResolveCustomer(customers, tenantId, o.customer)
  {
    Write(KeyOf(o.id, tenantId),
          OrderFields(o.totalPrice, o.currency, o.processedAt, ResolveCustomer(customers, tenantId, o.customer)),
          Some(o.createdAt))
  }

  function OrderWrites(os: seq<ShopifyOrder>, tenantId: TenantId, customers: Table<CustomerFields>): (ws: seq<Write<OrderFields>>)
    ensures |ws| == |os| && forall i :: 0 <= i < |os| ==> ws[i] == OrderWrite(os[i], tenantId, customers)
  {
    seq(|os|, i requires 0 <= i < |os| => OrderWrite(os[i], tenantId, customers))
  }

  /** What the client built from the tenant's stored URL and token receives. */
  function FetchFor(tenant: Tenant, upstream: Upstream): (d: ShopData)
    ensures d == upstream(Https + Normalize(tenant.shopifyUrl) + ApiPath, tenant.accessToken)
  {
    upstream(BaseUrl(Normalize(tenant.shopifyUrl)), tenant.accessToken)
  }

  /** The sync as a function of the store: the result and the new store. A
      failed fetch aborts the remaining passes and keeps the passes done. */
  function Sync(s: DbState, tenantId: TenantId, upstream: Upstream, now: Day): (r: (SyncResult, DbState))
    ensures FindTenant(s.tenants, tenantId).None? ==> r == (SyncFailed(TenantNotFound), s)
    ensures r.1.tenants == s.tenants
    ensures r.0.Synced? ==> FindTenant(s.tenants, tenantId).Some?
    ensures (FindTenant(s.tenants, tenantId).Some? &&
             FetchFor(FindTenant(s.tenants, tenantId).value, upstream).customers.FetchFailed?) ==>
      r == (SyncFailed(FetchFor(FindTenant(s.tenants, tenantId).value, upstream).customers.message), s)
    ensures r.0.SyncFailed? ==> r.1.orders == s.orders
  {
    match FindTenant(s.tenants, tenantId)
    case None => (SyncFailed(TenantNotFound), s)
    case Some(tenant) =>
      var data := FetchFor(tenant, upstream);
      match data.customers
      case FetchFailed(m) => (SyncFailed(m), s)
      case Fetched(cs) =>
        var s1 := s.(customers := Pass(s.customers, CustomerWrites(cs, tenantId), now));
        match data.products
        case FetchFailed(m) => (SyncFailed(m), s1)
        case Fetched(ps) =>
          var s2 := s1.(products := Pass(s1.products, ProductWrites(ps, tenantId), now));
          match data.orders
          case FetchFailed(m) => (SyncFailed(m), s2)
          case Fetched(os) =>
            (Synced, s2.(orders := Pass(s2.orders, OrderWrites(os, tenantId, s2.customers), now)))
  }

  /** `ShopifyService.syncTenantData(tenantId)` against the store `db`. */
  method SyncTenantData(db: Database, tenantId: TenantId, upstream: Upstream, now: Day) returns (r: SyncResult)
    requires db.Valid()
    modifies db
    ensures db.Valid()
    ensures (r, db.State()) == Sync(old(db.State()), tenantId, upstream, now)
  {
    ghost var s0 := db.State();
    SyncPreservesValid(s0, tenantId, upstream, now);
    var found := FindTenant(db.tenants, tenantId);
    if found.None? {
      return SyncFailed(TenantNotFound);
    }
    var tenant := found.value;
    var service := new ShopifyService(tenant.shopifyUrl, tenant.accessToken);
    var data := upstream(service.baseUrl, service.accessToken);
    assert data == FetchFor(tenant, upstream);

    // 1. Customers
    if data.customers.FetchFailed? {
      return SyncFailed(data.customers.message);
    }
    SyncCustomers(db, data.customers.items, tenantId, now);
    // 2. Products
    if data.products.FetchFailed? {
      return SyncFailed(data.products.message);
    }
    SyncProducts(db, data.products.items, tenantId, now);
    // 3. Orders
    if data.orders.FetchFailed? {
      return SyncFailed(data.orders.message);
    }
    SyncOrders(db, data.orders.items, tenantId, now);
    return Synced;
  }

  /** The customers loop: one upsert per fetched customer, in fetch order. */
  method SyncCustomers(db: Database, customers: seq<ShopifyCustomer>, tenantId: TenantId, now: Day)
    modifies db`customers
    ensures db.customers == Pass(old(db.customers), CustomerWrites(customers, tenantId), now)
  {
    ghost var c0 := db.customers;
    ghost var ws := CustomerWrites(customers, tenantId);
    for i := 0 to |customers|
      invariant db.customers == Pass(c0, ws[..i], now)
    {
      var c := customers[i];
      db.customers := Upsert(db.customers, Write(KeyOf(c.id, tenantId), CustomerFields(c.email, c.firstName, c.lastName, c.totalSpent), None), now);
      assert ws[..i + 1][..i] == ws[..i];
    }
    assert ws[..|customers|] == ws;
  }

  /** The products loop: one upsert per fetched product, in fetch order. */
  method SyncProducts(db: Database, products: seq<ShopifyProduct>, tenantId: TenantId, now: Day)
    modifies db`products
    ensures db.products == Pass(old(db.products), ProductWrites(products, tenantId), now)
  {
    ghost var p0 := db.products;
    ghost var ws := ProductWrites(products, tenantId);
    for i := 0 to |products|
      invariant db.products == Pass(p0, ws[..i], now)
    {
      var p := products[i];
      db.products := Upsert(db.products, Write(KeyOf(p.id, tenantId), ProductFields(p.title, ProductPrice(p)), None), now);
      assert ws[..i + 1][..i] == ws[..i];
    }
    assert ws[..|products|] == ws;
  }

  /** The orders loop: each order's customer is looked up in the customer
      table as the customers pass left it, then the order is upserted. */
  method SyncOrders(db: Database, orders: seq<ShopifyOrder>, tenantId: TenantId, now: Day)
    modifies db`orders
    ensures db.orders == Pass(old(db.orders), OrderWrites(orders, tenantId, db.customers), now)
  {
    ghost var o0 := db.orders;
    ghost var ws := OrderWrites(orders, tenantId, db.customers);
    for i := 0 to |orders|
      invariant db.orders == Pass(o0, ws[..i], now)
    {
      var o := orders[i];
      var customerId: Option<RowId> := None;
      if o.customer.Some? {
        var dbCustomer := Find(db.customers.rows, KeyOf(o.customer.value.id, tenantId));
        if dbCustomer.Some? {
          customerId := Some(db.customers.rows[dbCustomer.value].id);
        }
      }
      assert customerId == ResolveCustomer(db.customers, tenantId, o.customer);
      var w := Write(KeyOf(o.id, tenantId), OrderFields(o.totalPrice, o.currency, o.processedAt, customerId), Some(o.createdAt));
      assert w == ws[i];
      assert ws[..i + 1][..i] == ws[..i];
      db.orders := Upsert(db.orders, w, now);
    }
    assert ws[..|orders|] == ws;
  }

  lemma SyncPreservesValid(s: DbState, tenantId: TenantId, upstream: Upstream, now: Day)
    requires ValidState(s)
    ensures ValidState(Sync(s, tenantId, upstream, now).1)
  {
    if FindTenant(s.tenants, tenantId).Some? {
      var data := FetchFor(FindTenant(s.tenants, tenantId).value, upstream);
      if data.customers.Fetched? {
        var cs := data.customers.items;
        PassPreservesUniqueKeys(s.customers, CustomerWrites(cs, tenantId), now);
        if data.products.Fetched? {
          PassPreservesUniqueKeys(s.products, ProductWrites(data.products.items, tenantId), now);
          if data.orders.Fetched? {
            var c1 := Pass(s.customers, CustomerWrites(cs, tenantId), now);
            PassPreservesUniqueKeys(s.orders, OrderWrites(data.orders.items, tenantId, c1), now);
          }
        }
      }
    }
  }

  /** Every write of a tenant's sync carries that tenant's id. */
  ghost predicate WritesOf<P>(ws: seq<Write<P>>, tenantId: TenantId)
  {
    forall i :: 0 <= i < |ws| ==> ws[i].key.tenantId == tenantId
  }

  /** `r` is `t` after a sync of `tenantId` that wrote the keys `keys`: no row
      deleted or moved, every row keeps its key, id and `createdAt`, rows whose
      key was not written (those of other tenants among them) are untouched,
      and new rows carry written keys of `tenantId`. */
  ghost predicate Extends<P>(t: Table<P>, r: Table<P>, tenantId: TenantId, keys: set<Key>)
  {
    |t.rows| <= |r.rows| &&
    (forall i :: 0 <= i < |t.rows| ==>
      r.rows[i].key == t.rows[i].key && r.rows[i].id == t.rows[i].id && r.rows[i].createdAt == t.rows[i].createdAt) &&
    (forall i :: 0 <= i < |t.rows| && t.rows[i].key !in keys ==> r.rows[i] == t.rows[i]) &&
    (forall i :: 0 <= i < |t.rows| && t.rows[i].key.tenantId != tenantId ==> r.rows[i] == t.rows[i]) &&
    (forall i :: |t.rows| <= i < |r.rows| ==> r.rows[i].key in keys && r.rows[i].key.tenantId == tenantId)
  }

  lemma PassExtends<P>(t: Table<P>, ws: seq<Write<P>>, now: Day, tenantId: TenantId)
    requires WritesOf(ws, tenantId)
    ensures Extends(t, Pass(t, ws, now), tenantId, WriteKeys(ws))
  {
    PassKeepsRows(t, ws, now);
    var r := Pass(t, ws, now);
    forall i | |t.rows| <= i < |r.rows| ensures r.rows[i].key.tenantId == tenantId {
      var j :| 0 <= j < |ws| && ws[j].key == r.rows[i].key;
    }
    forall i | 0 <= i < |t.rows| && t.rows[i].key.tenantId != tenantId ensures r.rows[i] == t.rows[i] {
      assert t.rows[i].key !in WriteKeys(ws);
    }
  }

  /** The writes a sync issues to the customer, product and order tables:
      none for a pass it does not reach. */
  ghost function Applied(s: DbState, tenantId: TenantId, upstream: Upstream, now: Day):
    (ws: (seq<Write<CustomerFields>>, seq<Write<ProductFields>>, seq<Write<OrderFields>>))
    ensures WritesOf(ws.0, tenantId) && WritesOf(ws.1, tenantId) && WritesOf(ws.2, tenantId)
  {
    match FindTenant(s.tenants, tenantId)
    case None => ([], [], [])
    case Some(tenant) =>
      var data := FetchFor(tenant, upstream);
      match data.customers
      case FetchFailed(_) => ([], [], [])
      case Fetched(cs) =>
        var cws := CustomerWrites(cs, tenantId);
        match data.products
        case FetchFailed(_) => (cws, [], [])
        case Fetched(ps) =>
          var pws := ProductWrites(ps, tenantId);
          match data.orders
          case FetchFailed(_) => (cws, pws, [])
          case Fetched(os) => (cws, pws, OrderWrites(os, tenantId, Pass(s.customers, cws, now)))
  }

  /** A sync deletes nothing and touches only the rows of the tenant it syncs
      whose keys it fetched, whether it completes or stops at a failed fetch. */
  lemma SyncStaysInTenant(s: DbState, tenantId: TenantId, upstream: Upstream, now: Day)
    ensures var s' := Sync(s, tenantId, upstream, now).1;
      var ws := Applied(s, tenantId, upstream, now);
      s'.tenants == s.tenants &&
      Extends(s.customers, s'.customers, tenantId, WriteKeys(ws.0)) &&
      Extends(s.products, s'.products, tenantId, WriteKeys(ws.1)) &&
      Extends(s.orders, s'.orders, tenantId, WriteKeys(ws.2))
  {
    var ws := Applied(s, tenantId, upstream, now);
    var s' := Sync(s, tenantId, upstream, now).1;
    assert s'.customers == Pass(s.customers, ws.0, now);
    assert s'.products == Pass(s.products, ws.1, now);
    assert s'.orders == Pass(s.orders, ws.2, now);
    PassExtends(s.customers, ws.0, now, tenantId);
    PassExtends(s.products, ws.1, now, tenantId);
    PassExtends(s.orders, ws.2, now, tenantId);
  }

  /** The store with every `updatedAt` blanked. */
  function EraseState(s: DbState): (e: DbState)
    ensures e.tenants == s.tenants
    ensures e.customers == Erase(s.customers) && e.products == Erase(s.products) && e.orders == Erase(s.orders)
  {
    DbState(s.tenants, Erase(s.customers), Erase(s.products), Erase(s.orders))
  }

  /** Order writes depend on the customer table only through its keys and ids. */
  lemma OrderWritesAgree(os: seq<ShopifyOrder>, tenantId: TenantId, c1: Table<CustomerFields>, c2: Table<CustomerFields>)
    requires |c1.rows| == |c2.rows|
    requires forall i :: 0 <= i < |c1.rows| ==> c2.rows[i].key == c1.rows[i].key && c2.rows[i].id == c1.rows[i].id
    ensures OrderWrites(os, tenantId, c2) == OrderWrites(os, tenantId, c1)
  {
    forall i | 0 <= i < |os| ensures OrderWrite(os[i], tenantId, c2) == OrderWrite(os[i], tenantId, c1) {
      if os[i].customer.Some? {
        var k := KeyOf(os[i].customer.value.id, tenantId);
        FindStable(c1.rows, c2.rows, k);
        FindStable(c2.rows, c1.rows, k);
      }
    }
  }

  /** Syncing twice against an unchanged shop ends as syncing once, but for
      `updatedAt`: the same result, no new row, no other column changed. */
  lemma SyncIdempotent(s: DbState, tenantId: TenantId, upstream: Upstream, now1: Day, now2: Day)
    requires ValidState(s)
    ensures var (r1, s1) := Sync(s, tenantId, upstream, now1);
      var (r2, s2) := Sync(s1, tenantId, upstream, now2);
      r2 == r1 && EraseState(s2) == EraseState(s1)
  {
    var s1 := Sync(s, tenantId, upstream, now1).1;
    var s2 := Sync(s1, tenantId, upstream, now2).1;
    if FindTenant(s.tenants, tenantId).Some? {
      var data := FetchFor(FindTenant(s.tenants, tenantId).value, upstream);
      if data.customers.Fetched? {
        var cws := CustomerWrites(data.customers.items, tenantId);
        PassIdempotent(s.customers, cws, now1, now2);
        if data.products.Fetched? {
          PassIdempotent(s.products, ProductWrites(data.products.items, tenantId), now1, now2);
          if data.orders.Fetched? {
            var c1 := Pass(s.customers, cws, now1);
            var c2 := Pass(c1, cws, now2);
            assert forall i :: 0 <= i < |c1.rows| ==> Erase(c2).rows[i] == Erase(c1).rows[i];
            OrderWritesAgree(data.orders.items, tenantId, c1, c2);
            PassIdempotent(s.orders, OrderWrites(data.orders.items, tenantId, c1), now1, now2);
          }
        }
      }
    }
  }

  /** After a sync that fetched customers `cs`, the tenant has exactly one
      row for the id of `cs[i]` (the last customer with that id): it holds
      that customer's columns and was updated now; it is the row that already
      existed, with its id and `createdAt`, or a new row created now. */
  lemma SyncCustomerLastWins(s: DbState, tenantId: TenantId, upstream: Upstream, now: Day, cs: seq<ShopifyCustomer>, i: nat)
    requires ValidState(s)
    requires FindTenant(s.tenants, tenantId).Some?
    requires FetchFor(FindTenant(s.tenants, tenantId).value, upstream).customers == Fetched(cs)
    requires i < |cs| && forall j :: i < j < |cs| ==> cs[j].id != cs[i].id
    ensures var t := Sync(s, tenantId, upstream, now).1.customers;
      var k := KeyOf(cs[i].id, tenantId);
      Find(t.rows, k).Some? &&
      var n := Find(t.rows, k).value;
      (forall j :: 0 <= j < |t.rows| && t.rows[j].key == k ==> j == n) &&
      t.rows[n].fields == CustomerFields(cs[i].email, cs[i].firstName, cs[i].lastName, cs[i].totalSpent) &&
      t.rows[n].updatedAt == now &&
      match Find(s.customers.rows, k)
      case Some(p) => n == p && t.rows[n].id == s.customers.rows[p].id && t.rows[n].createdAt == s.customers.rows[p].createdAt
      case None => |s.customers.rows| <= n && t.rows[n].createdAt == now
  {
    var ws := CustomerWrites(cs, tenantId);
    forall j | i < j < |ws| ensures ws[j].key != ws[i].key {
      KeyOfInjective(cs[j].id, cs[i].id, tenantId);
    }
    SyncCustomersPass(s, tenantId, upstream, now, cs);
    PassRowFor(s.customers, ws, now, i);
    assert Stamp(FirstWrite(ws, ws[i].key).value, now) == now;
  }

  /** A sync that fetched customers `cs` leaves the customer table as the customers pass does. */
  lemma SyncCustomersPass(s: DbState, tenantId: TenantId, upstream: Upstream, now: Day, cs: seq<ShopifyCustomer>)
    requires FindTenant(s.tenants, tenantId).Some?
    requires FetchFor(FindTenant(s.tenants, tenantId).value, upstream).customers == Fetched(cs)
    ensures Sync(s, tenantId, upstream, now).1.customers == Pass(s.customers, CustomerWrites(cs, tenantId), now)
  {
  }

  /** After a sync that fetched all three lists, the tenant has exactly one
      row for the id of `os[i]` (the last order with that id). Its columns
      are that order's, with `customerId` resolved against the customer table
      as the sync left it; an existing row keeps its id and `createdAt`, and
      a new row takes the `created_at` of the first order `os[f]` with that id. */
  lemma SyncOrderLastWins(s: DbState, tenantId: TenantId, upstream: Upstream, now: Day,
                          cs: seq<ShopifyCustomer>, ps: seq<ShopifyProduct>, os: seq<ShopifyOrder>, i: nat, f: nat)
    requires ValidState(s)
    requires FindTenant(s.tenants, tenantId).Some?
    requires FetchFor(FindTenant(s.tenants, tenantId).value, upstream) == ShopData(Fetched(cs), Fetched(ps), Fetched(os))
    requires i < |os| && forall j :: i < j < |os| ==> os[j].id != os[i].id
    requires f <= i && os[f].id == os[i].id && forall j :: 0 <= j < f ==> os[j].id != os[f].id
    ensures var s' := Sync(s, tenantId, upstream, now).1;
      var t := s'.orders;
      var k := KeyOf(os[i].id, tenantId);
      Find(t.rows, k).Some? &&
      var n := Find(t.rows, k).value;
      (forall j :: 0 <= j < |t.rows| && t.rows[j].key == k ==> j == n) &&
      t.rows[n].fields == OrderFields(os[i].totalPrice, os[i].currency, os[i].processedAt, ResolveCustomer(s'.customers, tenantId, os[i].customer)) &&
      t.rows[n].updatedAt == now &&
      match Find(s.orders.rows, k)
      case Some(p) => n == p && t.rows[n].id == s.orders.rows[p].id && t.rows[n].createdAt == s.orders.rows[p].createdAt
      case None => |s.orders.rows| <= n && t.rows[n].createdAt == os[f].createdAt
  {
    var s' := Sync(s, tenantId, upstream, now).1;
    var ws := OrderWrites(os, tenantId, s'.customers);
    forall j | i < j < |ws| ensures ws[j].key != ws[i].key {
      KeyOfInjective(os[j].id, os[i].id, tenantId);
    }
    forall j | 0 <= j < f ensures ws[j].key != ws[f].key {
      KeyOfInjective(os[j].id, os[f].id, tenantId);
    }
    FirstWriteAt(ws, f);
    assert s'.orders == Pass(s.orders, ws, now);
    PassRowFor(s.orders, ws, now, i);
  }
}
