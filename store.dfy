/** The relational store behind the server: the Tenant table and the three
    synced tables, each synced table unique on `(shopifyId, tenantId)`. */
module Store {
  import opened Common
  import opened Tables

  datatype Tenant = Tenant(id: TenantId, name: string, shopifyUrl: string, accessToken: string, email: string)

  /** Columns of a Customer row that a sync overwrites. */
  datatype CustomerFields = CustomerFields(email: Option<string>, firstName: Option<string>, lastName: Option<string>, totalSpent: Money)

  /** Columns of a Product row that a sync overwrites. */
  datatype ProductFields = ProductFields(title: string, price: Money)

  /** Columns of an Order row that a sync overwrites; `customerId` is the
      nullable reference to a Customer row's id. */
  datatype OrderFields = OrderFields(totalPrice: Money, currency: string, processedAt: Option<Day>, customerId: Option<RowId>)

  type CustomerRow = Row<CustomerFields>
  type OrderRow = Row<OrderFields>

  datatype DbState = DbState(
    tenants: seq<Tenant>,
    customers: Table<CustomerFields>,
    products: Table<ProductFields>,
    orders: Table<OrderFields>)

  /** The Tenant table's constraints: the id is the primary key and the shop URL is unique. */
  ghost predicate UniqueTenants(ts: seq<Tenant>)
  {
    forall i, j :: 0 <= i < |ts| && 0 <= j < |ts| && i != j ==>
      ts[i].id != ts[j].id && ts[i].shopifyUrl != ts[j].shopifyUrl
  }

  ghost predicate ValidState(s: DbState)
  {
    UniqueTenants(s.tenants) && UniqueKeys(s.customers) && UniqueKeys(s.products) && UniqueKeys(s.orders)
  }

  /** `prisma.tenant.findUnique({ where: { id } })` */
  function FindTenant(ts: seq<Tenant>, id: TenantId): (r: Option<Tenant>)
    ensures r.Some? ==> r.value in ts && r.value.id == id
    ensures r.None? ==> forall t :: t in ts ==> t.id != id
  {
    if ts == [] then None
    else if ts[0].id == id then Some(ts[0])
    else
      assert forall t :: t in ts ==> t == ts[0] || t in ts[1..];
      FindTenant(ts[1..], id)
  }

  /** The store as a mutable object, the way the handlers see the database client. */
  class Database {
    var tenants: seq<Tenant>
    var customers: Table<CustomerFields>
    var products: Table<ProductFields>
    var orders: Table<OrderFields>

    function State(): DbState
      reads this
    {
      DbState(tenants, customers, products, orders)
    }

    ghost predicate Valid()
      reads this
    {
      ValidState(State())
    }

    constructor ()
      ensures Valid()
      ensures State() == DbState([], Table([], 0), Table([], 0), Table([], 0))
    {
      tenants := [];
      customers := Table([], 0);
      products := Table([], 0);
      orders := Table([], 0);
    }
  }
}
