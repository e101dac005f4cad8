/** The tenant endpoints: registering a store (validated, its URL normalised,
    unique on id and URL) and listing the registered stores. */
module Tenants {
  import opened Common
  import opened Urls
  import opened Store

  /** `req.body` of `POST /api/tenants`; an absent field is `None`. */
  datatype TenantBody = TenantBody(name: Option<string>, shopifyUrl: Option<string>, accessToken: Option<string>, email: Option<string>)

  const MissingFields: string := "Missing required fields"
  const UrlExists: string := "Shopify URL already exists"
  const CreateFailed: string := "Failed to create tenant"
  const FetchTenantsFailed: string := "Failed to fetch tenants"

  /** `name && shopifyUrl && accessToken && email` */
  predicate HasRequiredFields(b: TenantBody)
    ensures HasRequiredFields(b) ==> b.name.Some? && b.shopifyUrl.Some? && b.accessToken.Some? && b.email.Some?
    ensures HasRequiredFields(b) ==> b.name.value != "" && b.shopifyUrl.value != "" && b.accessToken.value != "" && b.email.value != ""
  {
    Truthy(b.name) && Truthy(b.shopifyUrl) && Truthy(b.accessToken) && Truthy(b.email)
  }

  /** The insert would break the Tenant table's id key or its unique shop URL
      (Prisma error P2002). */
  predicate Conflicts(ts: seq<Tenant>, id: TenantId, url: string)
    ensures Conflicts(ts, id, url) <==> FindTenant(ts, id).Some? || exists i :: 0 <= i < |ts| && ts[i].shopifyUrl == url
  {
    exists t :: t in ts && (t.id == id || t.shopifyUrl == url)
  }

  /** `createTenant` as a function of the Tenant table: the response and the
      new table. `newId` is the id the database assigns; `fault` stands for any
      other database failure. */
  function Create(ts: seq<Tenant>, b: TenantBody, newId: TenantId, fault: bool): (r: (Response<Tenant>, seq<Tenant>))
    ensures !HasRequiredFields(b) ==> r == (Error(400, MissingFields), ts)
    ensures HasRequiredFields(b) && fault ==> r == (Error(500, CreateFailed), ts)
    ensures HasRequiredFields(b) && !fault && Conflicts(ts, newId, Normalize(b.shopifyUrl.value)) ==>
      r == (Error(400, UrlExists), ts)
    ensures r.0.Ok? <==> HasRequiredFields(b) && !fault && !Conflicts(ts, newId, Normalize(b.shopifyUrl.value))
    ensures r.0.Ok? ==> (r.0.status == 201 &&
      r.0.value == Tenant(newId, b.name.value, Normalize(b.shopifyUrl.value), b.accessToken.value, b.email.value) &&
      r.1 == ts + [r.0.value])
  {
    if !HasRequiredFields(b) then (Error(400, MissingFields), ts)
    else if fault then (Error(500, CreateFailed), ts)
    else
      var t := Tenant(newId, b.name.value, Normalize(b.shopifyUrl.value), b.accessToken.value, b.email.value);
      if Conflicts(ts, t.id, t.shopifyUrl) then (Error(400, UrlExists), ts)
      else (Ok(201, t), ts + [t])
  }

  /** Registering keeps the Tenant table's ids and shop URLs unique. */
  lemma CreatePreservesUnique(ts: seq<Tenant>, b: TenantBody, newId: TenantId, fault: bool)
    requires UniqueTenants(ts)
    ensures UniqueTenants(Create(ts, b, newId, fault).1)
  {
    var r := Create(ts, b, newId, fault);
    if r.0.Ok? {
      var t := r.0.value;
      assert forall i :: 0 <= i < |ts| ==> ts[i] in ts;
      assert forall i :: 0 <= i < |ts| ==> r.1[i] == ts[i];
    }
  }

  /** A registered store can be looked up by its id, so it can be synced. */
  lemma CreateThenFind(ts: seq<Tenant>, b: TenantBody, newId: TenantId, fault: bool)
    requires Create(ts, b, newId, fault).0.Ok?
    ensures FindTenant(Create(ts, b, newId, fault).1, newId) == Some(Create(ts, b, newId, fault).0.value)
  {
    var t := Create(ts, b, newId, fault).0.value;
    FindTenantAppend(ts, t);
  }

  lemma {:induction false} FindTenantAppend(ts: seq<Tenant>, t: Tenant)
    requires forall u :: u in ts ==> u.id != t.id
    ensures FindTenant(ts + [t], t.id) == Some(t)
  {
    if ts != [] {
      assert (ts + [t])[1..] == ts[1..] + [t];
      assert ts[0] in ts;
      assert forall u :: u in ts[1..] ==> u in ts;
      FindTenantAppend(ts[1..], t);
    }
  }

  /** The same store registered again, with or without a protocol or a
      trailing slash, is refused with 400, whatever id it would get. */
  lemma ReRegisterConflicts(ts: seq<Tenant>, b1: TenantBody, id1: TenantId, b2: TenantBody, id2: TenantId,
                            host: string, p1: string, s1: string, p2: string, s2: string)
    requires Host(host)
    requires p1 in {"", Http, Https} && p2 in {"", Http, Https} && s1 in {"", "/"} && s2 in {"", "/"}
    requires b1.shopifyUrl == Some(p1 + host + s1) && b2.shopifyUrl == Some(p2 + host + s2)
    requires Create(ts, b1, id1, false).0.Ok? && HasRequiredFields(b2)
    ensures Create(Create(ts, b1, id1, false).1, b2, id2, false).0 == Error(400, UrlExists)
  {
    NormalizeUndecorates(p1, host, s1);
    NormalizeUndecorates(p2, host, s2);
    var ts1 := Create(ts, b1, id1, false).1;
    assert ts1[|ts|] in ts1;
  }

  /** `POST /api/tenants` against the store `db`. */
  method CreateTenant(db: Database, b: TenantBody, newId: TenantId, fault: bool) returns (r: Response<Tenant>)
    requires db.Valid()
    modifies db`tenants
    ensures db.Valid()
    ensures (r, db.tenants) == Create(old(db.tenants), b, newId, fault)
  {
    CreatePreservesUnique(db.tenants, b, newId, fault);
    if !HasRequiredFields(b) {
      return Error(400, MissingFields);
    }
    if fault {
      return Error(500, CreateFailed);
    }
    var tenant := Tenant(newId, b.name.value, Normalize(b.shopifyUrl.value), b.accessToken.value, b.email.value);
    if Conflicts(db.tenants, tenant.id, tenant.shopifyUrl) {
      return Error(400, UrlExists);
    }
    db.tenants := db.tenants + [tenant];
    return Ok(201, tenant);
  }

  /** `GET /api/tenants`: every registered store, or 500 when the query fails. */
  method GetTenants(db: Database, fault: bool) returns (r: Response<seq<Tenant>>)
    ensures fault ==> r == Error(500, FetchTenantsFailed)
    ensures !fault ==> r == Ok(200, db.tenants)
  {
    if fault {
      return Error(500, FetchTenantsFailed);
    }
    return Ok(200, db.tenants);
  }
}
