# Shopify ingestion and insights service — a verified model

The service onboards Shopify merchants as *tenants* and copies each tenant's customers, products and orders from the Shopify Admin API into a relational store. It then serves per-tenant dashboard analytics: headline totals, a per-day sales chart, the five biggest spenders and customer growth. This project models the service's core in Dafny and proves what it promises:

- `ShopifyService` and its `syncTenantData`: URL normalisation, the Admin API base URL, and three upsert passes keyed by `(String(id), tenantId)`. The orders pass resolves each order's customer against the customer table as the customers pass left it.
- The analytics controller's four handlers: the `tenantId` guard, the seven-day seeding, the per-day fold, the date sort and the running total.
- The tenant controller: validation, URL normalisation, insertion under the table's unique constraints, mapping of errors to responses, and listing.

Modules, one per file:

| module | file | what it holds |
|---|---|---|
| `Common` | common.dfy | `Option`, the HTTP `Response`, JavaScript truthiness of a string field, `String(n)` for ids |
| `Urls` | urls.dfy | the two normalising regexes, `baseUrl` |
| `Sorting` | sorting.dfy | a stable insertion sort by integer key, standing for `Array.prototype.sort` and `orderBy` |
| `DateDict` | date_dict.dfy | a JavaScript object used as a dictionary keyed by date, with entries in insertion order |
| `Tables` | tables.dfy | a table unique on `(shopifyId, tenantId)`, the keyed upsert, a whole pass of upserts, and what a pass keeps |
| `Store` | store.dfy | the rows of each table, the store state and the `Database` object the handlers mutate |
| `Shopify` | shopify.dfy | the client, the sync as a specification function, the sync method, and sync properties |
| `Analytics` | analytics.dfy | the four analytics handlers and their properties |
| `Tenants` | tenants.dfy | `createTenant` and `getTenants` |

Modelling conventions:

- Timestamps are integer day numbers, and "today" is a parameter. The `toISOString().split('T')[0]` date key of a timestamp is therefore the day number itself.
- Money is integer cents.
- The moment a sync runs is a parameter `now`.
- The Shopify shop is a function from the request's base URL and access token to the three fetch results. Each result is `Fetched(items)` or `FetchFailed(message)`.
- A database failure other than a unique-key violation is a `fault` flag on the handler.
- A query parameter or body field is `Option<string>`. It counts as missing when it is `None` or the empty string, as JavaScript's `!value` does for strings.

## Model

| member | source | states |
|---|---|---|
| Common.NatToString | server/src/services/shopify.js:60 | `String(id)` of a natural is a non-empty string of decimal digits, one digit exactly for ids below 10 |
| Common.NatToStringInjective | server/src/services/shopify.js:60 | distinct ids give distinct `shopifyId` strings, so `(String(id), tenantId)` keys identify records |
| Urls.StripProtocol | server/src/services/shopify.js:7 | removes exactly one leading `https://` or `http://` (case-sensitive) and otherwise leaves the URL alone |
| Urls.StripTrailingSlash | server/src/services/shopify.js:7 | removes exactly one trailing `/`, when present |
| Urls.Normalize | server/src/services/shopify.js:7 | normalising never lengthens the URL |
| Urls.NormalizeUndecorates | server/src/controllers/tenant.js:16 | a host typed with or without `http://`/`https://` and with or without a trailing slash normalises to the bare host |
| Urls.NormalizeStripsOneProtocol | server/src/services/shopify.js:7 | only one protocol is stripped: `https://https://h` normalises to `https://h` |
| Urls.BaseUrl | server/src/services/shopify.js:9 | the base URL is `https://`, then the host, then `/admin/api/2024-01` |
| Sorting.Insert | server/src/controllers/analytics.js:58 | inserting into a sorted list adds exactly that element (multiset) |
| Sorting.SortBy | server/src/controllers/analytics.js:58 | the sort is a permutation of its input |
| Sorting.SortBySorted | server/src/controllers/analytics.js:58 | the sort's output is ordered by the key |
| Sorting.SortByStrictlySorted | server/src/controllers/analytics.js:58 | with pairwise distinct keys the output is strictly ascending |
| Sorting.SortedSplit | server/src/controllers/analytics.js:74-75 | in a sorted list, nothing after position `n` has a smaller key than the element at `n-1` |
| DateDict.IndexOf | server/src/controllers/analytics.js:51 | the lookup finds the first entry with that date (no earlier entry has it), or reports that no entry has it |
| DateDict.LookupIsEntry | server/src/controllers/analytics.js:51-55 | `obj[d]` is defined exactly when some entry has date `d`, and is then an entry's value, the only one's when dates are unique; this is the contract of `DateDict.Has` and `DateDict.Get` |
| DateDict.KeysAgree | server/src/controllers/analytics.js:52 | overwriting a value in place does not change where any date is found |
| DateDict.Put | server/src/controllers/analytics.js:52-55 | assigning `obj[d] = v` keeps dates unique, adds `d` (and only `d`), makes `obj[d]` equal `v`, and leaves every other date's value alone |
| DateDict.Keys | server/src/controllers/analytics.js:115 | `Object.keys` lists the dates in entry order; a date is listed exactly when the object has it, and never twice |
| DateDict.Values | server/src/controllers/analytics.js:58 | `Object.values` lists the values in entry order; with unique dates each value is what its date looks up |
| DateDict.EntryIsLookup | server/src/controllers/analytics.js:58 | with unique dates, every entry's value is what its date looks up |
| Tables.Stamp | server/src/services/shopify.js:120-125 | an insert stores the given `createdAt`, or the time of the insert when none is given |
| Tables.Find | server/src/services/shopify.js:105-107 | `findUnique` on the key finds the first row with that key, or reports that there is none |
| Tables.Upsert | server/src/services/shopify.js:59-76 | an existing row gets the new columns and `updatedAt = now` and keeps its position, id and `createdAt`; otherwise one row is appended with the next id; other rows are unchanged |
| Tables.PassGrows | server/src/services/shopify.js:58-77 | a pass (`Tables.Pass`, the `for…of` of upserts) adds at most one row per write, and each added row consumes exactly one id |
| Tables.LastWrite | server/src/services/shopify.js:58 | a key has a last write exactly when it is written |
| Tables.FirstWrite | server/src/services/shopify.js:58 | a key has a first write exactly when it is written, and that write is one of the writes |
| Tables.PassKeepsRows | server/src/services/shopify.js:58-77 | a pass deletes nothing: every row keeps its position, key, id and `createdAt`; rows whose key is not written are unchanged; new rows carry written keys |
| Tables.PassLastWriteWins | server/src/services/shopify.js:58-77 | after a pass, a written key's row holds the columns of the key's last write and `updatedAt = now`; it is the row that existed before, or a new row whose `createdAt` comes from the first write |
| Tables.PassRowFor | server/src/services/shopify.js:58-77 | when no later write repeats a key, a pass leaves exactly one row with that key, holding that write's columns and `updatedAt = now`, with id and `createdAt` kept or newly set |
| Tables.PassOverPresentKeys | server/src/services/shopify.js:58-77 | a pass whose keys all exist adds no row and consumes no id |
| Tables.PassPreservesUniqueKeys | server/src/services/shopify.js:60 | the `(shopifyId, tenantId)` uniqueness of a table survives a pass |
| Tables.Erase | server/src/services/shopify.js:66 | blanking `updatedAt` changes nothing else |
| Tables.PassIdempotent | server/src/services/shopify.js:58-77 | repeating a pass adds no row and changes no column except `updatedAt` |
| Store.FindTenant | server/src/services/shopify.js:50 | `tenant.findUnique` by id returns a stored tenant with that id, or none when no stored tenant has it |
| Store.Database.constructor | server/src/services/shopify.js:3 | the one store every handler reads and writes through the Prisma client; the constructor gives an empty store that meets every table's unique key, and every handler accepts any store that meets them |
| Shopify.ShopifyService.constructor | server/src/services/shopify.js:6-9 | the client keeps the normalised shop URL and the token, and its base URL is built from the normalised URL |
| Shopify.ServiceBaseUrl | server/src/services/shopify.js:7-9 | the client reaches `https://host/admin/api/2024-01` however the stored URL was decorated |
| Shopify.KeyOf | server/src/services/shopify.js:60 | the `shopifyId_tenantId` key of a record carries the tenant and a non-empty decimal `shopifyId` |
| Shopify.KeyOfInjective | server/src/services/shopify.js:60 | two records of one tenant share an upsert key exactly when they have the same Shopify id |
| Shopify.CustomerWrite | server/src/services/shopify.js:59-75 | a customer upsert is keyed by the customer's id and tenant, writes email, first and last name and `total_spent`, and leaves `createdAt` to the column default |
| Shopify.CustomerWrites | server/src/services/shopify.js:58-76 | one customer upsert per fetched customer, in fetch order |
| Shopify.ProductPrice | server/src/services/shopify.js:87 | a product's price is its first variant's price when there is one, else 0 |
| Shopify.ProductWrite | server/src/services/shopify.js:83-95 | a product upsert is keyed by the product's id and tenant, writes the title and the first variant's price (or 0), and leaves `createdAt` to the column default |
| Shopify.ProductWrites | server/src/services/shopify.js:82-96 | one product upsert per fetched product, in fetch order |
| Shopify.ResolveCustomer | server/src/services/shopify.js:103-109 | an order's `customerId` is null when the order has no customer, or when that customer's `(String(id), tenantId)` row does not exist; otherwise it is that row's id |
| Shopify.OrderWrite | server/src/services/shopify.js:111-128 | an order upsert is keyed by the order's id and tenant, writes price, currency, `processedAt` and the resolved `customerId`, and gives `created_at` as the `createdAt` an insert stores |
| Shopify.OrderWrites | server/src/services/shopify.js:102-129 | one order upsert per fetched order, in fetch order |
| Shopify.FetchFor | server/src/services/shopify.js:53 | the three GETs go to `https://` + the normalised stored URL + `/admin/api/2024-01`, with the tenant's access token |
| Shopify.Sync | server/src/services/shopify.js:49-134 | a missing tenant fails with "Tenant not found" and leaves the store unchanged; the tenant table is never changed; a failed customers fetch changes nothing; a failed sync never writes orders; success means the tenant exists |
| Shopify.SyncTenantData | server/src/services/shopify.js:49-134 | the method's result and new store are those of `Sync`, and the store stays valid |
| Shopify.SyncCustomers | server/src/services/shopify.js:57-77 | the customers loop performs the customers pass |
| Shopify.SyncProducts | server/src/services/shopify.js:81-97 | the products loop performs the products pass |
| Shopify.SyncOrders | server/src/services/shopify.js:101-130 | the orders loop performs the orders pass, with each order's customer resolved as in `ResolveCustomer` |
| Shopify.SyncPreservesValid | server/src/services/shopify.js:58-130 | a sync keeps every table unique on its key |
| Shopify.PassExtends | server/src/services/shopify.js:58-130 | a pass of one tenant's writes deletes nothing, leaves every row whose key it does not write unchanged (other tenants' rows among them), and adds rows only with written keys of that tenant |
| Shopify.Applied | server/src/services/shopify.js:49-130 | the writes a sync issues to each table all carry the synced tenant's id; a pass the sync does not reach issues none |
| Shopify.SyncStaysInTenant | server/src/services/shopify.js:58-130 | whether it completes or stops at a failed fetch, a sync deletes nothing, leaves the tenant table, other tenants' rows and its own tenant's rows for unfetched ids unchanged, and adds rows only for ids it fetched |
| Shopify.EraseState | server/src/services/shopify.js:66 | blanking every `updatedAt` of the store |
| Shopify.OrderWritesAgree | server/src/services/shopify.js:103-109 | order resolution depends only on the customer table's keys and ids |
| Shopify.SyncIdempotent | server/src/services/shopify.js:59-129 | syncing twice against an unchanged shop gives the same result and, apart from `updatedAt`, the same store as syncing once |
| Shopify.SyncCustomerLastWins | server/src/services/shopify.js:58-77 | after a sync, each fetched customer's id has exactly one row, holding the columns of the last occurrence in the fetched list and `updatedAt = now`; an existing row keeps its id and `createdAt`, and a new row is created now |
| Shopify.SyncOrderLastWins | server/src/services/shopify.js:102-130 | after a full sync, each fetched order's id has exactly one row, holding the last occurrence's columns and its resolved `customerId`; `createdAt` is kept on update and set from the first occurrence's `created_at` on insert |
| Analytics.TenantRows | server/src/controllers/analytics.js:9 | `where: { tenantId }` returns exactly the tenant's rows, each as often as it is stored, so its length is the tenant's count |
| Analytics.Query | server/src/controllers/analytics.js:33-37 | the query returns the tenant's rows, reordered |
| Analytics.QueryAscending | server/src/controllers/analytics.js:36 | the query's rows ascend by `createdAt` |
| Analytics.SumPrices | server/src/controllers/analytics.js:11-14 | `_sum` is null exactly over no rows, and is otherwise the sum of the prices |
| Analytics.OrZero | server/src/controllers/analytics.js:20 | the revenue falls back to 0: it is the sum when there is one and 0 when the sum is null |
| Analytics.GetStats | server/src/controllers/analytics.js:3-26 | 400 "Tenant ID is required" without a tenant id; 500 on a database failure; otherwise the tenant's customer count, order count and revenue, with revenue 0 when the tenant has no orders |
| Analytics.GetOrdersByDate | server/src/controllers/analytics.js:28-65 | 400 without a tenant id; 500 on failure; otherwise at least 7 buckets, strictly ascending by date, covering exactly the seven days ending today and the days with orders, each with that day's order count and sales |
| Analytics.SeedSales | server/src/controllers/analytics.js:41-47 | seeding leaves seven empty buckets, one per day of the window |
| Analytics.TallySales | server/src/controllers/analytics.js:49-56 | after the fold, the dictionary holds the window days and the order days, each with that day's count and sales |
| Analytics.SalesValues | server/src/controllers/analytics.js:58 | each value of the folded dictionary is the bucket of its own date, so dates are distinct |
| Analytics.SalesChart | server/src/controllers/analytics.js:58 | sorting the folded dictionary's values gives the chart |
| Analytics.ChartTotals | server/src/controllers/analytics.js:49-56 | the buckets' order counts add up to the number of orders, and their sales to the orders' total |
| Analytics.ChartMatchesStats | server/src/controllers/analytics.js:8-20 | the sales chart and the headline stats agree on the tenant's order count and revenue |
| Analytics.Take | server/src/controllers/analytics.js:75 | `take: 5` keeps the first `min(5, n)` rows |
| Analytics.Top | server/src/controllers/analytics.js:72-76 | `orderBy: { totalSpent: 'desc' }, take: 5` gives `min(5, n)` rows, none listed more often than stored |
| Analytics.TopRanked | server/src/controllers/analytics.js:72-76 | the top list holds `min(5, n)` of the tenant's customers, no customer twice, ranked by `totalSpent` descending |
| Analytics.GetTopCustomers | server/src/controllers/analytics.js:67-83 | 400 without a tenant id; 500 on failure; otherwise `min(5, n)` of the tenant's customers, no customer twice, ranked by `totalSpent` descending |
| Analytics.TopCustomersAreTop | server/src/controllers/analytics.js:72-76 | a customer is left out only when the list is full, and then spent no more than the fifth |
| Analytics.GetCustomersOverTime | server/src/controllers/analytics.js:85-129 | 400 without a tenant id; 500 on failure; otherwise at least 7 points, strictly ascending by date, covering exactly the window and the days with new customers, each with that day's new customers and the running total up to that day |
| Analytics.SeedCounts | server/src/controllers/analytics.js:99-104 | seeding leaves seven zero counts, one per day of the window |
| Analytics.TallyCustomers | server/src/controllers/analytics.js:106-112 | after the fold, the dictionary holds the window days and the creation days, each with that day's number of new customers |
| Analytics.GrowthDays | server/src/controllers/analytics.js:115 | `Object.keys(...).sort()` is strictly ascending, has at least 7 days and includes every dictionary key |
| Analytics.Cumulate | server/src/controllers/analytics.js:114-122 | each point's running total counts the customers created on that point's day and the days before it in the list |
| Analytics.GrowthChart | server/src/controllers/analytics.js:114-122 | over the sorted keys, the running totals are the customers created up to each day |
| Analytics.GrowthPrefixSums | server/src/controllers/analytics.js:114-122 | each `totalCustomers` is the sum of `newCustomers` over that point and all earlier ones |
| Analytics.GrowthTotals | server/src/controllers/analytics.js:114-122 | the running total never decreases, and the last point equals the stats' customer count |
| Common.Truthy | server/src/controllers/analytics.js:6 | a field passes `!x` exactly when it is present and non-empty |
| Tenants.HasRequiredFields | server/src/controllers/tenant.js:9 | passing the check means all four fields are present and non-empty |
| Tenants.Conflicts | server/src/controllers/tenant.js:13-27 | the insert breaks a unique key (P2002) exactly when a stored tenant has the id or the normalised URL |
| Tenants.Create | server/src/controllers/tenant.js:4-30 | 400 "Missing required fields" when any field is missing; 500 "Failed to create tenant" on another failure; 400 "Shopify URL already exists" on an id or normalised-URL collision; all of these leave the table unchanged; otherwise 201 with the tenant (URL normalised, other fields verbatim), and the table grows by exactly it |
| Tenants.CreatePreservesUnique | server/src/controllers/tenant.js:13-20 | registering keeps tenant ids and shop URLs unique |
| Tenants.CreateThenFind | server/src/controllers/tenant.js:13-22 | a tenant just registered is what the sync's tenant lookup finds |
| Tenants.FindTenantAppend | server/src/controllers/tenant.js:13-20 | a newly appended tenant with a fresh id is found by its id |
| Tenants.ReRegisterConflicts | server/src/controllers/tenant.js:25-27 | registering the same host again, with or without a protocol or trailing slash, fails with 400 "Shopify URL already exists" |
| Tenants.CreateTenant | server/src/controllers/tenant.js:4-30 | the method's response and new tenant table are those of `Create`, and the table stays unique |
| Tenants.GetTenants | server/src/controllers/tenant.js:32-39 | 200 with every stored tenant, or 500 "Failed to fetch tenants" |

## Left out

- The React client, the Express wiring (`index.js`, `routes/api.js`, `ingestion.js`) and the operational scripts are not part of this model. Note that `getCustomersOverTime` is modelled although no route registers it.
- The three axios GETs are not modelled as HTTP. The shop is a function of the base URL and token, each fetch either returns its records or fails with the rethrown message, and error logging is left out.
- The client's `limit=250` page size is not modelled: a fetch returns whatever records the shop function gives.
- A database write that fails midway through a pass is not modelled. Only fetch failures abort a sync, keeping the passes already done. Tenant creation and the analytics queries model database failure as one `fault` flag.
- `Number(order.totalPrice)` is floating-point addition. Here money is integer cents and the sums are exact.
- The local-time `setDate` and UTC `toISOString` day derivation are abstracted to integer day numbers, with `today` given.
- Analytics.GetOrdersByDate: the seeded window is exactly the seven days ending today, so the chart has at least 7 points. That holds only while the server's UTC offset stays the same over those seven days (for example with `TZ=UTC`) and the seeding loop does not run across midnight. The code reads the clock in each iteration and takes the UTC date of a local-time date, so across a daylight-saving change two seeds can share one date and the chart can have 6 points.
- Analytics.GetCustomersOverTime: the same assumption holds for its seven seeded days. Otherwise the growth chart can have 6 points.
- Prisma's `undefined` column values (an update that leaves a column alone) are not modelled. A fetched field is always written, possibly as `None`.
- Shopify.Sync: uses one `now` for every `updatedAt` of a sync, where the code reads the clock per upsert.
- Tables.Stamp: assumes the customer and product tables default `createdAt` to the time of the insert, because the schema is not part of this model.
- Tables.Upsert: a newly inserted row gets `updatedAt = now`. The create blocks pass no `updatedAt`, so this assumes the schema's `@updatedAt` default sets it at insert time. `Tables.PassLastWriteWins`, `Tables.PassRowFor`, `Shopify.SyncCustomerLastWins` and `Shopify.SyncOrderLastWins` inherit this assumption for new rows.
- Common.NatToString: Shopify ids are modelled as exact naturals. In JavaScript they are JSON numbers (doubles), which are exact only below 2^53. Above that, distinct ids can round to one value and share a row, and from 10^21 on `String(n)` gives exponent notation. `Common.NatToStringInjective` and `Shopify.KeyOfInjective` hold only for ids below 2^53.
- Tenants.Create: assumes the database assigns the new tenant's id (`newId` is a parameter). It treats an id collision like a URL collision, since both are the same unique-key error.
- Analytics.GetTopCustomers: breaks `totalSpent` ties by storage order (a stable sort). The database leaves tie order unspecified.
- Tenants.GetTenants: returns the tenants in storage order. `findMany()` without `orderBy` promises no order.
- `Object.keys(...).sort()` compares `YYYY-MM-DD` strings. Here it is an integer sort on day numbers, which orders the same way for four-digit years.
- Urls.Normalize: the stored URL still carries a protocol or a trailing slash when the input had two (`https://https://h`, `h//`). This goes against the cleaning's evident aim, a stored URL with no protocol and no trailing slash; the model follows the code (see `Urls.NormalizeStripsOneProtocol`). The client normalises again before building its base URL.
- Each handler is modelled as one atomic step against the store. In the code every upsert and query is its own `await`, so two syncs of one tenant can interleave, a concurrent insert of the same `(shopifyId, tenantId)` can abort a sync with a unique-key error, and an analytics read can see a sync half done. `Shopify.Sync`, `Shopify.SyncIdempotent` and `Shopify.SyncStaysInTenant` hold for runs one after another only.
- The `Promise.all` in `getStats` is modelled as independent reads of one database state.
