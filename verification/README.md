# Invoice dashboard: guards, sign-in, invoice actions and reads

A Dafny model of the decision and bookkeeping rules of a small invoice and
customer dashboard. The web framework, the ORM and the authentication
library are replaced as follows:

- the datastore is in memory. The invoices and customers tables are maps from
  id to record in the mutable `Actions.InvoiceStore`, and the read functions
  of `Data` take them as maps (lookups by primary key) or as sequences (what a
  `findMany` enumerates);
- every library call whose internals are not part of the repository becomes a
  parameter:
  - `isEmail`, the email syntax check;
  - `hashMatches`, the bcrypt comparison;
  - `toNumber`, JavaScript's `Number()`, where `None` stands for NaN;
  - `matches`, the ORM's text search;
  - `format`, `formatCurrency`;
  - `collate`, the database collation of names;
  - `fault`, "the datastore call failed";
  - `newId` and `now`, the generated id and the clock.

Modules:

- `Middleware` (middleware.dfy): the request interceptor.
- `AuthConfig` (auth_config.dfy): the `authorized` callback and the session settings.
- `GuardAgreement` (guard_agreement.dfy): how the two guards relate.
- `Auth` (auth.dfy): the user lookup and the `authorize` credential chain.
- `Actions` (actions.dfy): the invoice form schema, `authenticate`'s error mapping, and the class `InvoiceStore` with the create, update and delete actions.
- `Query` (query.dfy): what a `where` filter and an `orderBy` do.
- `Data` (data.dfy): the read side.
- `StoreQueries` (store_queries.dfy): what reads observe after the actions.
- `Schema` (schema.dfy): the records.

Amounts are exact `real`s. Invoices store cents, so `amount * 100` on write
and `amount / 100` on read cancel out exactly. A datastore failure appears as
the thrown message (`Outcome.Raised`) or as the action's "Database Error"
state. The ORM behaviours the model treats as failures are:

- updating or deleting an id that is not in the table;
- writing a `customerId` that is not in the customers table (foreign key);
- a generated id that collides with an existing one;
- a negative `skip`.

The store's invariant `Valid` says:

- every invoice is stored under its own id;
- it references an existing customer;
- its amount is positive;
- its status is "pending" or "paid".

Every action preserves this invariant. `revalidated` records the routes
whose cached pages were invalidated, so the contracts also say when
`revalidatePath` runs.

Three behaviours of the code are worth stating plainly:

- a datastore failure in `getUser` propagates out of `authorize` as the
  thrown "Failed to fetch user." (`Auth.Authorize`); it is not turned into
  `null`;
- the customer search matches customer name and email only
  (`Data.FetchFilteredCustomers`);
- `authorized` redirects a signed-in user to "/dashboard" from every path
  outside the dashboard, not only from "/login" (`AuthConfig.Authorized`).

## Model

| member | source | states |
|---|---|---|
| `Middleware.Decide` | middleware.ts:5-25 | An unauthenticated request under "/dashboard" is redirected to "/login". An authenticated request for exactly "/login" is redirected to "/dashboard". Everything else passes, each case as an if-and-only-if. |
| `Middleware.LoginOutsideDashboard` | middleware.ts:13-19 | No path both starts with "/dashboard" and equals "/login", so the two redirect cases are exclusive. |
| `Middleware.OnlyPresenceMatters` | middleware.ts:8-10 | The decision depends on the token only through whether one is present. |
| `Middleware.NoRedirectLoop` | middleware.ts:13-24 | With the same token, a redirect target always passes through. |
| `AuthConfig.Authorized` | auth.config.ts:11-22 | On a "/dashboard" path, the result is allowed iff logged in and denied iff not. On any other path, a logged-in user is redirected to "/dashboard" and anyone else is allowed. Logged in means the session has a user. |
| `AuthConfig.Destination` | auth.config.ts:7-9 | A denial sends the browser to the sign-in page "/login", an explicit redirect to its own target, and only an allowed request stays where it is. |
| `AuthConfig.NoRedirectLoop` | auth.config.ts:11-22 | With the same session, following the callback's redirect (or the sign-in redirect after a denial) is always allowed. |
| `AuthConfig.SessionConfig` | auth.config.ts:25-29 | The session is JWT-based, and its refresh interval is positive and shorter than its lifetime. |
| `GuardAgreement.Agreement` | middleware.ts:13-24 | When the token is present iff the session has a user, the interceptor and `authorized` agree on dashboard paths and on "/login". On every other path they agree iff the visitor is not signed in. |
| `Auth.ParseCredentials` | auth.ts:27-31 | Parsing succeeds iff both entries are strings, the email passes the email check and the password has at least 6 characters (counted as Unicode characters, not UTF-16 code units). |
| `Auth.FindByEmail` | auth.ts:11-13 | The lookup returns a user of the table with that email, or none exactly when no user has it. |
| `Auth.FindByEmailUnique` | auth.ts:11-15 | With unique emails, the lookup returns the one user with that email. |
| `Auth.GetUser` | auth.ts:9-20 | The result is the record with that email or none. A datastore failure, and only that, raises "Failed to fetch user.". |
| `Auth.Authorize` | auth.ts:26-41 | A failed parse returns null. A datastore failure raises, and nothing else does. A user is returned iff parsing succeeds, a user with that email exists and the hash matches, and the returned user is that record. |
| `Auth.RejectedBeforeLookup` | auth.ts:31-40 | When the syntax check fails, the result does not depend on the users table, the datastore or the hash check: no lookup is made. |
| `Auth.SignedInIsTheAccount` | auth.ts:32-36 | With unique emails, a successful sign-in yields exactly the account with the submitted email. |
| `Actions.CatchSignInError` | app/lib/actions.ts:21-31 | An AuthError of type "CredentialsSignin" becomes the returned message "Invalid credentials.", any other AuthError "Something went wrong.". Any other error is rethrown unchanged. |
| `Actions.Authenticate` | app/lib/actions.ts:9-32 | "CredentialsSignin" maps to "Invalid credentials." and any other AuthError to "Something went wrong.". Other errors are rethrown. A truthy sign-in rethrows the redirect to "/dashboard". An AuthError never escapes. |
| `Actions.StatusText` | app/lib/actions.ts:42-44 | A parsed status is written as "pending" or "paid". |
| `Actions.ParseStatus` | app/lib/actions.ts:42-44 | The status entry parses iff it is the string "pending" or "paid", and it parses to that status. |
| `Actions.Validate` | app/lib/actions.ts:34-49 | Validation accepts iff customerId is a string, the coerced amount is a number > 0 and the status is "pending" or "paid". On success the fields are the submitted ones. On failure each of the three keys is present iff its field fails, with exactly its one message. |
| `Actions.InvoiceStore.CreateInvoice` | app/lib/actions.ts:60-97 | A validation failure returns the field errors and "Missing Fields. Failed to Create Invoice." and writes nothing. A datastore failure returns "Database Error: Failed to Create Invoice." and neither writes nor revalidates. A success adds exactly one invoice (submitted customer and status, amount × 100, date now), revalidates and redirects to "/dashboard/invoices". |
| `Actions.InvoiceStore.UpdateInvoice` | app/lib/actions.ts:99-137 | Same failure cases as create, with the Update messages; a missing id is a datastore failure. A success replaces only that invoice's customerId, amount (× 100) and status, then revalidates and redirects. |
| `Actions.InvoiceStore.DeleteInvoice` | app/lib/actions.ts:139-152 | A success removes exactly that id, revalidates and returns "Deleted Invoice". A failure, including a missing id, returns "Database Error: Failed to Delete Invoice" and changes nothing. |
| `Actions.UpdateFrame` | app/lib/actions.ts:117-129 | An update keeps the key set and every other invoice. In the revised invoice it keeps the id and date and sets exactly the three submitted fields. |
| `Actions.NonPositiveAmountRejected` | app/lib/actions.ts:39-41 | An amount that coerces to ≤ 0 always fails validation with the "greater than $0" message. |
| `Query.Filter` | app/lib/data.ts:110-140 | Every row kept is a table row that satisfies the condition, and every such row is kept. |
| `Query.FilterAppend` | app/lib/data.ts:110-140 | A row appended to the table is kept, at the end, exactly when it satisfies the condition. |
| `Query.FilterCount` | app/lib/data.ts:110-140 | Every copy of a row that satisfies the condition is kept, and no copy of one that does not. |
| `Query.KeptInOrderAppend` | app/lib/data.ts:110-140 | Appending a row to the table extends the positions of the kept rows by its own position exactly when it is kept. |
| `Query.FilterKeepsOrder` | app/lib/data.ts:110-140 | The rows kept are the table's rows at the increasing positions of all rows satisfying the condition, so table order is preserved. |
| `Query.SortBy` | app/lib/data.ts:141-143 | Ordering yields a permutation of the rows, sorted by the key. |
| `Query.HeadComesFirst` | app/lib/data.ts:141-143 | When a row is inserted after the head of a sorted sequence, the head comes no later than any row of the rest with the new row added. |
| `Query.PrefixOfPermutation` | app/lib/data.ts:23-27 | The first k rows of an ordering are rows of the table. |
| `Query.PrefixComesFirst` | app/lib/data.ts:23-27 | Every row left out of the first k comes no earlier in the order than each row taken. |
| `Data.CardOf` | app/lib/data.ts:28-35 | A customer card is present exactly when the customer exists, and then it holds that customer's name, email and image URL. |
| `Data.ByDateDesc` | app/lib/data.ts:25-27 | Ordering by date descending yields a permutation of the rows with non-increasing dates. |
| `Data.FetchRevenue` | app/lib/data.ts:5-18 | Returns the revenue table unchanged, or raises "Failed to fetch revenue data." exactly on a datastore failure. |
| `Data.Newest` | app/lib/data.ts:23-27 | Returns min(k, rows) rows of the table with non-increasing dates, and no row left out is newer than any row taken. |
| `Data.LeftOutNotNewer` | app/lib/data.ts:23-27 | The first n rows of a date-descending permutation are table rows, newest first, and no row left out is newer than a row taken. |
| `Data.FetchLatestInvoices` | app/lib/data.ts:21-49 | Returns at most 5 invoices, the newest, in non-increasing date order. Each keeps its row's columns with only the amount formatted, plus its customer's name, image and email. |
| `Data.TotalsSplit` | app/lib/data.ts:228-240 | When every invoice is pending or paid, total_pending + total_paid equals the sum of all amounts. |
| `Data.StatusTotalAppend` | app/lib/data.ts:230-239 | A status total grows by exactly the amount of each invoice with that status and ignores the others. |
| `Data.AggregateSum` | app/lib/data.ts:70-77 | The `_sum` aggregate is null exactly when no invoice has the status, and otherwise it is the sum of the amounts of the invoices with that status. |
| `Data.FetchCardData` | app/lib/data.ts:52-97 | The counts are the table sizes. The paid and pending totals are the formatted sums over invoices of that status, 0 when there are none. |
| `Data.IncludedInvoices` | app/lib/data.ts:215-225 | Every included slice is pending or paid and comes from one of the customer's invoices, and every pending or paid invoice of the customer is included. |
| `Data.IncludedInvoicesAppend` | app/lib/data.ts:215-225 | Nothing is included from an empty table. An invoice appended to the table adds its status and amount at the end exactly when it is the customer's and pending or paid. |
| `Data.IncludedTotals` | app/lib/data.ts:228-240 | The pending (or paid) sum over the included invoices equals the sum of the amounts of all of the customer's pending (or paid) invoices in the table, each counted once. |
| `Data.IncludedTotalStep` | app/lib/data.ts:215-240 | One more invoice in the table adds its amount to a status sum over the included invoices exactly when it is the customer's and has that status. |
| `Data.FetchFilteredCustomers` | app/lib/data.ts:206-247 | One row per matching customer, in table order, with every customer field kept. Each row's invoices are the customer's included invoices. total_pending and total_paid are the formatted sums of the amounts of that customer's pending and paid invoices in the table, and together they add up to all included amounts. A datastore failure raises "Failed to fetch customer table.". |
| `Data.NoInvoicesNoTotals` | app/lib/data.ts:228-240 | A customer with no pending or paid invoices has a pending and a paid total of 0, so both of its row's totals show format(0). |
| `Data.Page` | app/lib/data.ts:103-109 | Page p skips (p−1)×10 rows and returns the next at most 10. |
| `Data.PageCount` | app/lib/data.ts:267 | ceil(count/10) is the least p with p×10 ≥ count. |
| `Data.PagesUpToCountHoldRows` | app/lib/data.ts:103-109 | Page p ≥ 1 holds rows exactly when p ≤ ceil(count/10). |
| `Data.Matching` | app/lib/data.ts:107-143 | The invoices matching the query, as a permutation ordered by date descending. |
| `Data.FetchFilteredInvoices` | app/lib/data.ts:99-164 | Returns at most 10 rows: the matching invoices from offset (p−1)×10 on, newest first, amounts untouched. A datastore failure or a page below 1 raises "Failed to fetch invoices.". |
| `Data.FetchInvoicesPages` | app/lib/data.ts:249-273 | With the hard-coded count of 10, the result is 1 for every query. |
| `Data.StubbedCountHidesSecondPage` | app/lib/data.ts:254-267 | With 11 matching invoices with distinct ids, page 2 is non-empty while the reported page count is 1. |
| `Data.CountedInvoicesPages` | app/lib/data.ts:254-267 | With the real count of matching invoices, page p ≥ 1 holds rows exactly when p ≤ the page count. |
| `Data.FetchInvoiceById` | app/lib/data.ts:167-188 | Returns null exactly when no invoice has that id. Otherwise it returns that record with only the amount changed (to amount/100), together with its customer. |
| `Data.FetchCustomers` | app/lib/data.ts:191-203 | Returns every customer's id and name as a permutation, ordered by name under the collation. |
| `StoreQueries.FetchAfterCreate` | app/lib/actions.ts:74-87 | A lookup of a created invoice returns the submitted customer, status and amount in dollars, with the creation date. |
| `StoreQueries.FetchAfterUpdate` | app/lib/actions.ts:117-129 | A lookup of an updated invoice returns the submitted fields and keeps the original date. |
| `StoreQueries.FetchAfterDelete` | app/lib/actions.ts:142-147 | After a delete, a lookup of that id returns null and every other lookup is unchanged. |
| `StoreQueries.CardTotalsCoverTable` | app/lib/data.ts:70-85 | On a table of pending and paid invoices, the paid and pending card totals add up to the sum of all amounts. |
| `StoreQueries.ValidStoreLookup` | app/lib/data.ts:167-188 | In a store that keeps its invariant, looking up a stored invoice finds its customer, a positive dollar amount and a pending or paid status. |
| `StoreQueries.ValidStoreCardTotals` | app/lib/data.ts:70-85 | In a store that keeps its invariant, the paid and pending card totals over its invoices add up to the sum of all amounts. |

## Findings

| source | as written | input that shows it | evidently intended | confidence | as-written member | corrected member |
|---|---|---|---|---|---|---|
| app/lib/data.ts:254-267 | The page count divides a constant count of 10, so it is 1 for every query. | 11 invoices matching the query: page 2 holds one invoice, but the reported total is 1 page. | Count the invoices matching the query (the comment says so) and take ceil(count/10). | medium: the constant may be a deliberate placeholder; not executed | `Data.FetchInvoicesPages`, `Data.StubbedCountHidesSecondPage` | `Data.CountedInvoicesPages` |

## Left out

- The middleware `matcher` list (middleware.ts:28-34) is framework routing configuration. The model decides for every path.
- JWT decoding (`getToken`) and the signing secret are not modelled. The interceptor sees only a present or absent token.
- Console logging and the 3-second delay in `fetchRevenue` are not modelled.
- The concurrent batch in `fetchCardData` is modelled as sequential reads. Its third aggregate (`invoiceStatus`) is computed but never used, so it is not modelled.
- Session expiry timing is not modelled, only the configured values.
- `signIn` itself is not modelled. How the library turns a null from `authorize` into a "CredentialsSignin" error is its own internal behaviour, so `Authenticate` takes the outcome of `signIn` as its input.
- `revalidatePath` and `redirect` are modelled as outcome tags: the `revalidated` log and `Redirected` or `RedirectSignal`.
- The zod email pattern, bcrypt and JavaScript's `Number()` parsing are parameters. The library's default texts for a NaN amount and for a status outside the enumeration are tags (`NotANumber`, `NotInEnum`), not literal strings.
- Auth.ParseCredentials: the password length is counted in Unicode characters, while the validation library's `.min(6)` counts UTF-16 code units, so a password of fewer than six characters that includes characters outside the Basic Multilingual Plane (three emoji, say) is accepted by the code and rejected by the model.
- Infinite amounts are not modelled, because numbers are exact reals.
- Floating-point rounding of `amount * 100` and `amount / 100` is not modelled; arithmetic is exact.
- A non-integer `currentPage` is not modelled; pages are integers.
- What the text search matches (case-insensitive `contains` on name, email and status, and the amount equality at app/lib/data.ts:130) is the parameter `matches`.
- The ORM does not specify the order of rows whose dates or names tie, and the model's insertion sort fixes one such order. `Data.FetchLatestInvoices` and `Data.FetchFilteredInvoices` name their rows by position in that order, so when dates tie across the top-5 or a page boundary the datastore may return other rows of the same date. What does not depend on the tie order is stated separately: the rows are sorted, drawn from the table, and no row left out is newer (`Data.Newest`, `Data.Matching`).
- `formatCurrency` is a parameter. Totals are stated before formatting.
- The unused `prevState` arguments of the actions are not modelled.
- The ORM-generated invoice id and the clock are parameters (`newId`, `now`).
- Deleting customers is not modelled, because no action in the core does it.
- app/dashboard/customers/page.tsx, prisma/seed.ts and app/lib/config/prisma.ts are not part of this model. They hold page rendering, a one-off seeding script and the client singleton.
