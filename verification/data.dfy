/** The read side of app/lib/data.ts over an in-memory datastore. A
    `findMany` sees a table as a sequence of rows (its enumeration order); a
    `findUnique` by primary key is a map lookup. The query match, currency
    formatting and the collation of names are parameters; `fault` stands
    for a datastore failure, which every function turns into its own
    generic error. */
module Data {
  import opened Schema
  import opened Query

  const ItemsPerPage := 10
  const LatestCount := 5

  const RevenueFailed := "Failed to fetch revenue data."
  const LatestFailed := "Failed to fetch the latest invoices."
  const CardDataFailed := "Failed to fetch card data."
  const InvoicesFailed := "Failed to fetch invoices."
  const InvoiceFailed := "Failed to fetch invoice."
  const CustomersFailed := "Failed to fetch all customers."
  const CustomerTableFailed := "Failed to fetch customer table."

  // ---------------------------------------------------------------------
  // Joins and ordering
  // ---------------------------------------------------------------------

  /** The customer columns the invoice listings select. */
  datatype CustomerCard = CustomerCard(name: string, email: string, imageUrl: string)

  function CardOf(customers: map<string, Customer>, customerId: string): (c: Option<CustomerCard>)
    ensures c.Some? <==> customerId in customers
    ensures c.Some? ==> c.value == CustomerCard(customers[customerId].name, customers[customerId].email,
                                                customers[customerId].imageUrl)
  {
    if customerId in customers then
      var cu := customers[customerId];
      Some(CustomerCard(cu.name, cu.email, cu.imageUrl))
    else None
  }

  function DateOf(inv: Invoice): int { inv.date }

  function NotEarlier(a: int, b: int): bool { a >= b }

  /** `orderBy: { date: "desc" }`. */
  function ByDateDesc(rows: seq<Invoice>): (r: seq<Invoice>)
    ensures forall i, j :: 0 <= i < j < |r| ==> r[i].date >= r[j].date
    ensures multiset(r) == multiset(rows)
  {
    assert TotalPreorder(NotEarlier);
    var sorted := SortBy(rows, DateOf, NotEarlier);
    assert forall i, j :: 0 <= i < j < |sorted| ==> NotEarlier(DateOf(sorted[i]), DateOf(sorted[j]));
    sorted
  }

  // ---------------------------------------------------------------------
  // fetchRevenue
  // ---------------------------------------------------------------------

  function FetchRevenue(revenue: seq<Revenue>, fault: bool): (r: Outcome<seq<Revenue>>)
    ensures r.Raised? <==> fault
    ensures r.Raised? ==> r.message == RevenueFailed
    ensures r.Ok? ==> r.value == revenue
  {
    if fault then Raised(RevenueFailed) else Ok(revenue)
  }

  // ---------------------------------------------------------------------
  // fetchLatestInvoices
  // ---------------------------------------------------------------------

  /** The `k` most recent rows, newest first. */
  function Newest(rows: seq<Invoice>, k: nat): (r: seq<Invoice>)
    ensures |r| == if |rows| < k then |rows| else k
    ensures forall i, j :: 0 <= i < j < |r| ==> r[i].date >= r[j].date
    ensures multiset(r) <= multiset(rows)
    ensures forall x :: x in r ==> x in rows
    ensures forall x, y :: x in multiset(rows) - multiset(r) && y in r ==> x.date <= y.date
  {
    var sorted := ByDateDesc(rows);
    var n := if |rows| < k then |rows| else k;
    LeftOutNotNewer(rows, sorted, n);
    sorted[..n]
  }

  /** The first `n` rows of a date-descending permutation of `rows` are
      rows of the table, newest first, and no row left out is newer than a
      row taken. */
  lemma LeftOutNotNewer(rows: seq<Invoice>, sorted: seq<Invoice>, n: nat)
    requires multiset(sorted) == multiset(rows)
    requires forall i, j :: 0 <= i < j < |sorted| ==> sorted[i].date >= sorted[j].date
    requires n <= |rows|
    ensures n <= |sorted| && |sorted[..n]| == n
    ensures forall i, j :: 0 <= i < j < n ==> sorted[..n][i].date >= sorted[..n][j].date
    ensures multiset(sorted[..n]) <= multiset(rows)
    ensures forall x :: x in sorted[..n] ==> x in rows
    ensures forall x, y :: x in multiset(rows) - multiset(sorted[..n]) && y in sorted[..n] ==> x.date <= y.date
  {
    PrefixOfPermutation(rows, sorted, n);
    assert SortedBy(sorted, DateOf, NotEarlier);
    PrefixComesFirst(rows, sorted, n, DateOf, NotEarlier);
  }


  /** A listed invoice: every column of the row, with the amount formatted,
      and the customer's name, image and email. */
  datatype LatestInvoice =
    LatestInvoice(id: string, customerId: string, amount: string, status: string, date: int, customer: Option<CustomerCard>)

  function LatestView(inv: Invoice, customers: map<string, Customer>, format: real -> string): LatestInvoice {
    LatestInvoice(inv.id, inv.customerId, format(inv.amount), inv.status, inv.date, CardOf(customers, inv.customerId))
  }

  /** `v` lists invoice `inv`: the same columns with the amount formatted,
      and the card of the invoice's customer. */
  predicate Shows(v: LatestInvoice, inv: Invoice, customers: map<string, Customer>, format: real -> string) {
    v.id == inv.id && v.customerId == inv.customerId && v.status == inv.status && v.date == inv.date &&
    v.amount == format(inv.amount) && v.customer == CardOf(customers, inv.customerId)
  }

  function FetchLatestInvoices(rows: seq<Invoice>, customers: map<string, Customer>, format: real -> string, fault: bool)
    : (r: Outcome<seq<LatestInvoice>>)
    ensures r.Raised? <==> fault
    ensures r.Raised? ==> r.message == LatestFailed
    ensures r.Ok? ==> |r.value| == (if |rows| < LatestCount then |rows| else LatestCount)
    ensures r.Ok? ==> forall i, j :: 0 <= i < j < |r.value| ==> r.value[i].date >= r.value[j].date
    ensures r.Ok? ==> forall i :: 0 <= i < |r.value| ==>
              Shows(r.value[i], Newest(rows, LatestCount)[i], customers, format)
  {
    if fault then Raised(LatestFailed)
    else
      var newest := Newest(rows, LatestCount);
      var views := seq(|newest|, i requires 0 <= i < |newest| => LatestView(newest[i], customers, format));
      forall i | 0 <= i < |views|
        ensures Shows(views[i], newest[i], customers, format)
      {
      }
      Ok(views)
  }

  // ---------------------------------------------------------------------
  // Sums by status (fetchCardData, fetchFilteredCustomers)
  // ---------------------------------------------------------------------

  /** The status and amount columns of an invoice. */
  datatype InvoiceSlice = InvoiceSlice(status: string, amount: real)

  function SliceOf(inv: Invoice): InvoiceSlice { InvoiceSlice(inv.status, inv.amount) }

  function Slices(rows: seq<Invoice>): (r: seq<InvoiceSlice>)
    ensures |r| == |rows|
    ensures forall i :: 0 <= i < |rows| ==> r[i] == SliceOf(rows[i])
  {
    seq(|rows|, i requires 0 <= i < |rows| => SliceOf(rows[i]))
  }

  function HasStatus(status: string): InvoiceSlice -> bool {
    (s: InvoiceSlice) => s.status == status
  }

  /** `reduce((acc, invoice) => acc + invoice.amount, 0)`, a left fold. */
  function Sum(s: seq<InvoiceSlice>): real
    decreases |s|
  {
    if s == [] then 0.0 else Sum(s[..|s| - 1]) + s[|s| - 1].amount
  }

  /** The sum of the amounts of the slices with the given status. */
  function StatusTotal(s: seq<InvoiceSlice>, status: string): real {
    Sum(Filter(s, HasStatus(status)))
  }

  lemma SumAppend(s: seq<InvoiceSlice>, x: InvoiceSlice)
    ensures Sum(s + [x]) == Sum(s) + x.amount
  {
  }

  /** When every slice is pending or paid, the two status totals add up to
      the sum of all of them. */
  lemma {:induction false} TotalsSplit(s: seq<InvoiceSlice>)
    requires forall x :: x in s ==> x.status == PendingStatus || x.status == PaidStatus
    ensures StatusTotal(s, PendingStatus) + StatusTotal(s, PaidStatus) == Sum(s)
  {
    if s != [] {
      var init, last := s[..|s| - 1], s[|s| - 1];
      assert s == init + [last];
      TotalsSplit(init);
      if last.status == PendingStatus {
        SumAppend(Filter(init, HasStatus(PendingStatus)), last);
      } else {
        SumAppend(Filter(init, HasStatus(PaidStatus)), last);
      }
    }
  }

  /** A status total counts every slice with that status and nothing else:
      it is unchanged by slices of other statuses and grows by the amount of
      each slice of its own. */
  lemma StatusTotalAppend(s: seq<InvoiceSlice>, x: InvoiceSlice, status: string)
    ensures StatusTotal(s + [x], status) == StatusTotal(s, status) + (if x.status == status then x.amount else 0.0)
  {
  }

  /** The SQL aggregate `_sum` over the rows with a status: null when there
      are none. */
  function AggregateSum(rows: seq<Invoice>, status: string): (r: Option<real>)
    ensures r.None? <==> forall inv :: inv in rows ==> inv.status != status
    ensures r.Some? ==> r.value == StatusTotal(Slices(rows), status)
  {
    var matching := Filter(Slices(rows), HasStatus(status));
    if matching == [] then
      assert forall inv :: inv in rows ==> inv.status != status by {
        forall inv | inv in rows ensures inv.status != status {
          var k :| 0 <= k < |rows| && rows[k] == inv;
          assert Slices(rows)[k] in Slices(rows);
        }
      }
      None
    else
      assert matching[0] in Slices(rows);
      Some(Sum(matching))
  }

  datatype CardData =
    CardData(numberOfCustomers: nat, numberOfInvoices: nat, totalPaidInvoices: string, totalPendingInvoices: string)

  function FetchCardData(invoices: seq<Invoice>, customers: seq<Customer>, format: real -> string, fault: bool)
    : (r: Outcome<CardData>)
    ensures r.Raised? <==> fault
    ensures r.Raised? ==> r.message == CardDataFailed
    ensures r.Ok? ==> r.value.numberOfInvoices == |invoices| && r.value.numberOfCustomers == |customers|
    ensures r.Ok? ==> r.value.totalPaidInvoices == format(StatusTotal(Slices(invoices), PaidStatus))
    ensures r.Ok? ==> r.value.totalPendingInvoices == format(StatusTotal(Slices(invoices), PendingStatus))
  {
    if fault then Raised(CardDataFailed)
    else
      var paid := AggregateSum(invoices, PaidStatus);
      var pending := AggregateSum(invoices, PendingStatus);
      Ok(CardData(|customers|, |invoices|,
                  format(if paid.Some? then paid.value else 0.0),
                  format(if pending.Some? then pending.value else 0.0)))
  }

  // ---------------------------------------------------------------------
  // fetchFilteredCustomers
  // ---------------------------------------------------------------------

  /** The `include` condition of the customer table: the customer's own
      invoices that are pending or paid. */
  function Includes(c: Customer): Invoice -> bool {
    (inv: Invoice) => inv.customerId == c.id && (inv.status == PendingStatus || inv.status == PaidStatus)
  }

  /** A customer's pending and paid invoices, as the customer table
      includes them. */
  function IncludedInvoices(c: Customer, invoices: seq<Invoice>): (r: seq<InvoiceSlice>)
    ensures forall x :: x in r ==> x.status == PendingStatus || x.status == PaidStatus
    ensures forall inv ::
              inv in invoices && inv.customerId == c.id && (inv.status == PendingStatus || inv.status == PaidStatus)
              ==> SliceOf(inv) in r
    ensures forall x :: x in r ==> exists inv :: inv in invoices && inv.customerId == c.id && SliceOf(inv) == x
  {
    var own := Filter(invoices, Includes(c));
    var r := Slices(own);
    assert forall k :: 0 <= k < |own| ==> r[k] == SliceOf(own[k]) && own[k] in invoices;
    assert forall inv :: inv in own ==> SliceOf(inv) in r by {
      forall inv | inv in own ensures SliceOf(inv) in r {
        var k :| 0 <= k < |own| && own[k] == inv;
        assert r[k] == SliceOf(inv);
      }
    }
    r
  }

  /** Invoices are included one by one in table order: none of an empty
      table, and an invoice appended to the table adds its slice at the end
      exactly when it is the customer's and pending or paid. */
  lemma IncludedInvoicesAppend(c: Customer, invoices: seq<Invoice>, inv: Invoice)
    ensures IncludedInvoices(c, []) == []
    ensures IncludedInvoices(c, invoices + [inv]) ==
            IncludedInvoices(c, invoices) + (if Includes(c)(inv) then [SliceOf(inv)] else [])
  {
    FilterAppend(invoices, inv, Includes(c));
    var own := Filter(invoices, Includes(c));
    assert Slices(own + [inv]) == Slices(own) + [SliceOf(inv)];
  }

  /** The sum of the amounts of a customer's invoices with a given status,
      taken straight over the invoices table. */
  function CustomerTotal(invoices: seq<Invoice>, customerId: string, status: string): real
    decreases |invoices|
  {
    if invoices == [] then 0.0
    else
      var last := invoices[|invoices| - 1];
      CustomerTotal(invoices[..|invoices| - 1], customerId, status) +
      (if last.customerId == customerId && last.status == status then last.amount else 0.0)
  }

  /** Summing one status over the included invoices gives that status's
      total over all of the customer's invoices: the include condition
      drops nothing that either total counts, and counts every invoice
      once. */
  lemma {:induction false} IncludedTotals(c: Customer, invoices: seq<Invoice>, status: string)
    requires status == PendingStatus || status == PaidStatus
    ensures StatusTotal(IncludedInvoices(c, invoices), status) == CustomerTotal(invoices, c.id, status)
    decreases |invoices|
  {
    if invoices != [] {
      var front, last := invoices[..|invoices| - 1], invoices[|invoices| - 1];
      assert invoices == front + [last];
      IncludedTotals(c, front, status);
      IncludedTotalStep(c, front, last, status);
    }
  }

  /** One more invoice adds its amount to the status sum over the included
      invoices exactly when it is the customer's and has that status. */
  lemma IncludedTotalStep(c: Customer, front: seq<Invoice>, last: Invoice, status: string)
    requires status == PendingStatus || status == PaidStatus
    ensures StatusTotal(IncludedInvoices(c, front + [last]), status) ==
            StatusTotal(IncludedInvoices(c, front), status) +
            (if last.customerId == c.id && last.status == status then last.amount else 0.0)
  {
    var before := IncludedInvoices(c, front);
    IncludedInvoicesAppend(c, front, last);
    if Includes(c)(last) {
      StatusTotalAppend(before, SliceOf(last), status);
    } else {
      assert before + [] == before;
    }
  }

  datatype CustomerTableRow =
    CustomerTableRow(customer: Customer, invoices: seq<InvoiceSlice>, totalPending: string, totalPaid: string)

  function TableRow(c: Customer, invoices: seq<Invoice>, format: real -> string): CustomerTableRow {
    var included := IncludedInvoices(c, invoices);
    CustomerTableRow(c, included,
                     format(StatusTotal(included, PendingStatus)),
                     format(StatusTotal(included, PaidStatus)))
  }

  function MatchesCustomer(query: string, matches: (string, Customer) -> bool): Customer -> bool {
    (c: Customer) => matches(query, c)
  }

  /** The totals of a table row, stated over the invoices table. */
  ghost predicate TableRowTotals(row: CustomerTableRow, invoices: seq<Invoice>) {
    StatusTotal(row.invoices, PendingStatus) + StatusTotal(row.invoices, PaidStatus) == Sum(row.invoices) &&
    StatusTotal(row.invoices, PendingStatus) == CustomerTotal(invoices, row.customer.id, PendingStatus) &&
    StatusTotal(row.invoices, PaidStatus) == CustomerTotal(invoices, row.customer.id, PaidStatus)
  }

  function FetchFilteredCustomers(customers: seq<Customer>, invoices: seq<Invoice>, query: string,
                                  matches: (string, Customer) -> bool, format: real -> string, fault: bool)
    : (r: Outcome<seq<CustomerTableRow>>)
    ensures r.Raised? <==> fault
    ensures r.Raised? ==> r.message == CustomerTableFailed
    ensures r.Ok? ==> |r.value| == |Filter(customers, MatchesCustomer(query, matches))|
    ensures r.Ok? ==> forall i :: 0 <= i < |r.value| ==>
              r.value[i].customer == Filter(customers, MatchesCustomer(query, matches))[i] &&
              r.value[i].customer in customers && matches(query, r.value[i].customer)
    ensures r.Ok? ==> forall i :: 0 <= i < |r.value| ==>
              StatusTotal(r.value[i].invoices, PendingStatus) + StatusTotal(r.value[i].invoices, PaidStatus)
                == Sum(r.value[i].invoices)
    ensures r.Ok? ==> forall i :: 0 <= i < |r.value| ==>
              r.value[i].totalPending == format(StatusTotal(r.value[i].invoices, PendingStatus)) &&
              r.value[i].totalPaid == format(StatusTotal(r.value[i].invoices, PaidStatus))
    ensures r.Ok? ==> forall i :: 0 <= i < |r.value| ==>
              r.value[i].invoices == IncludedInvoices(r.value[i].customer, invoices) &&
              r.value[i].totalPending == format(CustomerTotal(invoices, r.value[i].customer.id, PendingStatus)) &&
              r.value[i].totalPaid == format(CustomerTotal(invoices, r.value[i].customer.id, PaidStatus))
  {
    if fault then Raised(CustomerTableFailed)
    else
      var found := Filter(customers, MatchesCustomer(query, matches));
      var rows := seq(|found|, i requires 0 <= i < |found| => TableRow(found[i], invoices, format));
      forall i | 0 <= i < |rows| ensures found[i] in found && TableRowTotals(rows[i], invoices) {
        TotalsSplit(rows[i].invoices);
        IncludedTotals(rows[i].customer, invoices, PendingStatus);
        IncludedTotals(rows[i].customer, invoices, PaidStatus);
      }
      Ok(rows)
  }

  /** A customer without pending or paid invoices shows zero in both
      totals. */
  lemma {:induction false} NoInvoicesNoTotals(c: Customer, invoices: seq<Invoice>)
    requires forall inv :: inv in invoices && inv.customerId == c.id ==>
               inv.status != PendingStatus && inv.status != PaidStatus
    ensures CustomerTotal(invoices, c.id, PendingStatus) == 0.0
    ensures CustomerTotal(invoices, c.id, PaidStatus) == 0.0
    decreases |invoices|
  {
    if invoices != [] {
      var front := invoices[..|invoices| - 1];
      assert forall inv :: inv in front ==> inv in invoices;
      NoInvoicesNoTotals(c, front);
    }
  }

  // ---------------------------------------------------------------------
  // fetchFilteredInvoices and fetchInvoicesPages
  // ---------------------------------------------------------------------

  /** How many rows the pages before `currentPage` skip. */
  function Offset(currentPage: int): int {
    (currentPage - 1) * ItemsPerPage
  }

  /** `skip: Offset(currentPage), take: ItemsPerPage`. */
  function Page<T>(s: seq<T>, currentPage: int): (r: seq<T>)
    requires currentPage >= 1
    ensures |r| <= ItemsPerPage
    ensures |r| == if |s| <= Offset(currentPage) then 0
                   else if |s| - Offset(currentPage) < ItemsPerPage then |s| - Offset(currentPage)
                   else ItemsPerPage
    ensures forall i :: 0 <= i < |r| ==> Offset(currentPage) + i < |s| && r[i] == s[Offset(currentPage) + i]
  {
    var lo := if Offset(currentPage) < |s| then Offset(currentPage) else |s|;
    var hi := if Offset(currentPage) + ItemsPerPage < |s| then Offset(currentPage) + ItemsPerPage else |s|;
    s[lo..hi]
  }

  /** `Math.ceil(count / ItemsPerPage)`: the fewest pages that hold `count`
      rows. */
  function PageCount(count: nat): (pages: nat)
    ensures pages * ItemsPerPage >= count
    ensures pages == 0 || (pages - 1) * ItemsPerPage < count
  {
    (count + ItemsPerPage - 1) / ItemsPerPage
  }

  /** Exactly the pages up to the page count hold rows. */
  lemma PagesUpToCountHoldRows<T>(s: seq<T>, currentPage: int)
    requires currentPage >= 1
    ensures |Page(s, currentPage)| > 0 <==> currentPage <= PageCount(|s|)
  {
  }

  function MatchesQuery(query: string, matches: (string, Invoice) -> bool): Invoice -> bool {
    (inv: Invoice) => matches(query, inv)
  }

  /** The invoices matching the query, newest first. */
  function Matching(rows: seq<Invoice>, query: string, matches: (string, Invoice) -> bool): (r: seq<Invoice>)
    ensures forall i, j :: 0 <= i < j < |r| ==> r[i].date >= r[j].date
    ensures multiset(r) == multiset(Filter(rows, MatchesQuery(query, matches)))
    ensures |r| == |Filter(rows, MatchesQuery(query, matches))|
  {
    var r := ByDateDesc(Filter(rows, MatchesQuery(query, matches)));
    assert |multiset(r)| == |r|;
    r
  }

  /** The selected columns of a listed invoice; the amount stays in cents. */
  datatype InvoiceRow = InvoiceRow(id: string, amount: real, date: int, status: string, customer: Option<CustomerCard>)

  function RowOf(inv: Invoice, customers: map<string, Customer>): InvoiceRow {
    InvoiceRow(inv.id, inv.amount, inv.date, inv.status, CardOf(customers, inv.customerId))
  }

  /** `fetchFilteredInvoices`; the datastore refuses a negative `skip`. */
  function FetchFilteredInvoices(rows: seq<Invoice>, customers: map<string, Customer>, query: string, currentPage: int,
                                 matches: (string, Invoice) -> bool, fault: bool)
    : (r: Outcome<seq<InvoiceRow>>)
    ensures r.Raised? <==> fault || currentPage < 1
    ensures r.Raised? ==> r.message == InvoicesFailed
    ensures r.Ok? ==> |r.value| <= ItemsPerPage
    ensures r.Ok? ==> |r.value| == |Page(Matching(rows, query, matches), currentPage)|
    ensures r.Ok? ==> forall i :: 0 <= i < |r.value| ==>
              Offset(currentPage) + i < |Matching(rows, query, matches)| &&
              r.value[i] == RowOf(Matching(rows, query, matches)[Offset(currentPage) + i], customers)
    ensures r.Ok? ==> forall i, j :: 0 <= i < j < |r.value| ==> r.value[i].date >= r.value[j].date
  {
    if fault || Offset(currentPage) < 0 then Raised(InvoicesFailed)
    else
      var page := Page(Matching(rows, query, matches), currentPage);
      Ok(seq(|page|, i requires 0 <= i < |page| => RowOf(page[i], customers)))
  }

  /** The row count `fetchInvoicesPages` divides: a constant standing in for
      the commented-out count query. */
  const StubbedCount := 10

  function FetchInvoicesPages(query: string): (pages: nat)
    ensures pages == 1
  {
    PageCount(StubbedCount)
  }

  /** A search that every invoice matches. */
  function AnyInvoice(query: string, inv: Invoice): bool { true }

  /** Eleven paid invoices with distinct ids and increasing dates. */
  function ElevenInvoices(): (rows: seq<Invoice>)
    ensures |rows| == 11
    ensures forall j, k :: 0 <= j < k < |rows| ==> rows[j].id != rows[k].id
  {
    var ids := "abcdefghijk";
    seq(11, i requires 0 <= i < 11 => Invoice([ids[i]], "cust", 100.0, PaidStatus, i))
  }

  /** With eleven matching invoices the second page holds one invoice, yet
      `fetchInvoicesPages` reports a single page, so pagination never
      offers it. */
  lemma StubbedCountHidesSecondPage()
    ensures FetchFilteredInvoices(ElevenInvoices(), map[], "", 2, AnyInvoice, false) != Ok([])
    ensures FetchInvoicesPages("") < 2
  {
    var rows := ElevenInvoices();
    forall x | x in rows ensures MatchesQuery("", AnyInvoice)(x) {
      assert AnyInvoice("", x);
    }
    assert |Matching(rows, "", AnyInvoice)| == 11;
    PagesUpToCountHoldRows(Matching(rows, "", AnyInvoice), 2);
  }

  /** The page count computed from the number of invoices matching the
      query. */
  function CountedInvoicesPages(rows: seq<Invoice>, query: string, matches: (string, Invoice) -> bool): (pages: nat)
    ensures forall p :: p >= 1 ==> (|Page(Matching(rows, query, matches), p)| > 0 <==> p <= pages)
  {
    var count := |Filter(rows, MatchesQuery(query, matches))|;
    forall p | p >= 1
      ensures |Page(Matching(rows, query, matches), p)| > 0 <==> p <= PageCount(count)
    {
      PagesUpToCountHoldRows(Matching(rows, query, matches), p);
    }
    PageCount(count)
  }

  // ---------------------------------------------------------------------
  // fetchInvoiceById and fetchCustomers
  // ---------------------------------------------------------------------

  /** An invoice with its amount in dollars, and its customer. */
  datatype InvoiceDetail = InvoiceDetail(invoice: Invoice, customer: Option<Customer>)

  function FetchInvoiceById(invoices: map<string, Invoice>, customers: map<string, Customer>, id: string, fault: bool)
    : (r: Outcome<Option<InvoiceDetail>>)
    ensures r.Raised? <==> fault
    ensures r.Raised? ==> r.message == InvoiceFailed
    ensures r.Ok? ==> (r.value.None? <==> id !in invoices)
    ensures r.Ok? && r.value.Some? ==>
              var stored := invoices[id];
              var shown := r.value.value.invoice;
              shown.id == stored.id && shown.customerId == stored.customerId &&
              shown.status == stored.status && shown.date == stored.date &&
              shown.amount * 100.0 == stored.amount &&
              (r.value.value.customer.Some? <==> stored.customerId in customers) &&
              (r.value.value.customer.Some? ==> r.value.value.customer.value == customers[stored.customerId])
  {
    if fault then Raised(InvoiceFailed)
    else if id in invoices then
      var inv := invoices[id];
      var customer := if inv.customerId in customers then Some(customers[inv.customerId]) else None;
      Ok(Some(InvoiceDetail(inv.(amount := inv.amount / 100.0), customer)))
    else
      Ok(None)
  }

  /** The columns `fetchCustomers` selects. */
  datatype CustomerName = CustomerName(id: string, name: string)

  function NameOf(c: CustomerName): string { c.name }

  /** `fetchCustomers`: every customer's id and name, ordered by name under
      the datastore's collation `collate`. */
  function FetchCustomers(customers: seq<Customer>, collate: (string, string) -> bool, fault: bool)
    : (r: Outcome<seq<CustomerName>>)
    requires TotalPreorder(collate)
    ensures r.Raised? <==> fault
    ensures r.Raised? ==> r.message == CustomersFailed
    ensures r.Ok? ==> multiset(r.value) ==
              multiset(seq(|customers|, i requires 0 <= i < |customers| => CustomerName(customers[i].id, customers[i].name)))
    ensures r.Ok? ==> forall i, j :: 0 <= i < j < |r.value| ==> collate(r.value[i].name, r.value[j].name)
  {
    if fault then Raised(CustomersFailed)
    else
      var names := seq(|customers|, i requires 0 <= i < |customers| => CustomerName(customers[i].id, customers[i].name));
      var sorted := SortBy(names, NameOf, collate);
      assert forall i, j :: 0 <= i < j < |sorted| ==> collate(NameOf(sorted[i]), NameOf(sorted[j]));
      Ok(sorted)
  }
}
