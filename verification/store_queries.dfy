/** What the read side of app/lib/data.ts observes after the mutations of
    app/lib/actions.ts. */
module StoreQueries {
  import opened Schema
  import Actions
  import Data

  /** Looking up a freshly created invoice gives back the submitted
      customer, status and amount in dollars, and the creation time. */
  lemma FetchAfterCreate(invoices: map<string, Invoice>, customers: map<string, Customer>, id: string,
                         f: Actions.InvoiceFields, now: int)
    ensures var r := Data.FetchInvoiceById(invoices[id := Actions.NewInvoice(id, f, now)], customers, id, false);
            r.Ok? && r.value.Some? &&
            r.value.value.invoice.id == id && r.value.value.invoice.customerId == f.customerId &&
            r.value.value.invoice.amount == f.amount &&
            r.value.value.invoice.status == Actions.StatusText(f.status) && r.value.value.invoice.date == now
  {
  }

  /** Looking up an updated invoice gives back the submitted customer,
      status and amount in dollars, and the original date. */
  lemma FetchAfterUpdate(invoices: map<string, Invoice>, customers: map<string, Customer>, id: string,
                         f: Actions.InvoiceFields)
    requires id in invoices
    ensures var r := Data.FetchInvoiceById(invoices[id := Actions.Revised(invoices[id], f)], customers, id, false);
            r.Ok? && r.value.Some? &&
            r.value.value.invoice.id == invoices[id].id && r.value.value.invoice.customerId == f.customerId &&
            r.value.value.invoice.amount == f.amount &&
            r.value.value.invoice.status == Actions.StatusText(f.status) &&
            r.value.value.invoice.date == invoices[id].date
  {
  }

  /** After a delete the id is not found, and every other lookup is as
      before. */
  lemma FetchAfterDelete(invoices: map<string, Invoice>, customers: map<string, Customer>, id: string, other: string)
    requires other != id
    ensures Data.FetchInvoiceById(invoices - {id}, customers, id, false) == Ok(None)
    ensures Data.FetchInvoiceById(invoices - {id}, customers, other, false) ==
            Data.FetchInvoiceById(invoices, customers, other, false)
  {
  }

  /** On a table whose invoices are all pending or paid, the paid and
      pending card totals add up to the sum of every invoice. */
  lemma CardTotalsCoverTable(rows: seq<Invoice>)
    requires forall inv :: inv in rows ==> inv.status == PendingStatus || inv.status == PaidStatus
    ensures Data.StatusTotal(Data.Slices(rows), PendingStatus) + Data.StatusTotal(Data.Slices(rows), PaidStatus)
              == Data.Sum(Data.Slices(rows))
  {
    forall x | x in Data.Slices(rows) ensures x.status == PendingStatus || x.status == PaidStatus {
      var k :| 0 <= k < |Data.Slices(rows)| && Data.Slices(rows)[k] == x;
      assert rows[k] in rows;
    }
    Data.TotalsSplit(Data.Slices(rows));
  }

  /** In a store that keeps its invariant, looking up a stored invoice
      finds its customer, a positive amount in dollars and one of the two
      statuses. */
  lemma ValidStoreLookup(store: Actions.InvoiceStore, id: string)
    requires store.Valid()
    requires id in store.invoices
    ensures var r := Data.FetchInvoiceById(store.invoices, store.customers, id, false);
            r.Ok? && r.value.Some? && r.value.value.customer.Some? &&
            r.value.value.invoice.amount > 0.0 &&
            (r.value.value.invoice.status == PendingStatus || r.value.value.invoice.status == PaidStatus)
  {
    assert Actions.WellFormed(id, store.invoices[id], store.customers);
  }

  /** In a store that keeps its invariant, the paid and pending card totals
      over any enumeration of its invoices add up to the sum of all of
      them. */
  lemma ValidStoreCardTotals(store: Actions.InvoiceStore, rows: seq<Invoice>)
    requires store.Valid()
    requires forall inv :: inv in rows ==> inv in store.invoices.Values
    ensures Data.StatusTotal(Data.Slices(rows), PendingStatus) + Data.StatusTotal(Data.Slices(rows), PaidStatus)
              == Data.Sum(Data.Slices(rows))
  {
    forall inv | inv in rows ensures inv.status == PendingStatus || inv.status == PaidStatus {
      var id :| id in store.invoices && store.invoices[id] == inv;
      assert Actions.WellFormed(id, inv, store.customers);
    }
    CardTotalsCoverTable(rows);
  }
}
