/** Records of the datastore (users, customers, invoices, revenue) and the small
    wrappers shared by every layer of the dashboard. */
module Schema {

  datatype Option<+T> = None | Some(value: T)

  /** What a data-access call or server action yields: a value, or the generic
      `Error(message)` that its catch block throws. */
  datatype Outcome<+T> = Ok(value: T) | Raised(message: string)

  /** A value read from a submitted form or credentials object: the entry is
      missing (`null`), a string, or something else (an uploaded file). */
  datatype FieldValue = Absent | Text(text: string) | NonText

  /** A row of the users table; `password` holds the bcrypt hash. */
  datatype User = User(id: string, name: string, email: string, password: string)

  datatype Customer = Customer(id: string, name: string, email: string, imageUrl: string)

  /** A row of the invoices table. `amount` is stored in cents; `date` is a
      timestamp in milliseconds. */
  datatype Invoice = Invoice(id: string, customerId: string, amount: real, status: string, date: int)

  datatype Revenue = Revenue(month: string, revenue: real)

  /** The two statuses the invoice forms accept and the dashboards add up. */
  const PendingStatus := "pending"
  const PaidStatus := "paid"

  /** The route both invoice mutations refresh and send the browser to. */
  const InvoicesRoute := "/dashboard/invoices"
}
