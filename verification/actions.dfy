/** The server actions of app/lib/actions.ts: the invoice form schema, the
    three invoice mutations over the invoices table, and the mapping of
    sign-in errors to messages. Number coercion is the parameter `toNumber`
    (None stands for NaN); `fault` stands for a datastore failure. */
module Actions {
  import opened Schema
  import Middleware

  // ---------------------------------------------------------------------
  // Sign-in error mapping (`authenticate`)
  // ---------------------------------------------------------------------

  const CredentialsSignin := "CredentialsSignin"
  const InvalidCredentials := "Invalid credentials."
  const SomethingWentWrong := "Something went wrong."

  /** What can be thrown inside `authenticate`: an error of the authentication
      library with its `type`, the signal the framework's `redirect` throws,
      or any other error. */
  datatype Thrown = AuthError(kind: string) | RedirectSignal(target: string) | OtherError(description: string)

  /** How the call to `signIn` ended: it returned a truthy or falsy result,
      or it threw. */
  datatype SignInOutcome = Returned(truthy: bool) | Threw(error: Thrown)

  /** `authenticate` returns a message (or `undefined`), or rethrows. */
  datatype AuthenticateOutcome = Returns(message: Option<string>) | Rethrows(error: Thrown)

  /** The catch block of `authenticate`. */
  function CatchSignInError(e: Thrown): (r: AuthenticateOutcome)
    ensures e == AuthError(CredentialsSignin) ==> r == Returns(Some(InvalidCredentials))
    ensures e.AuthError? && e.kind != CredentialsSignin ==> r == Returns(Some(SomethingWentWrong))
    ensures !e.AuthError? ==> r == Rethrows(e)
  {
    match e
    case AuthError(kind) =>
      if kind == CredentialsSignin then Returns(Some(InvalidCredentials)) else Returns(Some(SomethingWentWrong))
    case _ => Rethrows(e)
  }

  /** `authenticate`: a truthy sign-in result triggers `redirect("/dashboard")`
      inside the try block, whose signal the catch block passes on. */
  function Authenticate(signIn: SignInOutcome): (r: AuthenticateOutcome)
    ensures signIn == Threw(AuthError(CredentialsSignin)) ==> r == Returns(Some(InvalidCredentials))
    ensures signIn.Threw? && signIn.error.AuthError? && signIn.error.kind != CredentialsSignin ==>
              r == Returns(Some(SomethingWentWrong))
    ensures signIn.Threw? && !signIn.error.AuthError? ==> r == Rethrows(signIn.error)
    ensures signIn == Returned(true) ==> r == Rethrows(RedirectSignal(Middleware.DashboardPath))
    ensures signIn == Returned(false) ==> r == Returns(None)
    ensures r.Rethrows? ==> !r.error.AuthError?
  {
    match signIn
    case Returned(truthy) =>
      if truthy then CatchSignInError(RedirectSignal(Middleware.DashboardPath)) else Returns(None)
    case Threw(e) => CatchSignInError(e)
  }

  // ---------------------------------------------------------------------
  // Invoice form schema (`FormSchema`, `CreateInvoice`, `UpdateInvoice`)
  // ---------------------------------------------------------------------

  const SelectCustomer := "Please select a customer."
  const AmountNotPositive := "Please enter an amount greater than $0."
  const SelectStatus := "Please select an invoice status."

  /** The keys of the returned `errors` object. */
  datatype Field = CustomerIdField | AmountField | StatusField

  /** One validation message: one of the schema's own texts, or the
      validation library's default for a NaN amount or for a status string
      outside the enumeration. */
  datatype Issue = Custom(text: string) | NotANumber | NotInEnum(received: string)

  datatype Status = Pending | Paid

  function StatusText(s: Status): (t: string)
    ensures t == PendingStatus || t == PaidStatus
  {
    match s
    case Pending => PendingStatus
    case Paid => PaidStatus
  }

  /** The three entries the invoice forms submit. */
  datatype InvoiceForm = InvoiceForm(customerId: FieldValue, amount: FieldValue, status: FieldValue)

  /** The parsed form. `amount` is in dollars, as typed. */
  datatype InvoiceFields = InvoiceFields(customerId: string, amount: real, status: Status)

  datatype Validation = Valid(fields: InvoiceFields) | Invalid(errors: map<Field, seq<Issue>>)

  /** Coercion of a form entry to a number: a missing entry becomes 0, a
      file becomes NaN. */
  function CoerceNumber(v: FieldValue, toNumber: string -> Option<real>): Option<real> {
    match v
    case Absent => Some(0.0)
    case Text(s) => toNumber(s)
    case NonText => None
  }

  function ParseStatus(v: FieldValue): (s: Option<Status>)
    ensures s.Some? <==> v == Text(PendingStatus) || v == Text(PaidStatus)
    ensures s.Some? ==> v == Text(StatusText(s.value))
  {
    if v == Text(PendingStatus) then Some(Pending)
    else if v == Text(PaidStatus) then Some(Paid)
    else None
  }

  function CustomerIdIssue(v: FieldValue): Option<Issue> {
    if v.Text? then None else Some(Custom(SelectCustomer))
  }

  function AmountIssue(v: FieldValue, toNumber: string -> Option<real>): Option<Issue> {
    match CoerceNumber(v, toNumber)
    case None => Some(NotANumber)
    case Some(a) => if a > 0.0 then None else Some(Custom(AmountNotPositive))
  }

  function StatusIssue(v: FieldValue): Option<Issue> {
    match v
    case Text(s) => if s == PendingStatus || s == PaidStatus then None else Some(NotInEnum(s))
    case _ => Some(Custom(SelectStatus))
  }

  function ErrorsOf(f: Field, issue: Option<Issue>): map<Field, seq<Issue>> {
    if issue.Some? then map[f := [issue.value]] else map[]
  }

  /** `safeParse` of the create/update schema: every field is checked and
      every failing field gets its message under its own key. */
  function Validate(form: InvoiceForm, toNumber: string -> Option<real>): (v: Validation)
    ensures v.Valid? <==>
              form.customerId.Text? &&
              CoerceNumber(form.amount, toNumber).Some? && CoerceNumber(form.amount, toNumber).value > 0.0 &&
              (form.status == Text(PendingStatus) || form.status == Text(PaidStatus))
    ensures v.Valid? ==>
              form.customerId == Text(v.fields.customerId) &&
              CoerceNumber(form.amount, toNumber) == Some(v.fields.amount) &&
              form.status == Text(StatusText(v.fields.status))
    ensures v.Invalid? ==>
              v.errors != map[] &&
              (CustomerIdField in v.errors <==> !form.customerId.Text?) &&
              (AmountField in v.errors <==>
                 CoerceNumber(form.amount, toNumber).None? || CoerceNumber(form.amount, toNumber).value <= 0.0) &&
              (StatusField in v.errors <==> !(form.status == Text(PendingStatus) || form.status == Text(PaidStatus))) &&
              (forall f :: f in v.errors ==> |v.errors[f]| == 1)
    ensures v.Invalid? && CustomerIdField in v.errors ==> v.errors[CustomerIdField] == [Custom(SelectCustomer)]
    ensures v.Invalid? && AmountField in v.errors ==>
              v.errors[AmountField] ==
                (if CoerceNumber(form.amount, toNumber).None? then [NotANumber] else [Custom(AmountNotPositive)])
    ensures v.Invalid? && StatusField in v.errors ==>
              v.errors[StatusField] ==
                (if form.status.Text? then [NotInEnum(form.status.text)] else [Custom(SelectStatus)])
  {
    var errors := ErrorsOf(CustomerIdField, CustomerIdIssue(form.customerId))
                + ErrorsOf(AmountField, AmountIssue(form.amount, toNumber))
                + ErrorsOf(StatusField, StatusIssue(form.status));
    if errors == map[] then
      assert CustomerIdField !in errors && AmountField !in errors && StatusField !in errors;
      Valid(InvoiceFields(form.customerId.text, CoerceNumber(form.amount, toNumber).value,
                          ParseStatus(form.status).value))
    else
      Invalid(errors)
  }

  // ---------------------------------------------------------------------
  // Invoice mutations (`createInvoice`, `updateInvoice`, `deleteInvoice`)
  // ---------------------------------------------------------------------

  const CreateMissingFields := "Missing Fields. Failed to Create Invoice."
  const UpdateMissingFields := "Missing Fields. Failed to Update Invoice."
  const CreateFailed := "Database Error: Failed to Create Invoice."
  const UpdateFailed := "Database Error: Failed to Update Invoice."
  const DeleteFailed := "Database Error: Failed to Delete Invoice"
  const Deleted := "Deleted Invoice"

  /** What a server action hands back: a form state with field errors, a
      form state with a message only, or a redirect. */
  datatype ActionResult =
    | FieldErrors(errors: map<Field, seq<Issue>>, message: string)
    | Message(message: string)
    | Redirected(target: string)

  /** The row `createInvoice` inserts: the amount is stored in cents. */
  function NewInvoice(id: string, f: InvoiceFields, now: int): Invoice {
    Invoice(id, f.customerId, f.amount * 100.0, StatusText(f.status), now)
  }

  /** The row `updateInvoice` writes: three columns replaced, the rest kept. */
  function Revised(inv: Invoice, f: InvoiceFields): Invoice {
    inv.(customerId := f.customerId, amount := f.amount * 100.0, status := StatusText(f.status))
  }

  ghost predicate WellFormed(id: string, inv: Invoice, customers: map<string, Customer>) {
    inv.id == id && inv.customerId in customers && inv.amount > 0.0 &&
    (inv.status == PendingStatus || inv.status == PaidStatus)
  }

  /** The invoices table keyed by id, the customers table it references, and
      the list of routes whose cached pages have been invalidated. */
  class InvoiceStore {
    var invoices: map<string, Invoice>
    var customers: map<string, Customer>
    var revalidated: seq<string>

    /** Every row is stored under its own id, references an existing
        customer, has a positive amount and one of the two statuses. */
    ghost predicate Valid()
      reads this
    {
      forall id :: id in invoices ==> WellFormed(id, invoices[id], customers)
    }

    constructor (invoices: map<string, Invoice>, customers: map<string, Customer>)
      requires forall id :: id in invoices ==> WellFormed(id, invoices[id], customers)
      ensures Valid()
      ensures this.invoices == invoices && this.customers == customers && revalidated == []
    {
      this.invoices := invoices;
      this.customers := customers;
      revalidated := [];
    }

    method CreateInvoice(form: InvoiceForm, toNumber: string -> Option<real>, newId: string, now: int, fault: bool)
      returns (r: ActionResult)
      requires Valid()
      modifies this`invoices, this`revalidated
      ensures Valid()
      ensures Validate(form, toNumber).Invalid? ==>
                r == FieldErrors(Validate(form, toNumber).errors, CreateMissingFields) &&
                invoices == old(invoices) && revalidated == old(revalidated)
      ensures Validate(form, toNumber).Valid? &&
              (fault || newId in old(invoices) || Validate(form, toNumber).fields.customerId !in customers) ==>
                r == Message(CreateFailed) && invoices == old(invoices) && revalidated == old(revalidated)
      ensures Validate(form, toNumber).Valid? &&
              !(fault || newId in old(invoices) || Validate(form, toNumber).fields.customerId !in customers) ==>
                r == Redirected(InvoicesRoute) &&
                invoices == old(invoices)[newId := NewInvoice(newId, Validate(form, toNumber).fields, now)] &&
                revalidated == old(revalidated) + [InvoicesRoute]
    {
      var validated := Validate(form, toNumber);
      if validated.Invalid? {
        return FieldErrors(validated.errors, CreateMissingFields);
      }
      var f := validated.fields;
      if fault || newId in invoices || f.customerId !in customers {
        return Message(CreateFailed);
      }
      invoices := invoices[newId := NewInvoice(newId, f, now)];
      revalidated := revalidated + [InvoicesRoute];
      r := Redirected(InvoicesRoute);
    }

    method UpdateInvoice(id: string, form: InvoiceForm, toNumber: string -> Option<real>, fault: bool)
      returns (r: ActionResult)
      requires Valid()
      modifies this`invoices, this`revalidated
      ensures Valid()
      ensures Validate(form, toNumber).Invalid? ==>
                r == FieldErrors(Validate(form, toNumber).errors, UpdateMissingFields) &&
                invoices == old(invoices) && revalidated == old(revalidated)
      ensures Validate(form, toNumber).Valid? &&
              (fault || id !in old(invoices) || Validate(form, toNumber).fields.customerId !in customers) ==>
                r == Message(UpdateFailed) && invoices == old(invoices) && revalidated == old(revalidated)
      ensures Validate(form, toNumber).Valid? &&
              !(fault || id !in old(invoices) || Validate(form, toNumber).fields.customerId !in customers) ==>
                r == Redirected(InvoicesRoute) &&
                invoices == old(invoices)[id := Revised(old(invoices)[id], Validate(form, toNumber).fields)] &&
                revalidated == old(revalidated) + [InvoicesRoute]
    {
      var validated := Validate(form, toNumber);
      if validated.Invalid? {
        return FieldErrors(validated.errors, UpdateMissingFields);
      }
      var f := validated.fields;
      if fault || id !in invoices || f.customerId !in customers {
        return Message(UpdateFailed);
      }
      invoices := invoices[id := Revised(invoices[id], f)];
      revalidated := revalidated + [InvoicesRoute];
      r := Redirected(InvoicesRoute);
    }

    method DeleteInvoice(id: string, fault: bool) returns (r: ActionResult)
      requires Valid()
      modifies this`invoices, this`revalidated
      ensures Valid()
      ensures fault || id !in old(invoices) ==>
                r == Message(DeleteFailed) && invoices == old(invoices) && revalidated == old(revalidated)
      ensures !(fault || id !in old(invoices)) ==>
                r == Message(Deleted) && invoices == old(invoices) - {id} &&
                revalidated == old(revalidated) + [InvoicesRoute]
    {
      if fault || id !in invoices {
        return Message(DeleteFailed);
      }
      invoices := invoices - {id};
      revalidated := revalidated + [InvoicesRoute];
      r := Message(Deleted);
    }
  }

  /** An update leaves every other invoice alone and, in the one it
      revises, keeps the id and the date. */
  lemma UpdateFrame(invoices: map<string, Invoice>, id: string, f: InvoiceFields)
    requires id in invoices
    ensures var after := invoices[id := Revised(invoices[id], f)];
            after.Keys == invoices.Keys &&
            (forall k :: k in invoices && k != id ==> after[k] == invoices[k]) &&
            after[id].id == invoices[id].id && after[id].date == invoices[id].date &&
            after[id].customerId == f.customerId && after[id].amount == f.amount * 100.0 &&
            after[id].status == StatusText(f.status)
  {
  }

  /** A submitted amount of zero or less is always rejected with an
      `amount` message, so no action writes it. */
  lemma NonPositiveAmountRejected(form: InvoiceForm, toNumber: string -> Option<real>, a: real)
    requires CoerceNumber(form.amount, toNumber) == Some(a) && a <= 0.0
    ensures Validate(form, toNumber).Invalid?
    ensures Validate(form, toNumber).errors[AmountField] == [Custom(AmountNotPositive)]
  {
  }
}
