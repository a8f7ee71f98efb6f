/**
 Which invoices and payments a statement covers (getInvoices and getPayments
 in GenerateStatementData).

 The inputs are taken to be exactly what the queries return before the
 status and date conditions are added: the client's public invoices
 (archived ones included) ordered by invoice date, and the client's payments
 (archived ones included).
 */
module Selection {
  import opened Records
  import opened Seqs

  /** The date window is added only for the PAID option or an empty option. */
  predicate DateFilterApplies(statusId: int)
  {
    statusId == INVOICE_STATUS_PAID || statusId == 0
  }

  /** Both bounds of the window are inclusive. */
  predicate InWindow(opts: Options, d: Date)
  {
    opts.startDate <= d <= opts.endDate
  }

  /** The status condition exists only for the PAID and UNPAID options. */
  predicate PassesStatusFilter(statusId: int, inv: Invoice)
  {
    if statusId == INVOICE_STATUS_PAID then inv.statusId == INVOICE_STATUS_PAID
    else if statusId == INVOICE_STATUS_UNPAID then inv.statusId != INVOICE_STATUS_PAID
    else true
  }

  predicate PassesDateFilter(opts: Options, inv: Invoice)
  {
    DateFilterApplies(opts.statusId) ==> InWindow(opts, inv.invoiceDate)
  }

  function InvoiceSelector(opts: Options): Invoice -> bool
  {
    (inv: Invoice) => PassesStatusFilter(opts.statusId, inv) && PassesDateFilter(opts, inv)
  }

  function PaymentSelector(opts: Options): Payment -> bool
  {
    (p: Payment) => InWindow(opts, p.paymentDate)
  }

  function InvoiceDateOf(inv: Invoice): int
  {
    inv.invoiceDate
  }

  /** The invoices the statement lists, in query order: those that meet the
      status condition and, for the PAID and empty options, the window. */
  function SelectInvoices(opts: Options, invoices: seq<Invoice>): (r: seq<Invoice>)
    ensures |r| <= |invoices|
    ensures forall inv :: inv in r <==>
      inv in invoices && PassesStatusFilter(opts.statusId, inv) && PassesDateFilter(opts, inv)
  {
    Filter(invoices, InvoiceSelector(opts))
  }

  /** The payments the statement lists: those dated inside the window. */
  function SelectPayments(opts: Options, payments: seq<Payment>): (r: seq<Payment>)
    ensures |r| <= |payments|
    ensures forall p :: p in r <==> p in payments && InWindow(opts, p.paymentDate)
  {
    Filter(payments, PaymentSelector(opts))
  }

  /** PAID: exactly the paid invoices dated inside the window, each as many
      times as it occurs in the input. */
  lemma PaidSelection(opts: Options, invoices: seq<Invoice>)
    requires opts.statusId == INVOICE_STATUS_PAID
    ensures forall inv :: inv in SelectInvoices(opts, invoices) <==>
      inv in invoices && inv.statusId == INVOICE_STATUS_PAID
      && opts.startDate <= inv.invoiceDate && inv.invoiceDate <= opts.endDate
    ensures forall inv ::
      multiset(SelectInvoices(opts, invoices))[inv] ==
        (if inv.statusId == INVOICE_STATUS_PAID && opts.startDate <= inv.invoiceDate <= opts.endDate then multiset(invoices)[inv] else 0)
  {
    FilterMultiplicity(invoices, InvoiceSelector(opts));
  }

  /** UNPAID: exactly the invoices that are not paid, whatever their date. */
  lemma UnpaidSelection(opts: Options, invoices: seq<Invoice>)
    requires opts.statusId == INVOICE_STATUS_UNPAID
    ensures forall inv :: inv in SelectInvoices(opts, invoices) <==>
      inv in invoices && inv.statusId != INVOICE_STATUS_PAID
    ensures forall inv ::
      multiset(SelectInvoices(opts, invoices))[inv] ==
        (if inv.statusId != INVOICE_STATUS_PAID then multiset(invoices)[inv] else 0)
  {
    FilterMultiplicity(invoices, InvoiceSelector(opts));
  }

  /** Empty status: every status, but only invoices dated inside the window. */
  lemma AllStatusesSelection(opts: Options, invoices: seq<Invoice>)
    requires opts.statusId == 0
    ensures forall inv :: inv in SelectInvoices(opts, invoices) <==>
      inv in invoices && opts.startDate <= inv.invoiceDate <= opts.endDate
    ensures forall inv ::
      multiset(SelectInvoices(opts, invoices))[inv] ==
        (if opts.startDate <= inv.invoiceDate <= opts.endDate then multiset(invoices)[inv] else 0)
  {
    FilterMultiplicity(invoices, InvoiceSelector(opts));
  }

  /** Any other non-zero status: neither condition is added, every input
      invoice is listed, in input order. */
  lemma OtherStatusSelection(opts: Options, invoices: seq<Invoice>)
    requires opts.statusId != 0
    requires opts.statusId != INVOICE_STATUS_PAID && opts.statusId != INVOICE_STATUS_UNPAID
    ensures SelectInvoices(opts, invoices) == invoices
  {
    FilterAll(invoices, InvoiceSelector(opts));
  }

  /** The date window never applies without a status that asks for it: an
      UNPAID statement shows an unpaid invoice however far outside the window
      it is dated. */
  lemma UnpaidIgnoresWindow(opts: Options, invoices: seq<Invoice>, inv: Invoice)
    requires opts.statusId == INVOICE_STATUS_UNPAID
    requires inv in invoices && inv.statusId != INVOICE_STATUS_PAID
    requires inv.invoiceDate < opts.startDate || opts.endDate < inv.invoiceDate
    ensures inv in SelectInvoices(opts, invoices)
  {
  }

  /** The selection keeps the query's ascending invoice-date order. */
  lemma SelectionKeepsDateOrder(opts: Options, invoices: seq<Invoice>)
    requires SortedBy(invoices, InvoiceDateOf)
    ensures SortedBy(SelectInvoices(opts, invoices), InvoiceDateOf)
  {
    FilterKeepsOrder(invoices, InvoiceSelector(opts), InvoiceDateOf);
  }

  /** Payments: exactly those dated inside the inclusive window. */
  lemma PaymentSelection(opts: Options, payments: seq<Payment>)
    ensures forall p :: p in SelectPayments(opts, payments) <==>
      p in payments && opts.startDate <= p.paymentDate <= opts.endDate
    ensures forall p ::
      multiset(SelectPayments(opts, payments))[p] ==
        (if opts.startDate <= p.paymentDate <= opts.endDate then multiset(payments)[p] else 0)
  {
    FilterMultiplicity(payments, PaymentSelector(opts));
  }
}

