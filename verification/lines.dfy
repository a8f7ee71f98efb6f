/**
 How invoices, payments and the aging totals become statement line items.
 */
module Lines {
  import opened Records
  import opened Aging

  /** A type-1 row: one per listed invoice. */
  function InvoiceLine(inv: Invoice): LineItem
  {
    LineItem(
      productKey := Text(inv.invoiceNumber),
      customValue1 := Day(inv.invoiceDate),
      customValue2 := DueDateField(inv.dueDate),
      notes := Money(inv.amount),
      cost := inv.balance,
      qty := Number(1),
      typeId := LINE_TYPE_INVOICE)
  }

  /** A type-3 row: one per listed payment. Notes and quantity stay unset. */
  function PaymentLine(p: Payment): LineItem
  {
    LineItem(
      productKey := Text(p.invoiceNumber),
      customValue1 := Day(p.paymentDate),
      customValue2 := Text(p.paymentTypeName),
      notes := Unset,
      cost := p.completedAmount,
      qty := Unset,
      typeId := LINE_TYPE_PAYMENT)
  }

  /** A fresh line item before any field is assigned. */
  const BlankLine: LineItem := LineItem(Unset, Unset, Unset, Unset, 0, Unset, 0)

  /** The type-4 row, built by the same sequence of field assignments as
      `getAging` in GenerateStatementData: the 60-day total is written to the
      first custom value and then overwritten there by the 90-day total, so
      the row shows the other four totals only. */
  function AgingLine(b: Buckets): (r: LineItem)
    ensures r.productKey == Money(b.current)
    ensures r.notes == Money(b.days30)
    ensures r.customValue1 == Money(b.days90)
    ensures r.customValue2 == Unset && r.qty == Unset
    ensures r.cost == b.days120
    ensures r.typeId == LINE_TYPE_AGING
  {
    var item := BlankLine.(productKey := Money(b.current));
    var item := item.(notes := Money(b.days30));
    var item := item.(customValue1 := Money(b.days60));
    var item := item.(customValue1 := Money(b.days90));
    var item := item.(cost := b.days120);
    item.(typeId := LINE_TYPE_AGING)
  }

  /** The invoice rows, one to one and in order with the invoices. */
  function InvoiceLines(invoices: seq<Invoice>): (r: seq<LineItem>)
    ensures |r| == |invoices|
    ensures forall i :: 0 <= i < |invoices| ==>
      && r[i].typeId == LINE_TYPE_INVOICE
      && r[i].productKey == Text(invoices[i].invoiceNumber)
      && r[i].customValue1 == Day(invoices[i].invoiceDate)
      && r[i].customValue2 == DueDateField(invoices[i].dueDate)
      && r[i].notes == Money(invoices[i].amount)
      && r[i].cost == invoices[i].balance
      && r[i].qty == Number(1)
  {
    seq(|invoices|, i requires 0 <= i < |invoices| => InvoiceLine(invoices[i]))
  }

  /** The payment rows, one to one and in order with the payments. */
  function PaymentLines(payments: seq<Payment>): (r: seq<LineItem>)
    ensures |r| == |payments|
    ensures forall i :: 0 <= i < |payments| ==>
      && r[i].typeId == LINE_TYPE_PAYMENT
      && r[i].productKey == Text(payments[i].invoiceNumber)
      && r[i].customValue1 == Day(payments[i].paymentDate)
      && r[i].customValue2 == Text(payments[i].paymentTypeName)
      && r[i].cost == payments[i].completedAmount
      && r[i].notes == Unset && r[i].qty == Unset
  {
    seq(|payments|, i requires 0 <= i < |payments| => PaymentLine(payments[i]))
  }

  /** The aging row shows the current, 30-, 90- and 120-day totals and
      nothing else: whatever the 60-day total is, the row is the same. */
  lemma AgingLineDropsSixtyDays(b: Buckets, other: int)
    ensures AgingLine(b.(days60 := other)) == AgingLine(b)
    ensures AgingLine(b).productKey == Money(b.current)
    ensures AgingLine(b).notes == Money(b.days30)
    ensures AgingLine(b).customValue1 == Money(b.days90)
    ensures AgingLine(b).cost == b.days120
    ensures AgingLine(b).customValue2 == Unset && AgingLine(b).qty == Unset
    ensures AgingLine(b).typeId == LINE_TYPE_AGING
  {
  }

  /** Two aging rows are equal exactly when their buckets agree on every
      total except the 60-day one. */
  lemma AgingLineEquality(b: Buckets, b': Buckets)
    ensures AgingLine(b) == AgingLine(b') <==>
      b.current == b'.current && b.days30 == b'.days30 && b.days90 == b'.days90 && b.days120 == b'.days120
  {
    AgingLineDropsSixtyDays(b, 0);
    AgingLineDropsSixtyDays(b', 0);
  }

  /** The shown parts of an invoice: what its row carries. */
  datatype InvoiceSummary = InvoiceSummary(
    invoiceNumber: string, invoiceDate: Date, dueDate: Option<Date>, amount: int, balance: int)

  function SummaryOf(inv: Invoice): InvoiceSummary
  {
    InvoiceSummary(inv.invoiceNumber, inv.invoiceDate, inv.dueDate, inv.amount, inv.balance)
  }

  /** An invoice row loses nothing it shows: two invoices give the same row
      exactly when number, dates, amount and balance all agree. */
  lemma InvoiceLineEquality(a: Invoice, b: Invoice)
    ensures InvoiceLine(a) == InvoiceLine(b) <==> SummaryOf(a) == SummaryOf(b)
  {
  }

  /** A payment row carries the whole payment: two payments give the same
      row exactly when they are equal. */
  lemma PaymentLineEquality(p: Payment, q: Payment)
    ensures PaymentLine(p) == PaymentLine(q) <==> p == q
  {
  }
}
