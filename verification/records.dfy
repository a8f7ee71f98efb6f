/**
 The records the statement assembler reads and the line item it produces.

 Dates are modelled as integers (any totally ordered day number will do) and
 money as integer amounts in the smallest currency unit. Values that
 GenerateStatementData obtains from collaborators whose code is not part of
 this model (the presenter's age group, the requested and completed
 amounts, the payment type's name, the linked invoice's number) are plain
 fields here.
 */
module Records {

  type Date = int

  /** Invoice status identifiers used by the status option. Only the fact that
      they are distinct and non-zero matters to the model. */
  const INVOICE_STATUS_PAID: int := 6
  const INVOICE_STATUS_UNPAID: int := -2

  /** Line-item type discriminants consumed by the presentation layer. */
  const LINE_TYPE_INVOICE: int := 1
  const LINE_TYPE_PAYMENT: int := 3
  const LINE_TYPE_AGING: int := 4

  /** The five age categories the presenter assigns to an invoice. */
  datatype AgeGroup = Current | Days30 | Days60 | Days90 | Days120

  datatype Option<T> = None | Some(value: T)

  datatype Invoice = Invoice(
    invoiceNumber: string,
    invoiceDate: Date,
    dueDate: Option<Date>,
    amount: int,
    balance: int,
    statusId: int,
    ageGroup: AgeGroup,
    requestedAmount: int)

  /** A payment together with what it is joined to: the number of the invoice
      it pays and the name of its payment type. */
  datatype Payment = Payment(
    invoiceNumber: string,
    paymentDate: Date,
    paymentTypeName: string,
    completedAmount: int)

  /** The option bag of the job. `statusId` is the option after integer
      conversion, so an absent or empty option reads as 0. `showPayments`
      and `showAging` are the two switches after PHP's truthiness test, so
      an absent switch reads as false. */
  datatype Options = Options(
    statusId: int,
    startDate: Date,
    endDate: Date,
    showPayments: bool,
    showAging: bool)

  /** The value held by one loosely typed field of a line item. */
  datatype Field = Unset | Text(text: string) | Day(day: Date) | Money(cents: int) | Number(n: int)

  /** One row of the statement body. The same shape carries invoice,
      payment and aging rows, told apart by `typeId`. */
  datatype LineItem = LineItem(
    productKey: Field,
    customValue1: Field,
    customValue2: Field,
    notes: Field,
    cost: int,
    qty: Field,
    typeId: int)

  function DueDateField(d: Option<Date>): Field
  {
    match d
    case None => Unset
    case Some(day) => Day(day)
  }
}
