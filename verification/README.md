# Client statement assembler

A Dafny model of the statement builder `GenerateStatementData` from Invoice
Ninja. The job gathers one client's invoices, optionally their payments and
optionally an accounts-receivable aging summary. It turns them into one
ordered list of line items:

- invoice rows (type 1), one per listed invoice, in invoice-date order;
- when `show_aging` is set, one aging row (type 4) that totals the listed
  invoices' requested amounts into five age buckets;
- when `show_payments` is set, payment rows (type 3), one per payment dated
  inside the window.

Which invoices are listed depends on the `status_id` option:

- PAID keeps paid invoices dated inside the inclusive window.
- UNPAID keeps every invoice that is not paid, whatever its date.
- An empty or zero status keeps every invoice dated inside the window.
- Any other non-zero status keeps every invoice.

The model is a pipeline of pure functions over sequences of records:

- `records.dfy`: the invoice, payment, option and line-item datatypes.
- `seqs.dfy`: an order-preserving filter and a sum, with their lemmas.
- `selection.dfy`: the status and date policy.
- `aging.dfy`: the bucket fold.
- `lines.dfy`: how records become rows.
- `statement.dfy`: the assembly done by `handle` and `getInvoices`.

Amounts are integers (smallest currency unit). Dates are integers.

The aging row is modelled as written. The 60-day total is assigned to
`custom_value1` and then overwritten there by the 90-day total, so it appears
nowhere in the output. The code does not show which field the 60-day total
was meant for, so the model keeps the overwrite and proves its consequences:

- `Lines.AgingLine`: the row shows the current, 30-, 90- and 120-day totals.
- `Lines.AgingLineDropsSixtyDays`: the row does not depend on the 60-day total.
- `Lines.AgingLineEquality`: two rows are equal exactly when the other four
  totals agree.
- `Statement.AgingRowIgnoresSixtyDayInvoices`: removing every 60-day invoice
  leaves the row unchanged.

Three further points of the code that the model follows:

- The aging row comes straight after the invoice rows and before the payment
  rows. `getInvoices` merges it in before `handle` appends the payments.
- The date window is added only for PAID and for an empty status, so every
  other non-zero status skips it, UNPAID included. The status condition is
  added only for PAID and UNPAID.
- Aging buckets sum each invoice's requested amount (`getRequestedAmount`),
  not its balance.

The status constants are `INVOICE_STATUS_PAID = 6` and
`INVOICE_STATUS_UNPAID = -2`. These are the application's constant
definitions. The file that defines them is not part of this model. The proofs
use only that the two values differ and are non-zero.

## Model

| member | source | states |
|---|---|---|
| `Selection.SelectInvoices` | app/Jobs/Client/GenerateStatementData.php:43-62 | the listing is no longer than the input and holds exactly the input invoices that meet the status condition (PAID only paid, UNPAID only unpaid, otherwise none) and, for PAID or an empty status, the inclusive window; the per-status lemmas below spell each case out |
| `Selection.SelectPayments` | app/Jobs/Client/GenerateStatementData.php:90-97 | the payment listing is no longer than the input and holds exactly the input payments dated inside the inclusive window (multiplicity in `Selection.PaymentSelection`) |
| `Selection.PaidSelection` | app/Jobs/Client/GenerateStatementData.php:53-62 | with status PAID an invoice is listed iff it is paid and start ≤ invoice date ≤ end, both bounds inclusive; each such invoice appears as often as in the input |
| `Selection.UnpaidSelection` | app/Jobs/Client/GenerateStatementData.php:53-62 | with status UNPAID an invoice is listed iff its status is not PAID, with no date condition, at its input multiplicity |
| `Selection.AllStatusesSelection` | app/Jobs/Client/GenerateStatementData.php:43-62 | with an empty/zero status there is no status condition; an invoice is listed iff it is dated inside the window |
| `Selection.OtherStatusSelection` | app/Jobs/Client/GenerateStatementData.php:53-62 | any other non-zero status adds neither condition: the listing is the input, unchanged and in order |
| `Selection.UnpaidIgnoresWindow` | app/Jobs/Client/GenerateStatementData.php:59-62 | with status UNPAID an unpaid invoice dated outside the window is still listed |
| `Selection.SelectionKeepsDateOrder` | app/Jobs/Client/GenerateStatementData.php:51-64 | if the query delivers invoices in ascending invoice date, the listing is still ascending |
| `Selection.PaymentSelection` | app/Jobs/Client/GenerateStatementData.php:90-97 | a payment is listed iff start ≤ payment date ≤ end, at its input multiplicity |
| `Lines.InvoiceLines` | app/Jobs/Client/GenerateStatementData.php:67-78 | one row per listed invoice, same order; row i has product_key = invoice number, custom_value1 = invoice date, custom_value2 = due date, notes = amount, cost = balance, qty = 1, type 1 |
| `Lines.InvoiceLineEquality` | app/Jobs/Client/GenerateStatementData.php:70-76 | two invoices give the same row iff their number, invoice date, due date, amount and balance agree (nothing shown is lost) |
| `Lines.PaymentLines` | app/Jobs/Client/GenerateStatementData.php:100-109 | one row per listed payment, same order; row i has product_key = linked invoice number, custom_value1 = payment date, custom_value2 = payment type name, cost = completed (net) amount, type 3, notes and qty unset |
| `Lines.PaymentLineEquality` | app/Jobs/Client/GenerateStatementData.php:102-107 | two payments give the same row iff they are equal: the row carries the whole payment record |
| `Aging.AddTo` | app/Jobs/Client/GenerateStatementData.php:126-127 | adding an invoice's requested amount changes its own group's bucket by that amount and leaves the other four unchanged |
| `Aging.AgingBuckets` | app/Jobs/Client/GenerateStatementData.php:117-128 | after the fold each bucket equals the sum of requested amounts of exactly the invoices of its group, and the five buckets together equal the total requested amount |
| `Aging.DroppingGroupKeepsOtherTotals` | app/Jobs/Client/GenerateStatementData.php:125-128 | removing all invoices of one age group leaves every other group's total unchanged |
| `Lines.AgingLine` | app/Jobs/Client/GenerateStatementData.php:130-137 | the aging row has product_key = current total, notes = 30-day total, custom_value1 = 90-day total (the 60-day total written there first is overwritten), cost = 120-day total, custom_value2 and qty unset, type 4 |
| `Lines.AgingLineDropsSixtyDays` | app/Jobs/Client/GenerateStatementData.php:130-137 | the aging row has product_key = current total, notes = 30-day total, custom_value1 = 90-day total, cost = 120-day total, type 4, and is the same whatever the 60-day total is |
| `Lines.AgingLineEquality` | app/Jobs/Client/GenerateStatementData.php:130-137 | two aging rows are equal iff the current, 30-, 90- and 120-day totals agree; the 60-day total plays no part |
| `Statement.InvoiceSection` | app/Jobs/Client/GenerateStatementData.php:64-85 | what `getInvoices` returns: one row per listed invoice, the k-th being the k-th listed invoice's row, followed, when show_aging is set, by exactly one aging row over the listed invoices |
| `Statement.PaymentSection` | app/Jobs/Client/GenerateStatementData.php:97-111 | what `getPayments` returns: exactly one row per payment in the window, the k-th being the k-th such payment's row |
| `Statement.StatementLines` | app/Jobs/Client/GenerateStatementData.php:32-36 | output length = number of listed invoices + (1 if show_aging) + (number of payments in the window if show_payments) |
| `Statement.InvoiceRowAt` | app/Jobs/Client/GenerateStatementData.php:67-78 | the k-th row of the statement is the row of the k-th listed invoice |
| `Statement.AgingRowAt` | app/Jobs/Client/GenerateStatementData.php:80-83 | with show_aging, the row right after the invoice rows is the aging row over the listed invoices |
| `Statement.PaymentRowAt` | app/Jobs/Client/GenerateStatementData.php:34-35 | with show_payments, the k-th payment row follows all invoice and aging rows and is the row of the k-th payment in the window |
| `Statement.StatementLayout` | app/Jobs/Client/GenerateStatementData.php:32-83 | row k < n is the row of the k-th listed invoice; with aging, row n is the aging row over the listed invoices; with payments, row n + a + k is the row of the k-th payment in the window |
| `Statement.TypeCount` | app/Jobs/Client/GenerateStatementData.php:32-36 | the number of rows of each type is the sum of that type's count in each of the three parts |
| `Statement.InvoiceRowCount` | app/Jobs/Client/GenerateStatementData.php:67-78 | the statement has exactly as many type-1 rows as listed invoices |
| `Statement.AgingRowCount` | app/Jobs/Client/GenerateStatementData.php:80-83 | the statement has exactly one type-4 row when show_aging is set and none otherwise |
| `Statement.PaymentRowCount` | app/Jobs/Client/GenerateStatementData.php:34-35 | the statement has one type-3 row per payment in the window when show_payments is set and none otherwise |
| `Statement.StatementSectionOrder` | app/Jobs/Client/GenerateStatementData.php:32-36 | rows are never interleaved: every invoice row precedes the aging row, which precedes every payment row |
| `Statement.StatementInvoiceDatesAscending` | app/Jobs/Client/GenerateStatementData.php:51-78 | with invoices delivered in ascending date order, the invoice rows carry dates in ascending order |
| `Statement.AgingLineTotals` | app/Jobs/Client/GenerateStatementData.php:125-136 | the aging row over a listing shows the current, 30-, 90- and 120-day group totals of that listing |
| `Statement.AgingRowTotals` | app/Jobs/Client/GenerateStatementData.php:80-83 | the aging row of the statement is computed over the listed invoices only, after the status and date filters |
| `Statement.AgingRowIgnoresSixtyDayInvoices` | app/Jobs/Client/GenerateStatementData.php:133-134 | removing every 60-day invoice from the listing leaves the aging row unchanged: the 60-day total is lost |
| `Statement.EmptyClientStatement` | app/Jobs/Client/GenerateStatementData.php:32-36 | a client with no invoices and no payments gets an empty statement, or just an all-zero aging row when show_aging is set |
| `Statement.PaidInvoiceWithPaymentExample` | app/Jobs/Client/GenerateStatementData.php:32-109 | one paid in-window invoice (amount 100, balance 0) and its net-100 payment give exactly two rows: invoice row (notes 100, cost 0), then payment row (cost 100) |

## Left out

- Query scoping and eager loading (`scope()`, `invoices()`, `whereClientId`, `whereIsPublic`, `withArchived`, `with(...)`). The inputs are taken to be the client's public records, archived ones included.
- Ordering of invoices by the database (`orderBy('invoice_date')`). Sorted input is a premise of the order lemmas, not something the model performs.
- The payments query has no `orderBy`. The model keeps payment rows in input order.
- PHP truthiness of the raw `show_payments` and `show_aging` options (lines 34 and 80). Both switches are taken as booleans after that test, and a missing key reads as false.
- Integer conversion of the raw `status_id` option (`intval`). The model takes the converted integer, where an absent or empty option is 0.
- `createInvoice`, the date-format default, the `client` attribute and `json_encode` (lines 26-30, 38). These are presentation and serialization concerns.
- The presenter's `ageGroup`, `getRequestedAmount`, `getCompletedAmount`, the payment type's name and the linked invoice's number. Their code is not part of this model, so each is a plain record field.
- An age group outside the five known keys, and a payment with no payment type or no invoice. PHP would create a new array key or read null. The model's age group is a five-valued type and its payment fields are always present.
- Laravel `Collection::merge` is taken as plain concatenation. It renumbers the integer keys of these lists.
- Database date comparison is taken as integer comparison.
- Money is integers, not decimals or floats.
- Job dispatch and the database fetches themselves.
